/**
 * A match as the game manager stores it, and what each of the manager's handlers does to it. A handler
 * returns the new match and the wallet jobs it queues, in order. User ids are plain strings; an empty
 * `turn` or `winnerId` stands for one that is missing, since the code treats both alike.
 */
module Games {
  import opened Collections
  import opened Ledger

  datatype Status = LOADING | BETTING | PLAYING | SETTLED

  datatype Player = Player(userId: UserId, isBot: bool)
  datatype Bet = Bet(userId: UserId, amount: int)
  datatype HistoryEntry = HistoryEntry(round: nat, winnerId: UserId, bets: seq<Bet>)
  datatype Winner = Winner(winnerId: UserId, payout: int)
  datatype Config = Config(betAmount: int, targetNumber: Option<int>, maxRounds: nat)

  datatype Game = Game(
    matchId: GameId,
    status: Status,
    players: seq<Player>,
    round: nat,
    maxRounds: nat,
    pot: int,
    roundHistory: seq<HistoryEntry>,
    config: Config,
    currentTurnIndex: nat,
    turn: UserId,
    connectedPlayers: seq<UserId>,
    lockedPlayers: seq<UserId>,
    dice: map<UserId, int>,
    winner: Option<Winner>)

  /** The jobs of the wallet operations queue. */
  datatype Job =
    | DepositJob(userId: UserId, amount: int, reference: string)
    | WithdrawJob(userId: UserId, amount: int, reference: string)
    | LockJob(userId: UserId, amount: int, gameId: GameId, shouldSkipWallet: bool)
    | ReleaseJob(winnerUserId: UserId, amount: int, gameId: GameId)
    | RevertJob(gameId: GameId)

  function UserIds(players: seq<Player>): seq<UserId> {
    seq(|players|, i requires 0 <= i < |players| => players[i].userId)
  }

  function Humans(players: seq<Player>): nat {
    if players == [] then 0 else
      Humans(players[..|players| - 1]) + if players[|players| - 1].isBot then 0 else 1
  }

  predicate HasBot(players: seq<Player>) {
    exists i :: 0 <= i < |players| && players[i].isBot
  }

  predicate Practice(players: seq<Player>, treatBotAsUser: bool) {
    HasBot(players) && !treatBotAsUser
  }

  /** The index of the first player with this id, or the number of players if there is none. */
  function IndexOf(players: seq<Player>, user: UserId): (i: nat)
    ensures i <= |players|
    ensures i < |players| ==> players[i].userId == user
    ensures forall j :: 0 <= j < i ==> players[j].userId != user
  {
    if players == [] || players[0].userId == user then 0 else 1 + IndexOf(players[1..], user)
  }

  function StartIndex(players: seq<Player>, turn: UserId): nat {
    var i := IndexOf(players, turn);
    if turn != "" && i < |players| then i else 0
  }

  function CreateGame(matchId: GameId, players: seq<Player>, config: Config, turn: UserId): Game {
    Game(matchId, LOADING, players, 1, if config.maxRounds == 0 then 1 else config.maxRounds, 0, [],
         config, StartIndex(players, turn), turn, [], [], map[], None)
  }

  function LockJobs(g: Game, treatBotAsUser: bool): seq<Job> {
    seq(|g.players|, i requires 0 <= i < |g.players| =>
      LockJob(g.players[i].userId, g.config.betAmount, g.matchId, g.players[i].isBot && !treatBotAsUser))
  }

  function TransitionToBetting(g: Game, treatBotAsUser: bool): (Game, seq<Job>) {
    if Practice(g.players, treatBotAsUser) then
      (g.(status := PLAYING, lockedPlayers := UserIds(g.players)), [])
    else
      (g.(status := BETTING, lockedPlayers := []), LockJobs(g, treatBotAsUser))
  }

  function HandlePlayerConnected(g: Game, user: UserId, treatBotAsUser: bool): (Game, seq<Job>) {
    if g.status != LOADING then (g, []) else
      var connected := if user in g.connectedPlayers then g.connectedPlayers else g.connectedPlayers + [user];
      var g' := g.(connectedPlayers := connected);
      if |connected| >= Humans(g.players) then TransitionToBetting(g', treatBotAsUser) else (g', [])
  }

  function HandleFundsLocked(g: Game, user: UserId): Game {
    if g.status != BETTING then g else
      var g' := if user in g.lockedPlayers then g
                else g.(lockedPlayers := g.lockedPlayers + [user], pot := g.pot + g.config.betAmount);
      if |g'.lockedPlayers| == |g.players| then g'.(status := PLAYING) else g'
  }

  function EndGame(g: Game, winnerId: UserId, payout: int, treatBotAsUser: bool): (Game, seq<Job>) {
    (g.(status := SETTLED, winner := if winnerId != "" then Some(Winner(winnerId, payout)) else g.winner),
     if Practice(g.players, treatBotAsUser) || winnerId == "" then [] else [ReleaseJob(winnerId, g.pot, g.matchId)])
  }

  function Record(g: Game, winnerId: UserId): Game {
    var bets := seq(|g.players|, i requires 0 <= i < |g.players| => Bet(g.players[i].userId, g.config.betAmount));
    g.(roundHistory := g.roundHistory + [HistoryEntry(g.round, winnerId, bets)])
  }

  /** Called by an engine with a match in play. */
  function HandleRoundEnd(g: Game, winnerId: UserId, treatBotAsUser: bool): (Game, seq<Job>) {
    var h := Record(g, winnerId);
    if h.round >= h.maxRounds then EndGame(h, winnerId, h.pot, treatBotAsUser)
    else TransitionToBetting(h.(round := h.round + 1), treatBotAsUser)
  }
}
