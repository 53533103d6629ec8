/** From two tickets to a match: what the pair is charged, and whether it survives a tie. */
module MatchCreation {
  import opened Collections
  import opened Ledger
  import opened Games
  import opened Dice
  import opened DiceLaws
  import opened MatchConnections
  import MatchQueue
  import MatchInvariant
  import MatchProtocol
  import MatchTheorems

  /** The match created for a dice pair: the first ticket's bet, two human players, and one of them to begin. */
  function MatchOf(m: MatchQueue.Match, matchId: GameId, target: int, firstBegins: bool): Game {
    CreateGame(matchId, [Player(m.first.userId, false), Player(m.second.userId, false)],
               Config(m.first.betAmount, Some(target), 0), if firstBegins then m.first.userId else m.second.userId)
  }

  /**
   * Once both tickets' players have connected, each is charged the amount his own ticket offered if and only if they
   * are two users and both tickets offer the same: the queue compares neither bets nor users, and the second bet
   * is ignored. Two users are charged in any case, and a user paired with himself is not.
   */
  lemma OwnBetsIff(m: MatchQueue.Match, matchId: GameId, target: int, firstBegins: bool, treatBotAsUser: bool)
    ensures var g := MatchOf(m, matchId, target, firstBegins);
            var one := HandlePlayerConnected(g, m.first.userId, treatBotAsUser).0;
            var (both, jobs) := HandlePlayerConnected(one, m.second.userId, treatBotAsUser);
            && one.status == LOADING
            && both.status == (if m.first.userId != m.second.userId then BETTING else LOADING)
            && (jobs == [] <==> m.first.userId == m.second.userId)
            && (jobs == [LockJob(m.first.userId, m.first.betAmount, matchId, false),
                         LockJob(m.second.userId, m.second.betAmount, matchId, false)]
                <==> m.first.userId != m.second.userId && m.first.betAmount == m.second.betAmount)
  {
    var g := MatchOf(m, matchId, target, firstBegins);
    TwoHumans(g.players);
    HumansCount(g.players);
    hide Humans, HumanIds;
    var (both, jobs) := TransitionToBetting(g, treatBotAsUser);
    assert jobs == [LockJob(m.first.userId, m.first.betAmount, matchId, false),
                    LockJob(m.second.userId, m.first.betAmount, matchId, false)];
  }

  /**
   * A user who is paired with himself cannot play: however often he connects the match keeps waiting, and in no
   * reachable state, whoever else connects, does a match of these players get past collecting its first bets.
   */
  lemma OwnOpponentNeverPlays(m: MatchQueue.Match, matchId: GameId, target: int, firstBegins: bool,
                              users: seq<UserId>, treatBotAsUser: bool, labels: seq<MatchProtocol.Label>)
    requires m.first.userId == m.second.userId
    requires forall u :: u in users ==> u == m.first.userId
    requires matchId in MatchTheorems.Reached(treatBotAsUser, labels).games
    ensures var g := MatchOf(m, matchId, target, firstBegins);
            var h := MatchTheorems.Reached(treatBotAsUser, labels).games[matchId];
            && ConnectAll(g, users, treatBotAsUser).status == LOADING
            && (h.players == g.players ==> h.status == LOADING || (h.status == BETTING && h.round == 1))
  {
    var g := MatchOf(m, matchId, target, firstBegins);
    TwoHumans(g.players);
    ConnectionsStart(matchId, g.players, g.config, g.turn, users, treatBotAsUser);
    forall u | u in Elements(users)
      ensures u in {m.first.userId}
    {
      assert u in users;
    }
    SubsetCardinality(Elements(users), {m.first.userId});
    assert UserIds(g.players)[0] == UserIds(g.players)[1];
    MatchTheorems.PotInvariant(treatBotAsUser, labels, matchId);
  }

  lemma TwoHumans(players: seq<Player>)
    requires |players| == 2 && !players[0].isBot && !players[1].isBot
    ensures HumanIds(players) == [players[0].userId, players[1].userId] && !HasBot(players)
  {
    assert players[..1] == [players[0]] && players[..1][..0] == [];
    assert HumanIds(players[..1]) == [players[0].userId];
  }

  lemma MoveStoresRoll(g: Game, user: UserId, total: int)
    requires ProcessMove(g, user, total).Some?
    ensures ProcessMove(g, user, total).value.dice == g.dice[user := total]
  {
  }

  lemma RollIsMove(g: Game, user: UserId, total: int, treatBotAsUser: bool)
    requires g.status == PLAYING && g.turn == user && ProcessMove(g, user, total).Some?
    ensures HandleRoll(g, user, total, treatBotAsUser) == AfterMove(ProcessMove(g, user, total).value, treatBotAsUser)
  {
    hide ProcessMove, AfterMove;
  }

  lemma NotAllRolled(g: Game, treatBotAsUser: bool)
    requires |g.dice| < |g.players|
    ensures AfterMove(g, treatBotAsUser) == (g, [])
  {
    hide Hitters;
  }

  /** The first of the two to roll leaves one roll to go, and the turn with the other. */
  lemma FirstRoll(g: Game, start: nat, a: UserId, b: UserId, total: int, treatBotAsUser: bool)
    requires |g.players| == 2 && start < 2 && g.status == PLAYING && RoundShape(g, start, 0)
    requires g.turn == a == g.players[start].userId && b == g.players[1 - start].userId
    ensures var h := HandleRoll(g, a, total, treatBotAsUser).0;
            && h.players == g.players && h.config == g.config && h.status == PLAYING
            && RoundShape(h, start, 1) && h.turn == b && h.dice == g.dice[a := total]
            && Seat(start, 1, 2) == 1 - start
  {
    hide *;
    SeatValue(start, 0, 2);
    SeatValue(start, 1, 2);
    MovedShape(g, start, 0, a, total);
    MoveStoresRoll(g, a, total);
    NotAllRolled(ProcessMove(g, a, total).value, treatBotAsUser);
    RollIsMove(g, a, total, treatBotAsUser);
  }

  /** When both have rolled the target, somebody may roll afterwards if and only if the round began at index 0. */
  lemma TiedRoll(g: Game, start: nat, b: UserId, total: int, treatBotAsUser: bool)
    requires |g.players| == 2 && start < 2 && g.status == PLAYING && RoundShape(g, start, 1)
    requires g.turn == b == g.players[1 - start].userId && Seat(start, 1, 2) == 1 - start
    requires g.config.targetNumber == Some(total)
    requires g.players[start].userId in g.dice && g.dice[g.players[start].userId] == total
    ensures var h := HandleRoll(g, b, total, treatBotAsUser).0;
            && h.status == PLAYING
            && ((exists u :: MayRoll(h, u)) <==> start == 0)
  {
    OnlyTheNextMoves(g, start, 1, b, total);
    MovedShape(g, start, 1, b, total);
    MoveStoresRoll(g, b, total);
    RollIsMove(g, b, total, treatBotAsUser);
    var moved := ProcessMove(g, b, total).value;
    hide ProcessMove, HandleRoll, AfterMove, Seat, RoundShape, MayRoll;
    assert HitsAt(moved, start) && HitsAt(moved, 1 - start);
    assert Tie(moved);
    TieKeepsTurnIff(g, start, b, total, treatBotAsUser);
  }

  lemma PlayTwo(g: Game, x: Move, y: Move, treatBotAsUser: bool)
    ensures Play(g, [x, y], treatBotAsUser) == Apply(Apply(g, x, treatBotAsUser), y, treatBotAsUser)
  {
    assert [x, y][..1] == [x] && [x][..0] == [];
    hide Apply;
    assert Play(g, [x], treatBotAsUser) == Apply(g, x, treatBotAsUser);
  }

  /**
   * If both players of a pair roll the target, the match goes on if and only if the first ticket's player
   * had begun; otherwise nobody can roll again. (A user paired with himself never gets into play.)
   */
  lemma PairSurvivesTieIff(m: MatchQueue.Match, matchId: GameId, target: int, firstBegins: bool, treatBotAsUser: bool)
    requires m.first.userId != m.second.userId && m.first.userId != "" && m.second.userId != ""
    ensures var g := MatchOf(m, matchId, target, firstBegins).(status := PLAYING);
            var (a, b) := if firstBegins then (m.first.userId, m.second.userId) else (m.second.userId, m.first.userId);
            var h := Play(g, [Human(a, target), Human(b, target)], treatBotAsUser);
            && h.status == PLAYING
            && ((exists u :: MayRoll(h, u)) <==> firstBegins)
  {
    var g := MatchOf(m, matchId, target, firstBegins).(status := PLAYING);
    var (a, b) := if firstBegins then (m.first.userId, m.second.userId) else (m.second.userId, m.first.userId);
    var start := if firstBegins then 0 else 1;
    CreatedInRound(matchId, g.players, g.config, g.turn);
    assert IndexOf(g.players, g.turn) == start by {
      assert g.players[start].userId == g.turn && g.players[1 - start].userId != g.turn;
    }
    var created := CreateGame(matchId, g.players, g.config, g.turn);
    assert created == MatchOf(m, matchId, target, firstBegins) && RoundShape(created, start, 0);
    assert g.currentTurnIndex == start && RoundShape(g, start, 0);
    hide RoundShape, HandleRoll, MayRoll;
    FirstRoll(g, start, a, b, target, treatBotAsUser);
    TiedRoll(HandleRoll(g, a, target, treatBotAsUser).0, start, b, target, treatBotAsUser);
    PlayTwo(g, Human(a, target), Human(b, target), treatBotAsUser);
  }
}
