/**
 * Wallets, matches, queued jobs and pending events as one system that takes labelled steps. Jobs and
 * events wait in multisets, so they may run in any order; each label names one atomic handler or job,
 * with every outside choice (ids, dice totals, winners, failures) as its argument. A label that does
 * not apply in a state does nothing there, so a run is any sequence of labels.
 */
module MatchProtocol {
  import opened Collections
  import opened Ledger
  import opened Games
  import opened WalletOperations
  import opened LedgerLaws
  import opened WalletMaintenance
  import Dice

  datatype System = System(
    treatBotAsUser: bool,
    books: Books,
    games: map<GameId, Game>,
    jobs: multiset<Job>,
    events: multiset<Event>,
    reverted: set<GameId>,     // games whose holds the stale-game job has refunded
    releases: seq<GameId>,     // the game of every RELEASE_FUNDS job ever queued
    deposited: int,            // what the completed deposits and withdrawals came to
    withdrawn: int)

  datatype Label =
    | NewWallet(user: UserId)
    | RequestDeposit(user: UserId, amount: int, reference: string)
    | RequestWithdraw(user: UserId, amount: int, reference: string)
    | NewGame(matchId: GameId, players: seq<Player>, config: Config, turn: UserId)
    | Connect(matchId: GameId, user: UserId)
    | RunJob(job: Job)
    | LoseJob(job: Job)
    | Deliver(event: Event)
    | LoseEvent(event: Event)
    | Roll(matchId: GameId, user: UserId, total: int)
    | BotMove(matchId: GameId, user: UserId, total: int)
    | RoundEnd(matchId: GameId, winnerId: UserId)
    | RevertStaleGames(failing: set<GameId>)

  function Init(treatBotAsUser: bool): System {
    System(treatBotAsUser, EMPTY_BOOKS, map[], multiset{}, multiset{}, {}, [], 0, 0)
  }

  predicate Mentions(job: Job, game: GameId) {
    (job.LockJob? || job.ReleaseJob? || job.RevertJob?) && job.gameId == game
  }

  ghost predicate NoJobs(jobs: multiset<Job>, game: GameId) {
    forall j :: j in jobs ==> !Mentions(j, game)
  }

  ghost predicate NoEvents(events: multiset<Event>, game: GameId) {
    forall e :: e in events ==> e.matchId != game
  }

  function LockOf(g: Game, user: UserId): Job {
    LockJob(user, g.config.betAmount, g.matchId, false)
  }

  /** The player's bet of this round is counted, or may still be: its lock job or its event is pending. */
  predicate Coming(g: Game, jobs: multiset<Job>, events: multiset<Event>, user: UserId) {
    user in g.lockedPlayers || LockOf(g, user) in jobs || FundsLocked(g.matchId, user) in events
  }

  /** The bets of this round may all come in: the players are distinct, and none of their bets is lost. */
  ghost predicate CanStart(g: Game, jobs: multiset<Job>, events: multiset<Event>) {
    Collections.Distinct(UserIds(g.players)) && forall u :: u in UserIds(g.players) ==> Coming(g, jobs, events, u)
  }

  /** The match may still pay out: it is in play, or can get into play, or its release is queued. */
  ghost predicate Live(g: Game, jobs: multiset<Job>, events: multiset<Event>) {
    match g.status
    case LOADING => false
    case BETTING => CanStart(g, jobs, events)
    case PLAYING => true
    case SETTLED => exists j :: j in jobs && j.ReleaseJob? && j.gameId == g.matchId
  }

  ghost predicate IsLive(s: System, game: GameId) {
    game in s.games && Live(s.games[game], s.jobs, s.events)
  }

  /** The stale-game job may run: no game it is going to revert is live, and each can be given back. */
  ghost predicate MayRevert(s: System, failing: set<GameId>) {
    forall g :: HasHeld(s.books.holds, g) && g !in failing ==> !IsLive(s, g) && Refundable(s.books, g)
  }

  function ReleasesIn(jobs: seq<Job>): seq<GameId> {
    if jobs == [] then [] else
      var j := jobs[|jobs| - 1];
      ReleasesIn(jobs[..|jobs| - 1]) + if j.ReleaseJob? then [j.gameId] else []
  }

  /** Stores a match and queues the jobs that its handler asked for. */
  function Store(s: System, result: (Game, seq<Job>)): System {
    s.(games := s.games[result.0.matchId := result.0],
       jobs := s.jobs + multiset(result.1),
       releases := s.releases + ReleasesIn(result.1))
  }

  function RunOne(s: System, job: Job): System {
    var (books, events, reply) := ProcessJob(s.books, job);
    s.(books := books,
       jobs := s.jobs - multiset{job},
       events := s.events + multiset(events),
       deposited := s.deposited + if job.DepositJob? && reply == Done then job.amount else 0,
       withdrawn := s.withdrawn + if job.WithdrawJob? && reply == Done then job.amount else 0)
  }

  function Delivered(s: System, e: Event): System
    requires e.matchId in s.games
  {
    s.(events := s.events - multiset{e},
       games := s.games[e.matchId := HandleFundsLocked(s.games[e.matchId], e.userId)])
  }

  function StaleReverted(s: System, failing: set<GameId>): System {
    s.(books := Sweep(s.books, failing),
       reverted := s.reverted + set g | g in HeldGames(s.books.holds) && g !in failing)
  }

  function Opened(s: System, user: UserId): System {
    s.(books := CreateWallet(s.books, user))
  }

  ghost function Do(s: System, step: Label): System {
    match step
    case NewWallet(user) => Opened(s, user)
    case RequestDeposit(user, amount, reference) => s.(jobs := s.jobs + multiset{DepositJob(user, amount, reference)})
    case RequestWithdraw(user, amount, reference) => s.(jobs := s.jobs + multiset{WithdrawJob(user, amount, reference)})
    case NewGame(id, players, config, turn) =>
      if id in s.games then s else s.(games := s.games[id := CreateGame(id, players, config, turn)])
    case Connect(id, user) =>
      if id !in s.games then s else Store(s, HandlePlayerConnected(s.games[id], user, s.treatBotAsUser))
    case RunJob(job) => if job !in s.jobs then s else RunOne(s, job)
    case LoseJob(job) => s.(jobs := s.jobs - multiset{job})
    case Deliver(e) =>
      if e !in s.events || e.matchId !in s.games then s.(events := s.events - multiset{e}) else
        Delivered(s, e)
    case LoseEvent(e) => s.(events := s.events - multiset{e})
    case Roll(id, user, total) =>
      if id !in s.games then s else Store(s, Dice.HandleRoll(s.games[id], user, total, s.treatBotAsUser))
    case BotMove(id, user, total) =>
      if id !in s.games then s else Store(s, Dice.HandleBotMove(s.games[id], user, total, s.treatBotAsUser))
    case RoundEnd(id, winnerId) =>
      if id !in s.games || s.games[id].status != PLAYING then s
      else Store(s, HandleRoundEnd(s.games[id], winnerId, s.treatBotAsUser))
    case RevertStaleGames(failing) =>
      if !MayRevert(s, failing) then s else StaleReverted(s, failing)
  }

  ghost function Run(s: System, labels: seq<Label>): System {
    if labels == [] then s else Do(Run(s, labels[..|labels| - 1]), labels[|labels| - 1])
  }
}
