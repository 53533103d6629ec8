/** The stale-game step, the induction over runs, and what every reachable state satisfies. */
module MatchTheorems {
  import opened Collections
  import opened Ledger
  import opened Games
  import opened WalletOperations
  import opened LedgerLaws
  import opened WalletMaintenance
  import opened MatchProtocol
  import opened MatchInvariant
  import opened MatchHandlers
  import opened MatchSteps
  import opened MatchRuns
  import Dice

  // ---------------------------------------------------------------------------------------------
  // The stale-game job
  // ---------------------------------------------------------------------------------------------

  lemma {:induction false} SameHolds(holds: seq<Hold>, after: seq<Hold>, x: GameId)
    requires |after| == |holds|
    requires forall i :: 0 <= i < |holds| ==> after[i].gameId == holds[i].gameId
    requires forall i :: 0 <= i < |holds| && holds[i].gameId == x ==> after[i] == holds[i]
    ensures HeldOf(after, x) == HeldOf(holds, x)
    ensures forall u :: HeldBy(after, x, u) == HeldBy(holds, x, u)
  {
    if holds != [] {
      SameHolds(holds[..|holds| - 1], after[..|holds| - 1], x);
    }
  }

  lemma SameHolders(holds: seq<Hold>, after: seq<Hold>, x: GameId)
    requires |after| == |holds|
    requires forall i :: 0 <= i < |holds| ==> after[i].gameId == holds[i].gameId && after[i].wallet == holds[i].wallet
    ensures Holders(after, x) == Holders(holds, x)
  {
  }

  ghost predicate Hit(s: System, failing: set<GameId>, x: GameId) {
    HasHeld(s.books.holds, x) && x !in failing
  }

  /** The sweep keeps every hold's wallet and game, and the whole hold unless its game is reverted. */
  lemma SweptHolds(b: Books, failing: set<GameId>, x: GameId)
    requires Known(b) && Mirrored(b)
    ensures var after := Sweep(b, failing).holds;
            && Holders(after, x) == Holders(b.holds, x)
            && (!(HasHeld(b.holds, x) && x !in failing) ==>
                  HeldOf(after, x) == HeldOf(b.holds, x) && forall u :: HeldBy(after, x, u) == HeldBy(b.holds, x, u))
  {
    SweepComplete(b, failing);
    var after := Sweep(b, failing).holds;
    hide Sweep, HeldOf, HeldBy, HasHeld, Holders, Known, Mirrored;
    SameHolders(b.holds, after, x);
    if !(HasHeld(b.holds, x) && x !in failing) {
      SameHolds(b.holds, after, x);
    }
  }

  lemma InvBooks(s: System)
    requires Inv(s)
    ensures Known(s.books) && Mirrored(s.books)
  {
  }

  lemma SweepView(s: System, failing: set<GameId>, x: GameId)
    requires Inv(s) && MayRevert(s, failing)
    ensures var s' := StaleReverted(s, failing);
            && s'.jobs == s.jobs && s'.events == s.events
            && Holders(s'.books.holds, x) == Holders(s.books.holds, x)
            && (x in s'.reverted <==> x in s.reverted || Hit(s, failing, x))
            && (!Hit(s, failing, x) ==> SameView(x, ViewOf(s, x), ViewOf(s', x)))
  {
    InvBooks(s);
    SweptHolds(s.books, failing, x);
    HeldGamesExact(s.books.holds);
    hide Inv, MayRevert, Sweep, HeldGames, HeldOf, HeldBy, Holders, HasHeld, Known, Mirrored;
  }

  /** A match that is not live stays good when its holds are refunded. */
  lemma DeadReverted(g: Game, v: View, w: View, treatBotAsUser: bool)
    requires GameOk(g, v, treatBotAsUser) && !Live(g, v.jobs, v.events)
    requires w.jobs == v.jobs && w.events == v.events
    requires Holders(w.holds, g.matchId) == Holders(v.holds, g.matchId) != {}
    requires w.reverted
    ensures GameOk(g, w, treatBotAsUser)
  {
    hide CanStart, HeldOf, HeldBy, Holders;
  }

  lemma SweepGame(s: System, failing: set<GameId>, x: GameId)
    requires Inv(s) && MayRevert(s, failing) && x in s.games
    ensures GameOk(s.games[x], ViewOf(StaleReverted(s, failing), x), s.treatBotAsUser)
  {
    var s' := StaleReverted(s, failing);
    SweepView(s, failing, x);
    if Hit(s, failing, x) {
      assert !IsLive(s, x);
      var i :| 0 <= i < |s.books.holds| && s.books.holds[i].gameId == x && s.books.holds[i].status == HELD;
      assert s.books.holds[i].wallet in Holders(s.books.holds, x);
      DeadReverted(s.games[x], ViewOf(s, x), ViewOf(s', x), s.treatBotAsUser);
    } else {
      FrameIn(s, s', x);
    }
  }

  lemma SweepLinked(s: System, failing: set<GameId>)
    requires Linked(s) && Known(s.books) && Mirrored(s.books) && MayRevert(s, failing)
    ensures Linked(StaleReverted(s, failing))
  {
    var s' := StaleReverted(s, failing);
    SweepComplete(s.books, failing);
    HeldGamesExact(s.books.holds);
    hide Sweep, MayRevert, Known, Mirrored;
    forall x | HasHeld(s.books.holds, x)
      ensures x in s.games
    {
      var i :| 0 <= i < |s.books.holds| && s.books.holds[i].gameId == x && s.books.holds[i].status == HELD;
    }
  }

  lemma SweepBooks(s: System, failing: set<GameId>)
    requires BooksOk(s) && MayRevert(s, failing)
    ensures BooksOk(StaleReverted(s, failing))
  {
    var s' := StaleReverted(s, failing);
    SweepInOrder(s.books, failing);
    forall i | 0 <= i < |s'.books.rows| && s'.books.rows[i].kind == WAGER
      ensures s'.books.rows[i] in s.books.rows
    {
      assert s'.books.rows[i] in s'.books.rows;
    }
    if NoNegativeBet(s) {
      assert NoNegativeWager(s.books.rows);
    }
    hide Known, Mirrored, Balanced, Money, Solvent, Sweep;
    BooksKept(s, s');
  }

  lemma SweepStep(s: System, failing: set<GameId>)
    requires Inv(s) && MayRevert(s, failing)
    ensures Inv(StaleReverted(s, failing))
  {
    SweepLinked(s, failing);
    hide StoreOk, ReleasesOk, BooksOk, GameOk, Linked, Sweep, MayRevert;
    var s' := StaleReverted(s, failing);
    SweepBooks(s, failing);
    forall x | x in s.games
      ensures GameOk(s.games[x], ViewOf(s', x), s.treatBotAsUser)
    {
      SweepGame(s, failing, x);
    }
    StoreKept(s, s');
  }

  // ---------------------------------------------------------------------------------------------
  // Every step, every run
  // ---------------------------------------------------------------------------------------------

  lemma HandlerStep(s: System, id: GameId, user: UserId, total: int)
    requires Inv(s) && id in s.games
    ensures Inv(Store(s, HandlePlayerConnected(s.games[id], user, s.treatBotAsUser)))
    ensures Inv(Store(s, Dice.HandleRoll(s.games[id], user, total, s.treatBotAsUser)))
    ensures Inv(Store(s, Dice.HandleBotMove(s.games[id], user, total, s.treatBotAsUser)))
    ensures s.games[id].status == PLAYING ==> Inv(Store(s, HandleRoundEnd(s.games[id], user, s.treatBotAsUser)))
  {
    GameIn(s, id);
    hide Inv, GameOk, HistoryOk, Store, HandlerOk, ReleaseDiscipline,
         HandlePlayerConnected, Dice.HandleRoll, Dice.HandleBotMove, HandleRoundEnd;
    var (g, v, t) := (s.games[id], ViewOf(s, id), s.treatBotAsUser);
    HandlersDisciplined(g, user, total, t);
    ConnectOk(g, v, user, t);
    StoreKeeps(s, id, HandlePlayerConnected(g, user, t));
    RollOk(g, v, user, total, t);
    StoreKeeps(s, id, Dice.HandleRoll(g, user, total, t));
    BotMoveOk(g, v, user, total, t);
    StoreKeeps(s, id, Dice.HandleBotMove(g, user, total, t));
    if g.status == PLAYING {
      RoundEndOk(g, v, user, t);
      StoreKeeps(s, id, HandleRoundEnd(g, user, t));
    }
  }

  lemma GameIn(s: System, id: GameId)
    requires Inv(s) && id in s.games
    ensures s.games[id].matchId == id
    ensures GameOk(s.games[id], ViewOf(s, id), s.treatBotAsUser)
    ensures HistoryOk(s.games[id])
  {
  }

  lemma JobStep(s: System, job: Job)
    requires Inv(s) && job in s.jobs
    ensures Inv(RunOne(s, job))
  {
    match job
    case DepositJob(_, _, _) => PlainJobStep(s, job);
    case WithdrawJob(_, _, _) => PlainJobStep(s, job);
    case LockJob(_, _, _, _) => LockStep(s, job);
    case ReleaseJob(_, _, _) => ReleaseStep(s, job);
    case RevertJob(_) => NoRevertJob(s, job);
  }

  lemma NoRevertJob(s: System, job: Job)
    requires Inv(s) && job in s.jobs
    ensures !job.RevertJob?
  {
  }

  /** What a step of each kind does, one kind at a time. */
  lemma BooksSteps(s: System, user: UserId, amount: int, reference: string, failing: set<GameId>)
    ensures Do(s, NewWallet(user)) == Opened(s, user)
    ensures Do(s, RequestDeposit(user, amount, reference)) ==
      s.(jobs := s.jobs + multiset{DepositJob(user, amount, reference)})
    ensures Do(s, RequestWithdraw(user, amount, reference)) ==
      s.(jobs := s.jobs + multiset{WithdrawJob(user, amount, reference)})
    ensures Do(s, RevertStaleGames(failing)) == if MayRevert(s, failing) then StaleReverted(s, failing) else s
  {
    hide MayRevert, StaleReverted, Opened;
  }

  lemma QueueSteps(s: System, job: Job, e: Event)
    ensures Do(s, RunJob(job)) == if job in s.jobs then RunOne(s, job) else s
    ensures Do(s, LoseJob(job)) == s.(jobs := s.jobs - multiset{job})
    ensures Do(s, LoseEvent(e)) == s.(events := s.events - multiset{e})
    ensures Do(s, Deliver(e)) ==
      if e in s.events && e.matchId in s.games then Delivered(s, e) else s.(events := s.events - multiset{e})
  {
    hide RunOne, Delivered;
  }

  lemma GameSteps(s: System, id: GameId, user: UserId, total: int)
    ensures id !in s.games ==>
      Do(s, Connect(id, user)) == Do(s, Roll(id, user, total)) == Do(s, BotMove(id, user, total)) ==
        Do(s, RoundEnd(id, user)) == s
    ensures id in s.games ==>
      && Do(s, Connect(id, user)) == Store(s, HandlePlayerConnected(s.games[id], user, s.treatBotAsUser))
      && Do(s, Roll(id, user, total)) == Store(s, Dice.HandleRoll(s.games[id], user, total, s.treatBotAsUser))
      && Do(s, BotMove(id, user, total)) == Store(s, Dice.HandleBotMove(s.games[id], user, total, s.treatBotAsUser))
      && Do(s, RoundEnd(id, user)) ==
         if s.games[id].status == PLAYING then Store(s, HandleRoundEnd(s.games[id], user, s.treatBotAsUser)) else s
  {
    hide Store, HandlePlayerConnected, Dice.HandleRoll, Dice.HandleBotMove, HandleRoundEnd;
  }

  lemma StepKeepsInv(s: System, step: Label)
    requires Inv(s)
    ensures Inv(Do(s, step))
  {
    hide Inv, Do;
    match step
    case NewGame(id, players, config, turn) => NewGameKeepsInv(s, id, players, config, turn);
    case Connect(id, user) => GameStepKeepsInv(s, id, user, 0);
    case Roll(id, user, total) => GameStepKeepsInv(s, id, user, total);
    case BotMove(id, user, total) => GameStepKeepsInv(s, id, user, total);
    case RoundEnd(id, user) => GameStepKeepsInv(s, id, user, 0);
    case RunJob(job) => QueueStepKeepsInv(s, job, FundsLocked("", ""));
    case LoseJob(job) => QueueStepKeepsInv(s, job, FundsLocked("", ""));
    case Deliver(e) => QueueStepKeepsInv(s, RevertJob(""), e);
    case LoseEvent(e) => QueueStepKeepsInv(s, RevertJob(""), e);
    case NewWallet(user) => BooksStepKeepsInv(s, user, 0, "", {});
    case RequestDeposit(user, amount, reference) => BooksStepKeepsInv(s, user, amount, reference, {});
    case RequestWithdraw(user, amount, reference) => BooksStepKeepsInv(s, user, amount, reference, {});
    case RevertStaleGames(failing) => BooksStepKeepsInv(s, "", 0, "", failing);
  }

  lemma NewGameKeepsInv(s: System, id: GameId, players: seq<Player>, config: Config, turn: UserId)
    requires Inv(s)
    ensures Inv(Do(s, NewGame(id, players, config, turn)))
  {
    hide Inv, CreateGame;
    if id !in s.games {
      NewGameStep(s, id, players, config, turn);
    }
  }

  lemma GameStepKeepsInv(s: System, id: GameId, user: UserId, total: int)
    requires Inv(s)
    ensures Inv(Do(s, Connect(id, user))) && Inv(Do(s, Roll(id, user, total)))
    ensures Inv(Do(s, BotMove(id, user, total))) && Inv(Do(s, RoundEnd(id, user)))
  {
    hide Inv, Do, Store;
    GameSteps(s, id, user, total);
    if id in s.games {
      HandlerStep(s, id, user, total);
    }
  }

  lemma QueueStepKeepsInv(s: System, job: Job, e: Event)
    requires Inv(s)
    ensures Inv(Do(s, RunJob(job))) && Inv(Do(s, LoseJob(job)))
    ensures Inv(Do(s, Deliver(e))) && Inv(Do(s, LoseEvent(e)))
  {
    hide Inv, Do, RunOne, Delivered;
    QueueSteps(s, job, e);
    if job in s.jobs {
      JobStep(s, job);
    }
    LoseStep(s, s.(jobs := s.jobs - multiset{job}));
    LoseStep(s, s.(events := s.events - multiset{e}));
    if e in s.events && e.matchId in s.games {
      DeliverStep(s, e);
    }
  }

  lemma BooksStepKeepsInv(s: System, user: UserId, amount: int, reference: string, failing: set<GameId>)
    requires Inv(s)
    ensures Inv(Do(s, NewWallet(user))) && Inv(Do(s, RevertStaleGames(failing)))
    ensures Inv(Do(s, RequestDeposit(user, amount, reference))) && Inv(Do(s, RequestWithdraw(user, amount, reference)))
  {
    hide Inv, Do, Opened, StaleReverted, MayRevert;
    BooksSteps(s, user, amount, reference, failing);
    NewWalletStep(s, user);
    RequestStep(s, DepositJob(user, amount, reference));
    RequestStep(s, WithdrawJob(user, amount, reference));
    if MayRevert(s, failing) {
      SweepStep(s, failing);
    }
  }

  lemma InitInv(treatBotAsUser: bool)
    ensures Inv(Init(treatBotAsUser))
  {
  }

  lemma {:induction false} RunKeepsInv(s: System, labels: seq<Label>)
    requires Inv(s)
    ensures Inv(Run(s, labels))
  {
    hide Inv, Do;
    if labels != [] {
      RunKeepsInv(s, labels[..|labels| - 1]);
      StepKeepsInv(Run(s, labels[..|labels| - 1]), labels[|labels| - 1]);
    }
  }

  // ---------------------------------------------------------------------------------------------
  // What every reachable state satisfies
  // ---------------------------------------------------------------------------------------------

  ghost function Reached(treatBotAsUser: bool, labels: seq<Label>): System {
    Run(Init(treatBotAsUser), labels)
  }

  lemma ReachedInv(treatBotAsUser: bool, labels: seq<Label>)
    ensures Inv(Reached(treatBotAsUser, labels))
  {
    InitInv(treatBotAsUser);
    RunKeepsInv(Init(treatBotAsUser), labels);
  }

  /**
   * Money conservation over whole runs: balances plus HELD holds are the opening balances plus deposits
   * minus withdrawals, whatever the matches, players, failures and interleavings were. A wallet opens with 1000,
   * in cents.
   */
  lemma MoneyConserved(treatBotAsUser: bool, labels: seq<Label>)
    ensures var s := Reached(treatBotAsUser, labels);
            Money(s.books) == 100000 * |s.books.balances| + s.deposited - s.withdrawn
  {
    ReachedInv(treatBotAsUser, labels);
  }

  /** Every balance is what its rows say, and with no negative bet none is ever negative. */
  lemma LedgerIdentityAndSolvency(treatBotAsUser: bool, labels: seq<Label>)
    ensures var s := Reached(treatBotAsUser, labels);
            && (forall u :: u in s.books.balances ==> s.books.balances[u] == 100000 + Net(s.books.rows, u))
            && ((forall id :: id in s.games ==> s.games[id].config.betAmount >= 0) ==>
                  forall u :: u in s.books.balances ==> s.books.balances[u] >= 0)
  {
    ReachedInv(treatBotAsUser, labels);
    var s := Reached(treatBotAsUser, labels);
    hide Reached, StoreOk, ReleasesOk, Known, Mirrored, Conserved, WagersAreBets;
    assert Balanced(s.books) && (NoNegativeBet(s) ==> Solvent(s.books));
  }

  /** Every hold comes from a COMPLETED wager row of its wallet and game: what the stale-game job relies on. */
  lemma EveryHoldHasWager(treatBotAsUser: bool, labels: seq<Label>, i: nat)
    requires i < |Reached(treatBotAsUser, labels).books.holds|
    ensures var b := Reached(treatBotAsUser, labels).books;
            Row(b.holds[i].wallet, b.holds[i].amount, WAGER, COMPLETED, b.holds[i].gameId) in b.rows
  {
    ReachedInv(treatBotAsUser, labels);
    var b := Reached(treatBotAsUser, labels).books;
    assert Placements(b.holds)[i] in Wagers(b.rows);
    MirrorFindsWager(b.rows, Placements(b.holds)[i]);
  }

  /**
   * The pot: bet * (n * (round - 1) + locked) while betting, bet * n * round in play, where it is also
   * the HELD total. A match whose players are not distinct never gets past its first betting.
   */
  lemma PotInvariant(treatBotAsUser: bool, labels: seq<Label>, id: GameId)
    requires id in Reached(treatBotAsUser, labels).games
    ensures var s := Reached(treatBotAsUser, labels); var g := s.games[id];
            var (bet, n) := (g.config.betAmount, |g.players|);
            !Practice(g.players, treatBotAsUser) ==>
              && (g.status == BETTING ==> g.pot == bet * (n * (g.round - 1) + |g.lockedPlayers|))
              && (g.status == PLAYING ==> g.pot == bet * n * g.round == HeldOf(s.books.holds, id))
              && (!Collections.Distinct(Ids(g)) ==> g.status == LOADING || (g.status == BETTING && g.round == 1))
  {
    hide Reached, Inv, HistoryOk, HeldBy, Holders, SeatOk;
    ReachedGame(treatBotAsUser, labels, id);
    var s := Reached(treatBotAsUser, labels);
    var (g, v) := (s.games[id], ViewOf(s, id));
    if g.status == PLAYING && !Practice(g.players, treatBotAsUser) {
      PotIsHeld(g, v);
    }
  }

  lemma DoParameter(s: System, step: Label)
    ensures Do(s, step).treatBotAsUser == s.treatBotAsUser
  {
    hide HandlePlayerConnected, HandleFundsLocked, HandleRoundEnd, CreateGame, CreateWallet, ProcessJob,
         Dice.HandleRoll, Dice.HandleBotMove, MayRevert, Sweep, HeldGames, ReleasesIn;
  }

  lemma {:induction false} RunParameter(s: System, labels: seq<Label>)
    ensures Run(s, labels).treatBotAsUser == s.treatBotAsUser
  {
    hide Do;
    if labels != [] {
      RunParameter(s, labels[..|labels| - 1]);
      DoParameter(Run(s, labels[..|labels| - 1]), labels[|labels| - 1]);
    }
  }

  /** What holds of a reachable match, without the rest of the system. */
  lemma ReachedGame(treatBotAsUser: bool, labels: seq<Label>, id: GameId)
    requires id in Reached(treatBotAsUser, labels).games
    ensures var s := Reached(treatBotAsUser, labels);
            && Inv(s) && s.treatBotAsUser == treatBotAsUser
            && s.games[id].matchId == id
            && GameOk(s.games[id], ViewOf(s, id), treatBotAsUser)
            && HistoryOk(s.games[id])
  {
    ReachedInv(treatBotAsUser, labels);
    RunParameter(Init(treatBotAsUser), labels);
    hide Inv, GameOk, HistoryOk;
    GameIn(Reached(treatBotAsUser, labels), id);
  }

  /** With a bot that is not treated as a user the pot stays 0, and no lock or release is ever waiting for the match. */
  lemma PracticeCostsNothing(treatBotAsUser: bool, labels: seq<Label>, id: GameId)
    requires id in Reached(treatBotAsUser, labels).games
    ensures var s := Reached(treatBotAsUser, labels); var g := s.games[id];
            !treatBotAsUser && (exists i :: 0 <= i < |g.players| && g.players[i].isBot) ==>
              && g.pot == 0 && g.status != BETTING
              && NoJobs(s.jobs, id) && HeldOf(s.books.holds, id) == 0 && id !in s.releases
  {
    ReachedGame(treatBotAsUser, labels, id);
    var s := Reached(treatBotAsUser, labels);
    if Practice(s.games[id].players, treatBotAsUser) {
      assert Untouched(s.games[id], ViewOf(s, id));
      NoHoldersNoMoney(s.books.holds, id);
    }
  }

  /**
   * Every queued lock is a real one for the match's bet: the branch that skips the wallet is never
   * taken. Every queued release carries exactly the HELD total of its game.
   */
  lemma QueuedJobsMatchEscrow(treatBotAsUser: bool, labels: seq<Label>, job: Job)
    requires job in Reached(treatBotAsUser, labels).jobs
    ensures var s := Reached(treatBotAsUser, labels);
            && (job.LockJob? ==> job.gameId in s.games && !job.shouldSkipWallet
                                 && job.amount == s.games[job.gameId].config.betAmount)
            && (job.ReleaseJob? ==> job.gameId in s.games && job.amount == HeldOf(s.books.holds, job.gameId))
  {
    ReachedInv(treatBotAsUser, labels);
    var s := Reached(treatBotAsUser, labels);
    hide Reached, BooksOk, ReleasesOk;
    if job.LockJob? {
      LockOwn(s, job);
    } else if job.ReleaseJob? {
      ReleaseOwn(s, job);
    }
  }

  /** Over the whole run at most one RELEASE_FUNDS job is queued for a match, and only once it is settled. */
  lemma AtMostOneRelease(treatBotAsUser: bool, labels: seq<Label>, id: GameId)
    ensures var s := Reached(treatBotAsUser, labels);
            && multiset(s.releases)[id] <= 1
            && (id in s.releases ==> id in s.games && s.games[id].status == SETTLED)
  {
    ReachedInv(treatBotAsUser, labels);
    DistinctMultiplicity(Reached(treatBotAsUser, labels).releases);
  }

  /**
   * The record of a match in every reachable state: as many rounds as configured, one if nothing is; one entry for
   * each finished round, in order, with one bet of every player; and a winner only when it is over.
   */
  lemma HistoryIsComplete(treatBotAsUser: bool, labels: seq<Label>, id: GameId)
    requires id in Reached(treatBotAsUser, labels).games
    ensures var g := Reached(treatBotAsUser, labels).games[id];
            && g.maxRounds == (if g.config.maxRounds == 0 then 1 else g.config.maxRounds)
            && (if g.status == SETTLED then |g.roundHistory| <= g.round else |g.roundHistory| == g.round - 1)
            && (g.winner != None ==> g.status == SETTLED)
            && forall i :: 0 <= i < |g.roundHistory| ==>
                 && g.roundHistory[i].round == i + 1
                 && |g.roundHistory[i].bets| == |g.players|
                 && forall k :: 0 <= k < |g.players| ==>
                      g.roundHistory[i].bets[k] == Bet(g.players[k].userId, g.config.betAmount)
  {
    hide Reached, Inv, GameOk;
    ReachedGame(treatBotAsUser, labels, id);
  }

  /** After the final round the pot is the sum of all bets in the round history, and the HELD total. */
  lemma FinalPotIsHistory(treatBotAsUser: bool, labels: seq<Label>, id: GameId, winnerId: UserId)
    requires id in Reached(treatBotAsUser, labels).games
    ensures var s := Reached(treatBotAsUser, labels); var g := s.games[id];
            !Practice(g.players, treatBotAsUser) && g.status == PLAYING && g.round >= g.maxRounds ==>
              var h := Do(s, RoundEnd(id, winnerId)).games[id];
              && h.status == SETTLED
              && h.pot == HistoryTotal(h.roundHistory) == HeldOf(s.books.holds, id)
              && |h.roundHistory| == h.round == h.maxRounds
              && (forall i :: 0 <= i < |h.roundHistory| ==> h.roundHistory[i].round == i + 1)
              && var last := h.roundHistory[|h.roundHistory| - 1];
              && last.round == g.round && last.winnerId == winnerId
              && (winnerId != "" ==> h.winner == Some(Winner(winnerId, h.pot)))
  {
    hide Reached, Inv;
    ReachedGame(treatBotAsUser, labels, id);
    var s := Reached(treatBotAsUser, labels);
    var g := s.games[id];
    if !Practice(g.players, treatBotAsUser) && g.status == PLAYING {
      RecordOk(g, winnerId);
      PotIsHeld(g, ViewOf(s, id));
    }
  }

  /**
   * In the first round the payout the engine computes is the pot and the HELD total: with a winner the one
   * queued release carries it to him, and without one nothing is queued and the holds stay HELD.
   */
  lemma DiceResultMatchesEscrow(treatBotAsUser: bool, labels: seq<Label>, id: GameId, user: UserId, total: int,
                                step: Label)
    requires id in Reached(treatBotAsUser, labels).games
    requires step == Roll(id, user, total) || step == BotMove(id, user, total)
    ensures var s := Reached(treatBotAsUser, labels); var g := s.games[id];
            var s' := Do(s, step); var h := s'.games[id];
            !Practice(g.players, treatBotAsUser) && g.status == PLAYING && g.round == 1 && h.status == SETTLED ==>
              && s'.books == s.books
              && Dice.ProcessMove(g, user, total).Some?
              && var result := Dice.CheckWinner(Dice.ProcessMove(g, user, total).value);
              && result.Some?
              && var w := result.value;
              && w.payout == g.pot == HeldOf(s.books.holds, id)
              && (w.winnerId != "" ==>
                    h.winner == Some(w) && s'.jobs == s.jobs + multiset{ReleaseJob(w.winnerId, w.payout, id)})
              && (w.winnerId == "" ==> s'.jobs == s.jobs)
  {
    hide Reached, Inv;
    ReachedGame(treatBotAsUser, labels, id);
    var s := Reached(treatBotAsUser, labels);
    var g := s.games[id];
    if !Practice(g.players, treatBotAsUser) && g.status == PLAYING && g.round == 1 {
      PotIsHeld(g, ViewOf(s, id));
      assert g.pot == g.config.betAmount * |g.players| * g.round;
      hide GameOk, HistoryOk, PlayingOk, Practice;
      hide Dice.ProcessMove, Dice.CheckWinner, Do, HeldOf;
      if Do(s, step).games[id].status == SETTLED {
        SettlingMove(s, id, user, total, step);
      }
    }
  }

  lemma SettlingMove(s: System, id: GameId, user: UserId, total: int, step: Label)
    requires id in s.games && s.games[id].matchId == id
    requires step == Roll(id, user, total) || step == BotMove(id, user, total)
    requires var g := s.games[id];
             !Practice(g.players, s.treatBotAsUser) && g.status == PLAYING && g.round == 1 &&
             g.pot == g.config.betAmount * |g.players| * g.round
    requires id in Do(s, step).games && Do(s, step).games[id].status == SETTLED
    ensures var g := s.games[id]; var s' := Do(s, step);
            && s'.books == s.books
            && Dice.ProcessMove(g, user, total).Some?
            && var result := Dice.CheckWinner(Dice.ProcessMove(g, user, total).value);
            && result.Some?
            && var w := result.value;
            && w.payout == g.pot
            && (w.winnerId != "" ==>
                  s'.games[id].winner == Some(w) && s'.jobs == s.jobs + multiset{ReleaseJob(w.winnerId, w.payout, id)})
            && (w.winnerId == "" ==> s'.jobs == s.jobs)
  {
    var g := s.games[id];
    GameSteps(s, id, user, total);
    MovesFollow(g, user, total, s.treatBotAsUser);
    var result := if step.Roll? then Dice.HandleRoll(g, user, total, s.treatBotAsUser)
                  else Dice.HandleBotMove(g, user, total, s.treatBotAsUser);
    StoredJobs(s, result);
    hide Do, Follows, Dice.HandleRoll, Dice.HandleBotMove, Dice.ProcessMove, Dice.CheckWinner, ReleasesIn, Practice;
    assert Store(s, result).games[id] == result.0;
    MoveResult(g, user, total, s.treatBotAsUser, result);
    hide Store;
  }

  lemma StoredJobs(s: System, result: (Game, seq<Job>))
    ensures Store(s, result).books == s.books
    ensures result.1 == [] ==> Store(s, result).jobs == s.jobs
    ensures |result.1| == 1 ==> Store(s, result).jobs == s.jobs + multiset{result.1[0]}
  {
    hide ReleasesIn;
    if |result.1| == 1 {
      assert result.1 == [result.1[0]];
    }
  }

  lemma MoveResult(g: Game, user: UserId, total: int, treatBotAsUser: bool, result: (Game, seq<Job>))
    requires !Practice(g.players, treatBotAsUser) && g.status == PLAYING && g.round == 1
    requires g.pot == g.config.betAmount * |g.players| * g.round
    requires
      || result == Dice.HandleRoll(g, user, total, treatBotAsUser)
      || result == Dice.HandleBotMove(g, user, total, treatBotAsUser)
    requires result.0.status == SETTLED
    ensures Dice.ProcessMove(g, user, total).Some?
    ensures var winner := Dice.CheckWinner(Dice.ProcessMove(g, user, total).value);
            && winner.Some?
            && var w := winner.value;
            && w.payout == g.pot
            && result.0.matchId == g.matchId
            && (w.winnerId != "" ==>
                  result.0.winner == Some(w) && result.1 == [ReleaseJob(w.winnerId, w.payout, g.matchId)])
            && (w.winnerId == "" ==> result.1 == [])
  {
  }

  // ---------------------------------------------------------------------------------------------
  // The life of a match
  // ---------------------------------------------------------------------------------------------

  /** The transitions a match may make in one step. */
  ghost predicate Follows(g: Game, h: Game, treatBotAsUser: bool) {
    && h.players == g.players && h.config == g.config && h.maxRounds == g.maxRounds && h.matchId == g.matchId
    && g.round <= h.round
    && match g.status
       case LOADING =>
         h.round == g.round &&
         (h.status == LOADING || h.status == (if Practice(g.players, treatBotAsUser) then PLAYING else BETTING))
       case BETTING => h.round == g.round && (h.status == BETTING || h.status == PLAYING)
       case PLAYING =>
         || (h.round == g.round && (h.status == PLAYING || h.status == SETTLED))
         || (h.round == g.round + 1 && g.round < g.maxRounds &&
             h.status == if Practice(g.players, treatBotAsUser) then PLAYING else BETTING)
       case SETTLED => h == g
  }

  lemma HandlersFollow(g: Game, user: UserId, total: int, treatBotAsUser: bool)
    ensures Follows(g, HandlePlayerConnected(g, user, treatBotAsUser).0, treatBotAsUser)
    ensures Follows(g, HandleFundsLocked(g, user), treatBotAsUser)
    ensures g.status == PLAYING ==> Follows(g, HandleRoundEnd(g, user, treatBotAsUser).0, treatBotAsUser)
    ensures Follows(g, g, treatBotAsUser)
    ensures HandlePlayerConnected(g, user, treatBotAsUser).0.matchId == g.matchId
    ensures g.status == PLAYING ==> HandleRoundEnd(g, user, treatBotAsUser).0.matchId == g.matchId
  {
  }

  lemma MovesFollow(g: Game, user: UserId, total: int, treatBotAsUser: bool)
    ensures Follows(g, Dice.HandleRoll(g, user, total, treatBotAsUser).0, treatBotAsUser)
    ensures Follows(g, Dice.HandleBotMove(g, user, total, treatBotAsUser).0, treatBotAsUser)
    ensures Dice.HandleRoll(g, user, total, treatBotAsUser).0.matchId == g.matchId
    ensures Dice.HandleBotMove(g, user, total, treatBotAsUser).0.matchId == g.matchId
  {
  }

  lemma StoreFollows(s: System, x: GameId, result: (Game, seq<Job>), id: GameId)
    requires x in s.games && id in s.games && result.0.matchId == x
    requires Follows(s.games[x], result.0, s.treatBotAsUser)
    requires Follows(s.games[id], s.games[id], s.treatBotAsUser)
    ensures id in Store(s, result).games
    ensures Follows(s.games[id], Store(s, result).games[id], s.treatBotAsUser)
  {
    hide Follows, ReleasesIn;
  }

  ghost predicate KeepsCourse(s: System, s': System, id: GameId)
    requires id in s.games
  {
    id in s'.games && Follows(s.games[id], s'.games[id], s.treatBotAsUser)
  }

  /** One step takes every match along its life cycle; SETTLED is absorbing and no match disappears. */
  lemma StepFollows(s: System, step: Label, id: GameId)
    requires Linked(s) && id in s.games
    ensures KeepsCourse(s, Do(s, step), id)
  {
    hide KeepsCourse, Do, Linked;
    match step
    case NewGame(x, players, config, turn) => NewGameFollows(s, x, players, config, turn, id);
    case Connect(x, user) => GameStepFollows(s, x, user, 0, id);
    case Roll(x, user, total) => GameStepFollows(s, x, user, total, id);
    case BotMove(x, user, total) => GameStepFollows(s, x, user, total, id);
    case RoundEnd(x, user) => GameStepFollows(s, x, user, 0, id);
    case RunJob(job) => QueueStepFollows(s, job, FundsLocked("", ""), id);
    case LoseJob(job) => QueueStepFollows(s, job, FundsLocked("", ""), id);
    case Deliver(e) => QueueStepFollows(s, RevertJob(""), e, id);
    case LoseEvent(e) => QueueStepFollows(s, RevertJob(""), e, id);
    case NewWallet(user) => BooksStepFollows(s, user, 0, "", {}, id);
    case RequestDeposit(user, amount, reference) => BooksStepFollows(s, user, amount, reference, {}, id);
    case RequestWithdraw(user, amount, reference) => BooksStepFollows(s, user, amount, reference, {}, id);
    case RevertStaleGames(failing) => BooksStepFollows(s, "", 0, "", failing, id);
  }

  lemma NewGameFollows(s: System, x: GameId, players: seq<Player>, config: Config, turn: UserId, id: GameId)
    requires id in s.games
    ensures KeepsCourse(s, Do(s, NewGame(x, players, config, turn)), id)
  {
    HandlersFollow(s.games[id], "", 0, s.treatBotAsUser);
    hide Follows, CreateGame;
  }

  lemma BooksStepFollows(s: System, user: UserId, amount: int, reference: string, failing: set<GameId>, id: GameId)
    requires id in s.games
    ensures KeepsCourse(s, Do(s, NewWallet(user)), id) && KeepsCourse(s, Do(s, RevertStaleGames(failing)), id)
    ensures KeepsCourse(s, Do(s, RequestDeposit(user, amount, reference)), id)
    ensures KeepsCourse(s, Do(s, RequestWithdraw(user, amount, reference)), id)
  {
    HandlersFollow(s.games[id], "", 0, s.treatBotAsUser);
    BooksSteps(s, user, amount, reference, failing);
    hide Do, Follows, CreateWallet, Sweep, MayRevert;
  }

  lemma QueueStepFollows(s: System, job: Job, e: Event, id: GameId)
    requires Linked(s) && id in s.games
    ensures KeepsCourse(s, Do(s, RunJob(job)), id) && KeepsCourse(s, Do(s, LoseJob(job)), id)
    ensures KeepsCourse(s, Do(s, Deliver(e)), id) && KeepsCourse(s, Do(s, LoseEvent(e)), id)
  {
    HandlersFollow(s.games[id], e.userId, 0, s.treatBotAsUser);
    QueueSteps(s, job, e);
    JobLeavesGames(s, job);
    if e.matchId in s.games {
      DeliveredCourse(s, e, id);
    }
    hide Do, Follows, Linked, RunOne, Delivered;
  }

  lemma JobLeavesGames(s: System, job: Job)
    ensures RunOne(s, job).games == s.games
  {
    hide ProcessJob;
  }

  lemma DeliveredCourse(s: System, e: Event, id: GameId)
    requires e.matchId in s.games && id in s.games
    ensures KeepsCourse(s, Delivered(s, e), id)
  {
    HandlersFollow(s.games[id], e.userId, 0, s.treatBotAsUser);
    hide Follows, HandleFundsLocked;
  }

  lemma GameStepFollows(s: System, x: GameId, user: UserId, total: int, id: GameId)
    requires Linked(s) && id in s.games
    ensures KeepsCourse(s, Do(s, Connect(x, user)), id) && KeepsCourse(s, Do(s, Roll(x, user, total)), id)
    ensures KeepsCourse(s, Do(s, BotMove(x, user, total)), id) && KeepsCourse(s, Do(s, RoundEnd(x, user)), id)
  {
    var t := s.treatBotAsUser;
    HandlersFollow(s.games[id], user, total, t);
    GameSteps(s, x, user, total);
    if x in s.games {
      var g := s.games[x];
      assert g.matchId == x;
      HandlersFollow(g, user, total, t);
      MovesFollow(g, user, total, t);
      hide Do, Follows, Linked, Store, HandlePlayerConnected, Dice.HandleRoll, Dice.HandleBotMove, HandleRoundEnd;
      StoreFollows(s, x, HandlePlayerConnected(g, user, t), id);
      StoreFollows(s, x, Dice.HandleRoll(g, user, total, t), id);
      StoreFollows(s, x, Dice.HandleBotMove(g, user, total, t), id);
      if g.status == PLAYING {
        StoreFollows(s, x, HandleRoundEnd(g, user, t), id);
      }
    }
  }

  /** Hence along any run a settled match never changes again, and rounds stay within bounds and only grow. */
  lemma {:induction false} RunFollows(s: System, labels: seq<Label>, id: GameId)
    requires Inv(s) && id in s.games
    ensures var h := Run(s, labels).games;
            && id in h
            && h[id].players == s.games[id].players && h[id].config == s.games[id].config
            && s.games[id].round <= h[id].round <= h[id].maxRounds == s.games[id].maxRounds
            && (s.games[id].status == SETTLED ==> h[id] == s.games[id])
            && (s.games[id].status != LOADING ==> h[id].status != LOADING)
  {
    hide Inv, Do, GameOk;
    RoundBound(s, id);
    if labels != [] {
      var front := labels[..|labels| - 1];
      RunFollows(s, front, id);
      RunKeepsInv(s, front);
      LinkedIn(Run(s, front));
      StepFollows(Run(s, front), labels[|labels| - 1], id);
      RunKeepsInv(s, labels);
      RoundBound(Run(s, labels), id);
    }
  }

  lemma LinkedIn(s: System)
    requires Inv(s)
    ensures Linked(s)
  {
  }

  lemma RoundBound(s: System, id: GameId)
    requires Inv(s) && id in s.games
    ensures 1 <= s.games[id].round <= s.games[id].maxRounds
  {
    GameIn(s, id);
  }

  lemma {:induction false} RunConcat(s: System, a: seq<Label>, b: seq<Label>)
    ensures Run(s, a + b) == Run(Run(s, a), b)
  {
    if b == [] {
      assert a + b == a;
    } else {
      hide Do;
      assert (a + b)[..|a + b| - 1] == a + b[..|b| - 1];
      RunConcat(s, a, b[..|b| - 1]);
    }
  }

  /**
   * The life of a match over whole runs: whatever follows once it exists, it keeps its players and terms,
   * its round only grows up to the last one, it never goes back to LOADING, and it never changes once SETTLED.
   */
  lemma MatchLifeCycle(treatBotAsUser: bool, labels: seq<Label>, more: seq<Label>, id: GameId)
    requires id in Reached(treatBotAsUser, labels).games
    ensures var g := Reached(treatBotAsUser, labels).games[id];
            var later := Reached(treatBotAsUser, labels + more).games;
            && id in later
            && later[id].players == g.players && later[id].config == g.config
            && 1 <= g.round <= later[id].round <= later[id].maxRounds == g.maxRounds
            && (g.status != LOADING ==> later[id].status != LOADING)
            && (g.status == SETTLED ==> later[id] == g)
  {
    var s := Reached(treatBotAsUser, labels);
    ReachedInv(treatBotAsUser, labels);
    RunFollows(s, more, id);
    RoundBound(s, id);
    RunConcat(Init(treatBotAsUser), labels, more);
    hide Run, Inv;
  }
}
