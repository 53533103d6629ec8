/**
 * Why no live match may be reverted: the stale-game job asks only for HELD holds, not for their age or for what
 * is still under way, and a match that it gives back while it can still pay out pays with new money.
 */
module MatchLiveReverts {
  import opened Collections
  import opened Ledger
  import opened Games
  import opened WalletOperations
  import opened LedgerLaws
  import opened LedgerEffects
  import opened WalletMaintenance
  import opened MatchProtocol
  import opened MatchInvariant
  import opened MatchHandlers
  import opened MatchTheorems

  // ---------------------------------------------------------------------------------------------
  // A sweep, and a release after it
  // ---------------------------------------------------------------------------------------------

  /** Every game that this run of the job reverts can be given back in full. */
  ghost predicate MayGiveBack(b: Books, failing: set<GameId>) {
    forall g :: HasHeld(b.holds, g) && g !in failing ==> Refundable(b, g)
  }

  lemma {:induction false} NothingHeld(holds: seq<Hold>, game: GameId)
    requires !HasHeld(holds, game)
    ensures HeldOf(holds, game) == 0
  {
    if holds != [] {
      var front, last := holds[..|holds| - 1], holds[|holds| - 1];
      assert forall i :: 0 <= i < |front| ==> front[i] == holds[i];
      NothingHeld(front, game);
    }
  }

  lemma SweepEmptiesEscrow(b: Books, failing: set<GameId>, id: GameId)
    requires Sound(b) && MayGiveBack(b, failing) && id !in failing
    ensures var c := Sweep(b, failing);
            Sound(c) && Money(c) == Money(b) && c.balances.Keys == b.balances.Keys && HeldOf(c.holds, id) == 0
  {
    SweepInOrder(b, failing);
    SweepComplete(b, failing);
    hide Sweep, Sound;
    NothingHeld(Sweep(b, failing).holds, id);
  }

  /** Whatever is released for a swept game is new money. */
  lemma SweepThenRelease(b: Books, failing: set<GameId>, id: GameId, winner: UserId, amount: int)
    requires Sound(b) && MayGiveBack(b, failing) && id !in failing && winner in b.balances
    ensures Money(ReleaseFunds(Sweep(b, failing), winner, amount, id).0) == Money(b) + amount
  {
    SweepEmptiesEscrow(b, failing, id);
    ReleaseMoney(Sweep(b, failing), winner, amount, id);
    hide Sweep, Sound;
  }

  lemma SoundIn(s: System)
    requires Inv(s)
    ensures Sound(s.books)
  {
  }

  /** Over, with its release still queued: the release pays what was given back. */
  lemma SettledRevertMintsRelease(s: System, failing: set<GameId>, job: Job)
    requires Inv(s) && job in s.jobs && job.ReleaseJob? && job.gameId !in failing && MayGiveBack(s.books, failing)
    requires job.winnerUserId in s.books.balances
    ensures Money(RunOne(StaleReverted(s, failing), job).books) == Money(s.books) + HeldOf(s.books.holds, job.gameId)
  {
    SoundIn(s);
    ReleaseIsHeld(s, job);
    SweepThenRelease(s.books, failing, job.gameId, job.winnerUserId, job.amount);
    hide Inv, MayGiveBack, Sound, Sweep, HeldGames;
  }

  lemma ReleaseIsHeld(s: System, job: Job)
    requires Inv(s) && job in s.jobs && job.ReleaseJob?
    ensures job.gameId in s.games && s.games[job.gameId].status == SETTLED
    ensures job.amount == HeldOf(s.books.holds, job.gameId)
  {
    assert Mentions(job, job.gameId);
    GameIn(s, job.gameId);
    hide HeldOf, Holders, HeldBy;
  }

  // ---------------------------------------------------------------------------------------------
  // The same steps from the books as they were and from the swept books
  // ---------------------------------------------------------------------------------------------

  /** What users, queue workers and engines do when nothing is lost: no job or event disappears, no sweep runs. */
  predicate Ordinary(step: Label) {
    step.NewWallet? || step.RequestDeposit? || step.RunJob? || step.Deliver? || step.RoundEnd?
  }

  predicate AllOrdinary(labels: seq<Label>) {
    forall i :: 0 <= i < |labels| ==> Ordinary(labels[i])
  }

  /** Some run of ordinary steps takes the one state to s' and the other to t'. */
  ghost predicate Together(s: System, t: System, s': System, t': System) {
    exists labels :: AllOrdinary(labels) && Run(s, labels) == s' && Run(t, labels) == t'
  }

  lemma TogetherDone(s: System, t: System)
    ensures Together(s, t, s, t)
  {
    assert AllOrdinary([]) && Run(s, []) == s && Run(t, []) == t;
  }

  lemma RunStep(s: System, labels: seq<Label>, step: Label)
    ensures Run(s, labels + [step]) == Do(Run(s, labels), step)
  {
    assert (labels + [step])[..|labels|] == labels;
    hide Do;
  }

  lemma TogetherStep(s: System, t: System, s': System, t': System, step: Label)
    requires Together(s, t, s', t') && Ordinary(step)
    ensures Together(s, t, Do(s', step), Do(t', step))
  {
    var labels :| AllOrdinary(labels) && Run(s, labels) == s' && Run(t, labels) == t';
    assert AllOrdinary(labels + [step]);
    hide Run, Do, AllOrdinary;
    RunStep(s, labels, step);
    RunStep(t, labels, step);
  }

  lemma TogetherThen(s: System, t: System, s': System, t': System, s'': System, t'': System)
    requires Together(s, t, s', t') && Together(s', t', s'', t'')
    ensures Together(s, t, s'', t'')
  {
    var labels :| AllOrdinary(labels) && Run(s, labels) == s' && Run(t, labels) == t';
    var more :| AllOrdinary(more) && Run(s', more) == s'' && Run(t', more) == t'';
    assert AllOrdinary(labels + more);
    hide Run, AllOrdinary;
    RunConcat(s, labels, more);
    RunConcat(t, labels, more);
  }

  /** The second state is the first with other books: as much money, but less of it held for the match. */
  ghost predicate Twins(s: System, t: System, id: GameId, missing: int) {
    && Inv(s)
    && t == s.(books := t.books, reverted := t.reverted)
    && t.books.balances.Keys == s.books.balances.Keys
    && Money(t.books) == Money(s.books)
    && HeldOf(s.books.holds, id) == HeldOf(t.books.holds, id) + missing
  }

  /** A step that does not look at the books keeps the states twins. */
  lemma TwinsElsewhere(s: System, t: System, id: GameId, missing: int, step: Label)
    requires Twins(s, t, id, missing)
    requires Do(s, step).books == s.books
    requires Do(t, step) == Do(s, step).(books := t.books, reverted := t.reverted)
    ensures Twins(Do(s, step), Do(t, step), id, missing)
  {
    hide Inv, Do, Money, HeldOf;
    StepKeepsInv(s, step);
  }

  lemma WalletMoney(b: Books, user: UserId)
    ensures Money(CreateWallet(b, user)) == Money(b) + if user in b.balances then 0 else STARTING_BALANCE
  {
    TotalUpdate(b.balances, user, STARTING_BALANCE);
  }

  lemma TwinsOpen(s: System, t: System, id: GameId, missing: int, user: UserId)
    requires Twins(s, t, id, missing)
    ensures var (s', t') := (Do(s, NewWallet(user)), Do(t, NewWallet(user)));
            && Twins(s', t', id, missing)
            && s' == s.(books := s'.books)
            && user in s'.books.balances
  {
    hide Inv, Do, Money, HeldOf;
    StepKeepsInv(s, NewWallet(user));
    BooksSteps(s, user, 0, "", {});
    BooksSteps(t, user, 0, "", {});
    WalletMoney(s.books, user);
    WalletMoney(t.books, user);
  }

  lemma DepositMoney(b: Books, user: UserId, amount: int)
    requires user in b.balances && amount > 0
    ensures var c := Deposit(b, user, amount, "").0;
            && Deposit(b, user, amount, "").1 == Done
            && Money(c) == Money(b) + amount && c.holds == b.holds
            && c.balances == b.balances[user := b.balances[user] + amount]
  {
    TotalUpdate(b.balances, user, b.balances[user] + amount);
  }

  lemma DepositRuns(s: System, user: UserId, amount: int)
    requires user in s.books.balances && amount > 0
    ensures var job := DepositJob(user, amount, "");
            Do(Do(s, RequestDeposit(user, amount, "")), RunJob(job)) ==
              s.(books := Deposit(s.books, user, amount, "").0, deposited := s.deposited + amount)
  {
    var job := DepositJob(user, amount, "");
    var asked := s.(jobs := s.jobs + multiset{job});
    assert s.jobs + multiset{job} - multiset{job} == s.jobs;
    assert s.events + multiset([]) == s.events;
    assert RunOne(asked, job) == s.(books := Deposit(s.books, user, amount, "").0, deposited := s.deposited + amount);
    hide *;
    BooksSteps(s, user, amount, "", {});
    QueueSteps(asked, job, FundsLocked("", ""));
  }

  lemma TwinsDeposit(s: System, t: System, id: GameId, missing: int, user: UserId, amount: int)
    requires Twins(s, t, id, missing) && user in s.books.balances && amount > 0
    ensures var job := DepositJob(user, amount, "");
            var s' := Do(Do(s, RequestDeposit(user, amount, "")), RunJob(job));
            var t' := Do(Do(t, RequestDeposit(user, amount, "")), RunJob(job));
            && Twins(s', t', id, missing)
            && s' == s.(books := s'.books, deposited := s'.deposited)
            && user in s'.books.balances
            && s'.books.balances[user] == s.books.balances[user] + amount
            && t'.books.balances[user] == t.books.balances[user] + amount
  {
    hide Inv, Do, Money, HeldOf;
    DepositRuns(s, user, amount);
    DepositRuns(t, user, amount);
    DepositMoney(s.books, user, amount);
    DepositMoney(t.books, user, amount);
    StepKeepsInv(s, RequestDeposit(user, amount, ""));
    StepKeepsInv(Do(s, RequestDeposit(user, amount, "")), RunJob(DepositJob(user, amount, "")));
    hide Deposit;
  }

  /** The player opens a wallet if need be and pays in what both books lack for the bet. */
  lemma Fund(s: System, t: System, id: GameId, missing: int, user: UserId, bet: int) returns (s': System, t': System)
    requires Twins(s, t, id, missing)
    ensures Twins(s', t', id, missing) && Together(s, t, s', t')
    ensures s' == s.(books := s'.books, deposited := s'.deposited)
    ensures user in s'.books.balances && s'.books.balances[user] >= bet
    ensures user in t'.books.balances && t'.books.balances[user] >= bet
  {
    TogetherDone(s, t);
    hide Inv, Do, Money, HeldOf, Together;
    var open := NewWallet(user);
    TwinsOpen(s, t, id, missing, user);
    TogetherStep(s, t, s, t, open);
    var (a, b) := (Do(s, open), Do(t, open));
    var (x, y) := (a.books.balances[user], b.books.balances[user]);
    var amount := 1 + if x < bet || y < bet then (if x < y then bet - x else bet - y) else 0;
    var (request, paid) := (RequestDeposit(user, amount, ""), RunJob(DepositJob(user, amount, "")));
    TwinsDeposit(a, b, id, missing, user, amount);
    TogetherStep(s, t, a, b, request);
    TogetherStep(s, t, Do(a, request), Do(b, request), paid);
    s', t' := Do(Do(a, request), paid), Do(Do(b, request), paid);
  }

  lemma LockRuns(s: System, job: Job)
    requires job in s.jobs && job.LockJob? && !job.shouldSkipWallet
    requires job.userId in s.books.balances && s.books.balances[job.userId] >= job.amount
    ensures Do(s, RunJob(job)) ==
      s.(books := LockFunds(s.books, job.userId, job.amount, job.gameId).0, jobs := s.jobs - multiset{job},
         events := s.events + multiset{FundsLocked(job.gameId, job.userId)})
  {
    QueueSteps(s, job, FundsLocked("", ""));
    assert LockFunds(s.books, job.userId, job.amount, job.gameId).1 == Done;
    assert multiset([FundsLocked(job.gameId, job.userId)]) == multiset{FundsLocked(job.gameId, job.userId)};
    hide Do, LockFunds;
  }

  lemma TwinsLock(s: System, t: System, id: GameId, missing: int, job: Job)
    requires Twins(s, t, id, missing) && job in s.jobs && job.LockJob? && !job.shouldSkipWallet
    requires job.userId in s.books.balances && s.books.balances[job.userId] >= job.amount
    requires job.userId in t.books.balances && t.books.balances[job.userId] >= job.amount
    ensures var (s', t') := (Do(s, RunJob(job)), Do(t, RunJob(job)));
            && Twins(s', t', id, missing)
            && s'.games == s.games && s'.treatBotAsUser == s.treatBotAsUser
            && s'.jobs == s.jobs - multiset{job}
            && s'.events == s.events + multiset{FundsLocked(job.gameId, job.userId)}
  {
    hide Inv, Do, Money, HeldOf;
    StepKeepsInv(s, RunJob(job));
    LockRuns(s, job);
    LockRuns(t, job);
    LockTakes(s.books, job.userId, job.amount, job.gameId, id);
    LockTakes(t.books, job.userId, job.amount, job.gameId, id);
    hide LockFunds;
  }

  lemma TwinsDeliver(s: System, t: System, id: GameId, missing: int, e: Event)
    requires Twins(s, t, id, missing) && e in s.events && e.matchId in s.games
    ensures var (s', t') := (Do(s, Deliver(e)), Do(t, Deliver(e)));
            && Twins(s', t', id, missing)
            && s' == s.(games := s.games[e.matchId := HandleFundsLocked(s.games[e.matchId], e.userId)],
                        events := s.events - multiset{e})
  {
    hide Inv, Do, Money, HeldOf, HandleFundsLocked;
    QueueSteps(s, RevertJob(""), e);
    QueueSteps(t, RevertJob(""), e);
    TwinsElsewhere(s, t, id, missing, Deliver(e));
  }

  lemma TwinsRoundEnd(s: System, t: System, id: GameId, missing: int, winner: UserId)
    requires Twins(s, t, id, missing) && id in s.games && s.games[id].status == PLAYING
    ensures var (s', t') := (Do(s, RoundEnd(id, winner)), Do(t, RoundEnd(id, winner)));
            && Twins(s', t', id, missing)
            && s' == Store(s, HandleRoundEnd(s.games[id], winner, s.treatBotAsUser))
  {
    hide Inv, Do, Money, HeldOf, HandleRoundEnd, ReleasesIn;
    GameSteps(s, id, winner, 0);
    GameSteps(t, id, winner, 0);
    TwinsElsewhere(s, t, id, missing, RoundEnd(id, winner));
  }

  // ---------------------------------------------------------------------------------------------
  // A live match can be played to its end
  // ---------------------------------------------------------------------------------------------

  /** A match for money that may still pay out. */
  ghost predicate Underway(s: System, id: GameId) {
    && IsLive(s, id) && s.games[id].matchId == id
    && (s.games[id].players != [] || s.games[id].status == SETTLED)
    && !Practice(s.games[id].players, s.treatBotAsUser)
  }

  /** How far it is from its end: rounds to go, and bets of this round to be counted. */
  function Rounds(g: Game): int {
    if g.status == SETTLED then 0 else g.maxRounds - g.round + 1
  }

  function Bets(g: Game): int {
    if g.status == BETTING then |g.players| - |g.lockedPlayers| else 0
  }

  lemma NextToPay(g: Game, v: View) returns (user: UserId)
    requires BettingOk(g, v) && Collections.Distinct(Ids(g)) && g.players != []
    ensures user in Ids(g) && user !in g.lockedPlayers
  {
    if forall u :: u in Ids(g) ==> u in g.lockedPlayers {
      DistinctCardinality(Ids(g));
      DistinctCardinality(g.lockedPlayers);
      SubsetCardinality(PlayerSet(g), Elements(g.lockedPlayers));
    }
    user :| user in Ids(g) && user !in g.lockedPlayers;
  }

  /** Once the player's lock has run and its event has been delivered, the other bets are where they were. */
  lemma CountedStays(g: Game, jobs: multiset<Job>, events: multiset<Event>, user: UserId, jobs': multiset<Job>,
                     events': multiset<Event>)
    requires CanStart(g, jobs, events) && g.status == BETTING
    requires jobs' == jobs || jobs' == jobs - multiset{LockOf(g, user)}
    requires events' == events || events' == events - multiset{FundsLocked(g.matchId, user)}
    ensures var h := HandleFundsLocked(g, user);
            && Live(h, jobs', events')
            && h.players == g.players && h.matchId == g.matchId && h.status != SETTLED && Rounds(h) == Rounds(g)
            && (user !in g.lockedPlayers && |g.lockedPlayers| < |g.players| ==> Bets(h) < Bets(g))
  {
    CountedFunds(g, user);
    var (h, mid) := (HandleFundsLocked(g, user), Counted(g, user));
    hide Collections.Distinct, HandleFundsLocked;
    forall u | u in UserIds(g.players)
      ensures Coming(mid, jobs', events', u) && Coming(h, jobs', events', u)
    {
      assert Coming(g, jobs, events, u);
      assert LockOf(h, u) == LockOf(mid, u) == LockOf(g, u) && (u != user ==> LockOf(g, u) != LockOf(g, user));
    }
    hide Coming, Counted, LockOf;
    assert CanStart(mid, jobs', events') && CanStart(h, jobs', events');
  }

  /** The event of an uncounted bet is delivered; its lock has just run, or was run before. */
  lemma Count(s: System, id: GameId, missing: int, user: UserId, a: System, b: System)
    requires Twins(a, b, id, missing) && Underway(s, id) && s.games[id].status == BETTING
    requires a.games == s.games && a.treatBotAsUser == s.treatBotAsUser
    requires user !in s.games[id].lockedPlayers && |s.games[id].lockedPlayers| < |s.games[id].players|
    requires FundsLocked(id, user) in a.events
    requires
      || (a.jobs == s.jobs && a.events == s.events)
      || (&& a.jobs == s.jobs - multiset{LockOf(s.games[id], user)}
          && a.events == s.events + multiset{FundsLocked(id, user)})
    ensures var (s', t') := (Do(a, Deliver(FundsLocked(id, user))), Do(b, Deliver(FundsLocked(id, user))));
            && Twins(s', t', id, missing) && Underway(s', id)
            && Rounds(s'.games[id]) == Rounds(s.games[id]) && Bets(s'.games[id]) < Bets(s.games[id])
  {
    var (g, e) := (s.games[id], FundsLocked(id, user));
    hide *;
    MayStart(s, id);
    BackAgain(s.events, e);
    TwinsDeliver(a, b, id, missing, e);
    CountedStays(g, s.jobs, s.events, user, a.jobs, a.events - multiset{e});
    StaysUnderway(s, id, Do(a, Deliver(e)), HandleFundsLocked(g, user));
  }

  lemma BackAgain<T>(s: multiset<T>, x: T)
    ensures s + multiset{x} - multiset{x} == s
  {
  }

  lemma MayStart(s: System, id: GameId)
    requires Underway(s, id) && s.games[id].status == BETTING
    ensures CanStart(s.games[id], s.jobs, s.events) && s.games[id].matchId == id
  {
    hide CanStart, Practice;
  }

  lemma StaysUnderway(s: System, id: GameId, s': System, h: Game)
    requires Underway(s, id) && s.games[id].status != SETTLED
    requires s'.treatBotAsUser == s.treatBotAsUser && s'.games == s.games[id := h]
    requires h.matchId == id && h.players == s.games[id].players && Live(h, s'.jobs, s'.events)
    ensures Underway(s', id) && s'.games[id] == h
  {
    hide Practice, Live;
  }

  /** One more bet of the round is locked, if it is not already, and counted. */
  lemma PayBet(s: System, t: System, id: GameId, missing: int) returns (s': System, t': System)
    requires Twins(s, t, id, missing) && Underway(s, id) && s.games[id].status == BETTING
    ensures Twins(s', t', id, missing) && Together(s, t, s', t') && Underway(s', id)
    ensures Rounds(s'.games[id]) == Rounds(s.games[id]) && Bets(s'.games[id]) < Bets(s.games[id])
  {
    var g := s.games[id];
    GameIn(s, id);
    assert BettingOk(g, ViewOf(s, id));
    assert CanStart(g, s.jobs, s.events) && g.players != [];
    var user := NextToPay(g, ViewOf(s, id));
    assert Coming(g, s.jobs, s.events, user);
    TogetherDone(s, t);
    hide Inv, GameOk, HistoryOk, CollectingOk, Practice, CanStart, Do, Money, HeldOf, Together, Live, Bets, Rounds;
    var (a, b, e) := (s, t, FundsLocked(id, user));
    if e !in s.events {
      var job := LockOf(g, user);
      a, b := Fund(s, t, id, missing, user, job.amount);
      TwinsLock(a, b, id, missing, job);
      TogetherStep(s, t, a, b, RunJob(job));
      a, b := Do(a, RunJob(job)), Do(b, RunJob(job));
    }
    Count(s, id, missing, user, a, b);
    TogetherStep(s, t, a, b, Deliver(e));
    s', t' := Do(a, Deliver(e)), Do(b, Deliver(e));
  }

  /** The end of the last round queues the release, and the end of any other round queues every bet again. */
  lemma EndedStays(s: System, id: GameId, winner: UserId)
    requires Inv(s) && Underway(s, id) && s.games[id].status == PLAYING && winner != ""
    ensures var s' := Store(s, HandleRoundEnd(s.games[id], winner, s.treatBotAsUser));
            Underway(s', id) && Rounds(s'.games[id]) < Rounds(s.games[id])
  {
    var g := s.games[id];
    var result := HandleRoundEnd(g, winner, s.treatBotAsUser);
    EndedLive(s, id, winner);
    hide Inv, Practice, ReleasesIn, HandleRoundEnd, Live, Rounds;
    StaysUnderway(s, id, Store(s, result), result.0);
  }

  lemma EndedLive(s: System, id: GameId, winner: UserId)
    requires Inv(s) && Underway(s, id) && s.games[id].status == PLAYING && winner != ""
    ensures var (h, jobs) := HandleRoundEnd(s.games[id], winner, s.treatBotAsUser);
            && Live(h, s.jobs + multiset(jobs), s.events)
            && h.matchId == id && h.players == s.games[id].players && Rounds(h) < Rounds(s.games[id])
  {
    InPlay(s, id);
    hide Inv;
    RoundEndLive(s.games[id], s.jobs, s.events, winner, s.treatBotAsUser);
  }

  lemma InPlay(s: System, id: GameId)
    requires Inv(s) && Underway(s, id) && s.games[id].status == PLAYING
    ensures Collections.Distinct(UserIds(s.games[id].players)) && s.games[id].round <= s.games[id].maxRounds
  {
    GameIn(s, id);
    hide Inv, Practice, HistoryOk;
  }

  lemma RoundEndLive(g: Game, jobs: multiset<Job>, events: multiset<Event>, winner: UserId, treatBotAsUser: bool)
    requires g.status == PLAYING && g.round <= g.maxRounds && winner != "" && !Practice(g.players, treatBotAsUser)
    requires Collections.Distinct(UserIds(g.players))
    ensures var (h, more) := HandleRoundEnd(g, winner, treatBotAsUser);
            && Live(h, jobs + multiset(more), events)
            && h.matchId == g.matchId && h.players == g.players && Rounds(h) < Rounds(g)
  {
    var (h, more) := HandleRoundEnd(g, winner, treatBotAsUser);
    hide Practice, Collections.Distinct, CanStart, LockJobs;
    if g.round >= g.maxRounds {
      assert more == [ReleaseJob(winner, g.pot, g.matchId)];
      assert more[0] in jobs + multiset(more);
    } else {
      SameLocks(Record(g, winner).(round := g.round + 1), h, treatBotAsUser);
      AllQueued(h, jobs, events, treatBotAsUser);
    }
  }

  lemma AllQueued(g: Game, jobs: multiset<Job>, events: multiset<Event>, treatBotAsUser: bool)
    requires Collections.Distinct(UserIds(g.players)) && !Practice(g.players, treatBotAsUser)
    ensures CanStart(g, jobs + multiset(LockJobs(g, treatBotAsUser)), events)
  {
    var locks := LockJobs(g, treatBotAsUser);
    hide Collections.Distinct, Practice, LockJobs;
    forall u | u in UserIds(g.players)
      ensures Coming(g, jobs + multiset(locks), events, u)
    {
      LockQueued(g, treatBotAsUser, u);
    }
  }

  lemma LockQueued(g: Game, treatBotAsUser: bool, user: UserId)
    requires !Practice(g.players, treatBotAsUser) && user in UserIds(g.players)
    ensures LockOf(g, user) in LockJobs(g, treatBotAsUser)
  {
    var i :| 0 <= i < |g.players| && UserIds(g.players)[i] == user;
    assert LockJobs(g, treatBotAsUser)[i] == LockOf(g, user);
  }

  lemma EndRound(s: System, t: System, id: GameId, missing: int, winner: UserId)
    requires Twins(s, t, id, missing) && Underway(s, id) && s.games[id].status == PLAYING && winner != ""
    ensures var (s', t') := (Do(s, RoundEnd(id, winner)), Do(t, RoundEnd(id, winner)));
            Twins(s', t', id, missing) && Underway(s', id) && Rounds(s'.games[id]) < Rounds(s.games[id])
  {
    EndedStays(s, id, winner);
    TwinsRoundEnd(s, t, id, missing, winner);
    hide Inv, Do, Store, Live, Rounds, HandleRoundEnd, Money, HeldOf, Practice;
  }

  lemma ToGo(s: System, id: GameId)
    requires Inv(s) && Underway(s, id)
    ensures Rounds(s.games[id]) >= 0 && Bets(s.games[id]) >= 0
  {
    GameIn(s, id);
  }

  /** Whatever is still missing of the match, round by round and bet by bet, it can be played to its end. */
  lemma PlayOut(s: System, t: System, id: GameId, missing: int, winner: UserId) returns (s': System, t': System)
    requires Twins(s, t, id, missing) && Underway(s, id) && winner != ""
    ensures Twins(s', t', id, missing) && Together(s, t, s', t')
    ensures Underway(s', id) && s'.games[id].status == SETTLED
    decreases Rounds(s.games[id]), Bets(s.games[id])
  {
    ToGo(s, id);
    TogetherDone(s, t);
    hide Inv, Do, Money, HeldOf, Practice, Live, Together, Rounds, Bets, Twins;
    s', t' := s, t;
    if s.games[id].status != SETTLED {
      if s.games[id].status == BETTING {
        s', t' := PayBet(s, t, id, missing);
      } else {
        assert s.games[id].status == PLAYING;
        EndRound(s, t, id, missing, winner);
        TogetherStep(s, t, s, t, RoundEnd(id, winner));
        s', t' := Do(s, RoundEnd(id, winner)), Do(t, RoundEnd(id, winner));
      }
      var (a, b) := (s', t');
      s', t' := PlayOut(a, b, id, missing, winner);
      TogetherThen(s, t, a, b, s', t');
    }
  }

  // ---------------------------------------------------------------------------------------------
  // Exactly which sweeps are harmless
  // ---------------------------------------------------------------------------------------------

  /** How much more money is on the books than was ever put in. */
  ghost function Excess(s: System): int {
    Money(s.books) - (STARTING_BALANCE * |s.books.balances| + s.deposited - s.withdrawn)
  }

  lemma ExcessIff(s: System)
    ensures Conserved(s) <==> Excess(s) == 0
  {
  }

  lemma InvConserves(s: System)
    requires Inv(s)
    ensures Conserved(s)
  {
  }

  lemma SweptTwins(s: System, failing: set<GameId>, id: GameId)
    requires Inv(s) && MayGiveBack(s.books, failing) && id !in failing
    ensures Twins(s, StaleReverted(s, failing), id, HeldOf(s.books.holds, id))
  {
    SoundIn(s);
    SweepEmptiesEscrow(s.books, failing, id);
    hide Inv, MayGiveBack, Sweep, Sound, Money, HeldOf, HeldGames;
  }

  lemma HolderPlays(g: Game, v: View, treatBotAsUser: bool)
    requires GameOk(g, v, treatBotAsUser) && Holders(v.holds, g.matchId) != {} && g.status != LOADING
    ensures !Practice(g.players, treatBotAsUser) && (g.players != [] || g.status == SETTLED)
  {
    hide HeldOf, HeldBy, Practice, SeatOk, Holders, CanStart, NoJobs, NoEvents, SettledOk;
  }

  lemma HeldHasHolder(holds: seq<Hold>, game: GameId)
    requires HasHeld(holds, game)
    ensures Holders(holds, game) != {}
  {
    var i :| 0 <= i < |holds| && holds[i].gameId == game && holds[i].status == HELD;
    assert holds[i].wallet in Holders(holds, game);
  }

  lemma HeldIsUnderway(s: System, id: GameId)
    requires Inv(s) && HasHeld(s.books.holds, id) && IsLive(s, id)
    ensures Underway(s, id)
  {
    GameIn(s, id);
    HeldHasHolder(s.books.holds, id);
    hide Inv, GameOk, HistoryOk, Practice, Holders, HasHeld;
    HolderPlays(s.games[id], ViewOf(s, id), s.treatBotAsUser);
  }

  lemma ReleaseShifts(s: System, job: Job)
    requires job in s.jobs && job.ReleaseJob? && job.winnerUserId in s.books.balances
    ensures Excess(Do(s, RunJob(job))) == Excess(s) + job.amount - HeldOf(s.books.holds, job.gameId)
  {
    QueueSteps(s, job, FundsLocked("", ""));
    ReleaseMoney(s.books, job.winnerUserId, job.amount, job.gameId);
    ReleaseKeepsWallets(s.books, job.winnerUserId, job.amount, job.gameId);
    SameSize(s.books.balances, ReleaseFunds(s.books, job.winnerUserId, job.amount, job.gameId).0.balances);
    hide Do, Money, HeldOf;
    assert RunOne(s, job).books == ReleaseFunds(s.books, job.winnerUserId, job.amount, job.gameId).0;
  }

  /** The release at the end pays what the twin no longer holds. */
  lemma ReleaseMints(s: System, t: System, id: GameId, missing: int, job: Job)
    requires Twins(s, t, id, missing) && job in s.jobs && job.ReleaseJob? && job.gameId == id
    requires job.winnerUserId in s.books.balances
    ensures Excess(Do(t, RunJob(job))) == missing
  {
    ReleaseIsHeld(s, job);
    InvConserves(s);
    ReleaseShifts(t, job);
    SameSize(s.books.balances, t.books.balances);
    hide Inv, Do, Money, HeldOf;
  }

  lemma ReleaseKeepsWallets(b: Books, winner: UserId, amount: int, game: GameId)
    ensures ReleaseFunds(b, winner, amount, game).0.balances.Keys == b.balances.Keys
  {
  }

  lemma SameSize(a: map<UserId, int>, b: map<UserId, int>)
    requires a.Keys == b.Keys
    ensures |a| == |b|
  {
    assert |a| == |a.Keys| && |b| == |b.Keys|;
  }

  lemma PayRelease(s: System, t: System, id: GameId, missing: int) returns (s': System, t': System)
    requires Twins(s, t, id, missing) && Underway(s, id) && s.games[id].status == SETTLED
    ensures Together(s, t, s', t') && Excess(t') == missing
  {
    var job :| job in s.jobs && job.ReleaseJob? && job.gameId == id;
    var open := NewWallet(job.winnerUserId);
    TogetherDone(s, t);
    TwinsOpen(s, t, id, missing, job.winnerUserId);
    hide Inv, Do, Money, HeldOf, Practice, Live, Together, Twins, Excess;
    TogetherStep(s, t, s, t, open);
    ReleaseMints(Do(s, open), Do(t, open), id, missing, job);
    TogetherStep(s, t, Do(s, open), Do(t, open), RunJob(job));
    s', t' := Do(Do(s, open), RunJob(job)), Do(Do(t, open), RunJob(job));
  }

  /**
   * A live match that is given back mints what was held for it: some run of ordinary steps ends with exactly that
   * much money too much, while without the sweep the same run conserves money.
   */
  lemma LiveMatchMintsHeld(s: System, failing: set<GameId>, id: GameId)
    requires Inv(s) && MayGiveBack(s.books, failing)
    requires HasHeld(s.books.holds, id) && id !in failing && IsLive(s, id)
    ensures exists labels ::
      && AllOrdinary(labels)
      && Excess(Run(StaleReverted(s, failing), labels)) == HeldOf(s.books.holds, id)
      && Excess(Run(s, labels)) == 0
  {
    var (t, missing) := (StaleReverted(s, failing), HeldOf(s.books.holds, id));
    hide *;
    HeldIsUnderway(s, id);
    SweptTwins(s, failing, id);
    var a, b := PlayOut(s, t, id, missing, "w");
    var c, d := PayRelease(a, b, id, missing);
    TogetherThen(s, t, a, b, c, d);
    var labels := LabelsOf(s, t, c, d);
    RunKeepsInv(s, labels);
    InvConserves(Run(s, labels));
    ExcessIff(Run(s, labels));
  }

  lemma LabelsOf(s: System, t: System, s': System, t': System) returns (labels: seq<Label>)
    requires Together(s, t, s', t')
    ensures AllOrdinary(labels) && Run(s, labels) == s' && Run(t, labels) == t'
  {
    labels :| AllOrdinary(labels) && Run(s, labels) == s' && Run(t, labels) == t';
  }

  lemma {:induction false} HeldIsPositive(holds: seq<Hold>, game: GameId)
    requires forall i :: 0 <= i < |holds| ==> holds[i].amount > 0
    ensures HeldOf(holds, game) >= 0
    ensures HasHeld(holds, game) ==> HeldOf(holds, game) > 0
  {
    if holds != [] {
      var front, last := holds[..|holds| - 1], holds[|holds| - 1];
      assert forall i :: 0 <= i < |front| ==> front[i] == holds[i];
      HeldIsPositive(front, game);
      if HasHeld(holds, game) {
        var i :| 0 <= i < |holds| && holds[i].gameId == game && holds[i].status == HELD;
        assert i < |front| ==> front[i] == holds[i];
      }
    }
  }

  /** Money is conserved over every run from the state. */
  ghost predicate StaysConserved(s: System) {
    forall labels :: Conserved(Run(s, labels))
  }

  /**
   * The exact condition: if every hold is of a positive amount, a run of the job on games that it can give back is
   * followed only by runs that conserve money if and only if none of these games is live.
   */
  lemma SweepConservesIff(s: System, failing: set<GameId>)
    requires Inv(s) && MayGiveBack(s.books, failing)
    requires forall i :: 0 <= i < |s.books.holds| ==> s.books.holds[i].amount > 0
    ensures StaysConserved(StaleReverted(s, failing)) <==>
      forall g :: HasHeld(s.books.holds, g) && g !in failing ==> !IsLive(s, g)
  {
    var t := StaleReverted(s, failing);
    hide Inv, Refundable, HasHeld, IsLive, StaleReverted, Conserved, Run;
    if g :| HasHeld(s.books.holds, g) && g !in failing && IsLive(s, g) {
      LiveMatchMintsHeld(s, failing, g);
      HeldIsPositive(s.books.holds, g);
      var labels :|
        AllOrdinary(labels) && Excess(Run(t, labels)) == HeldOf(s.books.holds, g) && Excess(Run(s, labels)) == 0;
      ExcessIff(Run(t, labels));
    } else {
      SweepStep(s, failing);
      forall labels
        ensures Conserved(Run(t, labels))
      {
        RunKeepsInv(t, labels);
        InvConserves(Run(t, labels));
      }
    }
  }

  /** In a reachable state the holds are the bets of their matches, so there it is enough that all bets are positive. */
  lemma ReachedSweepConservesIff(treatBotAsUser: bool, labels: seq<Label>, failing: set<GameId>)
    requires MayGiveBack(Reached(treatBotAsUser, labels).books, failing)
    requires var games := Reached(treatBotAsUser, labels).games;
             forall id :: id in games ==> games[id].config.betAmount > 0
    ensures var s := Reached(treatBotAsUser, labels);
            StaysConserved(StaleReverted(s, failing)) <==>
              forall g :: HasHeld(s.books.holds, g) && g !in failing ==> !IsLive(s, g)
  {
    var s := Reached(treatBotAsUser, labels);
    ReachedInv(treatBotAsUser, labels);
    HoldsAreBets(s);
    SweepConservesIff(s, failing);
  }

  lemma HoldsAreBets(s: System)
    requires Inv(s)
    ensures forall i :: 0 <= i < |s.books.holds| ==>
      var h := s.books.holds[i]; h.gameId in s.games && h.amount == s.games[h.gameId].config.betAmount
  {
    var b := s.books;
    hide StoreOk, ReleasesOk, Known, Balanced, Money;
    forall i | 0 <= i < |b.holds|
      ensures var h := b.holds[i]; h.gameId in s.games && h.amount == s.games[h.gameId].config.betAmount
    {
      assert Placements(b.holds)[i] in Wagers(b.rows);
      MirrorFindsWager(b.rows, Placements(b.holds)[i]);
    }
  }
}
