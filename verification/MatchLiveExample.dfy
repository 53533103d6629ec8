/** A run in which the job gives back a match in play, step by step: once with its guard left out, as in the code. */
module MatchLiveExample {
  import opened Collections
  import opened Ledger
  import opened Games
  import opened WalletOperations
  import opened LedgerLaws
  import opened WalletMaintenance
  import opened MatchProtocol
  import opened MatchInvariant
  import opened MatchTheorems
  import opened MatchLiveReverts

  // ---------------------------------------------------------------------------------------------
  // A run that gets there
  // ---------------------------------------------------------------------------------------------

  const A: UserId := "a"
  const B: UserId := "b"
  const M: GameId := "m"
  const TWO := [Player("a", false), Player("b", false)]

  function Terms(bet: int): Config {
    Config(bet, Some(7), 1)
  }

  function Match(bet: int, status: Status, connected: seq<UserId>, locked: seq<UserId>, pot: int): Game {
    Game(M, status, TWO, 1, 1, pot, [], Terms(bet), 0, A, connected, locked, map[], None)
  }

  function Lock(user: UserId, bet: int): Job {
    LockJob(user, bet, M, false)
  }

  /** Both wallets are open, and the match waits for its players. */
  function Opened2(bet: int, treatBotAsUser: bool): System {
    System(treatBotAsUser, Books(map[A := STARTING_BALANCE, B := STARTING_BALANCE], [], []),
           map[M := Match(bet, LOADING, [], [], 0)], multiset{}, multiset{}, {}, [], 0, 0)
  }

  /** Both have connected, and their bets are queued. */
  function Betting2(bet: int, treatBotAsUser: bool): System {
    Opened2(bet, treatBotAsUser).(games := map[M := Match(bet, BETTING, [A, B], [], 0)],
                                  jobs := multiset{Lock(A, bet), Lock(B, bet)})
  }

  function BooksAfterLocks(bet: int): Books {
    Books(map[A := STARTING_BALANCE - bet, B := STARTING_BALANCE - bet],
          [Row(A, bet, WAGER, COMPLETED, M), Row(B, bet, WAGER, COMPLETED, M)],
          [Hold(A, bet, M, HELD), Hold(B, bet, M, HELD)])
  }

  function Locked2(bet: int, treatBotAsUser: bool): System {
    Betting2(bet, treatBotAsUser).(books := BooksAfterLocks(bet), jobs := multiset{},
                                   events := multiset{FundsLocked(M, A), FundsLocked(M, B)})
  }

  /** Both bets are locked and counted: the match is in play. */
  function Playing2(bet: int, treatBotAsUser: bool): System {
    Locked2(bet, treatBotAsUser).(events := multiset{},
                                  games := map[M := Match(bet, PLAYING, [A, B], [A, B], bet + bet)])
  }

  lemma DoOpening(bet: int, treatBotAsUser: bool)
    ensures Do(Do(Do(Init(treatBotAsUser), NewWallet(A)), NewWallet(B)), NewGame(M, TWO, Terms(bet), A)) ==
      Opened2(bet, treatBotAsUser)
  {
  }

  lemma Different()
    ensures A != B
  {
    assert A[0] != B[0];
  }

  lemma HumansAreTwo()
    ensures Humans(TWO) == 2 && !HasBot(TWO)
  {
    assert TWO[..1] == [TWO[0]] && TWO[..1][..0] == [];
    assert Humans(TWO[..1]) == 1;
  }

  lemma AppendTwo<T>(x: T, y: T)
    ensures [] + [x] == [x] && [x] + [y] == [x, y]
  {
  }

  lemma BothConnect(bet: int, treatBotAsUser: bool)
    ensures HandlePlayerConnected(Match(bet, LOADING, [], [], 0), A, treatBotAsUser) ==
      (Match(bet, LOADING, [A], [], 0), [])
    ensures HandlePlayerConnected(Match(bet, LOADING, [A], [], 0), B, treatBotAsUser) ==
      (Match(bet, BETTING, [A, B], [], 0), [Lock(A, bet), Lock(B, bet)])
  {
    HumansAreTwo();
    Different();
    AppendTwo(A, B);
    hide Humans;
    assert LockJobs(Match(bet, BETTING, [A, B], [], 0), treatBotAsUser) == [Lock(A, bet), Lock(B, bet)];
  }

  lemma TwoLocks(bet: int)
    ensures ReleasesIn([Lock(A, bet), Lock(B, bet)]) == [] && ReleasesIn([]) == []
  {
    var jobs := [Lock(A, bet), Lock(B, bet)];
    assert jobs[..1] == [Lock(A, bet)] && jobs[..1][..0] == [];
    assert ReleasesIn(jobs[..1]) == [];
  }

  lemma DoConnecting(bet: int, treatBotAsUser: bool)
    ensures Do(Do(Opened2(bet, treatBotAsUser), Connect(M, A)), Connect(M, B)) == Betting2(bet, treatBotAsUser)
  {
    FirstStored(bet, treatBotAsUser);
    SecondStored(bet, treatBotAsUser);
    BothConnect(bet, treatBotAsUser);
    var s := Opened2(bet, treatBotAsUser);
    var one := s.(games := map[M := Match(bet, LOADING, [A], [], 0)]);
    assert s.games[M] == Match(bet, LOADING, [], [], 0) && one.games[M] == Match(bet, LOADING, [A], [], 0);
    hide HandlePlayerConnected, Store, Match, Opened2, Betting2, Lock;
    DoConnect(s, M, A);
    DoConnect(one, M, B);
  }

  lemma DoConnect(s: System, id: GameId, user: UserId)
    requires id in s.games
    ensures Do(s, Connect(id, user)) == Store(s, HandlePlayerConnected(s.games[id], user, s.treatBotAsUser))
  {
  }

  lemma FirstStored(bet: int, treatBotAsUser: bool)
    ensures var s := Opened2(bet, treatBotAsUser);
            Store(s, (Match(bet, LOADING, [A], [], 0), [])) == s.(games := map[M := Match(bet, LOADING, [A], [], 0)])
  {
    TwoLocks(bet);
    hide ReleasesIn;
  }

  lemma SecondStored(bet: int, treatBotAsUser: bool)
    ensures var one := Opened2(bet, treatBotAsUser).(games := map[M := Match(bet, LOADING, [A], [], 0)]);
            Store(one, (Match(bet, BETTING, [A, B], [], 0), [Lock(A, bet), Lock(B, bet)])) ==
              Betting2(bet, treatBotAsUser)
  {
    TwoLocks(bet);
    hide ReleasesIn, Lock;
    assert multiset([Lock(A, bet), Lock(B, bet)]) == multiset{Lock(A, bet), Lock(B, bet)};
  }

  function BooksAfterOne(bet: int): Books {
    Books(map[A := STARTING_BALANCE - bet, B := STARTING_BALANCE],
          [Row(A, bet, WAGER, COMPLETED, M)], [Hold(A, bet, M, HELD)])
  }

  lemma BothLock(bet: int)
    requires bet <= STARTING_BALANCE
    ensures LockFunds(Opened2(bet, true).books, A, bet, M) == (BooksAfterOne(bet), Done)
    ensures LockFunds(BooksAfterOne(bet), B, bet, M) == (BooksAfterLocks(bet), Done)
  {
    Different();
    AppendTwo(Row(A, bet, WAGER, COMPLETED, M), Row(B, bet, WAGER, COMPLETED, M));
    AppendTwo(Hold(A, bet, M, HELD), Hold(B, bet, M, HELD));
    assert map[A := STARTING_BALANCE, B := STARTING_BALANCE][A := STARTING_BALANCE - bet] ==
      BooksAfterOne(bet).balances;
    assert BooksAfterOne(bet).balances[B := STARTING_BALANCE - bet] == BooksAfterLocks(bet).balances;
  }

  /** The first lock has run. */
  function OneLocked2(bet: int, treatBotAsUser: bool): System {
    Betting2(bet, treatBotAsUser).(books := BooksAfterOne(bet), jobs := multiset{Lock(B, bet)},
                                   events := multiset{FundsLocked(M, A)})
  }

  lemma FirstLock(bet: int, treatBotAsUser: bool)
    requires bet <= STARTING_BALANCE
    ensures Do(Betting2(bet, treatBotAsUser), RunJob(Lock(A, bet))) == OneLocked2(bet, treatBotAsUser)
  {
    BothLock(bet);
    Different();
    hide Do, LockFunds;
    LockRuns(Betting2(bet, treatBotAsUser), Lock(A, bet));
  }

  lemma DoLocking(bet: int, treatBotAsUser: bool)
    requires bet <= STARTING_BALANCE
    ensures Do(Do(Betting2(bet, treatBotAsUser), RunJob(Lock(A, bet))), RunJob(Lock(B, bet))) ==
      Locked2(bet, treatBotAsUser)
  {
    BothLock(bet);
    FirstLock(bet, treatBotAsUser);
    hide Do, LockFunds;
    LockRuns(OneLocked2(bet, treatBotAsUser), Lock(B, bet));
  }

  lemma BothCounted(bet: int)
    ensures HandleFundsLocked(Match(bet, BETTING, [A, B], [], 0), A) == Match(bet, BETTING, [A, B], [A], bet)
    ensures HandleFundsLocked(Match(bet, BETTING, [A, B], [A], bet), B) ==
      Match(bet, PLAYING, [A, B], [A, B], bet + bet)
  {
    Different();
  }

  lemma DoDelivering(bet: int, treatBotAsUser: bool)
    ensures Do(Do(Locked2(bet, treatBotAsUser), Deliver(FundsLocked(M, A))), Deliver(FundsLocked(M, B))) ==
      Playing2(bet, treatBotAsUser)
  {
    BothCounted(bet);
    Different();
    hide HandleFundsLocked;
    var s := Locked2(bet, treatBotAsUser);
    var (d, e) := (FundsLocked(M, A), FundsLocked(M, B));
    assert multiset{d, e} - multiset{d} == multiset{e} && multiset{e} - multiset{e} == multiset{};
    assert s.games[M] == Match(bet, BETTING, [A, B], [], 0);
    hide Do, Match, BooksAfterLocks;
    DoDeliver(s, d, Match(bet, BETTING, [A, B], [A], bet));
    var one := s.(games := map[M := Match(bet, BETTING, [A, B], [A], bet)], events := multiset{e});
    assert Do(s, Deliver(d)) == one;
    DoDeliver(one, e, Match(bet, PLAYING, [A, B], [A, B], bet + bet));
  }

  lemma DoDeliver(s: System, e: Event, after: Game)
    requires e in s.events && e.matchId in s.games && HandleFundsLocked(s.games[e.matchId], e.userId) == after
    ensures Do(s, Deliver(e)) == s.(events := s.events - multiset{e}, games := s.games[e.matchId := after])
  {
    hide HandleFundsLocked;
  }

  function Snoc(labels: seq<Label>, step: Label): seq<Label> {
    labels + [step]
  }

  lemma RunSnoc(s: System, labels: seq<Label>, step: Label)
    ensures Run(s, Snoc(labels, step)) == Do(Run(s, labels), step)
  {
    RunStep(s, labels, step);
    hide Do;
  }

  /** The nine steps that take two players with open wallets into play. */
  function ToPlay(bet: int): seq<Label> {
    var waiting := Snoc(Snoc(Snoc([], NewWallet(A)), NewWallet(B)), NewGame(M, TWO, Terms(bet), A));
    var betting := Snoc(Snoc(waiting, Connect(M, A)), Connect(M, B));
    var locked := Snoc(Snoc(betting, RunJob(Lock(A, bet))), RunJob(Lock(B, bet)));
    Snoc(Snoc(locked, Deliver(FundsLocked(M, A))), Deliver(FundsLocked(M, B)))
  }

  lemma PlayIsReached(bet: int, treatBotAsUser: bool)
    requires bet <= STARTING_BALANCE
    ensures Reached(treatBotAsUser, ToPlay(bet)) == Playing2(bet, treatBotAsUser)
  {
    var s := Init(treatBotAsUser);
    assert Run(s, []) == s;
    var waiting := Snoc(Snoc(Snoc([], NewWallet(A)), NewWallet(B)), NewGame(M, TWO, Terms(bet), A));
    var betting := Snoc(Snoc(waiting, Connect(M, A)), Connect(M, B));
    var locked := Snoc(Snoc(betting, RunJob(Lock(A, bet))), RunJob(Lock(B, bet)));
    var playing := Snoc(Snoc(locked, Deliver(FundsLocked(M, A))), Deliver(FundsLocked(M, B)));
    assert playing == ToPlay(bet);
    assert Reached(treatBotAsUser, playing) == Run(s, playing);
    hide *;
    RunSnoc(s, [], NewWallet(A));
    RunSnoc(s, Snoc([], NewWallet(A)), NewWallet(B));
    RunSnoc(s, Snoc(Snoc([], NewWallet(A)), NewWallet(B)), NewGame(M, TWO, Terms(bet), A));
    DoOpening(bet, treatBotAsUser);
    RunSnoc(s, waiting, Connect(M, A));
    RunSnoc(s, Snoc(waiting, Connect(M, A)), Connect(M, B));
    DoConnecting(bet, treatBotAsUser);
    RunSnoc(s, betting, RunJob(Lock(A, bet)));
    RunSnoc(s, Snoc(betting, RunJob(Lock(A, bet))), RunJob(Lock(B, bet)));
    DoLocking(bet, treatBotAsUser);
    RunSnoc(s, locked, Deliver(FundsLocked(M, A)));
    RunSnoc(s, Snoc(locked, Deliver(FundsLocked(M, A))), Deliver(FundsLocked(M, B)));
    DoDelivering(bet, treatBotAsUser);
  }

  lemma PlayingCanBeGivenBack(bet: int, treatBotAsUser: bool)
    ensures MayGiveBack(Playing2(bet, treatBotAsUser).books, {})
    ensures !Practice(TWO, treatBotAsUser)
  {
    HumansAreTwo();
    Different();
    var b := BooksAfterLocks(bet);
    assert b.rows[..1] == [b.rows[0]] && b.rows[..1][..0] == [];
    assert RowsOf(b.rows[..1], M) == [b.rows[0]];
    AppendTwo(b.rows[0], b.rows[1]);
    assert RowsOf(b.rows, M) == b.rows;
    assert Refundable(b, M);
    forall g | HasHeld(b.holds, g)
      ensures g == M
    {
      var i :| 0 <= i < |b.holds| && b.holds[i].gameId == g && b.holds[i].status == HELD;
      assert i == 0 || i == 1;
    }
  }

  /**
   * Such a state is reachable: two wallets, one match, two connections, two locked bets and two deliveries, for any
   * bet both can pay, lead to a live match that can be given back, and then some run mints the whole pot.
   */
  lemma SweepMintsPotOfReachedMatch(bet: int, treatBotAsUser: bool)
    requires bet <= STARTING_BALANCE
    ensures var s := Reached(treatBotAsUser, ToPlay(bet));
            && HasHeld(s.books.holds, M) && IsLive(s, M) && MayGiveBack(s.books, {})
            && s.games[M].status == PLAYING && s.games[M].pot == bet + bet
            && exists labels :: AllOrdinary(labels) && Excess(Run(StaleReverted(s, {}), labels)) == bet + bet
  {
    PlayIsReached(bet, treatBotAsUser);
    ReachedInv(treatBotAsUser, ToPlay(bet));
    PlayingCanBeGivenBack(bet, treatBotAsUser);
    var s := Playing2(bet, treatBotAsUser);
    assert s.books.holds[0].gameId == M && s.books.holds[0].status == HELD;
    PotOfM(s, bet);
    hide Reached, ToPlay, Inv, MayGiveBack, Excess, StaleReverted, Run;
    LiveMatchMintsHeld(s, {}, M);
  }

  lemma PotOfM(s: System, bet: int)
    requires Inv(s) && M in s.games && s.games[M] == Match(bet, PLAYING, [A, B], [A, B], bet + bet)
    requires !Practice(TWO, s.treatBotAsUser)
    ensures HeldOf(s.books.holds, M) == bet + bet
  {
    GameIn(s, M);
    PotIsHeld(s.games[M], ViewOf(s, M));
    hide HeldOf, Inv;
  }

  // ---------------------------------------------------------------------------------------------
  // The job as it is
  // ---------------------------------------------------------------------------------------------

  /** A step of the system in which the stale-game job asks for HELD holds alone, as its code does. */
  ghost function DoFreely(s: System, step: Label): System {
    match step
    case RevertStaleGames(failing) => StaleReverted(s, failing)
    case _ => Do(s, step)
  }

  ghost function RunFreely(s: System, labels: seq<Label>): System {
    if labels == [] then s else DoFreely(RunFreely(s, labels[..|labels| - 1]), labels[|labels| - 1])
  }

  lemma RunFreelySnoc(s: System, labels: seq<Label>, step: Label)
    ensures RunFreely(s, Snoc(labels, step)) == DoFreely(RunFreely(s, labels), step)
  {
    assert (labels + [step])[..|labels|] == labels;
    hide DoFreely;
  }

  lemma {:induction false} WithoutSweeps(s: System, labels: seq<Label>)
    requires forall i :: 0 <= i < |labels| ==> !labels[i].RevertStaleGames?
    ensures RunFreely(s, labels) == Run(s, labels)
  {
    if labels != [] {
      WithoutSweeps(s, labels[..|labels| - 1]);
      hide Do;
    }
  }

  lemma LastRoundEnds(bet: int, winner: UserId, treatBotAsUser: bool)
    requires winner != "" && !Practice(TWO, treatBotAsUser)
    ensures HandleRoundEnd(Match(bet, PLAYING, [A, B], [A, B], bet + bet), winner, treatBotAsUser).1 ==
      [ReleaseJob(winner, bet + bet, M)]
  {
  }

  /** The end of a match's last round leaves the books alone and queues the release. */
  lemma RoundEndQueues(s: System, id: GameId, winner: UserId, release: Job)
    requires id in s.games && s.games[id].status == PLAYING
    requires HandleRoundEnd(s.games[id], winner, s.treatBotAsUser).1 == [release]
    ensures var ended := Do(s, RoundEnd(id, winner));
            && release in ended.jobs && ended.books == s.books
            && ended.deposited == s.deposited && ended.withdrawn == s.withdrawn
  {
    GameSteps(s, id, winner, 0);
    var result := HandleRoundEnd(s.games[id], winner, s.treatBotAsUser);
    assert release in multiset(result.1);
    hide Do, HandleRoundEnd, ReleasesIn;
  }

  lemma ReleasePays(s: System, release: Job)
    requires release in s.jobs && release.ReleaseJob?
    ensures var paid := Do(s, RunJob(release));
            && paid.books == ReleaseFunds(s.books, release.winnerUserId, release.amount, release.gameId).0
            && paid.deposited == s.deposited && paid.withdrawn == s.withdrawn
  {
    QueueSteps(s, release, FundsLocked("", ""));
    hide Do, ReleaseFunds;
  }

  lemma RoundEndThenPaid(s: System, bet: int, winner: UserId, release: Job)
    requires M in s.games && s.games[M] == Match(bet, PLAYING, [A, B], [A, B], bet + bet)
    requires winner != "" && !Practice(TWO, s.treatBotAsUser) && release == ReleaseJob(winner, bet + bet, M)
    ensures var ended := Do(s, RoundEnd(M, winner)); var paid := Do(ended, RunJob(release));
            && paid.books == ReleaseFunds(s.books, winner, bet + bet, M).0
            && paid.deposited == s.deposited && paid.withdrawn == s.withdrawn
  {
    LastRoundEnds(bet, winner, s.treatBotAsUser);
    hide HandleRoundEnd, Do, Practice, ReleaseFunds;
    RoundEndQueues(s, M, winner, release);
    ReleasePays(Do(s, RoundEnd(M, winner)), release);
  }

  lemma PlayingFacts(bet: int, treatBotAsUser: bool)
    requires bet <= STARTING_BALANCE
    ensures var s := Playing2(bet, treatBotAsUser);
            && s == Run(Init(treatBotAsUser), ToPlay(bet)) == RunFreely(Init(treatBotAsUser), ToPlay(bet))
            && s.treatBotAsUser == treatBotAsUser && M in s.games
            && s.games[M] == Match(bet, PLAYING, [A, B], [A, B], bet + bet)
            && Sound(s.books) && MayGiveBack(s.books, {}) && A in s.books.balances
            && !Practice(TWO, s.treatBotAsUser)
            && Money(s.books) == STARTING_BALANCE * |s.books.balances| + s.deposited - s.withdrawn
  {
    PlayIsReached(bet, treatBotAsUser);
    MoneyConserved(treatBotAsUser, ToPlay(bet));
    ReachedInv(treatBotAsUser, ToPlay(bet));
    PlayingCanBeGivenBack(bet, treatBotAsUser);
    SoundIn(Playing2(bet, treatBotAsUser));
    NoSweepInPlay(bet);
    hide Run, RunFreely, Inv, MayGiveBack, Sound, Money, ToPlay;
    WithoutSweeps(Init(treatBotAsUser), ToPlay(bet));
  }

  lemma NoSweepInPlay(bet: int)
    ensures forall i :: 0 <= i < |ToPlay(bet)| ==> !ToPlay(bet)[i].RevertStaleGames?
  {
  }

  lemma SweepFreely(s: System)
    ensures var t := DoFreely(s, RevertStaleGames({}));
            && t.games == s.games && t.books == Sweep(s.books, {}) && t.treatBotAsUser == s.treatBotAsUser
            && t.deposited == s.deposited && t.withdrawn == s.withdrawn
  {
    hide Sweep, HeldGames;
  }

  lemma OtherStepsAlike(s: System, step: Label)
    requires !step.RevertStaleGames?
    ensures DoFreely(s, step) == Do(s, step)
  {
    hide Do;
  }

  lemma ThreeMore(s: System, labels: seq<Label>, winner: UserId, release: Job)
    ensures var t := DoFreely(RunFreely(s, labels), RevertStaleGames({}));
            RunFreely(s, Snoc(Snoc(Snoc(labels, RevertStaleGames({})), RoundEnd(M, winner)), RunJob(release))) ==
              Do(Do(t, RoundEnd(M, winner)), RunJob(release))
  {
    var swept := Snoc(labels, RevertStaleGames({}));
    var ended := Snoc(swept, RoundEnd(M, winner));
    hide *;
    RunFreelySnoc(s, labels, RevertStaleGames({}));
    RunFreelySnoc(s, swept, RoundEnd(M, winner));
    RunFreelySnoc(s, ended, RunJob(release));
    var t := RunFreely(s, swept);
    OtherStepsAlike(t, RoundEnd(M, winner));
    OtherStepsAlike(Do(t, RoundEnd(M, winner)), RunJob(release));
  }

  lemma SweptAndPaid(s: System, bet: int, winner: UserId, release: Job)
    requires M in s.games && s.games[M] == Match(bet, PLAYING, [A, B], [A, B], bet + bet)
    requires winner != "" && !Practice(TWO, s.treatBotAsUser) && release == ReleaseJob(winner, bet + bet, M)
    requires Sound(s.books) && MayGiveBack(s.books, {}) && winner in s.books.balances
    ensures var paid := Do(Do(DoFreely(s, RevertStaleGames({})), RoundEnd(M, winner)), RunJob(release));
            && Money(paid.books) == Money(s.books) + bet + bet
            && |paid.books.balances| == |s.books.balances|
            && paid.deposited == s.deposited && paid.withdrawn == s.withdrawn
  {
    hide *;
    var t := DoFreely(s, RevertStaleGames({}));
    SweepFreely(s);
    RoundEndThenPaid(t, bet, winner, release);
    SweepThenRelease(s.books, {}, M, winner, bet + bet);
    SweepEmptiesEscrow(s.books, {}, M);
    ReleaseKeepsWallets(t.books, winner, bet + bet, M);
    SameSize(s.books.balances, Do(Do(t, RoundEnd(M, winner)), RunJob(release)).books.balances);
  }

  /**
   * Without the guard money is not conserved: two players lock a bet, the job gives it back while they play, and
   * the end of the round pays it out again.
   */
  lemma UnguardedJobBreaksConservation(bet: int, treatBotAsUser: bool)
    requires 0 < bet <= STARTING_BALANCE
    ensures var swept := Snoc(ToPlay(bet), RevertStaleGames({}));
            var labels := Snoc(Snoc(swept, RoundEnd(M, A)), RunJob(ReleaseJob(A, bet + bet, M)));
            var s := RunFreely(Init(treatBotAsUser), labels);
            Money(s.books) == STARTING_BALANCE * |s.books.balances| + s.deposited - s.withdrawn + bet + bet
  {
    assert A != "";
    hide *;
    PlayingFacts(bet, treatBotAsUser);
    ThreeMore(Init(treatBotAsUser), ToPlay(bet), A, ReleaseJob(A, bet + bet, M));
    SweptAndPaid(Playing2(bet, treatBotAsUser), bet, A, ReleaseJob(A, bet + bet, M));
  }
}
