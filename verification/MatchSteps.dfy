/** Every step of the system keeps the invariant; hence every run does, and money is conserved. */
module MatchSteps {
  import opened Collections
  import opened Ledger
  import opened Games
  import opened WalletOperations
  import opened LedgerLaws
  import opened WalletMaintenance
  import opened MatchProtocol
  import opened MatchInvariant
  import opened MatchHandlers
  import Dice

  // ---------------------------------------------------------------------------------------------
  // Handlers that store a match and queue jobs
  // ---------------------------------------------------------------------------------------------

  lemma {:induction false} ReleasesInShape(jobs: seq<Job>, id: GameId)
    requires forall j :: j in jobs ==> Mentions(j, id)
    ensures forall g :: g in ReleasesIn(jobs) ==> g == id
    ensures (forall j :: j in jobs ==> j.LockJob?) ==> ReleasesIn(jobs) == []
    ensures |ReleasesIn(jobs)| <= |jobs|
  {
    if jobs != [] {
      var front, last := jobs[..|jobs| - 1], jobs[|jobs| - 1];
      assert last in jobs && Mentions(last, id);
      assert forall j :: j in front ==> j in jobs;
      ReleasesInShape(front, id);
      assert ReleasesIn(jobs) == ReleasesIn(front) + if last.ReleaseJob? then [last.gameId] else [];
    }
  }

  /** What a handler may do besides keeping the match good: it queues a release only by settling the match. */
  ghost predicate ReleaseDiscipline(g: Game, result: (Game, seq<Job>), treatBotAsUser: bool) {
    && (g.status == SETTLED ==> result.0.status == SETTLED && result.1 == [])
    && ((forall j :: j in result.1 ==> j.LockJob?) ||
        (|result.1| == 1 && result.0.status == SETTLED && !Practice(g.players, treatBotAsUser)))
  }

  lemma StoreStep(s: System, id: GameId, result: (Game, seq<Job>))
    requires StoreOk(s) && id in s.games
    requires HandlerOk(s.games[id], result, ViewOf(s, id), s.treatBotAsUser)
    ensures StoreOk(Store(s, result))
  {
    var s' := Store(s, result);
    forall x | x in s'.games
      ensures GameOk(s'.games[x], ViewOf(s', x), s.treatBotAsUser)
    {
      if x != id {
        assert SameView(x, ViewOf(s, x), ViewOf(s', x)) by {
          forall j | Mentions(j, x)
            ensures s.jobs[j] == s'.jobs[j]
          {
            assert j !in result.1;
          }
        }
        Frame(s.games[x], ViewOf(s, x), ViewOf(s', x), s.treatBotAsUser);
      }
    }
    forall j, x | j in s'.jobs && Mentions(j, x)
      ensures x in s'.games
    {
      assert j in s.jobs || j in result.1;
    }
  }

  lemma OneRelease(g: Game, result: (Game, seq<Job>), treatBotAsUser: bool)
    requires ReleaseDiscipline(g, result, treatBotAsUser) && forall j :: j in result.1 ==> Mentions(j, g.matchId)
    ensures var more := ReleasesIn(result.1);
            more == [] ||
            (more == [g.matchId] && g.status != SETTLED && result.0.status == SETTLED &&
             !Practice(g.players, treatBotAsUser))
    ensures g.status == SETTLED ==> result.0.status == SETTLED
  {
    ReleasesInShape(result.1, g.matchId);
    var more := ReleasesIn(result.1);
    hide ReleasesIn, Practice;
    if more != [] {
      assert more[0] in more;
    }
  }

  lemma AppendDistinct<T>(s: seq<T>, x: T)
    requires Collections.Distinct(s) && x !in s
    ensures Collections.Distinct(s + [x])
  {
  }

  lemma StoreReleases(s: System, id: GameId, result: (Game, seq<Job>))
    requires ReleasesOk(s) && id in s.games && s.games[id].matchId == id
    requires result.0.matchId == id && result.0.players == s.games[id].players
    requires forall j :: j in result.1 ==> Mentions(j, id)
    requires ReleaseDiscipline(s.games[id], result, s.treatBotAsUser)
    ensures ReleasesOk(Store(s, result))
  {
    OneRelease(s.games[id], result, s.treatBotAsUser);
    var more := ReleasesIn(result.1);
    if more == [] {
      assert s.releases + more == s.releases;
    } else {
      AppendDistinct(s.releases, id);
    }
    var s' := Store(s, result);
    hide ReleaseDiscipline, ReleasesIn, Practice, Mentions, Collections.Distinct;
    forall x | x in s'.releases
      ensures x in s'.games && s'.games[x].status == SETTLED && !Practice(s'.games[x].players, s.treatBotAsUser)
    {
      assert x in s.releases || x in more;
    }
  }

  lemma SameBooks(s: System, s': System)
    requires BooksOk(s) && s'.books == s.books && s'.deposited == s.deposited && s'.withdrawn == s.withdrawn
    requires forall x :: x in s.games ==> x in s'.games && s'.games[x].config == s.games[x].config
    ensures BooksOk(s')
  {
    assert NoNegativeBet(s') ==> NoNegativeBet(s);
  }

  lemma StoreBooks(s: System, id: GameId, result: (Game, seq<Job>))
    requires BooksOk(s) && id in s.games && result.0.matchId == id && result.0.config == s.games[id].config
    ensures BooksOk(Store(s, result))
  {
    hide BooksOk, ReleasesIn;
    SameBooks(s, Store(s, result));
  }

  lemma StoreKeeps(s: System, id: GameId, result: (Game, seq<Job>))
    requires Inv(s) && id in s.games
    requires HandlerOk(s.games[id], result, ViewOf(s, id), s.treatBotAsUser)
    requires ReleaseDiscipline(s.games[id], result, s.treatBotAsUser)
    ensures Inv(Store(s, result))
  {
    IdOf(s, id);
    hide StoreOk, ReleasesOk, BooksOk, GameOk, HistoryOk, ReleaseDiscipline, Store;
    StoreStep(s, id, result);
    StoreReleases(s, id, result);
    StoreBooks(s, id, result);
  }

  lemma IdOf(s: System, id: GameId)
    requires StoreOk(s) && id in s.games
    ensures s.games[id].matchId == id
  {
  }

  lemma HandlersDisciplined(g: Game, user: UserId, total: int, treatBotAsUser: bool)
    ensures ReleaseDiscipline(g, HandlePlayerConnected(g, user, treatBotAsUser), treatBotAsUser)
    ensures ReleaseDiscipline(g, Dice.HandleRoll(g, user, total, treatBotAsUser), treatBotAsUser)
    ensures ReleaseDiscipline(g, Dice.HandleBotMove(g, user, total, treatBotAsUser), treatBotAsUser)
    ensures g.status == PLAYING ==> ReleaseDiscipline(g, HandleRoundEnd(g, user, treatBotAsUser), treatBotAsUser)
  {
  }

  // ---------------------------------------------------------------------------------------------
  // Jobs
  // ---------------------------------------------------------------------------------------------

  lemma FrameIn(s: System, s': System, x: GameId)
    requires StoreOk(s) && x in s.games && SameView(x, ViewOf(s, x), ViewOf(s', x))
    ensures GameOk(s.games[x], ViewOf(s', x), s.treatBotAsUser)
  {
    Frame(s.games[x], ViewOf(s, x), ViewOf(s', x), s.treatBotAsUser);
  }

  /** What remains to be shown of the matches when a step leaves the stored matches alone. */
  lemma StoreKept(s: System, s': System)
    requires StoreOk(s) && ReleasesOk(s)
    requires s'.games == s.games && s'.treatBotAsUser == s.treatBotAsUser && s'.releases == s.releases
    requires forall x :: x in s.games ==> GameOk(s.games[x], ViewOf(s', x), s.treatBotAsUser)
    requires Linked(s')
    ensures StoreOk(s') && ReleasesOk(s')
  {
  }

  /** What remains to be shown of the books once the new ones are known to be sound. */
  lemma BooksKept(s: System, s': System)
    requires BooksOk(s) && s'.games == s.games
    requires Sound(s'.books) && s'.books.balances.Keys == s.books.balances.Keys
    requires Money(s'.books) - Money(s.books) == (s'.deposited - s.deposited) - (s'.withdrawn - s.withdrawn)
    requires Solvent(s.books) && NoNegativeBet(s) ==> Solvent(s'.books)
    requires WagersAreBets(s')
    ensures BooksOk(s')
  {
    assert |s'.books.balances.Keys| == |s.books.balances.Keys|;
  }

  lemma DepositBooks(s: System, job: Job)
    requires BooksOk(s) && job.DepositJob?
    ensures BooksOk(RunOne(s, job))
  {
    PlainRows(s, job);
    DepositMoves(s.books, job.userId, job.amount, job.reference);
    hide Sound, Money, Solvent, WagersAreBets, NoNegativeBet, Deposit;
    BooksKept(s, RunOne(s, job));
  }

  lemma WithdrawBooks(s: System, job: Job)
    requires BooksOk(s) && job.WithdrawJob?
    ensures BooksOk(RunOne(s, job))
  {
    PlainRows(s, job);
    WithdrawMoves(s.books, job.userId, job.amount, job.reference);
    hide Sound, Money, Solvent, WagersAreBets, NoNegativeBet, Withdraw;
    BooksKept(s, RunOne(s, job));
  }

  lemma LockBooks(s: System, job: Job)
    requires BooksOk(s) && job.LockJob?
    requires job.gameId in s.games && job.amount == s.games[job.gameId].config.betAmount
    ensures BooksOk(RunOne(s, job))
  {
    LockRows(s, job);
    LockMoves(s.books, job.userId, job.amount, job.gameId);
    hide Sound, Money, Solvent, WagersAreBets, NoNegativeBet, LockFunds;
    BooksKept(s, RunOne(s, job));
  }

  /** A release conserves money because it carries what the escrow of its game holds. */
  lemma ReleaseBooks(s: System, job: Job)
    requires BooksOk(s) && job.ReleaseJob?
    requires job.amount == HeldOf(s.books.holds, job.gameId)
    requires NoNegativeBet(s) ==> job.amount >= 0
    ensures BooksOk(RunOne(s, job))
  {
    PlainRows(s, job);
    if job.winnerUserId in s.books.balances {
      ReleaseConservesIff(s.books, job.winnerUserId, job.amount, job.gameId);
      hide Sound, Money, Solvent, WagersAreBets, NoNegativeBet, ReleaseFunds;
      BooksKept(s, RunOne(s, job));
    } else {
      hide Sound, Money, Solvent, WagersAreBets, NoNegativeBet;
      BooksKept(s, RunOne(s, job));
    }
  }

  lemma PlainRows(s: System, job: Job)
    requires WagersAreBets(s) && (job.DepositJob? || job.WithdrawJob? || job.ReleaseJob?)
    ensures WagersAreBets(RunOne(s, job))
  {
  }

  lemma LockRows(s: System, job: Job)
    requires WagersAreBets(s) && job.LockJob?
    requires job.gameId in s.games && job.amount == s.games[job.gameId].config.betAmount
    ensures WagersAreBets(RunOne(s, job))
  {
  }

  lemma LockHolds(s: System, job: Job)
    requires job.LockJob? && !job.shouldSkipWallet && LockFunds(s.books, job.userId, job.amount, job.gameId).1 == Done
    ensures var holds := RunOne(s, job).books.holds;
            && (forall g, u :: HeldBy(holds, g, u) ==
                  HeldBy(s.books.holds, g, u) + if g == job.gameId && u == job.userId then job.amount else 0)
            && (forall g :: g != job.gameId ==> HeldOf(holds, g) == HeldOf(s.books.holds, g))
            && (forall g :: Holders(holds, g) ==
                  Holders(s.books.holds, g) + if g == job.gameId then {job.userId} else {})
  {
    var h := Hold(job.userId, job.amount, job.gameId, HELD);
    var holds := RunOne(s, job).books.holds;
    assert holds == s.books.holds + [h];
    HoldsGrow(s.books.holds, h);
    forall g
      ensures Holders(holds, g) == Holders(s.books.holds, g) + if g == job.gameId then {job.userId} else {}
    {
      HoldersGrow(s.books.holds, h, g);
    }
  }

  lemma HoldersGrow(holds: seq<Hold>, h: Hold, game: GameId)
    ensures Holders(holds + [h], game) == Holders(holds, game) + if h.gameId == game then {h.wallet} else {}
  {
    var more := holds + [h];
    assert more[|holds|] == h;
    forall u | u in Holders(holds, game)
      ensures u in Holders(more, game)
    {
      var i :| 0 <= i < |holds| && holds[i].gameId == game && holds[i].wallet == u;
      assert more[i] == holds[i];
    }
  }

  lemma LockMeansBetting(g: Game, v: View, job: Job, treatBotAsUser: bool)
    requires GameOk(g, v, treatBotAsUser) && job in v.jobs && job.LockJob? && job.gameId == g.matchId
    ensures !Practice(g.players, treatBotAsUser) && g.status == BETTING && BettingOk(g, v)
    ensures job == LockOf(g, job.userId) && job.userId in PlayerSet(g)
  {
    assert Mentions(job, g.matchId);
    hide HeldOf, HeldBy, Holders, SeatOk, CanStart, Practice, Collections.Distinct, PlayerSet;
  }

  lemma LockCollects(g: Game, v: View, w: View, job: Job)
    requires CollectingOk(g, v) && job in v.jobs && job.LockJob?
    requires job == LockOf(g, job.userId) && job.userId in PlayerSet(g)
    requires w.jobs == v.jobs - multiset{job} && w.reverted == v.reverted
    requires
      || (w.events == v.events && w.holds == v.holds)
      || (&& w.events == v.events + multiset{FundsLocked(g.matchId, job.userId)}
          && (forall u :: HeldBy(w.holds, g.matchId, u) ==
                HeldBy(v.holds, g.matchId, u) + if u == job.userId then job.amount else 0)
          && Holders(w.holds, g.matchId) == Holders(v.holds, g.matchId) + {job.userId})
    ensures CollectingOk(g, w)
  {
    assert forall j :: j in w.jobs ==> j in v.jobs;
    assert forall e :: e in w.events ==> e in v.events || e == FundsLocked(g.matchId, job.userId);
    LockCanStart(g, v, w, job);
    hide SeatOk, HeldBy, Holders, Mentions, CanStart, PlayerSet, LockOf, Collections.Distinct;
    if Collections.Distinct(Ids(g)) && !v.reverted {
      forall u | u in PlayerSet(g)
        ensures SeatOk(g, w, u)
      {
        SeatMoves(g, v, w, job, u);
      }
    }
  }

  /** A lock job of a match moves one seat's bet into escrow and sends its event, or changes nothing else. */
  lemma LockSeats(g: Game, v: View, w: View, job: Job, treatBotAsUser: bool)
    requires GameOk(g, v, treatBotAsUser) && job in v.jobs && job.LockJob? && job.gameId == g.matchId
    requires w.jobs == v.jobs - multiset{job} && w.reverted == v.reverted
    requires
      || (w.events == v.events && w.holds == v.holds)
      || (&& w.events == v.events + multiset{FundsLocked(g.matchId, job.userId)}
          && (forall u :: HeldBy(w.holds, g.matchId, u) ==
                HeldBy(v.holds, g.matchId, u) + if u == job.userId then job.amount else 0)
          && Holders(w.holds, g.matchId) == Holders(v.holds, g.matchId) + {job.userId})
    ensures GameOk(g, w, treatBotAsUser)
  {
    LockMeansBetting(g, v, job, treatBotAsUser);
    hide CollectingOk, HeldBy, Holders, PlayingOk, SettledOk, Untouched, Practice, PlayerSet, LockOf;
    LockCollects(g, v, w, job);
  }

  lemma LockCanStart(g: Game, v: View, w: View, job: Job)
    requires job in v.jobs && job.LockJob? && job == LockOf(g, job.userId) && w.jobs == v.jobs - multiset{job}
    requires w.events == v.events || w.events == v.events + multiset{FundsLocked(g.matchId, job.userId)}
    ensures CanStart(g, w.jobs, w.events) ==> CanStart(g, v.jobs, v.events)
  {
    hide Collections.Distinct;
    if CanStart(g, w.jobs, w.events) {
      forall u | u in UserIds(g.players)
        ensures Coming(g, v.jobs, v.events, u)
      {
        assert Coming(g, w.jobs, w.events, u);
      }
    }
  }

  lemma OneMoreBet(bet: int, r: int)
    ensures bet * (r - 1) + bet == bet * r
  {
  }

  lemma SeatMoves(g: Game, v: View, w: View, job: Job, u: UserId)
    requires SeatOk(g, v, u) && job in v.jobs && job.LockJob? && job == LockOf(g, job.userId)
    requires w.jobs == v.jobs - multiset{job}
    requires
      || (w.events == v.events && w.holds == v.holds)
      || (&& w.events == v.events + multiset{FundsLocked(g.matchId, job.userId)}
          && (forall u :: HeldBy(w.holds, g.matchId, u) ==
                HeldBy(v.holds, g.matchId, u) + if u == job.userId then job.amount else 0))
    ensures SeatOk(g, w, u)
  {
    OneMoreBet(g.config.betAmount, g.round);
    assert FundsLocked(g.matchId, u) == FundsLocked(g.matchId, job.userId) <==> u == job.userId;
  }

  lemma LockSpares(s: System, job: Job, x: GameId)
    requires job in s.jobs && job.LockJob? && !job.shouldSkipWallet && x != job.gameId
    ensures SameView(x, ViewOf(s, x), ViewOf(RunOne(s, job), x))
  {
    if LockFunds(s.books, job.userId, job.amount, job.gameId).1 == Done {
      LockHolds(s, job);
    }
  }

  lemma LockOwn(s: System, job: Job)
    requires StoreOk(s) && job in s.jobs && job.LockJob?
    ensures job.gameId in s.games && job == LockOf(s.games[job.gameId], job.userId)
    ensures GameOk(s.games[job.gameId], ViewOf(RunOne(s, job), job.gameId), s.treatBotAsUser)
  {
    var id := job.gameId;
    assert Mentions(job, id);
    var g := s.games[id];
    assert GameOk(g, ViewOf(s, id), s.treatBotAsUser);
    assert job == LockOf(g, job.userId);
    if LockFunds(s.books, job.userId, job.amount, id).1 == Done {
      LockHolds(s, job);
    } else {
      assert RunOne(s, job).events == s.events;
    }
    LockSeats(g, ViewOf(s, id), ViewOf(RunOne(s, job), id), job, s.treatBotAsUser);
  }

  /** What a lock job may change, apart from balances and rows: one event and one hold more, or none. */
  lemma LockShape(s: System, job: Job)
    requires job in s.jobs && job.LockJob?
    ensures var s' := RunOne(s, job);
            && s'.games == s.games && s'.reverted == s.reverted
            && (forall j :: j in s'.jobs ==> j in s.jobs)
            && (forall e :: e in s'.events ==> e in s.events || e == FundsLocked(job.gameId, job.userId))
            && (s'.books.holds == s.books.holds ||
                s'.books.holds == s.books.holds + [Hold(job.userId, job.amount, job.gameId, HELD)])
  {
  }

  lemma LockLinked(s: System, job: Job)
    requires Linked(s) && job in s.jobs && job.LockJob? && job.gameId in s.games
    ensures Linked(RunOne(s, job))
  {
    var s' := RunOne(s, job);
    LockShape(s, job);
    hide RunOne;
  }

  lemma LockStep(s: System, job: Job)
    requires Inv(s) && job in s.jobs && job.LockJob?
    ensures Inv(RunOne(s, job))
  {
    LockOwn(s, job);
    LockLinked(s, job);
    hide StoreOk, ReleasesOk, BooksOk, GameOk, SameView, Linked;
    var s' := RunOne(s, job);
    LockBooks(s, job);
    forall x | x in s.games
      ensures GameOk(s.games[x], ViewOf(s', x), s.treatBotAsUser)
    {
      if x != job.gameId {
        LockSpares(s, job, x);
        FrameIn(s, s', x);
      }
    }
    StoreKept(s, s');
  }

  lemma RestatusHolders(holds: seq<Hold>, game: GameId, status: HoldStatus, other: GameId)
    ensures Holders(Restatus(holds, game, status), other) == Holders(holds, other)
  {
    var r := Restatus(holds, game, status);
    assert forall i :: 0 <= i < |holds| ==> r[i].gameId == holds[i].gameId && r[i].wallet == holds[i].wallet;
  }

  lemma ReleaseSpares(s: System, job: Job, x: GameId)
    requires job in s.jobs && job.ReleaseJob? && x != job.gameId
    ensures SameView(x, ViewOf(s, x), ViewOf(RunOne(s, job), x))
  {
    if job.winnerUserId in s.books.balances {
      RestatusSparesOthers(s.books.holds, job.gameId, RELEASED, x);
      RestatusHolders(s.books.holds, job.gameId, RELEASED, x);
    }
    assert RunOne(s, job).events == s.events;
  }

  /** The release job finds the HELD total it was queued with, and no other job of its match is left. */
  lemma ReleaseOwn(s: System, job: Job)
    requires StoreOk(s) && job in s.jobs && job.ReleaseJob?
    ensures job.gameId in s.games && job.amount == HeldOf(s.books.holds, job.gameId)
    ensures GameOk(s.games[job.gameId], ViewOf(RunOne(s, job), job.gameId), s.treatBotAsUser)
  {
    var s' := RunOne(s, job);
    var id := job.gameId;
    assert Mentions(job, id);
    assert GameOk(s.games[id], ViewOf(s, id), s.treatBotAsUser);
    assert SettledOk(s.games[id], ViewOf(s, id));
    forall j | j in s'.jobs
      ensures !Mentions(j, id)
    {
      assert j in s.jobs;
    }
    assert s'.events == s.events;
  }

  lemma ReleaseShape(s: System, job: Job)
    requires job in s.jobs && job.ReleaseJob?
    ensures var s' := RunOne(s, job);
            && s'.games == s.games && s'.reverted == s.reverted
            && (forall j :: j in s'.jobs ==> j in s.jobs)
            && s'.events == s.events
            && |s'.books.holds| == |s.books.holds|
            && (forall i :: 0 <= i < |s.books.holds| ==> s'.books.holds[i].gameId == s.books.holds[i].gameId)
  {
    assert s.events + multiset([]) == s.events;
  }

  lemma ReleaseLinked(s: System, job: Job)
    requires Linked(s) && job in s.jobs && job.ReleaseJob?
    ensures Linked(RunOne(s, job))
  {
    var s' := RunOne(s, job);
    ReleaseShape(s, job);
    hide RunOne;
  }

  lemma ReleaseStep(s: System, job: Job)
    requires Inv(s) && job in s.jobs && job.ReleaseJob?
    ensures Inv(RunOne(s, job))
  {
    if NoNegativeBet(s) {
      HeldNotNegative(s, s.books.holds, job.gameId);
    }
    ReleaseLinked(s, job);
    hide StoreOk, ReleasesOk, BooksOk, GameOk, SameView, NoNegativeBet, Linked;
    var s' := RunOne(s, job);
    ReleaseOwn(s, job);
    ReleaseBooks(s, job);
    forall x | x in s.games
      ensures GameOk(s.games[x], ViewOf(s', x), s.treatBotAsUser)
    {
      if x != job.gameId {
        ReleaseSpares(s, job, x);
        FrameIn(s, s', x);
      }
    }
    StoreKept(s, s');
  }

  lemma {:induction false} HeldNotNegative(s: System, holds: seq<Hold>, id: GameId)
    requires Mirrored(s.books) && WagersAreBets(s) && NoNegativeBet(s)
    requires holds <= s.books.holds
    ensures HeldOf(holds, id) >= 0
  {
    if holds != [] {
      HeldNotNegative(s, holds[..|holds| - 1], id);
      var i := |holds| - 1;
      var stake := Placements(s.books.holds)[i];
      assert stake in Wagers(s.books.rows);
      MirrorFindsWager(s.books.rows, stake);
    }
  }

  lemma PlainSpares(s: System, job: Job, x: GameId)
    requires job in s.jobs && (job.DepositJob? || job.WithdrawJob?)
    ensures SameView(x, ViewOf(s, x), ViewOf(RunOne(s, job), x))
    ensures RunOne(s, job).events == s.events && RunOne(s, job).books.holds == s.books.holds
  {
    assert RunOne(s, job).events == s.events;
  }

  lemma PlainLinked(s: System, job: Job)
    requires Linked(s) && job in s.jobs && (job.DepositJob? || job.WithdrawJob?)
    ensures Linked(RunOne(s, job))
  {
    PlainSpares(s, job, "");
    assert forall j :: j in RunOne(s, job).jobs ==> j in s.jobs;
  }

  lemma PlainStore(s: System, job: Job)
    requires StoreOk(s) && ReleasesOk(s) && job in s.jobs && (job.DepositJob? || job.WithdrawJob?)
    ensures StoreOk(RunOne(s, job)) && ReleasesOk(RunOne(s, job))
  {
    var s' := RunOne(s, job);
    PlainLinked(s, job);
    hide StoreOk, ReleasesOk, GameOk, SameView, Linked;
    forall x | x in s.games
      ensures GameOk(s.games[x], ViewOf(s', x), s.treatBotAsUser)
    {
      PlainSpares(s, job, x);
      FrameIn(s, s', x);
    }
    StoreKept(s, s');
  }

  /** Deposits and withdrawals concern no match. */
  lemma PlainJobStep(s: System, job: Job)
    requires Inv(s) && job in s.jobs && (job.DepositJob? || job.WithdrawJob?)
    ensures Inv(RunOne(s, job))
  {
    hide StoreOk, ReleasesOk, BooksOk;
    PlainStore(s, job);
    if job.DepositJob? {
      DepositBooks(s, job);
    } else {
      WithdrawBooks(s, job);
    }
  }
}
