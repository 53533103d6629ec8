/** The remaining steps, and what holds after every run. */
module MatchRuns {
  import opened Collections
  import opened Ledger
  import opened Games
  import opened WalletOperations
  import opened LedgerLaws
  import opened WalletMaintenance
  import opened MatchProtocol
  import opened MatchInvariant
  import opened MatchHandlers
  import opened MatchSteps
  import Dice

  // ---------------------------------------------------------------------------------------------
  // Losing jobs and events
  // ---------------------------------------------------------------------------------------------

  lemma LessPending(g: Game, v: View, w: View, treatBotAsUser: bool)
    requires GameOk(g, v, treatBotAsUser)
    requires w.jobs <= v.jobs && w.events <= v.events && w.holds == v.holds && w.reverted == v.reverted
    ensures GameOk(g, w, treatBotAsUser)
  {
    assert forall j :: j in w.jobs ==> j in v.jobs;
    assert forall e :: e in w.events ==> e in v.events;
    FewerCanStart(g, v.jobs, v.events, w.jobs, w.events);
    hide CanStart;
    if g.status == BETTING && !Practice(g.players, treatBotAsUser) && Collections.Distinct(Ids(g)) && !v.reverted {
      forall u | u in PlayerSet(g)
        ensures SeatOk(g, w, u)
      {
        assert SeatOk(g, v, u);
      }
    }
  }

  lemma LoseLinked(s: System, s': System)
    requires Linked(s)
    requires s' == s.(jobs := s'.jobs, events := s'.events) && s'.jobs <= s.jobs && s'.events <= s.events
    ensures Linked(s')
  {
    assert forall j :: j in s'.jobs ==> j in s.jobs;
    assert forall e :: e in s'.events ==> e in s.events;
  }

  lemma LoseIn(s: System, s': System, x: GameId)
    requires StoreOk(s) && x in s.games
    requires s' == s.(jobs := s'.jobs, events := s'.events) && s'.jobs <= s.jobs && s'.events <= s.events
    ensures GameOk(s.games[x], ViewOf(s', x), s.treatBotAsUser)
  {
    LessPending(s.games[x], ViewOf(s, x), ViewOf(s', x), s.treatBotAsUser);
  }

  lemma LoseStep(s: System, s': System)
    requires Inv(s)
    requires s' == s.(jobs := s'.jobs, events := s'.events) && s'.jobs <= s.jobs && s'.events <= s.events
    ensures Inv(s')
  {
    LoseLinked(s, s');
    SameBooks(s, s');
    hide StoreOk, ReleasesOk, BooksOk, GameOk, Linked;
    forall x | x in s.games
      ensures GameOk(s.games[x], ViewOf(s', x), s.treatBotAsUser)
    {
      LoseIn(s, s', x);
    }
    StoreKept(s, s');
  }

  /** What remains to be shown when a step adds or replaces one match that is not over. */
  lemma StorePut(s: System, s': System, id: GameId, g: Game)
    requires StoreOk(s) && ReleasesOk(s)
    requires s'.games == s.games[id := g] && s'.treatBotAsUser == s.treatBotAsUser && s'.releases == s.releases
    requires Linked(s')
    requires GameOk(g, ViewOf(s', id), s.treatBotAsUser) && HistoryOk(g)
    requires id in s.games ==> s.games[id].status != SETTLED
    requires forall x :: x in s.games && x != id ==> GameOk(s.games[x], ViewOf(s', x), s.treatBotAsUser)
    ensures StoreOk(s') && ReleasesOk(s')
  {
    hide GameOk, HistoryOk, Linked;
    forall x | x in s'.games
      ensures GameOk(s'.games[x], ViewOf(s', x), s.treatBotAsUser)
    {
    }
  }

  // ---------------------------------------------------------------------------------------------
  // Delivering an event
  // ---------------------------------------------------------------------------------------------

  lemma DeliverSpares(s: System, e: Event, x: GameId)
    requires StoreOk(s) && e in s.events && e.matchId in s.games && x in s.games && x != e.matchId
    ensures GameOk(s.games[x], ViewOf(Delivered(s, e), x), s.treatBotAsUser)
  {
    assert SameView(x, ViewOf(s, x), ViewOf(Delivered(s, e), x));
    FrameIn(s, Delivered(s, e), x);
  }

  lemma DeliverOwn(s: System, e: Event)
    requires StoreOk(s) && e in s.events && e.matchId in s.games
    ensures var g := s.games[e.matchId]; var h := HandleFundsLocked(g, e.userId);
            && h.matchId == e.matchId && h.config == g.config && h.players == g.players && g.status != SETTLED
            && GameOk(h, ViewOf(Delivered(s, e), e.matchId), s.treatBotAsUser)
            && HistoryOk(h)
  {
    var g := s.games[e.matchId];
    var v := ViewOf(s, e.matchId);
    FundsLockedOk(g, v, e.userId, s.treatBotAsUser);
    var w := v.(events := v.events - multiset{e});
    assert e == FundsLocked(g.matchId, e.userId);
    assert Queue(w, []) == w == ViewOf(Delivered(s, e), e.matchId);
    EventMeansBetting(g, v, e, s.treatBotAsUser);
  }

  lemma DeliverLinked(s: System, e: Event)
    requires Linked(s) && e.matchId in s.games
    ensures Linked(Delivered(s, e))
  {
    assert forall f :: f in Delivered(s, e).events ==> f in s.events;
  }

  lemma DeliverStore(s: System, e: Event)
    requires StoreOk(s) && ReleasesOk(s) && e in s.events && e.matchId in s.games
    ensures StoreOk(Delivered(s, e)) && ReleasesOk(Delivered(s, e))
  {
    var s' := Delivered(s, e);
    DeliverOwn(s, e);
    hide StoreOk, GameOk, HistoryOk, ReleasesOk, HandleFundsLocked;
    LinkedOf(s);
    DeliverLinked(s, e);
    hide Linked;
    forall x | x in s.games && x != e.matchId
      ensures GameOk(s.games[x], ViewOf(s', x), s.treatBotAsUser)
    {
      DeliverSpares(s, e, x);
    }
    StorePut(s, s', e.matchId, HandleFundsLocked(s.games[e.matchId], e.userId));
  }

  lemma LinkedOf(s: System)
    requires StoreOk(s)
    ensures Linked(s)
  {
  }

  lemma DeliverStep(s: System, e: Event)
    requires Inv(s) && e in s.events && e.matchId in s.games
    ensures Inv(Delivered(s, e))
  {
    hide StoreOk, ReleasesOk, BooksOk, GameOk, HistoryOk, HandleFundsLocked;
    DeliverStore(s, e);
    DeliverOwn(s, e);
    SameBooks(s, Delivered(s, e));
  }

  // ---------------------------------------------------------------------------------------------
  // New wallets, requests and matches
  // ---------------------------------------------------------------------------------------------

  lemma NewWalletBooks(s: System, user: UserId)
    requires BooksOk(s)
    ensures BooksOk(Opened(s, user))
  {
    var s' := Opened(s, user);
    CreateWalletMoves(s.books, user);
    hide Sound, Money, Solvent;
    assert s'.books.balances.Keys == s.books.balances.Keys + {user};
    assert |s'.books.balances.Keys| == |s.books.balances.Keys| + if user in s.books.balances then 0 else 1;
  }

  lemma NewWalletStep(s: System, user: UserId)
    requires Inv(s)
    ensures Inv(Opened(s, user))
  {
    var s' := Opened(s, user);
    NewWalletBooks(s, user);
    assert Linked(s');
    hide BooksOk, GameOk, ReleasesOk, Linked;
    forall x | x in s.games
      ensures GameOk(s.games[x], ViewOf(s', x), s.treatBotAsUser)
    {
      assert ViewOf(s', x) == ViewOf(s, x);
    }
    StoreKept(s, s');
  }

  lemma RequestIn(s: System, job: Job, x: GameId)
    requires StoreOk(s) && x in s.games && (job.DepositJob? || job.WithdrawJob?)
    ensures GameOk(s.games[x], ViewOf(s.(jobs := s.jobs + multiset{job}), x), s.treatBotAsUser)
  {
    var s' := s.(jobs := s.jobs + multiset{job});
    assert SameView(x, ViewOf(s, x), ViewOf(s', x));
    FrameIn(s, s', x);
  }

  lemma RequestStep(s: System, job: Job)
    requires Inv(s) && (job.DepositJob? || job.WithdrawJob?)
    ensures Inv(s.(jobs := s.jobs + multiset{job}))
  {
    var s' := s.(jobs := s.jobs + multiset{job});
    assert Linked(s');
    SameBooks(s, s');
    hide BooksOk, GameOk, ReleasesOk, Linked, StoreOk;
    forall x | x in s.games
      ensures GameOk(s.games[x], ViewOf(s', x), s.treatBotAsUser)
    {
      RequestIn(s, job, x);
    }
    StoreKept(s, s');
  }

  lemma NewGameOk(s: System, id: GameId, players: seq<Player>, config: Config, turn: UserId)
    requires Linked(s) && id !in s.games
    ensures var g := CreateGame(id, players, config, turn);
            GameOk(g, ViewOf(s, id), s.treatBotAsUser) && HistoryOk(g)
  {
    var g := CreateGame(id, players, config, turn);
    assert NoJobs(s.jobs, id);
    assert Untouched(g, ViewOf(s, id));
  }

  lemma NewGameLinked(s: System, s': System, id: GameId)
    requires Linked(s) && s' == s.(games := s'.games) && s'.games.Keys == s.games.Keys + {id}
    requires forall x :: x in s'.games ==> s'.games[x].matchId == x
    ensures Linked(s')
  {
  }

  lemma NewGameStore(s: System, id: GameId, players: seq<Player>, config: Config, turn: UserId)
    requires StoreOk(s) && ReleasesOk(s) && id !in s.games
    ensures var s' := s.(games := s.games[id := CreateGame(id, players, config, turn)]);
            StoreOk(s') && ReleasesOk(s')
  {
    var s' := s.(games := s.games[id := CreateGame(id, players, config, turn)]);
    LinkedOf(s);
    NewGameOk(s, id, players, config, turn);
    NewGameLinked(s, s', id);
    hide GameOk, HistoryOk, Linked, ReleasesOk, CreateGame;
    forall x | x in s.games && x != id
      ensures GameOk(s.games[x], ViewOf(s', x), s.treatBotAsUser)
    {
      assert ViewOf(s', x) == ViewOf(s, x);
    }
    hide StoreOk;
    StorePut(s, s', id, CreateGame(id, players, config, turn));
  }

  lemma NewGameStep(s: System, id: GameId, players: seq<Player>, config: Config, turn: UserId)
    requires Inv(s) && id !in s.games
    ensures Inv(s.(games := s.games[id := CreateGame(id, players, config, turn)]))
  {
    hide StoreOk, ReleasesOk, BooksOk, GameOk, HistoryOk, CreateGame;
    NewGameStore(s, id, players, config, turn);
    SameBooks(s, s.(games := s.games[id := CreateGame(id, players, config, turn)]));
  }
}
