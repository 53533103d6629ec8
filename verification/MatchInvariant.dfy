/** The invariant of the match and wallet system, and its consequences for one match. */
module MatchInvariant {
  import opened Collections
  import opened Ledger
  import opened Games
  import opened WalletOperations
  import opened LedgerLaws
  import opened MatchProtocol

  function Ids(g: Game): seq<UserId> {
    UserIds(g.players)
  }

  ghost function Holders(holds: seq<Hold>, game: GameId): set<UserId> {
    set i | 0 <= i < |holds| && holds[i].gameId == game :: holds[i].wallet
  }

  ghost function PlayerSet(g: Game): set<UserId> {
    Elements(Ids(g))
  }

  /** The part of the system that concerns one match. */
  datatype View = View(jobs: multiset<Job>, events: multiset<Event>, holds: seq<Hold>, reverted: bool)

  ghost function ViewOf(s: System, id: GameId): View {
    View(s.jobs, s.events, s.books.holds, id in s.reverted)
  }

  /**
   * One distinct player's bet of the current round is in exactly one place: still queued, on its way
   * back as an event, or counted as locked; and the escrow holds it from the moment the job has run.
   */
  ghost predicate SeatOk(g: Game, v: View, user: UserId) {
    var bet := g.config.betAmount;
    var held := HeldBy(v.holds, g.matchId, user);
    var queued := v.jobs[LockOf(g, user)];
    var coming := v.events[FundsLocked(g.matchId, user)];
    && queued + coming + (if user in g.lockedPlayers then 1 else 0) <= 1
    && (coming > 0 || user in g.lockedPlayers ==> held == bet * g.round)
    && (queued > 0 ==> held == bet * (g.round - 1))
  }

  /** The bets of a match are given back only if it cannot start, whatever is still pending for it. */
  ghost predicate CollectingOk(g: Game, v: View) {
    && Collections.Distinct(g.lockedPlayers)
    && (forall u :: u in g.lockedPlayers ==> u in PlayerSet(g))
    && g.pot == g.config.betAmount * (|g.players| * (g.round - 1) + |g.lockedPlayers|)
    && (forall j :: j in v.jobs && Mentions(j, g.matchId) ==>
          j.LockJob? && j == LockOf(g, j.userId) && j.userId in PlayerSet(g))
    && (forall e :: e in v.events && e.matchId == g.matchId ==> e.userId in PlayerSet(g))
    && Holders(v.holds, g.matchId) <= PlayerSet(g)
    && (!Collections.Distinct(Ids(g)) ==> g.round == 1)
    && (v.reverted ==> !CanStart(g, v.jobs, v.events))
    && (Collections.Distinct(Ids(g)) && !v.reverted ==> forall u :: u in PlayerSet(g) ==> SeatOk(g, v, u))
  }

  ghost predicate BettingOk(g: Game, v: View) {
    CollectingOk(g, v) && (g.players != [] ==> |g.lockedPlayers| < |g.players|)
  }

  ghost predicate PlayingOk(g: Game, v: View) {
    && Collections.Distinct(Ids(g))
    && NoJobs(v.jobs, g.matchId) && NoEvents(v.events, g.matchId) && !v.reverted
    && g.pot == g.config.betAmount * |g.players| * g.round
    && Holders(v.holds, g.matchId) <= PlayerSet(g)
    && (forall u :: u in PlayerSet(g) ==> HeldBy(v.holds, g.matchId, u) == g.config.betAmount * g.round)
  }

  /** After the end only one release can be pending, and it carries exactly the HELD total. */
  ghost predicate SettledOk(g: Game, v: View) {
    && Collections.Distinct(Ids(g))
    && NoEvents(v.events, g.matchId)
    && (forall j :: j in v.jobs && Mentions(j, g.matchId) ==>
          j.ReleaseJob? && j.amount == HeldOf(v.holds, g.matchId) && v.jobs[j] == 1)
    && (forall j, k :: j in v.jobs && k in v.jobs && Mentions(j, g.matchId) && Mentions(k, g.matchId) ==> j == k)
  }

  ghost predicate Untouched(g: Game, v: View) {
    NoJobs(v.jobs, g.matchId) && NoEvents(v.events, g.matchId) && Holders(v.holds, g.matchId) == {}
  }

  ghost predicate GameOk(g: Game, v: View, treatBotAsUser: bool) {
    && 1 <= g.round <= g.maxRounds
    && if Practice(g.players, treatBotAsUser) then
         g.pot == 0 && g.status != BETTING && Untouched(g, v)
       else
         match g.status
         case LOADING => g.pot == 0 && g.round == 1 && !v.reverted && Untouched(g, v)
         case BETTING => BettingOk(g, v)
         case PLAYING => PlayingOk(g, v)
         case SETTLED => SettledOk(g, v)
  }

  /** Every bet recorded so far, over all rounds of the history. */
  ghost function BetSum(bets: seq<Bet>): int {
    if bets == [] then 0 else BetSum(bets[..|bets| - 1]) + bets[|bets| - 1].amount
  }

  ghost function HistoryTotal(history: seq<HistoryEntry>): int {
    if history == [] then 0 else
      HistoryTotal(history[..|history| - 1]) + BetSum(history[|history| - 1].bets)
  }

  /** One entry for each round, in order. */
  ghost predicate Numbered(history: seq<HistoryEntry>) {
    forall i :: 0 <= i < |history| ==> history[i].round == i + 1
  }

  /** Each finished round is recorded with one bet of every player, in order. */
  ghost predicate BetsRecorded(g: Game) {
    forall i :: 0 <= i < |g.roundHistory| ==>
      && |g.roundHistory[i].bets| == |g.players|
      && forall k :: 0 <= k < |g.players| ==>
           g.roundHistory[i].bets[k] == Bet(g.players[k].userId, g.config.betAmount)
  }

  /** The rounds are as many as configured, one if nothing is, and a winner is recorded only at the end. */
  ghost predicate TermsOk(g: Game) {
    && g.maxRounds == (if g.config.maxRounds == 0 then 1 else g.config.maxRounds)
    && BetsRecorded(g)
    && (g.winner != None ==> g.status == SETTLED)
  }

  ghost predicate HistoryOk(g: Game) {
    && TermsOk(g)
    && Numbered(g.roundHistory)
    && HistoryTotal(g.roundHistory) == g.config.betAmount * |g.players| * |g.roundHistory|
    && if g.status == SETTLED then |g.roundHistory| <= g.round else |g.roundHistory| == g.round - 1
  }

  /** Matches are stored under their ids, and everything that names a match names a stored one. */
  ghost predicate Linked(s: System) {
    && (forall id :: id in s.games ==> s.games[id].matchId == id)
    && (forall j, id :: j in s.jobs && Mentions(j, id) ==> id in s.games)
    && (forall e :: e in s.events ==> e.matchId in s.games)
    && (forall i :: 0 <= i < |s.books.holds| ==> s.books.holds[i].gameId in s.games)
    && (forall j :: j in s.jobs ==> !j.RevertJob?)
    && s.reverted <= s.games.Keys
  }

  ghost predicate StoreOk(s: System) {
    && Linked(s)
    && (forall id :: id in s.games ==> GameOk(s.games[id], ViewOf(s, id), s.treatBotAsUser))
    && (forall id :: id in s.games ==> HistoryOk(s.games[id]))
  }

  /** At most one release was ever queued for a match, and only for one that was played for money and is over. */
  ghost predicate ReleasesOk(s: System) {
    && Collections.Distinct(s.releases)
    && (forall id :: id in s.releases ==>
          id in s.games && s.games[id].status == SETTLED && !Practice(s.games[id].players, s.treatBotAsUser))
  }

  ghost predicate WagersAreBets(s: System) {
    forall i :: 0 <= i < |s.books.rows| && s.books.rows[i].kind == WAGER ==>
      && s.books.rows[i].reference in s.games
      && s.books.rows[i].amount == s.games[s.books.rows[i].reference].config.betAmount
  }

  ghost predicate NoNegativeBet(s: System) {
    forall id :: id in s.games ==> s.games[id].config.betAmount >= 0
  }

  ghost predicate Conserved(s: System) {
    Money(s.books) == STARTING_BALANCE * |s.books.balances| + s.deposited - s.withdrawn
  }

  ghost predicate BooksOk(s: System) {
    && Sound(s.books)
    && Conserved(s)
    && WagersAreBets(s)
    && (NoNegativeBet(s) ==> Solvent(s.books))
  }

  ghost predicate Inv(s: System) {
    StoreOk(s) && ReleasesOk(s) && BooksOk(s)
  }

  // ---------------------------------------------------------------------------------------------
  // Steps elsewhere do not disturb a match
  // ---------------------------------------------------------------------------------------------

  ghost predicate SameView(id: GameId, v: View, w: View) {
    && (forall j :: Mentions(j, id) ==> v.jobs[j] == w.jobs[j])
    && (forall e: Event :: e.matchId == id ==> v.events[e] == w.events[e])
    && (forall u :: HeldBy(v.holds, id, u) == HeldBy(w.holds, id, u))
    && HeldOf(v.holds, id) == HeldOf(w.holds, id)
    && Holders(v.holds, id) == Holders(w.holds, id)
    && v.reverted == w.reverted
  }

  lemma FewerCanStart(g: Game, jobs: multiset<Job>, events: multiset<Event>, jobs': multiset<Job>,
                      events': multiset<Event>)
    requires forall j :: Mentions(j, g.matchId) && j in jobs' ==> j in jobs
    requires forall e :: e in events' && e.matchId == g.matchId ==> e in events
    ensures CanStart(g, jobs', events') ==> CanStart(g, jobs, events)
  {
    hide Collections.Distinct;
    if CanStart(g, jobs', events') {
      forall u | u in UserIds(g.players)
        ensures Coming(g, jobs, events, u)
      {
        assert Coming(g, jobs', events', u) && Mentions(LockOf(g, u), g.matchId);
      }
    }
  }

  lemma Frame(g: Game, v: View, w: View, treatBotAsUser: bool)
    requires GameOk(g, v, treatBotAsUser) && SameView(g.matchId, v, w)
    ensures GameOk(g, w, treatBotAsUser)
  {
    hide HeldBy, HeldOf, Holders;
    assert NoJobs(v.jobs, g.matchId) ==> NoJobs(w.jobs, g.matchId) by {
      assert forall j :: j in w.jobs && Mentions(j, g.matchId) ==> j in v.jobs;
    }
    assert NoEvents(v.events, g.matchId) ==> NoEvents(w.events, g.matchId) by {
      assert forall e :: e in w.events && e.matchId == g.matchId ==> e in v.events;
    }
    if !Practice(g.players, treatBotAsUser) {
      match g.status {
        case BETTING =>
          FewerCanStart(g, v.jobs, v.events, w.jobs, w.events);
          hide CanStart;
          forall j | j in w.jobs && Mentions(j, g.matchId)
            ensures j.LockJob? && j == LockOf(g, j.userId) && j.userId in PlayerSet(g)
          {
            assert j in v.jobs;
          }
          forall e | e in w.events && e.matchId == g.matchId
            ensures e.userId in PlayerSet(g)
          {
            assert e in v.events;
          }
          if Collections.Distinct(Ids(g)) && !v.reverted {
            forall u | u in PlayerSet(g)
              ensures SeatOk(g, w, u)
            {
              assert SeatOk(g, v, u);
              assert Mentions(LockOf(g, u), g.matchId);
            }
          }
        case SETTLED =>
          forall j | j in w.jobs && Mentions(j, g.matchId)
            ensures j in v.jobs && j.ReleaseJob? && j.amount == HeldOf(w.holds, g.matchId) && w.jobs[j] == 1
          {
            assert j in v.jobs;
          }
        case _ =>
      }
    }
  }

  // ---------------------------------------------------------------------------------------------
  // What the holds of a match add up to
  // ---------------------------------------------------------------------------------------------

  ghost function SumBy(holds: seq<Hold>, game: GameId, users: seq<UserId>): int {
    if users == [] then 0 else
      SumBy(holds, game, users[..|users| - 1]) + HeldBy(holds, game, users[|users| - 1])
  }

  lemma {:induction false} SumByGrows(front: seq<Hold>, h: Hold, game: GameId, users: seq<UserId>)
    requires Collections.Distinct(users)
    ensures SumBy(front + [h], game, users) ==
      SumBy(front, game, users) + if h.gameId == game && h.status == HELD && h.wallet in users then h.amount else 0
  {
    assert (front + [h])[..|front|] == front;
    if users != [] {
      var init, last := users[..|users| - 1], users[|users| - 1];
      assert users == init + [last];
      SumByGrows(front, h, game, init);
      assert last !in init;
    }
  }

  lemma {:induction false} EmptySumBy(game: GameId, users: seq<UserId>)
    ensures SumBy([], game, users) == 0
  {
    if users != [] {
      EmptySumBy(game, users[..|users| - 1]);
    }
  }

  /** If only these distinct users hold stakes in a game, its HELD total is the sum over them. */
  lemma {:induction false} HeldOfIsSumBy(holds: seq<Hold>, game: GameId, users: seq<UserId>)
    requires Collections.Distinct(users)
    requires forall i :: 0 <= i < |holds| && holds[i].gameId == game ==> holds[i].wallet in users
    ensures HeldOf(holds, game) == SumBy(holds, game, users)
  {
    if holds == [] {
      EmptySumBy(game, users);
    } else {
      var front, h := holds[..|holds| - 1], holds[|holds| - 1];
      assert holds == front + [h];
      HeldOfIsSumBy(front, game, users);
      SumByGrows(front, h, game, users);
    }
  }

  lemma {:induction false} EqualSumBy(holds: seq<Hold>, game: GameId, users: seq<UserId>, each: int)
    requires forall i :: 0 <= i < |users| ==> HeldBy(holds, game, users[i]) == each
    ensures SumBy(holds, game, users) == each * |users|
  {
    if users != [] {
      EqualSumBy(holds, game, users[..|users| - 1], each);
    }
  }

  lemma EqualShares(holds: seq<Hold>, game: GameId, users: seq<UserId>, each: int)
    requires Collections.Distinct(users)
    requires Holders(holds, game) <= Elements(users)
    requires forall u :: u in Elements(users) ==> HeldBy(holds, game, u) == each
    ensures HeldOf(holds, game) == each * |users|
  {
    forall i | 0 <= i < |holds| && holds[i].gameId == game
      ensures holds[i].wallet in users
    {
      assert holds[i].wallet in Holders(holds, game);
    }
    HeldOfIsSumBy(holds, game, users);
    forall i | 0 <= i < |users|
      ensures HeldBy(holds, game, users[i]) == each
    {
      assert users[i] in Elements(users);
    }
    EqualSumBy(holds, game, users, each);
  }

  lemma Commute(a: int, b: int, c: int)
    ensures a * b * c == a * c * b
  {
  }

  /** In play, the pot is the HELD total of the match. */
  lemma PotIsHeld(g: Game, v: View)
    requires PlayingOk(g, v)
    ensures HeldOf(v.holds, g.matchId) == g.pot
  {
    EqualShares(v.holds, g.matchId, Ids(g), g.config.betAmount * g.round);
    Commute(g.config.betAmount, g.round, |g.players|);
  }

  lemma {:induction false} NoHoldsNoMoney(holds: seq<Hold>, game: GameId)
    requires forall i :: 0 <= i < |holds| ==> holds[i].gameId != game
    ensures HeldOf(holds, game) == 0
    ensures forall u :: HeldBy(holds, game, u) == 0
  {
    if holds != [] {
      NoHoldsNoMoney(holds[..|holds| - 1], game);
    }
  }

  lemma NoHoldersNoMoney(holds: seq<Hold>, game: GameId)
    requires Holders(holds, game) == {}
    ensures HeldOf(holds, game) == 0
    ensures forall u :: HeldBy(holds, game, u) == 0
  {
    forall i | 0 <= i < |holds|
      ensures holds[i].gameId != game
    {
      var u := holds[i].wallet;
      assert u !in Holders(holds, game);
    }
    NoHoldsNoMoney(holds, game);
  }
}
