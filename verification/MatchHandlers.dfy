/** Each handler, seen from the one match it handles, keeps the match invariant. */
module MatchHandlers {
  import opened Collections
  import opened Ledger
  import opened Games
  import opened WalletOperations
  import opened LedgerLaws
  import opened MatchProtocol
  import opened MatchInvariant
  import Dice

  ghost function Queue(v: View, jobs: seq<Job>): View {
    v.(jobs := v.jobs + multiset(jobs))
  }

  /** The handler's outcome is good for this match and touches nothing else. */
  ghost predicate HandlerOk(g: Game, result: (Game, seq<Job>), v: View, treatBotAsUser: bool) {
    && result.0.matchId == g.matchId
    && result.0.config == g.config && result.0.players == g.players
    && GameOk(result.0, Queue(v, result.1), treatBotAsUser)
    && HistoryOk(result.0)
    && (forall j :: j in result.1 ==> Mentions(j, g.matchId) && !j.RevertJob?)
  }

  lemma {:induction false} DistinctMultiplicity<T>(s: seq<T>)
    requires Collections.Distinct(s)
    ensures forall x :: multiset(s)[x] <= 1
  {
    if s != [] {
      var front, last := s[..|s| - 1], s[|s| - 1];
      assert s == front + [last];
      DistinctMultiplicity(front);
      assert last !in front;
    }
  }

  lemma LockJobsShape(g: Game, treatBotAsUser: bool)
    requires !Practice(g.players, treatBotAsUser)
    ensures var jobs := LockJobs(g, treatBotAsUser);
            && (forall j :: j in jobs ==> j.LockJob? && j == LockOf(g, j.userId) && j.userId in PlayerSet(g))
            && (Collections.Distinct(Ids(g)) ==> forall j :: multiset(jobs)[j] <= 1)
  {
    var jobs := LockJobs(g, treatBotAsUser);
    forall j | j in jobs
      ensures j.LockJob? && j == LockOf(g, j.userId) && j.userId in PlayerSet(g)
    {
      var i :| 0 <= i < |jobs| && jobs[i] == j;
      assert Ids(g)[i] == j.userId;
    }
    if Collections.Distinct(Ids(g)) {
      forall i, k | 0 <= i < k < |jobs|
        ensures jobs[i] != jobs[k]
      {
        assert Ids(g)[i] != Ids(g)[k];
      }
      DistinctMultiplicity(jobs);
    }
  }

  /** What a match looks like just before a round's bets are collected. */
  ghost predicate BetweenRounds(g: Game, v: View) {
    && NoJobs(v.jobs, g.matchId) && NoEvents(v.events, g.matchId) && !v.reverted
    && g.pot == g.config.betAmount * |g.players| * (g.round - 1)
    && Holders(v.holds, g.matchId) <= PlayerSet(g)
    && (if Collections.Distinct(Ids(g))
        then forall u :: u in PlayerSet(g) ==> HeldBy(v.holds, g.matchId, u) == g.config.betAmount * (g.round - 1)
        else g.round == 1)
  }

  lemma PotAtStart(bet: int, n: int, r: int)
    ensures bet * n * (r - 1) == bet * (n * (r - 1) + 0)
  {
  }

  /** A seat of the new round: at most its lock is queued, and what was held so far is the earlier rounds' bets. */
  lemma SeatEntered(g: Game, v: View, jobs: seq<Job>, u: UserId)
    requires NoJobs(v.jobs, g.matchId) && NoEvents(v.events, g.matchId) && g.lockedPlayers == []
    requires forall j :: multiset(jobs)[j] <= 1
    requires HeldBy(v.holds, g.matchId, u) == g.config.betAmount * (g.round - 1)
    ensures SeatOk(g, Queue(v, jobs), u)
  {
    hide HeldBy;
    assert Mentions(LockOf(g, u), g.matchId) && LockOf(g, u) !in v.jobs;
    assert FundsLocked(g.matchId, u) !in v.events;
  }

  lemma CollectingEntered(g: Game, v: View, jobs: seq<Job>)
    requires BetweenRounds(g, v) && g.lockedPlayers == []
    requires forall j :: j in jobs ==> j.LockJob? && j == LockOf(g, j.userId) && j.userId in PlayerSet(g)
    requires Collections.Distinct(Ids(g)) ==> forall j :: multiset(jobs)[j] <= 1
    ensures CollectingOk(g, Queue(v, jobs))
  {
    PotAtStart(g.config.betAmount, |g.players|, g.round);
    hide Holders, HeldBy, PlayerSet, CanStart, SeatOk, Collections.Distinct, LockOf;
    if Collections.Distinct(Ids(g)) {
      forall u | u in PlayerSet(g)
        ensures SeatOk(g, Queue(v, jobs), u)
      {
        SeatEntered(g, v, jobs, u);
      }
    }
    assert forall j :: j in Queue(v, jobs).jobs ==> j in v.jobs || j in jobs;
    assert Collections.Distinct(g.lockedPlayers) by { NothingRepeats(g.lockedPlayers); }
  }

  lemma NothingRepeats<T>(s: seq<T>)
    requires s == []
    ensures Collections.Distinct(s)
  {
  }

  lemma SameLocks(g: Game, h: Game, treatBotAsUser: bool)
    requires h.players == g.players && h.config == g.config && h.matchId == g.matchId
    ensures LockJobs(h, treatBotAsUser) == LockJobs(g, treatBotAsUser)
  {
  }

  lemma StillBetween(g: Game, h: Game, v: View)
    requires BetweenRounds(g, v) && h == g.(status := h.status, lockedPlayers := h.lockedPlayers)
    ensures BetweenRounds(h, v)
  {
    assert Ids(h) == Ids(g);
    hide HeldBy, Holders, NoJobs, NoEvents, Collections.Distinct, Elements;
  }

  lemma CollectingStarts(g: Game, v: View, treatBotAsUser: bool)
    requires !Practice(g.players, treatBotAsUser) && BetweenRounds(g, v)
    ensures var (h, jobs) := TransitionToBetting(g, treatBotAsUser);
            && h == g.(status := BETTING, lockedPlayers := [])
            && CollectingOk(h, Queue(v, jobs))
            && forall j :: j in jobs ==> j.LockJob? && Mentions(j, g.matchId)
  {
    var h := g.(status := BETTING, lockedPlayers := []);
    hide CollectingOk, Practice, BetweenRounds, LockJobs, Collections.Distinct, PlayerSet;
    SameLocks(g, h, treatBotAsUser);
    LockJobsShape(h, treatBotAsUser);
    StillBetween(g, h, v);
    CollectingEntered(h, v, LockJobs(h, treatBotAsUser));
  }

  lemma BettingEntered(g: Game, v: View, treatBotAsUser: bool)
    requires 1 <= g.round <= g.maxRounds && g.status != SETTLED
    requires if Practice(g.players, treatBotAsUser) then g.pot == 0 && Untouched(g, v) else BetweenRounds(g, v)
    requires HistoryOk(g)
    ensures HandlerOk(g, TransitionToBetting(g, treatBotAsUser), v, treatBotAsUser)
  {
    if Practice(g.players, treatBotAsUser) {
      hide Practice, HistoryTotal;
      QueueNothing(v);
    } else {
      CollectingStarts(g, v, treatBotAsUser);
      hide CollectingOk, Practice, LockJobs, Queue, BetweenRounds, Mentions, HistoryTotal;
    }
  }

  lemma ConnectOk(g: Game, v: View, user: UserId, treatBotAsUser: bool)
    requires GameOk(g, v, treatBotAsUser) && HistoryOk(g)
    ensures HandlerOk(g, HandlePlayerConnected(g, user, treatBotAsUser), v, treatBotAsUser)
  {
    if g.status != LOADING {
      assert Queue(v, []) == v;
    } else {
      var connected := if user in g.connectedPlayers then g.connectedPlayers else g.connectedPlayers + [user];
      var g' := g.(connectedPlayers := connected);
      if |connected| >= Humans(g.players) {
        NoHoldersNoMoney(v.holds, g.matchId);
        BettingEntered(g', v, treatBotAsUser);
      } else {
        assert Queue(v, []) == v;
      }
    }
  }

  lemma PotGrows(bet: int, n: int, r: int, k: int)
    ensures bet * (n * (r - 1) + k) + bet == bet * (n * (r - 1) + (k + 1))
    ensures k == n ==> bet * (n * (r - 1) + k) == bet * n * r
  {
    assert n * (r - 1) + n == n * r;
    assert bet * (n * r) == bet * n * r;
  }

  lemma LockedAll(g: Game)
    requires Collections.Distinct(g.lockedPlayers)
    requires forall u :: u in g.lockedPlayers ==> u in PlayerSet(g)
    ensures |g.lockedPlayers| <= |g.players|
    ensures |g.lockedPlayers| == |g.players| ==> Collections.Distinct(Ids(g))
    ensures |g.lockedPlayers| == |g.players| ==> forall u :: u in PlayerSet(g) ==> u in g.lockedPlayers
  {
    DistinctCardinality(g.lockedPlayers);
    DistinctCardinality(Ids(g));
    SubsetCardinality(Elements(g.lockedPlayers), PlayerSet(g));
    assert forall u :: u in Elements(g.lockedPlayers) ==> u in g.lockedPlayers;
  }

  /** Delivering FUNDS_LOCKED counts a distinct player's bet once, and starts play with the last one. */
  lemma FundsLockedOk(g: Game, v: View, user: UserId, treatBotAsUser: bool)
    requires GameOk(g, v, treatBotAsUser) && HistoryOk(g)
    requires FundsLocked(g.matchId, user) in v.events
    ensures var w := v.(events := v.events - multiset{FundsLocked(g.matchId, user)});
            HandlerOk(g, (HandleFundsLocked(g, user), []), w, treatBotAsUser)
  {
    hide CollectingOk, PlayingOk, Practice, HistoryTotal, Numbered, Queue, HandleFundsLocked, Counted, Ids, PlayerSet,
      LockOf;
    var w := v.(events := v.events - multiset{FundsLocked(g.matchId, user)});
    EventMeansBetting(g, v, FundsLocked(g.matchId, user), treatBotAsUser);
    var mid := Counted(g, user);
    CountedFunds(g, user);
    BettingCounted(g, v, mid, w, user);
    QueueNothing(w);
    AtMostAll(mid, w);
    if |mid.lockedPlayers| == |mid.players| {
      PlayStarts(mid, w);
    }
  }

  lemma CountedFunds(g: Game, user: UserId)
    requires g.status == BETTING
    ensures var mid := Counted(g, user);
            && mid == g.(lockedPlayers := mid.lockedPlayers, pot := mid.pot)
            && HandleFundsLocked(g, user) ==
               if |mid.lockedPlayers| == |mid.players| then mid.(status := PLAYING) else mid
  {
  }

  function Counted(g: Game, user: UserId): Game {
    if user in g.lockedPlayers then g
    else g.(lockedPlayers := g.lockedPlayers + [user], pot := g.pot + g.config.betAmount)
  }

  lemma QueueNothing(v: View)
    ensures Queue(v, []) == v
  {
  }

  /** An event is pending only for a match that is collecting bets. */
  lemma EventMeansBetting(g: Game, v: View, e: Event, treatBotAsUser: bool)
    requires GameOk(g, v, treatBotAsUser) && e in v.events && e.matchId == g.matchId
    ensures g.status == BETTING && !Practice(g.players, treatBotAsUser)
  {
  }

  lemma AtMostAll(g: Game, v: View)
    requires CollectingOk(g, v)
    ensures |g.lockedPlayers| <= |g.players|
  {
    LockedAll(g);
  }

  /** When the last bet is locked, every player is distinct and has paid, and nothing is under way. */
  lemma PlayStarts(g: Game, w: View)
    requires CollectingOk(g, w) && |g.lockedPlayers| == |g.players|
    ensures PlayingOk(g.(status := PLAYING), w)
  {
    PotGrows(g.config.betAmount, |g.players|, g.round, |g.lockedPlayers|);
    LockedAll(g);
    assert forall u :: u in Ids(g) ==> u in PlayerSet(g);
    assert CanStart(g, w.jobs, w.events);
    AllSeated(g, w);
    assert Ids(g.(status := PLAYING)) == Ids(g);
  }

  /** The bet of a distinct player moves from the event to the list of locked players, not into both. */
  lemma SeatCounted(g: Game, v: View, mid: Game, w: View, user: UserId, u: UserId)
    requires SeatOk(g, v, u)
    requires FundsLocked(g.matchId, user) in v.events
    requires w == v.(events := v.events - multiset{FundsLocked(g.matchId, user)})
    requires mid.config == g.config && mid.matchId == g.matchId && mid.round == g.round
    requires mid.lockedPlayers == if user in g.lockedPlayers then g.lockedPlayers else g.lockedPlayers + [user]
    ensures SeatOk(mid, w, u)
  {
    assert LockOf(mid, u) == LockOf(g, u);
  }

  lemma PotCounted(g: Game, mid: Game, user: UserId)
    requires g.pot == g.config.betAmount * (|g.players| * (g.round - 1) + |g.lockedPlayers|)
    requires mid == Counted(g, user)
    ensures mid.pot == mid.config.betAmount * (|mid.players| * (mid.round - 1) + |mid.lockedPlayers|)
  {
    PotGrows(g.config.betAmount, |g.players|, g.round, |g.lockedPlayers|);
  }

  lemma LockedCounted(g: Game, mid: Game, user: UserId)
    requires Collections.Distinct(g.lockedPlayers) && user in PlayerSet(g)
    requires forall u :: u in g.lockedPlayers ==> u in PlayerSet(g)
    requires mid == Counted(g, user)
    ensures Collections.Distinct(mid.lockedPlayers)
    ensures forall u :: u in mid.lockedPlayers ==> u in PlayerSet(g)
  {
    hide PlayerSet;
  }

  lemma SameButCounted(g: Game, mid: Game, user: UserId)
    requires mid == Counted(g, user)
    ensures mid.matchId == g.matchId && mid.config == g.config && mid.players == g.players && mid.round == g.round
    ensures Ids(mid) == Ids(g) && PlayerSet(mid) == PlayerSet(g)
    ensures forall u :: LockOf(mid, u) == LockOf(g, u)
  {
    hide Elements;
  }

  lemma FewerEvents(v: View, w: View, e: Event, game: GameId)
    requires w == v.(events := v.events - multiset{e})
    ensures forall x :: x in w.events ==> x in v.events
    ensures NoEvents(v.events, game) ==> NoEvents(w.events, game)
  {
  }

  lemma CanStartCounted(g: Game, v: View, mid: Game, w: View, user: UserId)
    requires FundsLocked(g.matchId, user) in v.events
    requires w == v.(events := v.events - multiset{FundsLocked(g.matchId, user)})
    requires mid == Counted(g, user)
    ensures CanStart(mid, w.jobs, w.events) ==> CanStart(g, v.jobs, v.events)
  {
    hide Collections.Distinct;
    if CanStart(mid, w.jobs, w.events) {
      forall u | u in UserIds(g.players)
        ensures Coming(g, v.jobs, v.events, u)
      {
        assert Coming(mid, w.jobs, w.events, u) && LockOf(mid, u) == LockOf(g, u);
      }
    }
  }

  lemma BettingCounted(g: Game, v: View, mid: Game, w: View, user: UserId)
    requires CollectingOk(g, v)
    requires FundsLocked(g.matchId, user) in v.events
    requires w == v.(events := v.events - multiset{FundsLocked(g.matchId, user)})
    requires mid == Counted(g, user)
    ensures CollectingOk(mid, w)
  {
    CanStartCounted(g, v, mid, w, user);
    hide Counted, SeatOk, Holders, Mentions, PlayerSet, Collections.Distinct, Ids, LockOf, CanStart;
    SameButCounted(g, mid, user);
    FewerEvents(v, w, FundsLocked(g.matchId, user), g.matchId);
    PotCounted(g, mid, user);
    LockedCounted(g, mid, user);
    if Collections.Distinct(Ids(g)) && !v.reverted {
      SeatsCounted(g, v, mid, w, user);
    }
  }

  lemma SeatsCounted(g: Game, v: View, mid: Game, w: View, user: UserId)
    requires forall u :: u in PlayerSet(g) ==> SeatOk(g, v, u)
    requires FundsLocked(g.matchId, user) in v.events
    requires w == v.(events := v.events - multiset{FundsLocked(g.matchId, user)})
    requires mid == Counted(g, user)
    ensures forall u :: u in PlayerSet(g) ==> SeatOk(mid, w, u)
  {
    hide PlayerSet, SeatOk;
    forall u | u in PlayerSet(g)
      ensures SeatOk(mid, w, u)
    {
      SeatCounted(g, v, mid, w, user, u);
    }
  }

  lemma AllSeated(g: Game, w: View)
    requires CollectingOk(g, w) && !w.reverted
    requires Collections.Distinct(Ids(g))
    requires forall u :: u in PlayerSet(g) ==> u in g.lockedPlayers
    ensures NoJobs(w.jobs, g.matchId) && NoEvents(w.events, g.matchId)
    ensures forall u :: u in PlayerSet(g) ==> HeldBy(w.holds, g.matchId, u) == g.config.betAmount * g.round
  {
    forall j | j in w.jobs
      ensures !Mentions(j, g.matchId)
    {
      assert Mentions(j, g.matchId) ==> SeatOk(g, w, j.userId);
    }
    forall e | e in w.events
      ensures e.matchId != g.matchId
    {
      assert e.matchId == g.matchId ==> e == FundsLocked(g.matchId, e.userId) && SeatOk(g, w, e.userId);
    }
    forall u | u in PlayerSet(g)
      ensures HeldBy(w.holds, g.matchId, u) == g.config.betAmount * g.round
    {
      assert SeatOk(g, w, u);
    }
  }

  /** Ending a match queues at most one release, of exactly the HELD total. */
  lemma EndOk(g: Game, v: View, winnerId: UserId, payout: int, treatBotAsUser: bool)
    requires GameOk(g, v, treatBotAsUser) && g.status == PLAYING
    requires HistoryOk(g.(status := SETTLED))
    ensures HandlerOk(g, EndGame(g, winnerId, payout, treatBotAsUser), v, treatBotAsUser)
  {
    if !Practice(g.players, treatBotAsUser) {
      PotIsHeld(g, v);
      var (h, jobs) := EndGame(g, winnerId, payout, treatBotAsUser);
      if winnerId == "" {
        assert Queue(v, jobs) == v;
      } else {
        var w := Queue(v, jobs);
        forall j | j in w.jobs && Mentions(j, g.matchId)
          ensures j == jobs[0] && w.jobs[j] == 1
        {
          assert j !in v.jobs;
        }
      }
    } else {
      assert Queue(v, []) == v;
    }
  }

  lemma {:induction false} EqualBets(bets: seq<Bet>, amount: int)
    requires forall i :: 0 <= i < |bets| ==> bets[i].amount == amount
    ensures BetSum(bets) == amount * |bets|
  {
    if bets != [] {
      EqualBets(bets[..|bets| - 1], amount);
    }
  }

  lemma RecordOk(g: Game, winnerId: UserId)
    requires HistoryOk(g) && g.status == PLAYING && g.round >= 1
    ensures var h := Record(g, winnerId);
            && BetsRecorded(h)
            && HistoryTotal(h.roundHistory) == g.config.betAmount * |g.players| * g.round
            && |h.roundHistory| == g.round && Numbered(h.roundHistory)
  {
    var h := Record(g, winnerId);
    assert h.roundHistory[..|g.roundHistory|] == g.roundHistory;
    EqualBets(h.roundHistory[|g.roundHistory|].bets, g.config.betAmount);
    var each := g.config.betAmount * |g.players|;
    assert each * (g.round - 1) + each == each * g.round;
  }

  /** The end of any round adds its entry to the record, and either ends the match or begins the next round. */
  lemma RoundIsRecorded(g: Game, winnerId: UserId, treatBotAsUser: bool)
    requires g.status == PLAYING
    ensures var h := HandleRoundEnd(g, winnerId, treatBotAsUser).0; var n := |g.roundHistory|;
            && |h.roundHistory| == n + 1 && h.roundHistory[..n] == g.roundHistory
            && h.roundHistory[n].round == g.round && h.roundHistory[n].winnerId == winnerId
            && |h.roundHistory[n].bets| == |g.players|
            && (forall i :: 0 <= i < |g.players| ==>
                  h.roundHistory[n].bets[i] == Bet(g.players[i].userId, g.config.betAmount))
            && if g.round < g.maxRounds then h.round == g.round + 1 && h.status != SETTLED && h.winner == g.winner
               else h.round == g.round && h.status == SETTLED
  {
    hide Practice, LockJobs;
  }

  lemma RoundEndOk(g: Game, v: View, winnerId: UserId, treatBotAsUser: bool)
    requires GameOk(g, v, treatBotAsUser) && HistoryOk(g) && g.status == PLAYING
    ensures HandlerOk(g, HandleRoundEnd(g, winnerId, treatBotAsUser), v, treatBotAsUser)
  {
    var h := Record(g, winnerId);
    RecordOk(g, winnerId);
    assert Ids(h) == Ids(g);
    hide BetsRecorded, Numbered, HistoryTotal, Holders, HeldBy, HeldOf, NoJobs, NoEvents, Elements, Practice,
      TransitionToBetting, EndGame;
    assert GameOk(h, v, treatBotAsUser);
    if h.round >= h.maxRounds {
      EndOk(h, v, winnerId, h.pot, treatBotAsUser);
    } else {
      var next := h.(round := h.round + 1);
      assert Ids(next) == Ids(g);
      BettingEntered(next, v, treatBotAsUser);
    }
  }

  /** The fields that only the dice engine uses do not matter to the money. */
  lemma DiceFieldsFree(g: Game, h: Game, v: View, treatBotAsUser: bool)
    requires GameOk(g, v, treatBotAsUser) && HistoryOk(g) && g.status == PLAYING
    requires h == g.(dice := h.dice, currentTurnIndex := h.currentTurnIndex, turn := h.turn)
    ensures GameOk(h, v, treatBotAsUser) && HistoryOk(h)
  {
    assert Ids(h) == Ids(g);
  }

  lemma AfterMoveOk(g: Game, v: View, treatBotAsUser: bool)
    requires GameOk(g, v, treatBotAsUser) && HistoryOk(g) && g.status == PLAYING
    ensures HandlerOk(g, Dice.AfterMove(g, treatBotAsUser), v, treatBotAsUser)
  {
    assert Queue(v, []) == v;
    match Dice.CheckWinner(g)
    case Some(w) => EndOk(g, v, w.winnerId, w.payout, treatBotAsUser);
    case None => DiceFieldsFree(g, Dice.ResetRound(g), v, treatBotAsUser);
  }

  lemma MoveOk(g: Game, v: View, user: UserId, total: int, treatBotAsUser: bool)
    requires GameOk(g, v, treatBotAsUser) && HistoryOk(g) && g.status == PLAYING
    requires Dice.ProcessMove(g, user, total).Some?
    ensures HandlerOk(g, Dice.AfterMove(Dice.ProcessMove(g, user, total).value, treatBotAsUser), v, treatBotAsUser)
  {
    var moved := Dice.ProcessMove(g, user, total).value;
    DiceFieldsFree(g, moved, v, treatBotAsUser);
    AfterMoveOk(moved, v, treatBotAsUser);
  }

  lemma NothingOk(g: Game, v: View, treatBotAsUser: bool)
    requires GameOk(g, v, treatBotAsUser) && HistoryOk(g)
    ensures HandlerOk(g, (g, []), v, treatBotAsUser)
  {
    assert Queue(v, []) == v;
  }

  lemma RollOk(g: Game, v: View, user: UserId, total: int, treatBotAsUser: bool)
    requires GameOk(g, v, treatBotAsUser) && HistoryOk(g)
    ensures HandlerOk(g, Dice.HandleRoll(g, user, total, treatBotAsUser), v, treatBotAsUser)
  {
    if g.status != PLAYING || g.turn != user || Dice.ProcessMove(g, user, total).None? {
      NothingOk(g, v, treatBotAsUser);
    } else {
      MoveOk(g, v, user, total, treatBotAsUser);
    }
  }

  lemma BotMoveOk(g: Game, v: View, user: UserId, total: int, treatBotAsUser: bool)
    requires GameOk(g, v, treatBotAsUser) && HistoryOk(g)
    ensures HandlerOk(g, Dice.HandleBotMove(g, user, total, treatBotAsUser), v, treatBotAsUser)
  {
    if g.status != PLAYING || !Dice.IsBot(g.players, user) || Dice.ProcessMove(g, user, total).None? {
      NothingOk(g, v, treatBotAsUser);
    } else {
      MoveOk(g, v, user, total, treatBotAsUser);
    }
  }
}
