/** Conservation and fairness of the matchmaking queue. */
module MatchQueueLaws {
  import opened Collections
  import opened MatchQueue

  // ---------------------------------------------------------------------------------------------
  // No ticket is lost or duplicated
  // ---------------------------------------------------------------------------------------------

  /** The tickets a worker holds for a queue, oldest first. */
  function Hand(w: Worker, key: QueueKey): seq<Ticket> {
    match w.phase
    case Idle => []
    case Paired(k, first, second) => if k == key then [first, second] else []
    case Popped(k, first) => if k == key then [first] else []
    case Waiting(k, first) => if k == key then [first] else []
    case TimedOut(k, first) => if k == key then [first] else []
  }

  ghost function Hands(workers: seq<Worker>, key: QueueKey): multiset<Ticket> {
    if workers == [] then multiset{} else
      Hands(workers[..|workers| - 1], key) + multiset(Hand(workers[|workers| - 1], key))
  }

  /** The tickets of a queue that were matched, in the order of the matches. */
  ghost function Flat(matched: seq<Match>, key: QueueKey): seq<Ticket> {
    if matched == [] then [] else
      var m := matched[|matched| - 1];
      Flat(matched[..|matched| - 1], key) + if m.key == key then [m.first, m.second] else []
  }

  ghost predicate Conserved(s: State, key: QueueKey) {
    multiset(At(s.arrived, key)) ==
      multiset(At(s.lists, key)) + Hands(s.workers, key) + multiset(Flat(s.matched, key)) +
      multiset(At(s.timedOut, key))
  }

  lemma {:induction false} HandsUpdate(workers: seq<Worker>, i: nat, w: Worker, key: QueueKey)
    requires i < |workers|
    ensures Hands(workers[i := w], key) + multiset(Hand(workers[i], key)) ==
      Hands(workers, key) + multiset(Hand(w, key))
  {
    hide Hand;
    var n := |workers| - 1;
    var after := workers[i := w];
    var last := multiset(Hand(workers[n], key));
    if i < n {
      HandsUpdate(workers[..n], i, w, key);
      assert after[..n] == workers[..n][i := w] && after[n] == workers[n];
      var (before, now) := (Hands(workers[..n], key), Hands(workers[..n][i := w], key));
      assert Hands(workers, key) == before + last && Hands(after, key) == now + last;
      hide Hands;
      AddBoth(now, multiset(Hand(workers[i], key)), before, multiset(Hand(w, key)), last);
    } else {
      assert after[..n] == workers[..n] && after[n] == w;
    }
  }

  lemma AddBoth(a: multiset<Ticket>, b: multiset<Ticket>, c: multiset<Ticket>, d: multiset<Ticket>,
                more: multiset<Ticket>)
    requires a + b == c + d
    ensures a + more + b == c + more + d
  {
    assert a + more + b == (a + b) + more;
    assert c + more + d == (c + d) + more;
  }

  /** The balance of a queue is kept when a hand changes along with its list and its matches. */
  lemma Rebalance(all: multiset<Ticket>, gone: multiset<Ticket>,
                  list: multiset<Ticket>, hands: multiset<Ticket>, flat: multiset<Ticket>, hand: multiset<Ticket>,
                  list': multiset<Ticket>, hands': multiset<Ticket>, flat': multiset<Ticket>, hand': multiset<Ticket>)
    requires all == list + hands + flat + gone
    requires hands' + hand == hands + hand'
    requires flat' + hand' + list' == flat + hand + list
    ensures all == list' + hands' + flat' + gone
  {
    forall x
      ensures all[x] == (list' + hands' + flat' + gone)[x]
    {
      assert (hands' + hand)[x] == (hands + hand')[x];
      assert (flat' + hand' + list')[x] == (flat + hand + list)[x];
    }
  }

  lemma FlatGrows(matched: seq<Match>, m: Match, key: QueueKey)
    ensures Flat(matched + [m], key) == Flat(matched, key) + if m.key == key then [m.first, m.second] else []
  {
    assert (matched + [m])[..|matched|] == matched;
  }

  lemma {:induction false} RemoveFirstCounts(list: seq<Ticket>, ticket: Ticket)
    requires ticket in list
    ensures multiset(RemoveFirst(list, ticket)) + multiset{ticket} == multiset(list)
  {
    assert list == [list[0]] + list[1..];
    if list[0] != ticket {
      RemoveFirstCounts(list[1..], ticket);
    }
  }

  lemma TakeOne(done: seq<Ticket>, hand: seq<Ticket>, list: seq<Ticket>)
    requires list != []
    ensures done + (hand + [list[0]]) + list[1..] == done + hand + list
  {
    assert list == [list[0]] + list[1..];
  }

  lemma TakeSecondKeepsOrder(s: State, i: nat, k: QueueKey, first: Ticket, otherwise: Phase, key: QueueKey)
    requires i < |s.workers|
    requires s.workers[i].phase == Popped(k, first) || s.workers[i].phase == Waiting(k, first)
    requires otherwise == Waiting(k, first) || otherwise == TimedOut(k, first)
    ensures var s' := TakeSecond(s, i, k, first, otherwise);
            Hand(s'.workers[i], key) + At(s'.lists, key) == Hand(s.workers[i], key) + At(s.lists, key)
  {
    if k == key && At(s.lists, k) != [] {
      TakeOne([], [first], At(s.lists, k));
    }
  }

  lemma HandAndList(s: State, i: nat, key: QueueKey)
    requires i < |s.workers| && !s.workers[i].phase.Paired?
    ensures var s' := Advance(s, i);
            Hand(s'.workers[i], key) + At(s'.lists, key) == Hand(s.workers[i], key) + At(s.lists, key)
  {
    hide *;
    match s.workers[i].phase
    case Idle => FirstTaken(s, i, key);
    case Popped(k, first) =>
      SecondCommand(s, i);
      TakeSecondKeepsOrder(s, i, k, first, Waiting(k, first), key);
    case Waiting(k, first) =>
      SecondCommand(s, i);
      TakeSecondKeepsOrder(s, i, k, first, TimedOut(k, first), key);
    case TimedOut(k, first) => GivenBack(s, i, k, first, key);
  }

  lemma SecondCommand(s: State, i: nat)
    requires i < |s.workers|
    ensures match s.workers[i].phase
            case Popped(k, first) => Advance(s, i) == TakeSecond(s, i, k, first, Waiting(k, first))
            case Waiting(k, first) => Advance(s, i) == TakeSecond(s, i, k, first, TimedOut(k, first))
            case _ => true
  {
    hide TakeSecond;
  }

  lemma FirstTaken(s: State, i: nat, key: QueueKey)
    requires i < |s.workers| && s.workers[i].phase == Idle
    ensures var s' := Advance(s, i);
            Hand(s'.workers[i], key) + At(s'.lists, key) == Hand(s.workers[i], key) + At(s.lists, key)
  {
    var w := s.workers[i];
    var r := FirstReady(s.lists, w.queues);
    hide FirstReady;
    if r < |w.queues| && w.queues[r] == key {
      TakeOne([], [], At(s.lists, key));
    }
  }

  lemma GivenBack(s: State, i: nat, k: QueueKey, first: Ticket, key: QueueKey)
    requires i < |s.workers| && s.workers[i].phase == TimedOut(k, first)
    ensures var s' := Advance(s, i);
            Hand(s'.workers[i], key) + At(s'.lists, key) == Hand(s.workers[i], key) + At(s.lists, key)
  {
    var list := At(s.lists, key);
    assert [] + ([first] + list) == [first] + list;
  }

  lemma AdvanceFrame(s: State, i: nat)
    requires i < |s.workers|
    ensures var s' := Advance(s, i);
            && |s'.workers| == |s.workers| && s'.arrived == s.arrived && s'.timedOut == s.timedOut
            && s'.workers == s.workers[i := s'.workers[i]]
            && (!s.workers[i].phase.Paired? ==> s'.matched == s.matched)
  {
    assert s.workers[i := s.workers[i]] == s.workers;
  }

  /**
   * What one command of a worker does to a queue: its matches, its hand and the list, taken in this order, stay
   * the same.
   */
  lemma AdvanceKeepsOrder(s: State, i: nat, key: QueueKey)
    requires i < |s.workers|
    ensures var s' := Advance(s, i);
            && |s'.workers| == |s.workers|
            && Flat(s'.matched, key) + Hand(s'.workers[i], key) + At(s'.lists, key) ==
               Flat(s.matched, key) + Hand(s.workers[i], key) + At(s.lists, key)
  {
    AdvanceFrame(s, i);
    if s.workers[i].phase.Paired? {
      PairKeepsOrder(s, i, key);
    } else {
      var s' := Advance(s, i);
      HandAndList(s, i, key);
      hide Hand, At, Advance, Flat;
      Associate(Flat(s.matched, key), Hand(s'.workers[i], key), At(s'.lists, key));
      Associate(Flat(s.matched, key), Hand(s.workers[i], key), At(s.lists, key));
    }
  }

  lemma Associate(a: seq<Ticket>, b: seq<Ticket>, c: seq<Ticket>)
    ensures a + b + c == a + (b + c)
    ensures a + b + [] == a + b
  {
  }

  lemma PairKeepsOrder(s: State, i: nat, key: QueueKey)
    requires i < |s.workers| && s.workers[i].phase.Paired?
    ensures var s' := Advance(s, i);
            && s'.lists == s.lists
            && Flat(s'.matched, key) + Hand(s'.workers[i], key) == Flat(s.matched, key) + Hand(s.workers[i], key)
  {
    var Paired(k, first, second) := s.workers[i].phase;
    FlatGrows(s.matched, Match(k, first, second), key);
    hide Flat;
  }

  lemma SplitMultiset(a: seq<Ticket>, b: seq<Ticket>, c: seq<Ticket>)
    ensures multiset(a + b + c) == multiset(a) + multiset(b) + multiset(c)
  {
  }

  lemma ActConserves(s: State, i: nat, key: QueueKey)
    requires i < |s.workers| && Conserved(s, key)
    ensures Conserved(Advance(s, i), key)
  {
    var s' := Advance(s, i);
    AdvanceFrame(s, i);
    AdvanceKeepsOrder(s, i, key);
    HandsUpdate(s.workers, i, s'.workers[i], key);
    hide Advance, Flat, Hand, Hands, At;
    SplitMultiset(Flat(s.matched, key), Hand(s.workers[i], key), At(s.lists, key));
    SplitMultiset(Flat(s'.matched, key), Hand(s'.workers[i], key), At(s'.lists, key));
    Rebalance(multiset(At(s.arrived, key)), multiset(At(s.timedOut, key)),
              multiset(At(s.lists, key)), Hands(s.workers, key),
              multiset(Flat(s.matched, key)), multiset(Hand(s.workers[i], key)),
              multiset(At(s'.lists, key)), Hands(s'.workers, key),
              multiset(Flat(s'.matched, key)), multiset(Hand(s'.workers[i], key)));
  }

  lemma StepConserves(s: State, step: Label, key: QueueKey)
    requires Conserved(s, key)
    ensures Conserved(Do(s, step), key)
  {
    hide Conserved, Advance;
    match step
    case Arrive(k, ticket) => ArriveConserves(s, k, ticket, key);
    case Timeout(k, ticket) => TimeoutConserves(s, k, ticket, key);
    case Act(i) =>
      if i < |s.workers| {
        ActConserves(s, i, key);
      }
  }

  lemma OneMore(list: seq<Ticket>, ticket: Ticket)
    ensures multiset(list + [ticket]) == multiset(list) + multiset{ticket}
  {
  }

  lemma AddOne(arrived: multiset<Ticket>, list: multiset<Ticket>, hands: multiset<Ticket>, flat: multiset<Ticket>,
               gone: multiset<Ticket>, ticket: Ticket)
    requires arrived == list + hands + flat + gone
    ensures arrived + multiset{ticket} == list + multiset{ticket} + hands + flat + gone
  {
  }

  lemma ArriveConserves(s: State, k: QueueKey, ticket: Ticket, key: QueueKey)
    requires Conserved(s, key)
    ensures Conserved(Do(s, Arrive(k, ticket)), key)
  {
    hide Flat, Hands;
    OneMore(At(s.lists, key), ticket);
    OneMore(At(s.arrived, key), ticket);
    AddOne(multiset(At(s.arrived, key)), multiset(At(s.lists, key)), Hands(s.workers, key),
           multiset(Flat(s.matched, key)), multiset(At(s.timedOut, key)), ticket);
    hide At;
  }

  lemma TimeoutConserves(s: State, k: QueueKey, ticket: Ticket, key: QueueKey)
    requires Conserved(s, key)
    ensures Conserved(Do(s, Timeout(k, ticket)), key)
  {
    hide Flat, Hands;
    if ticket in At(s.lists, k) {
      RemoveFirstCounts(At(s.lists, k), ticket);
      hide RemoveFirst, At;
      MoveOne(multiset(RemoveFirst(At(s.lists, k), ticket)), Hands(s.workers, k) + multiset(Flat(s.matched, k)),
              multiset(At(s.timedOut, k)), ticket);
    }
  }

  lemma MoveOne(list: multiset<Ticket>, rest: multiset<Ticket>, gone: multiset<Ticket>, ticket: Ticket)
    ensures (list + multiset{ticket}) + rest + gone == list + rest + (gone + multiset{ticket})
  {
  }

  lemma {:induction false} IdleHands(workers: seq<Worker>, key: QueueKey)
    requires forall i :: 0 <= i < |workers| ==> workers[i].phase == Idle
    ensures Hands(workers, key) == multiset{}
  {
    if workers != [] {
      IdleHands(workers[..|workers| - 1], key);
    }
  }

  /**
   * Matchmaking conservation, for any number of workers and every interleaving: what arrived in a queue is
   * what is still listed, held by workers, matched, or timed out. So no ticket is lost, duplicated,
   * matched twice, or both matched and timed out.
   */
  lemma {:induction false} TicketsConserved(queues: seq<seq<QueueKey>>, labels: seq<Label>, key: QueueKey)
    ensures Conserved(Run(Init(queues), labels), key)
  {
    if labels == [] {
      IdleHands(Init(queues).workers, key);
    } else {
      TicketsConserved(queues, labels[..|labels| - 1], key);
      StepConserves(Run(Init(queues), labels[..|labels| - 1]), labels[|labels| - 1], key);
    }
  }

  // ---------------------------------------------------------------------------------------------
  // Rotation
  // ---------------------------------------------------------------------------------------------

  lemma RotatePermutes(keys: seq<QueueKey>, key: QueueKey)
    ensures multiset(Rotate(keys, key)) == multiset(keys)
  {
    var i := Position(keys, key);
    if i < |keys| {
      assert keys == keys[..i] + [keys[i]] + keys[i + 1..];
    }
  }

  /** A worker's list of keys is always a permutation of the one it started with. */
  lemma {:induction false} KeysPermuted(queues: seq<seq<QueueKey>>, labels: seq<Label>, i: nat)
    requires i < |queues|
    ensures var s := Run(Init(queues), labels);
            |s.workers| == |queues| && multiset(s.workers[i].queues) == multiset(queues[i])
  {
    if labels != [] {
      var s := Run(Init(queues), labels[..|labels| - 1]);
      KeysPermuted(queues, labels[..|labels| - 1], i);
      var step := labels[|labels| - 1];
      if step.Act? && step.worker < |s.workers| {
        AdvanceFrame(s, step.worker);
        var w := s.workers[step.worker];
        if w.phase.TimedOut? {
          RotatePermutes(w.queues, w.phase.key);
        }
      }
    }
  }

  /** Where the key at place `j` of a rotated list was before. */
  function Before(i: nat, j: nat, n: nat): nat {
    if j < i then j else if j < n - 1 then j + 1 else i
  }

  lemma SplicedAt(keys: seq<QueueKey>, i: nat, j: nat)
    requires i < |keys| && j < |keys|
    ensures (keys[..i] + keys[i + 1..] + [keys[i]])[j] == keys[Before(i, j, |keys|)]
  {
    var a, b := keys[..i], keys[i + 1..];
    if j < i {
      assert (a + b + [keys[i]])[j] == a[j];
    } else if j < |keys| - 1 {
      assert (a + b + [keys[i]])[j] == b[j - i];
    }
  }

  lemma RotatedAt(keys: seq<QueueKey>, key: QueueKey)
    requires Position(keys, key) < |keys|
    ensures |Rotate(keys, key)| == |keys|
    ensures forall j :: 0 <= j < |keys| ==> Rotate(keys, key)[j] == keys[Before(Position(keys, key), j, |keys|)]
  {
    var i := Position(keys, key);
    var r := Rotate(keys, key);
    assert r == keys[..i] + keys[i + 1..] + [keys[i]];
    hide Position, Rotate, Before;
    forall j | 0 <= j < |keys|
      ensures r[j] == keys[Before(i, j, |keys|)]
    {
      SplicedAt(keys, i, j);
    }
  }

  lemma RotateKeepsDistinct(keys: seq<QueueKey>, key: QueueKey)
    requires Collections.Distinct(keys) && Position(keys, key) < |keys|
    ensures Collections.Distinct(Rotate(keys, key))
  {
    RotatedAt(keys, key);
    var (i, n, r) := (Position(keys, key), |keys|, Rotate(keys, key));
    hide Rotate, Position;
    forall a, b | 0 <= a < b < n
      ensures r[a] != r[b]
    {
      var (p, q) := (Before(i, a, n), Before(i, b, n));
      assert p < q || q < p;
    }
  }

  lemma PositionIs(keys: seq<QueueKey>, q: QueueKey, i: nat)
    requires i < |keys| && keys[i] == q && Collections.Distinct(keys)
    ensures Position(keys, q) == i
  {
  }

  /** Rotating an earlier key to the end brings a later one forward by one place. */
  lemma RotateAdvances(keys: seq<QueueKey>, key: QueueKey, q: QueueKey)
    requires Collections.Distinct(keys)
    requires Position(keys, key) < Position(keys, q) < |keys|
    ensures Collections.Distinct(Rotate(keys, key))
    ensures Position(Rotate(keys, key), q) == Position(keys, q) - 1 < |Rotate(keys, key)|
  {
    RotatedAt(keys, key);
    RotateKeepsDistinct(keys, key);
    var r := Rotate(keys, key);
    hide Rotate, Position, Collections.Distinct;
    PositionIs(r, q, Position(keys, q) - 1);
  }

  /** Queue `q` has a second ticket besides any that the worker holds of it. */
  ghost predicate Fed(s: State, i: nat, q: QueueKey) {
    i < |s.workers| && |At(s.lists, q)| + |Hand(s.workers[i], q)| >= 2
  }

  function Place(s: State, i: nat, q: QueueKey): nat
    requires i < |s.workers|
  {
    Position(s.workers[i].queues, q)
  }

  function Rank(phase: Phase): nat {
    match phase
    case Idle => 3
    case Popped(_, _) => 2
    case Waiting(_, _) => 1
    case TimedOut(_, _) => 0
    case Paired(_, _, _) => 0
  }

  /** How many commands worker `i` can still take before it makes a match, while `q` is fed. */
  function Measure(s: State, i: nat, q: QueueKey): nat
    requires i < |s.workers|
  {
    4 * Place(s, i, q) + Rank(s.workers[i].phase)
  }

  /** The worker serves `q`, and never waits at a queue behind it, nor at `q` itself. */
  ghost predicate Serving(s: State, i: nat, q: QueueKey) {
    && i < |s.workers|
    && Collections.Distinct(s.workers[i].queues)
    && Place(s, i, q) < |s.workers[i].queues|
    && match s.workers[i].phase
       case Idle => true
       case Popped(k, _) => Position(s.workers[i].queues, k) <= Place(s, i, q)
       case Waiting(k, _) => Position(s.workers[i].queues, k) < Place(s, i, q)
       case TimedOut(k, _) => Position(s.workers[i].queues, k) < Place(s, i, q)
       case Paired(_, _, _) => true
  }

  lemma SamePosition(keys: seq<QueueKey>, a: QueueKey, b: QueueKey)
    requires Position(keys, a) == Position(keys, b) < |keys|
    ensures a == b
  {
  }

  /** What a command of a worker that serves a fed queue achieves: a match, or a step towards one. */
  ghost predicate Progress(s: State, i: nat, q: QueueKey)
    requires i < |s.workers|
  {
    var s' := Advance(s, i);
    && Serving(s', i, q)
    && s'.workers[i].pushBacks + Place(s', i, q) == s.workers[i].pushBacks + Place(s, i, q)
    && (if s.workers[i].phase.Paired? then s'.workers[i].made == s.workers[i].made + 1
        else s'.workers[i].made == s.workers[i].made && Measure(s', i, q) < Measure(s, i, q))
  }

  lemma BlockingServes(s: State, i: nat, q: QueueKey)
    requires Serving(s, i, q) && Fed(s, i, q) && s.workers[i].phase == Idle
    ensures Progress(s, i, q)
  {
    var w := s.workers[i];
    var r := FirstReady(s.lists, w.queues);
    assert At(s.lists, q) != [];
    assert r <= Place(s, i, q);
    PositionIs(w.queues, w.queues[r], r);
    hide Position, FirstReady, At;
  }

  lemma TakingServes(s: State, i: nat, q: QueueKey)
    requires Serving(s, i, q) && Fed(s, i, q) && (s.workers[i].phase.Popped? || s.workers[i].phase.Waiting?)
    ensures Progress(s, i, q)
  {
    var w := s.workers[i];
    match w.phase
    case Popped(k, _) =>
      if At(s.lists, k) == [] && Position(w.queues, k) == Place(s, i, q) {
        SamePosition(w.queues, k, q);
      }
      hide Position, At;
    case _ => hide Position, At;
  }

  lemma GivingBackServes(s: State, i: nat, q: QueueKey)
    requires Serving(s, i, q) && s.workers[i].phase.TimedOut?
    ensures Progress(s, i, q)
  {
    RotateAdvances(s.workers[i].queues, s.workers[i].phase.key, q);
    hide Position, Rotate, At;
  }

  /** While `q` is fed, a command of the worker completes a match or brings it nearer to one. */
  lemma ActServes(s: State, i: nat, q: QueueKey)
    requires Serving(s, i, q) && Fed(s, i, q)
    ensures Progress(s, i, q)
  {
    match s.workers[i].phase
    case Idle => BlockingServes(s, i, q);
    case Popped(_, _) => TakingServes(s, i, q);
    case Waiting(_, _) => TakingServes(s, i, q);
    case TimedOut(_, _) => GivingBackServes(s, i, q);
    case Paired(_, _, _) => hide Position, At;
  }

  function Acts(labels: seq<Label>, i: nat): nat {
    if labels == [] then 0 else
      Acts(labels[..|labels| - 1], i) + if labels[|labels| - 1] == Act(i) then 1 else 0
  }

  lemma OthersLeaveWorker(s: State, step: Label, i: nat)
    requires i < |s.workers| && step != Act(i)
    ensures i < |Do(s, step).workers| && Do(s, step).workers[i] == s.workers[i]
  {
    if step.Act? && step.worker < |s.workers| {
      AdvanceFrame(s, step.worker);
    }
  }

  /**
   * Rotation bound: as long as a served queue at place p keeps at least two tickets, its worker makes at
   * most p push-backs; and it cannot take more than 4 * p + 3 commands without making a match, whatever
   * arrivals, timeouts and other workers do in between.
   */
  lemma {:induction false} RotationBound(s: State, labels: seq<Label>, i: nat, q: QueueKey)
    requires Serving(s, i, q)
    requires forall n :: 0 <= n < |labels| ==> Fed(Run(s, labels[..n]), i, q)
    ensures var t := Run(s, labels);
            && Serving(t, i, q)
            && t.workers[i].pushBacks - s.workers[i].pushBacks == Place(s, i, q) - Place(t, i, q) <= Place(s, i, q)
            && t.workers[i].made >= s.workers[i].made
            && (t.workers[i].made == s.workers[i].made ==> Acts(labels, i) + Measure(t, i, q) <= Measure(s, i, q))
  {
    if labels != [] {
      var n := |labels| - 1;
      var front := labels[..n];
      forall m | 0 <= m < |front|
        ensures Fed(Run(s, front[..m]), i, q)
      {
        assert front[..m] == labels[..m];
      }
      RotationBound(s, front, i, q);
      var u := Run(s, front);
      assert Fed(u, i, q);
      if labels[n] == Act(i) {
        ActServes(u, i, q);
      } else {
        OthersLeaveWorker(u, labels[n], i);
      }
    }
  }

  // ---------------------------------------------------------------------------------------------
  // Queues nobody serves
  // ---------------------------------------------------------------------------------------------

  ghost predicate NeverTaken(s: State, key: QueueKey) {
    && Flat(s.matched, key) == []
    && forall i :: 0 <= i < |s.workers| ==> key !in s.workers[i].queues && Hand(s.workers[i], key) == []
  }

  lemma RotateSame(keys: seq<QueueKey>, key: QueueKey, other: QueueKey)
    requires other !in keys
    ensures other !in Rotate(keys, key)
  {
    var i := Position(keys, key);
    if i < |keys| {
      assert keys == keys[..i] + [key] + keys[i + 1..];
    }
  }

  /** A command of a worker that was not given the key leaves the key alone. */
  lemma ActElsewhere(s: State, i: nat, key: QueueKey)
    requires i < |s.workers| && key !in s.workers[i].queues && Hand(s.workers[i], key) == []
    ensures var s' := Advance(s, i);
            && key !in s'.workers[i].queues && Hand(s'.workers[i], key) == []
            && At(s'.lists, key) == At(s.lists, key) && Flat(s'.matched, key) == Flat(s.matched, key)
  {
    var w := s.workers[i];
    if w.phase.TimedOut? {
      RotateSame(w.queues, w.phase.key, key);
    } else if w.phase.Paired? {
      FlatGrows(s.matched, Match(w.phase.key, w.phase.first, w.phase.second), key);
    }
  }

  /** A ticket in a queue that no worker was given is never matched: it stays listed until it times out. */
  lemma {:induction false} UnservedNeverMatched(queues: seq<seq<QueueKey>>, labels: seq<Label>, key: QueueKey)
    requires forall i :: 0 <= i < |queues| ==> key !in queues[i]
    ensures NeverTaken(Run(Init(queues), labels), key)
  {
    if labels != [] {
      var s := Run(Init(queues), labels[..|labels| - 1]);
      UnservedNeverMatched(queues, labels[..|labels| - 1], key);
      var step := labels[|labels| - 1];
      if step.Act? && step.worker < |s.workers| {
        AdvanceFrame(s, step.worker);
        ActElsewhere(s, step.worker, key);
        hide Advance, Hand, Flat, Run;
      }
    }
  }

  // ---------------------------------------------------------------------------------------------
  // Timeouts
  // ---------------------------------------------------------------------------------------------

  lemma {:induction false} RemoveFirstAt(list: seq<Ticket>, ticket: Ticket, i: nat)
    requires i < |list| && list[i] == ticket
    requires forall j :: 0 <= j < i ==> list[j] != ticket
    ensures RemoveFirst(list, ticket) == list[..i] + list[i + 1..]
  {
    if i > 0 {
      RemoveFirstAt(list[1..], ticket, i - 1);
      assert list[..i] == [list[0]] + list[1..][..i - 1];
    }
  }

  /** A timeout takes the first equal ticket out of its list, nothing if there is none, and touches no other list. */
  lemma TimeoutTakesFirst(s: State, key: QueueKey, ticket: Ticket)
    ensures var r := Do(s, Timeout(key, ticket)); var list := At(s.lists, key);
            && (ticket !in list ==> r == s)
            && (forall i :: 0 <= i < |list| && list[i] == ticket && (forall j :: 0 <= j < i ==> list[j] != ticket) ==>
                  At(r.lists, key) == list[..i] + list[i + 1..] &&
                  At(r.timedOut, key) == At(s.timedOut, key) + [ticket])
            && r.workers == s.workers && r.matched == s.matched && r.arrived == s.arrived
            && forall k :: k != key ==> At(r.lists, k) == At(s.lists, k)
  {
    var list := At(s.lists, key);
    forall i | 0 <= i < |list| && list[i] == ticket && forall j :: 0 <= j < i ==> list[j] != ticket
      ensures RemoveFirst(list, ticket) == list[..i] + list[i + 1..]
    {
      RemoveFirstAt(list, ticket, i);
    }
    hide RemoveFirst;
  }

  /** The counters of a worker: one push-back for each ticket it gives back, one match for each pair. */
  lemma CountersExact(s: State, i: nat)
    requires i < |s.workers|
    ensures var (w, r) := (s.workers[i], Advance(s, i)); var after := r.workers[i];
            && after.pushBacks == w.pushBacks + (if w.phase.TimedOut? then 1 else 0)
            && after.made == w.made + (if w.phase.Paired? then 1 else 0)
            && |r.matched| == |s.matched| + after.made - w.made
            && forall j :: 0 <= j < |s.workers| && j != i ==> r.workers[j] == s.workers[j]
  {
    hide FirstReady, Rotate, At, Put;
  }
}
