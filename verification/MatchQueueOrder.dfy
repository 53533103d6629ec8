/** First in, first out: when it holds of a queue, and a run for every case in which it does not. */
module MatchQueueOrder {
  import opened Collections
  import opened MatchQueue
  import opened MatchQueueLaws

  // ---------------------------------------------------------------------------------------------
  // Subsequences
  // ---------------------------------------------------------------------------------------------

  ghost predicate Subsequence(a: seq<Ticket>, b: seq<Ticket>) {
    a == [] ||
    (b != [] &&
     ((a[|a| - 1] == b[|b| - 1] && Subsequence(a[..|a| - 1], b[..|b| - 1])) || Subsequence(a, b[..|b| - 1])))
  }

  lemma {:induction false} ShorterSubsequence(a: seq<Ticket>, b: seq<Ticket>)
    requires a != [] && Subsequence(a, b)
    ensures Subsequence(a[..|a| - 1], b)
    decreases |b|
  {
    var a', b', x := a[..|a| - 1], b[..|b| - 1], b[|b| - 1];
    assert b' + [x] == b;
    if !(a[|a| - 1] == x && Subsequence(a', b')) {
      ShorterSubsequence(a, b');
    }
    SubsequenceGrows(a', b', x);
  }

  lemma SubsequenceGrows(a: seq<Ticket>, b: seq<Ticket>, x: Ticket)
    requires Subsequence(a, b)
    ensures Subsequence(a, b + [x]) && Subsequence(a + [x], b + [x])
  {
    assert (b + [x])[..|b|] == b;
    assert (a + [x])[..|a|] == a;
  }

  /** Dropping one element anywhere leaves a subsequence. */
  lemma {:induction false} DropOne(a: seq<Ticket>, x: Ticket, c: seq<Ticket>, b: seq<Ticket>)
    requires Subsequence(a + [x] + c, b)
    ensures Subsequence(a + c, b)
    decreases |b|
  {
    var whole := a + [x] + c;
    if c == [] {
      assert whole[..|whole| - 1] == a == a + c;
      ShorterSubsequence(whole, b);
    } else {
      var c', last := c[..|c| - 1], c[|c| - 1];
      var b' := b[..|b| - 1];
      assert whole[..|whole| - 1] == a + [x] + c';
      assert (a + c)[..|a + c| - 1] == a + c';
      if last == b[|b| - 1] && Subsequence(a + [x] + c', b') {
        DropOne(a, x, c', b');
      } else {
        DropOne(a, x, c, b');
      }
    }
  }

  lemma {:induction false} RemoveFirstSplits(list: seq<Ticket>, ticket: Ticket)
    returns (before: seq<Ticket>, after: seq<Ticket>)
    requires ticket in list
    ensures list == before + [ticket] + after
    ensures RemoveFirst(list, ticket) == before + after
  {
    if list[0] == ticket {
      before, after := [], list[1..];
    } else {
      var b, a := RemoveFirstSplits(list[1..], ticket);
      before, after := [list[0]] + b, a;
      assert list == [list[0]] + list[1..];
    }
  }

  lemma {:induction false} SubsequenceIsShorter(a: seq<Ticket>, b: seq<Ticket>)
    requires Subsequence(a, b)
    ensures |a| <= |b| && (|a| == |b| ==> a == b)
    decreases |b|
  {
    if a != [] {
      var b' := b[..|b| - 1];
      if a[|a| - 1] == b[|b| - 1] && Subsequence(a[..|a| - 1], b') {
        SubsequenceIsShorter(a[..|a| - 1], b');
        assert a == a[..|a| - 1] + [a[|a| - 1]] && b == b' + [b[|b| - 1]];
      } else {
        SubsequenceIsShorter(a, b');
      }
    }
  }

  lemma {:induction false} PrefixOfSubsequence(a: seq<Ticket>, c: seq<Ticket>, b: seq<Ticket>)
    requires Subsequence(a + c, b)
    ensures Subsequence(a, b)
    decreases |c|
  {
    if c == [] {
      assert a + c == a;
    } else {
      assert (a + c)[..|a + c| - 1] == a + c[..|c| - 1];
      ShorterSubsequence(a + c, b);
      PrefixOfSubsequence(a, c[..|c| - 1], b);
    }
  }

  // ---------------------------------------------------------------------------------------------
  // First in, first out, while one worker serves the queue
  // ---------------------------------------------------------------------------------------------

  /** Matches in order, then what worker `w` holds, then the list: the order in which it serves a queue. */
  ghost function Served(s: State, w: nat, key: QueueKey): seq<Ticket>
    requires w < |s.workers|
  {
    Flat(s.matched, key) + Hand(s.workers[w], key) + At(s.lists, key)
  }

  /** No worker but `w` was given the key, or holds a ticket of it. */
  ghost predicate OnlyServer(s: State, w: nat, key: QueueKey) {
    forall i :: 0 <= i < |s.workers| && i != w ==> key !in s.workers[i].queues && Hand(s.workers[i], key) == []
  }

  ghost predicate InOrder(s: State, w: nat, key: QueueKey) {
    && w < |s.workers| && OnlyServer(s, w, key)
    && Subsequence(Served(s, w, key), At(s.arrived, key))
    && (At(s.timedOut, key) == [] ==> Served(s, w, key) == At(s.arrived, key))
  }

  lemma ArriveInOrder(s: State, w: nat, ticket: Ticket, key: QueueKey)
    requires InOrder(s, w, key)
    ensures InOrder(Do(s, Arrive(key, ticket)), w, key)
  {
    var s' := Do(s, Arrive(key, ticket));
    SubsequenceGrows(Served(s, w, key), At(s.arrived, key), ticket);
    assert Served(s', w, key) == Served(s, w, key) + [ticket];
    hide Subsequence, Served;
  }

  lemma Regroup(f: seq<Ticket>, h: seq<Ticket>, before: seq<Ticket>, x: Ticket, after: seq<Ticket>)
    ensures f + h + (before + [x] + after) == f + h + before + [x] + after
    ensures f + h + (before + after) == f + h + before + after
  {
  }

  lemma TimeoutServed(s: State, w: nat, ticket: Ticket, key: QueueKey)
    returns (front: seq<Ticket>, after: seq<Ticket>)
    requires w < |s.workers| && ticket in At(s.lists, key)
    ensures Served(s, w, key) == front + [ticket] + after
    ensures Served(Do(s, Timeout(key, ticket)), w, key) == front + after
  {
    var before;
    before, after := RemoveFirstSplits(At(s.lists, key), ticket);
    hide Flat, Hand, RemoveFirst;
    front := Flat(s.matched, key) + Hand(s.workers[w], key) + before;
    Regroup(Flat(s.matched, key), Hand(s.workers[w], key), before, ticket, after);
  }

  lemma TimeoutInOrder(s: State, w: nat, ticket: Ticket, key: QueueKey)
    requires InOrder(s, w, key) && ticket in At(s.lists, key)
    ensures InOrder(Do(s, Timeout(key, ticket)), w, key)
  {
    var front, after := TimeoutServed(s, w, ticket, key);
    hide Served, Subsequence, RemoveFirst, Hand;
    DropOne(front, ticket, after, At(s.arrived, key));
  }

  lemma OtherKeyInOrder(s: State, w: nat, step: Label, key: QueueKey)
    requires InOrder(s, w, key) && !step.Act? && step.key != key
    ensures InOrder(Do(s, step), w, key)
  {
    assert Served(Do(s, step), w, key) == Served(s, w, key);
    hide Served, Subsequence;
  }

  lemma ActInOrder(s: State, w: nat, i: nat, key: QueueKey)
    requires InOrder(s, w, key) && i < |s.workers|
    ensures InOrder(Advance(s, i), w, key)
  {
    AdvanceFrame(s, i);
    if i == w {
      AdvanceKeepsOrder(s, w, key);
    } else {
      ActElsewhere(s, i, key);
    }
    hide Advance, Hand, Flat, Subsequence;
  }

  lemma StepInOrder(s: State, w: nat, step: Label, key: QueueKey)
    requires InOrder(s, w, key)
    ensures InOrder(Do(s, step), w, key)
  {
    hide InOrder, Advance;
    if step.Act? {
      if step.worker < |s.workers| {
        ActInOrder(s, w, step.worker, key);
      }
    } else if step.key != key {
      OtherKeyInOrder(s, w, step, key);
    } else if step.Arrive? {
      ArriveInOrder(s, w, step.ticket, key);
    } else if step.ticket in At(s.lists, key) {
      TimeoutInOrder(s, w, step.ticket, key);
    }
  }

  /**
   * FIFO of a queue, for any number of workers of which only `w` was given its key: tickets are matched in the
   * order of arrival, even when arrivals or timeouts fall between a failed wait and the push-back; and with
   * no timeout nothing is ever out of place.
   */
  lemma {:induction false} FirstInFirstOut(queues: seq<seq<QueueKey>>, w: nat, labels: seq<Label>, key: QueueKey)
    requires w < |queues| && forall i :: 0 <= i < |queues| && i != w ==> key !in queues[i]
    ensures InOrder(Run(Init(queues), labels), w, key)
  {
    if labels != [] {
      FirstInFirstOut(queues, w, labels[..|labels| - 1], key);
      StepInOrder(Run(Init(queues), labels[..|labels| - 1]), w, labels[|labels| - 1], key);
    }
  }

  // ---------------------------------------------------------------------------------------------
  // Two workers on one queue
  // ---------------------------------------------------------------------------------------------

  lemma RunOneMore(s: State, labels: seq<Label>, step: Label)
    ensures Run(s, labels + [step]) == Do(Run(s, labels), step)
  {
    assert (labels + [step])[..|labels|] == labels;
  }

  /** Two workers that were both given the key, when no other queue has a ticket. */
  datatype Scene = Scene(list: seq<Ticket>, one: Phase, two: Phase, matched: seq<Match>, arrived: seq<Ticket>)

  ghost predicate Shows(s: State, key: QueueKey, i: nat, j: nat, scene: Scene) {
    && i < |s.workers| && j < |s.workers| && i != j
    && key in s.workers[i].queues && key in s.workers[j].queues
    && s.workers[i].phase == scene.one && s.workers[j].phase == scene.two
    && (forall k :: k != key ==> At(s.lists, k) == [])
    && At(s.lists, key) == scene.list && s.matched == scene.matched
    && At(s.arrived, key) == scene.arrived && At(s.timedOut, key) == []
  }

  lemma ArriveShows(s: State, key: QueueKey, i: nat, j: nat, scene: Scene, t: Ticket)
    requires Shows(s, key, i, j, scene)
    ensures Shows(Do(s, Arrive(key, t)), key, i, j, scene.(list := scene.list + [t], arrived := scene.arrived + [t]))
  {
  }

  lemma BlockShows(s: State, key: QueueKey, i: nat, j: nat, scene: Scene)
    requires Shows(s, key, i, j, scene) && scene.one == Idle && scene.list != []
    ensures Shows(Do(s, Act(i)), key, i, j, scene.(list := scene.list[1..], one := Popped(key, scene.list[0])))
  {
    var w := s.workers[i];
    var r := FirstReady(s.lists, w.queues);
    var p :| 0 <= p < |w.queues| && w.queues[p] == key;
    assert r < |w.queues| && w.queues[r] == key;
  }

  lemma PopShows(s: State, key: QueueKey, i: nat, j: nat, scene: Scene)
    requires Shows(s, key, i, j, scene) && scene.one.Popped? && scene.one.key == key && scene.list != []
    ensures Shows(Do(s, Act(i)), key, i, j,
                  scene.(list := scene.list[1..], one := Paired(key, scene.one.first, scene.list[0])))
  {
  }

  lemma MatchShows(s: State, key: QueueKey, i: nat, j: nat, scene: Scene)
    requires Shows(s, key, i, j, scene) && scene.one.Paired? && scene.one.key == key
    ensures Shows(Do(s, Act(i)), key, i, j,
                  scene.(one := Idle, matched := scene.matched + [Match(key, scene.one.first, scene.one.second)]))
  {
  }

  lemma InitShows(queues: seq<seq<QueueKey>>, key: QueueKey, i: nat, j: nat)
    requires i < |queues| && j < |queues| && i != j && key in queues[i] && key in queues[j]
    ensures Shows(Init(queues), key, i, j, Scene([], Idle, Idle, [], []))
  {
  }

  /**
   * Whenever two workers were given the same key, there is a run in which the first arrival waits in one
   * worker's hand while the other matches the next two, and is matched only afterwards.
   */
  lemma SharedKeyOvertakes(queues: seq<seq<QueueKey>>, key: QueueKey, i: nat, j: nat,
                           t1: Ticket, t2: Ticket, t3: Ticket, t4: Ticket)
    returns (labels: seq<Label>)
    requires i < |queues| && j < |queues| && i != j && key in queues[i] && key in queues[j]
    ensures var s := Run(Init(queues), labels);
            && At(s.arrived, key) == [t1, t2, t3, t4] && At(s.timedOut, key) == []
            && s.matched == [Match(key, t2, t3), Match(key, t1, t4)]
  {
    var s0 := Init(queues);
    InitShows(queues, key, i, j);
    assert Run(s0, []) == s0;
    hide *;
    Grows(t1, t2, t3, t4);
    Grows(Match(key, t2, t3), Match(key, t1, t4), Match(key, t1, t4), Match(key, t1, t4));
    var c := Scene([], Idle, Idle, [], []);
    labels := [];
    labels := ArriveNext(s0, labels, key, i, j, c, t1);
    c := Scene([t1], Idle, Idle, [], [t1]);
    BlockShows(Run(s0, labels), key, i, j, c);
    RunOneMore(s0, labels, Act(i));
    labels := labels + [Act(i)];
    c := Scene([], Popped(key, t1), Idle, [], [t1]);
    labels := ArriveNext(s0, labels, key, i, j, c, t2);
    c := Scene([t2], Popped(key, t1), Idle, [], [t1, t2]);
    labels := ArriveNext(s0, labels, key, i, j, c, t3);
    c := Scene([t2, t3], Popped(key, t1), Idle, [], [t1, t2, t3]);
    SwapShows(Run(s0, labels), key, i, j, c);
    var d := Scene([t2, t3], Idle, Popped(key, t1), [], [t1, t2, t3]);
    labels := OtherMatches(s0, labels, key, j, i, d, t2, t3);
    SwapShows(Run(s0, labels), key, j, i, d.(list := [], matched := [Match(key, t2, t3)]));
    c := Scene([], Popped(key, t1), Idle, [Match(key, t2, t3)], [t1, t2, t3]);
    labels := ArriveNext(s0, labels, key, i, j, c, t4);
    c := Scene([t4], Popped(key, t1), Idle, [Match(key, t2, t3)], [t1, t2, t3, t4]);
    PopShows(Run(s0, labels), key, i, j, c);
    RunOneMore(s0, labels, Act(i));
    labels := labels + [Act(i)];
    c := Scene([], Paired(key, t1, t4), Idle, [Match(key, t2, t3)], [t1, t2, t3, t4]);
    MatchShows(Run(s0, labels), key, i, j, c);
    RunOneMore(s0, labels, Act(i));
    labels := labels + [Act(i)];
    c := Scene([], Idle, Idle, [Match(key, t2, t3), Match(key, t1, t4)], [t1, t2, t3, t4]);
    ShownTickets(Run(s0, labels), key, i, j, c);
  }

  lemma Grows<T>(a: T, b: T, c: T, d: T)
    ensures [] + [a] == [a] && [a] + [b] == [a, b] && [a, b] + [c] == [a, b, c] && [a, b, c] + [d] == [a, b, c, d]
  {
  }

  lemma SwapShows(s: State, key: QueueKey, i: nat, j: nat, scene: Scene)
    requires Shows(s, key, i, j, scene)
    ensures Shows(s, key, j, i, scene.(one := scene.two, two := scene.one))
  {
  }

  lemma ShownTickets(s: State, key: QueueKey, i: nat, j: nat, scene: Scene)
    requires Shows(s, key, i, j, scene)
    ensures At(s.arrived, key) == scene.arrived && At(s.timedOut, key) == [] && s.matched == scene.matched
  {
  }

  lemma ArriveNext(s0: State, labels: seq<Label>, key: QueueKey, i: nat, j: nat, scene: Scene, t: Ticket)
    returns (more: seq<Label>)
    requires Shows(Run(s0, labels), key, i, j, scene)
    ensures Shows(Run(s0, more), key, i, j, scene.(list := scene.list + [t], arrived := scene.arrived + [t]))
  {
    more := labels + [Arrive(key, t)];
    RunOneMore(s0, labels, Arrive(key, t));
    ArriveShows(Run(s0, labels), key, i, j, scene, t);
  }

  lemma OtherMatches(s0: State, labels: seq<Label>, key: QueueKey, i: nat, j: nat, scene: Scene, t2: Ticket, t3: Ticket)
    returns (more: seq<Label>)
    requires Shows(Run(s0, labels), key, i, j, scene)
    requires scene.one == Idle && scene.list == [t2, t3] && scene.matched == []
    ensures Shows(Run(s0, more), key, i, j, scene.(list := [], matched := [Match(key, t2, t3)]))
  {
    hide Do, Run, Shows;
    BlockShows(Run(s0, labels), key, i, j, scene);
    RunOneMore(s0, labels, Act(i));
    more := labels + [Act(i)];
    var c := scene.(list := [t3], one := Popped(key, t2));
    PopShows(Run(s0, more), key, i, j, c);
    RunOneMore(s0, more, Act(i));
    more := more + [Act(i)];
    MatchShows(Run(s0, more), key, i, j, c.(list := [], one := Paired(key, t2, t3)));
    RunOneMore(s0, more, Act(i));
    more := more + [Act(i)];
    assert scene.matched + [Match(key, t2, t3)] == [Match(key, t2, t3)];
  }

  ghost predicate Fifo(s: State, key: QueueKey) {
    Subsequence(Flat(s.matched, key), At(s.arrived, key))
  }

  ghost predicate AtMostOneServer(queues: seq<seq<QueueKey>>, key: QueueKey) {
    forall i, j :: 0 <= i < j < |queues| ==> !(key in queues[i] && key in queues[j])
  }

  lemma OneServerFifo(queues: seq<seq<QueueKey>>, labels: seq<Label>, key: QueueKey)
    requires AtMostOneServer(queues, key)
    ensures Fifo(Run(Init(queues), labels), key)
  {
    var s := Run(Init(queues), labels);
    if w :| 0 <= w < |queues| && key in queues[w] {
      FirstInFirstOut(queues, w, labels, key);
      hide Run, Subsequence;
      Associate(Flat(s.matched, key), Hand(s.workers[w], key), At(s.lists, key));
      PrefixOfSubsequence(Flat(s.matched, key), Hand(s.workers[w], key) + At(s.lists, key), At(s.arrived, key));
    } else {
      UnservedNeverMatched(queues, labels, key);
    }
  }

  lemma TwoMatches(key: QueueKey, t1: Ticket, t2: Ticket, t3: Ticket, t4: Ticket)
    ensures Flat([Match(key, t2, t3), Match(key, t1, t4)], key) == [t2, t3, t1, t4]
  {
    var (m, n) := (Match(key, t2, t3), Match(key, t1, t4));
    FlatGrows([], m, key);
    FlatGrows([m], n, key);
    assert [] + [m] == [m] && [m] + [n] == [m, n];
  }

  lemma OvertakenIsNoSubsequence(t1: Ticket, t2: Ticket, t3: Ticket, t4: Ticket)
    requires t1 != t2
    ensures !Subsequence([t2, t3, t1, t4], [t1, t2, t3, t4])
  {
    hide Subsequence;
    assert [t2, t3, t1, t4][0] != [t1, t2, t3, t4][0];
    if Subsequence([t2, t3, t1, t4], [t1, t2, t3, t4]) {
      SubsequenceIsShorter([t2, t3, t1, t4], [t1, t2, t3, t4]);
      assert false;
    }
  }

  lemma SharedKeyBreaksFifo(queues: seq<seq<QueueKey>>, key: QueueKey, i: nat, j: nat) returns (labels: seq<Label>)
    requires i < |queues| && j < |queues| && i != j && key in queues[i] && key in queues[j]
    ensures !Fifo(Run(Init(queues), labels), key)
  {
    hide Run, Init, Subsequence, Flat, At;
    var (t1, t2, t3, t4) := (Ticket("", 1), Ticket("", 2), Ticket("", 3), Ticket("", 4));
    labels := SharedKeyOvertakes(queues, key, i, j, t1, t2, t3, t4);
    TwoMatches(key, t1, t2, t3, t4);
    OvertakenIsNoSubsequence(t1, t2, t3, t4);
  }

  /**
   * The condition is exact, queue by queue: every run matches the tickets of a queue in the order of arrival
   * if and only if at most one worker was given its key, however many workers there are.
   */
  lemma FifoIffAtMostOneServer(queues: seq<seq<QueueKey>>, key: QueueKey)
    ensures (forall labels :: Fifo(Run(Init(queues), labels), key)) <==> AtMostOneServer(queues, key)
  {
    if AtMostOneServer(queues, key) {
      forall labels
        ensures Fifo(Run(Init(queues), labels), key)
      {
        OneServerFifo(queues, labels, key);
      }
    } else {
      var i, j :| 0 <= i < j < |queues| && key in queues[i] && key in queues[j];
      var labels := SharedKeyBreaksFifo(queues, key, i, j);
    }
  }
}
