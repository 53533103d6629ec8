/**
 * The matchmaking queue: Redis lists shared by producers, timeout jobs and polling workers. Every Redis
 * command is one atomic step, so arrivals and timeouts may fall between any two commands of a worker.
 */
module MatchQueue {
  import opened Collections

  type QueueKey = string

  datatype Ticket = Ticket(userId: string, betAmount: int)
  datatype Match = Match(key: QueueKey, first: Ticket, second: Ticket)

  /** Where a worker stands in its loop, with the tickets it holds. */
  datatype Phase =
    | Idle                                                // about to block on all its queues
    | Popped(key: QueueKey, first: Ticket)                // about to pop an opponent
    | Waiting(key: QueueKey, first: Ticket)               // found none, blocking on this queue
    | TimedOut(key: QueueKey, first: Ticket)              // about to push its ticket back
    | Paired(key: QueueKey, first: Ticket, second: Ticket) // about to create the match

  datatype Worker = Worker(phase: Phase, queues: seq<QueueKey>, pushBacks: nat, made: nat)

  datatype State = State(
    lists: map<QueueKey, seq<Ticket>>,
    workers: seq<Worker>,
    matched: seq<Match>,
    arrived: map<QueueKey, seq<Ticket>>,     // every ticket ever pushed, in order
    timedOut: map<QueueKey, seq<Ticket>>)    // every ticket a timeout job removed

  datatype Label =
    | Arrive(key: QueueKey, ticket: Ticket)
    | Timeout(key: QueueKey, ticket: Ticket)
    | Act(worker: nat)

  /** A missing list is empty. */
  function At(lists: map<QueueKey, seq<Ticket>>, key: QueueKey): seq<Ticket> {
    if key in lists then lists[key] else []
  }

  function Put(lists: map<QueueKey, seq<Ticket>>, key: QueueKey, list: seq<Ticket>): (r: map<QueueKey, seq<Ticket>>)
    ensures At(r, key) == list
    ensures forall k :: k != key ==> At(r, k) == At(lists, k)
  {
    lists[key := list]
  }

  /** Removes the first element equal to `ticket`, if there is one. */
  function RemoveFirst(list: seq<Ticket>, ticket: Ticket): seq<Ticket> {
    if list == [] then []
    else if list[0] == ticket then list[1..]
    else [list[0]] + RemoveFirst(list[1..], ticket)
  }

  /** The index of the first key with a non-empty list, or the number of keys. */
  function FirstReady(lists: map<QueueKey, seq<Ticket>>, keys: seq<QueueKey>): (i: nat)
    ensures i <= |keys|
    ensures i < |keys| ==> At(lists, keys[i]) != []
    ensures forall j :: 0 <= j < i ==> At(lists, keys[j]) == []
  {
    if keys == [] || At(lists, keys[0]) != [] then 0 else 1 + FirstReady(lists, keys[1..])
  }

  /** Moves a key to the end of the list; a key that is not there moves nothing. */
  function Rotate(keys: seq<QueueKey>, key: QueueKey): seq<QueueKey> {
    var i := Position(keys, key);
    if i < |keys| then keys[..i] + keys[i + 1..] + [key] else keys
  }

  function Position(keys: seq<QueueKey>, key: QueueKey): (i: nat)
    ensures i <= |keys|
    ensures i < |keys| ==> keys[i] == key
    ensures forall j :: 0 <= j < i ==> keys[j] != key
  {
    if keys == [] || keys[0] == key then 0 else 1 + Position(keys[1..], key)
  }

  /** The next command of worker `i`. */
  function Advance(s: State, i: nat): State
    requires i < |s.workers|
  {
    var w := s.workers[i];
    match w.phase
    case Idle =>
      var r := FirstReady(s.lists, w.queues);
      if r == |w.queues| then s else
        var key := w.queues[r];
        var list := At(s.lists, key);
        s.(lists := Put(s.lists, key, list[1..]), workers := s.workers[i := w.(phase := Popped(key, list[0]))])
    case Popped(key, first) => TakeSecond(s, i, key, first, Waiting(key, first))
    case Waiting(key, first) => TakeSecond(s, i, key, first, TimedOut(key, first))
    case TimedOut(key, first) =>
      s.(lists := Put(s.lists, key, [first] + At(s.lists, key)),
         workers := s.workers[i := Worker(Idle, Rotate(w.queues, key), w.pushBacks + 1, w.made)])
    case Paired(key, first, second) =>
      s.(matched := s.matched + [Match(key, first, second)],
         workers := s.workers[i := w.(phase := Idle, made := w.made + 1)])
  }

  function TakeSecond(s: State, i: nat, key: QueueKey, first: Ticket, otherwise: Phase): State
    requires i < |s.workers|
  {
    var w := s.workers[i];
    var list := At(s.lists, key);
    if list == [] then s.(workers := s.workers[i := w.(phase := otherwise)])
    else s.(lists := Put(s.lists, key, list[1..]), workers := s.workers[i := w.(phase := Paired(key, first, list[0]))])
  }

  function Do(s: State, step: Label): State {
    match step
    case Arrive(key, ticket) =>
      s.(lists := Put(s.lists, key, At(s.lists, key) + [ticket]),
         arrived := Put(s.arrived, key, At(s.arrived, key) + [ticket]))
    case Timeout(key, ticket) =>
      if ticket !in At(s.lists, key) then s else
        s.(lists := Put(s.lists, key, RemoveFirst(At(s.lists, key), ticket)),
           timedOut := Put(s.timedOut, key, At(s.timedOut, key) + [ticket]))
    case Act(i) => if i < |s.workers| then Advance(s, i) else s
  }

  function Run(s: State, labels: seq<Label>): State {
    if labels == [] then s else Do(Run(s, labels[..|labels| - 1]), labels[|labels| - 1])
  }

  /** Workers that have not started, each with its own list of keys. */
  function Init(queues: seq<seq<QueueKey>>): State {
    State(map[], seq(|queues|, i requires 0 <= i < |queues| => Worker(Idle, queues[i], 0, 0)), [], map[], map[])
  }
}
