/** The Redis lists, their producers, the timeout job and the polling worker, as objects that update them in place. */
module MatchQueueWorker {
  import opened Collections
  import opened MatchQueue
  import opened MatchQueueOrder
  import MatchQueueLaws

  class Redis {
    var lists: map<QueueKey, seq<Ticket>>

    constructor ()
      ensures lists == map[]
    {
      lists := map[];
    }

    method Rpush(key: QueueKey, ticket: Ticket)
      modifies this
      ensures lists == Put(old(lists), key, At(old(lists), key) + [ticket])
    {
      lists := Put(lists, key, At(lists, key) + [ticket]);
    }

    method Lpush(key: QueueKey, ticket: Ticket)
      modifies this
      ensures lists == Put(old(lists), key, [ticket] + At(old(lists), key))
    {
      lists := Put(lists, key, [ticket] + At(lists, key));
    }

    method Lpop(key: QueueKey) returns (ticket: Option<Ticket>)
      modifies this
      ensures At(old(lists), key) == [] ==> ticket == None && lists == old(lists)
      ensures At(old(lists), key) != [] ==>
        ticket == Some(At(old(lists), key)[0]) && lists == Put(old(lists), key, At(old(lists), key)[1..])
    {
      var list := At(lists, key);
      if list == [] {
        return None;
      }
      lists := Put(lists, key, list[1..]);
      return Some(list[0]);
    }

    /** Pops from the first key with a non-empty list; None stands for the end of the wait. */
    method Blpop(keys: seq<QueueKey>) returns (popped: Option<(QueueKey, Ticket)>)
      modifies this
      ensures var r := FirstReady(old(lists), keys);
              if r == |keys| then popped == None && lists == old(lists)
              else popped == Some((keys[r], At(old(lists), keys[r])[0])) &&
                   lists == Put(old(lists), keys[r], At(old(lists), keys[r])[1..])
    {
      var i := 0;
      while i < |keys| && At(lists, keys[i]) == []
        invariant i <= |keys| && lists == old(lists)
        invariant forall j :: 0 <= j < i ==> At(lists, keys[j]) == []
      {
        i := i + 1;
      }
      assert i == FirstReady(lists, keys);
      if i == |keys| {
        return None;
      }
      var list := At(lists, keys[i]);
      lists := Put(lists, keys[i], list[1..]);
      return Some((keys[i], list[0]));
    }

    /** Removes the first equal element, and says how many it removed. */
    method Lrem(key: QueueKey, ticket: Ticket) returns (removed: nat)
      modifies this
      ensures removed == if ticket in At(old(lists), key) then 1 else 0
      ensures lists == if ticket in At(old(lists), key)
                       then Put(old(lists), key, RemoveFirst(At(old(lists), key), ticket)) else old(lists)
    {
      var list := At(lists, key);
      var i := 0;
      while i < |list| && list[i] != ticket
        invariant i <= |list| && lists == old(lists)
        invariant forall j :: 0 <= j < i ==> list[j] != ticket
      {
        i := i + 1;
      }
      if i == |list| {
        return 0;
      }
      MatchQueueLaws.RemoveFirstAt(list, ticket, i);
      lists := Put(lists, key, list[..i] + list[i + 1..]);
      return 1;
    }
  }

  const GAME_TYPES: set<string> := {"dice", "coin", "crash", "limbo"}
  const TIERS: set<string> := {"bronze", "silver", "gold", "platinum"}

  /** The keys the worker is started with. */
  const WORKER_QUEUES: seq<QueueKey> := ["queue:dice:standard", "queue:dice:bronze"]

  function KeyOf(gameType: string, tier: string): QueueKey {
    "queue:" + gameType + ":" + tier
  }

  /** Different games or tiers never share a queue. */
  lemma KeysApart(game: string, tier: string, otherGame: string, otherTier: string)
    requires game in GAME_TYPES && otherGame in GAME_TYPES
    ensures KeyOf(game, tier) == KeyOf(otherGame, otherTier) <==> game == otherGame && tier == otherTier
  {
    var (key, other) := (KeyOf(game, tier), KeyOf(otherGame, otherTier));
    if key == other {
      assert key[6..] == game + ":" + tier && other[6..] == otherGame + ":" + otherTier;
      assert key[6 + |game|] == ':' && other[6 + |otherGame|] == ':';
      assert key[6..6 + |game|] == game && other[6..6 + |game|] == otherGame;
      assert key[7 + |game|..] == tier && other[7 + |game|..] == otherTier;
    }
  }

  class MatchQueueService {
    const redis: Redis
    var timeouts: seq<(QueueKey, Ticket)>

    constructor (redis: Redis)
      ensures this.redis == redis && timeouts == []
    {
      this.redis := redis;
      timeouts := [];
    }

    method AddToQueue(userId: string, gameType: string, tier: string, betAmount: int) returns (accepted: bool)
      modifies this, redis
      ensures accepted <==>
        && (gameType == "dice" || gameType == "coin" || gameType == "crash" || gameType == "limbo")
        && (tier == "bronze" || tier == "silver" || tier == "gold" || tier == "platinum")
        && betAmount > 0
      ensures !accepted ==> redis.lists == old(redis.lists) && timeouts == old(timeouts)
      ensures accepted ==>
        var (key, ticket) := ("queue:" + gameType + ":" + tier, Ticket(userId, betAmount));
        && redis.lists == Put(old(redis.lists), key, At(old(redis.lists), key) + [ticket])
        && timeouts == old(timeouts) + [(key, ticket)]
    {
      if gameType !in GAME_TYPES || tier !in TIERS || betAmount <= 0 {
        return false;
      }
      var key := KeyOf(gameType, tier);
      var ticket := Ticket(userId, betAmount);
      redis.Rpush(key, ticket);
      timeouts := timeouts + [(key, ticket)];
      return true;
    }
  }

  class MatchTimeoutProcessor {
    const redis: Redis
    var notified: seq<Ticket>

    constructor (redis: Redis)
      ensures this.redis == redis && notified == []
    {
      this.redis := redis;
      notified := [];
    }

    /** The player is told about the timeout exactly if his ticket was still listed. */
    method Process(key: QueueKey, ticket: Ticket)
      modifies this, redis
      ensures ticket in At(old(redis.lists), key) ==>
        && redis.lists == Put(old(redis.lists), key, RemoveFirst(At(old(redis.lists), key), ticket))
        && notified == old(notified) + [ticket]
      ensures ticket !in At(old(redis.lists), key) ==> redis.lists == old(redis.lists) && notified == old(notified)
    {
      var removed := redis.Lrem(key, ticket);
      if removed > 0 {
        notified := notified + [ticket];
      }
    }
  }

  ghost predicate FromOutside(labels: seq<Label>) {
    forall i :: 0 <= i < |labels| ==> !labels[i].Act?
  }

  lemma {:induction false} RunConcat(s: State, a: seq<Label>, b: seq<Label>)
    ensures Run(s, a + b) == Run(Run(s, a), b)
  {
    if b == [] {
      assert a + b == a;
    } else {
      assert (a + b)[..|a + b| - 1] == a + b[..|b| - 1];
      RunConcat(s, a, b[..|b| - 1]);
    }
  }

  lemma RunStep(s: State, labels: seq<Label>, step: Label)
    ensures Run(s, labels + [step]) == Do(Run(s, labels), step)
    ensures Run(s, []) == s
  {
    assert (labels + [step])[..|labels|] == labels;
  }

  /** What others do before each command of one pass; the last command is the push-back or the match. */
  datatype Pass = Pass(blocking: seq<Label>, popping: seq<Label>, waiting: seq<Label>, last: seq<Label>) {
    ghost predicate Valid() {
      FromOutside(blocking) && FromOutside(popping) && FromOutside(waiting) && FromOutside(last)
    }
  }

  function Command(s: State, outside: seq<Label>): State {
    Do(Run(s, outside), Act(0))
  }

  function PhaseOf(s: State): Phase {
    if s.workers == [] then Idle else s.workers[0].phase
  }

  /** One pass: block on all queues; with a ticket, pop; without an opponent, wait; then push back or match. */
  function AfterPass(s: State, p: Pass): State {
    var a := Command(s, p.blocking);
    if PhaseOf(a) == Idle then a else
      var b := Command(a, p.popping);
      var c := if PhaseOf(b).Waiting? then Command(b, p.waiting) else b;
      Command(c, p.last)
  }

  function AfterPasses(s: State, passes: seq<Pass>): State {
    if passes == [] then s else AfterPass(AfterPasses(s, passes[..|passes| - 1]), passes[|passes| - 1])
  }

  /**
   * The polling worker. `state` is the step system's view of it: the commands it issues and the arrivals
   * and timeouts of others that fall between them are steps of that system.
   */
  class MatchQueueWorker {
    const redis: Redis
    var queues: seq<QueueKey>
    var matches: seq<Match>
    ghost var state: State

    ghost predicate Linked()
      reads this, redis
    {
      && state.lists == redis.lists && state.matched == matches
      && |state.workers| == 1 && state.workers[0].queues == queues
    }

    ghost predicate In(phase: Phase)
      reads this, redis
    {
      Linked() && state.workers[0].phase == phase
    }

    constructor (redis: Redis)
      requires redis.lists == map[]
      ensures this.redis == redis && In(Idle) && state == Init([WORKER_QUEUES])
    {
      this.redis := redis;
      queues, matches := WORKER_QUEUES, [];
      state := Init([WORKER_QUEUES]);
    }

    /** Other processes act while the worker is between two commands. */
    method Others(outside: seq<Label>)
      requires Linked() && FromOutside(outside)
      modifies redis, `state
      ensures Linked() && state == Run(old(state), outside)
      ensures state.workers == old(state.workers)
    {
      for i := 0 to |outside|
        invariant Linked() && state == Run(old(state), outside[..i])
        invariant state.workers == old(state.workers)
      {
        assert outside[..i + 1][..i] == outside[..i];
        match outside[i] {
          case Arrive(key, ticket) => redis.Rpush(key, ticket);
          case Timeout(key, ticket) => var _ := redis.Lrem(key, ticket);
        }
        state := Do(state, outside[i]);
      }
      assert outside[..|outside|] == outside;
    }

    method RotateKey(key: QueueKey)
      modifies `queues
      ensures queues == Rotate(old(queues), key)
    {
      var i := 0;
      while i < |queues| && queues[i] != key
        invariant i <= |queues| && queues == old(queues)
        invariant forall j :: 0 <= j < i ==> queues[j] != key
      {
        i := i + 1;
      }
      assert i == Position(queues, key);
      if i < |queues| {
        queues := queues[..i] + queues[i + 1..] + [key];
      }
    }

    /** Block on all queues. */
    method PopAny() returns (popped: Option<(QueueKey, Ticket)>)
      requires In(Idle)
      modifies redis, `state
      ensures state == Do(old(state), Act(0))
      ensures if popped == None then In(Idle) else In(Popped(popped.value.0, popped.value.1))
    {
      popped := redis.Blpop(queues);
      state := Do(state, Act(0));
    }

    method PopOpponent(key: QueueKey, first: Ticket) returns (second: Option<Ticket>)
      requires In(Popped(key, first))
      modifies redis, `state
      ensures state == Do(old(state), Act(0))
      ensures if second == None then In(Waiting(key, first)) else In(Paired(key, first, second.value))
    {
      second := redis.Lpop(key);
      state := Do(state, Act(0));
    }

    /** Block on the one queue. */
    method AwaitOpponent(key: QueueKey, first: Ticket) returns (second: Option<Ticket>)
      requires In(Waiting(key, first))
      modifies redis, `state
      ensures state == Do(old(state), Act(0))
      ensures if second == None then In(TimedOut(key, first)) else In(Paired(key, first, second.value))
    {
      var popped := redis.Blpop([key]);
      second := if popped.Some? then Some(popped.value.1) else None;
      state := Do(state, Act(0));
    }

    /** Push the ticket back to the head, and rotate the queue to the end. */
    method GiveBack(key: QueueKey, first: Ticket)
      requires In(TimedOut(key, first))
      modifies redis, `state, `queues
      ensures state == Do(old(state), Act(0)) && In(Idle)
    {
      redis.Lpush(key, first);
      RotateKey(key);
      state := Do(state, Act(0));
    }

    method CreateMatch(key: QueueKey, first: Ticket, second: Ticket)
      requires In(Paired(key, first, second))
      modifies `state, `matches
      ensures state == Do(old(state), Act(0)) && In(Idle)
      ensures matches == old(matches) + [Match(key, first, second)]
    {
      matches := matches + [Match(key, first, second)];
      state := Do(state, Act(0));
    }

    /** One pass through the loop, with what others do before each of its commands. */
    method Poll(outside: Pass)
      requires In(Idle) && outside.Valid()
      modifies this, redis
      ensures In(Idle) && state == AfterPass(old(state), outside)
    {
      hide Do, Run;
      Others(outside.blocking);
      var popped := PopAny();
      if popped.None? {
        return;
      }
      var (key, first) := popped.value;
      Others(outside.popping);
      var second := PopOpponent(key, first);
      if second.None? {
        Others(outside.waiting);
        second := AwaitOpponent(key, first);
        if second.None? {
          Others(outside.last);
          GiveBack(key, first);
          return;
        }
      }
      Others(outside.last);
      CreateMatch(key, first, second.value);
    }

    /** The worker's loop, for as many passes as it runs. */
    method ProcessQueues(outside: seq<Pass>)
      requires In(Idle) && forall i :: 0 <= i < |outside| ==> outside[i].Valid()
      modifies this, redis
      ensures In(Idle) && state == AfterPasses(old(state), outside)
      ensures old(state) == Init([old(queues)]) ==> forall key :: Fifo(state, key)
    {
      var clock := 0;
      while clock < |outside|
        invariant clock <= |outside| && In(Idle) && state == AfterPasses(old(state), outside[..clock])
      {
        Poll(outside[clock]);
        assert outside[..clock + 1][..clock] == outside[..clock];
        clock := clock + 1;
      }
      assert outside[..|outside|] == outside;
      if old(state) == Init([old(queues)]) {
        forall key
          ensures Fifo(state, key)
        {
          LoopIsFifo(old(queues), outside, key);
        }
      }
    }
  }

  // ---------------------------------------------------------------------------------------------
  // The loop as a run of the step system
  // ---------------------------------------------------------------------------------------------

  /** The steps of one pass in their order: each command of the worker after what others did before it. */
  function PassTrace(s: State, p: Pass): seq<Label> {
    var a := Command(s, p.blocking);
    var first := p.blocking + [Act(0)];
    if PhaseOf(a) == Idle then first else
      var b := Command(a, p.popping);
      first + p.popping + [Act(0)] + (if PhaseOf(b).Waiting? then p.waiting + [Act(0)] else []) + p.last + [Act(0)]
  }

  function LoopTrace(s: State, passes: seq<Pass>): seq<Label> {
    if passes == [] then [] else
      var front := passes[..|passes| - 1];
      LoopTrace(s, front) + PassTrace(AfterPasses(s, front), passes[|passes| - 1])
  }

  /** What others did during a pass, up to its last command. */
  function SeenInPass(s: State, p: Pass): seq<Label> {
    var a := Command(s, p.blocking);
    if PhaseOf(a) == Idle then p.blocking else
      p.blocking + p.popping + (if PhaseOf(Command(a, p.popping)).Waiting? then p.waiting else []) + p.last
  }

  function Seen(s: State, passes: seq<Pass>): seq<Label> {
    if passes == [] then [] else
      var front := passes[..|passes| - 1];
      Seen(s, front) + SeenInPass(AfterPasses(s, front), passes[|passes| - 1])
  }

  /** The steps of a run that are not the worker's. */
  function Outside(labels: seq<Label>): seq<Label> {
    if labels == [] then [] else
      var last := labels[|labels| - 1];
      Outside(labels[..|labels| - 1]) + if last == Act(0) then [] else [last]
  }

  lemma {:induction false} OutsideConcat(a: seq<Label>, b: seq<Label>)
    ensures Outside(a + b) == Outside(a) + Outside(b)
  {
    if b == [] {
      assert a + b == a;
    } else {
      assert (a + b)[..|a + b| - 1] == a + b[..|b| - 1];
      OutsideConcat(a, b[..|b| - 1]);
    }
  }

  lemma {:induction false} AllOutside(labels: seq<Label>)
    requires FromOutside(labels)
    ensures Outside(labels) == labels
  {
    if labels != [] {
      AllOutside(labels[..|labels| - 1]);
      assert labels == labels[..|labels| - 1] + [labels[|labels| - 1]];
    }
  }

  lemma ThenCommand(labels: seq<Label>, outside: seq<Label>)
    requires FromOutside(outside)
    ensures Outside(labels + outside + [Act(0)]) == Outside(labels) + outside
  {
    OutsideConcat(labels, outside);
    AllOutside(outside);
    assert (labels + outside + [Act(0)])[..|labels + outside|] == labels + outside;
  }

  lemma PassIsRun(s: State, p: Pass)
    ensures Run(s, PassTrace(s, p)) == AfterPass(s, p)
  {
    hide Do;
    RunStep(s, p.blocking, Act(0));
    hide Run;
    var a := Command(s, p.blocking);
    if PhaseOf(a) != Idle {
      var trace := p.blocking + [Act(0)];
      Extend(s, trace, p.popping);
      trace := trace + p.popping + [Act(0)];
      var b := Command(a, p.popping);
      if PhaseOf(b).Waiting? {
        Extend(s, trace, p.waiting);
        assert trace + p.waiting + [Act(0)] == trace + (p.waiting + [Act(0)]);
        trace := trace + p.waiting + [Act(0)];
      } else {
        assert trace + [] == trace;
      }
      Extend(s, trace, p.last);
    }
  }

  lemma PassKeepsOthers(s: State, p: Pass)
    requires p.Valid()
    ensures Outside(PassTrace(s, p)) == SeenInPass(s, p)
  {
    hide Command;
    ThenCommand([], p.blocking);
    assert [] + p.blocking == p.blocking;
    var a := Command(s, p.blocking);
    if PhaseOf(a) != Idle {
      var trace := p.blocking + [Act(0)];
      ThenCommand(trace, p.popping);
      trace := trace + p.popping + [Act(0)];
      if PhaseOf(Command(a, p.popping)).Waiting? {
        ThenCommand(trace, p.waiting);
        assert trace + p.waiting + [Act(0)] == trace + (p.waiting + [Act(0)]);
        trace := trace + p.waiting + [Act(0)];
      } else {
        assert trace + [] == trace;
      }
      ThenCommand(trace, p.last);
      hide Outside;
    }
  }

  /**
   * The loop is a run of the step system: the worker's commands with exactly what others did before each of
   * them, in order, lead to the same state. So the laws of all runs hold of the loop.
   */
  lemma {:induction false} LoopIsRun(s: State, passes: seq<Pass>)
    requires forall i :: 0 <= i < |passes| ==> passes[i].Valid()
    ensures Run(s, LoopTrace(s, passes)) == AfterPasses(s, passes)
    ensures Outside(LoopTrace(s, passes)) == Seen(s, passes)
  {
    hide Do, AfterPass, PassTrace, SeenInPass;
    if passes != [] {
      var front, last := passes[..|passes| - 1], passes[|passes| - 1];
      LoopIsRun(s, front);
      var t := AfterPasses(s, front);
      PassIsRun(t, last);
      PassKeepsOthers(t, last);
      RunConcat(s, LoopTrace(s, front), PassTrace(t, last));
      OutsideConcat(LoopTrace(s, front), PassTrace(t, last));
      hide Run, Outside;
    }
  }

  /** What others do, and then one command, extends a run. */
  lemma Extend(s: State, trace: seq<Label>, outside: seq<Label>)
    ensures Run(s, trace + outside + [Act(0)]) == Command(Run(s, trace), outside)
  {
    RunConcat(s, trace, outside);
    RunStep(s, trace + outside, Act(0));
  }

  /** So the loop of a worker that runs alone matches the tickets of every queue in the order of arrival. */
  lemma LoopIsFifo(queues: seq<QueueKey>, passes: seq<Pass>, key: QueueKey)
    requires forall i :: 0 <= i < |passes| ==> passes[i].Valid()
    ensures var s := AfterPasses(Init([queues]), passes);
            InOrder(s, 0, key) && Fifo(s, key)
  {
    LoopIsRun(Init([queues]), passes);
    FirstInFirstOut([queues], 0, LoopTrace(Init([queues]), passes), key);
    OneServerFifo([queues], LoopTrace(Init([queues]), passes), key);
  }

  // ---------------------------------------------------------------------------------------------
  // Which tickets the worker serves
  // ---------------------------------------------------------------------------------------------

  /** Of all the queues a ticket can be accepted into, the worker serves exactly one: dice, bronze. */
  lemma OnlyBronzeDiceServed(gameType: string, tier: string)
    requires gameType in GAME_TYPES && tier in TIERS
    ensures KeyOf(gameType, tier) in WORKER_QUEUES <==> gameType == "dice" && tier == "bronze"
  {
    var key := KeyOf(gameType, tier);
    if gameType != "dice" {
      assert key[6] == gameType[0] && WORKER_QUEUES[0][6] == 'd' && WORKER_QUEUES[1][6] == 'd';
    } else if tier != "bronze" {
      assert key[11] == tier[0] && WORKER_QUEUES[0][11] == 's' && WORKER_QUEUES[1][11] == 'b';
      if tier == "silver" {
        assert |key| != |WORKER_QUEUES[0]|;
      }
    } else {
      assert key == WORKER_QUEUES[1];
    }
  }
}
