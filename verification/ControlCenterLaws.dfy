/** Default uniqueness, and agreement of the cache with the persisted states up to the queue. */
module ControlCenterLaws {
  import opened Collections
  import opened ControlCenter

  // ---------------------------------------------------------------------------------------------
  // Scopes
  // ---------------------------------------------------------------------------------------------

  lemma {:induction false} PrefixOfKey(key: Key)
    ensures Prefix(key) <= key && (':' !in key ==> Prefix(key) == "")
    ensures ':' in key ==>
      |Prefix(key)| > 0 && Prefix(key)[|Prefix(key)| - 1] == ':' && ':' !in Prefix(key)[..|Prefix(key)| - 1]
  {
    if ':' in key && key[0] != ':' {
      assert key == [key[0]] + key[1..];
      PrefixOfKey(key[1..]);
      var p := Prefix(key[1..]);
      assert Prefix(key)[..|Prefix(key)| - 1] == [key[0]] + p[..|p| - 1];
    }
  }

  /** A prefix with one colon, at its end, starts a key exactly if it is the key's own prefix. */
  lemma {:induction false} StartsWithIsPrefix(p: Key, key: Key)
    requires |p| > 0 && p[|p| - 1] == ':' && ':' !in p[..|p| - 1]
    ensures p <= key <==> Prefix(key) == p
  {
    PrefixOfKey(key);
    if p <= key {
      assert key[|p| - 1] == ':';
      if |p| == 1 {
        assert key[0] == ':';
      } else {
        assert p[0] == p[..|p| - 1][0];
        assert key[0] == p[0] != ':';
        assert key == [key[0]] + key[1..];
        var q := p[1..];
        assert q[..|q| - 1] == p[..|p| - 1][1..];
        assert q <= key[1..];
        StartsWithIsPrefix(q, key[1..]);
        assert p == [p[0]] + q;
      }
    }
  }

  ghost predicate Homogeneous(m: Providers) {
    (forall k :: k in m ==> ':' in k) || (forall k :: k in m ==> ':' !in k)
  }

  /** At most one default in each scope, the unscoped keys being one scope. */
  ghost predicate Unique(m: Providers) {
    forall k, l :: k in m && l in m && k != l && m[k].isDefault && m[l].isDefault ==> Prefix(k) != Prefix(l)
  }

  lemma ClearsIsSameScope(m: Providers, key: Key, k: Key)
    requires Homogeneous(m) && key in m && k in m
    ensures Clears(key, k) <==> Prefix(key) == Prefix(k)
  {
    PrefixOfKey(key);
    if ':' in key {
      StartsWithIsPrefix(Prefix(key), k);
    }
  }

  // ---------------------------------------------------------------------------------------------
  // One operation
  // ---------------------------------------------------------------------------------------------

  datatype Op = ToggleOp(key: Key, enabled: bool) | DefaultOp(key: Key)

  /** The cached states after an operation; an unknown key throws and changes nothing. */
  function Cached(m: Providers, op: Op): Providers {
    if op.key !in m then m else
      match op
      case ToggleOp(key, enabled) => Toggle(m, key, enabled)
      case DefaultOp(key) => SetDefault(m, key)
  }

  /** The update it queues carries the key's new state. */
  function Queued(m: Providers, op: Op): seq<Job> {
    if op.key !in m then [] else [UpdateState(op.key, Cached(m, op)[op.key])]
  }

  /** Keys of one scope clear each other, whatever other keys the domain has. */
  lemma SameScopeClears(key: Key, k: Key)
    ensures Prefix(key) == Prefix(k) ==> Clears(key, k)
  {
    PrefixOfKey(k);
  }

  lemma ClearsExactly(key: Key, k: Key)
    ensures Clears(key, k) <==> ':' !in key || Prefix(k) == Prefix(key)
  {
    PrefixOfKey(key);
    if ':' in key {
      StartsWithIsPrefix(Prefix(key), k);
    }
  }

  /** The same provider, no longer a default if it was one. */
  function NotDefault(s: ProviderState): ProviderState {
    ProviderState(s.enabled, false, s.status)
  }

  /**
   * An operation changes only what it is about: a toggle its key's `enabled`, a new default the `isDefault` of its
   * key and of the other keys of its scope, which for an unscoped key are all keys.
   */
  lemma OpTouchesItsScope(m: Providers, op: Op, k: Key)
    requires op.key in m && k in m
    ensures k in Cached(m, op)
    ensures var after := Cached(m, op)[k];
            match op
            case ToggleOp(key, enabled) =>
              after == if k == key then ProviderState(enabled, m[k].isDefault, m[k].status) else m[k]
            case DefaultOp(key) =>
              after == if k == key then ProviderState(m[k].enabled, true, m[k].status)
                       else if ':' !in key || Prefix(k) == Prefix(key) then NotDefault(m[k]) else m[k]
  {
    ClearsExactly(op.key, k);
    hide Prefix, Clears;
  }

  /** An executed update stores its state, and unsets the other keys of the scope exactly if it sets a default. */
  lemma JobTouchesItsScope(m: Providers, job: Job, k: Key)
    requires k in m
    ensures ApplyJob(m, job).Keys == m.Keys + {job.key} && ApplyJob(m, job)[job.key] == job.state
    ensures k != job.key ==>
      ApplyJob(m, job)[k] ==
        if job.state.isDefault && (':' !in job.key || Prefix(k) == Prefix(job.key)) then NotDefault(m[k]) else m[k]
  {
    ClearsExactly(job.key, k);
    hide Prefix, Clears;
  }

  /** An operation keeps the keys, and at most one default in each scope. */
  lemma OpKeepsUnique(m: Providers, op: Op)
    requires Unique(m)
    ensures Unique(Cached(m, op)) && Cached(m, op).Keys == m.Keys
    ensures Homogeneous(m) ==> Homogeneous(Cached(m, op))
  {
    if op.DefaultOp? && op.key in m {
      var r := SetDefault(m, op.key);
      assert r.Keys == m.Keys;
      forall k | k in m
        ensures Prefix(op.key) == Prefix(k) ==> Clears(op.key, k)
      {
        SameScopeClears(op.key, k);
      }
      hide Prefix, Clears;
    }
  }

  lemma DefaultJobReproduces(m: Providers, key: Key)
    requires Homogeneous(m) && key in m
    ensures ApplyJob(m, UpdateState(key, SetDefault(m, key)[key])) == SetDefault(m, key)
  {
    hide Clears, Homogeneous;
  }

  lemma ToggleJobReproduces(m: Providers, key: Key, enabled: bool)
    requires Unique(m) && key in m
    requires forall k :: k in m ==> (Clears(key, k) <==> Prefix(key) == Prefix(k))
    ensures ApplyJob(m, UpdateState(key, Toggle(m, key, enabled)[key])) == Toggle(m, key, enabled)
  {
    hide Prefix, Clears;
  }

  /** Applying the queued update to the old cached states gives the new cached states. */
  lemma JobReproducesOp(m: Providers, op: Op)
    requires Homogeneous(m) && Unique(m)
    ensures Replay(m, Queued(m, op)) == Cached(m, op)
  {
    if op.key in m {
      var job := UpdateState(op.key, Cached(m, op)[op.key]);
      assert Queued(m, op)[..0] == [];
      assert Replay(m, [job]) == ApplyJob(m, job);
      forall k | k in m
        ensures Clears(op.key, k) <==> Prefix(op.key) == Prefix(k)
      {
        ClearsIsSameScope(m, op.key, k);
      }
      match op {
        case ToggleOp(key, enabled) => ToggleJobReproduces(m, key, enabled);
        case DefaultOp(key) => DefaultJobReproduces(m, key);
      }
      hide Prefix, Clears, Homogeneous, Unique, Replay, Queued, ApplyJob, Toggle, SetDefault;
    }
  }

  /** An executed update, even for a key that is not stored, keeps at most one default in each scope. */
  lemma JobKeepsUnique(m: Providers, job: Job)
    requires Unique(m)
    ensures var r := ApplyJob(m, job);
            Unique(r) && r.Keys == m.Keys + {job.key} && (Homogeneous(m) && job.key in m ==> Homogeneous(r))
  {
    forall k | k in m
      ensures Prefix(job.key) == Prefix(k) ==> Clears(job.key, k)
    {
      SameScopeClears(job.key, k);
    }
    hide Prefix, Clears;
  }

  lemma {:induction false} ReplayConcat(m: Providers, a: seq<Job>, b: seq<Job>)
    ensures Replay(m, a + b) == Replay(Replay(m, a), b)
  {
    if b == [] {
      assert a + b == a;
    } else {
      assert (a + b)[..|a + b| - 1] == a + b[..|b| - 1];
      ReplayConcat(m, a, b[..|b| - 1]);
    }
  }

  // ---------------------------------------------------------------------------------------------
  // All domains, with the queue
  // ---------------------------------------------------------------------------------------------

  type Domain = string

  datatype State = State(cache: map<Domain, Providers>, persisted: map<Domain, Providers>, queue: seq<(Domain, Job)>)

  datatype Label = Operate(domain: Domain, op: Op) | Lookup(domain: Domain) | RunJob

  /** A domain that is not cached is loaded from the store; one that does not exist is not found. */
  function Load(s: State, domain: Domain): State {
    if domain in s.cache || domain !in s.persisted then s
    else s.(cache := s.cache[domain := s.persisted[domain]])
  }

  function Tagged(domain: Domain, jobs: seq<Job>): seq<(Domain, Job)> {
    seq(|jobs|, i requires 0 <= i < |jobs| => (domain, jobs[i]))
  }

  function Do(s: State, step: Label): State {
    match step
    case Lookup(domain) => Load(s, domain)
    case Operate(domain, op) =>
      var t := Load(s, domain);
      if domain !in t.cache then t else
        t.(cache := t.cache[domain := Cached(t.cache[domain], op)],
           queue := t.queue + Tagged(domain, Queued(t.cache[domain], op)))
    case RunJob =>
      if s.queue == [] then s else
        var (domain, job) := s.queue[0];
        if domain !in s.persisted then s.(queue := s.queue[1..])
        else s.(queue := s.queue[1..], persisted := s.persisted[domain := ApplyJob(s.persisted[domain], job)])
  }

  function Run(s: State, labels: seq<Label>): State {
    if labels == [] then s else Do(Run(s, labels[..|labels| - 1]), labels[|labels| - 1])
  }

  /** The pending updates of one domain, in order. */
  function JobsOf(queue: seq<(Domain, Job)>, domain: Domain): seq<Job> {
    if queue == [] then [] else
      JobsOf(queue[..|queue| - 1], domain) + if queue[|queue| - 1].0 == domain then [queue[|queue| - 1].1] else []
  }

  lemma {:induction false} JobsOfConcat(a: seq<(Domain, Job)>, b: seq<(Domain, Job)>, domain: Domain)
    ensures JobsOf(a + b, domain) == JobsOf(a, domain) + JobsOf(b, domain)
  {
    if b == [] {
      assert a + b == a;
    } else {
      assert (a + b)[..|a + b| - 1] == a + b[..|b| - 1];
      JobsOfConcat(a, b[..|b| - 1], domain);
    }
  }

  ghost predicate Good(m: Providers) {
    Homogeneous(m) && Unique(m)
  }

  /** The pending updates of a domain are for stored keys. */
  ghost predicate ForStoredKeys(queue: seq<(Domain, Job)>, domain: Domain, m: Providers) {
    forall i :: 0 <= i < |queue| && queue[i].0 == domain ==> queue[i].1.key in m
  }

  /** Replaying the domain's pending updates over its persisted states yields its cached states. */
  ghost predicate Agrees(s: State, domain: Domain) {
    && domain in s.persisted
    && Good(s.persisted[domain])
    && ForStoredKeys(s.queue, domain, s.persisted[domain])
    && if domain in s.cache
       then Good(s.cache[domain]) && s.cache[domain].Keys == s.persisted[domain].Keys &&
            Replay(s.persisted[domain], JobsOf(s.queue, domain)) == s.cache[domain]
       else JobsOf(s.queue, domain) == []
  }

  lemma LoadAgrees(s: State, other: Domain, domain: Domain)
    requires Agrees(s, domain)
    ensures Agrees(Load(s, other), domain)
  {
  }

  lemma OperateAgrees(s: State, op: Op, domain: Domain)
    requires Agrees(s, domain) && domain in s.cache
    ensures Agrees(Do(s, Operate(domain, op)), domain)
  {
    var m := s.cache[domain];
    var jobs := Queued(m, op);
    OpKeepsUnique(m, op);
    JobReproducesOp(m, op);
    JobsOfConcat(s.queue, Tagged(domain, jobs), domain);
    TaggedJobs(domain, jobs);
    ReplayConcat(s.persisted[domain], JobsOf(s.queue, domain), jobs);
    assert forall j :: j in jobs ==> j.key in m;
    StoredKeysOwn(s.queue, jobs, domain, s.persisted[domain]);
    hide Replay, JobsOf, Good, Cached, Queued, Tagged, ForStoredKeys;
  }

  lemma StoredKeysOwn(queue: seq<(Domain, Job)>, jobs: seq<Job>, domain: Domain, m: Providers)
    requires ForStoredKeys(queue, domain, m) && forall j :: j in jobs ==> j.key in m
    ensures ForStoredKeys(queue + Tagged(domain, jobs), domain, m)
  {
    var tagged := Tagged(domain, jobs);
    assert forall i :: 0 <= i < |tagged| ==> tagged[i].1 in jobs;
    hide Tagged;
  }

  /** A step that changes neither the domain's states nor its pending updates keeps the agreement. */
  lemma UntouchedAgrees(s: State, r: State, domain: Domain)
    requires Agrees(s, domain) && domain in r.persisted && r.persisted[domain] == s.persisted[domain]
    requires (domain in r.cache <==> domain in s.cache) && (domain in s.cache ==> r.cache[domain] == s.cache[domain])
    requires JobsOf(r.queue, domain) == JobsOf(s.queue, domain)
    requires ForStoredKeys(r.queue, domain, s.persisted[domain])
    ensures Agrees(r, domain)
  {
    hide Replay, JobsOf, Good, ForStoredKeys;
  }

  lemma StoredKeysElsewhere(queue: seq<(Domain, Job)>, other: Domain, jobs: seq<Job>, domain: Domain, m: Providers)
    requires ForStoredKeys(queue, domain, m) && other != domain
    ensures ForStoredKeys(queue + Tagged(other, jobs), domain, m)
  {
    var tagged := Tagged(other, jobs);
    assert forall i :: 0 <= i < |tagged| ==> tagged[i].0 == other;
    hide Tagged;
  }

  lemma OperateElsewhereAgrees(s: State, other: Domain, op: Op, domain: Domain)
    requires Agrees(s, domain) && other in s.cache && other != domain
    ensures Agrees(Do(s, Operate(other, op)), domain)
  {
    var jobs := Queued(s.cache[other], op);
    var tagged := Tagged(other, jobs);
    JobsOfConcat(s.queue, tagged, domain);
    TaggedJobs(other, jobs);
    var r := Do(s, Operate(other, op));
    assert r.queue == s.queue + tagged;
    StoredKeysElsewhere(s.queue, other, jobs, domain, s.persisted[domain]);
    assert JobsOf(s.queue, domain) + [] == JobsOf(s.queue, domain);
    hide Replay, JobsOf, Good, Cached, Queued, Agrees, Tagged, ForStoredKeys;
    UntouchedAgrees(s, r, domain);
  }

  lemma TaggedJobs(domain: Domain, jobs: seq<Job>)
    requires |jobs| <= 1
    ensures JobsOf(Tagged(domain, jobs), domain) == jobs
    ensures forall d :: d != domain ==> JobsOf(Tagged(domain, jobs), d) == []
  {
    if |jobs| == 1 {
      assert Tagged(domain, jobs)[..0] == [];
    }
  }

  lemma RunJobAgrees(s: State, domain: Domain)
    requires Agrees(s, domain) && s.queue != []
    ensures Agrees(Do(s, RunJob), domain)
  {
    var rest := s.queue[1..];
    assert s.queue == [s.queue[0]] + rest;
    JobsOfConcat([s.queue[0]], rest, domain);
    assert [s.queue[0]][..0] == [];
    if s.queue[0].0 == domain {
      var job := s.queue[0].1;
      assert JobsOf([s.queue[0]], domain) == [job];
      ReplayConcat(s.persisted[domain], [job], JobsOf(rest, domain));
      assert [job][..0] == [] && Replay(s.persisted[domain], [job]) == ApplyJob(s.persisted[domain], job);
      JobKeepsUnique(s.persisted[domain], job);
      hide ApplyJob, Replay, Unique, Homogeneous, JobsOf;
    } else {
      assert JobsOf([s.queue[0]], domain) == [];
      assert [] + JobsOf(rest, domain) == JobsOf(rest, domain);
      hide ApplyJob, Replay, Unique, Homogeneous, JobsOf;
    }
  }

  lemma StepAgrees(s: State, step: Label, domain: Domain)
    requires Agrees(s, domain)
    ensures Agrees(Do(s, step), domain)
  {
    match step
    case Lookup(other) => LoadAgrees(s, other, domain);
    case RunJob =>
      if s.queue != [] {
        RunJobAgrees(s, domain);
      }
    case Operate(other, op) =>
      LoadAgrees(s, other, domain);
      var t := Load(s, other);
      if other == domain {
        OperateAgrees(t, op, domain);
      } else if other in t.cache {
        OperateElsewhereAgrees(t, other, op, domain);
      }
  }

  /**
   * For a domain whose keys are all scoped or all unscoped, starting with at most one default in each
   * scope: after any sequence of toggles, default changes, lookups and executed updates, replaying the
   * pending updates over the persisted states yields the cached states. So an empty queue means equality,
   * and the cache never has two defaults in one scope.
   */
  lemma {:induction false} CacheAgreesUpToQueue(s: State, labels: seq<Label>, domain: Domain)
    requires s.queue == [] && domain in s.persisted && Good(s.persisted[domain])
    requires domain in s.cache ==> s.cache[domain] == s.persisted[domain]
    ensures Agrees(Run(s, labels), domain)
    ensures var r := Run(s, labels);
            r.queue == [] && domain in r.cache ==> r.persisted[domain] == r.cache[domain]
  {
    if labels != [] {
      CacheAgreesUpToQueue(s, labels[..|labels| - 1], domain);
      StepAgrees(Run(s, labels[..|labels| - 1]), labels[|labels| - 1], domain);
    }
  }

  // ---------------------------------------------------------------------------------------------
  // At most one default, over every run
  // ---------------------------------------------------------------------------------------------

  ghost predicate UniqueIn(all: map<Domain, Providers>, domain: Domain) {
    domain in all ==> Unique(all[domain])
  }

  lemma StepKeepsUnique(s: State, step: Label, domain: Domain)
    requires UniqueIn(s.cache, domain) && UniqueIn(s.persisted, domain)
    ensures var r := Do(s, step);
            UniqueIn(r.cache, domain) && UniqueIn(r.persisted, domain)
  {
    match step
    case Lookup(other) => hide Unique;
    case RunJob =>
      if s.queue != [] && s.queue[0].0 == domain && domain in s.persisted {
        JobKeepsUnique(s.persisted[domain], s.queue[0].1);
      }
      hide Unique, ApplyJob;
    case Operate(other, op) =>
      var t := Load(s, other);
      if other == domain && domain in t.cache {
        OpKeepsUnique(t.cache[domain], op);
      }
      hide Unique, Cached, Queued, Tagged;
  }

  /**
   * Whatever keys a domain mixes and whatever updates are pending: if its stored and its cached states have
   * at most one default in each scope, both still do after any sequence of operations and executed updates.
   */
  lemma {:induction false} RunKeepsUnique(s: State, labels: seq<Label>, domain: Domain)
    requires UniqueIn(s.cache, domain) && UniqueIn(s.persisted, domain)
    ensures var r := Run(s, labels);
            UniqueIn(r.cache, domain) && UniqueIn(r.persisted, domain)
  {
    if labels != [] {
      RunKeepsUnique(s, labels[..|labels| - 1], domain);
      StepKeepsUnique(Run(s, labels[..|labels| - 1]), labels[|labels| - 1], domain);
    }
  }

  // ---------------------------------------------------------------------------------------------
  // Exactly when the agreement holds
  // ---------------------------------------------------------------------------------------------

  /** The agreement alone: what the store becomes once the pending updates are applied is what is cached. */
  ghost predicate InStep(s: State, domain: Domain) {
    && domain in s.persisted && domain in s.cache
    && Replay(s.persisted[domain], JobsOf(s.queue, domain)) == s.cache[domain]
  }

  lemma OperateDoes(s: State, op: Op, domain: Domain)
    requires domain in s.cache
    ensures var r := Do(s, Operate(domain, op));
            r.persisted == s.persisted && domain in r.cache && r.cache[domain] == Cached(s.cache[domain], op) &&
            JobsOf(r.queue, domain) == JobsOf(s.queue, domain) + Queued(s.cache[domain], op)
  {
    var jobs := Queued(s.cache[domain], op);
    JobsOfConcat(s.queue, Tagged(domain, jobs), domain);
    TaggedJobs(domain, jobs);
    hide JobsOf, Cached, Queued;
  }

  lemma RunExtends(s: State, labels: seq<Label>, step: Label)
    ensures Run(s, labels + [step]) == Do(Run(s, labels), step)
  {
    assert (labels + [step])[..|labels + [step]| - 1] == labels;
  }

  function CachedAll(m: Providers, ops: seq<Op>): Providers {
    if ops == [] then m else Cached(CachedAll(m, ops[..|ops| - 1]), ops[|ops| - 1])
  }

  function QueuedAll(m: Providers, ops: seq<Op>): seq<Job> {
    if ops == [] then [] else
      QueuedAll(m, ops[..|ops| - 1]) + Queued(CachedAll(m, ops[..|ops| - 1]), ops[|ops| - 1])
  }

  function Operations(domain: Domain, ops: seq<Op>): seq<Label> {
    seq(|ops|, i requires 0 <= i < |ops| => Operate(domain, ops[i]))
  }

  lemma AllExtends(m: Providers, ops: seq<Op>, op: Op)
    ensures CachedAll(m, ops + [op]) == Cached(CachedAll(m, ops), op)
    ensures QueuedAll(m, ops + [op]) == QueuedAll(m, ops) + Queued(CachedAll(m, ops), op)
  {
    assert (ops + [op])[..|ops + [op]| - 1] == ops;
  }

  lemma OperationsExtend(domain: Domain, ops: seq<Op>, op: Op)
    ensures Operations(domain, ops + [op]) == Operations(domain, ops) + [Operate(domain, op)]
  {
  }

  lemma {:induction false} RunOperations(s: State, domain: Domain, ops: seq<Op>)
    requires s.queue == [] && domain in s.cache
    ensures var r := Run(s, Operations(domain, ops));
            r.persisted == s.persisted && domain in r.cache && r.cache[domain] == CachedAll(s.cache[domain], ops) &&
            JobsOf(r.queue, domain) == QueuedAll(s.cache[domain], ops)
  {
    if ops == [] {
      assert Operations(domain, ops) == [];
    } else {
      var front, last := ops[..|ops| - 1], ops[|ops| - 1];
      RunOperations(s, domain, front);
      assert ops == front + [last];
      hide *;
      OperationsExtend(domain, front, last);
      RunExtends(s, Operations(domain, front), Operate(domain, last));
      OperateDoes(Run(s, Operations(domain, front)), last, domain);
      AllExtends(s.cache[domain], front, last);
    }
  }

  lemma ReplayOne(m: Providers, job: Job)
    ensures Replay(m, [job]) == ApplyJob(m, job)
  {
    assert [job][..0] == [];
  }

  lemma ReplayThree(m: Providers, a: Job, b: Job, c: Job)
    ensures Replay(m, [a, b, c]) == ApplyJob(ApplyJob(ApplyJob(m, a), b), c)
  {
    JoinThree(a, b, c);
    ReplayConcat(m, [a, b], [c]);
    ReplayConcat(m, [a], [b]);
    ReplayOne(m, a);
    ReplayOne(ApplyJob(m, a), b);
    ReplayOne(ApplyJob(ApplyJob(m, a), b), c);
  }

  lemma OneOperation(m: Providers, op: Op)
    ensures CachedAll(m, [op]) == Cached(m, op) && QueuedAll(m, [op]) == Queued(m, op)
  {
    assert [op][..0] == [];
    assert [] + Queued(m, op) == Queued(m, op);
  }

  lemma DefaultJobUnsets(m: Providers, k: Key, l: Key, state: ProviderState)
    requires l in m && k != l && state.isDefault && Prefix(k) == Prefix(l)
    ensures !ApplyJob(m, UpdateState(k, state))[l].isDefault
  {
    PrefixOfKey(l);
    hide Prefix;
  }

  /** Toggling one of two defaults of a scope stores the other one as unset, but leaves it cached as set. */
  lemma TwoDefaultsFallOut(m: Providers, k: Key, l: Key)
    requires k in m && l in m && k != l && m[k].isDefault && m[l].isDefault && Prefix(k) == Prefix(l)
    ensures var ops := [ToggleOp(k, m[k].enabled)];
            Replay(m, QueuedAll(m, ops)) != CachedAll(m, ops)
  {
    var op := ToggleOp(k, m[k].enabled);
    var c := Toggle(m, k, m[k].enabled);
    assert Cached(m, op) == c && c[l].isDefault && c[k].isDefault;
    assert Queued(m, op) == [UpdateState(k, c[k])];
    DefaultJobUnsets(m, k, l, c[k]);
    OneOperation(m, op);
    ReplayOne(m, UpdateState(k, c[k]));
    hide *;
  }

  /** The three operations that make an unscoped and a scoped key disagree. */
  function Mix(m: Providers, u: Key, s: Key): seq<Op>
    requires u in m
  {
    [DefaultOp(u), DefaultOp(s), ToggleOp(u, m[u].enabled)]
  }

  lemma DefaultDoes(m: Providers, k: Key)
    requires k in m
    ensures Cached(m, DefaultOp(k)) == SetDefault(m, k)
    ensures Queued(m, DefaultOp(k)) == [UpdateState(k, SetDefault(m, k)[k])]
  {
    hide SetDefault;
  }

  lemma ToggleDoes(m: Providers, k: Key, enabled: bool)
    requires k in m
    ensures Cached(m, ToggleOp(k, enabled)) == Toggle(m, k, enabled)
    ensures Queued(m, ToggleOp(k, enabled)) == [UpdateState(k, Toggle(m, k, enabled)[k])]
  {
    hide Toggle;
  }

  lemma JoinThree<T>(x: T, y: T, z: T)
    ensures [x] + [y] + [z] == [x, y, z] && [x] + [y] == [x, y] && [x, y] + [z] == [x, y, z]
  {
  }

  lemma ThreeOperations(m: Providers, x: Op, y: Op, z: Op)
    ensures var a := Cached(m, x);
            var b := Cached(a, y);
            CachedAll(m, [x, y, z]) == Cached(b, z) &&
            QueuedAll(m, [x, y, z]) == Queued(m, x) + Queued(a, y) + Queued(b, z)
  {
    hide *;
    OneOperation(m, x);
    AllExtends(m, [x], y);
    AllExtends(m, [x, y], z);
    JoinThree(x, y, z);
  }

  lemma MixRuns(m: Providers, u: Key, s: Key)
    requires u in m && s in m
    ensures var a := SetDefault(m, u);
            var b := SetDefault(a, s);
            var c := Toggle(b, u, m[u].enabled);
            CachedAll(m, Mix(m, u, s)) == c &&
            QueuedAll(m, Mix(m, u, s)) == [UpdateState(u, a[u])] + [UpdateState(s, b[s])] + [UpdateState(u, c[u])]
  {
    ThreeOperations(m, DefaultOp(u), DefaultOp(s), ToggleOp(u, m[u].enabled));
    DefaultDoes(m, u);
    var a := SetDefault(m, u);
    DefaultDoes(a, s);
    var b := SetDefault(a, s);
    ToggleDoes(b, u, m[u].enabled);
    assert Mix(m, u, s) == [DefaultOp(u), DefaultOp(s), ToggleOp(u, m[u].enabled)];
    hide *;
  }

  /** The unscoped key is stored as the only default, while the scoped one stays cached as a default too. */
  lemma MixedKeysFallOut(m: Providers, u: Key, s: Key)
    requires u in m && s in m && ':' !in u && ':' in s
    ensures Replay(m, QueuedAll(m, Mix(m, u, s))) != CachedAll(m, Mix(m, u, s))
  {
    MixRuns(m, u, s);
    var a := SetDefault(m, u);
    var b := SetDefault(a, s);
    PrefixOfKey(s);
    var p := Prefix(s);
    StartsWithIsPrefix(p, u);
    var c := Toggle(b, u, m[u].enabled);
    assert b[s].isDefault && c[s].isDefault && c[u].isDefault;
    ReplayThree(m, UpdateState(u, a[u]), UpdateState(s, b[s]), UpdateState(u, c[u]));
    JoinThree(UpdateState(u, a[u]), UpdateState(s, b[s]), UpdateState(u, c[u]));
    var n := ApplyJob(ApplyJob(m, UpdateState(u, a[u])), UpdateState(s, b[s]));
    hide Replay, CachedAll, QueuedAll, Mix, SetDefault;
    assert s in n && Prefix(u) == "";
    assert !ApplyJob(n, UpdateState(u, c[u]))[s].isDefault;
  }

  /**
   * The condition is exact: starting with nothing pending and the domain cached as it is stored, every
   * run keeps the two in step if and only if the keys are all scoped or all unscoped and no scope has two
   * defaults.
   */
  lemma InStepExactlyWhenGood(s: State, domain: Domain)
    requires s.queue == [] && domain in s.persisted && domain in s.cache && s.cache[domain] == s.persisted[domain]
    ensures Good(s.persisted[domain]) <==> forall labels :: InStep(Run(s, labels), domain)
  {
    var m := s.persisted[domain];
    if Good(m) {
      forall labels
        ensures InStep(Run(s, labels), domain)
      {
        CacheAgreesUpToQueue(s, labels, domain);
        RunKeepsCached(s, labels, domain);
      }
    } else if !Homogeneous(m) {
      var k :| k in m && ':' !in k;
      var l :| l in m && ':' in l;
      MixedKeysFallOut(m, k, l);
      RunOperations(s, domain, Mix(m, k, l));
      assert !InStep(Run(s, Operations(domain, Mix(m, k, l))), domain);
    } else {
      var k, l :| k in m && l in m && k != l && m[k].isDefault && m[l].isDefault && Prefix(k) == Prefix(l);
      TwoDefaultsFallOut(m, k, l);
      var ops := [ToggleOp(k, m[k].enabled)];
      RunOperations(s, domain, ops);
      assert !InStep(Run(s, Operations(domain, ops)), domain);
    }
  }

  lemma {:induction false} RunKeepsCached(s: State, labels: seq<Label>, domain: Domain)
    requires domain in s.cache
    ensures domain in Run(s, labels).cache
  {
    if labels != [] {
      RunKeepsCached(s, labels[..|labels| - 1], domain);
    }
  }
}
