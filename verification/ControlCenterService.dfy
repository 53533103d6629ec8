/** The control center, its update processor and the payments service's scan, as objects that update their state. */
module ControlCenterService {
  import opened Collections
  import opened ControlCenter
  import opened ControlCenterLaws
  import opened ControlCenterBootstrap

  datatype Outcome = Done(states: Providers) | DomainNotFound | ProviderNotFound

  /** The stored documents, and the queue of updates to them. */
  class ControlCenterStore {
    var docs: map<Domain, Providers>
    var jobs: seq<(Domain, Job)>

    constructor ()
      ensures docs == map[] && jobs == []
    {
      docs, jobs := map[], [];
    }
  }

  class ControlCenterService {
    var cache: map<Domain, Providers>
    const store: ControlCenterStore

    constructor (store: ControlCenterStore)
      ensures this.store == store && cache == map[]
    {
      this.store, cache := store, map[];
    }

    ghost function Value(): State
      reads this, store
    {
      State(cache, store.docs, store.jobs)
    }

    /** Loads every stored document. */
    method LoadCache()
      modifies this`cache
      ensures cache == old(cache) + store.docs
    {
      var todo := store.docs.Keys;
      while todo != {}
        invariant todo <= store.docs.Keys
        invariant cache == old(cache) + (store.docs - todo)
      {
        var domain :| domain in todo;
        cache := cache[domain := store.docs[domain]];
        todo := todo - {domain};
      }
      assert store.docs - {} == store.docs;
    }

    /** The body that both bootstrap loops share; `changed` is unset only if nothing was written. */
    static method Sync(current: Providers, keys: seq<Key>, prefix: Key) returns (updated: Providers, changed: bool)
      ensures updated == SyncKeys(current, keys, prefix)
      ensures if changed then updated != map[] else updated == current
    {
      updated, changed := current, false;
      for i := 0 to |keys|
        invariant updated == AddMissing(current, keys[..i])
        invariant if changed then updated != map[] else updated == current
      {
        if keys[i] !in updated {
          updated := updated[keys[i] := FRESH];
          assert keys[i] in updated;
          changed := true;
        }
        assert keys[..i + 1][..i] == keys[..i];
      }
      assert keys[..|keys|] == keys;
      var hasDefault, todo := false, updated.Keys;
      while todo != {}
        invariant todo <= updated.Keys
        invariant !hasDefault ==> forall k :: k in updated && k !in todo && prefix <= k ==> !updated[k].isDefault
        invariant hasDefault ==> HasDefault(updated, prefix)
      {
        var k :| k in todo;
        if prefix <= k && updated[k].isDefault {
          hasDefault := true;
          break;
        }
        todo := todo - {k};
      }
      if !hasDefault && |keys| > 0 {
        var first := keys[0];
        if first in updated {
          updated := updated[first := updated[first].(isDefault := true)];
          assert first in updated;
          changed := true;
        }
      }
    }

    /** Without a list of channels nothing happens; a document without any state is not created. */
    method SyncNotificationsDefaults(channels: Option<seq<string>>, env: map<string, seq<string>>)
      modifies store`docs
      ensures channels == None ==> store.docs == old(store.docs)
      ensures channels.Some? ==>
        var m := if "notifications" in old(store.docs) then old(store.docs)["notifications"] else map[];
        var r := SyncNotifications(m, channels.value, env);
        store.docs == if r == m then old(store.docs) else old(store.docs)["notifications" := r]
    {
      if channels == None {
        return;
      }
      var list := channels.value;
      var m := if "notifications" in store.docs then store.docs["notifications"] else map[];
      var current, hasChanges := m, false;
      for i := 0 to |list|
        invariant current == SyncNotifications(m, list[..i], env)
        invariant if hasChanges then current != map[] else current == m
        invariant store.docs == old(store.docs)
      {
        assert list[..i + 1][..i] == list[..i];
        if list[i] in env {
          var channel, providers := list[i], env[list[i]];
          var changed;
          current, changed := Sync(current, ChannelKeys(channel, providers), channel + ":");
          hasChanges := hasChanges || changed;
        }
      }
      assert list[..|list|] == list;
      if hasChanges {
        store.docs := store.docs["notifications" := current];
      }
    }

    method SyncDomainFromEnv(domain: Domain, providers: Option<seq<string>>)
      modifies store`docs
      ensures providers == None ==> store.docs == old(store.docs)
      ensures providers.Some? ==>
        var m := if domain in old(store.docs) then old(store.docs)[domain] else map[];
        var r := SyncDomain(m, providers.value);
        store.docs == if r == m then old(store.docs) else old(store.docs)[domain := r]
    {
      if providers == None {
        return;
      }
      var m := if domain in store.docs then store.docs[domain] else map[];
      var current, hasChanges := Sync(m, providers.value, "");
      if hasChanges {
        store.docs := store.docs[domain := current];
      }
    }

    method GetDomainConfig(domain: Domain) returns (config: Option<Providers>)
      modifies this`cache
      ensures Value() == Load(old(Value()), domain)
      ensures config == if domain in cache then Some(cache[domain]) else None
    {
      if domain in cache {
        return Some(cache[domain]);
      }
      if domain in store.docs {
        cache := cache[domain := store.docs[domain]];
        return Some(store.docs[domain]);
      }
      return None;
    }

    /** `order` is the order in which the map is walked; with one enabled default in the scope it does not matter. */
    method GetActiveProvider(domain: Domain, scope: string, order: seq<Key>) returns (name: Option<string>)
      requires var s := Load(Value(), domain); domain in s.cache ==> Enumerates(order, s.cache[domain])
      modifies this`cache
      ensures Value() == Load(old(Value()), domain)
      ensures name == if domain in cache then ActiveProvider(order, cache[domain], scope) else None
      ensures domain in cache && OneActive(cache[domain], scope) ==>
        if name == None then forall k :: !Active(cache[domain], scope, k)
        else exists k :: Active(cache[domain], scope, k) && name == Some(Reported(k, scope))
    {
      var config := GetDomainConfig(domain);
      if config == None {
        return None;
      }
      var states := config.value;
      ScanStopsAtActive(order, states, scope);
      for i := 0 to |order|
        invariant ActiveKey(order, states, scope) == ActiveKey(order[i..], states, scope)
      {
        var key := order[i];
        var state := states[key];
        if state.enabled && state.isDefault {
          if scope != "" {
            if scope + ":" <= key {
              return Some(Reported(key, scope));
            }
          } else {
            return Some(key);
          }
        }
        assert order[i..][1..] == order[i + 1..];
      }
      return None;
    }

    method ToggleProvider(domain: Domain, key: Key, enabled: bool) returns (outcome: Outcome)
      modifies this`cache, store`jobs
      ensures Value() == Do(old(Value()), Operate(domain, ToggleOp(key, enabled)))
      ensures outcome == if domain !in cache then DomainNotFound else if key !in cache[domain] then ProviderNotFound
                         else Done(cache[domain])
    {
      var config := GetDomainConfig(domain);
      if config == None {
        return DomainNotFound;
      }
      var states := config.value;
      if key !in states {
        return ProviderNotFound;
      }
      var state := states[key].(enabled := enabled);
      states := states[key := state];
      cache := cache[domain := states];
      store.jobs := store.jobs + [(domain, UpdateState(key, state))];
      assert Tagged(domain, [UpdateState(key, state)]) == [(domain, UpdateState(key, state))];
      return Done(states);
    }

    method SetDefaultProvider(domain: Domain, key: Key) returns (outcome: Outcome)
      modifies this`cache, store`jobs
      ensures Value() == Do(old(Value()), Operate(domain, DefaultOp(key)))
      ensures outcome == if domain !in cache then DomainNotFound else if key !in cache[domain] then ProviderNotFound
                         else Done(cache[domain])
    {
      var config := GetDomainConfig(domain);
      if config == None {
        return DomainNotFound;
      }
      var states := config.value;
      if key !in states {
        return ProviderNotFound;
      }
      states := Unset(states, Prefix(key));
      var state := states[key].(isDefault := true);
      states := states[key := state];
      assert states == SetDefault(config.value, key);
      cache := cache[domain := states];
      store.jobs := store.jobs + [(domain, UpdateState(key, state))];
      assert Tagged(domain, [UpdateState(key, state)]) == [(domain, UpdateState(key, state))];
      return Done(states);
    }
  }

  /** The loop over the map that unsets the defaults whose keys start with the scope's prefix, if there is one. */
  method Unset(m: Providers, scopePrefix: Key) returns (states: Providers)
    ensures states.Keys == m.Keys
    ensures forall k :: k in m ==> states[k] == if scopePrefix <= k then m[k].(isDefault := false) else m[k]
  {
    states := m;
    var todo := m.Keys;
    while todo != {}
      invariant states.Keys == m.Keys && todo <= m.Keys
      invariant forall k :: k in m ==>
        states[k] == if k !in todo && scopePrefix <= k then m[k].(isDefault := false) else m[k]
    {
      var k :| k in todo;
      if scopePrefix != "" {
        if scopePrefix <= k && states[k].isDefault {
          states := states[k := states[k].(isDefault := false)];
        }
      } else if states[k].isDefault {
        states := states[k := states[k].(isDefault := false)];
      }
      todo := todo - {k};
    }
  }

  class ControlCenterProcessor {
    const store: ControlCenterStore

    constructor (store: ControlCenterStore)
      ensures this.store == store
    {
      this.store := store;
    }

    /** A document that no longer exists is left alone. */
    method HandleUpdateState(domain: Domain, key: Key, state: ProviderState)
      modifies store`docs
      ensures store.docs == if domain in old(store.docs)
                            then old(store.docs)[domain := ApplyJob(old(store.docs)[domain], UpdateState(key, state))]
                            else old(store.docs)
    {
      if domain !in store.docs {
        return;
      }
      var m := store.docs[domain];
      var states := m;
      if state.isDefault {
        var scopePrefix, todo := Prefix(key), m.Keys;
        while todo != {}
          invariant store.docs == old(store.docs)
          invariant states.Keys == m.Keys && todo <= m.Keys
          invariant forall k :: k in m ==>
            states[k] == if k !in todo && k != key && scopePrefix <= k then m[k].(isDefault := false) else m[k]
        {
          var k :| k in todo;
          if scopePrefix != "" {
            if scopePrefix <= k && states[k].isDefault && k != key {
              states := states[k := states[k].(isDefault := false)];
            }
          } else if states[k].isDefault && k != key {
            states := states[k := states[k].(isDefault := false)];
          }
          todo := todo - {k};
        }
      }
      states := states[key := state];
      assert states == ApplyJob(m, UpdateState(key, state));
      store.docs := store.docs[domain := states];
    }

    /** Takes the oldest pending update and applies it. */
    method Process()
      modifies store
      ensures var r := Do(State(map[], old(store.docs), old(store.jobs)), RunJob);
              store.docs == r.persisted && store.jobs == r.queue
    {
      if store.jobs == [] {
        return;
      }
      var (domain, job) := store.jobs[0];
      store.jobs := store.jobs[1..];
      HandleUpdateState(domain, job.key, job.state);
    }
  }

  class PaymentsService {
    const controlCenter: ControlCenterService
    const registered: seq<string>

    constructor (controlCenter: ControlCenterService)
      ensures this.controlCenter == controlCenter && registered == ["stripe", "paystack", "flutterwave"]
    {
      this.controlCenter, registered := controlCenter, ["stripe", "paystack", "flutterwave"];
    }

    /**
     * The first default that is enabled, in the order the map is walked; an unknown name falls back to the
     * first provider.
     */
    method GetActiveProvider(order: seq<Key>, configured: string) returns (name: Option<string>)
      requires var s := Load(controlCenter.Value(), "payments");
               "payments" in s.cache ==> Enumerates(order, s.cache["payments"])
      modifies controlCenter`cache
      ensures controlCenter.Value() == Load(old(controlCenter.Value()), "payments")
      ensures var strategy := if "payments" in controlCenter.cache
                              then PaymentStrategy(order, controlCenter.cache["payments"]) else configured;
              name == if strategy in registered then Some(strategy)
                      else if registered != [] then Some(registered[0]) else None
    {
      var config := controlCenter.GetDomainConfig("payments");
      var strategy := "paystack";
      if config.Some? {
        var states := config.value;
        for i := 0 to |order|
          invariant strategy == "paystack"
          invariant PaymentStrategy(order, states) == PaymentStrategy(order[i..], states)
        {
          if states[order[i]].isDefault && states[order[i]].enabled {
            strategy := order[i];
            break;
          }
          assert order[i..][1..] == order[i + 1..];
        }
        assert strategy == PaymentStrategy(order, states);
      } else {
        strategy := configured;
      }
      if strategy in registered {
        return Some(strategy);
      }
      return if registered != [] then Some(registered[0]) else None;
    }
  }
}
