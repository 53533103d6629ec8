/** What bootstrap leaves behind, and why the scans for the active provider do not depend on iteration order. */
module ControlCenterBootstrap {
  import opened Collections
  import opened ControlCenter
  import opened ControlCenterLaws

  // ---------------------------------------------------------------------------------------------
  // Bootstrap
  // ---------------------------------------------------------------------------------------------

  ghost predicate IsDefault(m: Providers, prefix: Key, k: Key) {
    k in m && prefix <= k && m[k].isDefault
  }

  ghost predicate OneDefault(m: Providers, prefix: Key) {
    exists k :: IsDefault(m, prefix, k) && forall l :: IsDefault(m, prefix, l) ==> l == k
  }

  /** Nothing is lost: known providers stay, and those that are a default keep their whole state. */
  ghost predicate Keeps(m: Providers, r: Providers) {
    forall k :: k in m ==>
      k in r && r[k].enabled == m[k].enabled && r[k].status == m[k].status && (m[k].isDefault ==> r[k].isDefault)
  }

  lemma {:induction false} AddMissingAdds(m: Providers, keys: seq<Key>)
    ensures var r := AddMissing(m, keys);
            && (forall k :: k in r <==> k in m || k in keys)
            && (forall k :: k in m ==> r[k] == m[k])
            && (forall k :: k in r && k !in m ==> r[k] == FRESH)
  {
    if keys != [] {
      AddMissingAdds(m, keys[..|keys| - 1]);
      assert keys == keys[..|keys| - 1] + [keys[|keys| - 1]];
    }
  }

  lemma ScopePrefix(channel: string)
    requires ':' !in channel
    ensures var p := channel + ":";
            |p| > 0 && p[|p| - 1] == ':' && p[..|p| - 1] == channel
  {
  }

  /** A scope without a default gets its first key as default; nothing else changes. */
  lemma FirstBecomesDefault(m: Providers, p: Key, first: Key)
    requires Unique(m) && first in m && p <= first
    requires |p| > 0 && p[|p| - 1] == ':' && ':' !in p[..|p| - 1]
    ensures var r := if HasDefault(m, p) then m else m[first := m[first].(isDefault := true)];
            Unique(r) && OneDefault(r, p)
  {
    forall k
      ensures p <= k <==> Prefix(k) == p
    {
      StartsWithIsPrefix(p, k);
    }
    hide Prefix;
    if HasDefault(m, p) {
      var k :| k in m && p <= k && m[k].isDefault;
      assert IsDefault(m, p, k);
      assert forall l :: IsDefault(m, p, l) ==> Prefix(l) == Prefix(k);
    } else {
      var r := m[first := m[first].(isDefault := true)];
      assert IsDefault(r, p, first);
      assert forall l :: IsDefault(r, p, l) ==> l == first;
    }
  }

  /**
   * Bootstrap of one channel: one default in its scope, whatever was there before, and the other scopes as
   * they were.
   */
  lemma SyncChannelSettles(m: Providers, channel: string, providers: seq<string>)
    requires Unique(m) && ':' !in channel
    ensures var r := SyncChannel(m, channel, providers);
            && Unique(r) && Keeps(m, r)
            && (forall k :: k in r && k !in m ==> channel + ":" <= k)
            && (forall k :: k in m && !(channel + ":" <= k) ==> r[k] == m[k])
            && (providers != [] ==> OneDefault(r, channel + ":"))
  {
    var p := channel + ":";
    var keys := ChannelKeys(channel, providers);
    var a := AddMissing(m, keys);
    AddMissingAdds(m, keys);
    ScopePrefix(channel);
    assert forall i :: 0 <= i < |keys| ==> p <= keys[i];
    hide AddMissing, Prefix;
    assert Unique(a);
    if providers != [] {
      assert keys[0] in keys;
      FirstBecomesDefault(a, p, keys[0]);
    }
    hide Unique, OneDefault;
  }

  lemma OneDefaultElsewhere(m: Providers, r: Providers, channel: string, other: string)
    requires ':' !in channel && ':' !in other && channel != other && OneDefault(m, other + ":")
    requires forall k :: k in r && k !in m ==> channel + ":" <= k
    requires forall k :: k in m && !(channel + ":" <= k) ==> k in r && r[k] == m[k]
    ensures OneDefault(r, other + ":")
  {
    var p, q := channel + ":", other + ":";
    ScopePrefix(channel);
    ScopePrefix(other);
    assert p != q;
    forall k
      ensures (p <= k <==> Prefix(k) == p) && (q <= k <==> Prefix(k) == q)
    {
      StartsWithIsPrefix(p, k);
      StartsWithIsPrefix(q, k);
    }
    hide Prefix;
    var d :| IsDefault(m, q, d) && forall l :: IsDefault(m, q, l) ==> l == d;
    assert IsDefault(r, q, d);
    assert forall l :: IsDefault(r, q, l) ==> IsDefault(m, q, l);
  }

  /** No listed channel that has providers contains a colon: what an operator can check before start-up. */
  ghost predicate PlainNames(channels: seq<string>, env: map<string, seq<string>>) {
    forall c :: c in channels && c in env && env[c] != [] ==> ':' !in c
  }

  lemma NoProvidersNoChange(m: Providers, channel: string)
    ensures SyncChannel(m, channel, []) == m
  {
    assert ChannelKeys(channel, []) == [];
  }

  /**
   * Starting with at most one default in each scope, bootstrap leaves at most one in each, exactly one for
   * every listed channel that has providers, and only adds to what was stored.
   */
  lemma {:induction false} BootstrapSettlesDefaults(m: Providers, channels: seq<string>, env: map<string, seq<string>>)
    requires Unique(m) && PlainNames(channels, env)
    ensures var r := SyncNotifications(m, channels, env);
            && Unique(r) && Keeps(m, r)
            && (forall c :: c in channels && c in env && env[c] != [] ==> OneDefault(r, c + ":"))
            && ((forall k :: k in m ==> ':' in k) ==> Good(r) && forall k :: k in r ==> ':' in k)
  {
    if channels != [] {
      var front, c := channels[..|channels| - 1], channels[|channels| - 1];
      assert channels == front + [c] && c in channels;
      BootstrapSettlesDefaults(m, front, env);
      var s := SyncNotifications(m, front, env);
      if c in env && env[c] == [] {
        NoProvidersNoChange(s, c);
      } else if c in env {
        SyncChannelSettles(s, c, env[c]);
        var r := SyncChannel(s, c, env[c]);
        forall d | d in front && d != c && d in env && env[d] != []
          ensures OneDefault(r, d + ":")
        {
          assert d in channels;
          OneDefaultElsewhere(s, r, c, d);
        }
        forall k | c + ":" <= k
          ensures ':' in k
        {
          assert k[|c|] == (c + ":")[|c|];
        }
        hide OneDefault, SyncChannel, Unique, PlainNames;
        if forall k :: k in m ==> ':' in k {
          assert forall k :: k in r && k !in s ==> ':' in k;
        }
      }
    }
  }

  /** Whatever the channel is called: defaults survive, and with providers its prefix has one afterwards. */
  lemma SyncChannelKeeps(m: Providers, channel: string, providers: seq<string>)
    ensures var r := SyncChannel(m, channel, providers);
            Keeps(m, r) && (providers != [] ==> HasDefault(r, channel + ":"))
  {
    var keys := ChannelKeys(channel, providers);
    AddMissingAdds(m, keys);
    var r := SyncChannel(m, channel, providers);
    hide AddMissing;
    if providers != [] {
      assert keys[0] in keys && channel + ":" <= keys[0];
      if !HasDefault(AddMissing(m, keys), channel + ":") {
        assert r[keys[0]].isDefault;
      }
    }
  }

  lemma HasDefaultStays(m: Providers, r: Providers, prefix: Key)
    requires Keeps(m, r) && HasDefault(m, prefix)
    ensures HasDefault(r, prefix)
  {
    var k :| k in m && prefix <= k && m[k].isDefault;
    assert r[k].isDefault;
  }

  lemma {:induction false} BootstrapKeeps(m: Providers, channels: seq<string>, env: map<string, seq<string>>)
    ensures var r := SyncNotifications(m, channels, env);
            Keeps(m, r) && forall c :: c in channels && c in env && env[c] != [] ==> HasDefault(r, c + ":")
  {
    if channels != [] {
      var front, last := channels[..|channels| - 1], channels[|channels| - 1];
      assert channels == front + [last];
      BootstrapKeeps(m, front, env);
      if last in env {
        var s := SyncNotifications(m, front, env);
        SyncChannelKeeps(s, last, env[last]);
        var r := SyncChannel(s, last, env[last]);
        forall c | c in front && c in env && env[c] != []
          ensures HasDefault(r, c + ":")
        {
          HasDefaultStays(s, r, c + ":");
        }
        hide SyncChannel, HasDefault;
      }
    }
  }

  /** A listed channel with a colon: stored defaults that were unique no longer are. */
  lemma ColonBreaksUnique(channels: seq<string>, env: map<string, seq<string>>, c: string)
    requires c in channels && c in env && env[c] != [] && ':' in c
    ensures var m := map[Prefix(c) := FRESH.(isDefault := true)];
            Unique(m) && !Unique(SyncNotifications(m, channels, env))
  {
    var p := Prefix(c);
    var m := map[p := FRESH.(isDefault := true)];
    BootstrapKeeps(m, channels, env);
    var r := SyncNotifications(m, channels, env);
    hide SyncNotifications;
    var k :| k in r && c + ":" <= k && r[k].isDefault;
    PrefixOfKey(c);
    assert p <= c <= k && |k| > |p|;
    StartsWithIsPrefix(p, k);
    StartsWithIsPrefix(p, p);
    hide Prefix;
    assert p in r && r[p].isDefault;
  }

  /**
   * The condition is exact: bootstrap keeps at most one default in each scope, whatever was stored, if and
   * only if no listed channel that has providers contains a colon.
   */
  lemma BootstrapUniqueIffPlainNames(channels: seq<string>, env: map<string, seq<string>>)
    ensures (forall m | Unique(m) :: Unique(SyncNotifications(m, channels, env))) <==> PlainNames(channels, env)
  {
    if PlainNames(channels, env) {
      forall m | Unique(m)
        ensures Unique(SyncNotifications(m, channels, env))
      {
        BootstrapSettlesDefaults(m, channels, env);
      }
    } else {
      var c :| c in channels && c in env && env[c] != [] && ':' in c;
      ColonBreaksUnique(channels, env, c);
    }
  }

  /** Even from an empty store: a colon puts a channel's keys into the scope of the part before it as well. */
  lemma ColonInChannelName()
    ensures var r := SyncNotifications(map[], ["a", "a:b"], map["a" := ["x"], "a:b" := ["y"]]);
            IsDefault(r, "a:", "a:x") && IsDefault(r, "a:", "a:b:y")
  {
    var env := map["a" := ["x"], "a:b" := ["y"]];
    assert ["a", "a:b"][..1] == ["a"] && ["a"][..0] == [];
    assert "a" + ":" + "x" == "a:x" && "a:b" + ":" + "y" == "a:b:y";
    assert ChannelKeys("a", ["x"]) == ["a:x"] && ["a:x"][..0] == [];
    assert ChannelKeys("a:b", ["y"]) == ["a:b:y"] && ["a:b:y"][..0] == [];
    assert SyncNotifications(map[], [], env) == map[];
    var one := SyncNotifications(map[], ["a"], env);
    assert AddMissing(map[], ["a:x"]) == map["a:x" := FRESH];
    assert one == map["a:x" := FRESH.(isDefault := true)];
    assert AddMissing(one, []) == one;
    assert "a:b:y" != "a:x" by { assert |"a:b:y"| != |"a:x"|; }
    assert !("a:b" + ":" <= "a:x") by { assert |"a:b" + ":"| > |"a:x"|; }
  }

  /** The payments domain: at most one default before, exactly one afterwards. */
  lemma SyncDomainSettles(m: Providers, providers: seq<string>)
    requires providers != [] && forall k, l :: IsDefault(m, "", k) && IsDefault(m, "", l) ==> k == l
    ensures var r := SyncDomain(m, providers);
            OneDefault(r, "") && Keeps(m, r) && Unique(r) && forall k :: k in r <==> k in m || k in providers
  {
    AddMissingAdds(m, providers);
    var a := AddMissing(m, providers);
    var r := SyncDomain(m, providers);
    hide AddMissing, Prefix;
    if HasDefault(a, "") {
      var k :| k in a && "" <= k && a[k].isDefault;
      assert IsDefault(m, "", k) && IsDefault(r, "", k);
      assert forall l :: IsDefault(r, "", l) ==> IsDefault(m, "", l);
    } else {
      assert providers[0] in providers;
      assert IsDefault(r, "", providers[0]);
      assert forall k :: k in a ==> "" <= k;
    }
    assert OneDefault(r, "");
    assert forall k :: k in r && r[k].isDefault ==> IsDefault(r, "", k);
  }

  /** A key that bootstrap added for this provider list: enabled and active, and a default only if it is the first. */
  ghost predicate NewlyListed(s: ProviderState, key: Key, prefix: Key, providers: seq<string>) {
    && s.enabled && s.status == "active"
    && (s.isDefault ==> providers != [] && key == prefix + providers[0])
    && exists i :: 0 <= i < |providers| && key == prefix + providers[i]
  }

  lemma SyncKeysLists(m: Providers, keys: seq<Key>, prefix: Key, providers: seq<string>, scope: Key)
    requires |keys| == |providers| && forall i :: 0 <= i < |keys| ==> keys[i] == prefix + providers[i]
    ensures var r := SyncKeys(m, keys, scope);
            && (forall i :: 0 <= i < |providers| ==> prefix + providers[i] in r)
            && (forall k :: k in r && k !in m ==> NewlyListed(r[k], k, prefix, providers))
            && (forall k :: k in m ==>
                  k in r && r[k].enabled == m[k].enabled && r[k].status == m[k].status &&
                  (r[k].isDefault ==> m[k].isDefault || (providers != [] && k == prefix + providers[0])))
  {
    AddMissingAdds(m, keys);
    hide AddMissing, HasDefault;
    assert forall i :: 0 <= i < |keys| ==> keys[i] in keys;
  }

  /** The channel that a key was listed for. */
  ghost predicate ListedFor(r: Providers, k: Key, c: string, channels: seq<string>, env: map<string, seq<string>>)
    requires k in r
  {
    c in channels && c in env && NewlyListed(r[k], k, c + ":", env[c])
  }

  lemma StillListed(s: Providers, r: Providers, k: Key, front: seq<string>, channels: seq<string>, last: string,
                    env: map<string, seq<string>>)
    requires k in s && k in r && (exists c :: ListedFor(s, k, c, front, env))
    requires (forall c :: c in front ==> c in channels) && last in channels && last in env
    requires r[k].enabled == s[k].enabled && r[k].status == s[k].status
    requires r[k].isDefault ==> s[k].isDefault || (env[last] != [] && k == last + ":" + env[last][0])
    ensures exists c :: ListedFor(r, k, c, channels, env)
  {
    var c :| ListedFor(s, k, c, front, env);
    if r[k].isDefault && !s[k].isDefault {
      assert ListedFor(r, k, last, channels, env);
    } else {
      assert ListedFor(r, k, c, channels, env);
    }
  }

  /**
   * After bootstrap every listed provider is known; one that was not stored is enabled and active, and is a default
   * only as the first of its channel. What was stored keeps its state, except that a first one may become a default.
   */
  lemma {:induction false} BootstrapLists(m: Providers, channels: seq<string>, env: map<string, seq<string>>)
    ensures var r := SyncNotifications(m, channels, env);
            && (forall c, i :: c in channels && c in env && 0 <= i < |env[c]| ==> c + ":" + env[c][i] in r)
            && (forall k :: k in r && k !in m ==> exists c :: ListedFor(r, k, c, channels, env))
            && (forall k :: k in m ==> k in r && r[k].enabled == m[k].enabled && r[k].status == m[k].status)
  {
    if channels != [] {
      var front, last := channels[..|channels| - 1], channels[|channels| - 1];
      assert channels == front + [last];
      BootstrapLists(m, front, env);
      if last in env {
        var (s, r) := (SyncNotifications(m, front, env), SyncNotifications(m, channels, env));
        SyncKeysLists(s, ChannelKeys(last, env[last]), last + ":", env[last], last + ":");
        hide SyncNotifications, SyncKeys, NewlyListed;
        forall k | k in r && k !in m
          ensures exists c :: ListedFor(r, k, c, channels, env)
        {
          if k in s {
            StillListed(s, r, k, front, channels, last, env);
          } else {
            assert ListedFor(r, k, last, channels, env);
          }
        }
      } else {
        var r := SyncNotifications(m, front, env);
        hide SyncNotifications, NewlyListed;
        forall k | k in r && k !in m
          ensures exists c :: ListedFor(r, k, c, channels, env)
        {
          var c :| ListedFor(r, k, c, front, env);
          assert ListedFor(r, k, c, channels, env);
        }
      }
    }
  }

  // ---------------------------------------------------------------------------------------------
  // The scans
  // ---------------------------------------------------------------------------------------------

  /** An order in which the map can be walked: every key once. */
  ghost predicate Enumerates(order: seq<Key>, m: Providers) {
    Distinct(order) && forall k :: k in order <==> k in m
  }

  /** At most one key is an enabled default of what is asked for: a scope, or the whole map. */
  ghost predicate OneActive(m: Providers, scope: string) {
    forall k, l :: Active(m, scope, k) && Active(m, scope, l) ==> k == l
  }

  /** All keys of a scope have the prefix of its first colon, so a scope may itself contain colons. */
  lemma InScopePrefix(scope: string, k: Key)
    requires scope + ":" <= k
    ensures Prefix(k) == Prefix(scope + ":")
  {
    var p := scope + ":";
    assert p[|scope|] == ':';
    PrefixOfKey(p);
    StartsWithIsPrefix(Prefix(p), k);
  }

  /** With at most one default in each scope, every scope has at most one enabled default, and so have unscoped keys. */
  lemma ScopeHasOneActive(m: Providers, scope: string)
    requires Unique(m) && (scope != "" || forall k :: k in m ==> ':' !in k)
    ensures OneActive(m, scope)
  {
    forall k, l | Active(m, scope, k) && Active(m, scope, l)
      ensures k == l
    {
      if scope != "" {
        InScopePrefix(scope, k);
        InScopePrefix(scope, l);
      }
    }
  }

  lemma {:induction false} ScanStopsAtActive(order: seq<Key>, m: Providers, scope: string)
    ensures var r := ActiveKey(order, m, scope);
            if r.Some? then r.value in order && Active(m, scope, r.value)
            else forall k :: k in order ==> !Active(m, scope, k)
  {
    if order != [] {
      ScanStopsAtActive(order[1..], m, scope);
      assert order == [order[0]] + order[1..];
    }
  }

  /** The scan answers the first key in walking order that is an enabled default, in the scope if one is asked for. */
  lemma {:induction false} FirstActiveWins(order: seq<Key>, m: Providers, scope: string, i: nat)
    requires i < |order| && forall j :: 0 <= j < |order| ==> order[j] in m
    requires m[order[i]].enabled && m[order[i]].isDefault && (scope != "" ==> scope + ":" <= order[i])
    requires forall j :: 0 <= j < i ==>
      !m[order[j]].enabled || !m[order[j]].isDefault || (scope != "" && !(scope + ":" <= order[j]))
    ensures ActiveKey(order, m, scope) == Some(order[i])
    ensures scope == "" ==> ActiveProvider(order, m, "") == Some(order[i]) && PaymentStrategy(order, m) == order[i]
  {
    if i > 0 {
      assert forall j :: 0 <= j < |order| - 1 ==> order[1..][j] == order[j + 1];
      assert !Active(m, scope, order[0]);
      FirstActiveWins(order[1..], m, scope, i - 1);
    }
    if scope == "" {
      PaymentsScanAgrees(order, m);
    }
  }

  /** In whatever order the map is walked, the scan finds the enabled default if there is one. */
  lemma ScanFindsTheDefault(order: seq<Key>, m: Providers, scope: string)
    requires OneActive(m, scope) && Enumerates(order, m)
    ensures forall k :: ActiveKey(order, m, scope) == Some(k) <==> Active(m, scope, k)
  {
    ScanStopsAtActive(order, m, scope);
  }

  /** After a default change the scan of its scope answers the new default if it is enabled, and nobody otherwise. */
  lemma NewDefaultIsActive(m: Providers, key: Key, scope: string, order: seq<Key>)
    requires key in m && if scope != "" then scope + ":" <= key else ':' !in key
    requires Enumerates(order, SetDefault(m, key))
    ensures ActiveKey(order, SetDefault(m, key), scope) == if m[key].enabled then Some(key) else None
  {
    var r := SetDefault(m, key);
    forall k | Active(r, scope, k)
      ensures k == key
    {
      OnlyDefaultOfScope(m, key, scope, k);
    }
    ScanFindsTheDefault(order, r, scope);
    assert m[key].enabled ==> Active(r, scope, key);
  }

  lemma OnlyDefaultOfScope(m: Providers, key: Key, scope: string, k: Key)
    requires key in m && if scope != "" then scope + ":" <= key else ':' !in key
    requires k in m && SetDefault(m, key)[k].isDefault && (scope != "" ==> scope + ":" <= k)
    ensures k == key
  {
    if scope != "" {
      InScopePrefix(scope, k);
      InScopePrefix(scope, key);
    }
    SameScopeClears(key, k);
  }

  /** A toggle decides whether the key is answered, and about no other key. */
  lemma ToggleDecides(m: Providers, key: Key, enabled: bool, scope: string, k: Key)
    requires key in m
    ensures Active(Toggle(m, key, enabled), scope, k) <==>
      if k == key then enabled && m[key].isDefault && (scope != "" ==> scope + ":" <= key) else Active(m, scope, k)
  {
  }

  /** The payments service, with its own loop, picks what the control center would report, else paystack. */
  lemma {:induction false} PaymentsScanAgrees(order: seq<Key>, m: Providers)
    ensures var r := ActiveProvider(order, m, "");
            PaymentStrategy(order, m) == if r.Some? then r.value else "paystack"
  {
    if order != [] {
      PaymentsScanAgrees(order[1..], m);
    }
  }

  lemma {:induction false} BeforeColonOf(a: string)
    requires ':' !in a
    ensures BeforeColon(a) == a
  {
    if a != "" {
      assert a == [a[0]] + a[1..];
      BeforeColonOf(a[1..]);
    }
  }

  /** Looking up a scope reports the provider's own name. */
  lemma ReportsTheName(channel: string, provider: string)
    requires channel != "" && ':' !in channel && ':' !in provider
    ensures Reported(channel + ":" + provider, channel) == provider
  {
    var key := channel + ":" + provider;
    ScopePrefix(channel);
    StartsWithIsPrefix(channel + ":", key);
    assert key[|channel + ":"|..] == provider;
    BeforeColonOf(provider);
  }

  /** The answer does not depend on the order in which the map is walked. */
  ghost predicate OrderFree(m: Providers, scope: string) {
    forall a, b :: Enumerates(a, m) && Enumerates(b, m) ==> ActiveProvider(a, m, scope) == ActiveProvider(b, m, scope)
  }

  ghost predicate PaymentOrderFree(m: Providers) {
    forall a, b :: Enumerates(a, m) && Enumerates(b, m) ==> PaymentStrategy(a, m) == PaymentStrategy(b, m)
  }

  lemma OneAnswer(m: Providers, scope: string)
    requires OneActive(m, scope)
    ensures OrderFree(m, scope)
    ensures scope == "" ==> PaymentOrderFree(m)
  {
    forall a, b | Enumerates(a, m) && Enumerates(b, m)
      ensures ActiveProvider(a, m, scope) == ActiveProvider(b, m, scope)
      ensures scope == "" ==> PaymentStrategy(a, m) == PaymentStrategy(b, m)
    {
      ScanFindsTheDefault(a, m, scope);
      ScanFindsTheDefault(b, m, scope);
      if ActiveKey(a, m, scope).Some? {
        assert ActiveKey(b, m, scope) == Some(ActiveKey(a, m, scope).value);
      }
      PaymentsScanAgrees(a, m);
      PaymentsScanAgrees(b, m);
    }
  }

  lemma {:induction false} SomeOrder(keys: set<Key>) returns (order: seq<Key>)
    ensures Distinct(order) && forall k :: k in order <==> k in keys
    decreases |keys|
  {
    order := [];
    if k :| k in keys {
      var rest := SomeOrder(keys - {k});
      order := [k] + rest;
    }
  }

  /** Some order begins with the key, and then an enabled default is the answer of both scans. */
  lemma BeginsWith(m: Providers, k: Key) returns (order: seq<Key>)
    requires Active(m, "", k)
    ensures Enumerates(order, m) && ActiveProvider(order, m, "") == Some(k) && PaymentStrategy(order, m) == k
  {
    var rest := SomeOrder(m.Keys - {k});
    order := [k] + rest;
  }

  /**
   * Asked for no scope, each of the two scans gives the same answer for every iteration order if and only if at most
   * one key of the map is an enabled default.
   */
  lemma OrderFreeIffOneActive(m: Providers)
    ensures OrderFree(m, "") <==> OneActive(m, "")
    ensures PaymentOrderFree(m) <==> OneActive(m, "")
  {
    if OneActive(m, "") {
      OneAnswer(m, "");
    } else {
      var k, l :| Active(m, "", k) && Active(m, "", l) && k != l;
      var a := BeginsWith(m, k);
      var b := BeginsWith(m, l);
    }
  }

  /**
   * If a domain's stored and cached states start with at most one default in each scope then, after any run and with
   * any updates pending, the cached and the stored states give one answer for every iteration order, whatever
   * scope is asked for; and asked for none, exactly if at most one key is an enabled default.
   */
  lemma ActiveProviderIsWellDefined(s: State, labels: seq<Label>, domain: Domain, scope: string)
    requires UniqueIn(s.cache, domain) && UniqueIn(s.persisted, domain)
    ensures var r := Run(s, labels);
            forall m | (domain in r.cache && m == r.cache[domain]) ||
                       (domain in r.persisted && m == r.persisted[domain]) ::
              && (OrderFree(m, scope) <==> scope != "" || OneActive(m, ""))
              && (PaymentOrderFree(m) <==> OneActive(m, ""))
  {
    RunKeepsUnique(s, labels, domain);
    var r := Run(s, labels);
    hide Run, OrderFree, PaymentOrderFree, OneActive;
    forall m | (domain in r.cache && m == r.cache[domain]) || (domain in r.persisted && m == r.persisted[domain])
      ensures OrderFree(m, scope) <==> scope != "" || OneActive(m, "")
      ensures PaymentOrderFree(m) <==> OneActive(m, "")
    {
      OrderFreeIffOneActive(m);
      if scope != "" {
        ScopeHasOneActive(m, scope);
        OneAnswer(m, scope);
      }
    }
  }

  /**
   * For a domain that keeps its cache and its store in step, the stored states give the cached answer too, once
   * no update is pending.
   */
  lemma StoredAnswerIsCached(s: State, labels: seq<Label>, domain: Domain, scope: string, a: seq<Key>, b: seq<Key>)
    requires s.queue == [] && domain in s.persisted && Good(s.persisted[domain])
    requires domain in s.cache ==> s.cache[domain] == s.persisted[domain]
    requires domain in Run(s, labels).cache && Run(s, labels).queue == []
    requires scope != "" || OneActive(Run(s, labels).cache[domain], "")
    requires Enumerates(a, Run(s, labels).cache[domain]) && Enumerates(b, Run(s, labels).cache[domain])
    ensures var r := Run(s, labels);
            domain in r.persisted &&
            ActiveProvider(a, r.persisted[domain], scope) == ActiveProvider(b, r.cache[domain], scope)
  {
    CacheAgreesUpToQueue(s, labels, domain);
    var m := Run(s, labels).cache[domain];
    hide Run;
    if scope != "" {
      ScopeHasOneActive(m, scope);
    }
    OneAnswer(m, scope);
  }

  // ---------------------------------------------------------------------------------------------
  // From an empty store to the first answers
  // ---------------------------------------------------------------------------------------------

  lemma PlainScope(c: string, d: string, k: Key)
    requires ':' !in c && ':' !in d && c + ":" <= k && d + ":" <= k
    ensures c == d
  {
    ScopePrefix(c);
    ScopePrefix(d);
    StartsWithIsPrefix(c + ":", k);
    StartsWithIsPrefix(d + ":", k);
  }

  /** The only default that bootstrap gives a channel of an empty store is its first listed provider. */
  lemma FirstIsDefault(channels: seq<string>, env: map<string, seq<string>>, c: string, k: Key)
    requires PlainNames(channels, env) && c in channels && c in env && env[c] != []
    requires IsDefault(SyncNotifications(map[], channels, env), c + ":", k)
    ensures k == c + ":" + env[c][0] && SyncNotifications(map[], channels, env)[k].enabled
  {
    var r := SyncNotifications(map[], channels, env);
    BootstrapLists(map[], channels, env);
    var d :| ListedFor(r, k, d, channels, env);
    hide SyncNotifications;
    assert ':' !in c && ':' !in d;
    PlainScope(c, d, k);
  }

  /**
   * From an empty store, with plain channel names: once bootstrap is through, the active provider of every listed
   * channel is the first one listed for it, in whatever order the map is walked.
   */
  lemma BootstrapActivates(channels: seq<string>, env: map<string, seq<string>>, c: string, order: seq<Key>)
    requires PlainNames(channels, env) && c in channels && c in env && env[c] != []
    requires c != "" && Enumerates(order, SyncNotifications(map[], channels, env))
    ensures ActiveKey(order, SyncNotifications(map[], channels, env), c) == Some(c + ":" + env[c][0])
    ensures ':' !in env[c][0] ==> ActiveProvider(order, SyncNotifications(map[], channels, env), c) == Some(env[c][0])
  {
    var r := SyncNotifications(map[], channels, env);
    BootstrapSettlesDefaults(map[], channels, env);
    var k :| IsDefault(r, c + ":", k);
    FirstIsDefault(channels, env, c, k);
    hide SyncNotifications, PlainNames, Unique;
    ScopeHasOneActive(r, c);
    ScanFindsTheDefault(order, r, c);
    assert Active(r, c, k);
    if ':' !in env[c][0] {
      ReportsTheName(c, env[c][0]);
    }
  }

  /** Likewise the payments service then picks the first listed provider. */
  lemma BootstrapActivatesPayments(providers: seq<string>, order: seq<Key>)
    requires providers != [] && Enumerates(order, SyncDomain(map[], providers))
    ensures ActiveProvider(order, SyncDomain(map[], providers), "") == Some(providers[0])
    ensures PaymentStrategy(order, SyncDomain(map[], providers)) == providers[0]
  {
    var r := SyncDomain(map[], providers);
    SyncDomainSettles(map[], providers);
    assert forall i :: 0 <= i < |providers| ==> providers[i] == "" + providers[i];
    SyncKeysLists(map[], providers, "", providers, "");
    var k :| IsDefault(r, "", k) && forall l :: IsDefault(r, "", l) ==> l == k;
    assert NewlyListed(r[k], k, "", providers);
    hide SyncDomain;
    assert k == providers[0] && Active(r, "", k);
    assert OneActive(r, "") by {
      assert forall l :: Active(r, "", l) ==> IsDefault(r, "", l);
    }
    ScanFindsTheDefault(order, r, "");
    PaymentsScanAgrees(order, r);
  }

  /** A listed payment provider that was not stored is enabled and active, and a default only as the first. */
  lemma DomainLists(m: Providers, providers: seq<string>)
    ensures var r := SyncDomain(m, providers);
            && (forall i :: 0 <= i < |providers| ==> providers[i] in r)
            && (forall k :: k in r && k !in m ==>
                  k in providers && r[k].enabled && r[k].status == "active" && (r[k].isDefault ==> k == providers[0]))
            && (forall k :: k in m ==> k in r && r[k].enabled == m[k].enabled && r[k].status == m[k].status)
  {
    assert forall i :: 0 <= i < |providers| ==> providers[i] == "" + providers[i];
    SyncKeysLists(m, providers, "", providers, "");
    hide SyncDomain;
    var r := SyncDomain(m, providers);
    forall k | k in r && k !in m
      ensures k in providers && r[k].enabled && r[k].status == "active" && (r[k].isDefault ==> k == providers[0])
    {
      assert NewlyListed(r[k], k, "", providers);
    }
  }
}
