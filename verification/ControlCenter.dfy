/**
 * Provider states of one configuration domain: how toggles, default changes and queued updates act on
 * them. A scoped key is `scope:name`; an unscoped key has no colon. Times of the last check are left out.
 */
module ControlCenter {
  import opened Collections

  type Key = string

  datatype ProviderState = ProviderState(enabled: bool, isDefault: bool, status: string)
  type Providers = map<Key, ProviderState>

  const FRESH: ProviderState := ProviderState(true, false, "active")

  datatype Job = UpdateState(key: Key, state: ProviderState)

  /** Everything up to and including the first colon; empty for an unscoped key. */
  function Prefix(key: Key): (p: Key)
    ensures |p| <= |key|
  {
    if ':' !in key then ""
    else if key[0] == ':' then ":"
    else [key[0]] + Prefix(key[1..])
  }

  /** Making `key` the default unsets `k`: it starts with the key's scope, or the key has none. */
  predicate Clears(key: Key, k: Key) {
    Prefix(key) <= k
  }

  function Toggle(m: Providers, key: Key, enabled: bool): Providers
    requires key in m
  {
    m[key := m[key].(enabled := enabled)]
  }

  function SetDefault(m: Providers, key: Key): Providers
    requires key in m
  {
    map k | k in m :: if k == key then m[k].(isDefault := true)
                      else if Clears(key, k) then m[k].(isDefault := false)
                      else m[k]
  }

  /** One queued update applied to the persisted states. */
  function ApplyJob(m: Providers, job: Job): Providers {
    var cleared := if job.state.isDefault
                   then map k | k in m :: if k != job.key && Clears(job.key, k) then m[k].(isDefault := false) else m[k]
                   else m;
    cleared[job.key := job.state]
  }

  function Replay(m: Providers, jobs: seq<Job>): Providers {
    if jobs == [] then m else ApplyJob(Replay(m, jobs[..|jobs| - 1]), jobs[|jobs| - 1])
  }

  /** The first enabled default in iteration order, within the scope if one is asked for. */
  function ActiveKey(order: seq<Key>, m: Providers, scope: string): Option<Key> {
    if order == [] then None
    else if Active(m, scope, order[0]) then Some(order[0])
    else ActiveKey(order[1..], m, scope)
  }

  predicate Active(m: Providers, scope: string, key: Key) {
    key in m && m[key].enabled && m[key].isDefault && (scope != "" ==> scope + ":" <= key)
  }

  function BeforeColon(s: string): string {
    if s == "" || s[0] == ':' then "" else [s[0]] + BeforeColon(s[1..])
  }

  /** What is reported for a key: asked for a scope, its second part; otherwise the whole key. */
  function Reported(key: Key, scope: string): string {
    if scope == "" then key else BeforeColon(key[|Prefix(key)|..])
  }

  function ActiveProvider(order: seq<Key>, m: Providers, scope: string): Option<string> {
    var key := ActiveKey(order, m, scope);
    if key.Some? then Some(Reported(key.value, scope)) else None
  }

  /** The strategy the payments service picks with its own scan, once a configuration exists. */
  function PaymentStrategy(order: seq<Key>, m: Providers): Key {
    if order == [] then "paystack"
    else if order[0] in m && m[order[0]].isDefault && m[order[0]].enabled then order[0]
    else PaymentStrategy(order[1..], m)
  }

  /** Adds the missing ones of these keys, enabled and not default. */
  function AddMissing(m: Providers, keys: seq<Key>): Providers {
    if keys == [] then m else
      var r := AddMissing(m, keys[..|keys| - 1]);
      var k := keys[|keys| - 1];
      if k in r then r else r[k := FRESH]
  }

  /** Whether a default exists among the keys that start with this prefix. */
  predicate HasDefault(m: Providers, prefix: Key) {
    exists k :: k in m && prefix <= k && m[k].isDefault
  }

  function ChannelKeys(channel: string, providers: seq<string>): seq<Key> {
    seq(|providers|, i requires 0 <= i < |providers| => channel + ":" + providers[i])
  }

  /** Adds the missing keys, and makes the first one the default if no key with the prefix is. */
  function SyncKeys(m: Providers, keys: seq<Key>, prefix: Key): Providers {
    var r := AddMissing(m, keys);
    if !HasDefault(r, prefix) && keys != [] && keys[0] in r then r[keys[0] := r[keys[0]].(isDefault := true)] else r
  }

  /** Bootstrap of one notification channel. */
  function SyncChannel(m: Providers, channel: string, providers: seq<string>): Providers {
    SyncKeys(m, ChannelKeys(channel, providers), channel + ":")
  }

  /** Bootstrap of all listed channels; a channel without configured providers is skipped. */
  function SyncNotifications(m: Providers, channels: seq<string>, env: map<string, seq<string>>): Providers {
    if channels == [] then m else
      var r := SyncNotifications(m, channels[..|channels| - 1], env);
      var c := channels[|channels| - 1];
      if c in env then SyncChannel(r, c, env[c]) else r
  }

  /** Bootstrap of a domain with unscoped providers, where any default counts. */
  function SyncDomain(m: Providers, providers: seq<string>): Providers {
    SyncKeys(m, providers, "")
  }
}
