/** The invariant of the second-factor settings over every run, and single use of backup codes. */
module MfaLaws {
  import opened Collections
  import opened Mfa

  // ---------------------------------------------------------------------------------------------
  // Methods
  // ---------------------------------------------------------------------------------------------

  ghost predicate HasOther(methods: seq<Method>) {
    exists k :: 0 <= k < |methods| && Other(methods[k])
  }

  /** Kinds pairwise distinct, everything listed enabled. */
  ghost predicate Tidy(methods: seq<Method>) {
    && (forall i, j :: 0 <= i < j < |methods| ==> methods[i].kind != methods[j].kind)
    && (forall i :: 0 <= i < |methods| ==> methods[i].enabled)
  }

  /** Exactly one primary method, and it is not the backup codes. */
  ghost predicate OnePrimary(methods: seq<Method>) {
    exists p :: 0 <= p < |methods| && methods[p].isPrimary && Other(methods[p]) &&
      forall q :: 0 <= q < |methods| && methods[q].isPrimary ==> q == p
  }

  ghost predicate Inv(mfa: UserMfa) {
    && Tidy(mfa.methods)
    && (mfa.isEnabled <==> HasOther(mfa.methods))
    && (mfa.isEnabled ==> OnePrimary(mfa.methods))
    && (!mfa.isEnabled ==> mfa.methods == [] && mfa.backupCodes == [])
  }

  lemma UpsertBackup(methods: seq<Method>)
    requires Tidy(methods) && HasOther(methods) && OnePrimary(methods)
    ensures var r := Upsert(methods, BACKUP);
            Tidy(r) && HasOther(r) && OnePrimary(r)
  {
    var r := Upsert(methods, BACKUP);
    var p :| 0 <= p < |methods| && methods[p].isPrimary && Other(methods[p]) &&
      forall q :: 0 <= q < |methods| && methods[q].isPrimary ==> q == p;
    assert r[p] == methods[p];
    assert Other(r[p]);
  }

  /** Enabling keeps the invariant exactly if it does not enable the backup codes of an account without any entry. */
  lemma EnableKeepsInvIff(mfa: UserMfa, kind: Kind, secret: string, codes: Codes)
    requires Inv(mfa) && Enable(mfa, kind, secret, codes).Done?
    ensures Inv(Enable(mfa, kind, secret, codes).mfa) <==> (kind == BackupCode ==> mfa.isEnabled)
  {
    var i := IndexOf(mfa.methods, kind);
    var base := if i < |mfa.methods| then mfa.methods[i].(enabled := true)
                else Method(kind, true, mfa.methods == [], None);
    var entry := if kind == Totp then base.(secret := Some(secret)) else base;
    var methods := Upsert(mfa.methods, entry);
    if kind == BackupCode && !mfa.isEnabled {
      assert methods == [entry];
      var r := Enable(mfa, kind, secret, codes).mfa;
      assert r.methods == [BACKUP];
    } else {
      if mfa.isEnabled {
        EnabledUpsert(mfa.methods, entry);
      } else {
        assert methods == [entry] && Other(methods[0]);
      }
      UpsertBackup(methods);
    }
  }

  lemma UpsertShape(methods: seq<Method>, entry: Method)
    requires Tidy(methods) && entry.enabled
    ensures var (r, i) := (Upsert(methods, entry), IndexOf(methods, entry.kind));
            && Tidy(r)
            && |r| == (if i < |methods| then |methods| else |methods| + 1) && r[i] == entry
            && (forall q :: 0 <= q < |methods| ==> r[q] == if q == i then entry else methods[q])
  {
    hide IndexOf;
  }

  lemma EnabledUpsert(methods: seq<Method>, entry: Method)
    requires Tidy(methods) && HasOther(methods) && OnePrimary(methods) && entry.enabled
    requires var i := IndexOf(methods, entry.kind);
             entry.isPrimary == (i < |methods| && methods[i].isPrimary)
    ensures var r := Upsert(methods, entry);
            Tidy(r) && HasOther(r) && OnePrimary(r)
  {
    UpsertShape(methods, entry);
    var r := Upsert(methods, entry);
    var p :| 0 <= p < |methods| && methods[p].isPrimary && Other(methods[p]) &&
      forall q :: 0 <= q < |methods| && methods[q].isPrimary ==> q == p;
    hide IndexOf, Upsert, Tidy;
    assert r[p].isPrimary && Other(r[p]);
    assert forall q :: 0 <= q < |methods| ==> r[q].isPrimary == methods[q].isPrimary;
  }

  lemma RemoveKeepsTidy(methods: seq<Method>, i: nat)
    requires Tidy(methods) && i < |methods|
    ensures Tidy(methods[..i] + methods[i + 1..])
    ensures forall k :: 0 <= k < |methods| && k != i ==>
      methods[k] == (methods[..i] + methods[i + 1..])[if k < i then k else k - 1]
  {
  }

  /** Removing a method keeps the primary one, unless it was that: then no primary is left. */
  lemma RemovePrimary(methods: seq<Method>, i: nat)
    requires Tidy(methods) && OnePrimary(methods) && i < |methods|
    ensures var r := methods[..i] + methods[i + 1..];
            if methods[i].isPrimary then forall q :: 0 <= q < |r| ==> !r[q].isPrimary else OnePrimary(r)
  {
    var r := methods[..i] + methods[i + 1..];
    var p :| 0 <= p < |methods| && methods[p].isPrimary && Other(methods[p]) &&
      forall q :: 0 <= q < |methods| && methods[q].isPrimary ==> q == p;
    assert forall q :: 0 <= q < |r| ==> r[q] == methods[if q < i then q else q + 1];
    if !methods[i].isPrimary {
      var p' := if p < i then p else p - 1;
      assert r[p'] == methods[p];
    }
  }

  /** Without a primary method, promotion makes exactly one and changes nothing else. */
  lemma PromoteMakesOne(methods: seq<Method>)
    requires Tidy(methods) && HasOther(methods) && forall q :: 0 <= q < |methods| ==> !methods[q].isPrimary
    ensures Tidy(Promote(methods)) && HasOther(Promote(methods)) && OnePrimary(Promote(methods))
  {
    var r := Promote(methods);
    var t := FirstOther(methods);
    assert r == methods[t := methods[t].(isPrimary := true)];
    hide Promote, FirstOther;
    assert r[t].isPrimary && Other(r[t]);
  }

  lemma WithPrimaryHasOne(methods: seq<Method>, i: nat)
    requires Tidy(methods) && OnePrimary(methods) && i < |methods| && HasOther(methods[..i] + methods[i + 1..])
    ensures var r := WithPrimary(methods[..i] + methods[i + 1..]);
            Tidy(r) && HasOther(r) && OnePrimary(r)
  {
    RemoveKeepsTidy(methods, i);
    RemovePrimary(methods, i);
    if methods[i].isPrimary {
      PromoteMakesOne(methods[..i] + methods[i + 1..]);
    }
    hide Promote, Tidy, HasOther;
  }

  function Rest(methods: seq<Method>, kind: Kind): seq<Method>
    requires IndexOf(methods, kind) < |methods|
  {
    var i := IndexOf(methods, kind);
    methods[..i] + methods[i + 1..]
  }

  ghost predicate HasEnabledOther(methods: seq<Method>) {
    exists k :: 0 <= k < |methods| && Other(methods[k]) && methods[k].enabled
  }

  lemma DisableDone(mfa: UserMfa, kind: Kind)
    requires Disable(mfa, kind).Done?
    ensures mfa.isEnabled && IndexOf(mfa.methods, kind) < |mfa.methods|
    ensures Disable(mfa, kind).mfa ==
      if HasEnabledOther(Rest(mfa.methods, kind)) then mfa.(methods := WithPrimary(Rest(mfa.methods, kind))) else NO_MFA
  {
    hide WithPrimary, IndexOf, Other;
  }

  lemma TidyHasEnabled(methods: seq<Method>)
    requires Tidy(methods)
    ensures HasEnabledOther(methods) <==> HasOther(methods)
  {
    hide Other;
    if HasOther(methods) {
      var k :| 0 <= k < |methods| && Other(methods[k]);
      assert methods[k].enabled;
    }
  }

  lemma DisableResult(mfa: UserMfa, kind: Kind)
    requires Tidy(mfa.methods) && Disable(mfa, kind).Done?
    ensures mfa.isEnabled && IndexOf(mfa.methods, kind) < |mfa.methods|
    ensures var rest := Rest(mfa.methods, kind);
            Disable(mfa, kind).mfa == if HasOther(rest) then mfa.(methods := WithPrimary(rest)) else NO_MFA
  {
    DisableDone(mfa, kind);
    RemoveKeepsTidy(mfa.methods, IndexOf(mfa.methods, kind));
    hide Disable, WithPrimary, IndexOf, Tidy, HasOther, HasEnabledOther;
    TidyHasEnabled(Rest(mfa.methods, kind));
  }

  lemma DisableKeepsInv(mfa: UserMfa, kind: Kind)
    requires Inv(mfa) && Disable(mfa, kind).Done?
    ensures Inv(Disable(mfa, kind).mfa)
  {
    DisableResult(mfa, kind);
    hide Disable, WithPrimary, IndexOf;
    if HasOther(Rest(mfa.methods, kind)) {
      WithPrimaryHasOne(mfa.methods, IndexOf(mfa.methods, kind));
      hide Tidy, OnePrimary, HasOther;
    }
    hide OnePrimary;
  }

  /** What disabling leaves in the list: the first one that is no backup entry takes over from a primary method. */
  ghost function Afterwards(rest: seq<Method>, k: nat, wasPrimary: bool): Method
    requires k < |rest|
  {
    if wasPrimary && rest[k].kind != BackupCode && forall j :: 0 <= j < k ==> rest[j].kind == BackupCode
    then rest[k].(isPrimary := true) else rest[k]
  }

  lemma PromoteAt(rest: seq<Method>, k: nat)
    requires k < |rest|
    ensures |Promote(rest)| == |rest| && Promote(rest)[k] == Afterwards(rest, k, true)
  {
    hide FirstOther;
    if forall j :: 0 <= j < k ==> rest[j].kind == BackupCode {
      assert FirstOther(rest) >= k;
    }
  }

  /** Disabling fails exactly where nothing is enabled, or else the kind is not listed. */
  lemma DisableFailsIff(mfa: UserMfa, kind: Kind)
    ensures Disable(mfa, kind) == Fail(NotEnabled) <==> !mfa.isEnabled
    ensures Disable(mfa, kind) == Fail(MethodNotFound) <==> mfa.isEnabled && !ListsKind(mfa.methods, kind)
    ensures Disable(mfa, kind).Done? <==> mfa.isEnabled && ListsKind(mfa.methods, kind)
  {
    assert ListsKind(mfa.methods, kind) <==> IndexOf(mfa.methods, kind) < |mfa.methods|;
    hide IndexOf, WithPrimary;
  }

  /**
   * Disabling, for any settings: the first method of the kind is taken out of the list. If an enabled method beside
   * the backup entry is left, the settings stay enabled with their codes; if then no primary method is left, the
   * first that is not the backup entry becomes it, and nothing else changes. Otherwise everything is cleared.
   */
  lemma DisableAny(mfa: UserMfa, kind: Kind, i: nat)
    requires mfa.isEnabled && i < |mfa.methods| && mfa.methods[i].kind == kind
    requires forall j :: 0 <= j < i ==> mfa.methods[j].kind != kind
    ensures var rest := mfa.methods[..i] + mfa.methods[i + 1..];
            if exists k :: 0 <= k < |rest| && rest[k].kind != BackupCode && rest[k].enabled then
              && Disable(mfa, kind).Done?
              && var r := Disable(mfa, kind).mfa;
              && r == UserMfa(true, r.methods, mfa.backupCodes) && |r.methods| == |rest|
              && forall k :: 0 <= k < |rest| ==>
                   r.methods[k] == Afterwards(rest, k, forall q :: 0 <= q < |rest| ==> !rest[q].isPrimary)
            else Disable(mfa, kind) == Done(UserMfa(false, [], []))
  {
    var rest := mfa.methods[..i] + mfa.methods[i + 1..];
    FirstOfKind(mfa.methods, kind, i);
    DisableDone(mfa, kind);
    assert Rest(mfa.methods, kind) == rest;
    assert HasEnabledOther(rest) <==>
      exists k :: 0 <= k < |rest| && rest[k].kind != BackupCode && rest[k].enabled;
    hide Disable, IndexOf, Promote, HasEnabledOther, Rest;
    if forall q :: 0 <= q < |rest| ==> !rest[q].isPrimary {
      forall k | 0 <= k < |rest|
        ensures |Promote(rest)| == |rest| && Promote(rest)[k] == Afterwards(rest, k, true)
      {
        PromoteAt(rest, k);
      }
    }
  }

  /**
   * So for settings that the service makes: if the disabled method was the primary one, the first that is left and is
   * not the backup entry takes over; if another one was, the rest stays as it is; the last one takes everything along.
   */
  lemma DisableResultExact(mfa: UserMfa, kind: Kind, i: nat)
    requires Inv(mfa) && mfa.isEnabled && i < |mfa.methods| && mfa.methods[i].kind == kind
    ensures var rest := mfa.methods[..i] + mfa.methods[i + 1..];
            if exists k :: 0 <= k < |rest| && rest[k].kind != BackupCode then
              && Disable(mfa, kind).Done?
              && var r := Disable(mfa, kind).mfa;
              && r == UserMfa(true, r.methods, mfa.backupCodes) && |r.methods| == |rest|
              && forall k :: 0 <= k < |rest| ==> r.methods[k] == Afterwards(rest, k, mfa.methods[i].isPrimary)
            else Disable(mfa, kind) == Done(UserMfa(false, [], []))
  {
    var rest := mfa.methods[..i] + mfa.methods[i + 1..];
    RemovePrimary(mfa.methods, i);
    RemoveKeepsTidy(mfa.methods, i);
    assert mfa.methods[i].isPrimary <==> forall q :: 0 <= q < |rest| ==> !rest[q].isPrimary;
    hide Disable, OnePrimary;
    DisableAny(mfa, kind, i);
  }

  // ---------------------------------------------------------------------------------------------
  // What enabling and disabling achieve
  // ---------------------------------------------------------------------------------------------

  ghost predicate Lists(methods: seq<Method>, entry: Method) {
    exists i :: 0 <= i < |methods| && methods[i] == entry
  }

  ghost predicate ListsKind(methods: seq<Method>, kind: Kind) {
    exists i :: 0 <= i < |methods| && methods[i].kind == kind
  }

  ghost predicate HasSecret(methods: seq<Method>, secret: string) {
    exists i :: 0 <= i < |methods| && methods[i].kind == Totp && methods[i].secret == Some(secret)
  }

  /**
   * Enabling fails exactly for a listed kind that is not the passkey, or for an authenticator app without a
   * secret; otherwise the kind is listed, an app with its secret, and the other methods but the backup entry stay.
   */
  lemma EnableOutcome(mfa: UserMfa, kind: Kind, secret: string, codes: Codes)
    requires Inv(mfa)
    ensures var r := Enable(mfa, kind, secret, codes);
            && (r == Fail(AlreadyEnabled) <==> ListsKind(mfa.methods, kind) && kind != Passkey)
            && (r == Fail(SecretRequired) <==> !ListsKind(mfa.methods, kind) && kind == Totp && secret == "")
            && (r.Done? || r == Fail(AlreadyEnabled) || r == Fail(SecretRequired))
            && (r.Done? ==>
                  && ListsKind(r.mfa.methods, kind)
                  && (kind == Totp ==> HasSecret(r.mfa.methods, secret))
                  && (forall i :: 0 <= i < |mfa.methods| && Other(mfa.methods[i]) && mfa.methods[i].kind != kind ==>
                        Lists(r.mfa.methods, mfa.methods[i])))
  {
    var i := IndexOf(mfa.methods, kind);
    var r := Enable(mfa, kind, secret, codes);
    if ListsKind(mfa.methods, kind) {
      assert i < |mfa.methods|;
    }
    if r.Done? {
      var base := if i < |mfa.methods| then mfa.methods[i].(enabled := true)
                  else Method(kind, true, mfa.methods == [], None);
      var entry := if kind == Totp then base.(secret := Some(secret)) else base;
      UpsertShape(mfa.methods, entry);
      var methods := Upsert(mfa.methods, entry);
      UpsertShape(methods, BACKUP);
      assert r.mfa.methods == methods || r.mfa.methods == Upsert(methods, BACKUP);
      hide Enable, Upsert, Inv, Tidy;
      assert methods[i].kind == kind && r.mfa.methods[i].kind == kind;
      assert kind == Totp ==> r.mfa.methods[i].secret == Some(secret);
      forall j | 0 <= j < |mfa.methods| && Other(mfa.methods[j]) && mfa.methods[j].kind != kind
        ensures Lists(r.mfa.methods, mfa.methods[j])
      {
        assert j != i && methods[j] == mfa.methods[j] && r.mfa.methods[j] == mfa.methods[j];
      }
    }
  }

  lemma FirstOfKind(methods: seq<Method>, kind: Kind, i: nat)
    requires i < |methods| && methods[i].kind == kind && forall j :: 0 <= j < i ==> methods[j].kind != kind
    ensures IndexOf(methods, kind) == i
  {
  }

  lemma RemovedAgain(mfa: UserMfa, entry: Method)
    requires Inv(mfa) && mfa.isEnabled && !ListsKind(mfa.methods, entry.kind)
    ensures Disable(mfa.(methods := mfa.methods + [entry]), entry.kind) == Done(mfa)
  {
    var n := |mfa.methods|;
    var methods := mfa.methods + [entry];
    forall j | 0 <= j < n
      ensures methods[j].kind != entry.kind
    {
      assert methods[j] == mfa.methods[j];
    }
    FirstOfKind(methods, entry.kind, n);
    assert methods[..n] + methods[n + 1..] == mfa.methods;
    hide IndexOf, Promote;
    var k :| 0 <= k < n && Other(mfa.methods[k]);
    assert mfa.methods[k].enabled;
  }

  /** The list with this kind on it: at its end if it is new. */
  ghost function WithKind(methods: seq<Method>, kind: Kind, secret: string): seq<Method> {
    if ListsKind(methods, kind) then methods
    else methods + [Method(kind, true, methods == [], if kind == Totp then Some(secret) else None)]
  }

  lemma UpsertAdds(methods: seq<Method>, entry: Method)
    ensures var r := Upsert(methods, entry);
            && |r| == |methods| + (if ListsKind(methods, entry.kind) then 0 else 1)
            && (!ListsKind(methods, entry.kind) ==> r == methods + [entry])
            && (Tidy(methods) ==> forall k :: 0 <= k < |methods| ==>
                  r[k] == if methods[k].kind == entry.kind then entry else methods[k])
  {
    hide IndexOf;
    assert ListsKind(methods, entry.kind) <==> IndexOf(methods, entry.kind) < |methods|;
  }

  /** A listed method that is not enabled is enabled in its place; only an app takes a new secret. */
  lemma ReenableKeepsPlace(mfa: UserMfa, kind: Kind, secret: string, codes: Codes, i: nat)
    requires i < |mfa.methods| && mfa.methods[i].kind == kind && !mfa.methods[i].enabled
    requires forall j :: 0 <= j < i ==> mfa.methods[j].kind != kind
    requires mfa.backupCodes != []
    ensures Enable(mfa, kind, secret, codes) ==
      if kind == Totp && secret == "" then Fail(SecretRequired) else
        var entry := mfa.methods[i];
        var secret' := if kind == Totp then Some(secret) else entry.secret;
        Done(UserMfa(true, mfa.methods[i := Method(kind, true, entry.isPrimary, secret')], mfa.backupCodes))
  {
    FirstOfKind(mfa.methods, kind, i);
    hide IndexOf;
  }

  /**
   * A method that is enabled goes to the end of the list, an app with its secret, the first one as primary. Codes
   * that are left stay; otherwise the new ones are stored, with a fresh entry for them that is not primary, at the
   * place of the old entry or at the end. Nothing else changes.
   */
  lemma EnableResultExact(mfa: UserMfa, kind: Kind, secret: string, codes: Codes)
    requires Inv(mfa) && Enable(mfa, kind, secret, codes).Done?
    ensures var r := Enable(mfa, kind, secret, codes).mfa; var listed := WithKind(mfa.methods, kind, secret);
            var newEntry := Method(BackupCode, true, false, None);
            if mfa.backupCodes != [] then r == UserMfa(true, listed, mfa.backupCodes) else
              && r == UserMfa(true, r.methods, codes.hashed)
              && (forall k :: 0 <= k < |listed| ==>
                    k < |r.methods| && r.methods[k] == if listed[k].kind == BackupCode then newEntry else listed[k])
              && (if ListsKind(listed, BackupCode) then |r.methods| == |listed|
                  else r.methods == listed + [newEntry])
  {
    var i := IndexOf(mfa.methods, kind);
    var base := if i < |mfa.methods| then mfa.methods[i].(enabled := true)
                else Method(kind, true, mfa.methods == [], None);
    var entry := if kind == Totp then base.(secret := Some(secret)) else base;
    var listed := WithKind(mfa.methods, kind, secret);
    assert ListsKind(mfa.methods, kind) <==> i < |mfa.methods|;
    if i < |mfa.methods| {
      assert entry == mfa.methods[i];
    }
    assert Upsert(mfa.methods, entry) == listed;
    UpsertAdds(listed, BACKUP);
    assert Tidy(listed);
    hide IndexOf, Upsert;
  }

  lemma FirstMethodAlone(entry: Method, hashed: seq<Hash>)
    requires entry.kind != BackupCode
    ensures Disable(UserMfa(true, [entry, BACKUP], hashed), entry.kind) == Done(NO_MFA)
  {
    FirstOfKind([entry, BACKUP], entry.kind, 0);
    assert [entry, BACKUP][..0] + [entry, BACKUP][1..] == [BACKUP];
    hide IndexOf;
  }

  lemma DisableKeepsCodes(mfa: UserMfa, kind: Kind)
    requires Disable(mfa, kind).Done?
    ensures var r := Disable(mfa, kind).mfa;
            r == NO_MFA || r.backupCodes == mfa.backupCodes
  {
    hide WithPrimary, IndexOf;
  }

  /**
   * Disabling a method that was just added restores the settings exactly if no new codes came with it, or it
   * was the first.
   */
  lemma DisableUndoesEnableIff(mfa: UserMfa, kind: Kind, secret: string, codes: Codes)
    requires Inv(mfa) && kind != BackupCode && !ListsKind(mfa.methods, kind) && codes.hashed != []
    requires Enable(mfa, kind, secret, codes).Done?
    ensures Disable(Enable(mfa, kind, secret, codes).mfa, kind) == Done(mfa) <==>
      !mfa.isEnabled || mfa.backupCodes != []
  {
    var entry := Method(kind, true, mfa.methods == [], if kind == Totp then Some(secret) else None);
    var r := Enable(mfa, kind, secret, codes).mfa;
    assert IndexOf(mfa.methods, kind) == |mfa.methods|;
    if !mfa.isEnabled {
      assert r.methods == [entry, BACKUP];
      FirstMethodAlone(entry, codes.hashed);
    } else if mfa.backupCodes != [] {
      assert r == mfa.(methods := mfa.methods + [entry]);
      RemovedAgain(mfa, entry);
    } else if Disable(r, kind).Done? {
      DisableKeepsCodes(r, kind);
    }
    hide Disable, IndexOf, Tidy, OnePrimary, HasOther, ListsKind;
  }

  // ---------------------------------------------------------------------------------------------
  // Runs, remembering what was issued and accepted
  // ---------------------------------------------------------------------------------------------

  /** Beside the settings: the codes generated last, and those accepted since; both end when everything is disabled. */
  datatype Account = Account(mfa: UserMfa, codes: Codes, accepted: seq<string>)

  const NO_CODES := Codes([], [])
  const NEW_ACCOUNT := Account(NO_MFA, NO_CODES, [])

  datatype Label =
    | EnableMethod(kind: Kind, secret: string, codes: Codes)
    | DisableMethod(kind: Kind)
    | Verify(code: string)

  function Do(a: Account, step: Label, matches: (string, Hash) -> bool): Account {
    match step
    case EnableMethod(kind, secret, codes) =>
      var r := Enable(a.mfa, kind, secret, codes);
      if r.Fail? then a
      else if a.mfa.backupCodes == [] then Account(r.mfa, codes, [])
      else a.(mfa := r.mfa)
    case DisableMethod(kind) =>
      var r := Disable(a.mfa, kind);
      if r.Fail? then a
      else if !r.mfa.isEnabled then Account(r.mfa, NO_CODES, [])
      else a.(mfa := r.mfa)
    case Verify(code) =>
      if Accepts(a.mfa, code, matches) then Account(UseCode(a.mfa, code, matches), a.codes, a.accepted + [code]) else a
  }

  function Run(labels: seq<Label>, matches: (string, Hash) -> bool): Account {
    if labels == [] then NEW_ACCOUNT else Do(Run(labels[..|labels| - 1], matches), labels[|labels| - 1], matches)
  }

  /** Enabling never names the backup codes: that entry comes with the first other method. */
  ghost predicate NamesMethods(labels: seq<Label>) {
    forall i :: 0 <= i < |labels| && labels[i].EnableMethod? ==> labels[i].kind != BackupCode
  }

  /**
   * Over every sequence of enabling, disabling and verifying: kinds are pairwise distinct and all enabled, the
   * account is enabled exactly if it has a method beside the backup codes, then exactly one is primary, and
   * otherwise no method and no code is left.
   */
  lemma {:induction false} InvariantOverRuns(labels: seq<Label>, matches: (string, Hash) -> bool)
    requires NamesMethods(labels)
    ensures Inv(Run(labels, matches).mfa)
  {
    if labels != [] {
      var front, last := labels[..|labels| - 1], labels[|labels| - 1];
      InvariantOverRuns(front, matches);
      var mfa := Run(front, matches).mfa;
      hide Run, Inv, Enable, Disable;
      match last
      case EnableMethod(kind, secret, codes) =>
        if Enable(mfa, kind, secret, codes).Done? {
          EnableKeepsInvIff(mfa, kind, secret, codes);
        }
      case DisableMethod(kind) =>
        if Disable(mfa, kind).Done? {
          DisableKeepsInv(mfa, kind);
        }
      case Verify(code) =>
        UseKeepsInv(mfa, code, matches);
    }
  }

  lemma UseKeepsInv(mfa: UserMfa, code: string, matches: (string, Hash) -> bool)
    requires Inv(mfa)
    ensures Inv(UseCode(mfa, code, matches))
  {
  }

  // ---------------------------------------------------------------------------------------------
  // Backup codes
  // ---------------------------------------------------------------------------------------------

  /** Ten codes with distinct hashes, each of which exactly its own code matches. */
  ghost predicate Sound(codes: Codes, matches: (string, Hash) -> bool) {
    && |codes.plain| == |codes.hashed| == CODE_COUNT
    && Faithful(codes, matches)
  }

  ghost predicate Faithful(codes: Codes, matches: (string, Hash) -> bool) {
    && |codes.plain| == |codes.hashed|
    && Distinct(codes.hashed)
    && forall c, j :: 0 <= j < |codes.plain| ==> (matches(c, codes.hashed[j]) <==> c == codes.plain[j])
  }

  /** The codes whose hashes are still stored. */
  function Left(codes: Codes, stored: seq<Hash>): multiset<string>
    requires |codes.plain| == |codes.hashed|
    decreases |codes.plain|
  {
    if codes.plain == [] then multiset{} else
      Left(Codes(codes.plain[1..], codes.hashed[1..]), stored) +
      if codes.hashed[0] in stored then multiset{codes.plain[0]} else multiset{}
  }

  lemma {:induction false} WithoutDrops(hashes: seq<Hash>, h: Hash)
    ensures forall x :: x in Without(hashes, h) <==> x in hashes && x != h
  {
    if hashes != [] {
      WithoutDrops(hashes[..|hashes| - 1], h);
      assert hashes == hashes[..|hashes| - 1] + [hashes[|hashes| - 1]];
    }
  }

  lemma {:induction false} LeftAll(codes: Codes, stored: seq<Hash>)
    requires |codes.plain| == |codes.hashed| && forall j :: 0 <= j < |codes.hashed| ==> codes.hashed[j] in stored
    ensures Left(codes, stored) == multiset(codes.plain)
    decreases |codes.plain|
  {
    if codes.plain != [] {
      LeftAll(Codes(codes.plain[1..], codes.hashed[1..]), stored);
      assert codes.plain == [codes.plain[0]] + codes.plain[1..];
    }
  }

  lemma {:induction false} LeftMembers(codes: Codes, stored: seq<Hash>, c: string)
    requires |codes.plain| == |codes.hashed|
    ensures c in Left(codes, stored) <==>
      exists j :: 0 <= j < |codes.plain| && codes.plain[j] == c && codes.hashed[j] in stored
    decreases |codes.plain|
  {
    if codes.plain != [] {
      var rest := Codes(codes.plain[1..], codes.hashed[1..]);
      LeftMembers(rest, stored, c);
      if j :| 0 <= j < |codes.plain| && codes.plain[j] == c && codes.hashed[j] in stored {
        if j > 0 { assert rest.plain[j - 1] == c && rest.hashed[j - 1] in stored; }
      }
    }
  }

  lemma {:induction false} LeftSame(codes: Codes, stored: seq<Hash>, fewer: seq<Hash>)
    requires |codes.plain| == |codes.hashed|
    requires forall j :: 0 <= j < |codes.hashed| ==> (codes.hashed[j] in stored <==> codes.hashed[j] in fewer)
    ensures Left(codes, stored) == Left(codes, fewer)
    decreases |codes.plain|
  {
    if codes.plain != [] {
      LeftSame(Codes(codes.plain[1..], codes.hashed[1..]), stored, fewer);
    }
  }

  /** Dropping one hash drops one occurrence of its code. */
  lemma {:induction false} LeftDrops(codes: Codes, stored: seq<Hash>, fewer: seq<Hash>, i: nat)
    requires |codes.plain| == |codes.hashed| && Distinct(codes.hashed)
    requires i < |codes.hashed| && codes.hashed[i] in stored
    requires forall x :: x in fewer <==> x in stored && x != codes.hashed[i]
    ensures Left(codes, stored) == Left(codes, fewer) + multiset{codes.plain[i]}
    decreases |codes.plain|
  {
    var rest := Codes(codes.plain[1..], codes.hashed[1..]);
    if i == 0 {
      LeftSame(rest, stored, fewer);
    } else {
      LeftDrops(rest, stored, fewer, i - 1);
    }
  }

  /** Every code generated last is either still left or was accepted since. */
  ghost predicate Conserved(a: Account, matches: (string, Hash) -> bool) {
    && Faithful(a.codes, matches)
    && |a.codes.plain| <= CODE_COUNT
    && (forall h :: h in a.mfa.backupCodes ==> h in a.codes.hashed)
    && multiset(a.accepted) + Left(a.codes, a.mfa.backupCodes) == multiset(a.codes.plain)
  }

  /** A code is accepted exactly if the backup entry is enabled and the code was generated more often than accepted. */
  lemma AcceptedIffLeft(a: Account, code: string, matches: (string, Hash) -> bool)
    requires Conserved(a, matches)
    ensures Accepts(a.mfa, code, matches) <==>
      && (exists i :: 0 <= i < |a.mfa.methods| && a.mfa.methods[i].kind == BackupCode && a.mfa.methods[i].enabled &&
            forall j :: 0 <= j < i ==> a.mfa.methods[j].kind != BackupCode)
      && multiset(a.accepted)[code] < multiset(a.codes.plain)[code]
  {
    var stored := a.mfa.backupCodes;
    LeftMembers(a.codes, stored, code);
    assert multiset(a.accepted)[code] + Left(a.codes, stored)[code] == multiset(a.codes.plain)[code];
    var i := Matching(stored, code, matches);
    if i < |stored| {
      assert stored[i] in a.codes.hashed;
    }
    if j :| 0 <= j < |a.codes.plain| && a.codes.plain[j] == code && a.codes.hashed[j] in stored {
      var k :| 0 <= k < |stored| && stored[k] == a.codes.hashed[j];
      assert matches(code, stored[k]);
    }
  }

  lemma VerifyConserves(a: Account, code: string, matches: (string, Hash) -> bool)
    requires Conserved(a, matches) && Accepts(a.mfa, code, matches)
    ensures Conserved(Do(a, Verify(code), matches), matches)
  {
    var stored := a.mfa.backupCodes;
    var i := Matching(stored, code, matches);
    var h := stored[i];
    assert h in stored && h in a.codes.hashed;
    var j :| 0 <= j < |a.codes.hashed| && a.codes.hashed[j] == h;
    var fewer := Without(stored, h);
    WithoutDrops(stored, h);
    LeftDrops(a.codes, stored, fewer, j);
    assert a.codes.plain[j] == code;
    assert multiset(a.accepted + [code]) == multiset(a.accepted) + multiset{code};
  }

  lemma StepConserves(a: Account, step: Label, matches: (string, Hash) -> bool)
    requires Conserved(a, matches) && (step.EnableMethod? ==> Sound(step.codes, matches))
    ensures Conserved(Do(a, step, matches), matches)
  {
    match step
    case EnableMethod(kind, secret, codes) =>
      LeftAll(codes, codes.hashed);
    case DisableMethod(kind) =>
    case Verify(code) =>
      if Accepts(a.mfa, code, matches) {
        VerifyConserves(a, code, matches);
      }
  }

  /**
   * Over every run whose generated codes are sound: the codes generated last are those accepted since plus
   * those left. So at most ten are accepted before the next generation, no code more often than it was
   * generated, and which code is accepted next is known exactly.
   */
  lemma {:induction false} BackupCodesConserved(labels: seq<Label>, matches: (string, Hash) -> bool)
    requires forall i :: 0 <= i < |labels| && labels[i].EnableMethod? ==> Sound(labels[i].codes, matches)
    ensures var a := Run(labels, matches);
            Conserved(a, matches) && |a.accepted| <= CODE_COUNT && multiset(a.accepted) <= multiset(a.codes.plain)
  {
    if labels != [] {
      BackupCodesConserved(labels[..|labels| - 1], matches);
      StepConserves(Run(labels[..|labels| - 1], matches), labels[|labels| - 1], matches);
    }
    var a := Run(labels, matches);
    hide Run, Do;
    assert |multiset(a.accepted)| + |Left(a.codes, a.mfa.backupCodes)| == |multiset(a.codes.plain)|;
  }

  /** Among distinct hashes an accepted code takes out the one it matches first, and leaves the others in order. */
  lemma UseCodeTakesOne(mfa: UserMfa, code: string, matches: (string, Hash) -> bool, i: nat)
    requires Accepts(mfa, code, matches) && Distinct(mfa.backupCodes)
    requires i < |mfa.backupCodes| && matches(code, mfa.backupCodes[i])
    requires forall j :: 0 <= j < i ==> !matches(code, mfa.backupCodes[j])
    ensures UseCode(mfa, code, matches) == mfa.(backupCodes := mfa.backupCodes[..i] + mfa.backupCodes[i + 1..])
  {
    assert Matching(mfa.backupCodes, code, matches) == i;
    WithoutOne(mfa.backupCodes, i);
    hide Matching, Accepts;
  }

  lemma {:induction false} WithoutOne(hashes: seq<Hash>, i: nat)
    requires i < |hashes| && Distinct(hashes)
    ensures Without(hashes, hashes[i]) == hashes[..i] + hashes[i + 1..]
  {
    var front := hashes[..|hashes| - 1];
    if i < |front| {
      WithoutOne(front, i);
      assert front[..i] == hashes[..i] && hashes[i + 1..] == front[i + 1..] + [hashes[|front|]];
    } else {
      WithoutNone(front, hashes[i]);
      assert front == hashes[..i];
    }
  }

  lemma {:induction false} WithoutNone(hashes: seq<Hash>, h: Hash)
    requires h !in hashes
    ensures Without(hashes, h) == hashes
  {
    if hashes != [] {
      WithoutNone(hashes[..|hashes| - 1], h);
    }
  }

  /** Codes that were generated pairwise distinct are accepted at most once each. */
  lemma SingleUse(labels: seq<Label>, matches: (string, Hash) -> bool)
    requires forall i :: 0 <= i < |labels| && labels[i].EnableMethod? ==> Sound(labels[i].codes, matches)
    requires Distinct(Run(labels, matches).codes.plain)
    ensures Distinct(Run(labels, matches).accepted)
  {
    BackupCodesConserved(labels, matches);
    var a := Run(labels, matches);
    hide Run, Conserved, Sound;
    forall i, j | 0 <= i < j < |a.accepted|
      ensures a.accepted[i] != a.accepted[j]
    {
      if a.accepted[i] == a.accepted[j] {
        TwiceCounts(a.accepted, i, j);
        DistinctCounts(a.codes.plain, a.accepted[i]);
        assert false;
      }
    }
  }

  lemma TwiceCounts<T>(s: seq<T>, i: nat, j: nat)
    requires i < j < |s| && s[i] == s[j]
    ensures multiset(s)[s[i]] >= 2
  {
    assert s == s[..j] + [s[j]] + s[j + 1..];
    assert s[..j][i] == s[i] && s[i] in s[..j];
  }

  lemma {:induction false} DistinctCounts<T>(s: seq<T>, c: T)
    requires Distinct(s)
    ensures multiset(s)[c] <= 1
  {
    if s != [] {
      var front, last := s[..|s| - 1], s[|s| - 1];
      assert s == front + [last];
      DistinctCounts(front, c);
      if c == last {
        assert c !in front;
      }
    }
  }

  /** This step of a run stores new codes. */
  predicate Generates(labels: seq<Label>, k: nat, matches: (string, Hash) -> bool)
    requires k < |labels|
  {
    var mfa := Run(labels[..k], matches).mfa;
    && labels[k].EnableMethod? && mfa.backupCodes == []
    && Enable(mfa, labels[k].kind, labels[k].secret, labels[k].codes).Done?
  }

  /** This step of a run disables everything. */
  predicate DisablesAll(labels: seq<Label>, k: nat, matches: (string, Hash) -> bool)
    requires k < |labels|
  {
    labels[k].DisableMethod? && Disable(Run(labels[..k], matches).mfa, labels[k].kind) == Done(NO_MFA)
  }

  /** The code that this step of a run accepts, if any. */
  function AcceptedAt(labels: seq<Label>, k: nat, matches: (string, Hash) -> bool): seq<string>
    requires k < |labels|
  {
    var step := labels[k];
    if step.Verify? && Accepts(Run(labels[..k], matches).mfa, step.code, matches) then [step.code] else []
  }

  /** The codes that the steps from `i` up to `j` of a run accept. */
  function AcceptedIn(labels: seq<Label>, i: nat, j: nat, matches: (string, Hash) -> bool): seq<string>
    requires i <= j <= |labels|
  {
    if i == j then [] else
      AcceptedIn(labels, i, j - 1, matches) + AcceptedAt(labels, j - 1, matches)
  }

  lemma RunNext(labels: seq<Label>, k: nat, matches: (string, Hash) -> bool)
    requires k < |labels|
    ensures Run(labels[..k + 1], matches) == Do(Run(labels[..k], matches), labels[k], matches)
  {
    assert labels[..k + 1][..k] == labels[..k];
    hide Do;
  }

  lemma EndsOnlyCleared(mfa: UserMfa, kind: Kind)
    requires mfa.isEnabled && Disable(mfa, kind).Done?
    ensures !Disable(mfa, kind).mfa.isEnabled <==> Disable(mfa, kind) == Done(NO_MFA)
  {
    hide WithPrimary, IndexOf;
  }

  /** A step that neither generates codes nor disables everything only adds the code it accepts to the record. */
  lemma KeepsRecord(a: Account, step: Label, matches: (string, Hash) -> bool)
    requires step.EnableMethod? ==>
      a.mfa.backupCodes != [] || Enable(a.mfa, step.kind, step.secret, step.codes).Fail?
    requires step.DisableMethod? ==> Disable(a.mfa, step.kind) != Done(NO_MFA)
    ensures var r := Do(a, step, matches);
            && r.codes == a.codes
            && r.accepted == a.accepted + if step.Verify? && Accepts(a.mfa, step.code, matches) then [step.code] else []
  {
    if step.DisableMethod? && Disable(a.mfa, step.kind).Done? {
      EndsOnlyCleared(a.mfa, step.kind);
    }
    hide Enable, Disable, Accepts, UseCode;
  }

  lemma KeepsRecordAt(labels: seq<Label>, k: nat, matches: (string, Hash) -> bool)
    requires k < |labels| && !Generates(labels, k, matches) && !DisablesAll(labels, k, matches)
    ensures var a := Run(labels[..k], matches); var r := Do(a, labels[k], matches);
            && r.codes == a.codes
            && r.accepted == a.accepted + AcceptedAt(labels, k, matches)
  {
    hide Run, Do, Enable, Disable, Accepts;
    KeepsRecord(Run(labels[..k], matches), labels[k], matches);
  }

  lemma AcceptedNext(labels: seq<Label>, i: nat, j: nat, matches: (string, Hash) -> bool)
    requires i < j <= |labels|
    ensures AcceptedIn(labels, i, j, matches) ==
      AcceptedIn(labels, i, j - 1, matches) + AcceptedAt(labels, j - 1, matches)
  {
    hide AcceptedAt;
  }

  lemma RecordBegins(labels: seq<Label>, i: nat, matches: (string, Hash) -> bool)
    requires i < |labels| && Generates(labels, i, matches)
    ensures var a := Do(Run(labels[..i], matches), labels[i], matches);
            a.codes == labels[i].codes && a.accepted == AcceptedIn(labels, i + 1, i + 1, matches)
  {
    hide Run, Enable;
  }

  /** Between two generations the record keeps the generated codes and what was accepted of them. */
  lemma {:induction false} SinceGenerated(labels: seq<Label>, i: nat, j: nat, matches: (string, Hash) -> bool)
    requires i < j <= |labels| && Generates(labels, i, matches)
    requires forall k :: i < k < j ==> !Generates(labels, k, matches) && !DisablesAll(labels, k, matches)
    ensures var a := Run(labels[..j], matches);
            a.codes == labels[i].codes && a.accepted == AcceptedIn(labels, i + 1, j, matches)
    decreases j
  {
    hide *;
    RunNext(labels, j - 1, matches);
    if j > i + 1 {
      SinceGenerated(labels, i, j - 1, matches);
      KeepsRecordAt(labels, j - 1, matches);
      AcceptedNext(labels, i + 1, j, matches);
    } else {
      RecordBegins(labels, i, matches);
    }
  }

  /**
   * Over every run: when new codes are generated, each code of the generation before has been accepted since then,
   * as often as it was generated, unless everything was disabled in between, which drops the codes that were left.
   */
  lemma NewCodesOnlyWhenSpent(labels: seq<Label>, i: nat, j: nat, matches: (string, Hash) -> bool)
    requires forall k :: 0 <= k < |labels| && labels[k].EnableMethod? ==> Sound(labels[k].codes, matches)
    requires i < j < |labels| && Generates(labels, i, matches) && Generates(labels, j, matches)
    requires forall k :: i < k < j ==> !Generates(labels, k, matches)
    ensures
      || (exists k :: i < k < j && DisablesAll(labels, k, matches))
      || multiset(AcceptedIn(labels, i + 1, j, matches)) == multiset(labels[i].codes.plain)
  {
    if forall k :: i < k < j ==> !DisablesAll(labels, k, matches) {
      SinceGenerated(labels, i, j, matches);
      BackupCodesConserved(labels[..j], matches);
      var a := Run(labels[..j], matches);
      hide Run, Enable, Disable, AcceptedIn;
      assert a.mfa.backupCodes == [];
      LeftNone(a.codes);
    }
  }

  lemma {:induction false} LeftNone(codes: Codes)
    requires |codes.plain| == |codes.hashed|
    ensures Left(codes, []) == multiset{}
    decreases |codes.plain|
  {
    if codes.plain != [] {
      LeftNone(Codes(codes.plain[1..], codes.hashed[1..]));
    }
  }

  /** The ten codes are the drawn ones, each hashed on its own; so distinct draws give distinct codes. */
  lemma CodesAreDrawn(draw: nat -> string, hash: (nat, string) -> Hash)
    ensures var codes := GenerateBackupCodes(draw, hash);
            && |codes.plain| == |codes.hashed| == 10
            && (forall i :: 0 <= i < 10 ==> codes.plain[i] == draw(i) && codes.hashed[i] == hash(i, draw(i)))
            && ((forall i, j :: 0 <= i < j < 10 ==> draw(i) != draw(j)) ==> Distinct(codes.plain))
  {
  }

  /** Generated codes are sound if salted hashes differ and are matched exactly by what was hashed. */
  lemma GeneratedAreSound(draw: nat -> string, hash: (nat, string) -> Hash, matches: (string, Hash) -> bool)
    requires forall i, p, c :: matches(c, hash(i, p)) <==> c == p
    requires forall i, j, p, q :: i != j ==> hash(i, p) != hash(j, q)
    ensures Sound(GenerateBackupCodes(draw, hash), matches)
  {
    var codes := GenerateBackupCodes(draw, hash);
    forall j | 0 <= j < CODE_COUNT
      ensures codes.hashed[j] == hash(j, codes.plain[j])
    {
      assert codes.plain[j] == draw(j);
    }
  }

  /** The draws of one generation, made when the step of the same index is an enabling. */
  datatype Draws = Draws(draw: nat -> string, hash: (nat, string) -> Hash)

  /** Pairwise distinct codes, and salted hashes that differ and are matched exactly by what was hashed. */
  ghost predicate GoodDraws(d: Draws, matches: (string, Hash) -> bool) {
    && (forall i, j :: 0 <= i < j < 10 ==> d.draw(i) != d.draw(j))
    && (forall i, p, c :: matches(c, d.hash(i, p)) <==> c == p)
    && (forall i, j, p, q :: i != j ==> d.hash(i, p) != d.hash(j, q))
  }

  lemma {:induction false} CodesOfRun(labels: seq<Label>, matches: (string, Hash) -> bool)
    requires forall i :: 0 <= i < |labels| && labels[i].EnableMethod? ==> Distinct(labels[i].codes.plain)
    ensures Distinct(Run(labels, matches).codes.plain)
  {
    if labels != [] {
      CodesOfRun(labels[..|labels| - 1], matches);
      hide Enable, Disable, Accepts, UseCode, Distinct;
    }
  }

  /**
   * Over every run whose codes come from distinct draws, each of the ten is accepted at most once before new ones
   * are generated.
   */
  lemma DrawnCodesAreSingleUse(labels: seq<Label>, draws: seq<Draws>, matches: (string, Hash) -> bool)
    requires |draws| == |labels|
    requires forall k :: 0 <= k < |labels| && labels[k].EnableMethod? ==>
      GoodDraws(draws[k], matches) && labels[k].codes == GenerateBackupCodes(draws[k].draw, draws[k].hash)
    ensures Distinct(Run(labels, matches).accepted) && |Run(labels, matches).accepted| <= 10
  {
    forall k | 0 <= k < |labels| && labels[k].EnableMethod?
      ensures Sound(labels[k].codes, matches) && Distinct(labels[k].codes.plain)
    {
      assert GoodDraws(draws[k], matches);
      GeneratedAreSound(draws[k].draw, draws[k].hash, matches);
      CodesAreDrawn(draws[k].draw, draws[k].hash);
    }
    hide Run, Sound, GoodDraws, GenerateBackupCodes, Distinct;
    CodesOfRun(labels, matches);
    SingleUse(labels, matches);
    BackupCodesConserved(labels, matches);
  }

  // ---------------------------------------------------------------------------------------------
  // Backup codes without their entry
  // ---------------------------------------------------------------------------------------------

  /** Codes are stored, but the entry that admits them was disabled. */
  ghost predicate Stranded(mfa: UserMfa) {
    mfa.isEnabled && mfa.backupCodes != [] && AllOther(mfa.methods)
  }

  lemma WithPrimaryKeepsKinds(methods: seq<Method>)
    requires HasOther(methods)
    ensures |WithPrimary(methods)| == |methods|
    ensures forall k :: 0 <= k < |methods| ==> WithPrimary(methods)[k].kind == methods[k].kind
  {
    hide FirstOther;
  }

  ghost predicate AllOther(methods: seq<Method>) {
    forall i :: 0 <= i < |methods| ==> Other(methods[i])
  }

  /** Without the backup codes left in the list, disabling a method either keeps it so or clears everything. */
  lemma RestIsOther(mfa: UserMfa, kind: Kind, methods: seq<Method>)
    requires mfa.isEnabled && Tidy(mfa.methods) && IndexOf(mfa.methods, kind) < |mfa.methods|
    requires var i := IndexOf(mfa.methods, kind); methods == mfa.methods[..i] + mfa.methods[i + 1..]
    requires AllOther(methods)
    ensures Disable(mfa, kind) == if methods == [] then Done(NO_MFA) else Done(mfa.(methods := WithPrimary(methods)))
    ensures methods != [] ==> AllOther(WithPrimary(methods)) && |WithPrimary(methods)| == |methods|
  {
    RemoveKeepsTidy(mfa.methods, IndexOf(mfa.methods, kind));
    if methods != [] {
      assert Other(methods[0]) && methods[0].enabled;
      WithPrimaryKeepsKinds(methods);
    }
    hide WithPrimary, IndexOf;
  }

  lemma DisableKeepsStranded(mfa: UserMfa, kind: Kind)
    requires Inv(mfa) && Stranded(mfa) && Disable(mfa, kind).Done?
    ensures var r := Disable(mfa, kind).mfa;
            r == NO_MFA || (Stranded(r) && r.backupCodes == mfa.backupCodes)
  {
    var i := IndexOf(mfa.methods, kind);
    var methods := mfa.methods[..i] + mfa.methods[i + 1..];
    assert AllOther(methods);
    RestIsOther(mfa, kind, methods);
    hide WithPrimary, IndexOf, Disable, Inv;
  }

  lemma EnableKeepsStranded(mfa: UserMfa, kind: Kind, secret: string, codes: Codes)
    requires Inv(mfa) && Stranded(mfa) && kind != BackupCode && Enable(mfa, kind, secret, codes).Done?
    ensures var r := Enable(mfa, kind, secret, codes).mfa;
            Stranded(r) && r.backupCodes == mfa.backupCodes
  {
  }

  /**
   * Disabling the backup-code entry keeps the codes but none of them is accepted any more, and no later
   * step but disabling everything or naming the entry itself changes that.
   */
  lemma StrandedCodesStay(a: Account, step: Label, matches: (string, Hash) -> bool)
    requires Inv(a.mfa) && Stranded(a.mfa) && !(step.EnableMethod? && step.kind == BackupCode)
    ensures var r := Do(a, step, matches);
            (r.accepted == a.accepted && r.mfa.backupCodes == a.mfa.backupCodes && Stranded(r.mfa)) || r == NEW_ACCOUNT
  {
    match step
    case EnableMethod(kind, secret, codes) =>
      if Enable(a.mfa, kind, secret, codes).Done? {
        EnableKeepsStranded(a.mfa, kind, secret, codes);
      }
      hide Enable, Inv;
    case DisableMethod(kind) =>
      if Disable(a.mfa, kind).Done? {
        DisableKeepsStranded(a.mfa, kind);
      }
      hide Disable, Inv;
    case Verify(code) =>
  }

  lemma OtherKind(methods: seq<Method>, i: nat, q: nat)
    requires Tidy(methods) && i < |methods| && q < |methods| && i != q
    ensures methods[i].kind != methods[q].kind
  {
    if i < q {
      assert methods[i].kind != methods[q].kind;
    }
  }

  lemma RestWithout(methods: seq<Method>, i: nat)
    requires Tidy(methods) && i < |methods| && methods[i].kind == BackupCode
    ensures AllOther(methods[..i] + methods[i + 1..])
  {
    var rest := methods[..i] + methods[i + 1..];
    hide Tidy;
    forall q | 0 <= q < |rest|
      ensures Other(rest[q])
    {
      var p := if q < i then q else q + 1;
      assert rest[q] == methods[p];
      OtherKind(methods, i, p);
    }
  }

  lemma WithoutTheEntry(methods: seq<Method>)
    requires Tidy(methods) && HasOther(methods) && IndexOf(methods, BackupCode) < |methods|
    ensures var i := IndexOf(methods, BackupCode);
            AllOther(methods[..i] + methods[i + 1..]) && |methods| > 1
  {
    var i := IndexOf(methods, BackupCode);
    RestWithout(methods, i);
    hide IndexOf, Tidy, AllOther;
    var k :| 0 <= k < |methods| && Other(methods[k]);
    assert k != i;
  }

  lemma DisablingTheEntryStrands(mfa: UserMfa)
    requires Inv(mfa) && mfa.backupCodes != [] && Disable(mfa, BackupCode).Done?
    ensures Stranded(Disable(mfa, BackupCode).mfa) && Disable(mfa, BackupCode).mfa.backupCodes == mfa.backupCodes
  {
    var i := IndexOf(mfa.methods, BackupCode);
    WithoutTheEntry(mfa.methods);
    RestIsOther(mfa, BackupCode, mfa.methods[..i] + mfa.methods[i + 1..]);
    hide WithPrimary, IndexOf, Disable, Tidy, AllOther, OnePrimary, HasOther;
  }
}
