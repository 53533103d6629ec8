/**
 * Second-factor settings of one account: enabling and disabling methods, and the one-time backup codes.
 * Encryption, hashing and the other factors' verification are left out; a hash is compared by a relation.
 */
module Mfa {
  import opened Collections

  datatype Kind = Email | Sms | Totp | BackupCode | Passkey

  datatype Method = Method(kind: Kind, enabled: bool, isPrimary: bool, secret: Option<string>)

  type Hash = string

  datatype UserMfa = UserMfa(isEnabled: bool, methods: seq<Method>, backupCodes: seq<Hash>)

  const NO_MFA := UserMfa(false, [], [])
  const BACKUP := Method(BackupCode, true, false, None)
  const CODE_COUNT: nat := 10

  datatype Error = UserNotFound | AlreadyEnabled | SecretRequired | NotEnabled | MethodNotFound

  datatype Reply = Done(mfa: UserMfa) | Fail(error: Error)

  /** Freshly generated codes: what is shown once, and what is stored. */
  datatype Codes = Codes(plain: seq<string>, hashed: seq<Hash>)

  /** Ten drawn codes, each hashed with its own salt. */
  function GenerateBackupCodes(draw: nat -> string, hash: (nat, string) -> Hash): Codes {
    Codes(seq(CODE_COUNT, i requires 0 <= i < CODE_COUNT => draw(i)),
          seq(CODE_COUNT, i requires 0 <= i < CODE_COUNT => hash(i, draw(i))))
  }

  /** The first method of a kind; the length if there is none. */
  function IndexOf(methods: seq<Method>, kind: Kind): (i: nat)
    ensures i <= |methods|
    ensures i < |methods| ==> methods[i].kind == kind
    ensures forall j :: 0 <= j < i ==> methods[j].kind != kind
  {
    if methods == [] || methods[0].kind == kind then 0 else 1 + IndexOf(methods[1..], kind)
  }

  /** Replaces the method of this kind, or appends it. */
  function Upsert(methods: seq<Method>, entry: Method): seq<Method> {
    var i := IndexOf(methods, entry.kind);
    if i < |methods| then methods[i := entry] else methods + [entry]
  }

  function Enable(mfa: UserMfa, kind: Kind, secret: string, codes: Codes): Reply {
    var i := IndexOf(mfa.methods, kind);
    if i < |mfa.methods| && mfa.methods[i].enabled && kind != Passkey then Fail(AlreadyEnabled)
    else if kind == Totp && secret == "" then Fail(SecretRequired)
    else
      var base := if i < |mfa.methods| then mfa.methods[i].(enabled := true)
                  else Method(kind, true, mfa.methods == [], None);
      var methods := Upsert(mfa.methods, if kind == Totp then base.(secret := Some(secret)) else base);
      if mfa.backupCodes == [] then Done(UserMfa(true, Upsert(methods, BACKUP), codes.hashed))
      else Done(UserMfa(true, methods, mfa.backupCodes))
  }

  predicate Other(entry: Method) {
    entry.kind != BackupCode
  }

  /** The first method that is not the backup codes; the length if there is none. */
  function FirstOther(methods: seq<Method>): (i: nat)
    ensures i <= |methods|
    ensures i < |methods| ==> Other(methods[i])
    ensures forall j :: 0 <= j < i ==> !Other(methods[j])
  {
    if methods == [] || Other(methods[0]) then 0 else 1 + FirstOther(methods[1..])
  }

  /** The first method that is not the backup codes becomes the primary one. */
  function Promote(methods: seq<Method>): seq<Method> {
    var i := FirstOther(methods);
    if i < |methods| then methods[i := methods[i].(isPrimary := true)] else methods
  }

  function WithPrimary(methods: seq<Method>): seq<Method> {
    if exists k :: 0 <= k < |methods| && methods[k].isPrimary then methods else Promote(methods)
  }

  function Disable(mfa: UserMfa, kind: Kind): Reply {
    var i := IndexOf(mfa.methods, kind);
    if !mfa.isEnabled then Fail(NotEnabled)
    else if i == |mfa.methods| then Fail(MethodNotFound)
    else
      var methods := mfa.methods[..i] + mfa.methods[i + 1..];
      if !exists k :: 0 <= k < |methods| && Other(methods[k]) && methods[k].enabled then Done(NO_MFA)
      else Done(mfa.(methods := WithPrimary(methods)))
  }

  /** The first stored hash that the code matches; the length if there is none. */
  function Matching(hashes: seq<Hash>, code: string, matches: (string, Hash) -> bool): (i: nat)
    ensures i <= |hashes|
    ensures i < |hashes| ==> matches(code, hashes[i])
    ensures forall j :: 0 <= j < i ==> !matches(code, hashes[j])
  {
    if hashes == [] || matches(code, hashes[0]) then 0 else 1 + Matching(hashes[1..], code, matches)
  }

  function Without(hashes: seq<Hash>, h: Hash): seq<Hash> {
    if hashes == [] then [] else
      var last := hashes[|hashes| - 1];
      Without(hashes[..|hashes| - 1], h) + if last == h then [] else [last]
  }

  predicate Accepts(mfa: UserMfa, code: string, matches: (string, Hash) -> bool) {
    var i := IndexOf(mfa.methods, BackupCode);
    i < |mfa.methods| && mfa.methods[i].enabled && Matching(mfa.backupCodes, code, matches) < |mfa.backupCodes|
  }

  /** An accepted code's hash is taken out of the stored ones. */
  function UseCode(mfa: UserMfa, code: string, matches: (string, Hash) -> bool): UserMfa {
    if Accepts(mfa, code, matches)
    then mfa.(backupCodes := Without(mfa.backupCodes, mfa.backupCodes[Matching(mfa.backupCodes, code, matches)]))
    else mfa
  }
}
