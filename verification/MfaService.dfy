/** The second-factor service: the settings of all users, updated step by step. */
module MfaService {
  import opened Collections
  import opened Mfa
  import opened MfaLaws

  type UserId = string

  datatype Result<+T> = Success(value: T) | Failure(error: Error)

  class MfaService {
    var users: map<UserId, UserMfa>

    constructor (users: map<UserId, UserMfa>)
      ensures this.users == users
    {
      this.users := users;
    }

    /** Returns the plain codes if new ones were generated. A failure changes nothing. */
    method EnableMfaMethod(userId: UserId, kind: Kind, secret: string, draw: nat -> string, hash: (nat, string) -> Hash)
      returns (r: Result<Option<seq<string>>>)
      modifies this
      ensures var codes := GenerateBackupCodes(draw, hash);
              if userId !in old(users) then r == Failure(UserNotFound) && users == old(users) else
                var e := Enable(old(users)[userId], kind, secret, codes);
                if e.Fail? then r == Failure(e.error) && users == old(users)
                else users == old(users)[userId := e.mfa] &&
                     r == Success(if old(users)[userId].backupCodes == [] then Some(codes.plain) else None)
    {
      if userId !in users {
        return Failure(UserNotFound);
      }
      var mfa := users[userId];
      ghost var e := Enable(mfa, kind, secret, GenerateBackupCodes(draw, hash));
      var existing := IndexOf(mfa.methods, kind);
      if existing < |mfa.methods| && mfa.methods[existing].enabled {
        if kind != Passkey {
          return Failure(AlreadyEnabled);
        }
      }
      var entry := if existing < |mfa.methods| then mfa.methods[existing]
                   else Method(kind, true, |mfa.methods| == 0, None);
      entry := entry.(enabled := true);
      if kind == Totp {
        if secret == "" {
          return Failure(SecretRequired);
        }
        entry := entry.(secret := Some(secret));
      }
      var methods := mfa.methods;
      if existing < |methods| {
        methods := methods[existing := entry];
      } else {
        methods := methods + [entry];
      }
      assert methods == Upsert(mfa.methods, entry);
      var raw;
      mfa, raw := WithBackupCodes(UserMfa(true, methods, mfa.backupCodes), draw, hash);
      assert e == Done(mfa);
      hide Enable, Upsert, IndexOf, GenerateBackupCodes;
      users := users[userId := mfa];
      return Success(raw);
    }

    method DisableMfaMethod(userId: UserId, kind: Kind) returns (r: Result<()>)
      modifies this
      ensures if userId !in old(users) then r == Failure(UserNotFound) && users == old(users) else
                var d := Disable(old(users)[userId], kind);
                if d.Fail? then r == Failure(d.error) && users == old(users)
                else r == Success(()) && users == old(users)[userId := d.mfa]
    {
      if userId !in users {
        return Failure(UserNotFound);
      }
      var mfa := users[userId];
      if !mfa.isEnabled {
        return Failure(NotEnabled);
      }
      var index := IndexOf(mfa.methods, kind);
      if index == |mfa.methods| {
        return Failure(MethodNotFound);
      }
      mfa := Removed(mfa, kind, index);
      users := users[userId := mfa];
      return Success(());
    }

    /** Only the backup-code branch: the first hash that matches is used up. */
    method VerifyBackupCode(userId: UserId, code: string, matches: (string, Hash) -> bool) returns (r: Result<bool>)
      modifies this
      ensures if userId !in old(users) then r == Failure(UserNotFound) && users == old(users) else
                r == Success(Accepts(old(users)[userId], code, matches)) &&
                users == old(users)[userId := UseCode(old(users)[userId], code, matches)]
    {
      if userId !in users {
        return Failure(UserNotFound);
      }
      var mfa := users[userId];
      assert users == users[userId := mfa];
      var index := IndexOf(mfa.methods, BackupCode);
      if index == |mfa.methods| || !mfa.methods[index].enabled {
        return Success(false);
      }
      for i := 0 to |mfa.backupCodes|
        invariant forall j :: 0 <= j < i ==> !matches(code, mfa.backupCodes[j])
        invariant users == old(users)
      {
        var hash := mfa.backupCodes[i];
        if matches(code, hash) {
          assert i == Matching(mfa.backupCodes, code, matches);
          var codes := Filtered(mfa.backupCodes, hash);
          users := users[userId := mfa.(backupCodes := codes)];
          return Success(true);
        }
      }
      return Success(false);
    }
  }

  /** New codes and their entry, unless some codes are left. */
  method WithBackupCodes(mfa: UserMfa, draw: nat -> string, hash: (nat, string) -> Hash)
    returns (r: UserMfa, raw: Option<seq<string>>)
    ensures var codes := GenerateBackupCodes(draw, hash);
            if mfa.backupCodes == []
            then r == mfa.(methods := Upsert(mfa.methods, BACKUP), backupCodes := codes.hashed) &&
                 raw == Some(codes.plain)
            else r == mfa && raw == None
  {
    r, raw := mfa, None;
    if |mfa.backupCodes| == 0 {
      var codes := GenerateBackupCodes(draw, hash);
      var methods, index := mfa.methods, IndexOf(mfa.methods, BackupCode);
      if index < |methods| {
        methods := methods[index := BACKUP];
      } else {
        methods := methods + [BACKUP];
      }
      r, raw := mfa.(methods := methods, backupCodes := codes.hashed), Some(codes.plain);
    }
  }

  /**
   * Takes the method out; without another one everything is cleared, and without a primary one the first
   * becomes it.
   */
  method Removed(mfa: UserMfa, kind: Kind, index: nat) returns (r: UserMfa)
    requires mfa.isEnabled && index == IndexOf(mfa.methods, kind) < |mfa.methods|
    ensures Disable(mfa, kind) == Done(r)
  {
    hide IndexOf, Promote, Other, Afterwards;
    var methods := mfa.methods[..index] + mfa.methods[index + 1..];
    if !exists k :: 0 <= k < |methods| && Other(methods[k]) && methods[k].enabled {
      return NO_MFA;
    }
    if !exists k :: 0 <= k < |methods| && methods[k].isPrimary {
      methods := Promoted(methods);
    }
    return mfa.(methods := methods);
  }

  /** The first method that is not the backup codes is marked primary, if there is one. */
  method Promoted(methods: seq<Method>) returns (r: seq<Method>)
    ensures r == Promote(methods) && |r| == |methods|
    ensures forall k :: 0 <= k < |methods| ==> r[k] == Afterwards(methods, k, true)
  {
    forall k | 0 <= k < |methods|
      ensures |Promote(methods)| == |methods| && Promote(methods)[k] == Afterwards(methods, k, true)
    {
      PromoteAt(methods, k);
    }
    var i := 0;
    while i < |methods| && !Other(methods[i])
      invariant i <= |methods|
      invariant forall j :: 0 <= j < i ==> !Other(methods[j])
    {
      i := i + 1;
    }
    assert i == FirstOther(methods);
    if i < |methods| {
      return methods[i := methods[i].(isPrimary := true)];
    }
    return methods;
  }

  method Filtered(hashes: seq<Hash>, h: Hash) returns (r: seq<Hash>)
    ensures r == Without(hashes, h)
  {
    r := [];
    for i := 0 to |hashes|
      invariant r == Without(hashes[..i], h)
    {
      assert hashes[..i + 1][..i] == hashes[..i];
      if hashes[i] != h {
        r := r + [hashes[i]];
      }
    }
    assert hashes[..|hashes|] == hashes;
  }
}
