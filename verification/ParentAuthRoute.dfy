/** AuthManager of app/auth.py for one account, with its loops and row updates. */
module ParentAuthRoute {
  import opened Common
  import opened ParentAuth
  import opened ParentAuthProofs

  /** Tries the counters of the window in order; the first unused one that produces the code wins. */
  method VerifySecretCode(hotp: Hotp, secret: Secret, code: string, at: int, last: int) returns (counter: Option<int>)
    ensures counter == Accepted(hotp, secret, code, at, last)
    ensures counter.Some? ==> Opens(hotp, secret, Compact(code), counter.value, last)
                              && at / Period - 1 <= counter.value <= at / Period + 1
    ensures counter.None? && IsOtp(Compact(code)) ==>
              forall c | at / Period - 1 <= c <= at / Period + 1 :: !Opens(hotp, secret, Compact(code), c, last)
  {
    var compact := Compact(code);
    if !IsOtp(compact) {
      return None;
    }
    var base := at / Period;
    for delta := -1 to 2
      invariant forall c | base - 1 <= c < base + delta :: !Opens(hotp, secret, compact, c, last)
    {
      var candidate := base + delta;
      if candidate > last {
        var expected := hotp(secret, candidate);
        if expected == compact {
          return Some(candidate);
        }
      }
    }
    counter := None;
  }

  lemma FirstHitIs(
    devices: seq<Device>, hotp: Hotp, code: string, at: int, readable: set<nat>, i: nat)
    requires i <= |devices|
    requires i < |devices| ==> ProbeDevice(devices[i], hotp, code, at, readable) != Next
    requires forall k | 0 <= k < i :: ProbeDevice(devices[k], hotp, code, at, readable) == Next
    ensures FirstHit(devices, hotp, code, at, readable) == i
  {
    var j := FirstHit(devices, hotp, code, at, readable);
    assert !(i < j) && !(j < i);
  }

  class AuthManager {
    var account: Account
    const hotp: Hotp

    constructor (hotp: Hotp)
      ensures account == NewAccount && this.hotp == hotp && Invariant(account)
    {
      account, this.hotp := NewAccount, hotp;
    }

    method SaveAccountSettings(mode: LoginMode, shared: bool, minutes: int) returns (answer: Answer)
      requires Invariant(account)
      modifies this`account
      ensures (account, answer) == SaveSettings(old(account), mode, shared, minutes) && Invariant(account)
    {
      ServeKeepsInvariant(account, hotp, Event(0, Save(mode, shared, minutes)));
      if minutes !in {2, 5, 10, 15} {
        return Failed(UnlockDuration);
      }
      var active := ActiveCount(account.devices);
      if mode != Password && active < 1 {
        return Failed(NoAuthenticatorForOtp);
      }
      if shared && active < 1 {
        return Failed(NoAuthenticatorForShared);
      }
      if mode == TotpOnly && Remaining(account.recovery) < 1 {
        return Failed(NoRecoveryCodes);
      }
      account := account.(mode := mode, shared := shared, minutes := minutes);
      answer := Saved;
    }

    method VerifyTotpCode(code: string, at: int, readable: set<nat>) returns (answer: Answer)
      modifies this`account
      ensures (account, answer) == VerifyTotp(old(account), hotp, code, at, readable)
    {
      var devices := account.devices;
      for i := 0 to |devices|
        invariant account == old(account)
        invariant forall k | 0 <= k < i :: ProbeDevice(devices[k], hotp, code, at, readable) == Next
      {
        var row := devices[i];
        if !row.revoked {
          if row.id !in readable {
            FirstHitIs(devices, hotp, code, at, readable, i);
            return Failed(Undecryptable);
          }
          var counter := VerifySecretCode(hotp, row.secret, code, at, row.counter);
          if counter.Some? {
            FirstHitIs(devices, hotp, code, at, readable, i);
            account := account.(devices := devices[i := row.(counter := counter.value)]);
            return ByTotp(row.id, counter.value);
          }
        }
      }
      FirstHitIs(devices, hotp, code, at, readable, |devices|);
      answer := NotAccepted;
    }

    method VerifyRecoveryCode(code: string) returns (answer: Answer)
      modifies this`account
      ensures (account, answer) == VerifyRecovery(old(account), code)
    {
      var normalized := Normalized(code);
      if |normalized| < 10 {
        return NotAccepted;
      }
      var i := Unused(account.recovery, normalized);
      if i == |account.recovery| {
        return NotAccepted;
      }
      account := account.(recovery := account.recovery[i := account.recovery[i].(used := true)]);
      answer := ByRecovery;
    }

    method VerifyOtpOrRecovery(code: string, at: int, readable: set<nat>) returns (answer: Answer)
      requires Invariant(account)
      modifies this`account
      ensures (account, answer) == Verify(old(account), hotp, code, at, readable) && Invariant(account)
    {
      CheckKeepsInvariant(account, hotp, code, at, readable);
      var compact := Compact(code);
      if IsOtp(compact) {
        answer := VerifyTotpCode(compact, at, readable);
      } else {
        answer := VerifyRecoveryCode(code);
      }
    }

    method RegenerateRecoveryCodes(codes: seq<string>) returns (answer: Answer)
      modifies this`account
      ensures (account, answer) == Regenerate(old(account), codes)
    {
      var rows := Rows(codes);
      if !DistinctTexts(rows) {
        return Failed(DuplicateCodes);
      }
      account := account.(recovery := rows);
      answer := Regenerated;
    }

    method ConfirmEnrollment(token: string, code: string, now: int, codes: seq<string>) returns (answer: Answer)
      requires Invariant(account)
      modifies this`account
      ensures (account, answer) == Confirm(old(account), hotp, token, code, now, codes) && Invariant(account)
    {
      ConfirmKeepsInvariant(account, hotp, token, code, now, codes);
      if account.pending.None? || account.pending.value.token != token {
        return Failed(EnrollmentGone);
      }
      if account.pending.value.expires <= now {
        account := account.(pending := None);
        return Failed(EnrollmentGone);
      }
      var secret := account.pending.value.secret;
      var counter := VerifySecretCode(hotp, secret, code, now, -1);
      if counter.None? {
        return Failed(WrongCode);
      }
      var id := account.nextId;
      account := account.(devices := account.devices + [Device(id, secret, counter.value, false)], nextId := id + 1);
      account := account.(pending := None);
      var renewed := false;
      if Remaining(account.recovery) == 0 {
        var regenerated := RegenerateRecoveryCodes(codes);
        if regenerated.Failed? {
          return regenerated;
        }
        renewed := true;
      }
      answer := Confirmed(id, counter.value, renewed);
    }

    method RevokeTotpDevice(id: nat) returns (answer: Answer)
      requires Invariant(account)
      modifies this`account
      ensures (account, answer) == Revoke(old(account), id) && Invariant(account)
    {
      RevokeKeepsInvariant(account, id);
      var i := DeviceAt(account.devices, id);
      if i == |account.devices| || account.devices[i].revoked {
        return Failed(UnknownDevice);
      }
      var remaining := ActiveCount(account.devices) - 1;
      if remaining < 1 && (account.mode != Password || account.shared) {
        return Failed(LastAuthenticator);
      }
      account := account.(devices := account.devices[i := account.devices[i].(revoked := true)]);
      answer := Revoked;
    }
  }
}
