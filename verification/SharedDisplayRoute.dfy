/** The session-changing routes of app/main.py, step by step on one browser session and the failure table. */
module SharedDisplayRoute {
  import opened Common
  import opened ParentThrottle
  import opened SharedDisplay

  datatype Answer = NotSignedIn | NotShared | StillLocked | TooEarly | Throttled | WrongCode | Done

  class ParentSession {
    var session: Session
    var fails: map<string, Fails>
    const boot: nat

    constructor (boot: nat)
      ensures session == NoSession && fails == map[] && this.boot == boot
    {
      session, fails, this.boot := NoSession, map[], boot;
    }

    method CurrentUser(account: Account) returns (signedIn: bool)
      modifies this`session
      ensures session == Current(old(session), account) && signedIn == session.signedIn
    {
      if !session.signedIn {
        session := NoSession;
        return false;
      }
      if session.generation != account.generation {
        session := NoSession;
        return false;
      }
      signedIn := true;
    }

    method MarkFreshAuth(account: Account, now: real, privileged: bool)
      modifies this`session
      ensures session == MarkFresh(old(session), account, boot, now, privileged)
    {
      session := session.(freshAt := now);
      session := session.(freshBoot := Some(boot));
      if privileged {
        session := session.(privilegedUntil := now + Window(account.minutes));
        session := session.(privilegedBoot := Some(boot));
      }
    }

    /** Looks up the record of `key`, checks the code unless blocked, and keeps or forgets the record. */
    method CheckCode(key: string, now: real, correct: bool) returns (answer: Answer)
      modifies this`fails
      ensures FailsAt(fails, key) == Attempt(FailsAt(old(fails), key), Try(now, correct))
      ensures forall k :: k != key ==> FailsAt(fails, k) == FailsAt(old(fails), k)
      ensures answer == if IsBlocked(FailsAt(old(fails), key), now) then Throttled
                        else if correct then Done else WrongCode
    {
      var record := FailsAt(fails, key);
      if IsBlocked(record, now) {
        return Throttled;
      }
      if !correct {
        fails := fails[key := Failed(record, now)];
        return WrongCode;
      }
      fails := fails - {key};
      answer := Done;
    }

    method UnlockRoute(account: Account, who: string, now: real, correct: bool) returns (answer: Answer)
      modifies this
      ensures var accepted := correct && !IsBlocked(FailsAt(old(fails), "unlock:" + who), now);
        session == Route(World(Current(old(session), account), account, boot, now, 0.0, 0), Unlock(accepted)).session
      ensures answer == Done <==> (Current(old(session), account).signedIn && correct
                                   && !IsBlocked(FailsAt(old(fails), "unlock:" + who), now))
    {
      var signedIn := CurrentUser(account);
      if !signedIn {
        return NotSignedIn;
      }
      answer := CheckCode("unlock:" + who, now, correct);
      if answer == Done {
        MarkFreshAuth(account, now, true);
      }
    }

    method ExtendRoute(account: Account, who: string, now: real, correct: bool) returns (answer: Answer)
      modifies this
      ensures var accepted := correct && !IsBlocked(FailsAt(old(fails), "extend:" + who), now);
        session == Route(World(Current(old(session), account), account, boot, now, 0.0, 0), Extend(accepted)).session
      ensures answer == Done ==> account.shared && PrivilegeValid(old(session), true, boot, now)
                                 && old(session).privilegedUntil - now <= ExtensionThreshold
    {
      var signedIn := CurrentUser(account);
      if !signedIn {
        return NotSignedIn;
      }
      if !account.shared {
        return NotShared;
      }
      if Locked(session, account, boot, now) {
        return StillLocked;
      }
      if !ExtensionAllowed(session, true, boot, now) {
        return TooEarly;
      }
      answer := CheckCode("extend:" + who, now, correct);
      if answer == Done {
        var until := ExtendDeadline(session.privilegedUntil, account.minutes, now);
        session := session.(privilegedUntil := until);
        session := session.(privilegedBoot := Some(boot));
        session := session.(freshAt := now);
        session := session.(freshBoot := Some(boot));
      }
    }

    method LockRoute(account: Account, now: real) returns (answer: Answer)
      modifies this`session
      ensures session == Route(World(Current(old(session), account), account, boot, now, 0.0, 0), Lock).session
      ensures now >= 0.0 && answer == Done && account.shared ==> Locked(session, account, boot, now)
    {
      var signedIn := CurrentUser(account);
      if !signedIn {
        return NotSignedIn;
      }
      session := session.(privilegedUntil := 0.0);
      session := session.(freshAt := 0.0);
      session := session.(freshBoot := None);
      session := session.(privilegedBoot := None);
      answer := Done;
    }

    /** `proven` is the outcome of the password and code checks of the login form. */
    method LoginRoute(account: Account, who: string, now: real, proven: bool) returns (answer: Answer)
      modifies this
      ensures var accepted := proven && !IsBlocked(FailsAt(old(fails), who), now);
        session == Route(World(old(session), account, boot, now, 0.0, 0), Login(accepted)).session
      ensures answer == Done && account.shared ==> !Locked(session, account, boot, now) || account.minutes == 0
    {
      answer := CheckCode(who, now, proven);
      if answer == Done {
        session := NoSession.(signedIn := true, generation := account.generation);
        session := session.(freshAt := now);
        session := session.(freshBoot := Some(boot));
        if account.shared {
          session := session.(privilegedUntil := now + Window(account.minutes));
          session := session.(privilegedBoot := Some(boot));
        }
      }
    }

    method VerifyStepUp(account: Account, who: string, now: real, proof: Proof) returns (result: StepUp)
      modifies this
      ensures var free := !IsBlocked(FailsAt(old(fails), "stepup:" + who), now);
        && result == StepUpOf(old(session), account, boot, now, Proof(free && proof.code, free && proof.password))
        && session == AfterStepUp(old(session), account, boot, now, result)
    {
      if FreshAuthValid(session, boot, now) {
        return Recent;
      }
      var answer := CheckCode("stepup:" + who, now, if account.hasAuthenticator then proof.code else proof.password);
      if answer != Done {
        return Refused;
      }
      MarkFreshAuth(account, now, account.hasAuthenticator);
      result := if account.hasAuthenticator then ByCode else ByPassword;
    }
  }
}
