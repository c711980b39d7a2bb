/** The authenticator, recovery-code and settings state of one account in app/auth.py.
    HOTP is an arbitrary function of (secret, counter); times are whole seconds; a recovery hash stands for its text. */
module ParentAuth {
  import opened Common
  import opened Text

  type Secret = int
  type Hotp = (Secret, int) -> string

  const Period := 30
  const RecoveryCodes := 10

  datatype LoginMode = Password | PasswordOrTotp | TotpOnly
  datatype Device = Device(id: nat, secret: Secret, counter: int, revoked: bool)
  datatype Recovery = Recovery(text: string, used: bool)
  datatype Enrollment = Enrollment(token: string, secret: Secret, expires: int)
  datatype Account = Account(
    mode: LoginMode, shared: bool, minutes: int,
    devices: seq<Device>, nextId: nat, recovery: seq<Recovery>, pending: Option<Enrollment>)

  datatype AuthError =
    | UnlockDuration | NoAuthenticatorForOtp | NoAuthenticatorForShared | NoRecoveryCodes
    | EnrollmentGone | WrongCode | UnknownDevice | LastAuthenticator | Undecryptable | DuplicateCodes

  datatype Answer =
    | Saved
    | Began
    | Confirmed(device: nat, counter: int, renewed: bool)
    | ByTotp(device: nat, counter: int)
    | ByRecovery
    | NotAccepted
    | Revoked
    | Regenerated
    | Failed(error: AuthError)

  // ---------- codes ----------

  /** `"".join(code.split())`. */
  function Compact(code: string): string {
    if code == [] then [] else (if IsSpace(code[0]) then [] else [code[0]]) + Compact(code[1..])
  }

  predicate IsOtp(code: string) {
    |code| == 6 && IsDigits(code)
  }

  /** Upper-cased letters and digits only. */
  function Normalized(code: string): string {
    if code == [] then [] else
    var c := code[0];
    var kept := if 'a' <= c <= 'z' then [c - ' '] else if 'A' <= c <= 'Z' || IsDigit(c) then [c] else [];
    kept + Normalized(code[1..])
  }

  predicate Opens(hotp: Hotp, secret: Secret, code: string, counter: int, last: int) {
    counter > last && hotp(secret, counter) == code
  }

  /** The first unused counter of the window [-1, +1] whose HOTP value is the code. */
  function Accepted(hotp: Hotp, secret: Secret, code: string, at: int, last: int): Option<int> {
    var base := at / Period;
    if !IsOtp(Compact(code)) then None
    else if Opens(hotp, secret, Compact(code), base - 1, last) then Some(base - 1)
    else if Opens(hotp, secret, Compact(code), base, last) then Some(base)
    else if Opens(hotp, secret, Compact(code), base + 1, last) then Some(base + 1)
    else None
  }

  // ---------- operations ----------

  function ActiveCount(devices: seq<Device>): nat {
    if devices == [] then 0
    else ActiveCount(devices[..|devices| - 1]) + if devices[|devices| - 1].revoked then 0 else 1
  }

  function Remaining(recovery: seq<Recovery>): nat {
    if recovery == [] then 0
    else Remaining(recovery[..|recovery| - 1]) + if recovery[|recovery| - 1].used then 0 else 1
  }

  function SaveSettings(a: Account, mode: LoginMode, shared: bool, minutes: int): (Account, Answer) {
    var active := ActiveCount(a.devices);
    if minutes != 2 && minutes != 5 && minutes != 10 && minutes != 15 then (a, Failed(UnlockDuration))
    else if mode != Password && active < 1 then (a, Failed(NoAuthenticatorForOtp))
    else if shared && active < 1 then (a, Failed(NoAuthenticatorForShared))
    else if mode == TotpOnly && Remaining(a.recovery) < 1 then (a, Failed(NoRecoveryCodes))
    else (a.(mode := mode, shared := shared, minutes := minutes), Saved)
  }

  function Begin(a: Account, token: string, secret: Secret, now: int): (Account, Answer) {
    (a.(pending := Some(Enrollment(token, secret, now + 600))), Began)
  }

  function Rows(codes: seq<string>): seq<Recovery> {
    seq(|codes|, i requires 0 <= i < |codes| => Recovery(Normalized(codes[i]), false))
  }

  predicate DistinctTexts(rows: seq<Recovery>) {
    forall i, j | 0 <= i < j < |rows| :: rows[i].text != rows[j].text
  }

  /** The unique index refuses a repeated hash and the transaction is rolled back. */
  function Regenerate(a: Account, codes: seq<string>): (Account, Answer) {
    if DistinctTexts(Rows(codes)) then (a.(recovery := Rows(codes)), Regenerated) else (a, Failed(DuplicateCodes))
  }

  /** An expired enrollment is deleted when it is looked up. */
  function Confirm(
    a: Account, hotp: Hotp, token: string, code: string, now: int, codes: seq<string>): (Account, Answer)
  {
    if a.pending.None? || a.pending.value.token != token then (a, Failed(EnrollmentGone))
    else if a.pending.value.expires <= now then (a.(pending := None), Failed(EnrollmentGone))
    else
      var secret := a.pending.value.secret;
      match Accepted(hotp, secret, code, now, -1)
      case None => (a, Failed(WrongCode))
      case Some(counter) =>
        var enrolled := a.(
          devices := a.devices + [Device(a.nextId, secret, counter, false)], nextId := a.nextId + 1, pending := None);
        if Remaining(a.recovery) > 0 then (enrolled, Confirmed(a.nextId, counter, false))
        else if DistinctTexts(Rows(codes)) then (enrolled.(recovery := Rows(codes)), Confirmed(a.nextId, counter, true))
        else (enrolled, Failed(DuplicateCodes))
  }

  /** What one active device answers: it matches, it cannot be decrypted (the loop stops), or the next one is tried. */
  datatype Probe = Match(counter: int) | Broken | Next

  function ProbeDevice(d: Device, hotp: Hotp, code: string, at: int, readable: set<nat>): Probe {
    if d.revoked then Next
    else if d.id !in readable then Broken
    else match Accepted(hotp, d.secret, code, at, d.counter) case Some(counter) => Match(counter) case None => Next
  }

  /** The position of the first device that does not answer Next. */
  function FirstHit(devices: seq<Device>, hotp: Hotp, code: string, at: int, readable: set<nat>): (i: nat)
    ensures i <= |devices|
    ensures i < |devices| ==> ProbeDevice(devices[i], hotp, code, at, readable) != Next
    ensures forall k | 0 <= k < i :: ProbeDevice(devices[k], hotp, code, at, readable) == Next
  {
    if devices == [] || ProbeDevice(devices[0], hotp, code, at, readable) != Next then 0
    else 1 + FirstHit(devices[1..], hotp, code, at, readable)
  }

  function VerifyTotp(a: Account, hotp: Hotp, code: string, at: int, readable: set<nat>): (Account, Answer) {
    var i := FirstHit(a.devices, hotp, code, at, readable);
    if i == |a.devices| then (a, NotAccepted)
    else match ProbeDevice(a.devices[i], hotp, code, at, readable)
         case Match(counter) =>
           (a.(devices := a.devices[i := a.devices[i].(counter := counter)]), ByTotp(a.devices[i].id, counter))
         case _ => (a, Failed(Undecryptable))
  }

  /** The position of the unused row with this text, or the length. */
  function Unused(rows: seq<Recovery>, text: string): (i: nat)
    ensures i <= |rows| && (i < |rows| ==> rows[i] == Recovery(text, false))
    ensures forall k | 0 <= k < i :: rows[k] != Recovery(text, false)
  {
    if rows == [] || rows[0] == Recovery(text, false) then 0 else 1 + Unused(rows[1..], text)
  }

  function VerifyRecovery(a: Account, code: string): (Account, Answer) {
    var i := Unused(a.recovery, Normalized(code));
    if |Normalized(code)| < 10 || i == |a.recovery| then (a, NotAccepted)
    else (a.(recovery := a.recovery[i := a.recovery[i].(used := true)]), ByRecovery)
  }

  function Verify(a: Account, hotp: Hotp, code: string, at: int, readable: set<nat>): (Account, Answer) {
    if IsOtp(Compact(code)) then VerifyTotp(a, hotp, Compact(code), at, readable) else VerifyRecovery(a, code)
  }

  function DeviceAt(devices: seq<Device>, id: nat): (i: nat)
    ensures i <= |devices| && (i < |devices| ==> devices[i].id == id)
    ensures forall k | 0 <= k < i :: devices[k].id != id
  {
    if devices == [] || devices[0].id == id then 0 else 1 + DeviceAt(devices[1..], id)
  }

  function Revoke(a: Account, id: nat): (Account, Answer) {
    var i := DeviceAt(a.devices, id);
    if i == |a.devices| || a.devices[i].revoked then (a, Failed(UnknownDevice))
    else if ActiveCount(a.devices) < 2 && (a.mode != Password || a.shared) then (a, Failed(LastAuthenticator))
    else (a.(devices := a.devices[i := a.devices[i].(revoked := true)]), Revoked)
  }

  // ---------- histories ----------

  datatype Request =
    | Save(mode: LoginMode, shared: bool, minutes: int)
    | Start(token: string, secret: Secret)
    | Enroll(token: string, code: string, codes: seq<string>)
    | Check(code: string, readable: set<nat>)
    | Drop(device: nat)
    | Renew(codes: seq<string>)

  datatype Event = Event(at: int, request: Request)

  function Serve(a: Account, hotp: Hotp, e: Event): (Account, Answer) {
    match e.request
    case Save(mode, shared, minutes) => SaveSettings(a, mode, shared, minutes)
    case Start(token, secret) => Begin(a, token, secret, e.at)
    case Enroll(token, code, codes) => Confirm(a, hotp, token, code, e.at, codes)
    case Check(code, readable) => Verify(a, hotp, code, e.at, readable)
    case Drop(device) => Revoke(a, device)
    case Renew(codes) => Regenerate(a, codes)
  }

  function Run(a: Account, hotp: Hotp, history: seq<Event>): Account {
    if history == [] then a else Serve(Run(a, hotp, history[..|history| - 1]), hotp, history[|history| - 1]).0
  }

  function AnswerAt(a: Account, hotp: Hotp, history: seq<Event>, i: nat): Answer
    requires i < |history|
  {
    Serve(Run(a, hotp, history[..i]), hotp, history[i]).1
  }

  const NewAccount := Account(Password, false, 5, [], 0, [], None)
}
