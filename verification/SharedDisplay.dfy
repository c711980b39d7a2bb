/** The shared-display parent window of app/auth.py and app/main.py: one browser session over time.
    Times are seconds as reals; every process start has its own boot id. */
module SharedDisplay {
  import opened Common

  datatype Session = Session(
    signedIn: bool, generation: nat, privilegedUntil: real, privilegedBoot: Option<nat>,
    freshAt: real, freshBoot: Option<nat>)

  datatype Account = Account(shared: bool, minutes: nat, hasAuthenticator: bool, generation: nat)

  const NoSession := Session(false, 0, 0.0, None, 0.0, None)
  const ExtensionThreshold := 90.0
  const FreshSeconds := 90.0

  // ---------- the window functions ----------

  predicate FreshAuthValid(s: Session, boot: nat, now: real) {
    s.freshAt > 0.0 && now - s.freshAt <= FreshSeconds && now >= s.freshAt && s.freshBoot == Some(boot)
  }

  predicate PrivilegeValid(s: Session, shared: bool, boot: nat, now: real) {
    !shared || (s.privilegedUntil > now && s.privilegedBoot == Some(boot))
  }

  predicate Locked(s: Session, a: Account, boot: nat, now: real) {
    a.shared && !PrivilegeValid(s, true, boot, now)
  }

  predicate ExtensionAllowed(s: Session, shared: bool, boot: nat, now: real) {
    shared && PrivilegeValid(s, true, boot, now) && 0.0 < s.privilegedUntil - now <= ExtensionThreshold
  }

  function Window(minutes: nat): real {
    (60 * minutes) as real
  }

  function ExtendDeadline(until: real, minutes: nat, now: real): real {
    (if until > now then until else now) + Window(minutes)
  }

  // ---------- the routes ----------

  /** `current_user`: a session of another generation is cleared. */
  function Current(s: Session, a: Account): Session {
    if s.signedIn && s.generation == a.generation then s else NoSession
  }

  function MarkFresh(s: Session, a: Account, boot: nat, now: real, privileged: bool): Session {
    var renewed := s.(freshAt := now, freshBoot := Some(boot));
    if privileged then renewed.(privilegedUntil := now + Window(a.minutes), privilegedBoot := Some(boot)) else renewed
  }

  /** What the person at the screen can prove right now. */
  datatype Proof = Proof(code: bool, password: bool)
  datatype StepUp = Recent | ByCode | ByPassword | Refused

  function StepUpOf(s: Session, a: Account, boot: nat, now: real, proof: Proof): StepUp {
    if FreshAuthValid(s, boot, now) then Recent
    else if a.hasAuthenticator then if proof.code then ByCode else Refused
    else if proof.password then ByPassword
    else Refused
  }

  function AfterStepUp(s: Session, a: Account, boot: nat, now: real, result: StepUp): Session {
    match result
    case ByCode => MarkFresh(s, a, boot, now, true)
    case ByPassword => MarkFresh(s, a, boot, now, false)
    case _ => s
  }

  datatype Event =
    | Elapse(seconds: real)
    | Restart
    | Elsewhere(account: Account)                     // another session or maintenance changes the account
    | Login(proven: bool)
    | Logout
    | Unlock(code: bool)
    | Extend(code: bool)
    | Lock
    | Sensitive(proof: Proof)                         // any action behind verify_step_up
    | Save(proof: Proof, accepted: bool, shared: bool, minutes: nat)
    | Enroll(code: bool)
    | Transfer(code: bool)                            // the explicit code of the Kid Control cutover and rollback
    | RevokeAll(proof: Proof)

  /** `unlocked` is the time the shared display has spent open; `grants` the authentications that opened or extended
      it. */
  datatype World = World(session: Session, account: Account, boot: nat, now: real, unlocked: real, grants: nat)

  function Remaining(w: World): real {
    if w.session.privilegedBoot == Some(w.boot) && w.session.privilegedUntil > w.now
    then w.session.privilegedUntil - w.now else 0.0
  }

  predicate IsOpen(w: World) {
    w.account.shared && PrivilegeValid(w.session, true, w.boot, w.now)
  }

  predicate MayWrite(w: World) {
    w.session.signedIn && !Locked(w.session, w.account, w.boot, w.now)
  }

  function Granted(w: World, s: Session): World {
    w.(session := s, grants := w.grants + 1)
  }

  function StepUpWorld(w: World, proof: Proof): World {
    var result := StepUpOf(w.session, w.account, w.boot, w.now, proof);
    var s := AfterStepUp(w.session, w.account, w.boot, w.now, result);
    if result == ByCode then Granted(w, s) else w.(session := s)
  }

  function SignIn(w: World): World {
    var s := Session(true, w.account.generation, 0.0, None, w.now, Some(w.boot));
    if w.account.shared
    then Granted(w, s.(privilegedUntil := w.now + Window(w.account.minutes), privilegedBoot := Some(w.boot)))
    else w.(session := s)
  }

  function ExtendWorld(w: World, code: bool): World {
    if ExtensionAllowed(w.session, w.account.shared, w.boot, w.now) && code then
      Granted(w, w.session.(
        privilegedUntil := ExtendDeadline(w.session.privilegedUntil, w.account.minutes, w.now),
        privilegedBoot := Some(w.boot), freshAt := w.now, freshBoot := Some(w.boot)))
    else w
  }

  function LockSession(s: Session): Session {
    s.(privilegedUntil := 0.0, privilegedBoot := None, freshAt := 0.0, freshBoot := None)
  }

  predicate UnlockMinutes(minutes: nat) {
    minutes == 2 || minutes == 5 || minutes == 10 || minutes == 15
  }

  function SaveWorld(w: World, proof: Proof, accepted: bool, shared: bool, minutes: nat): World {
    var stepped := StepUpWorld(w, proof);
    if StepUpOf(w.session, w.account, w.boot, w.now, proof) == Refused
       || !accepted || !UnlockMinutes(minutes) then stepped
    else
      var saved := stepped.(account := stepped.account.(shared := shared, minutes := minutes));
      if shared then saved else saved.(session := saved.session.(privilegedUntil := 0.0))
  }

  function RevokeWorld(w: World, proof: Proof): World {
    var stepped := StepUpWorld(w, proof);
    if StepUpOf(w.session, w.account, w.boot, w.now, proof) == Refused then stepped
    else stepped.(session := NoSession, account := stepped.account.(generation := stepped.account.generation + 1))
  }

  function Elapsed(w: World, seconds: real): World {
    var open := if !IsOpen(w) then 0.0 else if Remaining(w) < seconds then Remaining(w) else seconds;
    w.(now := w.now + seconds, unlocked := w.unlocked + open)
  }

  function Route(w: World, e: Event): World {
    match e
    case Login(proven) => if proven then SignIn(w) else w
    case Logout => w.(session := NoSession)
    case Unlock(code) =>
      if w.session.signedIn && code then Granted(w, MarkFresh(w.session, w.account, w.boot, w.now, true)) else w
    case Extend(code) => if w.session.signedIn then ExtendWorld(w, code) else w
    case Lock => if w.session.signedIn then w.(session := LockSession(w.session)) else w
    case Sensitive(proof) => if MayWrite(w) then StepUpWorld(w, proof) else w
    case Save(proof, accepted, shared, minutes) =>
      if MayWrite(w) then SaveWorld(w, proof, accepted, shared, minutes) else w
    case Enroll(code) =>
      if MayWrite(w) && code then
        Granted(w.(account := w.account.(hasAuthenticator := true)),
                MarkFresh(w.session, w.account, w.boot, w.now, true))
      else w
    case Transfer(code) =>
      if MayWrite(w) && w.account.hasAuthenticator && code
      then Granted(w, MarkFresh(w.session, w.account, w.boot, w.now, true)) else w
    case RevokeAll(proof) => if MayWrite(w) then RevokeWorld(w, proof) else w
    case _ => w
  }

  function Step(w: World, e: Event): World {
    match e
    case Elapse(seconds) => if seconds > 0.0 then Elapsed(w, seconds) else w
    case Restart => w.(boot := w.boot + 1)
    case Elsewhere(account) => w.(account := account)
    case _ => Route(w.(session := Current(w.session, w.account)), e)
  }

  function Run(w: World, history: seq<Event>): World {
    if history == [] then w else Step(Run(w, history[..|history| - 1]), history[|history| - 1])
  }

  // ---------- bounds ----------

  /** No unlock setting above `m` minutes occurs. */
  predicate Within(history: seq<Event>, m: nat) {
    forall e | e in history :: (e.Elsewhere? ==> e.account.minutes <= m) && (e.Save? ==> e.minutes <= m)
  }

  ghost predicate Sane(w: World, m: nat) {
    && w.account.minutes <= m
    && (w.session.privilegedBoot.Some? ==> w.session.privilegedBoot.value <= w.boot)
    && w.session.privilegedUntil <= (if w.now > 0.0 then w.now else 0.0) + Window(m) + ExtensionThreshold
  }

  /** Open time so far plus what is left of the window. */
  function Spent(w: World): real {
    w.unlocked + Remaining(w)
  }

  ghost predicate Follows(w: World, next: World, m: nat) {
    && Sane(next, m) && w.unlocked <= next.unlocked
    && (next.grants == w.grants || next.grants == w.grants + 1)
    && Spent(next) <= Spent(w) + if next.grants == w.grants then 0.0 else Window(m)
  }

  lemma WindowGrows(a: nat, b: nat)
    requires a <= b
    ensures Window(a) <= Window(b)
  {
  }

  lemma StepUpFollows(w: World, proof: Proof, m: nat)
    requires Sane(w, m) && w.now >= 0.0
    ensures Follows(w, StepUpWorld(w, proof), m) && StepUpWorld(w, proof).now == w.now
  {
    WindowGrows(w.account.minutes, m);
  }

  lemma RouteFollows(w: World, e: Event, m: nat)
    requires Sane(w, m) && w.now >= 0.0 && Within([e], m)
    ensures Follows(w, Route(w, e), m) && Route(w, e).now == w.now
  {
    WindowGrows(w.account.minutes, m);
    assert e in [e];
    match e
    case Sensitive(proof) => StepUpFollows(w, proof, m);
    case Save(proof, accepted, shared, minutes) => StepUpFollows(w, proof, m);
    case RevokeAll(proof) => StepUpFollows(w, proof, m);
    case _ =>
  }

  lemma StepFollows(w: World, e: Event, m: nat)
    requires Sane(w, m) && w.now >= 0.0 && Within([e], m)
    ensures Follows(w, Step(w, e), m) && Step(w, e).now >= w.now
  {
    assert e in [e];
    match e
    case Elapse(seconds) =>
    case Restart =>
    case Elsewhere(account) =>
    case _ =>
      var current := w.(session := Current(w.session, w.account));
      RouteFollows(current, e, m);
  }

  lemma MoreGrants(m: nat, n: nat)
    ensures (60 * m * (n + 1)) as real == (60 * m * n) as real + Window(m)
  {
    assert 60 * m * (n + 1) == 60 * m * n + 60 * m;
  }

  /** What was spent since `w` is covered by M minutes for each grant since. */
  ghost predicate Paid(w: World, end: World, m: nat) {
    && end.grants >= w.grants && end.unlocked >= w.unlocked
    && Spent(end) <= Spent(w) + (60 * m * (end.grants - w.grants)) as real
  }

  lemma PaidStep(w: World, before: World, end: World, m: nat)
    requires Paid(w, before, m) && Follows(before, end, m)
    ensures Paid(w, end, m)
  {
    MoreGrants(m, before.grants - w.grants);
  }

  lemma PaidNothing(w: World, m: nat)
    ensures Paid(w, w, m)
  {
    assert 60 * m * (w.grants - w.grants) == 0;
  }

  /** Over any run: the deadline stays within one window plus the extension threshold of the clock, and every second
      the display is open is paid for by an authentication that succeeded during the run (or was left from before). */
  lemma {:induction false} RunIsBounded(w: World, history: seq<Event>, m: nat)
    requires Sane(w, m) && w.now >= 0.0 && Within(history, m)
    ensures var end := Run(w, history);
      && end.now >= w.now && Sane(end, m) && end.session.privilegedUntil <= end.now + Window(m) + 90.0
      && Paid(w, end, m)
  {
    if history == [] {
      PaidNothing(w, m);
    } else {
      var n := |history| - 1;
      assert forall e | e in history[..n] :: e in history;
      RunIsBounded(w, history[..n], m);
      assert Within([history[n]], m);
      StepFollows(Run(w, history[..n]), history[n], m);
      PaidStep(w, Run(w, history[..n]), Run(w, history), m);
    }
  }

  /** From a fresh browser: total open time is at most M minutes per successful authentication. */
  lemma UnlockedTimeIsPaidFor(account: Account, boot: nat, now: real, history: seq<Event>, m: nat)
    requires account.minutes <= m && now >= 0.0 && Within(history, m)
    ensures var end := Run(World(NoSession, account, boot, now, 0.0, 0), history);
      end.unlocked <= (60 * m * end.grants) as real
  {
    RunIsBounded(World(NoSession, account, boot, now, 0.0, 0), history, m);
  }

  lemma QuietRun(w: World, history: seq<Event>, m: nat)
    requires Sane(w, m) && w.now >= 0.0 && Within(history, m) && Run(w, history).grants == w.grants
    ensures Spent(Run(w, history)) <= Spent(w) && Run(w, history).unlocked >= w.unlocked
  {
    RunIsBounded(w, history, m);
    assert 60 * m * (w.grants - w.grants) == 0;
  }

  lemma Closing(w: World, closing: Event)
    requires w.session.privilegedBoot.Some? ==> w.session.privilegedBoot.value <= w.boot
    requires closing == Restart || (closing == Lock && w.session.signedIn)
    ensures Remaining(Step(w, closing)) == 0.0 && !IsOpen(Step(w, closing))
  {
  }

  /** A lock or a restart closes a shared display, and it stays closed until the next authentication that succeeds. */
  lemma ClosedUntilProven(w: World, closing: Event, history: seq<Event>, m: nat)
    requires Sane(w, m) && w.now >= 0.0 && Within(history, m)
    requires closing == Restart || (closing == Lock && w.session.signedIn)
    requires Run(Step(w, closing), history).grants == Step(w, closing).grants
    ensures !IsOpen(Step(w, closing)) && !IsOpen(Run(Step(w, closing), history))
    ensures Run(Step(w, closing), history).unlocked == Step(w, closing).unlocked
  {
    assert Within([closing], m);
    StepFollows(w, closing, m);
    Closing(w, closing);
    var closed := Step(w, closing);
    QuietRun(closed, history, m);
    assert Remaining(Run(closed, history)) == 0.0;
  }

  /** A second extension has to wait: right after one that succeeded with M >= 2 minutes, another is refused. */
  lemma ExtensionsDoNotStack(w: World, code: bool)
    requires UnlockMinutes(w.account.minutes) && ExtendWorld(w, true) != w
    ensures ExtendWorld(ExtendWorld(w, true), code) == ExtendWorld(w, true)
    ensures ExtendWorld(w, true).session.privilegedUntil == w.session.privilegedUntil + Window(w.account.minutes)
  {
  }
}
