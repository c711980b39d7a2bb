/** The Kid Control authority transfer of app/main.py as a saga over an unreliable router.

    Every external call consumes one outcome of a `Script`.  An outcome says what the caller saw
    (`Ok`, an `Error` the route catches, or a `Crash`: process death or an exception the route does
    not catch) and, separately, what the call did.  A lost reply is `Error` with effect `Full`.
    Because a crash can be placed at every call, quantifying over scripts quantifies over every
    intermediate state of a route. */
module AuthorityTransfer {

  // ---------- router, evidence and durable log ----------

  type Address = nat

  datatype Mode = Normal | Slow | Blocked | Invalid

  /** A device policy asks for one of the three real modes; `Invalid` is only ever read off a router. */
  type RealMode = m: Mode | !m.Invalid? witness Normal

  datatype LegacyRow = LegacyRow(id: string, disabled: bool)

  /** Who owns a Restricted_Devices row: the migration marks its own in the comment. */
  datatype Owner = Operator | Migration

  /** `legacy` groups the Kid Control rows by name, as the verification step does. */
  datatype Router = Router(
    legacy: map<string, seq<LegacyRow>>,
    rows: map<Address, Owner>,
    modes: map<Address, Mode>)

  datatype Profile = Profile(name: string, id: string)
  datatype Prepared = Prepared(address: Address, created: bool)
  datatype Before = Before(ip: Address, mode: Mode)
  datatype Reconciled = Reconciled(ip: Address, desired: Mode, live: Mode)

  datatype Problem =
    | LegacyProblem(name: string)
    | ModeProblem(ip: Address)
    | MembershipProblem(address: Address)
    | LocalProblem
    | ProofProblem

  /** What the route holds in memory and writes to the durable cutover record. `artifacts` are the
      addresses of the staged devices whose local policy was materialised. */
  datatype Evidence = Evidence(
    artifacts: seq<Address>,
    routerDevices: seq<Prepared>,
    liveBefore: seq<Before>,
    profiles: seq<Profile>,
    reconciliations: seq<Reconciled>,
    cleanupErrors: seq<Problem>,
    cleanupComplete: bool)

  const NoEvidence := Evidence([], [], [], [], [], [], false)

  datatype Stage = PreparedStage | AuthoritativeStage | FailedStage | RolledBackStage
  datatype Event = Event(stage: Stage, evidence: Evidence)

  datatype World = World(router: Router, log: seq<Event>, calls: nat)

  /** `staged` are the addresses in the staged payload, `devices` those of the fresh readiness rows. */
  datatype Plan = Plan(
    gate: bool,
    names: seq<string>,
    staged: seq<Address>,
    devices: seq<Address>,
    desired: map<Address, RealMode>)

  function LiveMode(r: Router, a: Address): Mode {
    if a in r.modes then r.modes[a] else Normal
  }

  function Desired(plan: Plan, a: Address): RealMode {
    if a in plan.desired then plan.desired[a] else Normal
  }

  predicate InProgress(log: seq<Event>) {
    log != [] && !log[|log| - 1].stage.RolledBackStage?
  }

  // ---------- external calls ----------

  datatype Reply = Ok | Error | Crash
  datatype Effect = Nothing | Full | Torn(mode: Mode)
  datatype Outcome = Outcome(reply: Reply, effect: Effect)

  type Script = nat -> Outcome

  const AlwaysOk: Script := (n: nat) => Outcome(Ok, Full)

  datatype Step = Step(w: World, reply: Reply)

  predicate Took(o: Outcome) {
    o.reply.Ok? || o.effect.Full?
  }

  function Tick(w: World): World {
    w.(calls := w.calls + 1)
  }

  function Refuse(w: World, reply: Reply): Step {
    Step(Tick(w), if reply.Ok? then Error else reply)
  }

  /** A call without an effect on the modelled state: a read, or a local policy write. */
  function Ask(script: Script, w: World): Step {
    Step(Tick(w), script(w.calls).reply)
  }

  predicate Targets(r: Router, name: string, id: string) {
    name != "" && name in r.legacy && |r.legacy[name]| == 1 && (id == "" || r.legacy[name][0].id == id)
  }

  function WithFlag(r: Router, name: string, flag: bool): Router
    requires name in r.legacy && |r.legacy[name]| == 1
  {
    r.(legacy := r.legacy[name := [r.legacy[name][0].(disabled := flag)]])
  }

  function SetLegacy(script: Script, w: World, name: string, id: string, flag: bool): Step {
    var o := script(w.calls);
    if !Targets(w.router, name, id) then Refuse(w, o.reply)
    else Step(Tick(w).(router := if Took(o) then WithFlag(w.router, name, flag) else w.router), o.reply)
  }

  function AddRow(script: Script, w: World, a: Address): Step {
    var o := script(w.calls);
    var r := w.router;
    Step(Tick(w).(router := if a !in r.rows && Took(o) then r.(rows := r.rows[a := Migration]) else r), o.reply)
  }

  function RemoveRow(script: Script, w: World, a: Address): Step {
    var o := script(w.calls);
    var r := w.router;
    Step(Tick(w).(router := if a in r.rows && r.rows[a].Migration? && Took(o) then r.(rows := r.rows - {a}) else r),
         o.reply)
  }

  /** The adapter needs a Restricted_Devices row and a real mode; it may stop half way. */
  function SetMode(script: Script, w: World, a: Address, mode: Mode): Step {
    var o := script(w.calls);
    var r := w.router;
    if mode.Invalid? || a !in r.rows then Refuse(w, o.reply)
    else Step(Tick(w).(router := if Took(o) then r.(modes := r.modes[a := mode])
                                 else if o.effect.Torn? then r.(modes := r.modes[a := o.effect.mode])
                                 else r), o.reply)
  }

  /** A durable write is atomic; its only exceptions are ones the route does not catch. */
  function Record(script: Script, w: World, e: Event): Step {
    var o := script(w.calls);
    Step(Tick(w).(log := if Took(o) then w.log + [e] else w.log), if o.reply.Ok? then Ok else Crash)
  }

  // ---------- restoration of a failed transfer ----------

  datatype Progress = Progress(w: World, errors: seq<Problem>, crashed: bool)

  function After(p: Progress, s: Step, problem: Problem): Progress {
    Progress(s.w, if s.reply.Error? then p.errors + [problem] else p.errors, s.reply.Crash?)
  }

  function ReEnable(script: Script, p: Progress, ps: seq<Profile>): (r: Progress)
    ensures r.w.router == p.w.router.(legacy := r.w.router.legacy) && r.w.log == p.w.log && p.errors <= r.errors
    decreases |ps|
  {
    if p.crashed || ps == [] then p else
    var last := ps[|ps| - 1];
    ReEnable(script, After(p, SetLegacy(script, p.w, last.name, last.id, false), LegacyProblem(last.name)),
             ps[..|ps| - 1])
  }

  function Created(devices: seq<Prepared>): set<Address> {
    set d | d in devices && d.created :: d.address
  }

  function RestoreModes(script: Script, p: Progress, created: set<Address>, before: seq<Before>): (r: Progress)
    ensures r.w.router == p.w.router.(modes := r.w.router.modes) && r.w.log == p.w.log && p.errors <= r.errors
    decreases |before|
  {
    if p.crashed || before == [] then p else
    var last := before[|before| - 1];
    var rest := before[..|before| - 1];
    if last.ip in created then RestoreModes(script, p, created, rest)
    else RestoreModes(script, After(p, SetMode(script, p.w, last.ip, last.mode), ModeProblem(last.ip)), created, rest)
  }

  function Known(e: Evidence): set<Address> {
    (set a | a in e.artifacts) + (set d | d in e.routerDevices :: d.address)
  }

  function Least(s: set<Address>): (m: Address)
    requires s != {}
    ensures m in s && forall x | x in s :: m <= x
  {
    LeastExists(s);
    var m :| m in s && forall x | x in s :: m <= x;
    m
  }

  lemma {:induction false} LeastOf(s: set<Address>) returns (m: Address)
    requires s != {}
    ensures m in s && forall x | x in s :: m <= x
    decreases |s|
  {
    var y :| y in s;
    m := y;
    if s - {y} != {} {
      var z := LeastOf(s - {y});
      m := if y < z then y else z;
    }
    forall x | x in s ensures m <= x {
      assert x == y || x in s - {y};
    }
  }

  lemma LeastExists(s: set<Address>)
    requires s != {}
    ensures exists m :: m in s && forall x | x in s :: m <= x
  {
    var m := LeastOf(s);
  }

  function RemoveRows(script: Script, p: Progress, addresses: set<Address>): (r: Progress)
    ensures r.w.router == p.w.router.(rows := r.w.router.rows) && r.w.log == p.w.log && p.errors <= r.errors
    decreases |addresses|
  {
    if p.crashed || addresses == {} then p else
    var a := Least(addresses);
    RemoveRows(script, After(p, RemoveRow(script, p.w, a), MembershipProblem(a)), addresses - {a})
  }

  /** Present exactly once, under the recorded identity, and enabled. */
  predicate ProfileProven(r: Router, p: Profile) {
    && p.name in r.legacy && |r.legacy[p.name]| == 1
    && (p.id == "" || r.legacy[p.name][0].id == p.id)
    && !r.legacy[p.name][0].disabled
  }

  predicate Proven(r: Router, ps: seq<Profile>) {
    forall p | p in ps :: ProfileProven(r, p)
  }

  function VerifyLegacy(script: Script, w: World, ps: seq<Profile>): Step {
    var s := Ask(script, w);
    if s.reply.Ok? && !Proven(w.router, ps) then Step(s.w, Error) else s
  }

  function Unwind(script: Script, p: Progress, e: Evidence): (r: Progress)
    ensures r.w.router.legacy == p.w.router.legacy && r.w.log == p.w.log && p.errors <= r.errors
  {
    var modes := RestoreModes(script, p, Created(e.routerDevices), e.liveBefore);
    RemoveRows(script, modes, Known(e))
  }

  function FinishRestore(script: Script, p: Progress, e: Evidence): (r: Progress)
    ensures r.w.router == p.w.router && r.w.log == p.w.log && p.errors <= r.errors
  {
    var local := if p.crashed || e.artifacts == [] then p else After(p, Ask(script, p.w), LocalProblem);
    if local.crashed then local else After(local, VerifyLegacy(script, local.w, e.profiles), ProofProblem)
  }

  function Restore(script: Script, w: World, e: Evidence): (r: Progress)
    ensures r.w.log == w.log
  {
    var legacy := ReEnable(script, Progress(w, [], false), e.profiles);
    FinishRestore(script, Unwind(script, legacy, e), e)
  }

  // ---------- the cutover route ----------

  datatype Control = Going | Raised | Crashed

  /** `started` is the fingerprint being set: only then does the failure handler write a record. */
  datatype Run = Run(w: World, mem: Evidence, ctl: Control, started: bool)

  function ControlOf(reply: Reply): Control {
    match reply case Ok => Going case Error => Raised case Crash => Crashed
  }

  predicate LegacyActive(r: Router) {
    forall n | n in r.legacy && n != "" :: forall row | row in r.legacy[n] :: !row.disabled
  }

  predicate Ready(plan: Plan, w: World) {
    !InProgress(w.log) && plan.gate && plan.names != [] && LegacyActive(w.router)
  }

  function LegacyId(r: Router, name: string): string {
    if name in r.legacy && r.legacy[name] != [] then r.legacy[name][|r.legacy[name]| - 1].id else ""
  }

  function CollectProfiles(run: Run, names: seq<string>): (r: Run)
    ensures r.started == run.started
  {
    if names == [] then run else
    var before := CollectProfiles(run, names[..|names| - 1]);
    if !before.ctl.Going? then before else
    var name := names[|names| - 1];
    var id := LegacyId(before.w.router, name);
    before.(mem := before.mem.(profiles := before.mem.profiles + [Profile(name, id)]),
            ctl := if id == "" then Raised else Going)
  }

  function Materialise(script: Script, run: Run, staged: seq<Address>): (r: Run)
    ensures r.started == run.started
  {
    if !run.ctl.Going? then run else
    var s := Ask(script, run.w);
    run.(w := s.w, ctl := ControlOf(s.reply), mem := if s.reply.Ok? then run.mem.(artifacts := staged) else run.mem)
  }

  function Persist(script: Script, run: Run, stage: Stage): (r: Run)
    ensures r.started == run.started
  {
    if !run.ctl.Going? then run else
    var s := Record(script, run.w, Event(stage, run.mem));
    run.(w := s.w, ctl := ControlOf(s.reply))
  }

  function AdoptDevice(script: Script, run: Run, ip: Address): (r: Run)
    ensures r.started == run.started
  {
    var created := ip !in run.w.router.rows;
    var s := AddRow(script, run.w, ip);
    if !s.reply.Ok? then run.(w := s.w, ctl := ControlOf(s.reply)) else
    var mem := run.mem.(routerDevices := run.mem.routerDevices + [Prepared(ip, created)]);
    var read := if created then Step(s.w, Ok) else Ask(script, s.w);
    if !read.reply.Ok? then run.(w := read.w, mem := mem, ctl := ControlOf(read.reply)) else
    var mode := if created then Normal else LiveMode(s.w.router, ip);
    run.(w := read.w, mem := mem.(liveBefore := mem.liveBefore + [Before(ip, mode)]))
  }

  function AdoptDevices(script: Script, run: Run, devices: seq<Address>): (r: Run)
    ensures r.started == run.started
  {
    if devices == [] then run else
    var before := AdoptDevices(script, run, devices[..|devices| - 1]);
    if !before.ctl.Going? then before
    else Persist(script, AdoptDevice(script, before, devices[|devices| - 1]), PreparedStage)
  }

  /** reconcile_device: plan, write only on drift, re-plan and refuse to report a failed convergence.
      An active temporary override raises with nothing written, which is an `Error` on the first read. */
  function Converge(script: Script, w: World, ip: Address, desired: Mode): Step {
    var read := Ask(script, w);
    if !read.reply.Ok? || LiveMode(w.router, ip) == desired then read else
    var s := SetMode(script, read.w, ip, desired);
    if !s.reply.Ok? then s else Ask(script, s.w)
  }

  function ReconcileDevice(script: Script, run: Run, plan: Plan, ip: Address): (r: Run)
    ensures r.started == run.started
  {
    var desired := Desired(plan, ip);
    var s := Converge(script, run.w, ip, desired);
    if !s.reply.Ok? then run.(w := s.w, ctl := ControlOf(s.reply)) else
    var read := Ask(script, s.w);
    if !read.reply.Ok? then run.(w := read.w, ctl := ControlOf(read.reply)) else
    var live := LiveMode(read.w.router, ip);
    if live != desired then run.(w := read.w, ctl := Raised)
    else run.(w := read.w,
              mem := run.mem.(reconciliations := run.mem.reconciliations + [Reconciled(ip, desired, live)]))
  }

  function ReconcileDevices(script: Script, run: Run, plan: Plan, devices: seq<Address>): (r: Run)
    ensures r.started == run.started
  {
    if devices == [] then run else
    var before := ReconcileDevices(script, run, plan, devices[..|devices| - 1]);
    if !before.ctl.Going? then before else ReconcileDevice(script, before, plan, devices[|devices| - 1])
  }

  function DisableProfiles(script: Script, run: Run, ps: seq<Profile>): (r: Run)
    ensures r.started == run.started
  {
    if ps == [] then run else
    var before := DisableProfiles(script, run, ps[..|ps| - 1]);
    if !before.ctl.Going? then before else
    var p := ps[|ps| - 1];
    var s := SetLegacy(script, before.w, p.name, p.id, true);
    before.(w := s.w, ctl := ControlOf(s.reply))
  }

  predicate StillActive(r: Router, ps: seq<Profile>) {
    exists p | p in ps :: p.name in r.legacy && exists row | row in r.legacy[p.name] :: !row.disabled
  }

  function ConfirmDisabled(script: Script, run: Run): (r: Run)
    ensures r.started == run.started
  {
    if !run.ctl.Going? then run else
    var s := Ask(script, run.w);
    run.(w := s.w, ctl := if s.reply.Ok? && StillActive(s.w.router, run.mem.profiles) then Raised
                          else ControlOf(s.reply))
  }

  /** From the context read to the first durable record: no router write. */
  function Opening(plan: Plan, script: Script, w: World): Run {
    var s := Ask(script, w);
    if !s.reply.Ok? then Run(s.w, NoEvidence, ControlOf(s.reply), false)
    else if !Ready(plan, s.w) then Run(s.w, NoEvidence, Raised, false)
    else
      var armed := Ask(script, s.w);
      if !armed.reply.Ok? then Run(armed.w, NoEvidence, ControlOf(armed.reply), true)
      else Persist(script, Materialise(script, CollectProfiles(Run(armed.w, NoEvidence, Going, true), plan.names),
                                       plan.staged), PreparedStage)
  }

  function Prepare(plan: Plan, script: Script, w: World): Run {
    var start := Opening(plan, script, w);
    if !start.ctl.Going? then start else
    var adopted := AdoptDevices(script, start, plan.devices);
    if !adopted.ctl.Going? then adopted else
    Persist(script, ReconcileDevices(script, adopted, plan, plan.devices), PreparedStage)
  }

  function Forward(plan: Plan, script: Script, w: World): Run {
    var prepared := Prepare(plan, script, w);
    if !prepared.ctl.Going? then prepared else
    Persist(script, ConfirmDisabled(script, DisableProfiles(script, prepared, prepared.mem.profiles)),
            AuthoritativeStage)
  }

  function Handle(script: Script, run: Run): Run {
    if !run.ctl.Raised? then run else
    var p := Restore(script, run.w, run.mem);
    if p.crashed then run.(w := p.w, ctl := Crashed)
    else if !run.started then run.(w := p.w)
    else
      var s := Record(script, p.w, Event(FailedStage,
        run.mem.(reconciliations := [], cleanupErrors := p.errors, cleanupComplete := p.errors == [])));
      run.(w := s.w, ctl := if s.reply.Ok? then Raised else Crashed)
  }

  function Cutover(plan: Plan, script: Script, w: World): Run {
    Handle(script, Forward(plan, script, w))
  }

  // ---------- the rollback route ----------

  predicate CleanupComplete(e: Event) {
    e.stage.FailedStage? && e.evidence.cleanupComplete && e.evidence.cleanupErrors == []
  }

  function Recover(script: Script, w: World, e: Event): Progress {
    if CleanupComplete(e) then
      After(Progress(w, [], false), VerifyLegacy(script, w, e.evidence.profiles), ProofProblem)
    else Restore(script, w, e.evidence)
  }

  function Rollback(script: Script, w: World): Step {
    if !InProgress(w.log) then Step(w, Error) else
    var armed := Ask(script, w);
    if !armed.reply.Ok? then armed else
    var p := Recover(script, armed.w, w.log[|w.log| - 1]);
    if p.crashed then Step(p.w, Crash)
    else if p.errors != [] then Step(p.w, Error)
    else Record(script, p.w, Event(RolledBackStage, NoEvidence))
  }
}
