/** The routes of app/main.py over mutable state, each proved to be its specification. */
module AuthorityTransferRoute {
  import opened AuthorityTransfer
  import opened AuthorityTransferProofs

  class Controller {
    const script: Script
    var router: Router
    var log: seq<Event>
    var calls: nat

    constructor (script: Script, router: Router, log: seq<Event>)
      ensures Now() == World(router, log, 0) && this.script == script
    {
      this.script := script;
      this.router, this.log, this.calls := router, log, 0;
    }

    function Now(): World
      reads this
    {
      World(router, log, calls)
    }

    // ---------- adapter calls ----------

    method Take() returns (o: Outcome)
      modifies this`calls
      ensures o == script(old(calls)) && Now() == Tick(old(Now()))
    {
      o := script(calls);
      calls := calls + 1;
    }

    method Read() returns (reply: Reply)
      modifies this`calls
      ensures Step(Now(), reply) == Ask(script, old(Now()))
    {
      var o := Take();
      reply := o.reply;
    }

    method SetLegacyProfileDisabled(name: string, disabled: bool, expectedId: string) returns (reply: Reply)
      modifies this
      ensures Step(Now(), reply) == SetLegacy(script, old(Now()), name, expectedId, disabled)
    {
      var o := Take();
      reply := o.reply;
      if !Targets(router, name, expectedId) {
        reply := if reply.Ok? then Error else reply;
      } else if Took(o) {
        router := WithFlag(router, name, disabled);
      }
    }

    method PrepareMigrationDevice(a: Address) returns (reply: Reply, created: bool)
      modifies this
      ensures Step(Now(), reply) == AddRow(script, old(Now()), a) && created == (a !in old(router).rows)
    {
      var o := Take();
      reply := o.reply;
      created := a !in router.rows;
      if created && Took(o) {
        router := router.(rows := router.rows[a := Migration]);
      }
    }

    method RollbackMigrationDevice(a: Address) returns (reply: Reply)
      modifies this
      ensures Step(Now(), reply) == RemoveRow(script, old(Now()), a)
    {
      var o := Take();
      reply := o.reply;
      if a in router.rows && router.rows[a].Migration? && Took(o) {
        router := router.(rows := router.rows - {a});
      }
    }

    method SetDeviceMode(a: Address, mode: Mode) returns (reply: Reply)
      modifies this
      ensures Step(Now(), reply) == SetMode(script, old(Now()), a, mode)
    {
      var o := Take();
      reply := o.reply;
      if mode.Invalid? || a !in router.rows {
        reply := if reply.Ok? then Error else reply;
      } else if Took(o) {
        router := router.(modes := router.modes[a := mode]);
      } else if o.effect.Torn? {
        router := router.(modes := router.modes[a := o.effect.mode]);
      }
    }

    method RecordCutover(e: Event) returns (reply: Reply)
      modifies this
      ensures Step(Now(), reply) == Record(script, old(Now()), e)
    {
      var o := Take();
      reply := if o.reply.Ok? then Ok else Crash;
      if Took(o) {
        log := log + [e];
      }
    }

    method VerifyLegacyProfilesActive(ps: seq<Profile>) returns (reply: Reply)
      modifies this
      ensures Step(Now(), reply) == VerifyLegacy(script, old(Now()), ps)
    {
      reply := Read();
      if reply.Ok? && !Proven(router, ps) {
        reply := Error;
      }
    }

    // ---------- _kid_control_restore_failed_transfer ----------

    method RestoreLegacy(ps: seq<Profile>) returns (errors: seq<Problem>, crashed: bool)
      modifies this
      ensures Progress(Now(), errors, crashed) == ReEnable(script, Progress(old(Now()), [], false), ps)
    {
      errors, crashed := [], false;
      assert ps[..|ps|] == ps;
      var i := |ps|;
      while i > 0 && !crashed
        invariant 0 <= i <= |ps|
        invariant ReEnable(script, Progress(old(Now()), [], false), ps)
               == ReEnable(script, Progress(Now(), errors, crashed), ps[..i])
      {
        i := i - 1;
        assert ps[..i + 1][..i] == ps[..i];
        var reply := SetLegacyProfileDisabled(ps[i].name, false, ps[i].id);
        if reply.Error? {
          errors := errors + [LegacyProblem(ps[i].name)];
        }
        crashed := reply.Crash?;
      }
    }

    method RestoreDeviceModes(before: seq<Before>, created: set<Address>, found: seq<Problem>)
      returns (errors: seq<Problem>, crashed: bool)
      modifies this
      ensures Progress(Now(), errors, crashed)
          == RestoreModes(script, Progress(old(Now()), found, false), created, before)
    {
      errors, crashed := found, false;
      assert before[..|before|] == before;
      var i := |before|;
      while i > 0 && !crashed
        invariant 0 <= i <= |before|
        invariant RestoreModes(script, Progress(old(Now()), found, false), created, before)
               == RestoreModes(script, Progress(Now(), errors, crashed), created, before[..i])
      {
        i := i - 1;
        assert before[..i + 1][..i] == before[..i];
        if before[i].ip !in created {
          var reply := SetDeviceMode(before[i].ip, before[i].mode);
          if reply.Error? {
            errors := errors + [ModeProblem(before[i].ip)];
          }
          crashed := reply.Crash?;
        }
      }
    }

    method RemoveMembership(addresses: set<Address>, found: seq<Problem>) returns (errors: seq<Problem>, crashed: bool)
      modifies this
      ensures Progress(Now(), errors, crashed) == RemoveRows(script, Progress(old(Now()), found, false), addresses)
    {
      errors, crashed := found, false;
      var left := addresses;
      while left != {} && !crashed
        invariant RemoveRows(script, Progress(old(Now()), found, false), addresses)
               == RemoveRows(script, Progress(Now(), errors, crashed), left)
        decreases |left|
      {
        var a := Least(left);
        left := left - {a};
        var reply := RollbackMigrationDevice(a);
        if reply.Error? {
          errors := errors + [MembershipProblem(a)];
        }
        crashed := reply.Crash?;
      }
    }

    method RestoreFailedTransfer(e: Evidence) returns (errors: seq<Problem>, crashed: bool)
      modifies this
      ensures Progress(Now(), errors, crashed) == Restore(script, old(Now()), e)
    {
      errors, crashed := RestoreLegacy(e.profiles);
      if !crashed {
        errors, crashed := RestoreDeviceModes(e.liveBefore, Created(e.routerDevices), errors);
      }
      if !crashed {
        errors, crashed := RemoveMembership(Known(e), errors);
      }
      if !crashed && e.artifacts != [] {
        var reply := Read();
        errors, crashed := if reply.Error? then errors + [LocalProblem] else errors, reply.Crash?;
      }
      if !crashed {
        var reply := VerifyLegacyProfilesActive(e.profiles);
        errors, crashed := if reply.Error? then errors + [ProofProblem] else errors, reply.Crash?;
      }
    }

    // ---------- kid_control_migration_cutover ----------

    method OpenTransfer(plan: Plan) returns (mem: Evidence, ctl: Control, started: bool)
      modifies this
      ensures Run(Now(), mem, ctl, started) == Opening(plan, script, old(Now()))
    {
      mem, ctl, started := NoEvidence, Going, false;
      var reply := Read();
      if !reply.Ok? {
        return mem, ControlOf(reply), started;
      }
      if !Ready(plan, Now()) {
        return mem, Raised, started;
      }
      started := true;
      reply := Read();
      if !reply.Ok? {
        return mem, ControlOf(reply), started;
      }
      ghost var armed := Run(Now(), NoEvidence, Going, true);
      var i := 0;
      while i < |plan.names| && ctl.Going?
        invariant 0 <= i <= |plan.names|
        invariant Now() == armed.w
        invariant Run(Now(), mem, ctl, started) == CollectProfiles(armed, plan.names[..i])
        invariant !ctl.Going? ==> CollectProfiles(armed, plan.names) == CollectProfiles(armed, plan.names[..i])
      {
        var id := LegacyId(router, plan.names[i]);
        mem := mem.(profiles := mem.profiles + [Profile(plan.names[i], id)]);
        if id == "" {
          ctl := Raised;
        }
        i := i + 1;
        assert plan.names[..i][..i - 1] == plan.names[..i - 1];
        if !ctl.Going? {
          CollectStops(armed, plan.names, i);
        }
      }
      assert plan.names[..|plan.names|] == plan.names;
      if !ctl.Going? {
        return mem, ctl, started;
      }
      reply := Read();
      ctl := ControlOf(reply);
      if reply.Ok? {
        mem := mem.(artifacts := plan.staged);
        reply := RecordCutover(Event(PreparedStage, mem));
        ctl := ControlOf(reply);
      }
    }

    method AdoptAll(plan: Plan, start: Evidence) returns (mem: Evidence, ctl: Control)
      modifies this
      ensures Run(Now(), mem, ctl, true) == AdoptDevices(script, Run(old(Now()), start, Going, true), plan.devices)
    {
      mem, ctl := start, Going;
      ghost var first := Run(Now(), start, Going, true);
      var i := 0;
      while i < |plan.devices| && ctl.Going?
        invariant 0 <= i <= |plan.devices|
        invariant Run(Now(), mem, ctl, true) == AdoptDevices(script, first, plan.devices[..i])
        invariant !ctl.Going?
            ==> AdoptDevices(script, first, plan.devices) == AdoptDevices(script, first, plan.devices[..i])
      {
        mem, ctl := AdoptOne(plan.devices[i], mem);
        i := i + 1;
        assert plan.devices[..i][..i - 1] == plan.devices[..i - 1];
        if !ctl.Going? {
          AdoptStops(script, first, plan.devices, i);
        }
      }
      assert plan.devices[..|plan.devices|] == plan.devices;
    }

    method AdoptOne(ip: Address, known: Evidence) returns (mem: Evidence, ctl: Control)
      modifies this
      ensures Run(Now(), mem, ctl, true)
           == Persist(script, AdoptDevice(script, Run(old(Now()), known, Going, true), ip), PreparedStage)
    {
      mem := known;
      var reply, created := PrepareMigrationDevice(ip);
      if !reply.Ok? {
        return mem, ControlOf(reply);
      }
      mem := mem.(routerDevices := mem.routerDevices + [Prepared(ip, created)]);
      var mode := Normal;
      if !created {
        reply := Read();
        if !reply.Ok? {
          return mem, ControlOf(reply);
        }
        mode := LiveMode(router, ip);
      }
      mem := mem.(liveBefore := mem.liveBefore + [Before(ip, mode)]);
      reply := RecordCutover(Event(PreparedStage, mem));
      ctl := ControlOf(reply);
    }

    method ReconcileOne(plan: Plan, ip: Address, known: Evidence) returns (mem: Evidence, ctl: Control)
      modifies this
      ensures Run(Now(), mem, ctl, true) == ReconcileDevice(script, Run(old(Now()), known, Going, true), plan, ip)
    {
      mem := known;
      var reply := Read();
      if reply.Ok? && LiveMode(router, ip) != Desired(plan, ip) {
        reply := SetDeviceMode(ip, Desired(plan, ip));
        if reply.Ok? {
          reply := Read();
        }
      }
      if !reply.Ok? {
        return mem, ControlOf(reply);
      }
      reply := Read();
      if !reply.Ok? {
        return mem, ControlOf(reply);
      }
      var live := LiveMode(router, ip);
      if live != Desired(plan, ip) {
        return mem, Raised;
      }
      ctl := Going;
      mem := mem.(reconciliations := mem.reconciliations + [Reconciled(ip, Desired(plan, ip), live)]);
    }

    method ReconcileAll(plan: Plan, start: Evidence) returns (mem: Evidence, ctl: Control)
      modifies this
      ensures Run(Now(), mem, ctl, true)
           == ReconcileDevices(script, Run(old(Now()), start, Going, true), plan, plan.devices)
    {
      mem, ctl := start, Going;
      ghost var first := Run(Now(), start, Going, true);
      var i := 0;
      while i < |plan.devices| && ctl.Going?
        invariant 0 <= i <= |plan.devices|
        invariant Run(Now(), mem, ctl, true) == ReconcileDevices(script, first, plan, plan.devices[..i])
        invariant !ctl.Going? ==>
          ReconcileDevices(script, first, plan, plan.devices)
              == ReconcileDevices(script, first, plan, plan.devices[..i])
      {
        mem, ctl := ReconcileOne(plan, plan.devices[i], mem);
        i := i + 1;
        assert plan.devices[..i][..i - 1] == plan.devices[..i - 1];
        if !ctl.Going? {
          ReconcileStopsAt(script, first, plan, plan.devices, i);
        }
      }
      assert plan.devices[..|plan.devices|] == plan.devices;
    }

    method DisableAll(ps: seq<Profile>, mem: Evidence) returns (ctl: Control)
      modifies this
      ensures Run(Now(), mem, ctl, true) == DisableProfiles(script, Run(old(Now()), mem, Going, true), ps)
    {
      ctl := Going;
      ghost var first := Run(Now(), mem, Going, true);
      var i := 0;
      while i < |ps| && ctl.Going?
        invariant 0 <= i <= |ps|
        invariant Run(Now(), mem, ctl, true) == DisableProfiles(script, first, ps[..i])
        invariant !ctl.Going? ==> DisableProfiles(script, first, ps) == DisableProfiles(script, first, ps[..i])
      {
        var reply := SetLegacyProfileDisabled(ps[i].name, true, ps[i].id);
        ctl := ControlOf(reply);
        i := i + 1;
        assert ps[..i][..i - 1] == ps[..i - 1];
        if !ctl.Going? {
          DisableStopsAt(script, first, ps, i);
        }
      }
      assert ps[..|ps|] == ps;
    }

    method TransferAuthority(plan: Plan) returns (mem: Evidence, ctl: Control, started: bool)
      modifies this
      ensures Run(Now(), mem, ctl, started) == Forward(plan, script, old(Now()))
    {
      mem, ctl, started := OpenTransfer(plan);
      if !ctl.Going? {
        return;
      }
      OpeningStarts(plan, script, old(Now()));
      mem, ctl := AdoptAll(plan, mem);
      if !ctl.Going? {
        return;
      }
      mem, ctl := ReconcileAll(plan, mem);
      if !ctl.Going? {
        return;
      }
      var reply := RecordCutover(Event(PreparedStage, mem));
      ctl := ControlOf(reply);
      if !ctl.Going? {
        return;
      }
      ctl := DisableAll(mem.profiles, mem);
      if !ctl.Going? {
        return;
      }
      reply := Read();
      ctl := if reply.Ok? && StillActive(router, mem.profiles) then Raised else ControlOf(reply);
      if !ctl.Going? {
        return;
      }
      reply := RecordCutover(Event(AuthoritativeStage, mem));
      ctl := ControlOf(reply);
    }

    method CutoverRoute(plan: Plan) returns (mem: Evidence, ctl: Control, started: bool)
      modifies this
      ensures Run(Now(), mem, ctl, started) == Cutover(plan, script, old(Now()))
    {
      mem, ctl, started := TransferAuthority(plan);
      if ctl.Raised? {
        var errors, crashed := RestoreFailedTransfer(mem);
        if crashed {
          ctl := Crashed;
        } else if started {
          var reply := RecordCutover(Event(FailedStage,
            mem.(reconciliations := [], cleanupErrors := errors, cleanupComplete := errors == [])));
          ctl := if reply.Ok? then Raised else Crashed;
        }
      }
    }

    // ---------- kid_control_migration_rollback ----------

    method RollbackRoute() returns (reply: Reply)
      modifies this
      ensures Step(Now(), reply) == Rollback(script, old(Now()))
    {
      if !InProgress(log) {
        return Error;
      }
      var cutover := log[|log| - 1];
      reply := Read();
      if !reply.Ok? {
        return;
      }
      var errors, crashed := [], false;
      if CleanupComplete(cutover) {
        reply := VerifyLegacyProfilesActive(cutover.evidence.profiles);
        errors, crashed := if reply.Error? then [ProofProblem] else [], reply.Crash?;
      } else {
        errors, crashed := RestoreFailedTransfer(cutover.evidence);
      }
      if crashed {
        return Crash;
      }
      if errors != [] {
        return Error;
      }
      reply := RecordCutover(Event(RolledBackStage, NoEvidence));
    }
  }

  // ---------- a loop that stopped early has the value of the whole loop ----------

  lemma {:induction false} CollectStops(run: Run, names: seq<string>, k: nat)
    requires k <= |names| && !CollectProfiles(run, names[..k]).ctl.Going?
    ensures CollectProfiles(run, names) == CollectProfiles(run, names[..k])
  {
    if k < |names| {
      assert names[..|names| - 1][..k] == names[..k];
      CollectStops(run, names[..|names| - 1], k);
    } else {
      assert names[..k] == names;
    }
  }

  lemma {:induction false} ReconcileStopsAt(script: Script, run: Run, plan: Plan, devices: seq<Address>, k: nat)
    requires k <= |devices| && !ReconcileDevices(script, run, plan, devices[..k]).ctl.Going?
    ensures ReconcileDevices(script, run, plan, devices) == ReconcileDevices(script, run, plan, devices[..k])
  {
    if k < |devices| {
      assert devices[..|devices| - 1][..k] == devices[..k];
      ReconcileStopsAt(script, run, plan, devices[..|devices| - 1], k);
    } else {
      assert devices[..k] == devices;
    }
  }

  lemma {:induction false} DisableStopsAt(script: Script, run: Run, ps: seq<Profile>, k: nat)
    requires k <= |ps| && !DisableProfiles(script, run, ps[..k]).ctl.Going?
    ensures DisableProfiles(script, run, ps) == DisableProfiles(script, run, ps[..k])
  {
    if k < |ps| {
      assert ps[..|ps| - 1][..k] == ps[..k];
      DisableStopsAt(script, run, ps[..|ps| - 1], k);
    } else {
      assert ps[..k] == ps;
    }
  }

  lemma OpeningStarts(plan: Plan, script: Script, w: World)
    ensures Opening(plan, script, w).ctl.Going? ==> Opening(plan, script, w).started
  {
  }
}
