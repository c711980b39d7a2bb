/** When a transfer that was cut short can still be finished by a rollback. */
module AuthorityTransferRecovery {
  import opened AuthorityTransfer
  import opened AuthorityTransferProofs
  import opened AuthorityTransferRuns
  import opened AuthorityTransferLimits

  /** The gate is open and every profile of the plan is one identified row of the router. */
  predicate Identifiable(plan: Plan, w: World) {
    && Ready(plan, w)
    && forall n | n in plan.names ::
         n != "" && n in w.router.legacy && |w.router.legacy[n]| == 1 && w.router.legacy[n][0].id != ""
  }

  /** Every device that is already restricted stands in a row of the operator and in a real mode. */
  predicate Settled(plan: Plan, r: Router) {
    forall a | a in plan.devices && a in r.rows :: r.rows[a].Operator? && !LiveMode(r, a).Invalid?
  }

  // ---------- what the durable record can hold ----------

  /** The evidence names profiles as they were read at the start, and remembers modes of devices of the plan. */
  ghost predicate RecordedFrom(plan: Plan, b: Router, e: Evidence) {
    && (forall p | p in e.profiles :: p.name in plan.names && p.id == LegacyId(b, p.name))
    && (forall x | x in e.liveBefore :: x.ip in plan.devices)
  }

  ghost predicate OnRecord(plan: Plan, b: Router, start: seq<Event>, log: seq<Event>) {
    log == start || (start < log && RecordedFrom(plan, b, Durable(log)))
  }

  ghost predicate Noted(plan: Plan, b: Router, start: seq<Event>, run: Run) {
    RecordedFrom(plan, b, run.mem) && OnRecord(plan, b, start, run.w.log)
  }

  lemma PersistNotes(plan: Plan, b: Router, start: seq<Event>, script: Script, run: Run, stage: Stage)
    requires Noted(plan, b, start, run)
    ensures var r := Persist(script, run, stage);
      Noted(plan, b, start, r) && r.mem == run.mem && r.w.router == run.w.router
  {
  }

  lemma {:induction false} CollectNotes(run: Run, names: seq<string>)
    requires run.mem.profiles == []
    ensures var r := CollectProfiles(run, names);
      && r == run.(mem := run.mem.(profiles := r.mem.profiles), ctl := r.ctl)
      && forall p | p in r.mem.profiles :: p.name in names && p.id == LegacyId(run.w.router, p.name)
  {
    if names != [] {
      assert names == names[..|names| - 1] + [names[|names| - 1]];
      CollectNotes(run, names[..|names| - 1]);
    }
  }

  lemma OpeningNotes(plan: Plan, script: Script, w: World)
    ensures Noted(plan, w.router, w.log, Opening(plan, script, w))
  {
    OpeningShape(plan, script, w);
    var armed := Ask(script, Ask(script, w).w);
    CollectNotes(Run(armed.w, NoEvidence, Going, true), plan.names);
  }

  lemma AdoptDeviceNotes(plan: Plan, b: Router, script: Script, run: Run, ip: Address)
    requires RecordedFrom(plan, b, run.mem) && ip in plan.devices
    ensures var r := AdoptDevice(script, run, ip); RecordedFrom(plan, b, r.mem) && r.w.log == run.w.log
  {
  }

  lemma {:induction false} AdoptNotes(
    plan: Plan, b: Router, start: seq<Event>, script: Script, run: Run, devices: seq<Address>)
    requires Noted(plan, b, start, run) && forall a | a in devices :: a in plan.devices
    ensures Noted(plan, b, start, AdoptDevices(script, run, devices))
  {
    if devices != [] {
      var prefix, ip := devices[..|devices| - 1], devices[|devices| - 1];
      assert ip in devices && forall a | a in prefix :: a in devices;
      AdoptNotes(plan, b, start, script, run, prefix);
      var before := AdoptDevices(script, run, prefix);
      if before.ctl.Going? {
        AdoptDeviceNotes(plan, b, script, before, ip);
        PersistNotes(plan, b, start, script, AdoptDevice(script, before, ip), PreparedStage);
      }
    }
  }

  lemma {:induction false} ReconcileNotes(
    plan: Plan, b: Router, start: seq<Event>, script: Script, run: Run, devices: seq<Address>)
    requires Noted(plan, b, start, run)
    ensures Noted(plan, b, start, ReconcileDevices(script, run, plan, devices))
  {
    if devices != [] {
      ReconcileNotes(plan, b, start, script, run, devices[..|devices| - 1]);
      var before := ReconcileDevices(script, run, plan, devices[..|devices| - 1]);
      if before.ctl.Going? {
        var ip := devices[|devices| - 1];
        ConvergeShape(script, before.w, ip, Desired(plan, ip));
      }
    }
  }

  lemma {:induction false} DisableNotes(
    plan: Plan, b: Router, start: seq<Event>, script: Script, run: Run, ps: seq<Profile>)
    requires Noted(plan, b, start, run)
    ensures Noted(plan, b, start, DisableProfiles(script, run, ps))
  {
    if ps != [] {
      DisableNotes(plan, b, start, script, run, ps[..|ps| - 1]);
    }
  }

  lemma PrepareNotes(plan: Plan, script: Script, w: World)
    ensures Noted(plan, w.router, w.log, Prepare(plan, script, w))
  {
    OpeningNotes(plan, script, w);
    var start := Opening(plan, script, w);
    if start.ctl.Going? {
      AdoptNotes(plan, w.router, w.log, script, start, plan.devices);
      var adopted := AdoptDevices(script, start, plan.devices);
      if adopted.ctl.Going? {
        ReconcileNotes(plan, w.router, w.log, script, adopted, plan.devices);
        PersistNotes(plan, w.router, w.log, script, ReconcileDevices(script, adopted, plan, plan.devices),
            PreparedStage);
      }
    }
  }

  lemma ForwardNotes(plan: Plan, script: Script, w: World)
    ensures Noted(plan, w.router, w.log, Forward(plan, script, w))
  {
    PrepareNotes(plan, script, w);
    var prepared := Prepare(plan, script, w);
    if prepared.ctl.Going? {
      DisableNotes(plan, w.router, w.log, script, prepared, prepared.mem.profiles);
      var disabled := DisableProfiles(script, prepared, prepared.mem.profiles);
      ConfirmChangesNothing(script, disabled);
      PersistNotes(plan, w.router, w.log, script, ConfirmDisabled(script, disabled), AuthoritativeStage);
    }
  }

  lemma CutoverNotes(plan: Plan, script: Script, w: World)
    ensures OnRecord(plan, w.router, w.log, Cutover(plan, script, w).w.log)
  {
    ForwardNotes(plan, script, w);
    var run := Forward(plan, script, w);
    if run.ctl.Raised? && run.started {
      HandlerShape(script, run);
    }
  }

  // ---------- a recovery whose calls all succeed completes ----------

  lemma RollbackLog(script: Script, w: World)
    ensures var s := Rollback(script, w); s.w.log == w.log || s.w.log == w.log + [Event(RolledBackStage, NoEvidence)]
  {
  }

  lemma {:induction false} AttemptsLog(w: World, scripts: seq<Script>)
    ensures InProgress(Attempts(w, scripts).log) ==> Attempts(w, scripts).log == w.log
  {
    if scripts != [] {
      AttemptsLog(w, scripts[..|scripts| - 1]);
      RollbackLog(scripts[|scripts| - 1], Attempts(w, scripts[..|scripts| - 1]));
    }
  }

  lemma CoveredIsRestorable(plan: Plan, w: World, r: Router, e: Evidence)
    requires Identifiable(plan, w) && Settled(plan, w.router)
    requires RecordedFrom(plan, w.router, e) && Covers(StartOf(plan, w.router), r, e)
    ensures Restorable(r, e)
  {
    CoveredIsAddressable(plan, w, r, e);
    forall x | x in e.liveBefore ensures ModeRestorable(r, e, x) {
    }
  }

  lemma RowsKeptIsRestorable(plan: Plan, w: World, r: Router, e: Evidence)
    requires Identifiable(plan, w) && w.router.rows.Keys <= r.rows.Keys
    requires forall d | d in plan.devices && d in w.router.rows :: !LiveMode(w.router, d).Invalid?
    requires RecordedFrom(plan, w.router, e) && Covers(StartOf(plan, w.router), r, e)
    ensures Restorable(r, e)
  {
    CoveredIsAddressable(plan, w, r, e);
    forall x | x in e.liveBefore ensures ModeRestorable(r, e, x) {
    }
  }

  lemma CoveredIsAddressable(plan: Plan, w: World, r: Router, e: Evidence)
    requires Identifiable(plan, w) && RecordedFrom(plan, w.router, e) && Covers(StartOf(plan, w.router), r, e)
    ensures forall p | p in e.profiles :: Targets(r, p.name, p.id)
  {
    forall p | p in e.profiles ensures Targets(r, p.name, p.id) {
      assert r.legacy[p.name] == w.router.legacy[p.name]
        || r.legacy[p.name] == [w.router.legacy[p.name][0].(disabled := true)];
    }
  }

  lemma RestoredIsProven(plan: Plan, w: World, r: Router, e: Evidence)
    requires Identifiable(plan, w) && RecordedFrom(plan, w.router, e) && r.legacy == w.router.legacy
    ensures Proven(r, e.profiles)
  {
    forall p | p in e.profiles ensures ProfileProven(r, p) {
      assert w.router.legacy[p.name][0] in w.router.legacy[p.name];
    }
  }

  lemma EvidencedCompletes(plan: Plan, w: World, w': World)
    requires Identifiable(plan, w) && Settled(plan, w.router) && Evidenced(StartOf(plan, w.router), w')
    requires RecordedFrom(plan, w.router, Durable(w'.log))
    ensures Rollback(AlwaysOk, w').reply.Ok?
  {
    var last := w'.log[|w'.log| - 1];
    if CleanupComplete(last) {
      RestoredIsProven(plan, w, w'.router, last.evidence);
    } else {
      CoveredIsRestorable(plan, w, w'.router, last.evidence);
      UndisturbedRollback(w');
    }
  }

  /** After this cutover and these attempts, a rollback whose calls are answered completes if one is due. */
  predicate Finishable(plan: Plan, script: Script, scripts: seq<Script>, w: World) {
    var w' := Attempts(Cutover(plan, script, w).w, scripts);
    InProgress(w'.log) ==> Rollback(AlwaysOk, w').reply.Ok?
  }

  lemma SettledIsFinishable(plan: Plan, script: Script, w: World, scripts: seq<Script>)
    requires Identifiable(plan, w) && Settled(plan, w.router)
    ensures Finishable(plan, script, scripts, w)
  {
    var w0 := Cutover(plan, script, w).w;
    var w' := Attempts(w0, scripts);
    if InProgress(w'.log) {
      AttemptsLog(w0, scripts);
      CutoverNotes(plan, script, w);
      CutoverIsContained(plan, script, w);
      AttemptsAreContained(StartOf(plan, w.router), w0, scripts);
      EvidencedCompletes(plan, w, w');
    }
  }

  // ---------- a cutover that is cut short while it adopts a device ----------

  lemma OpeningUndisturbed(plan: Plan, script: Script, w: World)
    requires Ready(plan, w) && (forall n | n in plan.names :: LegacyId(w.router, n) != "")
    requires Agrees(script, w.calls + 4)
    ensures var start := Opening(plan, script, w);
      && start == Opening(plan, AlwaysOk, w) && start.ctl.Going? && start.w.calls == w.calls + 4
      && forall p | p in start.mem.profiles :: p.name in plan.names && p.id == LegacyId(w.router, p.name)
  {
    var armed := Tick(Tick(w));
    assert Ask(script, w) == Step(Tick(w), Ok) && Ask(script, Tick(w)) == Step(armed, Ok);
    CollectAll(Run(armed, NoEvidence, Going, true), plan.names);
    var collected := CollectProfiles(Run(armed, NoEvidence, Going, true), plan.names);
    assert Ask(script, collected.w) == Step(Tick(armed), Ok);
  }

  lemma {:induction false} CollectAll(run: Run, names: seq<string>)
    requires run.ctl.Going? && run.mem.profiles == [] && (forall n | n in names :: LegacyId(run.w.router, n) != "")
    ensures var r := CollectProfiles(run, names);
      && r.ctl.Going? && r.w == run.w && r == run.(mem := run.mem.(profiles := r.mem.profiles))
      && forall p | p in r.mem.profiles :: p.name in names && p.id == LegacyId(run.w.router, p.name)
  {
    if names != [] {
      assert names == names[..|names| - 1] + [names[|names| - 1]];
      CollectAll(run, names[..|names| - 1]);
    }
  }

  lemma {:induction false} AdoptUndisturbed(script: Script, run: Run, devices: seq<Address>)
    requires run.ctl.Going? && Agrees(script, AdoptDevices(AlwaysOk, run, devices).w.calls)
    ensures AdoptDevices(script, run, devices) == AdoptDevices(AlwaysOk, run, devices)
    ensures AdoptDevices(AlwaysOk, run, devices).ctl.Going?
    ensures run.w.calls <= AdoptDevices(AlwaysOk, run, devices).w.calls
  {
    if devices != [] {
      var prefix := devices[..|devices| - 1];
      AdoptGoes(run, prefix);
      var before := AdoptDevices(AlwaysOk, run, prefix);
      var whole := AdoptDevices(AlwaysOk, run, devices);
      assert before.w.calls < whole.w.calls;
      AdoptUndisturbed(script, run, prefix);
      assert forall n | before.w.calls <= n < whole.w.calls :: script(n) == AlwaysOk(n);
    }
  }

  lemma {:induction false} AdoptGoes(run: Run, devices: seq<Address>)
    requires run.ctl.Going?
    ensures AdoptDevices(AlwaysOk, run, devices).ctl.Going?
    ensures AdoptDevices(AlwaysOk, run, devices).w.log != [] || devices == []
  {
    if devices != [] {
      AdoptGoes(run, devices[..|devices| - 1]);
    }
  }

  /** The process dies in one call, after the call took effect. */
  function DeathAt(k: nat): Script {
    (n: nat) => if n == k then Outcome(Crash, Full) else Outcome(Ok, Full)
  }

  /** The run of adoption up to device `i`, with every call answered. */
  function AdoptedBefore(plan: Plan, w: World, i: nat): Run
    requires i <= |plan.devices|
  {
    AdoptDevices(AlwaysOk, Opening(plan, AlwaysOk, w), plan.devices[..i])
  }

  lemma IdentifiedNames(plan: Plan, w: World)
    requires Identifiable(plan, w)
    ensures forall n | n in plan.names :: LegacyId(w.router, n) != ""
  {
  }

  /** A crash while device `i` is adopted or recorded ends the cutover there. */
  lemma CutShortAt(plan: Plan, w: World, i: nat, script: Script)
    requires Identifiable(plan, w) && i < |plan.devices| && Agrees(script, AdoptedBefore(plan, w, i).w.calls)
    requires var last := AdoptDevice(script, AdoptedBefore(plan, w, i), plan.devices[i]);
      Persist(script, last, PreparedStage).ctl.Crashed?
    ensures AdoptedBefore(plan, w, i).ctl.Going?
    ensures Cutover(plan, script, w)
         == Persist(script, AdoptDevice(script, AdoptedBefore(plan, w, i), plan.devices[i]), PreparedStage)
  {
    IdentifiedNames(plan, w);
    OpeningUndisturbed(plan, AlwaysOk, w);
    var start := Opening(plan, AlwaysOk, w);
    var prefix := plan.devices[..i];
    AdoptUndisturbed(AlwaysOk, start, prefix);
    OpeningUndisturbed(plan, script, w);
    AdoptUndisturbed(script, start, prefix);
    assert plan.devices[..i + 1][..i] == prefix;
    AdoptStops(script, start, plan.devices, i + 1);
  }

  lemma AdoptedBeforeIsAdoption(plan: Plan, w: World, i: nat)
    requires Identifiable(plan, w) && i <= |plan.devices|
    ensures var before := AdoptedBefore(plan, w, i);
      && before.ctl.Going? && w.log < before.w.log
      && Adoption(StartOf(plan, w.router), before, plan.staged, plan.devices[..i])
  {
    var b := StartOf(plan, w.router);
    IdentifiedNames(plan, w);
    OpeningUndisturbed(plan, AlwaysOk, w);
    var start := Opening(plan, AlwaysOk, w);
    OpeningCovers(b, plan, AlwaysOk, w);
    AdoptUndisturbed(AlwaysOk, start, plan.devices[..i]);
    assert forall a | a in plan.devices && a in Marked(w.router) :: a in Leftovers(plan, w.router);
    AdoptDevicesAdopts(b, AlwaysOk, start, plan.devices[..i], plan.staged);
  }

  // ---------- a device that is not settled ----------

  /** The newest record covers the router, remembers the mode of `a`, and no row has gone. */
  ghost predicate OpenWith(plan: Plan, was: Router, w: World, a: Address) {
    && NeedsRestoring(w.log)
    && var e := w.log[|w.log| - 1].evidence;
       && Covers(StartOf(plan, was), w.router, e) && RecordedFrom(plan, was, e)
       && a in Known(e) && Before(a, LiveMode(was, a)) in e.liveBefore
       && was.rows.Keys <= w.router.rows.Keys
       && (a in was.rows && was.rows[a].Migration? ==> w.router.rows[a].Migration?)
  }

  lemma DeadOnRecord(plan: Plan, was: Router, script: Script, before: Run, a: Address, prefix: seq<Address>)
    requires before.ctl.Going? && Adoption(StartOf(plan, was), before, plan.staged, prefix)
    requires a in was.rows && a in plan.devices && script == DeathAt(before.w.calls + 2)
    ensures var run := Persist(script, AdoptDevice(script, before, a), PreparedStage);
      && run.ctl.Crashed? && before.w.log <= run.w.log
      && (RecordedFrom(plan, was, Durable(run.w.log)) ==> OpenWith(plan, was, run.w, a))
  {
    var b := StartOf(plan, was);
    assert a in Marked(was) ==> a in Leftovers(plan, was);
    AdoptedRestricted(script, before, a);
    AdoptOneMore(b, script, before, a, plan.staged, prefix);
    var mid := AdoptDevice(script, before, a);
    var run := Persist(script, mid, PreparedStage);
    assert Durable(run.w.log) == mid.mem;
    AdoptingIsCovered(b, run.w.router, mid.mem, plan.staged);
    assert mid.mem.routerDevices[|before.mem.routerDevices|] == Prepared(a, false);
    assert mid.mem.liveBefore[|before.mem.liveBefore|] == Before(a, LiveMode(was, a));
  }

  lemma DiesRecording(plan: Plan, w: World, i: nat) returns (script: Script, before: Run)
    requires Identifiable(plan, w) && i < |plan.devices| && plan.devices[i] in w.router.rows
    ensures script == DeathAt(before.w.calls + 2) && before.ctl.Going? && w.log < before.w.log
    ensures Adoption(StartOf(plan, w.router), before, plan.staged, plan.devices[..i])
    ensures Cutover(plan, script, w) == Persist(script, AdoptDevice(script, before, plan.devices[i]), PreparedStage)
  {
    before := AdoptedBefore(plan, w, i);
    AdoptedBeforeIsAdoption(plan, w, i);
    script := DeathAt(before.w.calls + 2);
    DiesInRecord(script, before, plan.devices[i]);
    CutShortAt(plan, w, i, script);
  }

  lemma DiesInRecord(script: Script, before: Run, a: Address)
    requires script == DeathAt(before.w.calls + 2) && before.ctl.Going? && a in before.w.router.rows
    ensures Agrees(script, before.w.calls)
    ensures Persist(script, AdoptDevice(script, before, a), PreparedStage).ctl.Crashed?
  {
    AdoptedRestricted(script, before, a);
  }

  /** The process dies right after device `i`, already restricted, was put on record. */
  lemma DiesOnRecord(plan: Plan, w: World, i: nat) returns (script: Script)
    requires Identifiable(plan, w) && i < |plan.devices| && plan.devices[i] in w.router.rows
    ensures OpenWith(plan, w.router, Cutover(plan, script, w).w, plan.devices[i])
  {
    var before: Run;
    script, before := DiesRecording(plan, w, i);
    CutoverNotes(plan, script, w);
    DeadOnRecord(plan, w.router, script, before, plan.devices[i], plan.devices[..i]);
    OnRecordNow(plan, w, Persist(script, AdoptDevice(script, before, plan.devices[i]), PreparedStage), before);
  }

  lemma OnRecordNow(plan: Plan, w: World, run: Run, before: Run)
    requires OnRecord(plan, w.router, w.log, run.w.log) && w.log < before.w.log <= run.w.log
    ensures RecordedFrom(plan, w.router, Durable(run.w.log))
  {
  }

  lemma AdoptedRestricted(script: Script, before: Run, a: Address)
    requires before.ctl.Going? && a in before.w.router.rows
    requires script(before.w.calls).reply.Ok? && script(before.w.calls + 1).reply.Ok?
    ensures var r := AdoptDevice(script, before, a);
      && r.ctl.Going? && r.w == before.w.(calls := before.w.calls + 2)
      && r.mem.routerDevices == before.mem.routerDevices + [Prepared(a, false)]
      && r.mem.liveBefore == before.mem.liveBefore + [Before(a, LiveMode(before.w.router, a))]
  {
  }

  /** From `k` on every call takes effect and every reply is lost. */
  ghost predicate RepliesLost(script: Script, k: nat) {
    forall n | k <= n :: script(n) == Outcome(Error, Full)
  }

  lemma {:induction false} LostReEnable(script: Script, p: Progress, ps: seq<Profile>)
    requires !p.crashed && RepliesLost(script, p.w.calls)
    ensures !ReEnable(script, p, ps).crashed && p.w.calls <= ReEnable(script, p, ps).w.calls
    decreases |ps|
  {
    if ps != [] {
      var last := ps[|ps| - 1];
      LostReEnable(script, After(p, SetLegacy(script, p.w, last.name, last.id, false), LegacyProblem(last.name)),
                   ps[..|ps| - 1]);
    }
  }

  lemma {:induction false} LostModes(script: Script, p: Progress, created: set<Address>, before: seq<Before>)
    requires !p.crashed && RepliesLost(script, p.w.calls)
    ensures var r := RestoreModes(script, p, created, before); !r.crashed && p.w.calls <= r.w.calls
    decreases |before|
  {
    if before != [] {
      var last := before[|before| - 1];
      var next := if last.ip in created then p
                  else After(p, SetMode(script, p.w, last.ip, last.mode), ModeProblem(last.ip));
      LostModes(script, next, created, before[..|before| - 1]);
    }
  }

  lemma {:induction false} LostRemovals(script: Script, p: Progress, addresses: set<Address>)
    requires !p.crashed && RepliesLost(script, p.w.calls)
    ensures var r := RemoveRows(script, p, addresses);
      && !r.crashed && p.w.calls <= r.w.calls
      && r.w.router.rows.Keys <= p.w.router.rows.Keys
      && (forall a | a in r.w.router.rows :: r.w.router.rows[a] == p.w.router.rows[a])
      && (forall a | a in r.w.router.rows && a in addresses :: r.w.router.rows[a].Operator?)
    decreases |addresses|
  {
    if addresses != {} {
      var a := Least(addresses);
      LostRemovals(script, After(p, RemoveRow(script, p.w, a), MembershipProblem(a)), addresses - {a});
    }
  }

  /** A restoration that never hears back takes the rows away and reports failure. */
  lemma LostRestore(script: Script, w: World, e: Evidence)
    requires RepliesLost(script, w.calls)
    ensures var p := Restore(script, w, e);
      !p.crashed && p.errors != [] && forall a | a in p.w.router.rows && a in Known(e) :: p.w.router.rows[a].Operator?
  {
    var p0 := Progress(w, [], false);
    LostReEnable(script, p0, e.profiles);
    var legacy := ReEnable(script, p0, e.profiles);
    LostModes(script, legacy, Created(e.routerDevices), e.liveBefore);
    var modes := RestoreModes(script, legacy, Created(e.routerDevices), e.liveBefore);
    LostRemovals(script, modes, Known(e));
    var rows := RemoveRows(script, modes, Known(e));
    assert RepliesLost(script, rows.w.calls);
  }

  function OnlyFirstReply(k: nat): Script {
    (n: nat) => if n <= k then Outcome(Ok, Full) else Outcome(Error, Full)
  }

  /** An attempt that loses its replies takes a leftover row away, and with it the way to set the remembered mode. */
  lemma LostAttemptBlocks(b: Origin, w: World, x: Before)
    requires NeedsRestoring(w.log) && Truthful(b, w.log[|w.log| - 1].evidence)
    requires x in w.log[|w.log| - 1].evidence.liveBefore && x.ip in Known(w.log[|w.log| - 1].evidence)
    requires x.ip in b.router.rows && x.ip in w.router.rows && w.router.rows[x.ip].Migration?
    ensures var w' := Rollback(OnlyFirstReply(w.calls), w).w;
      w'.log == w.log && !Restorable(w'.router, w.log[|w.log| - 1].evidence)
  {
    var script, e := OnlyFirstReply(w.calls), w.log[|w.log| - 1].evidence;
    var armed := Ask(script, w).w;
    LostRestore(script, armed, e);
    var p := Restore(script, armed, e);
    MarkedOrGone(script, armed, e, x.ip);
    assert x.ip !in p.w.router.rows;
    assert x.ip !in Created(e.routerDevices);
    assert !ModeRestorable(p.w.router, e, x);
  }

  /** A restoration changes no owner. */
  lemma MarkedOrGone(script: Script, w: World, e: Evidence, a: Address)
    requires a in w.router.rows && w.router.rows[a].Migration?
    ensures var r := Restore(script, w, e).w.router; a in r.rows ==> r.rows[a].Migration?
  {
    var legacy := ReEnable(script, Progress(w, [], false), e.profiles);
    RemovalsKeepOwners(script, RestoreModes(script, legacy, Created(e.routerDevices), e.liveBefore), Known(e));
  }

  lemma {:induction false} RemovalsKeepOwners(script: Script, p: Progress, addresses: set<Address>)
    ensures var r := RemoveRows(script, p, addresses).w.router;
      forall a | a in r.rows :: a in p.w.router.rows && r.rows[a] == p.w.router.rows[a]
    decreases |addresses|
  {
    if !p.crashed && addresses != {} {
      var a := Least(addresses);
      RemovalsKeepOwners(script, After(p, RemoveRow(script, p.w, a), MembershipProblem(a)), addresses - {a});
    }
  }

  /** The open transfer can never be finished, whatever attempts are made. */
  ghost predicate StuckForGood(w: World) {
    InProgress(w.log) && forall scripts: seq<Script> :: Attempts(w, scripts).log == w.log
  }

  lemma OneAttempt(w: World, script: Script)
    ensures Attempts(w, [script]) == Rollback(script, w).w
  {
    assert [script][..0] == [];
  }

  lemma CanBlock(plan: Plan, was: Router, w: World, a: Address) returns (scripts: seq<Script>)
    requires a in was.rows && (was.rows[a].Migration? || LiveMode(was, a).Invalid?) && OpenWith(plan, was, w, a)
    ensures |scripts| <= 1
    ensures var w' := Attempts(w, scripts); StuckForGood(w') && !Rollback(AlwaysOk, w').reply.Ok?
  {
    var e, x := w.log[|w.log| - 1].evidence, Before(a, LiveMode(was, a));
    scripts := [];
    if Restorable(w.router, e) {
      assert ModeRestorable(w.router, e, x);
      LostAttemptBlocks(StartOf(plan, was), w, x);
      scripts := [OnlyFirstReply(w.calls)];
      OneAttempt(w, scripts[0]);
    }
    var w' := Attempts(w, scripts);
    UndisturbedRollback(w');
    NeverRolledBackIff(w');
  }

  /** A device that is not settled can block its transfer for good: a crash of the cutover and at most one attempt do
      it. */
  lemma UnsettledCanBlock(plan: Plan, w: World) returns (script: Script, scripts: seq<Script>)
    requires Identifiable(plan, w) && !Settled(plan, w.router)
    ensures |scripts| <= 1
    ensures StuckForGood(Attempts(Cutover(plan, script, w).w, scripts)) && !Finishable(plan, script, scripts, w)
  {
    var a :| a in plan.devices && a in w.router.rows && (w.router.rows[a].Migration? || LiveMode(w.router, a).Invalid?);
    var i :| 0 <= i < |plan.devices| && plan.devices[i] == a;
    script := DiesOnRecord(plan, w, i);
    scripts := CanBlock(plan, w.router, Cutover(plan, script, w).w, a);
  }

  /** An open transfer can always be finished, after every crash and error of the cutover and any interrupted
      attempts, if and only if every device that was already restricted stood in a row of the operator and in a real
      mode. */
  lemma EveryTransferCanBeFinishedIff(plan: Plan, w: World)
    requires Identifiable(plan, w)
    ensures Settled(plan, w.router)
       <==> forall script: Script, scripts: seq<Script> :: Finishable(plan, script, scripts, w)
  {
    if Settled(plan, w.router) {
      forall script: Script, scripts: seq<Script> ensures Finishable(plan, script, scripts, w) {
        SettledIsFinishable(plan, script, w, scripts);
      }
    } else {
      var script, scripts := UnsettledCanBlock(plan, w);
    }
  }

  /** A leftover row blocks the next transfer of its device through one unlucky attempt: until then a rollback would
      have completed. */
  lemma LeftoverCanBlock(plan: Plan, w: World, a: Address) returns (script: Script, attempt: Script)
    requires Identifiable(plan, w) && a in plan.devices && a in Marked(w.router)
    requires forall d | d in plan.devices && d in w.router.rows :: !LiveMode(w.router, d).Invalid?
    ensures var w' := Cutover(plan, script, w).w;
      InProgress(w'.log) && Rollback(AlwaysOk, w').reply.Ok? && StuckForGood(Rollback(attempt, w').w)
  {
    var i :| 0 <= i < |plan.devices| && plan.devices[i] == a;
    script := DiesOnRecord(plan, w, i);
    var w' := Cutover(plan, script, w).w;
    attempt := OnlyFirstReply(w'.calls);
    LostAttemptBlocks(StartOf(plan, w.router), w', Before(a, LiveMode(w.router, a)));
    NeverRolledBackIff(Rollback(attempt, w').w);
    RowsKeptIsRestorable(plan, w, w'.router, w'.log[|w'.log| - 1].evidence);
    UndisturbedRollback(w');
  }

  const LeftoverWorld := World(Router(map["kids" := [KidsRow]], map[10 := Migration], map[]), [], 0)

  /** Such a row is what ChangedAddressIsLeftBehind leaves. */
  lemma LeftoverRowBlocks() returns (script: Script, attempt: Script)
    ensures var w' := Cutover(KidsPlan(Blocked), script, LeftoverWorld).w;
      InProgress(w'.log) && Rollback(AlwaysOk, w').reply.Ok? && StuckForGood(Rollback(attempt, w').w)
  {
    assert LeftoverWorld.router.legacy["kids"] == [KidsRow];
    script, attempt := LeftoverCanBlock(KidsPlan(Blocked), LeftoverWorld, 10);
  }
}
