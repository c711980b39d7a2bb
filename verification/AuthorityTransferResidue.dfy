/** What a finished rollback leaves behind, and exactly when that is nothing. */
module AuthorityTransferResidue {
  import opened AuthorityTransfer
  import opened AuthorityTransferProofs
  import opened AuthorityTransferRuns
  import opened AuthorityTransferLimits
  import opened AuthorityTransferRecovery

  // ---------- the mode of a device that the transfer restricted ----------

  lemma {:induction false} RestoreModesSkips(
    script: Script, p: Progress, created: set<Address>, before: seq<Before>, a: Address)
    requires forall x | x in before :: x.ip == a ==> a in created
    ensures LiveMode(RestoreModes(script, p, created, before).w.router, a) == LiveMode(p.w.router, a)
    decreases |before|
  {
    if !p.crashed && before != [] {
      var last := before[|before| - 1];
      assert last in before;
      var next := if last.ip in created then p
                  else After(p, SetMode(script, p.w, last.ip, last.mode), ModeProblem(last.ip));
      RestoreModesSkips(script, next, created, before[..|before| - 1], a);
    }
  }

  lemma RestoreSkips(b: Origin, script: Script, w: World, e: Evidence, a: Address)
    requires Truthful(b, e) && a !in b.router.rows
    ensures LiveMode(Restore(script, w, e).w.router, a) == LiveMode(w.router, a)
  {
    var legacy := ReEnable(script, Progress(w, [], false), e.profiles);
    RestoreModesSkips(script, legacy, Created(e.routerDevices), e.liveBefore, a);
  }

  lemma AttemptSkips(b: Origin, script: Script, w: World, a: Address)
    requires Evidenced(b, w) && a !in b.router.rows
    ensures LiveMode(Rollback(script, w).w.router, a) == LiveMode(w.router, a)
  {
    if !CleanupComplete(w.log[|w.log| - 1]) {
      RestoreSkips(b, script, Ask(script, w).w, w.log[|w.log| - 1].evidence, a);
    }
  }

  lemma {:induction false} AttemptsSkip(b: Origin, w: World, scripts: seq<Script>, a: Address)
    requires Evidenced(b, w) && a !in b.router.rows
    ensures LiveMode(Attempts(w, scripts).router, a) == LiveMode(w.router, a)
  {
    if scripts != [] {
      var prefix := scripts[..|scripts| - 1];
      AttemptsSkip(b, w, prefix, a);
      AttemptsAreContained(b, w, prefix);
      if InProgress(Attempts(w, prefix).log) {
        AttemptSkips(b, scripts[|scripts| - 1], Attempts(w, prefix), a);
      }
    }
  }

  lemma HandlerSkips(b: Origin, script: Script, log: seq<Event>, run: Run, a: Address)
    requires LeavesCover(b, log, run) && a !in b.router.rows
    ensures LiveMode(Handle(script, run).w.router, a) == LiveMode(run.w.router, a)
  {
    RestoreSkips(b, script, run.w, run.mem, a);
  }

  /** Neither the failure handler nor any rollback attempt, finished or not, changes the mode of a device that was not
      restricted before the transfer: removing its row is all that is done for it. */
  lemma NoRollbackChangesMode(plan: Plan, script: Script, w: World, scripts: seq<Script>, a: Address)
    requires !InProgress(w.log) && a !in w.router.rows
    ensures LiveMode(Attempts(Cutover(plan, script, w).w, scripts).router, a)
         == LiveMode(Forward(plan, script, w).w.router, a)
  {
    var b, w0 := StartOf(plan, w.router), Cutover(plan, script, w).w;
    ForwardCovers(plan, script, w);
    HandlerSkips(b, script, w.log, Forward(plan, script, w), a);
    CutoverIsContained(plan, script, w);
    if w0.log == w.log {
      IdleAttempts(w0, scripts);
    } else {
      AttemptsSkip(b, w0, scripts, a);
    }
  }

  lemma HandOverKeepsModes(plan: Plan, script: Script, w: World)
    requires Prepare(plan, script, w).ctl.Going?
    ensures Forward(plan, script, w).w.router.modes == Prepare(plan, script, w).w.router.modes
    ensures forall a | a in plan.devices :: LiveMode(Forward(plan, script, w).w.router, a) == Desired(plan, a)
  {
    PrepareCovers(StartOf(plan, w.router), plan, script, w);
    var prepared := Prepare(plan, script, w);
    DisabledCovers(plan, script, StartOf(plan, w.router), prepared);
    DisablingKeepsModes(script, prepared, prepared.mem.profiles);
    ConfirmChangesNothing(script, DisableProfiles(script, prepared, prepared.mem.profiles));
  }

  lemma {:induction false} DisablingKeepsModes(script: Script, run: Run, ps: seq<Profile>)
    ensures DisableProfiles(script, run, ps).w.router.modes == run.w.router.modes
  {
    if ps != [] {
      DisablingKeepsModes(script, run, ps[..|ps| - 1]);
    }
  }

  /** Once every device was reconciled, such a device keeps the mode its policy asked for, whatever happens later. */
  lemma ModeOutlivesRollback(plan: Plan, script: Script, w: World, scripts: seq<Script>, a: Address)
    requires Prepare(plan, script, w).ctl.Going? && a in plan.devices && a !in w.router.rows
    ensures LiveMode(Attempts(Cutover(plan, script, w).w, scripts).router, a) == Desired(plan, a)
  {
    PrepareCovers(StartOf(plan, w.router), plan, script, w);
    HandOverKeepsModes(plan, script, w);
    NoRollbackChangesMode(plan, script, w, scripts, a);
  }

  /** So a cutover and a rollback in which no call fails restore profiles and rows, and leave every device that was not
      restricted in the mode its policy asked for. */
  lemma UndisturbedTransfer(plan: Plan, w: World)
    requires Identifiable(plan, w) && Settled(plan, w.router) && Anticipated(plan, w.router)
    requires Leftovers(plan, w.router) == {}
    ensures var done := Cutover(plan, AlwaysOk, w);
      var undone := Rollback(AlwaysOk, done.w);
      InProgress(done.w.log) ==>
        && undone.reply.Ok? && undone.w.router.legacy == w.router.legacy && undone.w.router.rows == w.router.rows
        && forall a | a in plan.devices && a !in w.router.rows :: LiveMode(undone.w.router, a) == Desired(plan, a)
  {
    var done := Cutover(plan, AlwaysOk, w).w;
    assert Unanticipated(plan, w.router) == {};
    assert Attempts(done, []) == done;
    SettledIsFinishable(plan, AlwaysOk, w, []);
    EveryTransferIsUndone(plan, AlwaysOk, w, [], AlwaysOk);
    UndisturbedModes(plan, w);
  }

  lemma UndisturbedModes(plan: Plan, w: World)
    requires Identifiable(plan, w)
    ensures var undone := Rollback(AlwaysOk, Cutover(plan, AlwaysOk, w).w).w;
      forall a | a in plan.devices && a !in w.router.rows :: LiveMode(undone.router, a) == Desired(plan, a)
  {
    PreparesUndisturbed(plan, w);
    OneAttempt(Cutover(plan, AlwaysOk, w).w, AlwaysOk);
    forall a | a in plan.devices && a !in w.router.rows
      ensures LiveMode(Rollback(AlwaysOk, Cutover(plan, AlwaysOk, w).w).w.router, a) == Desired(plan, a)
    {
      ModeOutlivesRollback(plan, AlwaysOk, w, [AlwaysOk], a);
    }
  }

  /** Concretely the device ends in mode `m` and without a row. With `Blocked` it stays cut off from the internet
      after the rollback: the router's drop rule looks at the mode entry alone, and no row is left through which the
      panel could change it. */
  lemma ModeIsLeftBehind(m: RealMode)
    ensures var done := Cutover(KidsPlan(m), AlwaysOk, KidsWorld);
      var undone := Rollback(AlwaysOk, done.w);
      && done.ctl.Going? && undone.reply.Ok? && undone.w.router.legacy == KidsWorld.router.legacy
      && undone.w.router.rows == map[] && LiveMode(KidsWorld.router, 10) == Normal && LiveMode(undone.w.router, 10) == m
  {
    KidsDone(m);
    KidsIsIdentifiable(m);
    UndisturbedTransfer(KidsPlan(m), KidsWorld);
  }

  lemma KidsIsIdentifiable(m: RealMode)
    ensures Identifiable(KidsPlan(m), KidsWorld)
  {
    assert KidsWorld.router.legacy["kids"] == [KidsRow];
  }

  lemma KidsDone(m: RealMode)
    ensures Cutover(KidsPlan(m), AlwaysOk, KidsWorld).ctl.Going?
    ensures InProgress(Cutover(KidsPlan(m), AlwaysOk, KidsWorld).w.log)
  {
    KidsPrepared(m, AlwaysOk);
    MixedDisabled(Prepare(KidsPlan(m), AlwaysOk, KidsWorld));
    SuccessIsOnRecord(KidsPlan(m), AlwaysOk, KidsWorld);
  }

  // ---------- a device that the staged payload does not name ----------

  /** The first device the staged payload does not name and the router does not yet restrict. */
  lemma FirstUnanticipated(plan: Plan, r: Router) returns (i: nat)
    requires !Anticipated(plan, r)
    ensures i < |plan.devices| && plan.devices[i] !in plan.staged && plan.devices[i] !in r.rows
    ensures forall a | a in plan.devices[..i] :: a in plan.staged || a in r.rows
  {
    i := 0;
    assert plan.devices[..|plan.devices|] == plan.devices;
    while i < |plan.devices| && (plan.devices[i] in plan.staged || plan.devices[i] in r.rows)
      invariant i <= |plan.devices|
      invariant forall a | a in plan.devices[..i] :: a in plan.staged || a in r.rows
    {
      assert plan.devices[..i + 1] == plan.devices[..i] + [plan.devices[i]];
      i := i + 1;
    }
  }

  /** A recovery whose calls all succeed leaves alone what the durable record does not name. */
  lemma UnknownRowSurvives(w: World, ip: Address)
    requires InProgress(w.log) && !CleanupComplete(w.log[|w.log| - 1])
    requires Restorable(w.router, w.log[|w.log| - 1].evidence)
    requires ip in w.router.rows && ip !in Known(w.log[|w.log| - 1].evidence)
    ensures Rollback(AlwaysOk, w).reply.Ok? && ip in Rollback(AlwaysOk, w).w.router.rows
  {
    UndisturbedRollback(w);
    RestoreUndisturbed(Tick(w), w.log[|w.log| - 1].evidence);
  }

  lemma DeathAdoptsSilently(before: Run, ip: Address, script: Script)
    requires script == DeathAt(before.w.calls) && ip !in before.w.router.rows
    ensures AdoptDevice(script, before, ip).w.router == before.w.router.(rows := before.w.router.rows[ip := Migration])
    ensures AdoptDevice(script, before, ip).w.log == before.w.log
  {
  }

  lemma UnknownDevice(mem: Evidence, ip: Address, prefix: seq<Address>, staged: seq<Address>)
    requires mem.artifacts == staged && AddressesOf(mem.routerDevices) == prefix && ip !in staged && ip !in prefix
    ensures ip !in Known(mem)
  {
    forall d | d in mem.routerDevices ensures d.address in prefix {
      var j :| 0 <= j < |mem.routerDevices| && mem.routerDevices[j] == d;
      assert prefix[j] == d.address;
    }
  }

  /** A crash between adding the row of such a device and recording it: if a rollback completes, the row is still
      there. */
  lemma CrashLeavesRow(plan: Plan, w: World, i: nat) returns (script: Script)
    requires Identifiable(plan, w) && i < |plan.devices|
    requires plan.devices[i] !in plan.staged && plan.devices[i] !in w.router.rows
    requires forall a | a in plan.devices[..i] :: a in plan.staged || a in w.router.rows
    ensures var dead := Cutover(plan, script, w).w;
      && InProgress(dead.log)
      && (Rollback(AlwaysOk, dead).reply.Ok? ==> plan.devices[i] in Rollback(AlwaysOk, dead).w.router.rows)
  {
    var before: Run;
    script, before := DiesAdding(plan, w, i);
    UnknownDevice(before.mem, plan.devices[i], plan.devices[..i], plan.staged);
    RowIsFresh(StartOf(plan, w.router), before, plan.staged, plan.devices[..i], plan.devices[i]);
    DeathAdoptsSilently(before, plan.devices[i], script);
    SilentRowSurvives(before, AdoptDevice(script, before, plan.devices[i]).w, plan.devices[i]);
  }

  lemma DiesAdding(plan: Plan, w: World, i: nat) returns (script: Script, before: Run)
    requires Identifiable(plan, w) && i < |plan.devices|
    ensures script == DeathAt(before.w.calls) && before.ctl.Going?
    ensures Adoption(StartOf(plan, w.router), before, plan.staged, plan.devices[..i])
    ensures Cutover(plan, script, w) == AdoptDevice(script, before, plan.devices[i])
  {
    before := AdoptedBefore(plan, w, i);
    AdoptedBeforeIsAdoption(plan, w, i);
    script := DeathAt(before.w.calls);
    assert AdoptDevice(script, before, plan.devices[i]).ctl.Crashed?;
    CutShortAt(plan, w, i, script);
  }

  lemma RowIsFresh(b: Origin, before: Run, staged: seq<Address>, prefix: seq<Address>, ip: Address)
    requires before.ctl.Going? && Adoption(b, before, staged, prefix)
    requires ip !in b.router.rows && ip !in Known(before.mem)
    ensures ip !in before.w.router.rows
  {
    assert Created(before.mem.routerDevices) <= Known(before.mem);
  }

  lemma SilentRowSurvives(before: Run, dead: World, ip: Address)
    requires Underway(before.w.log) && Durable(before.w.log) == before.mem && ip !in Known(before.mem)
    requires dead.log == before.w.log && ip in dead.router.rows
    ensures Rollback(AlwaysOk, dead).reply.Ok? ==> ip in Rollback(AlwaysOk, dead).w.router.rows
  {
    UndisturbedRollback(dead);
    if Rollback(AlwaysOk, dead).reply.Ok? {
      UnknownRowSurvives(dead, ip);
    }
  }

  // ---------- a leftover row that the staged payload names ----------

  /** A crash at the first durable record: a completed rollback has taken the leftover row away. */
  lemma CrashTakesLeftover(plan: Plan, w: World, a: Address)
    requires Identifiable(plan, w) && a in plan.staged && a in Marked(w.router)
    ensures !UndoneAfter(plan, DeathAt(w.calls + 3), [], w)
  {
    var script := DeathAt(w.calls + 3);
    DiesAtFirstRecord(plan, w, script);
    var dead := Cutover(plan, script, w).w;
    var e := dead.log[|dead.log| - 1].evidence;
    assert a in Known(e);
    UndisturbedRollback(dead);
    RestoreUndisturbed(Tick(dead), e);
    MarkedOrGone(AlwaysOk, Tick(dead), e, a);
    assert a !in Rollback(AlwaysOk, dead).w.router.rows || !Rollback(AlwaysOk, dead).reply.Ok?;
  }

  lemma DiesAtFirstRecord(plan: Plan, w: World, script: Script)
    requires Identifiable(plan, w) && script == DeathAt(w.calls + 3)
    ensures var dead := Cutover(plan, script, w).w;
      dead.router == w.router && NeedsRestoring(dead.log) && dead.log[|dead.log| - 1].evidence.artifacts == plan.staged
  {
    IdentifiedNames(plan, w);
    var armed := Tick(Tick(w));
    assert Ask(script, w) == Step(Tick(w), Ok) && Ask(script, Tick(w)) == Step(armed, Ok);
    CollectAll(Run(armed, NoEvidence, Going, true), plan.names);
    var collected := CollectProfiles(Run(armed, NoEvidence, Going, true), plan.names);
    assert Ask(script, collected.w) == Step(Tick(armed), Ok);
    var start := Opening(plan, script, w);
    assert start.ctl.Crashed?;
    assert Cutover(plan, script, w) == start;
  }

  // ---------- undone completely ----------

  /** The same profiles, the same rows, and every address in the same mode. */
  ghost predicate SameRouter(b: Router, r: Router) {
    r.legacy == b.legacy && r.rows == b.rows && forall a: Address :: LiveMode(r, a) == LiveMode(b, a)
  }

  /** After the cutover and the attempts, an undisturbed rollback completes if one is due, and the router is as it
      was. */
  ghost predicate UndoneAfter(plan: Plan, script: Script, scripts: seq<Script>, w: World) {
    var w' := Attempts(Cutover(plan, script, w).w, scripts);
    if InProgress(w'.log) then Rollback(AlwaysOk, w').reply.Ok? && SameRouter(w.router, Rollback(AlwaysOk, w').w.router)
    else SameRouter(w.router, w'.router)
  }

  /** Every device is either restricted by the operator and in a real mode, or staged and already in the mode it is to
      get; and the staged payload names no leftover row. */
  predicate Reversible(plan: Plan, r: Router) {
    && (forall a | a in plan.devices ::
          if a in r.rows then r.rows[a].Operator? && !LiveMode(r, a).Invalid?
          else a in plan.staged && Desired(plan, a) == LiveMode(r, a))
    && (forall a | a in plan.staged && a in r.rows :: r.rows[a].Operator?)
  }

  lemma ReversibleStart(plan: Plan, r: Router)
    ensures Reversible(plan, r)
       <==> Settled(plan, r) && Anticipated(plan, r) && Drifting(plan, r) == {} && Leftovers(plan, r) == {}
  {
    if Settled(plan, r) && Anticipated(plan, r) && Drifting(plan, r) == {} && Leftovers(plan, r) == {} {
      forall a | a in plan.devices && a !in r.rows ensures Desired(plan, a) == LiveMode(r, a) {
        assert a !in Drifting(plan, r);
      }
      forall a | a in plan.staged && a in r.rows ensures r.rows[a].Operator? {
        assert a !in Leftovers(plan, r);
      }
    }
  }

  lemma ReversibleIsUndone(plan: Plan, script: Script, scripts: seq<Script>, w: World)
    requires Identifiable(plan, w) && Reversible(plan, w.router)
    ensures UndoneAfter(plan, script, scripts, w)
  {
    ReversibleStart(plan, w.router);
    assert Unanticipated(plan, w.router) == {};
    var b := StartOf(plan, w.router);
    assert b == Origin(w.router, {}, {});
    SettledIsFinishable(plan, script, w, scripts);
    EveryTransferIsUndone(plan, script, w, scripts, AlwaysOk);
    var w' := Attempts(Cutover(plan, script, w).w, scripts);
    if InProgress(w'.log) {
      NothingLeaks(b, Rollback(AlwaysOk, w').w.router);
    } else {
      NothingLeaks(b, w'.router);
    }
  }

  /** Without a failing call the devices are adopted and reconciled. */
  lemma PreparesUndisturbed(plan: Plan, w: World)
    requires Identifiable(plan, w)
    ensures Prepare(plan, AlwaysOk, w).ctl.Going?
  {
    IdentifiedNames(plan, w);
    OpeningUndisturbed(plan, AlwaysOk, w);
    var start := Opening(plan, AlwaysOk, w);
    OpeningCovers(StartOf(plan, w.router), plan, AlwaysOk, w);
    AdoptUndisturbed(AlwaysOk, start, plan.devices);
    var adopted := AdoptDevices(AlwaysOk, start, plan.devices);
    assert plan.devices[..|plan.devices|] == plan.devices;
    AdoptedBeforeIsAdoption(plan, w, |plan.devices|);
    ReconcilesUndisturbed(adopted, plan, plan.devices);
  }

  lemma {:induction false} ReconcilesUndisturbed(run: Run, plan: Plan, devices: seq<Address>)
    requires run.ctl.Going? && forall a | a in devices :: a in run.w.router.rows
    ensures var r := ReconcileDevices(AlwaysOk, run, plan, devices);
      r.ctl.Going? && r.w.router.rows == run.w.router.rows
  {
    if devices != [] {
      var prefix, ip := devices[..|devices| - 1], devices[|devices| - 1];
      assert ip in devices && forall a | a in prefix :: a in devices;
      ReconcilesUndisturbed(run, plan, prefix);
    }
  }

  lemma DriftIsLeftBehind(plan: Plan, w: World, a: Address)
    requires Identifiable(plan, w) && a in Drifting(plan, w.router)
    ensures !UndoneAfter(plan, AlwaysOk, [], w)
  {
    PreparesUndisturbed(plan, w);
    var w' := Cutover(plan, AlwaysOk, w).w;
    assert Attempts(w', []) == w';
    ModeOutlivesRollback(plan, AlwaysOk, w, [], a);
    ModeOutlivesRollback(plan, AlwaysOk, w, [AlwaysOk], a);
    OneAttempt(w', AlwaysOk);
  }

  /** Some crash or interrupted attempt defeats a transfer that is not reversible. */
  lemma IrreversibleIsNotUndone(plan: Plan, w: World) returns (script: Script, scripts: seq<Script>)
    requires Identifiable(plan, w) && !Reversible(plan, w.router)
    ensures !UndoneAfter(plan, script, scripts, w)
  {
    ReversibleStart(plan, w.router);
    scripts := [];
    if !Settled(plan, w.router) {
      script, scripts := UnsettledCanBlock(plan, w);
    } else if !Anticipated(plan, w.router) {
      var i := FirstUnanticipated(plan, w.router);
      script := CrashLeavesRow(plan, w, i);
    } else if Drifting(plan, w.router) != {} {
      var a :| a in Drifting(plan, w.router);
      script := AlwaysOk;
      DriftIsLeftBehind(plan, w, a);
    } else {
      var a :| a in Leftovers(plan, w.router);
      assert a in plan.staged;
      script := DeathAt(w.calls + 3);
      CrashTakesLeftover(plan, w, a);
    }
  }

  /** A transfer can be undone completely, modes included, for every crash and error and any interrupted attempts, if
      and only if every device already restricted stands in an operator row and a real mode, every other device is
      staged and already in the mode it is to get, and the staged payload names no leftover row. */
  lemma UndoneCompletelyIff(plan: Plan, w: World)
    requires Identifiable(plan, w)
    ensures Reversible(plan, w.router)
       <==> forall script: Script, scripts: seq<Script> :: UndoneAfter(plan, script, scripts, w)
  {
    if Reversible(plan, w.router) {
      forall script: Script, scripts: seq<Script> ensures UndoneAfter(plan, script, scripts, w) {
        ReversibleIsUndone(plan, script, scripts, w);
      }
    } else {
      var script, scripts := IrreversibleIsNotUndone(plan, w);
    }
  }

  const ChangedPlan := Plan(true, ["kids"], [10], [11], map[])

  /** Staged at address 10, re-read at 11: some crash and a successful rollback leave 11 restricted. */
  lemma ChangedAddressIsLeftBehind() returns (script: Script)
    ensures var dead := Cutover(ChangedPlan, script, KidsWorld).w;
      && InProgress(dead.log) && Rollback(AlwaysOk, dead).reply.Ok?
      && 11 !in KidsWorld.router.rows && 11 in Rollback(AlwaysOk, dead).w.router.rows
  {
    assert KidsWorld.router.legacy["kids"] == [KidsRow];
    script := CrashLeavesRow(ChangedPlan, KidsWorld, 0);
    SettledIsFinishable(ChangedPlan, script, KidsWorld, []);
    assert Attempts(Cutover(ChangedPlan, script, KidsWorld).w, []) == Cutover(ChangedPlan, script, KidsWorld).w;
  }
}
