/** Two exact limits of recovering a transfer: when an authority remains after a restoration, and when no attempt can
    ever complete. */
module AuthorityTransferLimits {
  import opened AuthorityTransfer
  import opened AuthorityTransferProofs
  import opened AuthorityTransferRuns

  // ---------- an authority after a restoration ----------

  predicate Uninterrupted(script: Script, from: nat, until: nat) {
    forall n | from <= n < until :: !script(n).reply.Crash?
  }

  /** The re-enable call for entry `i` is reached, finds its row and takes effect; the last entry is called first. */
  predicate Lands(script: Script, from: nat, r: Router, ps: seq<Profile>, i: nat)
    requires i < |ps|
  {
    var call := from + |ps| - 1 - i;
    Targets(r, ps[i].name, ps[i].id) && Took(script(call)) && Uninterrupted(script, from, call)
  }

  predicate Enables(script: Script, from: nat, r: Router, ps: seq<Profile>, name: string) {
    exists i | 0 <= i < |ps| :: ps[i].name == name && Lands(script, from, r, ps, i)
  }

  /** The recorded profile is present once and under its recorded identity. */
  predicate Identified(r: Router, p: Profile) {
    p.name in r.legacy && |r.legacy[p.name]| == 1 && (p.id == "" || r.legacy[p.name][0].id == p.id)
  }

  /** Read off the router before the restoration and the outcomes of its re-enable calls: every recorded profile is
      identified, and either enabled already or the target of a re-enable call that lands. */
  predicate AuthorityKept(script: Script, from: nat, r: Router, ps: seq<Profile>) {
    forall p | p in ps ::
      Identified(r, p) && (!r.legacy[p.name][0].disabled || Enables(script, from, r, ps, p.name))
  }

  ghost predicate SameTargets(r: Router, r': Router) {
    forall name, id :: Targets(r, name, id) <==> Targets(r', name, id)
  }

  lemma EnablesSplit(script: Script, from: nat, r: Router, r': Router, ps: seq<Profile>, name: string)
    requires ps != [] && SameTargets(r, r')
    ensures var last, rest := ps[|ps| - 1], ps[..|ps| - 1];
      Enables(script, from, r, ps, name)
      <==> || (last.name == name && Targets(r, last.name, last.id) && Took(script(from)))
           || (!script(from).reply.Crash? && Enables(script, from + 1, r', rest, name))
  {
    var n := |ps| - 1;
    var last, rest := ps[n], ps[..n];
    if last.name == name && Targets(r, last.name, last.id) && Took(script(from)) {
      assert Lands(script, from, r, ps, n);
    }
    if !script(from).reply.Crash? && Enables(script, from + 1, r', rest, name) {
      var i :| 0 <= i < n && rest[i].name == name && Lands(script, from + 1, r', rest, i);
      assert Lands(script, from, r, ps, i);
    }
    if Enables(script, from, r, ps, name) {
      var i :| 0 <= i < |ps| && ps[i].name == name && Lands(script, from, r, ps, i);
      if i < n {
        assert !script(from).reply.Crash?;
        assert Lands(script, from + 1, r', rest, i);
      }
    }
  }

  lemma SetLegacyFlag(script: Script, w: World, p: Profile, name: string)
    requires name in w.router.legacy && |w.router.legacy[name]| == 1
    ensures var s := SetLegacy(script, w, p.name, p.id, false);
      && s.w.router.legacy.Keys == w.router.legacy.Keys && SameTargets(w.router, s.w.router)
      && (s.reply.Crash? <==> script(w.calls).reply.Crash?)
      && s.w.router.legacy[name] == [w.router.legacy[name][0].(disabled := w.router.legacy[name][0].disabled
           && !(p.name == name && Targets(w.router, p.name, p.id) && Took(script(w.calls))))]
  {
  }

  /** A row is enabled after the loop exactly if it was before, or some call for its name landed. */
  lemma {:induction false} LoopEnables(script: Script, p: Progress, ps: seq<Profile>, name: string)
    requires !p.crashed && name in p.w.router.legacy && |p.w.router.legacy[name]| == 1
    ensures var r := ReEnable(script, p, ps).w.router;
      && name in r.legacy
      && r.legacy[name] == [p.w.router.legacy[name][0].(disabled := p.w.router.legacy[name][0].disabled
                             && !Enables(script, p.w.calls, p.w.router, ps, name))]
    decreases |ps|
  {
    if ps != [] {
      var last, rest := ps[|ps| - 1], ps[..|ps| - 1];
      var s := SetLegacy(script, p.w, last.name, last.id, false);
      var next := After(p, s, LegacyProblem(last.name));
      SetLegacyFlag(script, p.w, last, name);
      EnablesSplit(script, p.w.calls, p.w.router, s.w.router, ps, name);
      if !next.crashed {
        LoopEnables(script, next, rest, name);
      }
    }
  }

  /** Names and numbers of rows never change. */
  lemma {:induction false} LoopKeepsShape(script: Script, p: Progress, ps: seq<Profile>)
    ensures var r := ReEnable(script, p, ps).w.router;
      && r.legacy.Keys == p.w.router.legacy.Keys
      && forall n | n in r.legacy :: |r.legacy[n]| == |p.w.router.legacy[n]|
    decreases |ps|
  {
    if !p.crashed && ps != [] {
      var last := ps[|ps| - 1];
      LoopKeepsShape(script, After(p, SetLegacy(script, p.w, last.name, last.id, false), LegacyProblem(last.name)),
                     ps[..|ps| - 1]);
    }
  }

  /** After a restoration, cut short or not, every recorded profile is proven enabled if and only if the condition held
      before it. It unwinds the membership all the same: once the re-enable loop is through and the calls after it are
      answered, no marked row of the transfer is left. */
  lemma AuthorityRemainsExactlyIf(script: Script, w: World, e: Evidence)
    ensures Proven(Restore(script, w, e).w.router, e.profiles) <==> AuthorityKept(script, w.calls, w.router, e.profiles)
    ensures Uninterrupted(script, w.calls, w.calls + |e.profiles|)
            && (forall n | w.calls + |e.profiles| <= n :: script(n) == AlwaysOk(n)) ==>
              var r := Restore(script, w, e).w.router; forall a | a in r.rows && a in Known(e) :: r.rows[a].Operator?
  {
    var p0 := Progress(w, [], false);
    var r := ReEnable(script, p0, e.profiles).w.router;
    assert Restore(script, w, e).w.router.legacy == r.legacy;
    LoopKeepsShape(script, p0, e.profiles);
    forall p | p in e.profiles
      ensures ProfileProven(Restore(script, w, e).w.router, p)
         <==> Identified(w.router, p)
              && (!w.router.legacy[p.name][0].disabled || Enables(script, w.calls, w.router, e.profiles, p.name))
    {
      if p.name in w.router.legacy && |w.router.legacy[p.name]| == 1 {
        LoopEnables(script, p0, e.profiles, p.name);
      }
    }
    if Uninterrupted(script, w.calls, w.calls + |e.profiles|)
       && forall n | w.calls + |e.profiles| <= n :: script(n) == AlwaysOk(n) {
      MembershipGoes(script, w, e);
    }
  }

  lemma MembershipGoes(script: Script, w: World, e: Evidence)
    requires Uninterrupted(script, w.calls, w.calls + |e.profiles|)
    requires forall n | w.calls + |e.profiles| <= n :: script(n) == AlwaysOk(n)
    ensures var r := Restore(script, w, e).w.router; forall a | a in r.rows && a in Known(e) :: r.rows[a].Operator?
  {
    var p0 := Progress(w, [], false);
    LoopIsNotCut(script, p0, e.profiles);
    ReEnableCalls(script, p0, e.profiles);
    UnwindUndisturbed(script, ReEnable(script, p0, e.profiles), e);
  }

  lemma {:induction false} LoopIsNotCut(script: Script, p: Progress, ps: seq<Profile>)
    requires !p.crashed && Uninterrupted(script, p.w.calls, p.w.calls + |ps|)
    ensures !ReEnable(script, p, ps).crashed
    decreases |ps|
  {
    if ps != [] {
      var last := ps[|ps| - 1];
      LoopIsNotCut(script, After(p, SetLegacy(script, p.w, last.name, last.id, false), LegacyProblem(last.name)),
                   ps[..|ps| - 1]);
    }
  }

  lemma {:induction false} ReEnableCalls(script: Script, p: Progress, ps: seq<Profile>)
    ensures !ReEnable(script, p, ps).crashed ==> ReEnable(script, p, ps).w.calls == p.w.calls + |ps|
    decreases |ps|
  {
    if !p.crashed && ps != [] {
      var last := ps[|ps| - 1];
      ReEnableCalls(script, After(p, SetLegacy(script, p.w, last.name, last.id, false), LegacyProblem(last.name)),
                    ps[..|ps| - 1]);
    }
  }

  lemma UnwindUndisturbed(script: Script, p: Progress, e: Evidence)
    requires !p.crashed && forall n | p.w.calls <= n :: script(n) == AlwaysOk(n)
    ensures Unwind(script, p, e) == Unwind(AlwaysOk, p, e)
    ensures var r := Unwind(script, p, e).w.router; forall a | a in r.rows && a in Known(e) :: r.rows[a].Operator?
  {
    RestoreModesSame(script, p, Created(e.routerDevices), e.liveBefore);
    var modes := RestoreModes(script, p, Created(e.routerDevices), e.liveBefore);
    RemoveRowsSame(script, modes, Known(e));
    RestoreModesUndisturbed(p, e, e.liveBefore);
    RemoveRowsUndisturbed(modes, Known(e));
  }

  lemma {:induction false} RestoreModesSame(script: Script, p: Progress, created: set<Address>, before: seq<Before>)
    requires forall n | p.w.calls <= n :: script(n) == AlwaysOk(n)
    ensures RestoreModes(script, p, created, before) == RestoreModes(AlwaysOk, p, created, before)
    ensures p.w.calls <= RestoreModes(script, p, created, before).w.calls
    decreases |before|
  {
    if !p.crashed && before != [] {
      var last := before[|before| - 1];
      var next := if last.ip in created then p
                  else After(p, SetMode(script, p.w, last.ip, last.mode), ModeProblem(last.ip));
      RestoreModesSame(script, next, created, before[..|before| - 1]);
    }
  }

  lemma {:induction false} RemoveRowsSame(script: Script, p: Progress, addresses: set<Address>)
    requires forall n | p.w.calls <= n :: script(n) == AlwaysOk(n)
    ensures RemoveRows(script, p, addresses) == RemoveRows(AlwaysOk, p, addresses)
    decreases |addresses|
  {
    if !p.crashed && addresses != {} {
      var a := Least(addresses);
      RemoveRowsSame(script, After(p, RemoveRow(script, p.w, a), MembershipProblem(a)), addresses - {a});
    }
  }

  predicate Agrees(script: Script, k: nat) {
    forall n | 0 <= n < k :: script(n) == AlwaysOk(n)
  }

  const KidsRow := LegacyRow("*1", false)
  const KidsWorld := World(Router(map["kids" := [KidsRow]], map[], map[]), [], 0)

  /** One profile, one device that is not yet restricted, to be given mode `m`. */
  function KidsPlan(m: RealMode): Plan {
    Plan(true, ["kids"], [10], [10], map[10 := m])
  }

  /** The number of calls before the first profile is disabled. */
  function KidsCalls(m: RealMode): nat {
    if m.Normal? then 9 else 11
  }

  /** The reply to the disabling call is lost, and so is the re-enable call of the failure handler. */
  function LostTwice(m: RealMode): Script {
    (n: nat) => if n == KidsCalls(m) then Outcome(Error, Full)
                else if n == KidsCalls(m) + 1 then Outcome(Error, Nothing)
                else Outcome(Ok, Full)
  }

  const KidsProfiles := [Profile("kids", "*1")]
  const KidsOpened := Evidence([10], [], [], KidsProfiles, [], [], false)
  const KidsAdopted := KidsOpened.(routerDevices := [Prepared(10, true)], liveBefore := [Before(10, Normal)])

  function KidsFull(m: RealMode): Evidence {
    KidsAdopted.(reconciliations := [Reconciled(10, m, m)])
  }

  function KidsRouter(m: RealMode): Router {
    KidsWorld.router.(rows := map[10 := Migration], modes := if m.Normal? then map[] else map[10 := m])
  }

  function KidsShut(m: RealMode): Router {
    KidsRouter(m).(legacy := map["kids" := [KidsRow.(disabled := true)]])
  }

  lemma KidsOpen(m: RealMode, script: Script)
    requires Agrees(script, KidsCalls(m))
    ensures Opening(KidsPlan(m), script, KidsWorld)
         == Run(World(KidsWorld.router, [Event(PreparedStage, KidsOpened)], 4), KidsOpened, Going, true)
  {
    assert LegacyId(KidsWorld.router, "kids") == "*1";
    assert ["kids"][..0] == [];
    assert CollectProfiles(Run(Tick(Tick(KidsWorld)), NoEvidence, Going, true), ["kids"]).mem.profiles == KidsProfiles;
    assert Ready(KidsPlan(m), Tick(KidsWorld)) by {
      assert KidsWorld.router.legacy["kids"] == [KidsRow];
    }
    assert forall n | 0 <= n < 4 :: script(n) == AlwaysOk(n);
  }

  lemma KidsAdoption(m: RealMode, script: Script, start: Run)
    requires Agrees(script, KidsCalls(m))
    requires start == Run(World(KidsWorld.router, [Event(PreparedStage, KidsOpened)], 4), KidsOpened, Going, true)
    ensures var r := AdoptDevices(script, start, [10]);
      && r.ctl.Going? && r.started && r.mem == KidsAdopted && r.w.calls == 6
      && r.w.router == KidsWorld.router.(rows := map[10 := Migration])
  {
    assert [10][..0] == [];
    assert AdoptDevices(script, start, []) == start;
    assert script(4) == AlwaysOk(4) && script(5) == AlwaysOk(5);
    var device := AdoptDevice(script, start, 10);
    assert device.w.router == KidsWorld.router.(rows := map[10 := Migration]) && device.mem == KidsAdopted;
    assert AdoptDevices(script, start, [10]) == Persist(script, device, PreparedStage);
  }

  lemma KidsReconciled(m: RealMode, script: Script, adopted: Run)
    requires Agrees(script, KidsCalls(m)) && adopted.ctl.Going? && adopted.mem == KidsAdopted && adopted.w.calls == 6
    requires adopted.w.router == KidsWorld.router.(rows := map[10 := Migration])
    ensures var r := ReconcileDevices(script, adopted, KidsPlan(m), [10]);
      && r.ctl.Going? && r.started == adopted.started && r.mem == KidsFull(m) && r.w.calls == KidsCalls(m) - 1
      && r.w.router == KidsRouter(m)
  {
    assert [10][..0] == [];
    assert ReconcileDevices(script, adopted, KidsPlan(m), []) == adopted;
    assert script(6) == AlwaysOk(6) && script(7) == AlwaysOk(7);
    assert !m.Normal? ==> script(8) == AlwaysOk(8) && script(9) == AlwaysOk(9);
    assert ReconcileDevices(script, adopted, KidsPlan(m), [10]) == ReconcileDevice(script, adopted, KidsPlan(m), 10);
  }

  lemma KidsPrepared(m: RealMode, script: Script)
    requires Agrees(script, KidsCalls(m))
    ensures var run := Prepare(KidsPlan(m), script, KidsWorld);
      && run.w.router == KidsRouter(m) && run.w.calls == KidsCalls(m) && run.mem == KidsFull(m)
      && run.ctl.Going? && run.started
  {
    KidsOpen(m, script);
    var start := Opening(KidsPlan(m), script, KidsWorld);
    KidsAdoption(m, script, start);
    KidsReconciled(m, script, AdoptDevices(script, start, [10]));
    assert script(KidsCalls(m) - 1) == AlwaysOk(KidsCalls(m) - 1);
  }

  lemma KidsDisabling(m: RealMode, run: Run)
    requires run.ctl.Going? && run.w.calls == KidsCalls(m) && run.w.router == KidsRouter(m)
    ensures var r := DisableProfiles(LostTwice(m), run, KidsProfiles);
      r == run.(w := r.w, ctl := Raised) && r.w.router == KidsShut(m) && r.w.calls == KidsCalls(m) + 1
  {
    assert KidsProfiles[..0] == [];
    assert DisableProfiles(LostTwice(m), run, []) == run;
    assert Targets(KidsRouter(m), "kids", "*1");
    assert SetLegacy(LostTwice(m), run.w, "kids", "*1", true).w.router.legacy == KidsShut(m).legacy;
  }

  lemma KidsDisabled(m: RealMode)
    ensures var run := Forward(KidsPlan(m), LostTwice(m), KidsWorld);
      && run.ctl.Raised? && run.started && run.mem == KidsFull(m) && run.w.calls == KidsCalls(m) + 1
      && run.w.router == KidsShut(m)
  {
    KidsPrepared(m, LostTwice(m));
    KidsDisabling(m, Prepare(KidsPlan(m), LostTwice(m), KidsWorld));
  }

  lemma KidsUnwound(m: RealMode, w: World)
    requires w.router == KidsShut(m) && w.calls == KidsCalls(m) + 1
    ensures var r := Restore(LostTwice(m), w, KidsFull(m)).w.router;
      r.legacy == KidsShut(m).legacy && r.modes == KidsShut(m).modes && 10 !in r.rows
  {
    var p0 := Progress(w, [], false);
    var legacy := ReEnable(LostTwice(m), p0, KidsProfiles);
    assert KidsProfiles[..0] == [];
    assert legacy.w.router == w.router && !legacy.crashed && legacy.w.calls == KidsCalls(m) + 2;
    assert Prepared(10, true) in KidsFull(m).routerDevices by {
      assert KidsFull(m).routerDevices[0] == Prepared(10, true);
    }
    assert KidsFull(m).liveBefore[..0] == [];
    assert RestoreModes(LostTwice(m), legacy, Created(KidsFull(m).routerDevices), KidsFull(m).liveBefore) == legacy;
    KidsRowRemoved(m, legacy);
    assert Known(KidsFull(m)) == {10};
  }

  lemma KidsRowRemoved(m: RealMode, p: Progress)
    requires p.w.router.rows == map[10 := Migration] && p.w.calls == KidsCalls(m) + 2 && !p.crashed
    ensures 10 !in RemoveRows(LostTwice(m), p, {10}).w.router.rows
  {
    assert Least({10}) == 10 && {10} - {10} == {};
  }

  /** Two lost calls leave a device with nobody in charge of it: its legacy profile stays disabled, its row is gone, and
      the mode the transfer gave it stays. With `Normal` it is unrestricted; with `Blocked` it stays blocked, and no row
      lets the panel change that. */
  lemma NobodyInCharge(m: RealMode)
    ensures var r := Cutover(KidsPlan(m), LostTwice(m), KidsWorld).w.router;
      && !Proven(r, KidsProfiles) && r.legacy == map["kids" := [KidsRow.(disabled := true)]]
      && 10 !in r.rows && LiveMode(r, 10) == m
  {
    KidsDisabled(m);
    var run := Forward(KidsPlan(m), LostTwice(m), KidsWorld);
    KidsUnwound(m, run.w);
    HandlerShape(LostTwice(m), run);
    assert KidsProfiles[0] in KidsProfiles;
  }

  // ---------- when a rollback can complete at all ----------

  lemma {:induction false} LoopNeedsTargets(script: Script, p: Progress, ps: seq<Profile>)
    requires !ReEnable(script, p, ps).crashed && ReEnable(script, p, ps).errors == p.errors
    ensures forall q | q in ps :: Targets(p.w.router, q.name, q.id)
    decreases |ps|
  {
    if ps != [] {
      var last, rest := ps[|ps| - 1], ps[..|ps| - 1];
      assert ps == rest + [last];
      var s := SetLegacy(script, p.w, last.name, last.id, false);
      var next := After(p, s, LegacyProblem(last.name));
      assert next.errors <= ReEnable(script, next, rest).errors;
      SetLegacySameTargets(script, p.w, last);
      LoopNeedsTargets(script, next, rest);
    }
  }

  lemma SetLegacySameTargets(script: Script, w: World, p: Profile)
    ensures SameTargets(w.router, SetLegacy(script, w, p.name, p.id, false).w.router)
  {
  }

  lemma {:induction false} LoopSameTargets(script: Script, p: Progress, ps: seq<Profile>)
    ensures SameTargets(p.w.router, ReEnable(script, p, ps).w.router)
    decreases |ps|
  {
    if !p.crashed && ps != [] {
      var last := ps[|ps| - 1];
      SetLegacySameTargets(script, p.w, last);
      LoopSameTargets(script, After(p, SetLegacy(script, p.w, last.name, last.id, false), LegacyProblem(last.name)),
                      ps[..|ps| - 1]);
    }
  }

  lemma {:induction false} ModesNeedRows(script: Script, p: Progress, e: Evidence, before: seq<Before>)
    requires var r := RestoreModes(script, p, Created(e.routerDevices), before); !r.crashed && r.errors == p.errors
    ensures forall x | x in before :: ModeRestorable(p.w.router, e, x)
    decreases |before|
  {
    if before != [] {
      var last, rest := before[|before| - 1], before[..|before| - 1];
      assert before == rest + [last];
      var s := SetMode(script, p.w, last.ip, last.mode);
      var next := if last.ip in Created(e.routerDevices) then p else After(p, s, ModeProblem(last.ip));
      assert next.errors <= RestoreModes(script, next, Created(e.routerDevices), rest).errors;
      assert forall x: Before :: ModeRestorable(next.w.router, e, x) <==> ModeRestorable(p.w.router, e, x);
      ModesNeedRows(script, next, e, rest);
    }
  }

  /** Whatever the calls do, a restoration without an error needs every profile addressable and every mode settable. */
  lemma RestorableIsNeeded(script: Script, w: World, e: Evidence)
    requires !Restore(script, w, e).crashed && Restore(script, w, e).errors == []
    ensures Restorable(w.router, e)
  {
    var p0 := Progress(w, [], false);
    var legacy := ReEnable(script, p0, e.profiles);
    var modes := RestoreModes(script, legacy, Created(e.routerDevices), e.liveBefore);
    var rows := RemoveRows(script, modes, Known(e));
    assert legacy.errors <= modes.errors <= rows.errors <= Restore(script, w, e).errors;
    LoopNeedsTargets(script, p0, e.profiles);
    ModesNeedRows(script, legacy, e, e.liveBefore);
    assert forall x: Before :: ModeRestorable(legacy.w.router, e, x) <==> ModeRestorable(w.router, e, x);
  }

  lemma {:induction false} RowsShrink(script: Script, p: Progress, addresses: set<Address>)
    ensures RemoveRows(script, p, addresses).w.router.rows.Keys <= p.w.router.rows.Keys
    decreases |addresses|
  {
    if !p.crashed && addresses != {} {
      var a := Least(addresses);
      RowsShrink(script, After(p, RemoveRow(script, p.w, a), MembershipProblem(a)), addresses - {a});
    }
  }

  /** No restoration attempt makes a record restorable that was not. */
  lemma NeverMoreRestorable(script: Script, w: World, e: Evidence)
    requires Restorable(Restore(script, w, e).w.router, e)
    ensures Restorable(w.router, e)
  {
    var legacy := ReEnable(script, Progress(w, [], false), e.profiles);
    var modes := RestoreModes(script, legacy, Created(e.routerDevices), e.liveBefore);
    LoopSameTargets(script, Progress(w, [], false), e.profiles);
    RowsShrink(script, modes, Known(e));
    var r := Restore(script, w, e).w.router;
    assert SameTargets(w.router, r) && r.rows.Keys <= w.router.rows.Keys;
    forall x | x in e.liveBefore ensures ModeRestorable(w.router, e, x) {
      assert ModeRestorable(r, e, x);
    }
    assert forall p | p in e.profiles :: Targets(r, p.name, p.id);
  }

  /** The transfer in progress has a record to restore from, not the mark of a finished clean-up. */
  predicate NeedsRestoring(log: seq<Event>) {
    InProgress(log) && !CleanupComplete(log[|log| - 1])
  }

  lemma BlockedRestore(script: Script, w: World, e: Evidence)
    requires !Restorable(w.router, e)
    ensures var p := Restore(script, w, e);
      (p.crashed || p.errors != []) && !Restorable(p.w.router, e) && p.w.log == w.log
  {
    var p := Restore(script, w, e);
    if !p.crashed && p.errors == [] {
      RestorableIsNeeded(script, w, e);
    }
    if Restorable(p.w.router, e) {
      NeverMoreRestorable(script, w, e);
    }
  }

  lemma BlockedStep(script: Script, w: World)
    requires NeedsRestoring(w.log) && !Restorable(w.router, w.log[|w.log| - 1].evidence)
    ensures var s := Rollback(script, w);
      !s.reply.Ok? && s.w.log == w.log && !Restorable(s.w.router, w.log[|w.log| - 1].evidence)
  {
    BlockedRestore(script, Ask(script, w).w, w.log[|w.log| - 1].evidence);
  }

  lemma {:induction false} BlockedForGood(w: World, scripts: seq<Script>)
    requires NeedsRestoring(w.log) && !Restorable(w.router, w.log[|w.log| - 1].evidence)
    ensures var w' := Attempts(w, scripts); w'.log == w.log && !Restorable(w'.router, w.log[|w.log| - 1].evidence)
  {
    if scripts != [] {
      BlockedForGood(w, scripts[..|scripts| - 1]);
      BlockedStep(scripts[|scripts| - 1], Attempts(w, scripts[..|scripts| - 1]));
    }
  }

  /** No sequence of rollback attempts, however their calls turn out, ever finishes the recovery if and only if some
      recorded profile is no longer addressable or some earlier mode is one the adapter cannot set. */
  lemma NeverRolledBackIff(w: World)
    requires NeedsRestoring(w.log)
    ensures (forall scripts: seq<Script> :: Attempts(w, scripts).log == w.log)
       <==> !Restorable(w.router, w.log[|w.log| - 1].evidence)
  {
    if Restorable(w.router, w.log[|w.log| - 1].evidence) {
      UndisturbedRollback(w);
      assert [AlwaysOk][..0] == [];
      assert Attempts(w, [AlwaysOk]) == Rollback(AlwaysOk, w).w;
      assert Attempts(w, [AlwaysOk]).log != w.log;
    } else {
      forall scripts: seq<Script> ensures Attempts(w, scripts).log == w.log {
        BlockedForGood(w, scripts);
      }
    }
  }

  lemma InvalidIsNotRestorable(b: Origin, r: Router, e: Evidence, devices: seq<Address>, a: Address)
    requires Truthful(b, e) && IpsOf(e.liveBefore) == devices
    requires a in devices && a in b.router.rows && LiveMode(b.router, a).Invalid?
    ensures !Restorable(r, e)
  {
    var i :| 0 <= i < |devices| && devices[i] == a;
    var x := e.liveBefore[i];
    assert IpsOf(e.liveBefore)[i] == x.ip && x in e.liveBefore;
    assert !ModeRestorable(r, e, x);
  }

  lemma SuccessIsOnRecord(plan: Plan, script: Script, w: World)
    requires Cutover(plan, script, w).ctl.Going?
    ensures var log := Cutover(plan, script, w).w.log;
      && NeedsRestoring(log) && Truthful(StartOf(plan, w.router), log[|log| - 1].evidence)
      && IpsOf(log[|log| - 1].evidence.liveBefore) == plan.devices
  {
    ForwardCovers(plan, script, w);
    GoingIsRecorded(plan, script, w);
    assert Cutover(plan, script, w) == Forward(plan, script, w);
    CoverIsTruthful(plan, StartOf(plan, w.router), w.log, Forward(plan, script, w));
  }

  lemma CoverIsTruthful(plan: Plan, b: Origin, log: seq<Event>, run: Run)
    requires LeavesCover(b, log, run) && log < run.w.log && FullEvidence(plan, Durable(run.w.log), run.w.router)
    ensures NeedsRestoring(run.w.log) && Truthful(b, run.w.log[|run.w.log| - 1].evidence)
    ensures IpsOf(run.w.log[|run.w.log| - 1].evidence.liveBefore) == plan.devices
  {
  }

  lemma GoingIsRecorded(plan: Plan, script: Script, w: World)
    ensures Forward(plan, script, w).ctl.Going? ==> w.log < Forward(plan, script, w).w.log
  {
    PrepareCovers(StartOf(plan, w.router), plan, script, w);
    var prepared := Prepare(plan, script, w);
    if prepared.ctl.Going? {
      HandOverCovers(StartOf(plan, w.router), plan, script, w, prepared);
      var disabled := DisableProfiles(script, prepared, prepared.mem.profiles);
      DisabledCovers(plan, script, StartOf(plan, w.router), prepared);
      ConfirmChangesNothing(script, disabled);
    }
  }

  /** A cutover that succeeds on a device found in the inconsistent mode can never be rolled back. */
  lemma InvalidModeIsFinal(plan: Plan, script: Script, w: World, a: Address, scripts: seq<Script>)
    requires a in plan.devices && a in w.router.rows && LiveMode(w.router, a).Invalid?
    requires Cutover(plan, script, w).ctl.Going?
    ensures Attempts(Cutover(plan, script, w).w, scripts).log == Cutover(plan, script, w).w.log
  {
    SuccessIsOnRecord(plan, script, w);
    InvalidIsFinal(StartOf(plan, w.router), Cutover(plan, script, w).w, plan.devices, a, scripts);
  }

  lemma InvalidIsFinal(b: Origin, w: World, devices: seq<Address>, a: Address, scripts: seq<Script>)
    requires NeedsRestoring(w.log) && Truthful(b, w.log[|w.log| - 1].evidence)
    requires IpsOf(w.log[|w.log| - 1].evidence.liveBefore) == devices
    requires a in devices && a in b.router.rows && LiveMode(b.router, a).Invalid?
    ensures Attempts(w, scripts).log == w.log
  {
    InvalidIsNotRestorable(b, w.router, w.log[|w.log| - 1].evidence, devices, a);
    BlockedForGood(w, scripts);
  }

  const MixedPlan := KidsPlan(Blocked)
  const MixedWorld := World(Router(map["kids" := [KidsRow]], map[10 := Operator], map[10 := Invalid]), [], 0)

  /** Such cutovers exist: nothing in the forward path refuses a device in the inconsistent mode. */
  lemma InvalidModeIsAccepted()
    ensures Cutover(MixedPlan, AlwaysOk, MixedWorld).ctl.Going?
  {
    MixedOpened();
    var start := Opening(MixedPlan, AlwaysOk, MixedWorld);
    MixedPrepared(start);
    var prepared := Prepare(MixedPlan, AlwaysOk, MixedWorld);
    MixedDisabled(prepared);
  }

  lemma MixedOpened()
    ensures var start := Opening(MixedPlan, AlwaysOk, MixedWorld);
      start.ctl.Going? && start.w.router == MixedWorld.router && start.mem == KidsOpened
  {
    assert LegacyId(MixedWorld.router, "kids") == "*1";
    assert ["kids"][..0] == [];
    assert CollectProfiles(Run(Tick(Tick(MixedWorld)), NoEvidence, Going, true), ["kids"]).mem.profiles == KidsProfiles;
    assert Ready(MixedPlan, Tick(MixedWorld)) by {
      assert MixedWorld.router.legacy["kids"] == [KidsRow];
    }
  }

  lemma MixedPrepared(start: Run)
    requires start.ctl.Going? && start.w.router == MixedWorld.router && start.mem == KidsOpened
    ensures var adopted := AdoptDevices(AlwaysOk, start, [10]);
      var run := ReconcileDevices(AlwaysOk, adopted, MixedPlan, [10]);
      && adopted.ctl.Going? && run.ctl.Going? && run.mem.profiles == KidsProfiles
      && run.w.router.legacy == MixedWorld.router.legacy
  {
    assert [10][..0] == [];
    assert AdoptDevices(AlwaysOk, start, []) == start;
    var adopted := AdoptDevices(AlwaysOk, start, [10]);
    assert ReconcileDevices(AlwaysOk, adopted, MixedPlan, []) == adopted;
  }

  lemma MixedDisabled(run: Run)
    requires run.ctl.Going? && run.mem.profiles == KidsProfiles && run.w.router.legacy == MixedWorld.router.legacy
    ensures ConfirmDisabled(AlwaysOk, DisableProfiles(AlwaysOk, run, KidsProfiles)).ctl.Going?
  {
    assert KidsProfiles[..0] == [];
    assert DisableProfiles(AlwaysOk, run, []) == run;
    assert Targets(run.w.router, "kids", "*1");
    assert DisableProfiles(AlwaysOk, run, KidsProfiles).w.router.legacy["kids"] == [KidsRow.(disabled := true)];
  }
}
