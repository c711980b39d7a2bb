/** Whole histories of transfers and recoveries. */
module AuthorityTransferRuns {
  import opened AuthorityTransfer
  import opened AuthorityTransferProofs

  // ---------- any number of attempts ----------

  function Attempts(w: World, scripts: seq<Script>): World {
    if scripts == [] then w else Rollback(scripts[|scripts| - 1], Attempts(w, scripts[..|scripts| - 1])).w
  }

  lemma {:induction false} AttemptsAreContained(b: Origin, w: World, scripts: seq<Script>)
    requires Evidenced(b, w)
    ensures var w' := Attempts(w, scripts); if InProgress(w'.log) then Evidenced(b, w') else RestoredTo(b, w'.router)
  {
    if scripts != [] {
      AttemptsAreContained(b, w, scripts[..|scripts| - 1]);
      var before := Attempts(w, scripts[..|scripts| - 1]);
      if InProgress(before.log) {
        RollbackIsContained(scripts[|scripts| - 1], before, b);
      }
    }
  }

  /** From any crash or error of a cutover, any number of interrupted rollbacks followed by one that succeeds restores
      the legacy profiles, the rows and the modes, except: a marked row may remain at a device that was neither staged
      nor restricted, a leftover row that the transfer named may go, and a device that was not restricted may keep the
      mode the transfer gave it. */
  lemma EveryTransferIsUndone(plan: Plan, script: Script, w: World, scripts: seq<Script>, last: Script)
    requires !InProgress(w.log)
    ensures var w' := Attempts(Cutover(plan, script, w).w, scripts);
      && (!InProgress(w'.log) ==> RestoredTo(StartOf(plan, w.router), w'.router))
      && (Rollback(last, w').reply.Ok? ==> RestoredTo(StartOf(plan, w.router), Rollback(last, w').w.router))
  {
    CutoverIsContained(plan, script, w);
    var w0 := Cutover(plan, script, w).w;
    if w0.log == w.log {
      IdleAttempts(w0, scripts);
    } else {
      AttemptsAreContained(StartOf(plan, w.router), w0, scripts);
      var w' := Attempts(w0, scripts);
      if InProgress(w'.log) {
        RollbackIsContained(last, w', StartOf(plan, w.router));
      }
    }
  }

  lemma {:induction false} IdleAttempts(w: World, scripts: seq<Script>)
    requires !InProgress(w.log)
    ensures Attempts(w, scripts) == w
  {
    if scripts != [] {
      IdleAttempts(w, scripts[..|scripts| - 1]);
    }
  }

  // ---------- when an undisturbed rollback succeeds ----------

  predicate ModeRestorable(r: Router, e: Evidence, x: Before) {
    x.ip in Created(e.routerDevices) || (x.ip in r.rows && !x.mode.Invalid?)
  }

  predicate Restorable(r: Router, e: Evidence) {
    && (forall p | p in e.profiles :: Targets(r, p.name, p.id))
    && (forall x | x in e.liveBefore :: ModeRestorable(r, e, x))
  }

  lemma SetLegacyProves(script: Script, w: World, p: Profile, proven: set<Profile>)
    requires forall q | q in proven :: ProfileProven(w.router, q)
    ensures var s := SetLegacy(script, w, p.name, p.id, false);
      && (forall q | q in proven :: ProfileProven(s.w.router, q))
      && (s.reply.Ok? ==> ProfileProven(s.w.router, p))
  {
  }

  /** If no re-enable call failed, every recorded profile is present, id-matched and enabled. */
  lemma {:induction false} ReEnableProves(script: Script, p: Progress, ps: seq<Profile>, proven: set<Profile>)
    requires forall q | q in proven :: ProfileProven(p.w.router, q)
    requires !ReEnable(script, p, ps).crashed && ReEnable(script, p, ps).errors == p.errors
    ensures forall q | q in ps || q in proven :: ProfileProven(ReEnable(script, p, ps).w.router, q)
    decreases |ps|
  {
    if ps != [] {
      var last := ps[|ps| - 1];
      var rest := ps[..|ps| - 1];
      assert ps == rest + [last];
      SetLegacyProves(script, p.w, last, proven);
      var next := After(p, SetLegacy(script, p.w, last.name, last.id, false), LegacyProblem(last.name));
      assert next.errors <= ReEnable(script, next, rest).errors;
      ReEnableProves(script, next, rest, proven + {last});
    }
  }

  lemma {:induction false} ReEnableUndisturbed(p: Progress, ps: seq<Profile>)
    requires !p.crashed
    ensures var r := ReEnable(AlwaysOk, p, ps);
      !r.crashed && (r.errors == p.errors <==> forall q | q in ps :: Targets(p.w.router, q.name, q.id))
    decreases |ps|
  {
    if ps != [] {
      var last := ps[|ps| - 1];
      var rest := ps[..|ps| - 1];
      assert ps == rest + [last];
      var s := SetLegacy(AlwaysOk, p.w, last.name, last.id, false);
      var next := After(p, s, LegacyProblem(last.name));
      assert forall q: Profile :: Targets(s.w.router, q.name, q.id) <==> Targets(p.w.router, q.name, q.id);
      ReEnableUndisturbed(next, rest);
      assert next.errors <= ReEnable(AlwaysOk, next, rest).errors;
      assert last in ps;
    }
  }

  lemma {:induction false} RestoreModesUndisturbed(p: Progress, e: Evidence, before: seq<Before>)
    requires !p.crashed
    ensures var r := RestoreModes(AlwaysOk, p, Created(e.routerDevices), before);
      && !r.crashed && (r.errors == p.errors <==> forall x | x in before :: ModeRestorable(p.w.router, e, x))
    decreases |before|
  {
    if before != [] {
      var last := before[|before| - 1];
      var rest := before[..|before| - 1];
      assert before == rest + [last];
      var s := SetMode(AlwaysOk, p.w, last.ip, last.mode);
      var next := if last.ip in Created(e.routerDevices) then p else After(p, s, ModeProblem(last.ip));
      assert forall x: Before :: ModeRestorable(next.w.router, e, x) <==> ModeRestorable(p.w.router, e, x);
      RestoreModesUndisturbed(next, e, rest);
      assert next.errors <= RestoreModes(AlwaysOk, next, Created(e.routerDevices), rest).errors;
      assert last in before;
    }
  }

  lemma {:induction false} RemoveRowsUndisturbed(p: Progress, addresses: set<Address>)
    requires !p.crashed
    ensures var r := RemoveRows(AlwaysOk, p, addresses);
      && !r.crashed && r.errors == p.errors
      && (forall a | a in r.w.router.rows ::
            && a in p.w.router.rows && r.w.router.rows[a] == p.w.router.rows[a]
            && (a in addresses ==> r.w.router.rows[a].Operator?))
      && (forall a | a in p.w.router.rows && a !in addresses :: a in r.w.router.rows)
    decreases |addresses|
  {
    if addresses != {} {
      var a := Least(addresses);
      RemoveRowsUndisturbed(After(p, RemoveRow(AlwaysOk, p.w, a), MembershipProblem(a)), addresses - {a});
    }
  }

  lemma RestoreUndisturbed(w: World, e: Evidence)
    ensures var p := Restore(AlwaysOk, w, e);
      && !p.crashed && (p.errors == [] <==> Restorable(w.router, e))
      && (forall a | a in w.router.rows && a !in Known(e) :: a in p.w.router.rows)
      && (forall a | a in p.w.router.rows && a in Known(e) :: p.w.router.rows[a].Operator?)
  {
    var p0 := Progress(w, [], false);
    var legacy := ReEnable(AlwaysOk, p0, e.profiles);
    ReEnableUndisturbed(p0, e.profiles);
    if legacy.errors == [] {
      ReEnableProves(AlwaysOk, p0, e.profiles, {});
    }
    var modes := RestoreModes(AlwaysOk, legacy, Created(e.routerDevices), e.liveBefore);
    RestoreModesUndisturbed(legacy, e, e.liveBefore);
    assert forall x: Before :: ModeRestorable(legacy.w.router, e, x) <==> ModeRestorable(w.router, e, x);
    RemoveRowsUndisturbed(modes, Known(e));
    var rows := RemoveRows(AlwaysOk, modes, Known(e));
    assert legacy.errors <= modes.errors <= Restore(AlwaysOk, w, e).errors;
  }

  /** A rollback whose calls all succeed completes exactly when the recorded profiles are still
      addressable and every earlier mode is one the adapter can set. */
  lemma UndisturbedRollback(w: World)
    requires InProgress(w.log) && !CleanupComplete(w.log[|w.log| - 1])
    ensures Rollback(AlwaysOk, w).reply.Ok? <==> Restorable(w.router, w.log[|w.log| - 1].evidence)
  {
    RestoreUndisturbed(Tick(w), w.log[|w.log| - 1].evidence);
  }

  // ---------- order and proof ----------

  /** At every crash point of a restoration whose re-enable calls succeed, nothing of ZEN has been
      unwound unless every recorded legacy profile is already enabled. */
  lemma LegacyComesBackFirst(script: Script, w: World, e: Evidence)
    requires forall x | x in Restore(script, w, e).errors :: !x.LegacyProblem?
    ensures var r := Restore(script, w, e).w.router;
      (r.rows != w.router.rows || r.modes != w.router.modes) ==> Proven(r, e.profiles)
  {
    var p0 := Progress(w, [], false);
    var legacy := ReEnable(script, p0, e.profiles);
    var modes := RestoreModes(script, legacy, Created(e.routerDevices), e.liveBefore);
    assert legacy.errors <= modes.errors <= RemoveRows(script, modes, Known(e)).errors <= Restore(script, w, e).errors;
    if !legacy.crashed {
      ReEnableErrors(script, p0, e.profiles);
      PrefixCarriesProblem(legacy.errors, Restore(script, w, e).errors);
      ReEnableProves(script, p0, e.profiles, {});
    }
  }

  lemma PrefixCarriesProblem(first: seq<Problem>, all: seq<Problem>)
    requires first <= all && forall x | x in first :: x.LegacyProblem?
    ensures first == [] || exists x :: x in all && x.LegacyProblem?
  {
    if first != [] {
      assert all[0] == first[0] && all[0] in first;
    }
  }

  lemma {:induction false} ReEnableErrors(script: Script, p: Progress, ps: seq<Profile>)
    requires forall x | x in p.errors :: x.LegacyProblem?
    ensures forall x | x in ReEnable(script, p, ps).errors :: x.LegacyProblem?
    decreases |ps|
  {
    if !p.crashed && ps != [] {
      var last := ps[|ps| - 1];
      ReEnableErrors(script, After(p, SetLegacy(script, p.w, last.name, last.id, false), LegacyProblem(last.name)),
                     ps[..|ps| - 1]);
    }
  }

  /** `rolled_back` is recorded only with the recorded profiles present, id-matched and enabled. */
  lemma RolledBackIsProven(script: Script, w: World)
    requires InProgress(w.log) && Rollback(script, w).w.log != w.log
    ensures var s := Rollback(script, w);
      && s.w.log == w.log + [Event(RolledBackStage, NoEvidence)]
      && Proven(s.w.router, w.log[|w.log| - 1].evidence.profiles)
  {
    var armed := Ask(script, w);
    var last := w.log[|w.log| - 1];
    if !CleanupComplete(last) {
      var e := last.evidence;
      var unwound := Unwind(script, ReEnable(script, Progress(armed.w, [], false), e.profiles), e);
      var local := if unwound.crashed || e.artifacts == [] then unwound
                   else After(unwound, Ask(script, unwound.w), LocalProblem);
      assert local.errors <= Restore(script, armed.w, e).errors;
    }
  }

  // ---------- whole histories ----------

  datatype Operation = Transfer(plan: Plan, script: Script) | Recovery(script: Script)

  function Apply(w: World, op: Operation): World {
    match op
    case Transfer(plan, script) => Cutover(plan, script, w).w
    case Recovery(script) => Rollback(script, w).w
  }

  function History(w: World, ops: seq<Operation>): World {
    if ops == [] then w else Apply(History(w, ops[..|ops| - 1]), ops[|ops| - 1])
  }

  /** Where the transfer now in progress, or the last one, started from. */
  function Baseline(w: World, ops: seq<Operation>): Origin {
    if ops == [] then Origin(w.router, {}, {}) else
    var before, op := History(w, ops[..|ops| - 1]), ops[|ops| - 1];
    if op.Transfer? && !InProgress(before.log) then StartOf(op.plan, before.router) else Baseline(w, ops[..|ops| - 1])
  }

  /** Over any history of transfers and recoveries, with crashes anywhere: while a transfer is open the durable record
      accounts for every difference from its start, and whenever none is open the start is back, up to what StartOf lets
      that transfer leave changed. */
  lemma {:induction false} EveryHistoryIsEvidenced(w: World, ops: seq<Operation>)
    requires !InProgress(w.log)
    ensures var w' := History(w, ops);
      if InProgress(w'.log) then Evidenced(Baseline(w, ops), w') else RestoredTo(Baseline(w, ops), w'.router)
  {
    if ops != [] {
      var prefix := ops[..|ops| - 1];
      EveryHistoryIsEvidenced(w, prefix);
      var before := History(w, prefix);
      match ops[|ops| - 1]
      case Transfer(plan, script) =>
        if InProgress(before.log) {
          RefusedCutoverWritesNothing(plan, script, before);
        } else {
          CutoverIsContained(plan, script, before);
        }
      case Recovery(script) =>
        if InProgress(before.log) {
          RollbackIsContained(script, before, Baseline(w, prefix));
        }
    }
  }
}
