/** What every crash and every error of an authority transfer leaves behind, and what recovery restores. */
module AuthorityTransferProofs {
  import opened AuthorityTransfer

  // ---------- how far a router may be from the state before the transfer ----------

  /** The router before a transfer, the addresses at which recovery may leave a marked row behind or take one away, and
      those whose mode it may leave changed. */
  datatype Origin = Origin(router: Router, leak: set<Address>, drift: set<Address>)

  ghost predicate MayDisable(b: Origin, n: string, ps: seq<Profile>) {
    exists p :: p in ps && p.name == n && Targets(b.router, n, p.id)
  }

  ghost predicate LegacyWithin(b: Origin, r: Router, ps: seq<Profile>) {
    && r.legacy.Keys == b.router.legacy.Keys
    && forall n | n in b.router.legacy ::
         r.legacy[n] == b.router.legacy[n]
         || (MayDisable(b, n, ps) && r.legacy[n] == [b.router.legacy[n][0].(disabled := true)])
  }

  /** Rows of the operator stay; marked rows stand at known or leaking addresses only. */
  ghost predicate RowsWithin(b: Origin, r: Router, known: set<Address>) {
    && (forall a | a in b.router.rows && (b.router.rows[a].Operator? || a !in b.leak) ::
          a in r.rows && r.rows[a] == b.router.rows[a])
    && (forall a | a in r.rows :: (a in b.router.rows && r.rows[a] == b.router.rows[a])
                                  || (r.rows[a].Migration? && (a in known || a in b.leak)))
  }

  ghost predicate Remembered(a: Address, before: seq<Before>) {
    exists x :: x in before && x.ip == a
  }

  /** A mode differs only where the earlier one is remembered for an earlier row, or where it may drift. */
  ghost predicate ModesWithin(b: Origin, r: Router, before: seq<Before>) {
    forall a: Address :: LiveMode(r, a) == LiveMode(b.router, a) || a in b.drift
                         || (a in b.router.rows && Remembered(a, before))
  }

  /** The addresses of rows that carry the migration mark. */
  function Marked(r: Router): set<Address> {
    set a | a in r.rows && r.rows[a].Migration?
  }

  /** The evidence says of the origin what is true of it, and names no leftover row that may not go. */
  ghost predicate Truthful(b: Origin, e: Evidence) {
    && (forall d | d in e.routerDevices :: d.created ==> d.address !in b.router.rows)
    && (forall x | x in e.liveBefore ::
          if x.ip in b.router.rows then x.mode == LiveMode(b.router, x.ip) else x.ip in Created(e.routerDevices))
    && Known(e) * Marked(b.router) <= b.leak
  }

  ghost predicate Covers(b: Origin, r: Router, e: Evidence) {
    && LegacyWithin(b, r, e.profiles)
    && RowsWithin(b, r, Known(e))
    && ModesWithin(b, r, e.liveBefore)
    && Truthful(b, e)
  }

  /** Everything is as before, up to marked rows at the leaking addresses and modes at the drifting ones. */
  ghost predicate RestoredTo(b: Origin, r: Router) {
    && r.legacy == b.router.legacy && RowsWithin(b, r, {})
    && forall a: Address :: LiveMode(r, a) == LiveMode(b.router, a) || a in b.drift
  }

  lemma NothingLeaks(b: Origin, r: Router)
    requires RestoredTo(b, r) && b.leak == {} && b.drift == {}
    ensures r.legacy == b.router.legacy && r.rows == b.router.rows
    ensures forall a: Address :: LiveMode(r, a) == LiveMode(b.router, a)
  {
  }

  // ---------- restoration ----------

  lemma SetLegacyWithin(b: Origin, script: Script, w: World, name: string, id: string, ps: seq<Profile>)
    requires LegacyActive(b.router) && LegacyWithin(b, w.router, ps)
    ensures LegacyWithin(b, SetLegacy(script, w, name, id, false).w.router, ps)
    ensures SetLegacy(script, w, name, id, false).reply.Ok?
            ==> name in b.router.legacy
                && SetLegacy(script, w, name, id, false).w.router.legacy[name] == b.router.legacy[name]
  {
    if Targets(w.router, name, id) {
      assert |b.router.legacy[name]| == 1;
      assert b.router.legacy[name][0] in b.router.legacy[name];
      assert b.router.legacy[name] == [b.router.legacy[name][0]];
    }
  }

  lemma {:induction false} ReEnableWithin(b: Origin, script: Script, p: Progress, ps: seq<Profile>, all: seq<Profile>)
    requires LegacyActive(b.router) && LegacyWithin(b, p.w.router, all)
    ensures LegacyWithin(b, ReEnable(script, p, ps).w.router, all)
    decreases |ps|
  {
    if !p.crashed && ps != [] {
      var last := ps[|ps| - 1];
      var s := SetLegacy(script, p.w, last.name, last.id, false);
      SetLegacyWithin(b, script, p.w, last.name, last.id, all);
      ReEnableWithin(b, script, After(p, s, LegacyProblem(last.name)), ps[..|ps| - 1], all);
    }
  }

  lemma {:induction false} ReEnableRestores(b: Origin, script: Script, p: Progress, ps: seq<Profile>)
    requires LegacyActive(b.router) && LegacyWithin(b, p.w.router, ps)
    requires !ReEnable(script, p, ps).crashed && ReEnable(script, p, ps).errors == []
    ensures ReEnable(script, p, ps).w.router.legacy == b.router.legacy
    decreases |ps|
  {
    if ps != [] {
      var last := ps[|ps| - 1];
      var rest := ps[..|ps| - 1];
      var s := SetLegacy(script, p.w, last.name, last.id, false);
      var p1 := After(p, s, LegacyProblem(last.name));
      SetLegacyWithin(b, script, p.w, last.name, last.id, ps);
      assert p1.errors <= ReEnable(script, p1, rest).errors;
      assert s.reply.Ok?;
      forall n | n in b.router.legacy
        ensures s.w.router.legacy[n] == b.router.legacy[n]
                || (MayDisable(b, n, rest) && s.w.router.legacy[n] == [b.router.legacy[n][0].(disabled := true)])
      {
        if n != last.name && s.w.router.legacy[n] != b.router.legacy[n] {
          var q :| q in ps && q.name == n && Targets(b.router, n, q.id);
          assert q in rest;
        }
      }
      ReEnableRestores(b, script, p1, rest);
    }
  }

  lemma {:induction false} RestoreModesWithin(
    b: Origin, script: Script, p: Progress, created: set<Address>, before: seq<Before>, all: seq<Before>)
    requires ModesWithin(b, p.w.router, all) && forall x | x in before :: x in all
    requires forall x | x in before :: x.ip in b.router.rows || x.ip in created
    ensures ModesWithin(b, RestoreModes(script, p, created, before).w.router, all)
    decreases |before|
  {
    if !p.crashed && before != [] {
      var last := before[|before| - 1];
      assert last in all;
      var s := SetMode(script, p.w, last.ip, last.mode);
      var next := if last.ip in created then p else After(p, s, ModeProblem(last.ip));
      assert ModesWithin(b, next.w.router, all) by {
        assert Remembered(last.ip, all);
      }
      RestoreModesWithin(b, script, next, created, before[..|before| - 1], all);
    }
  }

  lemma {:induction false} RestoreModesRestores(
    b: Origin, script: Script, p: Progress, created: set<Address>, before: seq<Before>)
    requires ModesWithin(b, p.w.router, before)
    requires forall x | x in before ::
               if x.ip in b.router.rows then x.mode == LiveMode(b.router, x.ip) else x.ip in created
    requires forall a | a in created :: a !in b.router.rows
    requires !RestoreModes(script, p, created, before).crashed && RestoreModes(script, p, created, before).errors == []
    ensures ModesWithin(b, RestoreModes(script, p, created, before).w.router, [])
    decreases |before|
  {
    if before != [] {
      var last := before[|before| - 1];
      var rest := before[..|before| - 1];
      var s := SetMode(script, p.w, last.ip, last.mode);
      var next := if last.ip in created then p else After(p, s, ModeProblem(last.ip));
      assert next.errors <= RestoreModes(script, next, created, rest).errors;
      forall a: Address
        ensures LiveMode(next.w.router, a) == LiveMode(b.router, a) || a in b.drift
                || (a in b.router.rows && Remembered(a, rest))
      {
        if Remembered(a, before) && a != last.ip {
          var x :| x in before && x.ip == a;
          assert x in rest;
        }
        assert last in before;
      }
      RestoreModesRestores(b, script, next, created, rest);
    }
  }

  lemma {:induction false} RemoveRowsWithin(b: Origin, script: Script, p: Progress, addresses: set<Address>,
      known: set<Address>)
    requires addresses * Marked(b.router) <= b.leak && RowsWithin(b, p.w.router, known)
    ensures RowsWithin(b, RemoveRows(script, p, addresses).w.router, known)
    decreases |addresses|
  {
    if !p.crashed && addresses != {} {
      var a := Least(addresses);
      RemoveRowsWithin(b, script, After(p, RemoveRow(script, p.w, a), MembershipProblem(a)), addresses - {a}, known);
    }
  }

  lemma {:induction false} RemoveRowsRemoves(b: Origin, script: Script, p: Progress, addresses: set<Address>)
    requires addresses * Marked(b.router) <= b.leak && RowsWithin(b, p.w.router, addresses)
    requires !RemoveRows(script, p, addresses).crashed && RemoveRows(script, p, addresses).errors == []
    ensures RowsWithin(b, RemoveRows(script, p, addresses).w.router, {})
    decreases |addresses|
  {
    if addresses != {} {
      var a := Least(addresses);
      var next := After(p, RemoveRow(script, p.w, a), MembershipProblem(a));
      assert next.errors <= RemoveRows(script, next, addresses - {a}).errors;
      RemoveRowsRemoves(b, script, next, addresses - {a});
    }
  }

  /** A restoration cut short anywhere stays covered by any evidence that remembers the same modes. */
  lemma RestoreKeepsCover(b: Origin, script: Script, w: World, e: Evidence, kept: Evidence)
    requires LegacyActive(b.router) && Covers(b, w.router, kept) && Truthful(b, e)
    requires forall x | x in e.liveBefore :: x in kept.liveBefore
    ensures Covers(b, Restore(script, w, e).w.router, kept) && Restore(script, w, e).w.log == w.log
  {
    var p := Progress(w, [], false);
    var legacy := ReEnable(script, p, e.profiles);
    ReEnableWithin(b, script, p, e.profiles, kept.profiles);
    RestoreModesWithin(b, script, legacy, Created(e.routerDevices), e.liveBefore, kept.liveBefore);
    var modes := RestoreModes(script, legacy, Created(e.routerDevices), e.liveBefore);
    RemoveRowsWithin(b, script, modes, Known(e), Known(kept));
  }

  /** A restoration that reports no error has restored everything. */
  lemma RestoreRestores(b: Origin, script: Script, w: World, e: Evidence)
    requires LegacyActive(b.router) && Covers(b, w.router, e)
    requires !Restore(script, w, e).crashed && Restore(script, w, e).errors == []
    ensures RestoredTo(b, Restore(script, w, e).w.router)
  {
    var p := Progress(w, [], false);
    var legacy := ReEnable(script, p, e.profiles);
    var modes := RestoreModes(script, legacy, Created(e.routerDevices), e.liveBefore);
    var rows := RemoveRows(script, modes, Known(e));
    assert legacy.errors <= modes.errors <= rows.errors <= Restore(script, w, e).errors;
    ReEnableRestores(b, script, p, e.profiles);
    RestoreModesRestores(b, script, legacy, Created(e.routerDevices), e.liveBefore);
    RemoveRowsRemoves(b, script, modes, Known(e));
  }

  // ---------- the forward path ----------

  /** Every device of the transfer is named by the staged payload or already restricted. */
  predicate Anticipated(plan: Plan, r: Router) {
    forall a | a in plan.devices :: a in plan.staged || a in r.rows
  }

  /** The devices that are neither. */
  function Unanticipated(plan: Plan, r: Router): set<Address> {
    set a | a in plan.devices && a !in plan.staged && a !in r.rows
  }

  /** Rows left behind by an earlier transfer that this one names, and will therefore take away. */
  function Leftovers(plan: Plan, r: Router): set<Address> {
    set a | a in Marked(r) && (a in plan.staged || a in plan.devices)
  }

  /** Devices that were not restricted and are to get another mode: no recovery puts the earlier one back. */
  function Drifting(plan: Plan, r: Router): set<Address> {
    set a | a in plan.devices && a !in r.rows && Desired(plan, a) != LiveMode(r, a)
  }

  function StartOf(plan: Plan, r: Router): Origin {
    Origin(r, Unanticipated(plan, r) + Leftovers(plan, r), Drifting(plan, r))
  }

  /** The transfer stays within what the origin lets it leave changed. */
  ghost predicate Named(plan: Plan, b: Origin) {
    && (forall a | a in plan.devices ::
          && (a in plan.staged || a in b.router.rows || a in b.leak)
          && (a in b.router.rows || a in b.drift || Desired(plan, a) == LiveMode(b.router, a)))
    && Leftovers(plan, b.router) <= b.leak
  }

  function Durable(log: seq<Event>): Evidence {
    if log == [] then NoEvidence else log[|log| - 1].evidence
  }

  /** The newest durable record is one the forward path wrote. */
  predicate Underway(log: seq<Event>) {
    log != [] && (log[|log| - 1].stage.PreparedStage? || log[|log| - 1].stage.AuthoritativeStage?)
  }

  /** While devices are adopted the router differs from `b` in marked rows of staged devices only. */
  ghost predicate Adopting(b: Origin, r: Router, e: Evidence, staged: seq<Address>) {
    && e.artifacts == staged && r.legacy == b.router.legacy && r.modes == b.router.modes
    && RowsWithin(b, r, Known(e)) && b.router.rows.Keys <= r.rows.Keys && Truthful(b, e)
  }

  lemma AdoptingIsCovered(b: Origin, r: Router, e: Evidence, staged: seq<Address>)
    requires Adopting(b, r, e, staged)
    ensures Covers(b, r, e)
  {
  }

  lemma {:induction false} CollectProfilesReads(run: Run, names: seq<string>)
    requires run.mem.profiles == []
    ensures var r := CollectProfiles(run, names);
      && r == run.(mem := run.mem.(profiles := r.mem.profiles), ctl := r.ctl)
      && (r.ctl.Going? ==> run.ctl.Going? && NamesOf(r.mem.profiles) == names)
  {
    if names != [] {
      CollectProfilesReads(run, names[..|names| - 1]);
      assert names == names[..|names| - 1] + [names[|names| - 1]];
    }
  }

  function NamesOf(ps: seq<Profile>): seq<string> {
    seq(|ps|, i requires 0 <= i < |ps| => ps[i].name)
  }

  lemma OpeningShape(plan: Plan, script: Script, w: World)
    ensures var run := Opening(plan, script, w);
      && run.w.router == w.router
      && run.mem.routerDevices == [] && run.mem.liveBefore == [] && run.mem.reconciliations == []
      && (run.mem.artifacts == [] || run.mem.artifacts == plan.staged)
      && (run.w.log == w.log
          || (run.w.log == w.log + [Event(PreparedStage, run.mem)] && run.mem.artifacts == plan.staged))
      && (!run.started ==> run.mem == NoEvidence && run.w.log == w.log && !run.ctl.Going?)
      && (run.started ==> Ready(plan, w))
      && (run.ctl.Going? ==> w.log < run.w.log && NamesOf(run.mem.profiles) == plan.names)
  {
    var s := Ask(script, w);
    var armed := Ask(script, s.w);
    CollectProfilesReads(Run(armed.w, NoEvidence, Going, true), plan.names);
  }

  lemma AddRowAdopting(b: Origin, script: Script, w: World, a: Address, e: Evidence, staged: seq<Address>)
    requires Adopting(b, w.router, e, staged) && (a in staged || a in b.router.rows || a in b.leak)
    ensures Adopting(b, AddRow(script, w, a).w.router, e, staged)
  {
    assert a in staged ==> a in Known(e);
  }

  lemma ExtendAdopting(b: Origin, r: Router, e: Evidence, staged: seq<Address>, d: Prepared, x: Before)
    requires Adopting(b, r, e, staged)
    requires d.created ==> d.address !in b.router.rows
    requires d.address in Marked(b.router) ==> d.address in b.leak
    requires if x.ip in b.router.rows then x.mode == LiveMode(b.router, x.ip)
             else x.ip in Created(e.routerDevices) || (d.created && x.ip == d.address)
    ensures Adopting(b, r, e.(routerDevices := e.routerDevices + [d]), staged)
    ensures Adopting(b, r, e.(routerDevices := e.routerDevices + [d], liveBefore := e.liveBefore + [x]), staged)
  {
    KnownGrows(e, d);
  }

  lemma KnownGrows(e: Evidence, d: Prepared)
    ensures var more := e.(routerDevices := e.routerDevices + [d]);
      && Known(more) == Known(e) + {d.address}
      && Created(more.routerDevices) == Created(e.routerDevices) + if d.created then {d.address} else {}
  {
    var more := e.routerDevices + [d];
    assert d in more && forall x | x in e.routerDevices :: x in more;
  }

  /** Every row was there before or is recorded as added. */
  ghost predicate RowsAccounted(b: Router, run: Run) {
    forall a | a in run.w.router.rows :: a in b.rows || a in Created(run.mem.routerDevices)
  }

  lemma AdoptDeviceAccounts(b: Router, script: Script, run: Run, ip: Address)
    requires RowsAccounted(b, run)
    ensures var r := AdoptDevice(script, run, ip); r.ctl.Going? ==> RowsAccounted(b, r)
  {
    KnownGrows(run.mem, Prepared(ip, ip !in run.w.router.rows));
  }

  function AddressesOf(ds: seq<Prepared>): (r: seq<Address>)
    ensures |r| == |ds| && forall i | 0 <= i < |ds| :: r[i] == ds[i].address
  {
    if ds == [] then [] else AddressesOf(ds[..|ds| - 1]) + [ds[|ds| - 1].address]
  }

  function IpsOf(xs: seq<Before>): (r: seq<Address>)
    ensures |r| == |xs| && forall i | 0 <= i < |xs| :: r[i] == xs[i].ip
  {
    if xs == [] then [] else IpsOf(xs[..|xs| - 1]) + [xs[|xs| - 1].ip]
  }

  lemma AdoptDeviceShape(script: Script, run: Run, ip: Address)
    ensures var r := AdoptDevice(script, run, ip);
      && r.w.log == run.w.log && r.started == run.started
      && r.mem == run.mem.(routerDevices := r.mem.routerDevices, liveBefore := r.mem.liveBefore)
      && r.w.router == run.w.router.(rows := r.w.router.rows)
      && run.w.router.rows.Keys <= r.w.router.rows.Keys
      && (r.ctl.Raised? && run.ctl.Going? ==> r.mem.liveBefore == run.mem.liveBefore)
    ensures var r := AdoptDevice(script, run, ip);
      r.ctl.Going? ==>
        && ip in r.w.router.rows && run.ctl.Going?
        && AddressesOf(r.mem.routerDevices) == AddressesOf(run.mem.routerDevices) + [ip]
        && IpsOf(r.mem.liveBefore) == IpsOf(run.mem.liveBefore) + [ip]
  {
  }

  lemma AdoptDeviceAdopts(b: Origin, script: Script, run: Run, ip: Address, staged: seq<Address>)
    requires ip in staged || ip in b.router.rows || ip in b.leak
    requires (ip in Marked(b.router) ==> ip in b.leak) && RowsAccounted(b.router, run)
    requires Adopting(b, run.w.router, run.mem, staged) && Adopting(b, run.w.router, Durable(run.w.log), staged)
    ensures var r := AdoptDevice(script, run, ip);
      Adopting(b, r.w.router, r.mem, staged) && Adopting(b, r.w.router, Durable(r.w.log), staged)
  {
    AddRowAdopting(b, script, run.w, ip, run.mem, staged);
    AddRowAdopting(b, script, run.w, ip, Durable(run.w.log), staged);
    var s := AddRow(script, run.w, ip);
    var created := ip !in run.w.router.rows;
    var mode := if created then Normal else LiveMode(s.w.router, ip);
    ExtendAdopting(b, s.w.router, run.mem, staged, Prepared(ip, created), Before(ip, mode));
  }

  ghost predicate Adoption(b: Origin, run: Run, staged: seq<Address>, devices: seq<Address>) {
    && Underway(run.w.log)
    && Adopting(b, run.w.router, run.mem, staged) && Adopting(b, run.w.router, Durable(run.w.log), staged)
    && (run.ctl.Going? ==>
          && Durable(run.w.log) == run.mem
          && AddressesOf(run.mem.routerDevices) == devices && IpsOf(run.mem.liveBefore) == devices
          && RowsAccounted(b.router, run)
          && forall a | a in devices :: a in run.w.router.rows)
    && (run.ctl.Raised? ==> run.mem.liveBefore == Durable(run.w.log).liveBefore)
  }

  lemma PersistAdopts(b: Origin, script: Script, run: Run, staged: seq<Address>)
    requires Underway(run.w.log)
    requires Adopting(b, run.w.router, run.mem, staged) && Adopting(b, run.w.router, Durable(run.w.log), staged)
    ensures var r := Persist(script, run, PreparedStage);
      && Underway(r.w.log) && run.w.log <= r.w.log && r.mem == run.mem && r.w.router == run.w.router
      && r.started == run.started
      && Adopting(b, r.w.router, Durable(r.w.log), staged)
      && (r.ctl.Going? ==> run.ctl.Going? && Durable(r.w.log) == r.mem)
      && (r.ctl.Raised? ==> r == run)
  {
  }

  lemma AllAdopted(r: Router, prefix: seq<Address>, ip: Address, was: Router)
    requires was.rows.Keys <= r.rows.Keys
    ensures (forall a | a in prefix :: a in was.rows) && ip in r.rows ==> forall a | a in prefix + [ip] :: a in r.rows
  {
  }

  lemma AdoptOneMore(
    b: Origin, script: Script, before: Run, ip: Address, staged: seq<Address>, prefix: seq<Address>)
    requires ip in staged || ip in b.router.rows || ip in b.leak
    requires ip in Marked(b.router) ==> ip in b.leak
    requires before.ctl.Going? && Adoption(b, before, staged, prefix)
    ensures var r := Persist(script, AdoptDevice(script, before, ip), PreparedStage);
      && Adoption(b, r, staged, prefix + [ip]) && before.w.log <= r.w.log
      && r.mem == before.mem.(routerDevices := r.mem.routerDevices, liveBefore := r.mem.liveBefore)
  {
    var mid := AdoptDevice(script, before, ip);
    AdoptDeviceShape(script, before, ip);
    AdoptDeviceAdopts(b, script, before, ip, staged);
    AdoptDeviceAccounts(b.router, script, before, ip);
    PersistAdopts(b, script, mid, staged);
    AllAdopted(mid.w.router, prefix, ip, before.w.router);
  }

  lemma {:induction false} AdoptDevicesAdopts(
    b: Origin, script: Script, run: Run, devices: seq<Address>, staged: seq<Address>)
    requires forall a | a in devices :: a in staged || a in b.router.rows || a in b.leak
    requires forall a | a in devices && a in Marked(b.router) :: a in b.leak
    requires run.ctl.Going? && Adoption(b, run, staged, [])
    ensures var r := AdoptDevices(script, run, devices);
      && Adoption(b, r, staged, devices)
      && run.w.log <= r.w.log && r.started == run.started
      && r.mem == run.mem.(routerDevices := r.mem.routerDevices, liveBefore := r.mem.liveBefore)
  {
    if devices != [] {
      var prefix := devices[..|devices| - 1];
      var ip := devices[|devices| - 1];
      var before := AdoptDevices(script, run, prefix);
      assert devices == prefix + [ip];
      AdoptDevicesAdopts(b, script, run, prefix, staged);
      if before.ctl.Going? {
        AdoptOneMore(b, script, before, ip, staged, prefix);
      }
    }
  }

  lemma {:induction false} AdoptStops(script: Script, run: Run, devices: seq<Address>, k: nat)
    requires k <= |devices| && !AdoptDevices(script, run, devices[..k]).ctl.Going?
    ensures AdoptDevices(script, run, devices) == AdoptDevices(script, run, devices[..k])
  {
    if k < |devices| {
      assert devices[..|devices| - 1][..k] == devices[..k];
      AdoptStops(script, run, devices[..|devices| - 1], k);
    } else {
      assert devices[..k] == devices;
    }
  }

  // ---------- reconciliation, the last durable record and the hand-over ----------

  ghost predicate ReconciledAs(plan: Plan, e: Evidence, r: Router, devices: seq<Address>) {
    && e.reconciliations == seq(|devices|, i requires 0 <= i < |devices| =>
                                  Reconciled(devices[i], Desired(plan, devices[i]), Desired(plan, devices[i])))
    && forall a | a in devices :: LiveMode(r, a) == Desired(plan, a)
  }

  /** Nothing but remembered modes and marked rows has changed, and the durable record knows it. */
  ghost predicate Reconciling(b: Origin, run: Run) {
    && Underway(run.w.log)
    && run.w.router.legacy == b.router.legacy
    && Covers(b, run.w.router, run.mem)
    && Durable(run.w.log).(reconciliations := []) == run.mem.(reconciliations := [])
  }

  lemma SameCover(b: Origin, r: Router, e: Evidence, e': Evidence)
    requires Covers(b, r, e) && e.(reconciliations := []) == e'.(reconciliations := [])
    ensures Covers(b, r, e')
  {
    assert e.liveBefore == e.(reconciliations := []).liveBefore == e'.liveBefore;
    assert e.profiles == e.(reconciliations := []).profiles == e'.profiles;
    assert e.routerDevices == e.(reconciliations := []).routerDevices == e'.routerDevices;
    assert e.artifacts == e.(reconciliations := []).artifacts == e'.artifacts;
  }

  lemma ConvergeShape(script: Script, w: World, ip: Address, desired: Mode)
    ensures var s := Converge(script, w, ip, desired);
      && s.w.log == w.log
      && s.w.router == w.router.(modes := s.w.router.modes)
      && (forall a | a != ip :: LiveMode(s.w.router, a) == LiveMode(w.router, a))
      && (LiveMode(w.router, ip) == desired ==> s.w.router == w.router)
  {
  }

  lemma CoverAfterMode(b: Origin, r: Router, r': Router, e: Evidence, ip: Address)
    requires Covers(b, r, e) && r' == r.(modes := r'.modes)
    requires forall a: Address | a != ip :: LiveMode(r', a) == LiveMode(r, a)
    requires LiveMode(r', ip) == LiveMode(r, ip) || ip in b.drift
        || (ip in b.router.rows && Remembered(ip, e.liveBefore))
    ensures Covers(b, r', e)
  {
  }

  lemma ReconcileDeviceKeeps(b: Origin, script: Script, run: Run, plan: Plan, ip: Address)
    requires Reconciling(b, run) && Remembered(ip, run.mem.liveBefore)
    requires ip in b.router.rows || ip in b.drift || Desired(plan, ip) == LiveMode(b.router, ip)
    ensures var r := ReconcileDevice(script, run, plan, ip);
      && Reconciling(b, r) && r.w.log == run.w.log && r.started == run.started
      && r.w.router == run.w.router.(modes := r.w.router.modes)
  {
    ConvergeShape(script, run.w, ip, Desired(plan, ip));
    var s := Converge(script, run.w, ip, Desired(plan, ip));
    CoverAfterMode(b, run.w.router, s.w.router, run.mem, ip);
    var r := ReconcileDevice(script, run, plan, ip);
    assert r.w.router == s.w.router;
    assert r.mem.(reconciliations := []) == run.mem.(reconciliations := []);
    SameCover(b, r.w.router, run.mem, r.mem);
  }

  lemma ReconcileDeviceRecords(script: Script, run: Run, plan: Plan, ip: Address, devices: seq<Address>)
    requires run.ctl.Going? && ReconciledAs(plan, run.mem, run.w.router, devices)
    requires ReconcileDevice(script, run, plan, ip).ctl.Going?
    ensures var r := ReconcileDevice(script, run, plan, ip);
      ReconciledAs(plan, r.mem, r.w.router, devices + [ip])
  {
    ConvergeShape(script, run.w, ip, Desired(plan, ip));
  }

  lemma {:induction false} ReconcileDevicesKeeps(
    b: Origin, script: Script, run: Run, plan: Plan, devices: seq<Address>)
    requires Reconciling(b, run) && run.ctl.Going? && run.mem.reconciliations == []
    requires forall a | a in devices :: Remembered(a, run.mem.liveBefore)
    requires forall a | a in devices :: a in b.router.rows || a in b.drift || Desired(plan, a) == LiveMode(b.router, a)
    ensures var r := ReconcileDevices(script, run, plan, devices);
      && Reconciling(b, r) && r.w.log == run.w.log && r.started == run.started
      && r.mem == run.mem.(reconciliations := r.mem.reconciliations)
      && r.w.router == run.w.router.(modes := r.w.router.modes)
      && (r.ctl.Going? ==> ReconciledAs(plan, r.mem, r.w.router, devices))
  {
    if devices != [] {
      var prefix := devices[..|devices| - 1];
      var ip := devices[|devices| - 1];
      var before := ReconcileDevices(script, run, plan, prefix);
      assert devices == prefix + [ip];
      ReconcileDevicesKeeps(b, script, run, plan, prefix);
      if before.ctl.Going? {
        ReconcileDeviceKeeps(b, script, before, plan, ip);
        if ReconcileDevice(script, before, plan, ip).ctl.Going? {
          ReconcileDeviceRecords(script, before, plan, ip, prefix);
        }
      }
    }
  }

  /** All the evidence a recovery can need, with every device proven to follow its ZEN policy. */
  ghost predicate FullEvidence(plan: Plan, e: Evidence, r: Router) {
    && e.artifacts == plan.staged && NamesOf(e.profiles) == plan.names
    && AddressesOf(e.routerDevices) == plan.devices && IpsOf(e.liveBefore) == plan.devices
    && ReconciledAs(plan, e, r, plan.devices)
    && forall a | a in plan.devices :: a in r.rows
  }

  lemma SetLegacyDisables(b: Origin, script: Script, w: World, p: Profile, ps: seq<Profile>)
    requires LegacyWithin(b, w.router, ps) && p in ps && LegacyActive(b.router)
    ensures LegacyWithin(b, SetLegacy(script, w, p.name, p.id, true).w.router, ps)
  {
    if Targets(w.router, p.name, p.id) {
      assert Targets(b.router, p.name, p.id);
      assert MayDisable(b, p.name, ps);
      assert b.router.legacy[p.name][0] in b.router.legacy[p.name];
    }
  }

  lemma {:induction false} DisableProfilesWithin(b: Origin, script: Script, run: Run, ps: seq<Profile>,
      all: seq<Profile>)
    requires LegacyActive(b.router) && LegacyWithin(b, run.w.router, all) && forall p | p in ps :: p in all
    ensures var r := DisableProfiles(script, run, ps);
      && LegacyWithin(b, r.w.router, all)
      && r.w.router == run.w.router.(legacy := r.w.router.legacy)
      && r.w.log == run.w.log && r.mem == run.mem && r.started == run.started
  {
    if ps != [] {
      var prefix := ps[..|ps| - 1];
      assert forall p | p in prefix :: p in ps;
      DisableProfilesWithin(b, script, run, prefix, all);
      var before := DisableProfiles(script, run, prefix);
      if before.ctl.Going? {
        assert ps[|ps| - 1] in ps;
        SetLegacyDisables(b, script, before.w, ps[|ps| - 1], all);
      }
    }
  }

  /** Whatever the forward path leaves behind, the record that is durable by then covers it. */
  ghost predicate LeavesCover(b: Origin, log: seq<Event>, run: Run) {
    && Covers(b, run.w.router, run.mem)
    && (run.ctl.Raised? ==> run.mem.liveBefore == if run.w.log == log then [] else Durable(run.w.log).liveBefore)
    && (|| (run.w.log == log && run.w.router == b.router)
        || (log < run.w.log && Underway(run.w.log) && Covers(b, run.w.router, Durable(run.w.log))))
  }

  lemma UntouchedIsCovered(b: Origin, e: Evidence)
    requires e.routerDevices == [] && e.liveBefore == []
    requires forall a | a in e.artifacts && a in Marked(b.router) :: a in b.leak
    ensures Covers(b, b.router, e)
  {
  }

  lemma OpeningCovers(b: Origin, plan: Plan, script: Script, w: World)
    requires b.router == w.router && Named(plan, b)
    ensures var start := Opening(plan, script, w);
      && LeavesCover(b, w.log, start) && start.w.router == w.router
      && (start.ctl.Going? ==>
            && Adoption(b, start, plan.staged, []) && w.log < start.w.log && Ready(plan, w)
            && NamesOf(start.mem.profiles) == plan.names && start.mem.reconciliations == [])
  {
    OpeningShape(plan, script, w);
    assert forall a | a in plan.staged && a in Marked(b.router) :: a in Leftovers(plan, b.router);
    UntouchedIsCovered(b, Opening(plan, script, w).mem);
  }

  lemma AdoptionIsRemembered(mem: Evidence, devices: seq<Address>)
    requires IpsOf(mem.liveBefore) == devices
    ensures forall a | a in devices :: Remembered(a, mem.liveBefore)
  {
    forall a | a in devices ensures Remembered(a, mem.liveBefore) {
      var i :| 0 <= i < |devices| && devices[i] == a;
      assert mem.liveBefore[i].ip == a;
    }
  }

  /** Adoption and reconciliation of all devices, starting from the first durable record. */
  lemma BuildUpCovers(b: Origin, script: Script, start: Run, plan: Plan)
    requires Named(plan, b) && start.ctl.Going? && Adoption(b, start, plan.staged, [])
    requires start.mem.reconciliations == []
    ensures var adopted := AdoptDevices(script, start, plan.devices);
      !adopted.ctl.Going? ==>
        && Underway(adopted.w.log) && start.w.log <= adopted.w.log && adopted.w.router.legacy == b.router.legacy
        && Covers(b, adopted.w.router, adopted.mem) && Covers(b, adopted.w.router, Durable(adopted.w.log))
        && (adopted.ctl.Raised? ==> adopted.mem.liveBefore == Durable(adopted.w.log).liveBefore)
    ensures var adopted := AdoptDevices(script, start, plan.devices);
      var run := ReconcileDevices(script, adopted, plan, plan.devices);
      adopted.ctl.Going? ==>
        && Reconciling(b, run) && start.w.log <= run.w.log && run.started == start.started
        && (run.ctl.Going? && NamesOf(start.mem.profiles) == plan.names ==> FullEvidence(plan, run.mem, run.w.router))
  {
    AdoptDevicesAdopts(b, script, start, plan.devices, plan.staged);
    var adopted := AdoptDevices(script, start, plan.devices);
    AdoptingIsCovered(b, adopted.w.router, adopted.mem, plan.staged);
    AdoptingIsCovered(b, adopted.w.router, Durable(adopted.w.log), plan.staged);
    if adopted.ctl.Going? {
      AdoptionIsRemembered(adopted.mem, plan.devices);
      ReconcileDevicesKeeps(b, script, adopted, plan, plan.devices);
    }
  }

  lemma ReconcilingLeavesCover(b: Origin, w: World, run: Run)
    requires Reconciling(b, run) && w.log < run.w.log
    ensures LeavesCover(b, w.log, run)
  {
    SameCover(b, run.w.router, run.mem, Durable(run.w.log));
  }

  lemma PersistReconciled(b: Origin, script: Script, w: World, done: Run, plan: Plan)
    requires Reconciling(b, done) && w.log < done.w.log
    requires done.ctl.Going? ==> FullEvidence(plan, done.mem, done.w.router)
    ensures var run := Persist(script, done, PreparedStage);
      && LeavesCover(b, w.log, run) && run.w.router == done.w.router && run.mem == done.mem && w.log < run.w.log
      && Reconciling(b, run)
      && (run.ctl.Going? ==> done.ctl.Going? && Durable(run.w.log) == run.mem)
  {
    ReconcilingLeavesCover(b, w, done);
    var run := Persist(script, done, PreparedStage);
    assert Reconciling(b, run);
    ReconcilingLeavesCover(b, w, run);
  }

  lemma PrepareCovers(b: Origin, plan: Plan, script: Script, w: World)
    requires b.router == w.router && Named(plan, b)
    ensures var run := Prepare(plan, script, w);
      && LeavesCover(b, w.log, run) && run.w.router.legacy == w.router.legacy
      && (run.ctl.Going? ==> Reconciling(b, run) && w.log < run.w.log && Ready(plan, w)
                             && Durable(run.w.log) == run.mem && FullEvidence(plan, run.mem, run.w.router))
  {
    OpeningCovers(b, plan, script, w);
    var start := Opening(plan, script, w);
    var run := Prepare(plan, script, w);
    if start.ctl.Going? {
      BuildUpCovers(b, script, start, plan);
      var adopted := AdoptDevices(script, start, plan.devices);
      if adopted.ctl.Going? {
        PersistReconciled(b, script, w, ReconcileDevices(script, adopted, plan, plan.devices), plan);
      } else {
        assert run == adopted && LeavesCover(b, w.log, run);
      }
    } else {
      assert run == start;
    }
  }

  lemma DisabledCovers(plan: Plan, script: Script, b: Origin, prepared: Run)
    requires prepared.ctl.Going? && Reconciling(b, prepared) && LegacyActive(b.router)
    requires FullEvidence(plan, prepared.mem, prepared.w.router)
    ensures var disabled := DisableProfiles(script, prepared, prepared.mem.profiles);
      && disabled.w.log == prepared.w.log && disabled.mem == prepared.mem
      && Covers(b, disabled.w.router, prepared.mem) && FullEvidence(plan, prepared.mem, disabled.w.router)
  {
    var ps := prepared.mem.profiles;
    DisableProfilesWithin(b, script, prepared, ps, ps);
    var disabled := DisableProfiles(script, prepared, ps);
    assert ModesWithin(b, disabled.w.router, prepared.mem.liveBefore);
  }

  lemma ConfirmChangesNothing(script: Script, run: Run)
    ensures var confirmed := ConfirmDisabled(script, run);
      confirmed.w.log == run.w.log && confirmed.mem == run.mem && confirmed.w.router == run.w.router
  {
  }

  lemma HandOverCovers(b: Origin, plan: Plan, script: Script, w: World, prepared: Run)
    requires b.router == w.router
    requires prepared.ctl.Going? && Reconciling(b, prepared) && w.log < prepared.w.log && LegacyActive(w.router)
    requires Durable(prepared.w.log) == prepared.mem && FullEvidence(plan, prepared.mem, prepared.w.router)
    ensures var run := Persist(script,
                               ConfirmDisabled(script, DisableProfiles(script, prepared, prepared.mem.profiles)),
                               AuthoritativeStage);
      && LeavesCover(b, w.log, run) && Underway(run.w.log) && FullEvidence(plan, Durable(run.w.log), run.w.router)
  {
    DisabledCovers(plan, script, b, prepared);
    var disabled := DisableProfiles(script, prepared, prepared.mem.profiles);
    ConfirmChangesNothing(script, disabled);
    PersistHandOver(b, script, w.log, ConfirmDisabled(script, disabled));
  }

  lemma PersistHandOver(b: Origin, script: Script, log: seq<Event>, done: Run)
    requires Covers(b, done.w.router, done.mem) && log < done.w.log && Underway(done.w.log)
    requires Durable(done.w.log) == done.mem
    ensures var run := Persist(script, done, AuthoritativeStage);
      && LeavesCover(b, log, run) && Underway(run.w.log)
      && run.w.router == done.w.router && Durable(run.w.log) == done.mem
  {
  }

  /** A legacy profile is disabled only once every device follows ZEN and all evidence is durable. */
  lemma ForwardCovers(plan: Plan, script: Script, w: World)
    ensures LeavesCover(StartOf(plan, w.router), w.log, Forward(plan, script, w))
    ensures var run := Forward(plan, script, w);
      (run.w.router.legacy != w.router.legacy || run.ctl.Going?) ==>
        Underway(run.w.log) && FullEvidence(plan, Durable(run.w.log), run.w.router)
  {
    var b := StartOf(plan, w.router);
    PrepareCovers(b, plan, script, w);
    var prepared := Prepare(plan, script, w);
    if prepared.ctl.Going? {
      HandOverCovers(b, plan, script, w, prepared);
    }
  }

  // ---------- main results of one transfer ----------

  /** The durable record accounts for every difference from the origin, so that a rollback attempt cannot do harm. It
      says nothing about whether an attempt can finish. A clean `failed` record claims that nothing is left to undo. */
  ghost predicate Evidenced(b: Origin, w: World) {
    && InProgress(w.log) && LegacyActive(b.router)
    && var last := w.log[|w.log| - 1];
       if CleanupComplete(last) then RestoredTo(b, w.router) else Covers(b, w.router, last.evidence)
  }

  ghost predicate Contained(b: Origin, log: seq<Event>, w: World) {
    || (w.log == log && RestoredTo(b, w.router))
    || (log < w.log && Evidenced(b, w))
  }

  lemma StartedOnlyWhenReady(plan: Plan, script: Script, w: World)
    ensures var run := Forward(plan, script, w);
      && (run.started ==> Ready(plan, w))
      && (!run.started ==> run.mem == NoEvidence && run.w.router == w.router && run.w.log == w.log)
  {
    OpeningShape(plan, script, w);
  }

  lemma RestoreNothing(script: Script, w: World)
    ensures Restore(script, w, NoEvidence).w.router == w.router && Restore(script, w, NoEvidence).w.log == w.log
  {
    assert Known(NoEvidence) == {};
  }

  lemma NothingIsRestored(b: Origin, r: Router)
    requires Covers(b, r, NoEvidence)
    ensures RestoredTo(b, r)
  {
    assert Known(NoEvidence) == {};
    assert r.legacy == b.router.legacy;
  }

  /** A cutover refused by the readiness gate, whatever the script, writes neither router nor record. */
  lemma RefusedCutoverWritesNothing(plan: Plan, script: Script, w: World)
    requires !Ready(plan, w)
    ensures Cutover(plan, script, w).w.router == w.router && Cutover(plan, script, w).w.log == w.log
  {
    StartedOnlyWhenReady(plan, script, w);
    RestoreNothing(script, Forward(plan, script, w).w);
  }

  lemma InterruptedHandlerIsContained(b: Origin, w: World, script: Script, run: Run)
    requires b.router == w.router && LegacyActive(w.router)
    requires run.ctl.Raised? && LeavesCover(b, w.log, run)
    ensures Contained(b, w.log, Restore(script, run.w, run.mem).w)
  {
    var p := Restore(script, run.w, run.mem);
    if run.w.log == w.log {
      assert RestoredTo(b, p.w.router) by {
        NothingToUndo(b);
        RestoreKeepsCover(b, script, run.w, run.mem, NoEvidence);
        NothingIsRestored(b, p.w.router);
      }
    } else {
      assert Covers(b, p.w.router, Durable(run.w.log)) by {
        RestoreKeepsCover(b, script, run.w, run.mem, Durable(run.w.log));
      }
      assert !CleanupComplete(p.w.log[|p.w.log| - 1]);
    }
  }

  lemma NothingToUndo(b: Origin)
    ensures Covers(b, b.router, NoEvidence)
  {
  }

  function FailureRecord(mem: Evidence, errors: seq<Problem>): Evidence {
    mem.(reconciliations := [], cleanupErrors := errors, cleanupComplete := errors == [])
  }

  lemma FailureRecordCovers(b: Origin, r: Router, mem: Evidence, errors: seq<Problem>)
    requires Covers(b, r, mem)
    ensures Covers(b, r, FailureRecord(mem, errors))
  {
    assert Known(FailureRecord(mem, errors)) == Known(mem);
  }

  lemma RecordedFailureIsEvidenced(b: Origin, w: World, script: Script, run: Run)
    requires b.router == w.router && LegacyActive(w.router)
    requires Covers(b, run.w.router, run.mem)
    requires !Restore(script, run.w, run.mem).crashed
    ensures var p := Restore(script, run.w, run.mem);
      Evidenced(b, p.w.(log := p.w.log + [Event(FailedStage, FailureRecord(run.mem, p.errors))]))
  {
    var p := Restore(script, run.w, run.mem);
    RestoreKeepsCover(b, script, run.w, run.mem, run.mem);
    FailureRecordCovers(b, p.w.router, run.mem, p.errors);
    if p.errors == [] {
      RestoreRestores(b, script, run.w, run.mem);
    }
  }

  /** Once the restoration has run, the handler can only add its failure record. */
  lemma HandlerShape(script: Script, run: Run)
    requires run.ctl.Raised? && run.started
    ensures var p, h := Restore(script, run.w, run.mem), Handle(script, run).w;
      && h.router == p.w.router
      && (h.log == p.w.log
          || (!p.crashed && h.log == p.w.log + [Event(FailedStage, FailureRecord(run.mem, p.errors))]))
  {
  }

  lemma EvidencedIgnoresCalls(b: Origin, w: World, x: World)
    requires Evidenced(b, w) && w.router == x.router && w.log == x.log
    ensures Evidenced(b, x)
  {
  }

  lemma RecordedFailureIsContained(b: Origin, w: World, script: Script, run: Run, h: World)
    requires b.router == w.router && LegacyActive(w.router)
    requires Covers(b, run.w.router, run.mem)
    requires w.log <= run.w.log && !Restore(script, run.w, run.mem).crashed
    requires var p := Restore(script, run.w, run.mem);
      h.router == p.w.router && h.log == p.w.log + [Event(FailedStage, FailureRecord(run.mem, p.errors))]
    ensures Contained(b, w.log, h)
  {
    var p := Restore(script, run.w, run.mem);
    RecordedFailureIsEvidenced(b, w, script, run);
    EvidencedIgnoresCalls(b, p.w.(log := p.w.log + [Event(FailedStage, FailureRecord(run.mem, p.errors))]), h);
  }

  lemma ContainedIgnoresCalls(b: Origin, log: seq<Event>, w: World, x: World)
    requires Contained(b, log, w) && w.router == x.router && w.log == x.log
    ensures Contained(b, log, x)
  {
  }

  lemma FailureIsContained(b: Origin, w: World, script: Script, run: Run)
    requires b.router == w.router && LegacyActive(w.router)
    requires run.ctl.Raised? && run.started && LeavesCover(b, w.log, run)
    ensures Contained(b, w.log, Handle(script, run).w)
  {
    var p, h := Restore(script, run.w, run.mem), Handle(script, run).w;
    HandlerShape(script, run);
    if h.log == p.w.log {
      InterruptedHandlerIsContained(b, w, script, run);
      ContainedIgnoresCalls(b, w.log, p.w, h);
    } else {
      RecordedFailureIsContained(b, w, script, run, h);
    }
  }

  lemma SameIsRestored(b: Origin)
    ensures RestoredTo(b, b.router)
  {
  }

  /** After every crash and every error of a cutover either nothing was recorded and the router is as before, or the
      durable record accounts for every difference, up to what StartOf lets the transfer leave changed. */
  lemma CutoverIsContained(plan: Plan, script: Script, w: World)
    ensures Contained(StartOf(plan, w.router), w.log, Cutover(plan, script, w).w)
  {
    var b := StartOf(plan, w.router);
    SameIsRestored(b);
    if !Ready(plan, w) {
      RefusedCutoverWritesNothing(plan, script, w);
    } else {
      ForwardCovers(plan, script, w);
      StartedOnlyWhenReady(plan, script, w);
      HandledIsContained(b, w, script, Forward(plan, script, w));
    }
  }

  lemma HandledIsContained(b: Origin, w: World, script: Script, run: Run)
    requires b.router == w.router && LegacyActive(w.router) && LeavesCover(b, w.log, run)
    requires !run.started ==> run.mem == NoEvidence && run.w.router == w.router && run.w.log == w.log
    ensures Contained(b, w.log, Handle(script, run).w)
  {
    SameIsRestored(b);
    if run.ctl.Raised? {
      if run.started {
        FailureIsContained(b, w, script, run);
      } else {
        RestoreNothing(script, run.w);
      }
    }
  }

  /** The restoring half of a rollback attempt. */
  lemma RecoverIsContained(script: Script, w: World, b: Origin)
    requires Evidenced(b, w)
    ensures var p := Recover(script, w, w.log[|w.log| - 1]);
      && p.w.log == w.log && Evidenced(b, p.w)
      && (!p.crashed && p.errors == [] ==> RestoredTo(b, p.w.router))
  {
    var last := w.log[|w.log| - 1];
    if !CleanupComplete(last) {
      RestoreKeepsCover(b, script, w, last.evidence, last.evidence);
      var p := Restore(script, w, last.evidence);
      if !p.crashed && p.errors == [] {
        RestoreRestores(b, script, w, last.evidence);
      }
    }
  }

  /** A rollback attempt either records `rolled_back` with everything restored, or changes no record
      and stays accounted for. It answers Ok only in the first case. */
  lemma RollbackIsContained(script: Script, w: World, b: Origin)
    requires Evidenced(b, w)
    ensures var s := Rollback(script, w);
      if s.w.log == w.log then Evidenced(b, s.w) && !s.reply.Ok?
      else s.w.log == w.log + [Event(RolledBackStage, NoEvidence)] && RestoredTo(b, s.w.router)
  {
    var armed := Ask(script, w);
    EvidencedIgnoresCalls(b, w, armed.w);
    RecoverIsContained(script, armed.w, b);
    var p := Recover(script, armed.w, w.log[|w.log| - 1]);
    EvidencedIgnoresCalls(b, p.w, Rollback(script, w).w.(log := p.w.log, router := p.w.router));
  }
}
