/** IncidentMonitor.run_cycle of app/incidents.py, with its loops and the table it changes. */
module IncidentScanRoute {
  import opened IncidentScan
  import opened IncidentScanProofs

  class IncidentMonitor {
    var store: Store
    var active: map<string, set<string>>
    var scanned: set<string>
    var calls: nat
    var errors: nat

    constructor (store: Store)
      ensures State() == Cycle(store, map[], {}, 0, 0)
    {
      this.store, active, scanned, calls, errors := store, map[], {}, 0, 0;
    }

    ghost function State(): Cycle
      reads this
    {
      Cycle(store, active, scanned, calls, errors)
    }

    method Record(source: string, f: string, rec: nat -> Recording) returns (ok: bool)
      modifies this
      ensures (State(), ok) == RecordSignal(old(State()), source, f, rec)
    {
      var outcome := rec(calls);
      if outcome == Unbuilt {
        calls := calls + 1;
        return false;
      }
      active := active[source := (if source in active then active[source] else {}) + {f}];
      calls := calls + 1;
      if StoredFingerprint(f) == "" || outcome == RaisesBefore {
        return false;
      }
      store := Upsert(store, f, source);
      ok := outcome == Works;
    }

    method RecordSignals(source: string, signals: seq<string>, rec: nat -> Recording) returns (ok: bool)
      modifies this
      ensures (State(), ok) == RecordAll(old(State()), source, signals, rec)
    {
      for k := 0 to |signals|
        invariant (State(), true) == RecordAll(old(State()), source, signals[..k], rec)
      {
        assert signals[..k + 1][..k] == signals[..k];
        ok := Record(source, signals[k], rec);
        if !ok {
          StoppedStaysStopped(old(State()), source, signals, k + 1, rec);
          return;
        }
      }
      assert signals[..|signals|] == signals;
      ok := true;
    }

    method ScanFamily(source: string, seen: Seen<seq<string>>, rec: nat -> Recording)
      modifies this
      ensures State() == Family(old(State()), source, seen, rec)
    {
      if seen.Unavailable? {
        errors := errors + 1;
        return;
      }
      scanned := scanned + {source};
      var ok := RecordSignals(source, seen.value, rec);
      if !ok {
        errors := errors + 1;
      }
    }

    method ScanBypass(seen: Seen<seq<string>>, rec: nat -> Recording) returns (goesOn: bool)
      modifies this
      ensures (State(), goesOn) == BypassFamily(old(State()), seen, rec)
    {
      var ok := false;
      if seen.Read? {
        scanned := scanned + {"bypass"};
        ok := RecordSignals("bypass", seen.value, rec);
      }
      if ok {
        scanned := scanned + {"telemetry"};
        return true;
      }
      errors := errors + 1;
      goesOn := Record("telemetry", NO_TELEMETRY, rec);
    }

    method ScanQuotas(devices: seq<Device>, rec: nat -> Recording)
      modifies this
      ensures State() == Quotas(old(State()), devices, rec)
    {
      for k := 0 to |devices|
        invariant State() == Quotas(old(State()), devices[..k], rec)
      {
        assert devices[..k + 1][..k] == devices[..k];
        var d := devices[k];
        if d.ip != "" {
          ScanFamily("quota:" + d.ip, QuotaSeen(d), rec);
        }
      }
      assert devices[..|devices|] == devices;
    }

    method ResolveScanned() returns (ghost order: seq<string>)
      modifies this`store
      ensures store == ResolveAll(old(store), order, active) && Lists(order, scanned)
    {
      order := [];
      var pending := scanned;
      while pending != {}
        invariant pending <= scanned && store == ResolveAll(old(store), order, active)
        invariant forall s :: s in order <==> s in scanned && s !in pending
        decreases |pending|
      {
        var source :| source in pending;
        assert (order + [source])[..|order|] == order;
        store := ResolveInactive(store, source, if source in active then active[source] else {});
        order := order + [source];
        pending := pending - {source};
      }
    }

    /** One scan; false when the recorder raised inside the handler of the bypass block. */
    method RunCycle(o: Observation, rec: nat -> Recording) returns (finished: bool, ghost order: seq<string>)
      modifies this
      ensures finished == Probe(old(store), o, rec).1
      ensures store == Cycled(old(store), o, rec, order)
      ensures finished ==> Lists(order, Probe(old(store), o, rec).0.scanned)
    {
      active, scanned, calls, errors := map[], {}, 0, 0;
      order := [];
      ScanFamily("security", Signals(o.security, s => SecuritySignals(s)), rec);
      ScanFamily("reconciler", Signals(o.reconciler, r => ReconcilerSignals(r)), rec);
      ScanFamily("operations", Signals(o.readiness, r => ReadinessSignals(r)), rec);
      if o.devices.Unavailable? {
        errors := errors + 1;
      }
      var devices := DevicesOf(o);
      if HasManaged(devices) {
        var goesOn := ScanBypass(BypassSeen(o), rec);
        if !goesOn {
          return false, order;
        }
      }
      ScanQuotas(devices, rec);
      assert State() == Probe(old(store), o, rec).0;
      order := ResolveScanned();
      finished := true;
    }
  }
}
