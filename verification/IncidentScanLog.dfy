/** What a scan clears when the recorder may raise at any call: the scan as a log of recorder calls. */
module IncidentScanLog {
  import opened Text
  import opened IncidentScan
  import opened IncidentScanProofs

  // ---------- the calls of one scan ----------

  /** The recording of one signal: whether its fingerprint was marked as active, and whether its row was written. */
  datatype Call = Call(source: string, fingerprint: string, marked: bool, wrote: bool)

  predicate Fails(f: string, outcome: Recording) {
    StoredFingerprint(f) == "" || outcome != Works
  }

  function CallOf(source: string, f: string, outcome: Recording): Call {
    Call(source, f, outcome != Unbuilt, StoredFingerprint(f) != "" && (outcome == Works || outcome == RaisesAfter))
  }

  /** Where the first raising call stands among the signals of one source; their number if there is none. */
  function FirstFailure(signals: seq<string>, from: nat, rec: nat -> Recording): (i: nat)
    ensures i <= |signals|
  {
    if signals == [] then 0 else
    var n := |signals| - 1;
    var i := FirstFailure(signals[..n], from, rec);
    if i < n then i else if Fails(signals[n], rec(from + n)) then n else |signals|
  }

  lemma {:induction false} FirstFailureIsFirst(signals: seq<string>, from: nat, rec: nat -> Recording)
    ensures var i := FirstFailure(signals, from, rec);
      && (i < |signals| ==> Fails(signals[i], rec(from + i)))
      && forall k | 0 <= k < i :: !Fails(signals[k], rec(from + k))
  {
    if signals != [] {
      FirstFailureIsFirst(signals[..|signals| - 1], from, rec);
    }
  }

  /** The signals of one source that reach the recorder: up to and including the first raising call. */
  function Heard(signals: seq<string>, from: nat, rec: nat -> Recording): (heard: seq<string>)
    ensures heard <= signals
  {
    var i := FirstFailure(signals, from, rec);
    if i < |signals| then signals[..i + 1] else signals
  }

  /** The recorder calls made for one source are its signals up to the first that raises, that one included. */
  lemma HeardUpToFailure(signals: seq<string>, from: nat, rec: nat -> Recording)
    ensures var heard := Heard(signals, from, rec);
      && heard <= signals
      && (forall k | 0 <= k < |heard| - 1 :: !Fails(heard[k], rec(from + k)))
      && (|heard| < |signals| ==> |heard| > 0 && Fails(heard[|heard| - 1], rec(from + |heard| - 1)))
  {
    FirstFailureIsFirst(signals, from, rec);
  }

  function CallsOf(source: string, heard: seq<string>, from: nat, rec: nat -> Recording): (calls: seq<Call>)
    ensures |calls| == |heard|
    ensures forall k | 0 <= k < |heard| :: calls[k] == CallOf(source, heard[k], rec(from + k))
  {
    seq(|heard|, k requires 0 <= k < |heard| => CallOf(source, heard[k], rec(from + k)))
  }

  function WithCalls(log: seq<Call>, source: string, heard: seq<string>, rec: nat -> Recording): seq<Call> {
    log + CallsOf(source, heard, |log|, rec)
  }

  function WithSignals(log: seq<Call>, source: string, signals: seq<string>, rec: nat -> Recording): seq<Call> {
    WithCalls(log, source, Heard(signals, |log|, rec), rec)
  }

  function WithFamily(log: seq<Call>, source: string, seen: Seen<seq<string>>, rec: nat -> Recording): seq<Call> {
    if seen.Unavailable? then log else WithSignals(log, source, seen.value, rec)
  }

  function FixedLog(o: Observation, rec: nat -> Recording): seq<Call> {
    var security := WithFamily([], "security", Signals(o.security, s => SecuritySignals(s)), rec);
    var reconciler := WithFamily(security, "reconciler", Signals(o.reconciler, r => ReconcilerSignals(r)), rec);
    WithFamily(reconciler, "operations", Signals(o.readiness, r => ReadinessSignals(r)), rec)
  }

  /** The bypass probe failed, or one of its signals could not be recorded. */
  predicate Broken(log: seq<Call>, seen: Seen<seq<string>>, rec: nat -> Recording) {
    seen.Read? ==> FirstFailure(seen.value, |log|, rec) < |seen.value|
  }

  function WithBypass(log: seq<Call>, seen: Seen<seq<string>>, rec: nat -> Recording): seq<Call> {
    var longer := WithFamily(log, "bypass", seen, rec);
    if Broken(log, seen, rec) then longer + [CallOf("telemetry", NO_TELEMETRY, rec(|longer|))] else longer
  }

  /** The handler of a broken bypass block could record the outage. */
  predicate Survives(log: seq<Call>, seen: Seen<seq<string>>, rec: nat -> Recording) {
    Broken(log, seen, rec) ==> rec(|WithFamily(log, "bypass", seen, rec)|) == Works
  }

  predicate BypassBroken(o: Observation, rec: nat -> Recording) {
    HasManaged(DevicesOf(o)) && Broken(FixedLog(o, rec), BypassSeen(o), rec)
  }

  function BypassLog(o: Observation, rec: nat -> Recording): seq<Call> {
    if HasManaged(DevicesOf(o)) then WithBypass(FixedLog(o, rec), BypassSeen(o), rec) else FixedLog(o, rec)
  }

  /** The scan is abandoned only if the outage itself cannot be recorded. */
  predicate GoesOn(o: Observation, rec: nat -> Recording) {
    HasManaged(DevicesOf(o)) ==> Survives(FixedLog(o, rec), BypassSeen(o), rec)
  }

  function QuotasLog(log: seq<Call>, devices: seq<Device>, rec: nat -> Recording): seq<Call> {
    if devices == [] then log else
    var before, d := QuotasLog(log, devices[..|devices| - 1], rec), devices[|devices| - 1];
    if d.ip == "" then before else WithFamily(before, "quota:" + d.ip, QuotaSeen(d), rec)
  }

  function Log(o: Observation, rec: nat -> Recording): seq<Call> {
    if GoesOn(o, rec) then QuotasLog(BypassLog(o, rec), DevicesOf(o), rec) else BypassLog(o, rec)
  }

  function BypassVisited(o: Observation, rec: nat -> Recording): set<string> {
    if !HasManaged(DevicesOf(o)) then {}
    else AnsweredBy("bypass", BypassSeen(o)) + if BypassBroken(o, rec) then {} else {"telemetry"}
  }

  /** The sources that a scan resolves if it goes on. */
  function Visited(o: Observation, rec: nat -> Recording): set<string> {
    FixedAnswered(o) + BypassVisited(o, rec) + QuotasAnswered(DevicesOf(o))
  }

  // ---------- the scan is its log ----------

  function Replay(store: Store, log: seq<Call>): Store {
    if log == [] then store else
    var before, call := Replay(store, log[..|log| - 1]), log[|log| - 1];
    if call.wrote then Upsert(before, call.fingerprint, call.source) else before
  }

  predicate Called(log: seq<Call>, source: string, f: string) {
    exists call | call in log :: call.marked && call.source == source && call.fingerprint == f
  }

  ghost predicate Logs(c: Cycle, first: Store, log: seq<Call>) {
    && c.calls == |log| && c.store == Replay(first, log)
    && forall s, f :: f in ActiveOf(c, s) <==> Called(log, s, f)
  }

  lemma RecordLogs(c: Cycle, first: Store, log: seq<Call>, source: string, f: string, rec: nat -> Recording)
    requires Logs(c, first, log)
    ensures Logs(RecordSignal(c, source, f, rec).0, first, log + [CallOf(source, f, rec(|log|))])
    ensures RecordSignal(c, source, f, rec).1 <==> !Fails(f, rec(|log|))
  {
    var after, call := RecordSignal(c, source, f, rec).0, CallOf(source, f, rec(|log|));
    assert (log + [call])[..|log|] == log;
    forall s, g ensures g in ActiveOf(after, s) <==> Called(log + [call], s, g) {
      assert g in ActiveOf(c, s) <==> Called(log, s, g);
      if Called(log, s, g) {
        var old_ :| old_ in log && old_.marked && old_.source == s && old_.fingerprint == g;
        assert old_ in log + [call];
      }
      assert call in log + [call];
    }
  }

  lemma FirstFailureSnoc(signals: seq<string>, f: string, from: nat, rec: nat -> Recording)
    ensures var i, j := FirstFailure(signals, from, rec), FirstFailure(signals + [f], from, rec);
      if i < |signals| then j == i
      else j == if Fails(f, rec(from + |signals|)) then |signals| else |signals| + 1
  {
    assert (signals + [f])[..|signals|] == signals;
  }

  lemma OneMoreHeard(signals: seq<string>, f: string, from: nat, rec: nat -> Recording)
    ensures if FirstFailure(signals, from, rec) < |signals| then
        Heard(signals + [f], from, rec) == Heard(signals, from, rec)
      else
        Heard(signals, from, rec) == signals && Heard(signals + [f], from, rec) == signals + [f]
  {
    FirstFailureSnoc(signals, f, from, rec);
    var i := FirstFailure(signals, from, rec);
    if i < |signals| {
      assert (signals + [f])[..i + 1] == signals[..i + 1];
    } else {
      assert (signals + [f])[..|signals| + 1] == signals + [f];
    }
  }

  lemma CallsSnoc(log: seq<Call>, source: string, heard: seq<string>, f: string, rec: nat -> Recording)
    ensures WithCalls(log, source, heard + [f], rec)
         == WithCalls(log, source, heard, rec) + [CallOf(source, f, rec(|log| + |heard|))]
  {
    assert CallsOf(source, heard + [f], |log|, rec)
        == CallsOf(source, heard, |log|, rec) + [CallOf(source, f, rec(|log| + |heard|))];
  }

  lemma CallLogs(
    before: Cycle, first: Store, log: seq<Call>, source: string, heard: seq<string>, f: string, rec: nat -> Recording)
    requires Logs(before, first, WithCalls(log, source, heard, rec))
    ensures Logs(RecordSignal(before, source, f, rec).0, first, WithCalls(log, source, heard + [f], rec))
  {
    CallsSnoc(log, source, heard, f, rec);
    RecordLogs(before, first, WithCalls(log, source, heard, rec), source, f, rec);
  }

  lemma {:induction false} RecordAllStops(c: Cycle, source: string, signals: seq<string>, rec: nat -> Recording)
    ensures var (after, ok) := RecordAll(c, source, signals, rec);
      && after.scanned == c.scanned && (ok ==> after.calls == c.calls + |signals|)
      && (ok <==> FirstFailure(signals, c.calls, rec) == |signals|)
  {
    if signals != [] {
      RecordAllStops(c, source, signals[..|signals| - 1], rec);
    }
  }

  lemma {:induction false} RecordAllLogs(
    c: Cycle, first: Store, log: seq<Call>, source: string, signals: seq<string>, rec: nat -> Recording)
    requires Logs(c, first, log)
    ensures Logs(RecordAll(c, source, signals, rec).0, first, WithSignals(log, source, signals, rec))
  {
    if signals == [] {
      assert WithSignals(log, source, signals, rec) == log;
    } else {
      var rest, f := signals[..|signals| - 1], signals[|signals| - 1];
      assert signals == rest + [f];
      RecordAllLogs(c, first, log, source, rest, rec);
      RecordAllStops(c, source, rest, rec);
      var (before, ok) := RecordAll(c, source, rest, rec);
      OneMoreHeard(rest, f, |log|, rec);
      if ok {
        CallLogs(before, first, log, source, rest, f, rec);
      }
    }
  }

  lemma ScannedLogs(c: Cycle, first: Store, log: seq<Call>, source: string)
    requires Logs(c, first, log)
    ensures Logs(Scanned(c, source), first, log) && Logs(Failed(c), first, log)
  {
    forall s, f ensures (f in ActiveOf(Scanned(c, source), s) <==> Called(log, s, f))
                     && (f in ActiveOf(Failed(c), s) <==> Called(log, s, f)) {
      assert f in ActiveOf(c, s) <==> Called(log, s, f);
    }
  }

  lemma FamilyLogs(
    c: Cycle, first: Store, log: seq<Call>, source: string, seen: Seen<seq<string>>, rec: nat -> Recording)
    requires Logs(c, first, log)
    ensures Logs(Family(c, source, seen, rec), first, WithFamily(log, source, seen, rec))
    ensures Family(c, source, seen, rec).scanned == c.scanned + AnsweredBy(source, seen)
  {
    ScannedLogs(c, first, log, source);
    if seen.Read? {
      var after := RecordAll(Scanned(c, source), source, seen.value, rec).0;
      RecordAllLogs(Scanned(c, source), first, log, source, seen.value, rec);
      RecordAllStops(Scanned(c, source), source, seen.value, rec);
      ScannedLogs(after, first, WithFamily(log, source, seen, rec), source);
    }
  }

  lemma FixedLogs(store: Store, o: Observation, rec: nat -> Recording)
    ensures Logs(Fixed(store, o, rec), store, FixedLog(o, rec)) && Fixed(store, o, rec).scanned == FixedAnswered(o)
  {
    var s, r, p := Signals(o.security, s => SecuritySignals(s)), Signals(o.reconciler, r => ReconcilerSignals(r)),
                   Signals(o.readiness, r => ReadinessSignals(r));
    var start := Cycle(store, map[], {}, 0, 0);
    assert Logs(start, store, []);
    FamilyLogs(start, store, [], "security", s, rec);
    var one, log := Family(start, "security", s, rec), WithFamily([], "security", s, rec);
    FamilyLogs(one, store, log, "reconciler", r, rec);
    var two, longer := Family(one, "reconciler", r, rec), WithFamily(log, "reconciler", r, rec);
    FamilyLogs(two, store, longer, "operations", p, rec);
    var three := Family(two, "operations", p, rec);
    ScannedLogs(three, store, FixedLog(o, rec), "");
  }

  /** The handler of the bypass block records the outage. */
  lemma OutageLogs(c: Cycle, first: Store, log: seq<Call>, rec: nat -> Recording)
    requires Logs(c, first, log)
    ensures var (after, goesOn) := RecordSignal(Failed(c), "telemetry", NO_TELEMETRY, rec);
      && Logs(after, first, log + [CallOf("telemetry", NO_TELEMETRY, rec(|log|))])
      && after.scanned == c.scanned && (goesOn <==> rec(|log|) == Works)
  {
    TelemetryFingerprint();
    ScannedLogs(c, first, log, "");
    RecordLogs(Failed(c), first, log, "telemetry", NO_TELEMETRY, rec);
  }

  lemma BypassLogs(
    c: Cycle, first: Store, log: seq<Call>, seen: Seen<seq<string>>, rec: nat -> Recording)
    requires Logs(c, first, log)
    ensures var (after, goesOn) := BypassFamily(c, seen, rec);
      && Logs(after, first, WithBypass(log, seen, rec)) && (goesOn <==> Survives(log, seen, rec))
      && after.scanned == c.scanned + AnsweredBy("bypass", seen) + if Broken(log, seen, rec) then {} else {"telemetry"}
  {
    if seen.Unavailable? {
      OutageLogs(c, first, log, rec);
    } else {
      ScannedLogs(c, first, log, "bypass");
      RecordAllLogs(Scanned(c, "bypass"), first, log, "bypass", seen.value, rec);
      RecordAllStops(Scanned(c, "bypass"), "bypass", seen.value, rec);
      var (after, ok) := RecordAll(Scanned(c, "bypass"), "bypass", seen.value, rec);
      var longer := WithFamily(log, "bypass", seen, rec);
      if ok {
        ScannedLogs(after, first, longer, "telemetry");
      } else {
        OutageLogs(after, first, longer, rec);
      }
    }
  }

  lemma {:induction false} QuotasLogs(
    c: Cycle, first: Store, log: seq<Call>, devices: seq<Device>, rec: nat -> Recording)
    requires Logs(c, first, log)
    ensures Logs(Quotas(c, devices, rec), first, QuotasLog(log, devices, rec))
    ensures Quotas(c, devices, rec).scanned == c.scanned + QuotasAnswered(devices)
  {
    if devices != [] {
      var n, d := |devices| - 1, devices[|devices| - 1];
      QuotasLogs(c, first, log, devices[..n], rec);
      if d.ip != "" {
        var before := Quotas(c, devices[..n], rec);
        FamilyLogs(before, first, QuotasLog(log, devices[..n], rec), "quota:" + d.ip, QuotaSeen(d), rec);
      }
    }
  }

  /** The part of a scan after the fixed sources. */
  lemma RestLogs(
    fixed: Cycle, first: Store, log: seq<Call>, seen: Seen<seq<string>>, devices: seq<Device>, rec: nat -> Recording)
    requires Logs(fixed, first, log)
    ensures var (bypass, goesOn) := if HasManaged(devices) then BypassFamily(fixed, seen, rec) else (fixed, true);
      var longer := if HasManaged(devices) then WithBypass(log, seen, rec) else log;
      && Logs(bypass, first, longer) && Logs(Quotas(bypass, devices, rec), first, QuotasLog(longer, devices, rec))
      && Quotas(bypass, devices, rec).scanned == bypass.scanned + QuotasAnswered(devices)
  {
    if HasManaged(devices) {
      BypassLogs(fixed, first, log, seen, rec);
      QuotasLogs(BypassFamily(fixed, seen, rec).0, first, WithBypass(log, seen, rec), devices, rec);
    } else {
      QuotasLogs(fixed, first, log, devices, rec);
    }
  }

  /** Whatever the recorder does, the probing half of a scan leaves the table as its log writes it, marks as active
      exactly the fingerprints in the log, and scans the sources that answered, telemetry only if it recorded them
      all. */
  lemma ProbeLogs(store: Store, o: Observation, rec: nat -> Recording)
    ensures var (c, goesOn) := Probe(store, o, rec);
      && Logs(c, store, Log(o, rec)) && (goesOn <==> GoesOn(o, rec)) && (goesOn ==> c.scanned == Visited(o, rec))
  {
    var fixed, log := Fixed(store, o, rec), FixedLog(o, rec);
    FixedLogs(store, o, rec);
    RestLogs(fixed, store, log, BypassSeen(o), DevicesOf(o), rec);
    BypassLogs(fixed, store, log, BypassSeen(o), rec);
  }

  // ---------- what is cleared ----------

  predicate Names(source: string, stored: string) {
    Cut(Strip(source), 120) != "" && stored == Cut(Strip(source), 120)
  }

  lemma {:induction false} OpenStaysOpen(store: Store, log: seq<Call>, f: string)
    requires f in store && store[f].status == Open
    ensures f in Replay(store, log) && Replay(store, log)[f].status == Open
  {
    if log != [] {
      OpenStaysOpen(store, log[..|log| - 1], f);
    }
  }

  /** Exactly, for any recorder and any observation: an open incident is auto-resolved if and only if the scan goes on
      and scanned the source its row now has, while no call of that source up to its first raising one named it. */
  lemma ResolvedIff(store: Store, o: Observation, rec: nat -> Recording, order: seq<string>, f: string)
    requires f in store && store[f].status == Open && Lists(order, Probe(store, o, rec).0.scanned)
    ensures f in Cycled(store, o, rec, order) && f in Replay(store, Log(o, rec))
    ensures Cycled(store, o, rec, order)[f].status == Resolved
       <==> && GoesOn(o, rec)
            && exists s | s in Visited(o, rec) ::
                 Names(s, Replay(store, Log(o, rec))[f].source) && !Called(Log(o, rec), s, f)
  {
    ProbeLogs(store, o, rec);
    OpenStaysOpen(store, Log(o, rec), f);
    var (c, goesOn) := Probe(store, o, rec);
    if goesOn {
      ResolveAllIs(c.store, order, c.active, f);
      forall s ensures Inactive(c.store, f, s, ActiveIn(c.active, s))
                  <==> Names(s, c.store[f].source) && !Called(Log(o, rec), s, f) {
        assert ActiveIn(c.active, s) == ActiveOf(c, s);
      }
    }
  }

  // ---------- observations in the form the program builds them ----------

  ghost predicate StoredCalls(log: seq<Call>) {
    forall call | call in log :: StoredAsIs(call.source, call.fingerprint) && (call.wrote ==> call.marked)
  }

  lemma FamilyStored(log: seq<Call>, source: string, seen: Seen<seq<string>>, rec: nat -> Recording)
    requires StoredCalls(log) && AllStored(RaisedBy(source, seen))
    ensures StoredCalls(WithFamily(log, source, seen, rec))
  {
    if seen.Read? {
      SignalsStored(source, seen);
      var heard := Heard(seen.value, |log|, rec);
      var calls := CallsOf(source, heard, |log|, rec);
      forall call | call in calls ensures StoredAsIs(call.source, call.fingerprint) && (call.wrote ==> call.marked) {
        var k :| 0 <= k < |calls| && calls[k] == call;
        assert heard[k] == seen.value[k] && seen.value[k] in seen.value;
      }
    }
  }

  lemma {:induction false} QuotasStored(log: seq<Call>, devices: seq<Device>, rec: nat -> Recording)
    requires StoredCalls(log) && AllStored(QuotasRaised(devices))
    ensures StoredCalls(QuotasLog(log, devices, rec))
  {
    if devices != [] {
      var n, d := |devices| - 1, devices[|devices| - 1];
      QuotasStored(log, devices[..n], rec);
      if d.ip != "" {
        FamilyStored(QuotasLog(log, devices[..n], rec), "quota:" + d.ip, QuotaSeen(d), rec);
      }
    }
  }

  lemma FixedStored(o: Observation, rec: nat -> Recording)
    requires AllStored(FixedRaised(o))
    ensures StoredCalls(FixedLog(o, rec))
  {
    var s, r, p := Signals(o.security, s => SecuritySignals(s)), Signals(o.reconciler, r => ReconcilerSignals(r)),
                   Signals(o.readiness, r => ReadinessSignals(r));
    FamilyStored([], "security", s, rec);
    var log := WithFamily([], "security", s, rec);
    FamilyStored(log, "reconciler", r, rec);
    FamilyStored(WithFamily(log, "reconciler", r, rec), "operations", p, rec);
  }

  lemma LogStored(o: Observation, rec: nat -> Recording)
    requires Plain(o)
    ensures StoredCalls(Log(o, rec)) && CleanSources(Visited(o, rec))
  {
    PlainIsStored(o);
    FixedStored(o, rec);
    TelemetryFingerprint();
    if HasManaged(DevicesOf(o)) && BypassSeen(o).Read? {
      FamilyStored(FixedLog(o, rec), "bypass", BypassSeen(o), rec);
    }
    QuotasStored(BypassLog(o, rec), DevicesOf(o), rec);
  }

  lemma {:induction false} ReplaySource(store: Store, log: seq<Call>, f: string)
    requires f in store && StoredCalls(log)
    ensures f in Replay(store, log)
    ensures if exists call | call in log :: call.wrote && call.fingerprint == f
            then Called(log, Replay(store, log)[f].source, f)
            else Replay(store, log)[f].source == store[f].source
  {
    if log != [] {
      var rest, last := log[..|log| - 1], log[|log| - 1];
      assert log == rest + [last];
      ReplaySource(store, rest, f);
    }
  }

  /** The call wrote the row of `f`, or marked `f` as active for its own source. */
  predicate Protects(call: Call, f: string, source: string) {
    call.fingerprint == f && (call.wrote || (call.marked && call.source == source))
  }

  /** In the program's terms, wherever recording a signal fails: an open incident is auto-resolved if and only if the
      scan goes on, its source was scanned, and no call protects it. A failing call is the last of its source, so the
      signals after it protect nothing. */
  lemma ClearedIff(store: Store, o: Observation, rec: nat -> Recording, order: seq<string>, f: string)
    requires Plain(o) && Lists(order, Probe(store, o, rec).0.scanned) && f in store && store[f].status == Open
    ensures f in Cycled(store, o, rec, order)
    ensures Cycled(store, o, rec, order)[f].status == Resolved
       <==> && GoesOn(o, rec) && store[f].source in Visited(o, rec)
            && forall call | call in Log(o, rec) :: !Protects(call, f, store[f].source)
  {
    ResolvedIff(store, o, rec, order, f);
    LogStored(o, rec);
    Unprotected(store, Log(o, rec), Visited(o, rec), f);
  }

  lemma Unprotected(store: Store, log: seq<Call>, visited: set<string>, f: string)
    requires f in store && StoredCalls(log) && CleanSources(visited)
    ensures f in Replay(store, log)
    ensures (exists s | s in visited :: Names(s, Replay(store, log)[f].source) && !Called(log, s, f))
       <==> store[f].source in visited && forall call | call in log :: !Protects(call, f, store[f].source)
  {
    ReplaySource(store, log, f);
    var last, source := Replay(store, log)[f].source, store[f].source;
    assert forall s | s in visited :: Names(s, last) <==> s == last;
    if exists call | call in log :: call.wrote && call.fingerprint == f {
      assert Called(log, last, f);
    } else {
      assert last == source;
      assert Called(log, source, f) <==> exists call | call in log :: Protects(call, f, source);
    }
  }
}
