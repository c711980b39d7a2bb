/** When a scan clears an incident, and when it must not. */
module IncidentScanProofs {
  import opened Text
  import opened IncidentScan

  // ---------- what one observation raises and answers ----------

  function RaisedBy(source: string, seen: Seen<seq<string>>): set<(string, string)> {
    if seen.Read? then set f | f in seen.value :: (source, f) else {}
  }

  function AnsweredBy(source: string, seen: Seen<seq<string>>): set<string> {
    if seen.Read? then {source} else {}
  }

  function QuotaSeen(d: Device): Seen<seq<string>> {
    Signals(d.quota, q => QuotaSignals(d.ip, q))
  }

  function QuotasRaised(devices: seq<Device>): set<(string, string)> {
    if devices == [] then {} else
    var d := devices[|devices| - 1];
    QuotasRaised(devices[..|devices| - 1]) + if d.ip == "" then {} else RaisedBy("quota:" + d.ip, QuotaSeen(d))
  }

  function QuotasAnswered(devices: seq<Device>): set<string> {
    if devices == [] then {} else
    var d := devices[|devices| - 1];
    QuotasAnswered(devices[..|devices| - 1]) + if d.ip == "" then {} else AnsweredBy("quota:" + d.ip, QuotaSeen(d))
  }

  function BypassRaised(o: Observation): set<(string, string)> {
    if !HasManaged(DevicesOf(o)) then {}
    else if o.bypass.Unavailable? then {("telemetry", NO_TELEMETRY)}
    else RaisedBy("bypass", BypassSeen(o))
  }

  function BypassAnswered(o: Observation): set<string> {
    if HasManaged(DevicesOf(o)) && o.bypass.Read? then {"bypass", "telemetry"} else {}
  }

  function FixedRaised(o: Observation): set<(string, string)> {
    RaisedBy("security", Signals(o.security, s => SecuritySignals(s)))
    + RaisedBy("reconciler", Signals(o.reconciler, r => ReconcilerSignals(r)))
    + RaisedBy("operations", Signals(o.readiness, r => ReadinessSignals(r)))
  }

  function FixedAnswered(o: Observation): set<string> {
    AnsweredBy("security", Signals(o.security, s => SecuritySignals(s)))
    + AnsweredBy("reconciler", Signals(o.reconciler, r => ReconcilerSignals(r)))
    + AnsweredBy("operations", Signals(o.readiness, r => ReadinessSignals(r)))
  }

  /** Every (source, fingerprint) the observation calls for. */
  function Raised(o: Observation): set<(string, string)> {
    FixedRaised(o) + BypassRaised(o) + QuotasRaised(DevicesOf(o))
  }

  /** The sources whose probe answered. */
  function Answered(o: Observation): set<string> {
    FixedAnswered(o) + BypassAnswered(o) + QuotasAnswered(DevicesOf(o))
  }

  function Fingerprints(raised: set<(string, string)>): set<string> {
    set p | p in raised :: p.1
  }

  predicate StoredAsIs(source: string, f: string) {
    f != "" && StoredFingerprint(f) == f && source != "" && Cut(Strip(source), 120) == source
  }

  ghost predicate AllWork(rec: nat -> Recording) {
    forall k :: rec(k) == Works
  }

  // ---------- observations in the form the program builds them ----------

  /** Short enough for its column and without a space at its end. */
  predicate Fits(s: string, limit: int) {
    |s| <= limit && (s == "" || !IsSpace(s[|s| - 1]))
  }

  /** Addresses and service keys as lease addresses and normalize_service_quotas leave them: no space at the end, and
      together with the fixed parts of a fingerprint within the 240 characters (120 for a source) that the table
      keeps. */
  predicate PlainDevice(d: Device) {
    && Fits(d.ip, 114)
    && (d.quota.Read? ==> forall v | v in d.quota.value.services :: Fits(v.key, 225 - |d.ip|))
  }

  predicate Plain(o: Observation) {
    && (forall d | d in DevicesOf(o) :: PlainDevice(d))
    && (o.bypass.Read? ==> forall score | score in o.bypass.value :: Fits(score.0, 233))
  }

  lemma JoinedIsTight(head: string, tail: string)
    requires head != "" && !IsSpace(head[0]) && !IsSpace(head[|head| - 1]) && Fits(tail, |tail|)
    ensures Strip(head + tail) == head + tail
  {
    TightIsStripped(head + tail);
  }

  lemma SourceIsKept(ip: string)
    requires Fits(ip, 114)
    ensures Strip("quota:" + ip) == "quota:" + ip && |"quota:" + ip| <= 120
  {
    JoinedIsTight("quota:", ip);
  }

  lemma {:induction false} ServicesFit(ip: string, services: seq<Service>)
    requires Fits(ip, 114) && forall v | v in services :: Fits(v.key, 225 - |ip|)
    ensures forall f | f in ServiceSignals(ip, services) :: StoredAsIs("quota:" + ip, f)
  {
    SourceIsKept(ip);
    if services != [] {
      assert services[0] in services && forall v | v in services[1..] :: v in services;
      ServicesFit(ip, services[1..]);
      JoinedIsTight("quota:" + ip + ":service:", services[0].key);
    }
  }

  lemma QuotaFits(d: Device)
    requires PlainDevice(d) && d.quota.Read?
    ensures forall f | f in QuotaSignals(d.ip, d.quota.value) :: StoredAsIs("quota:" + d.ip, f)
  {
    SourceIsKept(d.ip);
    ServicesFit(d.ip, d.quota.value.services);
    JoinedIsTight("quota:" + d.ip + ":telemetry", "");
    JoinedIsTight("quota:" + d.ip + ":daily", "");
    assert "quota:" + d.ip + ":telemetry" + "" == "quota:" + d.ip + ":telemetry";
    assert "quota:" + d.ip + ":daily" + "" == "quota:" + d.ip + ":daily";
  }

  lemma {:induction false} BypassFits(scores: seq<(string, Risk)>, threshold: Risk)
    requires forall score | score in scores :: Fits(score.0, 233)
    ensures forall f | f in BypassSignals(scores, threshold) :: StoredAsIs("bypass", f)
  {
    JoinedIsTight("bypass", "");
    assert "bypass" + "" == "bypass";
    if scores != [] {
      assert scores[0] in scores && forall score | score in scores[1..] :: score in scores;
      BypassFits(scores[1..], threshold);
      JoinedIsTight("bypass:", scores[0].0);
    }
  }

  lemma {:induction false} QuotasFit(devices: seq<Device>)
    requires forall d | d in devices :: PlainDevice(d)
    ensures AllStored(QuotasRaised(devices)) && CleanSources(QuotasAnswered(devices))
  {
    if devices != [] {
      var d := devices[|devices| - 1];
      assert d in devices && forall e | e in devices[..|devices| - 1] :: e in devices;
      QuotasFit(devices[..|devices| - 1]);
      SourceIsKept(d.ip);
      if d.quota.Read? {
        QuotaFits(d);
      }
    }
  }

  lemma SecurityFits(s: Security)
    ensures forall f | f in SecuritySignals(s) :: StoredAsIs("security", f)
  {
    TightIsStripped("security");
    TightIsStripped(AUTHORITY);
    TightIsStripped(WARNINGS);
  }

  lemma ReconcilerFits(r: Reconciler)
    ensures forall f | f in ReconcilerSignals(r) :: StoredAsIs("reconciler", f)
  {
    TightIsStripped("reconciler");
    TightIsStripped("reconciler:cooldown-hold");
    TightIsStripped("reconciler:security-hold");
    TightIsStripped("reconciler:last-cycle-failed");
  }

  lemma ReadinessFits(r: Readiness)
    ensures forall f | f in ReadinessSignals(r) :: StoredAsIs("operations", f)
  {
    TightIsStripped("operations");
    TightIsStripped("operations:not-ready");
  }

  lemma FixedFit(o: Observation)
    ensures AllStored(FixedRaised(o)) && CleanSources(FixedAnswered(o))
  {
    TightIsStripped("security");
    TightIsStripped("reconciler");
    TightIsStripped("operations");
    if o.security.Read? {
      SecurityFits(o.security.value);
    }
    if o.reconciler.Read? {
      ReconcilerFits(o.reconciler.value);
    }
    if o.readiness.Read? {
      ReadinessFits(o.readiness.value);
    }
  }

  lemma BypassFit(o: Observation)
    requires Plain(o)
    ensures AllStored(BypassRaised(o)) && CleanSources(BypassAnswered(o))
  {
    TelemetryFingerprint();
    TightIsStripped("bypass");
    if o.bypass.Read? {
      BypassFits(o.bypass.value, o.threshold);
    }
  }

  /** The table keeps every fingerprint and source of such an observation unchanged. */
  lemma PlainIsStored(o: Observation)
    requires Plain(o)
    ensures AllStored(Raised(o)) && CleanSources(Answered(o))
  {
    FixedFit(o);
    QuotasFit(DevicesOf(o));
    BypassFit(o);
  }

  // ---------- recording keeps track ----------

  /** The table differs from the first one only in raised rows, which carry a source that raised them. */
  ghost predicate Kept(store: Store, first: Store, raised: set<(string, string)>) {
    && (forall f | f !in Fingerprints(raised) :: f in store <==> f in first)
    && (forall f | f !in Fingerprints(raised) && f in first :: store[f] == first[f])
    && (forall f | f in Fingerprints(raised) :: f in store && (store[f].source, f) in raised)
    && (forall f | f in Fingerprints(raised) && f in first && first[f].status == Open :: store[f].status == Open)
  }

  ghost predicate Tracks(c: Cycle, first: Store, raised: set<(string, string)>, answered: set<string>) {
    && c.scanned == answered
    && (forall s, f :: f in ActiveOf(c, s) <==> (s, f) in raised)
    && Kept(c.store, first, raised)
  }

  lemma UpsertKeeps(store: Store, first: Store, raised: set<(string, string)>, source: string, f: string)
    requires Kept(store, first, raised) && StoredAsIs(source, f)
    ensures Kept(Upsert(store, f, source), first, raised + {(source, f)})
  {
    var after := Upsert(store, f, source);
    assert Fingerprints(raised + {(source, f)}) == Fingerprints(raised) + {f};
    assert after[f].source == source;
  }

  lemma RecordTracks(
    c: Cycle, first: Store, raised: set<(string, string)>, answered: set<string>,
    source: string, f: string, rec: nat -> Recording)
    requires Tracks(c, first, raised, answered) && StoredAsIs(source, f) && AllWork(rec)
    ensures RecordSignal(c, source, f, rec).1
    ensures Tracks(RecordSignal(c, source, f, rec).0, first, raised + {(source, f)}, answered)
  {
    UpsertKeeps(c.store, first, raised, source, f);
    var after := RecordSignal(c, source, f, rec).0;
    forall s, g ensures g in ActiveOf(after, s) <==> (s, g) in raised + {(source, f)} {
      assert g in ActiveOf(c, s) <==> (s, g) in raised;
    }
  }

  lemma {:induction false} RecordAllTracks(
    c: Cycle, first: Store, raised: set<(string, string)>, answered: set<string>,
    source: string, signals: seq<string>, rec: nat -> Recording)
    requires Tracks(c, first, raised, answered) && AllWork(rec)
    requires forall f | f in signals :: StoredAsIs(source, f)
    ensures RecordAll(c, source, signals, rec).1
    ensures Tracks(RecordAll(c, source, signals, rec).0, first, raised + RaisedBy(source, Read(signals)), answered)
  {
    if signals == [] {
      assert raised + RaisedBy(source, Read(signals)) == raised;
    } else {
      var n := |signals| - 1;
      assert signals[n] in signals;
      RecordAllTracks(c, first, raised, answered, source, signals[..n], rec);
      var before := RecordAll(c, source, signals[..n], rec).0;
      RecordTracks(before, first, raised + RaisedBy(source, Read(signals[..n])), answered, source, signals[n], rec);
      assert signals == signals[..n] + [signals[n]];
      assert raised + RaisedBy(source, Read(signals[..n])) + {(source, signals[n])}
          == raised + RaisedBy(source, Read(signals));
    }
  }

  ghost predicate AllStored(raised: set<(string, string)>) {
    forall p | p in raised :: StoredAsIs(p.0, p.1)
  }

  lemma ScanTracks(c: Cycle, first: Store, raised: set<(string, string)>, answered: set<string>, source: string)
    requires Tracks(c, first, raised, answered)
    ensures Tracks(Scanned(c, source), first, raised, answered + {source})
  {
    forall s, f ensures f in ActiveOf(Scanned(c, source), s) <==> (s, f) in raised {
      assert f in ActiveOf(c, s) <==> (s, f) in raised;
    }
  }

  lemma FailTracks(c: Cycle, first: Store, raised: set<(string, string)>, answered: set<string>)
    requires Tracks(c, first, raised, answered)
    ensures Tracks(Failed(c), first, raised, answered)
  {
    forall s, f ensures f in ActiveOf(Failed(c), s) <==> (s, f) in raised {
      assert f in ActiveOf(c, s) <==> (s, f) in raised;
    }
  }

  lemma SignalsStored(source: string, seen: Seen<seq<string>>)
    requires AllStored(RaisedBy(source, seen)) && seen.Read?
    ensures forall f | f in seen.value :: StoredAsIs(source, f)
  {
    forall f | f in seen.value ensures StoredAsIs(source, f) {
      assert (source, f) in RaisedBy(source, seen);
    }
  }

  lemma FamilyTracks(
    c: Cycle, first: Store, raised: set<(string, string)>, answered: set<string>,
    source: string, seen: Seen<seq<string>>, rec: nat -> Recording)
    requires Tracks(c, first, raised, answered) && AllWork(rec) && AllStored(RaisedBy(source, seen))
    ensures Tracks(Family(c, source, seen, rec), first, raised + RaisedBy(source, seen),
        answered + AnsweredBy(source, seen))
  {
    if seen.Unavailable? {
      FailTracks(c, first, raised, answered);
      assert raised + RaisedBy(source, seen) == raised && answered + AnsweredBy(source, seen) == answered;
    } else {
      ScanTracks(c, first, raised, answered, source);
      SignalsStored(source, seen);
      RecordAllTracks(Scanned(c, source), first, raised, answered + {source}, source, seen.value, rec);
    }
  }

  lemma FixedTracks(store: Store, o: Observation, rec: nat -> Recording)
    requires AllWork(rec) && AllStored(FixedRaised(o))
    ensures Tracks(Fixed(store, o, rec), store, FixedRaised(o), FixedAnswered(o))
  {
    var s, r, p := Signals(o.security, s => SecuritySignals(s)), Signals(o.reconciler, r => ReconcilerSignals(r)),
                   Signals(o.readiness, r => ReadinessSignals(r));
    var start := Cycle(store, map[], {}, 0, 0);
    assert Tracks(start, store, {}, {});
    FamilyTracks(start, store, {}, {}, "security", s, rec);
    var one := Family(start, "security", s, rec);
    FamilyTracks(one, store, {} + RaisedBy("security", s), {} + AnsweredBy("security", s), "reconciler", r, rec);
    var two := Family(one, "reconciler", r, rec);
    var raised := {} + RaisedBy("security", s) + RaisedBy("reconciler", r);
    var answered := {} + AnsweredBy("security", s) + AnsweredBy("reconciler", r);
    FamilyTracks(two, store, raised, answered, "operations", p, rec);
    var three := Family(two, "operations", p, rec);
    assert raised + RaisedBy("operations", p) == FixedRaised(o);
    assert answered + AnsweredBy("operations", p) == FixedAnswered(o);
    FailTracks(three, store, FixedRaised(o), FixedAnswered(o));
  }

  lemma TelemetryFingerprint()
    ensures StoredAsIs("telemetry", NO_TELEMETRY)
  {
    TightIsStripped("telemetry");
    TightIsStripped(NO_TELEMETRY);
  }

  lemma BypassTracks(
    c: Cycle, first: Store, raised: set<(string, string)>, answered: set<string>, o: Observation, rec: nat -> Recording)
    requires Tracks(c, first, raised, answered) && AllWork(rec) && AllStored(BypassRaised(o))
        && HasManaged(DevicesOf(o))
    ensures BypassFamily(c, BypassSeen(o), rec).1
    ensures Tracks(BypassFamily(c, BypassSeen(o), rec).0, first, raised + BypassRaised(o), answered + BypassAnswered(o))
  {
    var seen := BypassSeen(o);
    if seen.Unavailable? {
      FailTracks(c, first, raised, answered);
      TelemetryFingerprint();
      RecordTracks(Failed(c), first, raised, answered, "telemetry", NO_TELEMETRY, rec);
      assert answered + BypassAnswered(o) == answered;
    } else {
      ScanTracks(c, first, raised, answered, "bypass");
      SignalsStored("bypass", seen);
      RecordAllTracks(Scanned(c, "bypass"), first, raised, answered + {"bypass"}, "bypass", seen.value, rec);
      var after := RecordAll(Scanned(c, "bypass"), "bypass", seen.value, rec).0;
      ScanTracks(after, first, raised + RaisedBy("bypass", seen), answered + {"bypass"}, "telemetry");
      assert answered + {"bypass"} + {"telemetry"} == answered + BypassAnswered(o);
    }
  }

  lemma {:induction false} QuotasTrack(
    c: Cycle, first: Store, raised: set<(string, string)>, answered: set<string>,
    devices: seq<Device>, rec: nat -> Recording)
    requires Tracks(c, first, raised, answered) && AllWork(rec) && AllStored(QuotasRaised(devices))
    ensures Tracks(Quotas(c, devices, rec), first, raised + QuotasRaised(devices), answered + QuotasAnswered(devices))
  {
    if devices == [] {
      assert raised + {} == raised && answered + {} == answered;
    } else {
      var n, d := |devices| - 1, devices[|devices| - 1];
      QuotasTrack(c, first, raised, answered, devices[..n], rec);
      var soFar, heard := raised + QuotasRaised(devices[..n]), answered + QuotasAnswered(devices[..n]);
      if d.ip != "" {
        FamilyTracks(Quotas(c, devices[..n], rec), first, soFar, heard, "quota:" + d.ip, QuotaSeen(d), rec);
      }
      assert raised + QuotasRaised(devices) == soFar
          + if d.ip == "" then {} else RaisedBy("quota:" + d.ip, QuotaSeen(d));
      assert answered + QuotasAnswered(devices) == heard
          + if d.ip == "" then {} else AnsweredBy("quota:" + d.ip, QuotaSeen(d));
    }
  }

  /** With a recorder that works, the probing half of a cycle marks exactly what the observation raises and answers. */
  lemma ProbeTracks(store: Store, o: Observation, rec: nat -> Recording)
    requires AllWork(rec) && Plain(o)
    ensures Probe(store, o, rec).1 && Tracks(Probe(store, o, rec).0, store, Raised(o), Answered(o))
  {
    PlainIsStored(o);
    var devices := DevicesOf(o);
    FixedTracks(store, o, rec);
    var fixed := Fixed(store, o, rec);
    if HasManaged(devices) {
      BypassTracks(fixed, store, FixedRaised(o), FixedAnswered(o), o, rec);
    } else {
      assert FixedRaised(o) + BypassRaised(o) == FixedRaised(o)
          && FixedAnswered(o) + BypassAnswered(o) == FixedAnswered(o);
    }
    var bypass := if HasManaged(devices) then BypassFamily(fixed, BypassSeen(o), rec).0 else fixed;
    QuotasTrack(bypass, store, FixedRaised(o) + BypassRaised(o), FixedAnswered(o) + BypassAnswered(o), devices, rec);
  }

  // ---------- resolving ----------

  function ActiveIn(active: map<string, set<string>>, source: string): set<string> {
    if source in active then active[source] else {}
  }

  lemma {:induction false} ResolveAllIs(store: Store, sources: seq<string>, active: map<string, set<string>>, f: string)
    requires f in store
    ensures f in ResolveAll(store, sources, active)
    ensures ResolveAll(store, sources, active)[f]
         == if exists s | s in sources :: Inactive(store, f, s, ActiveIn(active, s))
            then store[f].(status := Resolved, suppressed := false) else store[f]
  {
    if sources != [] {
      var n := |sources| - 1;
      ResolveAllIs(store, sources[..n], active, f);
      var before, last := ResolveAll(store, sources[..n], active), sources[n];
      assert Inactive(before, f, last, ActiveIn(active, last)) == Inactive(store, f, last, ActiveIn(active, last));
      assert last in sources && forall s | s in sources :: s in sources[..n] || s == last;
      assert forall s | s in sources[..n] :: s in sources;
    }
  }

  /** The table after a cycle that resolves the scanned sources in the given order. */
  function Cycled(store: Store, o: Observation, rec: nat -> Recording, order: seq<string>): Store {
    var (c, goesOn) := Probe(store, o, rec);
    if goesOn then ResolveAll(c.store, order, c.active) else c.store
  }

  ghost predicate Lists(order: seq<string>, scanned: set<string>) {
    forall s :: s in order <==> s in scanned
  }

  ghost predicate CleanSources(sources: set<string>) {
    forall s | s in sources :: s != "" && Cut(Strip(s), 120) == s
  }

  lemma NotActive(c: Cycle, first: Store, raised: set<(string, string)>, answered: set<string>, f: string)
    requires Tracks(c, first, raised, answered) && f !in Fingerprints(raised)
    ensures forall s :: f !in ActiveOf(c, s)
  {
    forall s ensures f !in ActiveOf(c, s) {
      assert (s, f) in raised ==> (s, f).1 in Fingerprints(raised);
    }
  }

  /** False-clear protection, exactly: an open incident is auto-resolved if and only if the probe of its source answered
      and the scan did not raise its fingerprint. Any probe may fail; the recorder works. IncidentScanLog gives the
      condition for a recorder that may raise. */
  lemma ClearedExactlyWhen(store: Store, o: Observation, rec: nat -> Recording, order: seq<string>, f: string)
    requires AllWork(rec) && Plain(o) && Lists(order, Probe(store, o, rec).0.scanned)
    requires f in store && store[f].status == Open
    ensures f in Cycled(store, o, rec, order)
    ensures Cycled(store, o, rec, order)[f].status == Resolved
       <==> f !in Fingerprints(Raised(o)) && store[f].source in Answered(o)
  {
    ProbeTracks(store, o, rec);
    PlainIsStored(o);
    var c := Probe(store, o, rec).0;
    ResolveAllIs(c.store, order, c.active, f);
    if f in Fingerprints(Raised(o)) {
      RaisedIsNotInactive(c, store, Raised(o), Answered(o), order, f);
    } else {
      UnraisedIsInactive(c, store, Raised(o), Answered(o), order, f);
    }
  }

  lemma RaisedIsNotInactive(
    c: Cycle, first: Store, raised: set<(string, string)>, answered: set<string>, order: seq<string>, f: string)
    requires Tracks(c, first, raised, answered) && CleanSources(answered) && Lists(order, answered)
    requires f in Fingerprints(raised)
    ensures forall s | s in order :: !Inactive(c.store, f, s, ActiveIn(c.active, s))
  {
    assert f in ActiveOf(c, c.store[f].source);
  }

  lemma UnraisedIsInactive(
    c: Cycle, first: Store, raised: set<(string, string)>, answered: set<string>, order: seq<string>, f: string)
    requires Tracks(c, first, raised, answered) && CleanSources(answered) && Lists(order, answered)
    requires f !in Fingerprints(raised) && f in first
    ensures f in c.store && c.store[f] == first[f]
    ensures (exists s | s in order :: Inactive(c.store, f, s, ActiveIn(c.active, s))) <==> first[f].source in answered
  {
    NotActive(c, first, raised, answered, f);
    assert forall s :: f !in ActiveIn(c.active, s) by {
      assert forall s :: ActiveIn(c.active, s) == ActiveOf(c, s);
    }
    if first[f].source in answered {
      assert Inactive(c.store, f, first[f].source, ActiveIn(c.active, first[f].source));
    }
  }

  // ---------- where the promise ends: cut fingerprints and a recorder that raises ----------

  /** A signal that was just recorded survives the resolution of its own source exactly if the fingerprint is kept
      unchanged by the table (or its kept form is raised as well): the comparison is with the raw text. */
  lemma RaisedSurvivesIff(c: Cycle, source: string, f: string, rec: nat -> Recording)
    requires AllWork(rec) && StoredFingerprint(f) != "" && CleanSources({source})
    requires StoredFingerprint(f) in c.store ==> !c.store[StoredFingerprint(f)].suppressed
    ensures var after, kept := RecordSignal(c, source, f, rec).0, StoredFingerprint(f);
      && kept in ResolveInactive(after.store, source, ActiveOf(after, source))
      && (ResolveInactive(after.store, source, ActiveOf(after, source))[kept].status == Open
          <==> kept == f || kept in ActiveOf(c, source))
  {
    assert source in {source};
    var after, kept := RecordSignal(c, source, f, rec).0, StoredFingerprint(f);
    assert after.store[kept] == Incident(source, Open, false);
  }

  ghost predicate WorksFor(rec: nat -> Recording, from: nat, until: nat) {
    forall k | from <= k < until :: rec(k) == Works
  }

  lemma {:induction false} WorkedSoFar(c: Cycle, source: string, signals: seq<string>, rec: nat -> Recording)
    requires WorksFor(rec, c.calls, c.calls + |signals|) && forall f | f in signals :: StoredFingerprint(f) != ""
    ensures RecordAll(c, source, signals, rec).1 && RecordAll(c, source, signals, rec).0.calls == c.calls + |signals|
    ensures ActiveOf(RecordAll(c, source, signals, rec).0, source) == ActiveOf(c, source) + (set f | f in signals)
  {
    if signals != [] {
      var prefix, last := signals[..|signals| - 1], signals[|signals| - 1];
      assert signals == prefix + [last];
      WorkedSoFar(c, source, prefix, rec);
      RecordMarks(RecordAll(c, source, prefix, rec).0, source, last, rec);
    }
  }

  lemma RecordMarks(c: Cycle, source: string, f: string, rec: nat -> Recording)
    ensures RecordSignal(c, source, f, rec).0.calls == c.calls + 1
    ensures ActiveOf(RecordSignal(c, source, f, rec).0, source)
         == ActiveOf(c, source) + if rec(c.calls) == Unbuilt then {} else {f}
    ensures RecordSignal(c, source, f, rec).1 <==> rec(c.calls) == Works && StoredFingerprint(f) != ""
  {
  }

  lemma {:induction false} StoppedStaysStopped(
    c: Cycle, source: string, signals: seq<string>, n: nat, rec: nat -> Recording)
    requires n <= |signals| && !RecordAll(c, source, signals[..n], rec).1
    ensures RecordAll(c, source, signals, rec) == RecordAll(c, source, signals[..n], rec)
    decreases |signals|
  {
    if n == |signals| {
      assert signals[..n] == signals;
    } else {
      assert signals[..|signals| - 1][..n] == signals[..n];
      StoppedStaysStopped(c, source, signals[..|signals| - 1], n, rec);
    }
  }

  /** A recorder that raises at signal `f` leaves it and the signals before it active, and loses those after it; if the
      texts of `f` cannot be built, `f` is lost too. */
  lemma LaterSignalsAreLost(
    c: Cycle, source: string, done: seq<string>, f: string, lost: seq<string>, rec: nat -> Recording)
    requires WorksFor(rec, c.calls, c.calls + |done|) && rec(c.calls + |done|) != Works
    requires forall g | g in done :: StoredFingerprint(g) != ""
    ensures !RecordAll(c, source, done + [f] + lost, rec).1
    ensures ActiveOf(RecordAll(c, source, done + [f] + lost, rec).0, source)
         == ActiveOf(c, source) + (set g | g in done) + if rec(c.calls + |done|) == Unbuilt then {} else {f}
  {
    WorkedSoFar(c, source, done, rec);
    RecordMarks(RecordAll(c, source, done, rec).0, source, f, rec);
    RecordAllSnoc(c, source, done, f, rec);
    assert (done + [f] + lost)[..|done| + 1] == done + [f];
    StoppedStaysStopped(c, source, done + [f] + lost, |done| + 1, rec);
  }

  lemma RecordAllSnoc(c: Cycle, source: string, done: seq<string>, f: string, rec: nat -> Recording)
    requires RecordAll(c, source, done, rec).1
    ensures RecordAll(c, source, done + [f], rec) == RecordSignal(RecordAll(c, source, done, rec).0, source, f, rec)
  {
    assert (done + [f])[..|done|] == done;
  }

  lemma StoppedKeepsStore(c: Cycle, source: string, signals: seq<string>, rec: nat -> Recording)
    requires signals != [] && rec(c.calls) == RaisesBefore
    ensures RecordAll(c, source, signals, rec).0.store == c.store
        && RecordAll(c, source, signals, rec).0.scanned == c.scanned
  {
    assert signals[..1][..0] == [] && signals[..1] == [signals[0]];
    StoppedStaysStopped(c, source, signals, 1, rec);
  }

  function OnlySecurity(s: Security): Observation {
    Observation(Read(s), Unavailable, Unavailable, Unavailable, Unavailable, Elevated)
  }

  lemma OnlySecurityIs(store: Store, s: Security, rec: nat -> Recording)
    ensures var family := Family(Cycle(store, map[], {}, 0, 0), "security", Read(SecuritySignals(s)), rec);
      Probe(store, OnlySecurity(s), rec) == (Failed(Failed(Failed(family))), true)
  {
  }

  lemma SecondSignalIsLost(store: Store, first: string, second: string, rec: nat -> Recording)
    requires rec(0) == RaisesBefore
    ensures var after := Family(Cycle(store, map[], {}, 0, 0), "security", Read([first, second]), rec);
      after.store == store && after.scanned == {"security"} && ActiveOf(after, "security") == {first}
  {
    var start := Scanned(Cycle(store, map[], {}, 0, 0), "security");
    assert [first, second] == [] + [first] + [second];
    LaterSignalsAreLost(start, "security", [], first, [second], rec);
    StoppedKeepsStore(start, "security", [first, second], rec);
  }

  lemma WarningsIsNotAuthority()
    ensures WARNINGS != AUTHORITY && Cut(Strip("security"), 120) == "security"
  {
    assert WARNINGS[9] == 'p' && AUTHORITY[9] == 'e';
    TightIsStripped("security");
  }

  /** So with a recorder that raises once, a scan clears an open incident whose signal it has just seen. */
  lemma RaisingRecorderClears(store: Store, rec: nat -> Recording, order: seq<string>)
    requires rec(0) == RaisesBefore && Lists(order, {"security"})
    requires WARNINGS in store && store[WARNINGS] == Incident("security", Open, false)
    ensures ("security", WARNINGS) in Raised(OnlySecurity(Security(true, true)))
    ensures WARNINGS in Cycled(store, OnlySecurity(Security(true, true)), rec, order)
    ensures Cycled(store, OnlySecurity(Security(true, true)), rec, order)[WARNINGS].status == Resolved
  {
    var s := Security(true, true);
    WarningsIsNotAuthority();
    assert SecuritySignals(s) == [AUTHORITY, WARNINGS] && [AUTHORITY, WARNINGS][1] == WARNINGS;
    SecondSignalIsLost(store, AUTHORITY, WARNINGS, rec);
    OnlySecurityIs(store, s, rec);
    var c := Probe(store, OnlySecurity(s), rec).0;
    assert ActiveIn(c.active, "security") == {AUTHORITY};
    assert "security" in order && Inactive(c.store, WARNINGS, "security", ActiveIn(c.active, "security"));
    ResolveAllIs(c.store, order, c.active, WARNINGS);
  }

  // ---------- a telemetry outage ----------

  /** Neither a fingerprint nor a source of the bypass family. */
  predicate Foreign(s: string) {
    s != "" && s[0] != 'b' && !IsSpace(s[0])
  }

  lemma {:induction false} TrimKeepsHead(s: string)
    requires s != "" && !IsSpace(s[0])
    ensures TrimRight(s) != "" && TrimRight(s)[0] == s[0]
  {
    if |s| > 1 && IsSpace(s[|s| - 1]) {
      TrimKeepsHead(s[..|s| - 1]);
    }
  }

  lemma ForeignIsKeptForeign(s: string, bypass: string)
    requires Foreign(s) && bypass != "" && bypass[0] == 'b'
    ensures StoredFingerprint(s) != bypass && Cut(Strip(s), 120) != bypass
  {
    TrimKeepsHead(s);
  }

  /** The row is untouched and no scanned source can be the bypass source. */
  ghost predicate Untouched(c: Cycle, f: string, row: Incident) {
    f in c.store && c.store[f] == row && forall s | s in c.scanned :: Foreign(s)
  }

  lemma {:induction false} RecordAllLeaves(
    c: Cycle, source: string, signals: seq<string>, rec: nat -> Recording, f: string, row: Incident)
    requires Untouched(c, f, row) && f != "" && f[0] == 'b' && forall g | g in signals :: Foreign(g)
    ensures Untouched(RecordAll(c, source, signals, rec).0, f, row)
  {
    if signals != [] {
      var n := |signals| - 1;
      assert signals[n] in signals;
      RecordAllLeaves(c, source, signals[..n], rec, f, row);
      ForeignIsKeptForeign(signals[n], f);
    }
  }

  lemma FamilyLeaves(
    c: Cycle, source: string, seen: Seen<seq<string>>, rec: nat -> Recording, f: string, row: Incident)
    requires Untouched(c, f, row) && f != "" && f[0] == 'b' && Foreign(source)
    requires seen.Read? ==> forall g | g in seen.value :: Foreign(g)
    ensures Untouched(Family(c, source, seen, rec), f, row)
  {
    if seen.Read? {
      RecordAllLeaves(Scanned(c, source), source, seen.value, rec, f, row);
    }
  }

  lemma {:induction false} ServiceSignalsForeign(ip: string, services: seq<Service>)
    ensures forall g | g in ServiceSignals(ip, services) :: Foreign(g)
  {
    if services != [] {
      ServiceSignalsForeign(ip, services[1..]);
    }
  }

  lemma {:induction false} QuotasLeave(c: Cycle, devices: seq<Device>, rec: nat -> Recording, f: string, row: Incident)
    requires Untouched(c, f, row) && f != "" && f[0] == 'b'
    ensures Untouched(Quotas(c, devices, rec), f, row)
  {
    if devices != [] {
      var d := devices[|devices| - 1];
      QuotasLeave(c, devices[..|devices| - 1], rec, f, row);
      if d.ip != "" {
        if d.quota.Read? {
          ServiceSignalsForeign(d.ip, d.quota.value.services);
        }
        FamilyLeaves(Quotas(c, devices[..|devices| - 1], rec), "quota:" + d.ip, QuotaSeen(d), rec, f, row);
      }
    }
  }

  lemma FixedSignalsForeign(s: Security, r: Reconciler, p: Readiness)
    ensures forall g | g in SecuritySignals(s) + ReconcilerSignals(r) + ReadinessSignals(p) :: Foreign(g)
  {
  }

  lemma FixedLeaves(store: Store, o: Observation, rec: nat -> Recording, f: string)
    requires f in store && f != "" && f[0] == 'b'
    ensures Untouched(Fixed(store, o, rec), f, store[f])
  {
    var s, r, p := Signals(o.security, s => SecuritySignals(s)), Signals(o.reconciler, r => ReconcilerSignals(r)),
                   Signals(o.readiness, r => ReadinessSignals(r));
    forall x, y, z { FixedSignalsForeign(x, y, z); }
    var start := Cycle(store, map[], {}, 0, 0);
    FamilyLeaves(start, "security", s, rec, f, store[f]);
    var one := Family(start, "security", s, rec);
    FamilyLeaves(one, "reconciler", r, rec, f, store[f]);
    var two := Family(one, "reconciler", r, rec);
    FamilyLeaves(two, "operations", p, rec, f, store[f]);
  }

  /** While the bypass probe fails, or there is nobody to probe, a bypass incident is left exactly as it is,
      whatever else fails in the scan, the recorder included. */
  lemma OutageClearsNothing(store: Store, o: Observation, rec: nat -> Recording, order: seq<string>, f: string)
    requires f in store && f != "" && f[0] == 'b' && store[f].source == "bypass"
    requires HasManaged(DevicesOf(o)) ==> o.bypass.Unavailable?
    requires Lists(order, Probe(store, o, rec).0.scanned)
    ensures f in Cycled(store, o, rec, order) && Cycled(store, o, rec, order)[f] == store[f]
  {
    var devices := DevicesOf(o);
    var fixed := Fixed(store, o, rec);
    FixedLeaves(store, o, rec, f);
    ForeignIsKeptForeign(NO_TELEMETRY, f);
    var (c, goesOn) := Probe(store, o, rec);
    if goesOn {
      var bypass := if HasManaged(devices) then BypassFamily(fixed, BypassSeen(o), rec).0 else fixed;
      QuotasLeave(bypass, devices, rec, f, store[f]);
      ResolveAllIs(c.store, order, c.active, f);
      forall s | s in order ensures !Inactive(c.store, f, s, ActiveIn(c.active, s)) {
        ForeignIsKeptForeign(s, "bypass");
      }
    }
  }

  datatype Scan = Scan(observation: Observation, rec: nat -> Recording, order: seq<string>)

  function Scans(store: Store, history: seq<Scan>): Store {
    if history == [] then store else
    var n := |history| - 1;
    Cycled(Scans(store, history[..n]), history[n].observation, history[n].rec, history[n].order)
  }

  /** Every scan resolves exactly the sources it scanned. */
  ghost predicate IsHistory(store: Store, history: seq<Scan>) {
    history == []
    || (var n := |history| - 1;
        && IsHistory(store, history[..n])
        && Lists(history[n].order, Probe(Scans(store, history[..n]), history[n].observation, history[n].rec).0.scanned))
  }

  /** However long the outage lasts. */
  lemma {:induction false} LongOutageClearsNothing(store: Store, history: seq<Scan>, f: string)
    requires f in store && f != "" && f[0] == 'b' && store[f].source == "bypass"
    requires IsHistory(store, history)
    requires forall s | s in history :: HasManaged(DevicesOf(s.observation)) ==> s.observation.bypass.Unavailable?
    ensures f in Scans(store, history) && Scans(store, history)[f] == store[f]
  {
    if history != [] {
      var n := |history| - 1;
      assert forall s | s in history[..n] :: s in history;
      assert history[n] in history;
      LongOutageClearsNothing(store, history[..n], f);
      OutageClearsNothing(Scans(store, history[..n]), history[n].observation, history[n].rec, history[n].order, f);
    }
  }
}
