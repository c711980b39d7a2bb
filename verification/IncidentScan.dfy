/** run_cycle of app/incidents.py over the incident table of app/policy_store.py: one scan, as functions. */
module IncidentScan {
  import opened Text

  datatype Status = Open | Resolved
  datatype Incident = Incident(source: string, status: Status, suppressed: bool)
  type Store = map<string, Incident>

  // ---------- the table ----------

  function Cut(s: string, limit: nat): string {
    if |s| > limit then s[..limit] else s
  }

  /** The table keeps fingerprints and sources trimmed and cut. */
  function StoredFingerprint(f: string): string { Cut(Strip(f), 240) }

  function StoredSource(s: string): string {
    var kept := Cut(Strip(s), 120);
    if kept == "" then "unknown" else kept
  }

  /** A suppressed row stays resolved until its signal clears once. */
  function Upsert(store: Store, f: string, source: string): Store {
    var kept, from := StoredFingerprint(f), StoredSource(source);
    if kept !in store then store[kept := Incident(from, Open, false)]
    else if store[kept].status == Resolved && store[kept].suppressed then store[kept := store[kept].(source := from)]
    else if store[kept].status == Resolved then store[kept := Incident(from, Open, false)]
    else store[kept := store[kept].(source := from)]
  }

  /** A row of a scanned source whose fingerprint is not among the raw active ones. */
  predicate Inactive(store: Store, f: string, source: string, active: set<string>) {
    f in store && Cut(Strip(source), 120) != "" && store[f].source == Cut(Strip(source), 120) && f !in active
  }

  function ResolveInactive(store: Store, source: string, active: set<string>): Store {
    map f | f in store ::
      if Inactive(store, f, source, active) then store[f].(status := Resolved, suppressed := false) else store[f]
  }

  // ---------- what the probes see ----------

  datatype Seen<T> = Unavailable | Read(value: T)
  datatype Security = Security(criticalFailed: bool, warned: bool)
  datatype Reconciler = Reconciler(hold: bool, last: string)
  datatype Readiness = Readiness(ok: bool, issues: seq<string>)
  datatype Risk = Clear | Watch | Elevated | High
  datatype Service = Service(key: string, warning: bool, exhausted: bool)
  datatype Quota = Quota(
    configured: bool, enabled: bool, available: bool, exhausted: bool, warning: bool, services: seq<Service>)
  datatype Device = Device(ip: string, quota: Seen<Quota>)

  datatype Observation = Observation(
    security: Seen<Security>, reconciler: Seen<Reconciler>, readiness: Seen<Readiness>,
    devices: Seen<seq<Device>>, bypass: Seen<seq<(string, Risk)>>, threshold: Risk)

  const AUTHORITY := "security:enforcement-authority"
  const WARNINGS := "security:posture-warnings"
  const NO_TELEMETRY := "telemetry:bypass-unavailable"

  function SecuritySignals(s: Security): seq<string> {
    (if s.criticalFailed then [AUTHORITY] else []) + (if s.warned then [WARNINGS] else [])
  }

  function ReconcilerSignals(r: Reconciler): seq<string> {
    (if r.hold then ["reconciler:cooldown-hold"] else [])
    + (if r.last == "security_hold" then ["reconciler:security-hold"]
       else if r.last == "failed" then ["reconciler:last-cycle-failed"]
       else [])
  }

  /** A closed security gate alone is not reported a second time. */
  function ReadinessSignals(r: Readiness): seq<string> {
    if !r.ok && exists issue | issue in r.issues :: issue != "RouterOS enforcement posture"
    then ["operations:not-ready"] else []
  }

  function RiskRank(r: Risk): nat {
    match r case Clear => 0 case Watch => 1 case Elevated => 2 case High => 3
  }

  function BypassSignals(scores: seq<(string, Risk)>, threshold: Risk): seq<string> {
    if scores == [] then [] else
    (if RiskRank(scores[0].1) < RiskRank(threshold) then [] else ["bypass:" + scores[0].0])
    + BypassSignals(scores[1..], threshold)
  }

  function ServiceSignals(ip: string, services: seq<Service>): seq<string> {
    if services == [] then [] else
    (if services[0].warning || services[0].exhausted then ["quota:" + ip + ":service:" + services[0].key] else [])
    + ServiceSignals(ip, services[1..])
  }

  function QuotaSignals(ip: string, q: Quota): seq<string> {
    if !q.configured then []
    else if q.enabled && !q.available then ["quota:" + ip + ":telemetry"]
    else (if q.exhausted || q.warning then ["quota:" + ip + ":daily"] else []) + ServiceSignals(ip, q.services)
  }

  // ---------- recording ----------

  /** How the recording of one signal goes: its texts cannot be built and nothing is marked, or the recorder raises
      before or after the row is written, or it works. */
  datatype Recording = Works | Unbuilt | RaisesBefore | RaisesAfter

  datatype Cycle = Cycle(store: Store, active: map<string, set<string>>, scanned: set<string>, calls: nat, errors: nat)

  function ActiveOf(c: Cycle, source: string): set<string> {
    if source in c.active then c.active[source] else {}
  }

  /** The texts are built before the call; in it the fingerprint is active before the row is written. */
  function RecordSignal(c: Cycle, source: string, f: string, rec: nat -> Recording): (Cycle, bool) {
    var marked := c.(active := c.active[source := ActiveOf(c, source) + {f}], calls := c.calls + 1);
    if rec(c.calls) == Unbuilt then (c.(calls := c.calls + 1), false)
    else if StoredFingerprint(f) == "" || rec(c.calls) == RaisesBefore then (marked, false)
    else (marked.(store := Upsert(c.store, f, source)), rec(c.calls) == Works)
  }

  function RecordAll(c: Cycle, source: string, signals: seq<string>, rec: nat -> Recording): (Cycle, bool) {
    if signals == [] then (c, true) else
    var (before, ok) := RecordAll(c, source, signals[..|signals| - 1], rec);
    if ok then RecordSignal(before, source, signals[|signals| - 1], rec) else (before, false)
  }

  function Failed(c: Cycle): Cycle {
    c.(errors := c.errors + 1)
  }

  function Scanned(c: Cycle, source: string): Cycle {
    c.(scanned := c.scanned + {source})
  }

  /** One `try` block: the source counts as scanned as soon as its probe has answered. */
  function Family(c: Cycle, source: string, seen: Seen<seq<string>>, rec: nat -> Recording): Cycle {
    match seen
    case Unavailable => Failed(c)
    case Read(signals) =>
      var (after, ok) := RecordAll(Scanned(c, source), source, signals, rec);
      if ok then after else Failed(after)
  }

  /** The bypass block records its own failure; if that raises too, the whole cycle stops. */
  function BypassFamily(c: Cycle, seen: Seen<seq<string>>, rec: nat -> Recording): (Cycle, bool) {
    var (after, ok) :=
      match seen
      case Unavailable => (c, false)
      case Read(signals) => RecordAll(Scanned(c, "bypass"), "bypass", signals, rec);
    if ok then (Scanned(after, "telemetry"), true)
    else RecordSignal(Failed(after), "telemetry", NO_TELEMETRY, rec)
  }

  function Quotas(c: Cycle, devices: seq<Device>, rec: nat -> Recording): Cycle {
    if devices == [] then c else
    var before, d := Quotas(c, devices[..|devices| - 1], rec), devices[|devices| - 1];
    if d.ip == "" then before else Family(before, "quota:" + d.ip, Signals(d.quota, q => QuotaSignals(d.ip, q)), rec)
  }

  function Signals<T>(seen: Seen<T>, read: T -> seq<string>): Seen<seq<string>> {
    match seen case Unavailable => Unavailable case Read(value) => Read(read(value))
  }

  function DevicesOf(o: Observation): seq<Device> {
    if o.devices.Read? then o.devices.value else []
  }

  predicate HasManaged(devices: seq<Device>) {
    exists d | d in devices :: d.ip != ""
  }

  function BypassSeen(o: Observation): Seen<seq<string>> {
    Signals(o.bypass, scores => BypassSignals(scores, o.threshold))
  }

  function Fixed(store: Store, o: Observation, rec: nat -> Recording): Cycle {
    var start := Cycle(store, map[], {}, 0, 0);
    var security := Family(start, "security", Signals(o.security, s => SecuritySignals(s)), rec);
    var reconciler := Family(security, "reconciler", Signals(o.reconciler, r => ReconcilerSignals(r)), rec);
    var operations := Family(reconciler, "operations", Signals(o.readiness, r => ReadinessSignals(r)), rec);
    if o.devices.Unavailable? then Failed(operations) else operations
  }

  /** Everything up to the auto-resolution; false when the cycle was stopped by an exception. */
  function Probe(store: Store, o: Observation, rec: nat -> Recording): (Cycle, bool) {
    var fixed, devices := Fixed(store, o, rec), DevicesOf(o);
    var (bypass, goesOn) := if HasManaged(devices) then BypassFamily(fixed, BypassSeen(o), rec) else (fixed, true);
    if goesOn then (Quotas(bypass, devices, rec), true) else (bypass, false)
  }

  function ResolveAll(store: Store, sources: seq<string>, active: map<string, set<string>>): Store {
    if sources == [] then store else
    var n := |sources| - 1;
    ResolveInactive(ResolveAll(store, sources[..n], active), sources[n],
                    if sources[n] in active then active[sources[n]] else {})
  }
}
