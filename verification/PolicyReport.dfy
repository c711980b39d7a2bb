/** The correlation report of app/policy_history.py, built on the policy timeline. Durations are integers. */
module PolicyReport {
  import opened Common
  import opened PolicyTimeline
  import Text

  /** Any other status text of the evidence counts as NoEvidence. */
  datatype Status = Measured | Partial | Unavailable | Inconsistent | NoEvidence
  datatype Usage = Usage(bytes: int, dnsBlocked: int, traffic: Status, dns: Status)
  datatype Identity = Identity(id: string, managedSince: Option<int>)
  datatype Buckets = Buckets(normal: int, slow: int, blocked: int, unknown: int)

  datatype Totals = Totals(
    knownTime: int, identityKnownTime: int,
    bytes: int, currentIdentityBytes: int, unprovenBytes: int, modeBytes: Buckets, dnsBlocked: int,
    stateChanges: nat, previousHash: Option<string>, traffic: seq<Status>, dns: seq<Status>)

  datatype Report = Report(intervals: seq<Interval>, totals: Totals, traffic: Status, dns: Status, telemetry: Status)

  const Nothing := Totals(0, 0, 0, 0, 0, Buckets(0, 0, 0, 0), 0, 0, None, [], [])
  const NoUsage := Usage(0, 0, NoEvidence, NoEvidence)

  // ---------- status aggregation ----------

  function CountUnavailable(statuses: seq<Status>): nat {
    if statuses == [] then 0 else (if statuses[0] == Unavailable then 1 else 0) + CountUnavailable(statuses[1..])
  }

  function SourceStatus(statuses: seq<Status>): Status {
    if statuses == [] then NoEvidence
    else if Inconsistent in statuses then Inconsistent
    else if CountUnavailable(statuses) == |statuses| then Unavailable
    else if CountUnavailable(statuses) > 0 then Partial
    else if Measured in statuses then Measured
    else if Partial in statuses then Partial
    else NoEvidence
  }

  function TelemetryStatus(traffic: Status, dns: Status): Status {
    var both := {traffic, dns};
    if Inconsistent in both then Inconsistent
    else if both == {Unavailable} then Unavailable
    else if Unavailable in both || Partial in both then Partial
    else if Measured in both then Measured
    else NoEvidence
  }

  lemma {:induction false} CountUnavailableRange(statuses: seq<Status>)
    ensures CountUnavailable(statuses) <= |statuses|
    ensures CountUnavailable(statuses) == |statuses| <==> forall s | s in statuses :: s == Unavailable
    ensures CountUnavailable(statuses) > 0 <==> Unavailable in statuses
  {
    if statuses != [] {
      var rest := statuses[1..];
      CountUnavailableRange(rest);
      assert statuses == [statuses[0]] + rest;
      assert forall s | s in statuses :: s == statuses[0] || s in rest;
      assert statuses[0] in statuses && forall s | s in rest :: s in statuses;
    }
  }

  /** Only which statuses occur matters, not their order or number. */
  lemma SourceStatusIgnoresOrder(a: seq<Status>, b: seq<Status>)
    requires forall s :: s in a <==> s in b
    ensures SourceStatus(a) == SourceStatus(b)
  {
    CountUnavailableRange(a);
    CountUnavailableRange(b);
    assert a != [] ==> a[0] in b;
    assert b != [] ==> b[0] in a;
  }

  /** Traffic and DNS together read as measured only if no interval of either was unavailable or inconsistent. */
  lemma MeasuredNeedsEverySource(traffic: seq<Status>, dns: seq<Status>)
    requires TelemetryStatus(SourceStatus(traffic), SourceStatus(dns)) == Measured
    ensures forall s | s in traffic || s in dns :: s != Unavailable && s != Inconsistent
    ensures Measured in traffic || Measured in dns
  {
    CountUnavailableRange(traffic);
    CountUnavailableRange(dns);
  }

  // ---------- one interval ----------

  function Bucket(mode: string): string {
    var lower := Text.Lower(mode);
    if lower == "normal" || lower == "slow" || lower == "blocked" then lower else "unknown"
  }

  function Put(buckets: Buckets, key: string, bytes: int): Buckets {
    if key == "normal" then buckets.(normal := buckets.normal + bytes)
    else if key == "slow" then buckets.(slow := buckets.slow + bytes)
    else if key == "blocked" then buckets.(blocked := buckets.blocked + bytes)
    else buckets.(unknown := buckets.unknown + bytes)
  }

  function KeyOf(mark: Label): string {
    match mark case Known(state) => Bucket(state.mode) case _ => "unknown"
  }

  function UsageAt(usage: map<int, Usage>, index: int): Usage {
    if index in usage then usage[index] else NoUsage
  }

  function Duration(item: Interval): nat {
    if item.start < item.end then item.end - item.start else 0
  }

  function Step(t: Totals, item: Interval, u: Usage): Totals {
    var proven := item.mark != IdentityUnproven;
    Totals(
      t.knownTime + if item.mark.Known? then Duration(item) else 0,
      t.identityKnownTime + if proven then Duration(item) else 0,
      t.bytes + u.bytes,
      t.currentIdentityBytes + if proven then u.bytes else 0,
      t.unprovenBytes + if proven then 0 else u.bytes,
      Put(t.modeBytes, KeyOf(item.mark), u.bytes),
      t.dnsBlocked + u.dnsBlocked,
      t.stateChanges
      + (if item.mark.Known? && t.previousHash.Some? && item.mark.state.hash != t.previousHash.value then 1 else 0),
      if item.mark.Known? then Some(item.mark.state.hash) else t.previousHash,
      t.traffic + [u.traffic],
      t.dns + [u.dns])
  }

  function Tally(items: seq<Interval>, usage: map<int, Usage>): Totals {
    if items == [] then Nothing
    else Step(Tally(items[..|items| - 1], usage), items[|items| - 1], UsageAt(usage, |items| - 1))
  }

  /** `usage_by_index`: a later row for the same index wins. */
  function ByIndex(rows: seq<(int, Usage)>): map<int, Usage> {
    if rows == [] then map[] else ByIndex(rows[..|rows| - 1])[rows[|rows| - 1].0 := rows[|rows| - 1].1]
  }

  /** With an identity, only checkpoints recorded for that identity count. */
  function Scoped(history: seq<Checkpoint>, id: string): seq<Checkpoint> {
    if id == "" || history == [] then history else
    var last := history[|history| - 1];
    Scoped(history[..|history| - 1], id) + if last.identity == id then [last] else []
  }

  // ---------- conservation ----------

  ghost predicate Conserved(t: Totals) {
    && t.bytes == t.currentIdentityBytes + t.unprovenBytes
    && t.bytes == t.modeBytes.normal + t.modeBytes.slow + t.modeBytes.blocked + t.modeBytes.unknown
    && t.knownTime <= t.identityKnownTime
  }

  lemma {:induction false} TallyConserves(items: seq<Interval>, usage: map<int, Usage>)
    ensures Conserved(Tally(items, usage))
  {
    if items != [] {
      TallyConserves(items[..|items| - 1], usage);
    }
  }

  /** The bytes of the intervals whose policy falls in one bucket. */
  function BytesUnder(items: seq<Interval>, usage: map<int, Usage>, key: string): int {
    if items == [] then 0 else
    var n := |items| - 1;
    BytesUnder(items[..n], usage, key) + if KeyOf(items[n].mark) == key then UsageAt(usage, n).bytes else 0
  }

  lemma {:induction false} BucketsAreExact(items: seq<Interval>, usage: map<int, Usage>)
    ensures Tally(items, usage).modeBytes
         == Buckets(BytesUnder(items, usage, "normal"), BytesUnder(items, usage, "slow"),
                    BytesUnder(items, usage, "blocked"), BytesUnder(items, usage, "unknown"))
  {
    if items != [] {
      BucketsAreExact(items[..|items| - 1], usage);
    }
  }

  // ---------- time ----------

  /** How many of the instants `from <= t < until` the pointwise rule knows a policy for. */
  ghost function KnownInstants(history: seq<Checkpoint>, identityStart: Option<int>, from: int, until: int): nat
    decreases until - from
  {
    if until <= from then 0 else
    var before := KnownInstants(history, identityStart, from, until - 1);
    before + if LabelAt(history, identityStart, until - 1).Known? then 1 else 0
  }

  /** The part of `[from, until)` at or after the identity start. */
  function AfterIdentity(identityStart: Option<int>, from: int, until: int): nat {
    var begin := if identityStart.Some? && identityStart.value > from then identityStart.value else from;
    if begin < until then until - begin else 0
  }

  lemma {:induction false} UniformCount(
    history: seq<Checkpoint>, identityStart: Option<int>, from: int, mid: int, until: int, mark: Label)
    requires from <= mid <= until
    requires forall t | mid <= t < until :: LabelAt(history, identityStart, t) == mark
    ensures KnownInstants(history, identityStart, from, until)
         == KnownInstants(history, identityStart, from, mid) + if mark.Known? then until - mid else 0
    decreases until - mid
  {
    if mid < until {
      UniformCount(history, identityStart, from, mid, until - 1, mark);
      assert LabelAt(history, identityStart, until - 1) == mark;
    }
  }

  lemma TilesPrefix(
    items: seq<Interval>, start: int, end: int, history: seq<Checkpoint>, identityStart: Option<int>)
    requires items != [] && Tiles(items, start, end, history, identityStart)
    ensures Tiles(items[..|items| - 1], start, items[|items| - 1].start, history, identityStart)
  {
  }

  lemma {:induction false} TilesForward(
    items: seq<Interval>, start: int, end: int, history: seq<Checkpoint>, identityStart: Option<int>)
    requires Tiles(items, start, end, history, identityStart)
    ensures start <= end
  {
    if items != [] {
      TilesPrefix(items, start, end, history, identityStart);
      TilesForward(items[..|items| - 1], start, items[|items| - 1].start, history, identityStart);
    }
  }

  lemma {:induction false} TimesAreExact(
    items: seq<Interval>, usage: map<int, Usage>, start: int, end: int,
    history: seq<Checkpoint>, identityStart: Option<int>)
    requires Tiles(items, start, end, history, identityStart)
    ensures Tally(items, usage).knownTime == KnownInstants(history, identityStart, start, end)
    ensures Tally(items, usage).identityKnownTime == AfterIdentity(identityStart, start, end)
  {
    if items != [] {
      var last := items[|items| - 1];
      TilesPrefix(items, start, end, history, identityStart);
      TilesForward(items[..|items| - 1], start, last.start, history, identityStart);
      TimesAreExact(items[..|items| - 1], usage, start, last.start, history, identityStart);
      UniformCount(history, identityStart, start, last.start, end, last.mark);
      assert last.mark == LabelAt(history, identityStart, last.start) == LabelAt(history, identityStart, last.end - 1);
    }
  }

  // ---------- state changes ----------

  /** Neighbouring intervals that both carry a checkpoint, with different state hashes. */
  function Changes(items: seq<Interval>): nat {
    if |items| < 2 then 0 else
    var a, b := items[|items| - 2].mark, items[|items| - 1].mark;
    Changes(items[..|items| - 1]) + if a.Known? && b.Known? && a.state.hash != b.state.hash then 1 else 0
  }

  lemma {:induction false} OnceObserved(history: seq<Checkpoint>, t: int, later: int)
    requires t <= later && LastAt(history, t).Some?
    ensures LastAt(history, later).Some?
  {
    if history != [] {
      var x := history[|history| - 1];
      if x.at > t {
        OnceObserved(history[..|history| - 1], t, later);
      } else if LastAt(history[..|history| - 1], t).Some? {
        OnceObserved(history[..|history| - 1], t, later);
      }
    }
  }

  /** Gaps come only before the first checkpoint, so comparing with the last hash seen compares neighbours. */
  lemma {:induction false} ChangesAreNeighbours(
    items: seq<Interval>, usage: map<int, Usage>, start: int, end: int,
    history: seq<Checkpoint>, identityStart: Option<int>)
    requires Tiles(items, start, end, history, identityStart)
    ensures Tally(items, usage).stateChanges == Changes(items)
    ensures Tally(items, usage).previousHash
         == if items != [] && items[|items| - 1].mark.Known? then Some(items[|items| - 1].mark.state.hash) else None
  {
    if items != [] {
      var n := |items| - 1;
      TilesPrefix(items, start, end, history, identityStart);
      ChangesAreNeighbours(items[..n], usage, start, items[n].start, history, identityStart);
      if n > 0 && items[n - 1].mark.Known? {
        assert items[n - 1].mark == LabelAt(history, identityStart, items[n - 1].start);
        OnceObserved(history, items[n - 1].start, items[n].start);
        assert items[n].mark == LabelAt(history, identityStart, items[n].start);
      }
    }
  }

  // ---------- scope ----------

  lemma {:induction false} ScopedOnly(history: seq<Checkpoint>, id: string)
    ensures forall x :: x in Scoped(history, id) <==> x in history && (id == "" || x.identity == id)
  {
    if id != "" && history != [] {
      ScopedOnly(history[..|history| - 1], id);
      assert history == history[..|history| - 1] + [history[|history| - 1]];
    }
  }

  /** No interval of an identity's report carries a checkpoint of another identity. */
  lemma NoForeignPolicy(items: seq<Interval>, start: int, end: int, history: seq<Checkpoint>, identity: Identity)
    requires identity.id != "" && Tiles(items, start, end, Scoped(history, identity.id), identity.managedSince)
    ensures forall i | 0 <= i < |items| && items[i].mark.Known? ::
              items[i].mark.state in history && items[i].mark.state.identity == identity.id
  {
    var scoped := Scoped(history, identity.id);
    forall i | 0 <= i < |items| && items[i].mark.Known?
      ensures items[i].mark.state in history && items[i].mark.state.identity == identity.id
    {
      assert items[i].mark == LabelAt(scoped, identity.managedSince, items[i].start);
      LastAtFromPrefix(scoped, items[i].start);
      ScopedOnly(history, identity.id);
    }
  }

  // ---------- the report ----------

  ghost predicate Sound(
    r: Report, history: seq<Checkpoint>, usage: map<int, Usage>, start: int, end: int, identity: Identity)
  {
    var scoped := Scoped(history, identity.id);
    && Tiles(r.intervals, start, end, scoped, identity.managedSince)
    && Conserved(r.totals)
    && r.totals.modeBytes.normal == BytesUnder(r.intervals, usage, "normal")
    && r.totals.modeBytes.slow == BytesUnder(r.intervals, usage, "slow")
    && r.totals.modeBytes.blocked == BytesUnder(r.intervals, usage, "blocked")
    && r.totals.modeBytes.unknown == BytesUnder(r.intervals, usage, "unknown")
    && r.totals.knownTime == KnownInstants(scoped, identity.managedSince, start, end)
    && r.totals.identityKnownTime == AfterIdentity(identity.managedSince, start, end)
    && r.totals.stateChanges == Changes(r.intervals)
    && (identity.id != "" ==>
        forall i | 0 <= i < |r.intervals| && r.intervals[i].mark.Known? ::
          r.intervals[i].mark.state in history && r.intervals[i].mark.state.identity == identity.id)
  }

  /** None models the ValueError for an empty range. */
  method BuildReport(
    history: seq<Checkpoint>, usage: seq<(int, Usage)>, start: int, end: int, identity: Identity)
    returns (report: Option<Report>)
    ensures report.None? <==> end <= start
    ensures report.Some? ==>
      && Sound(report.value, history, ByIndex(usage), start, end, identity)
      && report.value.totals == Tally(report.value.intervals, ByIndex(usage))
      && report.value.traffic == SourceStatus(report.value.totals.traffic)
      && report.value.dns == SourceStatus(report.value.totals.dns)
      && report.value.telemetry == TelemetryStatus(report.value.traffic, report.value.dns)
  {
    var scoped := Scoped(history, identity.id);
    var outcome := BuildIntervals(scoped, start, end, identity.managedSince);
    if outcome.EmptyRange? {
      return None;
    }
    var items := outcome.items;
    var table := IndexUsage(usage);
    var totals := TallyIntervals(items, table);
    TallyConserves(items, table);
    BucketsAreExact(items, table);
    TimesAreExact(items, table, start, end, scoped, identity.managedSince);
    ChangesAreNeighbours(items, table, start, end, scoped, identity.managedSince);
    if identity.id != "" {
      NoForeignPolicy(items, start, end, history, identity);
    }
    var traffic, dns := SourceStatus(totals.traffic), SourceStatus(totals.dns);
    report := Some(Report(items, totals, traffic, dns, TelemetryStatus(traffic, dns)));
  }

  method TallyIntervals(items: seq<Interval>, usage: map<int, Usage>) returns (totals: Totals)
    ensures totals == Tally(items, usage)
  {
    totals := Nothing;
    for k := 0 to |items|
      invariant totals == Tally(items[..k], usage)
    {
      assert items[..k + 1][..k] == items[..k];
      totals := AddInterval(totals, items[k], UsageAt(usage, k));
    }
    assert items[..|items|] == items;
  }

  method AddInterval(before: Totals, item: Interval, evidence: Usage) returns (totals: Totals)
    ensures totals == Step(before, item, evidence)
  {
    totals := before;
    var duration := Duration(item);
    totals := totals.(
      traffic := totals.traffic + [evidence.traffic], dns := totals.dns + [evidence.dns],
      bytes := totals.bytes + evidence.bytes, dnsBlocked := totals.dnsBlocked + evidence.dnsBlocked);
    if item.mark != IdentityUnproven {
      totals := totals.(
        identityKnownTime := totals.identityKnownTime + duration,
        currentIdentityBytes := totals.currentIdentityBytes + evidence.bytes);
    } else {
      totals := totals.(unprovenBytes := totals.unprovenBytes + evidence.bytes);
    }
    if item.mark.Known? {
      var state := item.mark.state;
      totals := totals.(
        knownTime := totals.knownTime + duration,
        modeBytes := Put(totals.modeBytes, Bucket(state.mode), evidence.bytes));
      if totals.previousHash.Some? && state.hash != totals.previousHash.value {
        totals := totals.(stateChanges := totals.stateChanges + 1);
      }
      totals := totals.(previousHash := Some(state.hash));
    } else {
      totals := totals.(modeBytes := Put(totals.modeBytes, "unknown", evidence.bytes));
    }
  }

  method IndexUsage(rows: seq<(int, Usage)>) returns (table: map<int, Usage>)
    ensures table == ByIndex(rows)
  {
    table := map[];
    for k := 0 to |rows|
      invariant table == ByIndex(rows[..k])
    {
      assert rows[..k + 1][..k] == rows[..k];
      table := table[rows[k].0 := rows[k].1];
    }
    assert rows[..|rows|] == rows;
  }
}
