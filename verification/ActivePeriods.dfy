/** active_periods of app/activity.py: five-minute buckets become sessions. Times are minutes. */
module ActivePeriods {
  import opened Common

  datatype Row = Row(bucket: Option<int>, bytes: int, flows: int)
  datatype Bucket = Bucket(when: int, bytes: int, flows: int)
  datatype Period = Period(start: int, end: int, last: int, bytes: int, flows: int, buckets: nat)
  datatype Session = Session(start: int, end: int, minutes: int, bytes: int, flows: int)

  function Clamped(gapMinutes: int): (gap: int)
    ensures 10 <= gap <= 120
  {
    if gapMinutes < 10 then 10 else if gapMinutes > 120 then 120 else gapMinutes
  }

  /** Rows without a bucket time are skipped. */
  function Timed(rows: seq<Row>): seq<Bucket> {
    if rows == [] then [] else
    var last := rows[|rows| - 1];
    Timed(rows[..|rows| - 1]) + if last.bucket.Some? then [Bucket(last.bucket.value, last.bytes, last.flows)] else []
  }

  // ---------- the grouping ----------

  type Group = g: seq<Bucket> | g != [] witness [Bucket(0, 0, 0)]

  function Flat(groups: seq<Group>): seq<Bucket> {
    if groups == [] then [] else Flat(groups[..|groups| - 1]) + groups[|groups| - 1]
  }

  function LastWhen(group: Group): int {
    group[|group| - 1].when
  }

  /** No two neighbours of a group are further apart than the gap. */
  predicate Joined(group: Group, gap: int) {
    var n := |group| - 1;
    n == 0 || (Joined(group[..n], gap) && group[n].when - group[n - 1].when <= gap)
  }

  /** Every group is joined, and neighbouring groups are further apart than the gap. */
  predicate Split(groups: seq<Group>, gap: int) {
    var n := |groups| - 1;
    groups == []
    || (Split(groups[..n], gap) && Joined(groups[n], gap)
        && (n > 0 ==> groups[n][0].when - LastWhen(groups[n - 1]) > gap))
  }

  function Extend(groups: seq<Group>, b: Bucket, gap: int): seq<Group> {
    if groups == [] || b.when - LastWhen(groups[|groups| - 1]) > gap then groups + [[b]]
    else groups[..|groups| - 1] + [groups[|groups| - 1] + [b]]
  }

  function Groups(buckets: seq<Bucket>, gap: int): seq<Group> {
    if buckets == [] then [] else Extend(Groups(buckets[..|buckets| - 1], gap), buckets[|buckets| - 1], gap)
  }

  lemma SplitSnoc(groups: seq<Group>, g: Group, gap: int)
    ensures Flat(groups + [g]) == Flat(groups) + g
    ensures Split(groups + [g], gap) <==>
            Split(groups, gap) && Joined(g, gap) && (groups != [] ==> g[0].when - LastWhen(groups[|groups| - 1]) > gap)
  {
    assert (groups + [g])[..|groups|] == groups;
  }

  lemma ExtendKeeps(groups: seq<Group>, b: Bucket, gap: int)
    requires Split(groups, gap)
    ensures Split(Extend(groups, b, gap), gap) && Flat(Extend(groups, b, gap)) == Flat(groups) + [b]
  {
    SplitSnoc(groups, [b], gap);
    if groups != [] {
      var n := |groups| - 1;
      var last := groups[n];
      assert groups == groups[..n] + [last] && (last + [b])[..|last|] == last;
      SplitSnoc(groups[..n], last + [b], gap);
    }
  }

  /** The groups cut the buckets exactly where two neighbours are further apart than the gap, and lose none. */
  lemma {:induction false} GroupsAreSplit(buckets: seq<Bucket>, gap: int)
    ensures Split(Groups(buckets, gap), gap) && Flat(Groups(buckets, gap)) == buckets
  {
    if buckets != [] {
      var n := |buckets| - 1;
      GroupsAreSplit(buckets[..n], gap);
      ExtendKeeps(Groups(buckets[..n], gap), buckets[n], gap);
    }
  }

  lemma UnsplitLast(groups: seq<Group>, gap: int) returns (shorter: seq<Group>, b: Bucket)
    requires groups != [] && Split(groups, gap)
    ensures Flat(groups) == Flat(shorter) + [b] && Split(shorter, gap) && Extend(shorter, b, gap) == groups
  {
    var n := |groups| - 1;
    var last := groups[n];
    var m := |last| - 1;
    b := last[m];
    assert groups == groups[..n] + [last] && last == last[..m] + [b];
    SplitSnoc(groups[..n], last, gap);
    if m == 0 {
      shorter := groups[..n];
    } else {
      shorter := groups[..n] + [last[..m]];
      SplitSnoc(groups[..n], last[..m], gap);
      assert shorter[..n] == groups[..n];
    }
  }

  /** There is only one way to cut the buckets like that, so the rule says everything about the split. */
  lemma {:induction false} SplitIsUnique(groups: seq<Group>, gap: int)
    requires Split(groups, gap)
    ensures groups == Groups(Flat(groups), gap)
    decreases |Flat(groups)|
  {
    if groups != [] {
      var shorter, b := UnsplitLast(groups, gap);
      assert Flat(groups)[..|Flat(shorter)|] == Flat(shorter);
      SplitIsUnique(shorter, gap);
    }
  }

  // ---------- the periods ----------

  function Bytes(buckets: seq<Bucket>): int {
    if buckets == [] then 0 else Bytes(buckets[..|buckets| - 1]) + buckets[|buckets| - 1].bytes
  }

  function Flows(buckets: seq<Bucket>): int {
    if buckets == [] then 0 else Flows(buckets[..|buckets| - 1]) + buckets[|buckets| - 1].flows
  }

  function PeriodOf(group: Group): Period {
    var last := LastWhen(group);
    Period(group[0].when, last + 5, last, Bytes(group), Flows(group), |group|)
  }

  function Periods(groups: seq<Group>): (periods: seq<Period>)
    ensures |periods| == |groups|
  {
    seq(|groups|, i requires 0 <= i < |groups| => PeriodOf(groups[i]))
  }

  predicate Ordered(buckets: seq<Bucket>) {
    forall i, j | 0 <= i < j < |buckets| :: buckets[i].when < buckets[j].when
  }

  function TotalBytes(periods: seq<Period>): int {
    if periods == [] then 0 else TotalBytes(periods[..|periods| - 1]) + periods[|periods| - 1].bytes
  }

  function TotalFlows(periods: seq<Period>): int {
    if periods == [] then 0 else TotalFlows(periods[..|periods| - 1]) + periods[|periods| - 1].flows
  }

  lemma {:induction false} BytesConcat(a: seq<Bucket>, b: seq<Bucket>)
    ensures Bytes(a + b) == Bytes(a) + Bytes(b) && Flows(a + b) == Flows(a) + Flows(b)
  {
    if b == [] {
      assert a + b == a;
    } else {
      BytesConcat(a, b[..|b| - 1]);
      assert (a + b)[..|a + b| - 1] == a + b[..|b| - 1];
    }
  }

  /** Bytes and flows are conserved by the grouping. */
  lemma {:induction false} NothingIsLost(groups: seq<Group>)
    ensures TotalBytes(Periods(groups)) == Bytes(Flat(groups)) && TotalFlows(Periods(groups)) == Flows(Flat(groups))
  {
    if groups != [] {
      var n := |groups| - 1;
      NothingIsLost(groups[..n]);
      assert Periods(groups)[..n] == Periods(groups[..n]);
      BytesConcat(Flat(groups[..n]), groups[n]);
    }
  }

  lemma OrderedParts(a: seq<Bucket>, b: seq<Bucket>)
    requires Ordered(a + b)
    ensures Ordered(a) && Ordered(b)
  {
    assert forall i | 0 <= i < |a| :: (a + b)[i] == a[i];
    assert forall i | 0 <= i < |b| :: (a + b)[|a| + i] == b[i];
  }

  /** On ordered buckets the periods are disjoint: the gap is at least ten minutes and a bucket lasts five. */
  lemma {:induction false} PeriodsAreDisjoint(groups: seq<Group>, gap: int)
    requires gap >= 10 && Split(groups, gap) && Ordered(Flat(groups))
    ensures var periods := Periods(groups);
      && (forall i | 0 <= i < |periods| :: periods[i].start < periods[i].end)
      && (forall i, j | 0 <= i < j < |periods| :: periods[i].end < periods[j].start)
  {
    if groups != [] {
      var n := |groups| - 1;
      OrderedParts(Flat(groups[..n]), groups[n]);
      PeriodsAreDisjoint(groups[..n], gap);
      var before, periods := Periods(groups[..n]), Periods(groups);
      assert forall i | 0 <= i < n :: periods[i] == before[i];
      assert groups[n][0].when <= LastWhen(groups[n]);
      if n > 0 {
        assert before[n - 1].end == LastWhen(groups[n - 1]) + 5 < groups[n][0].when == periods[n].start;
        assert forall i | 0 <= i < n - 1 :: before[i].end < before[n - 1].start < before[n - 1].end;
      }
    }
  }

  /** What the caller is promised about the full list of periods. */
  lemma PeriodsOfBuckets(buckets: seq<Bucket>, gapMinutes: int)
    requires Ordered(buckets)
    ensures var periods := Periods(Groups(buckets, Clamped(gapMinutes)));
      && (forall i, j | 0 <= i < j < |periods| :: periods[i].end < periods[j].start)
      && TotalBytes(periods) == Bytes(buckets) && TotalFlows(periods) == Flows(buckets)
  {
    var groups := Groups(buckets, Clamped(gapMinutes));
    GroupsAreSplit(buckets, Clamped(gapMinutes));
    PeriodsAreDisjoint(groups, Clamped(gapMinutes));
    NothingIsLost(groups);
  }

  // ---------- the loop ----------

  /** Python's `periods[-limit:]`. */
  function Tail<T>(s: seq<T>, limit: int): (r: seq<T>)
    ensures limit >= 1 ==> r == s[if limit < |s| then |s| - limit else 0..]
  {
    if limit > 0 then s[if limit < |s| then |s| - limit else 0..]
    else if -limit < |s| then s[-limit..]
    else []
  }

  function Reversed<T>(s: seq<T>): (r: seq<T>)
    ensures |r| == |s| && forall i | 0 <= i < |s| :: r[i] == s[|s| - 1 - i]
  {
    seq(|s|, i requires 0 <= i < |s| => s[|s| - 1 - i])
  }

  /** Durations are never reported below five minutes. */
  function Formatted(p: Period): Session {
    Session(p.start, p.end, if p.end - p.start < 5 then 5 else p.end - p.start, p.bytes, p.flows)
  }

  function AllFormatted(periods: seq<Period>): seq<Session> {
    seq(|periods|, i requires 0 <= i < |periods| => Formatted(periods[i]))
  }

  lemma FormattedSnoc(shown: seq<Period>, k: nat)
    requires k < |shown|
    ensures AllFormatted(Reversed(shown)[..k + 1])
        == AllFormatted(Reversed(shown)[..k]) + [Formatted(shown[|shown| - 1 - k])]
  {
    assert Reversed(shown)[..k + 1] == Reversed(shown)[..k] + [Reversed(shown)[k]];
  }

  method ActivePeriods(rows: seq<Row>, gapMinutes: int, limit: int) returns (result: seq<Session>)
    ensures result == AllFormatted(Reversed(Tail(Periods(Groups(Timed(rows), Clamped(gapMinutes))), limit)))
  {
    var periods := CollectPeriods(rows, Clamped(gapMinutes));
    result := Format(Tail(periods, limit));
  }

  method Format(shown: seq<Period>) returns (result: seq<Session>)
    ensures result == AllFormatted(Reversed(shown))
  {
    result := [];
    for k := 0 to |shown|
      invariant result == AllFormatted(Reversed(shown)[..k])
    {
      FormattedSnoc(shown, k);
      result := result + [Formatted(shown[|shown| - 1 - k])];
    }
    assert Reversed(shown)[..|shown|] == Reversed(shown);
  }

  /** `current` is the last group's period and `periods` are those before it. */
  ghost predicate Collected(periods: seq<Period>, current: Option<Period>, groups: seq<Group>) {
    match current
    case None => groups == [] && periods == []
    case Some(p) =>
      groups != [] && p == PeriodOf(groups[|groups| - 1]) && periods == Periods(groups[..|groups| - 1])
  }

  lemma FullPeriods(groups: seq<Group>)
    requires groups != []
    ensures Periods(groups) == Periods(groups[..|groups| - 1]) + [PeriodOf(groups[|groups| - 1])]
  {
  }

  lemma PeriodOfOne(b: Bucket)
    ensures PeriodOf([b]) == Period(b.when, b.when + 5, b.when, b.bytes, b.flows, 1)
  {
    assert [b][..0] == [];
    assert Bytes([b]) == b.bytes && Flows([b]) == b.flows;
  }

  lemma NewGroup(periods: seq<Period>, current: Option<Period>, groups: seq<Group>, b: Bucket, gap: int)
    requires Collected(periods, current, groups)
    requires current.None? || b.when - current.value.last > gap
    ensures Collected(periods + (if current.Some? then [current.value] else []),
                      Some(Period(b.when, b.when + 5, b.when, b.bytes, b.flows, 1)), Extend(groups, b, gap))
  {
    PeriodOfOne(b);
    assert (groups + [[b]])[..|groups|] == groups;
    if current.Some? {
      FullPeriods(groups);
    }
  }

  lemma SameGroup(periods: seq<Period>, c: Period, groups: seq<Group>, b: Bucket, gap: int)
    requires Collected(periods, Some(c), groups) && b.when - c.last <= gap
    ensures Collected(periods,
                      Some(Period(c.start, b.when + 5, b.when, c.bytes + b.bytes, c.flows + b.flows, c.buckets + 1)),
                      Extend(groups, b, gap))
  {
    var n := |groups| - 1;
    var grown: Group := groups[n] + [b];
    assert grown[..|grown| - 1] == groups[n] && grown[0] == groups[n][0];
    assert (groups[..n] + [grown])[..n] == groups[..n];
  }

  /** The groups once one more row has been read. */
  ghost function Reading(groups: seq<Group>, row: Row, gap: int): seq<Group> {
    if row.bucket.None? then groups else Extend(groups, Bucket(row.bucket.value, row.bytes, row.flows), gap)
  }

  lemma ReadingIs(rows: seq<Row>, k: nat, gap: int)
    requires k < |rows|
    ensures Groups(Timed(rows[..k + 1]), gap) == Reading(Groups(Timed(rows[..k]), gap), rows[k], gap)
  {
    var before := Timed(rows[..k]);
    assert rows[..k + 1][..k] == rows[..k];
    if rows[k].bucket.Some? {
      var b := Bucket(rows[k].bucket.value, rows[k].bytes, rows[k].flows);
      assert Timed(rows[..k + 1]) == before + [b];
      assert (before + [b])[..|before|] == before;
    } else {
      assert Timed(rows[..k + 1]) == before;
    }
  }

  method CollectPeriods(rows: seq<Row>, gap: int) returns (periods: seq<Period>)
    ensures periods == Periods(Groups(Timed(rows), gap))
  {
    periods := [];
    var current: Option<Period> := None;
    for k := 0 to |rows|
      invariant Collected(periods, current, Groups(Timed(rows[..k]), gap))
    {
      ReadingIs(rows, k, gap);
      periods, current := ReadRow(periods, current, rows[k], gap, Groups(Timed(rows[..k]), gap));
    }
    assert rows[..|rows|] == rows;
    if current.Some? {
      FullPeriods(Groups(Timed(rows), gap));
      periods := periods + [current.value];
    }
  }

  method ReadRow(before: seq<Period>, open: Option<Period>, row: Row, gap: int, ghost groups: seq<Group>)
    returns (periods: seq<Period>, current: Option<Period>)
    requires Collected(before, open, groups)
    ensures Collected(periods, current, Reading(groups, row, gap))
  {
    periods, current := before, open;
    if row.bucket.None? {
      return;
    }
    var when, bytes, flows := row.bucket.value, row.bytes, row.flows;
    if current.None? || when - current.value.last > gap {
      NewGroup(periods, current, groups, Bucket(when, bytes, flows), gap);
      if current.Some? {
        periods := periods + [current.value];
      }
      current := Some(Period(when, when + 5, when, bytes, flows, 1));
    } else {
      var c := current.value;
      SameGroup(periods, c, groups, Bucket(when, bytes, flows), gap);
      current := Some(c.(end := when + 5, last := when, bytes := c.bytes + bytes, flows := c.flows + flows,
                         buckets := c.buckets + 1));
    }
  }
}
