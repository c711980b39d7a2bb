/** build_policy_intervals of app/policy_history.py: durable checkpoints become correlation intervals.
    Instants are integers. */
module PolicyTimeline {
  import opened Common

  datatype Checkpoint = Checkpoint(at: int, id: int, mode: string, hash: string, identity: string)

  datatype Label = IdentityUnproven | PolicyUnobserved | Known(state: Checkpoint)
  datatype Interval = Interval(start: int, end: int, mark: Label)
  datatype Outcome = Intervals(items: seq<Interval>) | EmptyRange

  // ---------- the pointwise rule ----------

  predicate AtMost(a: Checkpoint, b: Checkpoint) {
    a.at < b.at || (a.at == b.at && a.id <= b.id)
  }

  /** The checkpoint at or before `t` with the greatest (time, id); the later row wins a tie. */
  function LastAt(history: seq<Checkpoint>, t: int): Option<Checkpoint> {
    if history == [] then None else
    var x := history[|history| - 1];
    var before := LastAt(history[..|history| - 1], t);
    if x.at <= t && (before.None? || AtMost(before.value, x)) then Some(x) else before
  }

  function LabelAt(history: seq<Checkpoint>, identityStart: Option<int>, t: int): Label {
    if identityStart.Some? && t < identityStart.value then IdentityUnproven
    else match LastAt(history, t)
         case None => PolicyUnobserved
         case Some(checkpoint) => Known(checkpoint)
  }

  // ---------- stable sorting ----------

  predicate Sorted(s: seq<Checkpoint>) {
    forall i, j | 0 <= i < j < |s| :: AtMost(s[i], s[j])
  }

  /** Inserts after every element that is not greater, as a stable sort does. */
  function Insert(s: seq<Checkpoint>, x: Checkpoint): seq<Checkpoint> {
    if s == [] || AtMost(s[|s| - 1], x) then s + [x] else Insert(s[..|s| - 1], x) + [s[|s| - 1]]
  }

  function Sort(s: seq<Checkpoint>): seq<Checkpoint> {
    if s == [] then [] else Insert(Sort(s[..|s| - 1]), s[|s| - 1])
  }

  lemma {:induction false} InsertAdds(s: seq<Checkpoint>, x: Checkpoint)
    ensures multiset(Insert(s, x)) == multiset(s) + multiset{x}
    ensures forall y | y in Insert(s, x) :: y in s || y == x
  {
    if s != [] && !AtMost(s[|s| - 1], x) {
      InsertAdds(s[..|s| - 1], x);
      assert s == s[..|s| - 1] + [s[|s| - 1]];
    }
  }

  lemma {:induction false} InsertSorts(s: seq<Checkpoint>, x: Checkpoint)
    requires Sorted(s)
    ensures Sorted(Insert(s, x))
  {
    if s != [] && !AtMost(s[|s| - 1], x) {
      var prefix, last := s[..|s| - 1], s[|s| - 1];
      InsertSorts(prefix, x);
      InsertAdds(prefix, x);
      var more := Insert(prefix, x);
      forall i | 0 <= i < |more| ensures AtMost(more[i], last) {
        assert more[i] in more;
      }
    }
  }

  lemma {:induction false} SortSorts(s: seq<Checkpoint>)
    ensures Sorted(Sort(s)) && multiset(Sort(s)) == multiset(s)
  {
    if s != [] {
      SortSorts(s[..|s| - 1]);
      InsertSorts(Sort(s[..|s| - 1]), s[|s| - 1]);
      InsertAdds(Sort(s[..|s| - 1]), s[|s| - 1]);
      assert s == s[..|s| - 1] + [s[|s| - 1]];
    }
  }

  /** In a sorted history the rule is a position: everything before `n` has happened, nothing after has. */
  lemma {:induction false} LastAtPosition(s: seq<Checkpoint>, n: nat, t: int)
    requires Sorted(s) && n <= |s|
    requires n > 0 ==> s[n - 1].at <= t
    requires n < |s| ==> t < s[n].at
    ensures LastAt(s, t) == if n == 0 then None else Some(s[n - 1])
  {
    if s != [] {
      var prefix := s[..|s| - 1];
      if n == |s| {
        LastAtFromPrefix(prefix, t);
      } else {
        LastAtPosition(prefix, n, t);
      }
    }
  }

  lemma {:induction false} LastAtFromPrefix(s: seq<Checkpoint>, t: int)
    ensures LastAt(s, t).Some? ==> LastAt(s, t).value in s
  {
    if s != [] {
      LastAtFromPrefix(s[..|s| - 1], t);
    }
  }

  lemma {:induction false} InsertKeepsRule(s: seq<Checkpoint>, x: Checkpoint, t: int)
    requires Sorted(s)
    ensures LastAt(Insert(s, x), t) == LastAt(s + [x], t)
  {
    if s != [] && !AtMost(s[|s| - 1], x) {
      var prefix, last := s[..|s| - 1], s[|s| - 1];
      InsertKeepsRule(prefix, x, t);
      LastAtFromPrefix(prefix, t);
      assert (prefix + [x])[..|prefix|] == prefix;
      assert (s + [x])[..|s|] == s;
      assert (Insert(prefix, x) + [last])[..|Insert(prefix, x)|] == Insert(prefix, x);
    }
  }

  /** Sorting never changes which checkpoint governs an instant. */
  lemma {:induction false} SortKeepsRule(s: seq<Checkpoint>, t: int)
    ensures LastAt(Sort(s), t) == LastAt(s, t)
  {
    if s != [] {
      var prefix, x := s[..|s| - 1], s[|s| - 1];
      SortKeepsRule(prefix, t);
      SortSorts(prefix);
      InsertKeepsRule(Sort(prefix), x, t);
      assert (Sort(prefix) + [x])[..|Sort(prefix)|] == Sort(prefix);
    }
  }

  // ---------- the cursor loop ----------

  /** Non-empty, contiguous intervals from `start` to `cursor`, each carrying the rule at every instant. */
  ghost predicate Tiles(
    items: seq<Interval>, start: int, cursor: int, history: seq<Checkpoint>, identityStart: Option<int>) {
    && (items == [] ==> cursor == start)
    && (items != [] ==> items[0].start == start && items[|items| - 1].end == cursor)
    && (forall i | 0 <= i < |items| :: items[i].start < items[i].end)
    && (forall i | 0 <= i < |items| - 1 :: items[i].end == items[i + 1].start)
    && (forall i, t | 0 <= i < |items| && items[i].start <= t < items[i].end ::
          items[i].mark == LabelAt(history, identityStart, t))
  }

  function Later(s: seq<Checkpoint>, from: int, until: int): seq<Checkpoint> {
    if s == [] then [] else
    var x := s[|s| - 1];
    Later(s[..|s| - 1], from, until) + if from < x.at < until then [x] else []
  }

  function UpTo(s: seq<Checkpoint>, until: int): seq<Checkpoint> {
    if s == [] then [] else
    var x := s[|s| - 1];
    UpTo(s[..|s| - 1], until) + if x.at <= until then [x] else []
  }

  predicate AllUpTo(s: seq<Checkpoint>, from: int) {
    forall i | 0 <= i < |s| :: s[i].at <= from
  }

  predicate AllBetween(s: seq<Checkpoint>, from: int, until: int) {
    forall i | 0 <= i < |s| :: from < s[i].at < until
  }

  lemma {:induction false} NothingLater(s: seq<Checkpoint>, from: int, until: int)
    requires AllUpTo(s, from)
    ensures UpTo(s, from) == s && Later(s, from, until) == []
  {
    if s != [] {
      NothingLater(s[..|s| - 1], from, until);
      assert s == s[..|s| - 1] + [s[|s| - 1]];
    }
  }

  /** `before` and `inside` together are the first `n` checkpoints; the rest lie at or after `until`. */
  ghost predicate Prefixes(s: seq<Checkpoint>, before: seq<Checkpoint>, inside: seq<Checkpoint>, until: int) {
    var n := |before| + |inside|;
    n <= |s| && before + inside == s[..n] && (n < |s| ==> until <= s[n].at)
  }

  lemma PrefixesSnoc(s: seq<Checkpoint>, x: Checkpoint, before: seq<Checkpoint>, inside: seq<Checkpoint>, until: int)
    requires Prefixes(s, before, inside, until) && (s != [] ==> AtMost(s[|s| - 1], x)) && Sorted(s)
    ensures Prefixes(s + [x], before, inside + if x.at < until then [x] else [], until)
  {
    var n := |before| + |inside|;
    if n < |s| {
      assert n < |s| - 1 ==> AtMost(s[n], s[|s| - 1]);
      assert until <= x.at;
      assert inside + [] == inside && (s + [x])[..n] == s[..n];
    } else {
      assert s[..n] == s && (s + [x])[..n] == s && (s + [x])[..n + 1] == s + [x];
      assert before + (inside + [x]) == (before + inside) + [x];
      assert inside + [] == inside;
    }
  }

  ghost predicate CutAt(s: seq<Checkpoint>, from: int, until: int) {
    && Prefixes(s, UpTo(s, from), Later(s, from, until), until)
    && AllUpTo(UpTo(s, from), from) && AllBetween(Later(s, from, until), from, until)
  }

  lemma AllEarlier(s: seq<Checkpoint>, from: int, until: int)
    requires AllUpTo(s, from) && from < until
    ensures CutAt(s, from, until)
  {
    NothingLater(s, from, until);
    assert s[..|s|] == s && s + [] == s;
  }

  lemma CutSnoc(s: seq<Checkpoint>, x: Checkpoint, from: int, until: int)
    requires Sorted(s) && CutAt(s, from, until) && (s != [] ==> AtMost(s[|s| - 1], x)) && from < x.at
    ensures CutAt(s + [x], from, until)
  {
    assert (s + [x])[..|s|] == s;
    PrefixesSnoc(s, x, UpTo(s, from), Later(s, from, until), until);
    assert UpTo(s + [x], from) == UpTo(s, from) + [] == UpTo(s, from);
  }

  lemma SortedSnoc(s: seq<Checkpoint>, x: Checkpoint, from: int)
    requires Sorted(s + [x])
    ensures Sorted(s) && (s != [] ==> AtMost(s[|s| - 1], x)) && (x.at <= from ==> AllUpTo(s + [x], from))
  {
    var whole := s + [x];
    assert forall i | 0 <= i < |s| :: whole[i] == s[i] && AtMost(whole[i], whole[|s|]);
  }

  /** The two comprehensions cut a sorted history into a prefix and the part inside the range. */
  lemma {:induction false} CutsSorted(s: seq<Checkpoint>, from: int, until: int)
    requires Sorted(s) && from < until
    ensures CutAt(s, from, until)
  {
    if s != [] {
      var prefix, x := s[..|s| - 1], s[|s| - 1];
      assert s == prefix + [x];
      SortedSnoc(prefix, x, from);
      if x.at <= from {
        AllEarlier(s, from, until);
      } else {
        CutsSorted(prefix, from, until);
        CutSnoc(prefix, x, from, until);
      }
    }
  }

  /** The rule between two neighbours of a sorted history, stated for the unsorted one. */
  lemma RuleBetween(history: seq<Checkpoint>, identityStart: Option<int>, n: nat, t: int)
    requires var s := Sort(history); n <= |s| && (n > 0 ==> s[n - 1].at <= t) && (n < |s| ==> t < s[n].at)
    requires identityStart.Some? ==> identityStart.value <= t
    ensures LabelAt(history, identityStart, t) == if n == 0 then PolicyUnobserved else Known(Sort(history)[n - 1])
  {
    SortSorts(history);
    LastAtPosition(Sort(history), n, t);
    SortKeepsRule(history, t);
  }

  /** `n` checkpoints of the sorted history lie at or before `from`, and no other before `until`. */
  ghost predicate Governs(history: seq<Checkpoint>, n: nat, from: int, until: int) {
    var s := Sort(history);
    n <= |s| && (n > 0 ==> s[n - 1].at <= from) && (n < |s| ==> until <= s[n].at)
  }

  function MarkOf(history: seq<Checkpoint>, n: nat): Label
    requires n <= |Sort(history)|
  {
    if n == 0 then PolicyUnobserved else Known(Sort(history)[n - 1])
  }

  ghost predicate Uniform(item: Interval, history: seq<Checkpoint>, identityStart: Option<int>) {
    forall t | item.start <= t < item.end :: item.mark == LabelAt(history, identityStart, t)
  }

  /** `Tiles`, laid one interval after the other. */
  ghost predicate Laid(
    items: seq<Interval>, start: int, cursor: int, history: seq<Checkpoint>, identityStart: Option<int>)
  {
    if items == [] then cursor == start else
    var last := items[|items| - 1];
    && last.start < last.end == cursor && Uniform(last, history, identityStart)
    && Laid(items[..|items| - 1], start, last.start, history, identityStart)
  }

  lemma {:induction false} LaidTiles(
    items: seq<Interval>, start: int, cursor: int, history: seq<Checkpoint>, identityStart: Option<int>)
    requires Laid(items, start, cursor, history, identityStart)
    ensures Tiles(items, start, cursor, history, identityStart)
  {
    if items != [] {
      LaidTiles(items[..|items| - 1], start, items[|items| - 1].start, history, identityStart);
    }
  }

  lemma ExtendTiles(
    items: seq<Interval>, start: int, cursor: int, history: seq<Checkpoint>, identityStart: Option<int>,
    n: nat, until: int)
    requires Laid(items, start, cursor, history, identityStart) && cursor < until
    requires identityStart.Some? ==> identityStart.value <= cursor
    requires Governs(history, n, cursor, until)
    ensures Laid(items + [Interval(cursor, until, MarkOf(history, n))], start, until, history, identityStart)
  {
    var next := Interval(cursor, until, MarkOf(history, n));
    forall t | next.start <= t < next.end ensures next.mark == LabelAt(history, identityStart, t) {
      RuleBetween(history, identityStart, n, t);
    }
    AppendTile(items, start, cursor, history, identityStart, next);
  }

  lemma AppendTile(
    items: seq<Interval>, start: int, cursor: int, history: seq<Checkpoint>, identityStart: Option<int>, next: Interval)
    requires Laid(items, start, cursor, history, identityStart)
    requires next.start == cursor < next.end && Uniform(next, history, identityStart)
    ensures Laid(items + [next], start, next.end, history, identityStart)
  {
    assert (items + [next])[..|items|] == items;
  }

  lemma IdentityGap(history: seq<Checkpoint>, start: int, identityStart: int, until: int)
    requires start < until <= identityStart
    ensures Laid([Interval(start, until, IdentityUnproven)], start, until, history, Some(identityStart))
  {
    var gap := Interval(start, until, IdentityUnproven);
    assert Laid([], start, start, history, Some(identityStart)) && Uniform(gap, history, Some(identityStart));
    AppendTile([], start, start, history, Some(identityStart), gap);
    assert [] + [gap] == [gap];
  }

  /** `before` and `inside` are consecutive slices of `s`, cut at `from` and `until`. */
  ghost predicate Cut(s: seq<Checkpoint>, before: seq<Checkpoint>, inside: seq<Checkpoint>, from: int, until: int) {
    && |before| + |inside| <= |s| && s[..|before|] == before && s[|before|..|before| + |inside|] == inside
    && (before != [] ==> s[|before| - 1] == before[|before| - 1] && before[|before| - 1].at <= from)
    && (inside != [] ==> s[|before|] == inside[0])
    && (|before| + |inside| < |s| ==> until <= s[|before| + |inside|].at)
    && (forall i | 0 <= i < |inside| :: from < inside[i].at < until)
  }

  lemma ComprehensionsCut(s: seq<Checkpoint>, from: int, until: int)
    requires Sorted(s) && from < until
    ensures Cut(s, UpTo(s, from), Later(s, from, until), from, until)
  {
    CutsSorted(s, from, until);
    var before, inside := UpTo(s, from), Later(s, from, until);
    assert (before + inside)[..|before|] == before && (before + inside)[|before|..] == inside;
    assert s[..|before| + |inside|][..|before|] == s[..|before|];
    assert s[..|before| + |inside|][|before|..] == s[|before|..|before| + |inside|];
    assert before != [] ==> before[|before| - 1] in before && s[..|before|][|before| - 1] == s[|before| - 1];
  }

  datatype Cursor = Cursor(items: seq<Interval>, active: Checkpoint, at: int)

  function Advance(c: Cursor, change: Checkpoint): Cursor {
    var items := if change.at > c.at then c.items + [Interval(c.at, change.at, Known(c.active))] else c.items;
    Cursor(items, change, change.at)
  }

  /** The sweep over the changes inside the range. */
  function Swept(from: Cursor, inside: seq<Checkpoint>): Cursor {
    if inside == [] then from else Advance(Swept(from, inside[..|inside| - 1]), inside[|inside| - 1])
  }

  function Closed(c: Cursor, end: int): seq<Interval> {
    if c.at < end then c.items + [Interval(c.at, end, Known(c.active))] else c.items
  }

  function PolicyPart(
    history: seq<Checkpoint>, end: int, policyStart: int, found: seq<Interval>): seq<Interval>
  {
    var ordered := Sort(history);
    var before, inside := UpTo(ordered, policyStart), Later(ordered, policyStart, end);
    if before != [] then Closed(Swept(Cursor(found, before[|before| - 1], policyStart), inside), end)
    else if inside != [] then
      var unobserved := Interval(policyStart, inside[0].at, PolicyUnobserved);
      var gap := if inside[0].at > policyStart then found + [unobserved] else found;
      Closed(Swept(Cursor(gap, inside[0], inside[0].at), inside[1..]), end)
    else found + [Interval(policyStart, end, PolicyUnobserved)]
  }

  function Timeline(history: seq<Checkpoint>, start: int, end: int, identityStart: Option<int>): Outcome {
    if end <= start then EmptyRange
    else if identityStart.None? || identityStart.value <= start then Intervals(PolicyPart(history, end, start, []))
    else if identityStart.value >= end then Intervals([Interval(start, end, IdentityUnproven)])
    else
      Intervals(PolicyPart(
        history, end, identityStart.value, [Interval(start, identityStart.value, IdentityUnproven)]))
  }

  /** After sweeping `k` changes the cursor stands at the last of them and everything before is tiled. */
  ghost predicate Standing(
    c: Cursor, start: int, end: int, history: seq<Checkpoint>, identityStart: Option<int>, n: nat)
  {
    var s := Sort(history);
    && 0 < n <= |s| && c.active == s[n - 1] && c.active.at <= c.at < end
    && (n < |s| && s[n].at < end ==> c.at <= s[n].at)
    && Laid(c.items, start, c.at, history, identityStart)
  }

  lemma AdvanceStands(
    c: Cursor, change: Checkpoint, start: int, end: int, history: seq<Checkpoint>, identityStart: Option<int>, n: nat)
    requires Standing(c, start, end, history, identityStart, n)
    requires n < |Sort(history)| && change == Sort(history)[n] && change.at < end
    requires identityStart.Some? ==> identityStart.value <= c.at
    ensures Standing(Advance(c, change), start, end, history, identityStart, n + 1) && c.at <= Advance(c, change).at
  {
    var s := Sort(history);
    SortSorts(history);
    if n + 1 < |s| {
      assert AtMost(s[n], s[n + 1]);
    }
    if change.at > c.at {
      ExtendTiles(c.items, start, c.at, history, identityStart, n, change.at);
    }
  }

  /** `inside` is what follows position `n` of the sorted history, all of it before `end`. */
  ghost predicate Follows(s: seq<Checkpoint>, n: nat, inside: seq<Checkpoint>, end: int) {
    if inside == [] then n <= |s| else
    var last := |inside| - 1;
    Follows(s, n, inside[..last], end) && n + last < |s| && inside[last] == s[n + last] && inside[last].at < end
  }

  lemma {:induction false} SliceFollows(s: seq<Checkpoint>, n: nat, inside: seq<Checkpoint>, end: int)
    requires n + |inside| <= |s| && s[n..n + |inside|] == inside && AllBefore(inside, end)
    ensures Follows(s, n, inside, end)
  {
    if inside != [] {
      var last := |inside| - 1;
      assert s[n..n + last] == inside[..last];
      SliceFollows(s, n, inside[..last], end);
    }
  }

  predicate AllBefore(s: seq<Checkpoint>, end: int) {
    forall i | 0 <= i < |s| :: s[i].at < end
  }

  lemma {:induction false} SweptStands(
    from: Cursor, inside: seq<Checkpoint>, start: int, end: int, history: seq<Checkpoint>,
    identityStart: Option<int>, n: nat)
    requires Standing(from, start, end, history, identityStart, n)
    requires identityStart.Some? ==> identityStart.value <= from.at
    requires Follows(Sort(history), n, inside, end)
    ensures Standing(Swept(from, inside), start, end, history, identityStart, n + |inside|)
    ensures from.at <= Swept(from, inside).at
  {
    if inside != [] {
      var last := |inside| - 1;
      SweptStands(from, inside[..last], start, end, history, identityStart, n);
      AdvanceStands(Swept(from, inside[..last]), inside[last], start, end, history, identityStart, n + last);
    }
  }

  lemma ClosedTiles(c: Cursor, start: int, end: int, history: seq<Checkpoint>, identityStart: Option<int>, n: nat)
    requires Standing(c, start, end, history, identityStart, n)
    requires n < |Sort(history)| ==> end <= Sort(history)[n].at
    requires identityStart.Some? ==> identityStart.value <= c.at
    ensures Closed(c, end) != [] && Laid(Closed(c, end), start, end, history, identityStart)
  {
    ExtendTiles(c.items, start, c.at, history, identityStart, n, end);
  }

  lemma FromStartTiles(
    history: seq<Checkpoint>, start: int, end: int, identityStart: Option<int>, policyStart: int, found: seq<Interval>,
    before: seq<Checkpoint>, inside: seq<Checkpoint>)
    requires policyStart < end && (identityStart.Some? ==> identityStart.value <= policyStart)
    requires Laid(found, start, policyStart, history, identityStart)
    requires Cut(Sort(history), before, inside, policyStart, end) && before != []
    ensures var items := Closed(Swept(Cursor(found, before[|before| - 1], policyStart), inside), end);
      items != [] && Laid(items, start, end, history, identityStart)
  {
    SweepTiles(Cursor(found, before[|before| - 1], policyStart), inside, start, end, history, identityStart, |before|);
  }

  lemma FromFirstTiles(
    history: seq<Checkpoint>, start: int, end: int, identityStart: Option<int>, policyStart: int, found: seq<Interval>,
    inside: seq<Checkpoint>)
    requires policyStart < end && (identityStart.Some? ==> identityStart.value <= policyStart)
    requires Laid(found, start, policyStart, history, identityStart)
    requires Cut(Sort(history), [], inside, policyStart, end) && inside != []
    ensures var gap := found + [Interval(policyStart, inside[0].at, PolicyUnobserved)];
      var items := Closed(Swept(Cursor(gap, inside[0], inside[0].at), inside[1..]), end);
      items != [] && Laid(items, start, end, history, identityStart)
  {
    var first := inside[0];
    ExtendTiles(found, start, policyStart, history, identityStart, 0, first.at);
    SecondIsNotEarlier(history);
    assert Sort(history)[1..1 + |inside[1..]|] == Sort(history)[0..|inside|][1..] == inside[1..];
    SweepTiles(Cursor(found + [Interval(policyStart, first.at, PolicyUnobserved)], first, first.at),
               inside[1..], start, end, history, identityStart, 1);
  }

  lemma SecondIsNotEarlier(history: seq<Checkpoint>)
    ensures 1 < |Sort(history)| ==> Sort(history)[0].at <= Sort(history)[1].at
  {
    SortSorts(history);
    assert 1 < |Sort(history)| ==> AtMost(Sort(history)[0], Sort(history)[1]);
  }

  lemma PolicyPartTiles(
    history: seq<Checkpoint>, start: int, end: int, identityStart: Option<int>, policyStart: int, found: seq<Interval>)
    requires policyStart < end && (identityStart.Some? ==> identityStart.value <= policyStart)
    requires Laid(found, start, policyStart, history, identityStart)
    ensures var items := PolicyPart(history, end, policyStart, found);
      items != [] && Laid(items, start, end, history, identityStart)
  {
    SortSorts(history);
    ComprehensionsCut(Sort(history), policyStart, end);
    var before, inside := UpTo(Sort(history), policyStart), Later(Sort(history), policyStart, end);
    if before != [] {
      FromStartTiles(history, start, end, identityStart, policyStart, found, before, inside);
    } else if inside != [] {
      FromFirstTiles(history, start, end, identityStart, policyStart, found, inside);
    } else {
      ExtendTiles(found, start, policyStart, history, identityStart, 0, end);
    }
  }

  lemma SweepTiles(
    from: Cursor, inside: seq<Checkpoint>, start: int, end: int, history: seq<Checkpoint>,
    identityStart: Option<int>, n: nat)
    requires Standing(from, start, end, history, identityStart, n)
    requires identityStart.Some? ==> identityStart.value <= from.at
    requires n + |inside| <= |Sort(history)| && Sort(history)[n..n + |inside|] == inside
    requires n + |inside| < |Sort(history)| ==> end <= Sort(history)[n + |inside|].at
    requires AllBefore(inside, end)
    ensures var items := Closed(Swept(from, inside), end);
      items != [] && Laid(items, start, end, history, identityStart)
  {
    SliceFollows(Sort(history), n, inside, end);
    SweptStands(from, inside, start, end, history, identityStart, n);
    ClosedTiles(Swept(from, inside), start, end, history, identityStart, n + |inside|);
  }

  /** The intervals are non-empty and contiguous, cover exactly [start, end), and at every instant carry
      `identity_unproven` before the identity start, else the last checkpoint at or before it. */
  lemma TimelineIsPointwise(history: seq<Checkpoint>, start: int, end: int, identityStart: Option<int>)
    ensures Timeline(history, start, end, identityStart).EmptyRange? <==> end <= start
    ensures start < end ==>
      var items := Timeline(history, start, end, identityStart).items;
      items != [] && Tiles(items, start, end, history, identityStart)
  {
    if start < end {
      LaidTimeline(history, start, end, identityStart);
      LaidTiles(Timeline(history, start, end, identityStart).items, start, end, history, identityStart);
    }
  }

  lemma LaidTimeline(history: seq<Checkpoint>, start: int, end: int, identityStart: Option<int>)
    requires start < end
    ensures var items := Timeline(history, start, end, identityStart).items;
      items != [] && Laid(items, start, end, history, identityStart)
  {
    if identityStart.None? || identityStart.value <= start {
      PolicyPartTiles(history, start, end, identityStart, start, []);
    } else if identityStart.value >= end {
      IdentityGap(history, start, identityStart.value, end);
    } else {
      IdentityGap(history, start, identityStart.value, identityStart.value);
      PolicyPartTiles(history, start, end, identityStart, identityStart.value,
                      [Interval(start, identityStart.value, IdentityUnproven)]);
    }
  }

  // ---------- the code's own loop ----------

  method BuildIntervals(history: seq<Checkpoint>, start: int, end: int, identityStart: Option<int>)
    returns (outcome: Outcome)
    ensures outcome == Timeline(history, start, end, identityStart)
    ensures outcome.Intervals? ==> Tiles(outcome.items, start, end, history, identityStart)
  {
    if end <= start {
      return EmptyRange;
    }
    var intervals, policyStart := [], start;
    if identityStart.Some? && identityStart.value > start {
      var gapEnd := if identityStart.value < end then identityStart.value else end;
      intervals := [Interval(start, gapEnd, IdentityUnproven)];
      if identityStart.value >= end {
        TimelineIsPointwise(history, start, end, identityStart);
        return Intervals(intervals);
      }
      policyStart := identityStart.value;
    }
    intervals := CoverPolicy(history, end, policyStart, intervals);
    TimelineIsPointwise(history, start, end, identityStart);
    outcome := Intervals(intervals);
  }

  method CoverPolicy(history: seq<Checkpoint>, end: int, policyStart: int, found: seq<Interval>)
    returns (intervals: seq<Interval>)
    ensures intervals == PolicyPart(history, end, policyStart, found)
  {
    var ordered := Sort(history);
    var before, inside := UpTo(ordered, policyStart), Later(ordered, policyStart, end);
    intervals := found;
    var active := if before != [] then Some(before[|before| - 1]) else None;
    var cursor := policyStart;
    if active.None? && inside != [] {
      if inside[0].at > cursor {
        intervals := intervals + [Interval(cursor, inside[0].at, PolicyUnobserved)];
      }
      active, cursor, inside := Some(inside[0]), inside[0].at, inside[1..];
    }
    if active.None? {
      return intervals + [Interval(policyStart, end, PolicyUnobserved)];
    }
    var current := active.value;
    intervals, current, cursor := SweepChanges(intervals, current, cursor, inside);
    if cursor < end {
      intervals := intervals + [Interval(cursor, end, Known(current))];
    }
  }

  method SweepChanges(found: seq<Interval>, first: Checkpoint, from: int, inside: seq<Checkpoint>)
    returns (intervals: seq<Interval>, active: Checkpoint, cursor: int)
    ensures Cursor(intervals, active, cursor) == Swept(Cursor(found, first, from), inside)
  {
    intervals, active, cursor := found, first, from;
    for k := 0 to |inside|
      invariant Cursor(intervals, active, cursor) == Swept(Cursor(found, first, from), inside[..k])
    {
      var change := inside[k];
      assert inside[..k + 1][..k] == inside[..k];
      if change.at > cursor {
        intervals := intervals + [Interval(cursor, change.at, Known(active))];
      }
      active, cursor := change, change.at;
    }
    assert inside[..|inside|] == inside;
  }
}
