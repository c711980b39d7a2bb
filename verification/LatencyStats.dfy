/** Percentiles of app/performance.py. A sample is a number of microseconds: every duration is recorded in milliseconds
    rounded to three decimals, so rounding a percentile to three decimals is rounding to a whole number here. */
module LatencyStats {
  import opened Common

  predicate Sorted(s: seq<int>) {
    forall i, j | 0 <= i < j < |s| :: s[i] <= s[j]
  }

  function Insert(s: seq<int>, x: int): seq<int> {
    if s == [] || s[|s| - 1] <= x then s + [x] else Insert(s[..|s| - 1], x) + [s[|s| - 1]]
  }

  function Sort(s: seq<int>): seq<int> {
    if s == [] then [] else Insert(Sort(s[..|s| - 1]), s[|s| - 1])
  }

  lemma {:induction false} InsertAdds(s: seq<int>, x: int)
    ensures multiset(Insert(s, x)) == multiset(s) + multiset{x} && |Insert(s, x)| == |s| + 1
    ensures forall y | y in Insert(s, x) :: y in s || y == x
  {
    if s != [] && s[|s| - 1] > x {
      InsertAdds(s[..|s| - 1], x);
      assert s == s[..|s| - 1] + [s[|s| - 1]];
    }
  }

  lemma {:induction false} InsertSorts(s: seq<int>, x: int)
    requires Sorted(s)
    ensures Sorted(Insert(s, x))
  {
    if s != [] && s[|s| - 1] > x {
      var prefix, last := s[..|s| - 1], s[|s| - 1];
      InsertSorts(prefix, x);
      InsertAdds(prefix, x);
      var more := Insert(prefix, x);
      forall i | 0 <= i < |more| ensures more[i] <= last {
        assert more[i] in more;
      }
    }
  }

  lemma {:induction false} SortSorts(s: seq<int>)
    ensures Sorted(Sort(s)) && multiset(Sort(s)) == multiset(s) && |Sort(s)| == |s|
  {
    if s != [] {
      SortSorts(s[..|s| - 1]);
      InsertSorts(Sort(s[..|s| - 1]), s[|s| - 1]);
      InsertAdds(Sort(s[..|s| - 1]), s[|s| - 1]);
      assert s == s[..|s| - 1] + [s[|s| - 1]];
    }
    assert |multiset(Sort(s))| == |Sort(s)| && |multiset(s)| == |s|;
  }

  lemma SameLast(a: seq<int>, b: seq<int>)
    requires Sorted(a) && Sorted(b) && multiset(a) == multiset(b) && a != [] && b != []
    ensures a[|a| - 1] == b[|b| - 1]
  {
    assert a[|a| - 1] in multiset(b) && b[|b| - 1] in multiset(a);
    var i :| 0 <= i < |b| && b[i] == a[|a| - 1];
    var j :| 0 <= j < |a| && a[j] == b[|b| - 1];
  }

  lemma DropLastOfBoth(a: seq<int>, b: seq<int>)
    requires multiset(a) == multiset(b) && a != [] && b != [] && a[|a| - 1] == b[|b| - 1]
    ensures multiset(a[..|a| - 1]) == multiset(b[..|b| - 1])
  {
    DropLast(a);
    DropLast(b);
  }

  lemma {:induction false} SortedIsUnique(a: seq<int>, b: seq<int>)
    requires Sorted(a) && Sorted(b) && multiset(a) == multiset(b)
    ensures a == b
  {
    assert |multiset(a)| == |a| && |multiset(b)| == |b|;
    if a != [] {
      var n := |a| - 1;
      SameLast(a, b);
      DropLastOfBoth(a, b);
      SortedIsUnique(a[..n], b[..n]);
      assert a == a[..n] + [a[n]] && b == b[..n] + [b[n]];
    }
  }

  // ---------- rounding and interpolation ----------

  /** Rounds `n / 100` to a whole number, halves to the even neighbour. */
  function Round(n: int): int {
    var down, rest := n / 100, n % 100;
    if rest < 50 || (rest == 50 && down % 2 == 0) then down else down + 1
  }

  lemma RoundIsMonotone(a: int, b: int)
    requires a <= b
    ensures Round(a) <= Round(b)
  {
  }

  lemma RoundKeepsWhole(a: int)
    ensures Round(100 * a) == a
  {
  }

  /** `a * b` as repeated addition, which keeps the arithmetic of the proofs linear. */
  function Times(a: int, b: nat): int {
    if b == 0 then 0 else Times(a, b - 1) + a
  }

  lemma {:induction false} TimesIsProduct(a: int, b: nat)
    ensures Times(a, b) == a * b
  {
    if b > 0 {
      TimesIsProduct(a, b - 1);
    }
  }

  lemma TimesHundred(a: int)
    ensures Times(a, 100) == 100 * a
  {
    TimesIsProduct(a, 100);
  }

  lemma {:induction false} TimesGrows(a: nat, p: nat, q: nat)
    requires p <= q
    ensures 0 <= Times(a, p) <= Times(a, q)
  {
    if p < q {
      TimesGrows(a, p, q - 1);
    } else if p > 0 {
      TimesGrows(a, p - 1, q - 1);
    }
  }

  /** The value at rank `r / 100` of a sorted sequence, in hundredths, by linear interpolation. */
  function ValueAt(ordered: seq<int>, r: nat): int
    requires ordered != [] && r <= 100 * (|ordered| - 1)
  {
    var lower := r / 100;
    var upper := if lower + 1 < |ordered| - 1 then lower + 1 else |ordered| - 1;
    100 * ordered[lower] + Times(ordered[upper] - ordered[lower], r % 100)
  }

  /** The rank `(n - 1) * percent`, in hundredths. */
  function Rank(n: nat, percent: nat): (r: nat)
    requires n > 0 && percent <= 100
    ensures r <= 100 * (n - 1)
  {
    TimesGrows(n - 1, percent, 100);
    TimesHundred(n - 1);
    Times(n - 1, percent)
  }

  function Percentile(values: seq<int>, percent: nat): int
    requires percent <= 100
  {
    if values == [] then 0 else
    var ordered := Sort(values);
    SortSorts(values);
    if |ordered| == 1 then ordered[0] else Round(ValueAt(ordered, Rank(|ordered|, percent)))
  }

  lemma Between(a: int, b: int, part: nat)
    requires a <= b && part <= 100
    ensures 100 * a <= 100 * a + Times(b - a, part) <= 100 * b
  {
    TimesGrows(b - a, part, 100);
    TimesHundred(b - a);
  }

  lemma ValueInRange(ordered: seq<int>, r: nat)
    requires ordered != [] && Sorted(ordered) && r <= 100 * (|ordered| - 1)
    ensures 100 * ordered[r / 100] <= ValueAt(ordered, r)
    ensures r / 100 + 1 < |ordered| ==> ValueAt(ordered, r) <= 100 * ordered[r / 100 + 1]
    ensures ValueAt(ordered, r) <= 100 * ordered[|ordered| - 1]
  {
    var lower := r / 100;
    var upper := if lower + 1 < |ordered| - 1 then lower + 1 else |ordered| - 1;
    Between(ordered[lower], ordered[upper], r % 100);
  }

  lemma ValueIsMonotone(ordered: seq<int>, p: nat, q: nat)
    requires ordered != [] && Sorted(ordered) && p <= q <= 100 * (|ordered| - 1)
    ensures ValueAt(ordered, p) <= ValueAt(ordered, q)
  {
    ValueInRange(ordered, p);
    ValueInRange(ordered, q);
    if p / 100 == q / 100 {
      var lower := p / 100;
      var upper := if lower + 1 < |ordered| - 1 then lower + 1 else |ordered| - 1;
      TimesGrows(ordered[upper] - ordered[lower], p % 100, q % 100);
    } else {
      assert ordered[p / 100 + 1] <= ordered[q / 100];
    }
  }

  /** A larger percentage never gives a smaller percentile. */
  lemma PercentilesAreOrdered(values: seq<int>, p: nat, q: nat)
    requires p <= q <= 100
    ensures Percentile(values, p) <= Percentile(values, q)
  {
    if |values| > 1 {
      SortSorts(values);
      var ordered := Sort(values);
      var low, high := Rank(|ordered|, p), Rank(|ordered|, q);
      TimesGrows(|ordered| - 1, p, q);
      ValueIsMonotone(ordered, low, high);
      RoundIsMonotone(ValueAt(ordered, low), ValueAt(ordered, high));
    }
  }

  // ---------- the statistics row ----------

  datatype Stats = Stats(count: nat, min: int, p50: int, p95: int, p99: int, max: int)

  function Least(values: seq<int>): (m: int)
    requires values != []
    ensures m in values && forall v | v in values :: m <= v
  {
    if |values| == 1 then values[0] else
    var rest := Least(values[1..]);
    assert values == [values[0]] + values[1..];
    if values[0] < rest then values[0] else rest
  }

  function Greatest(values: seq<int>): (m: int)
    requires values != []
    ensures m in values && forall v | v in values :: v <= m
  {
    if |values| == 1 then values[0] else
    var rest := Greatest(values[1..]);
    assert values == [values[0]] + values[1..];
    if values[0] > rest then values[0] else rest
  }

  function StatsOf(values: seq<int>): Stats {
    if values == [] then Stats(0, 0, 0, 0, 0, 0)
    else Stats(|values|, Least(values), Percentile(values, 50), Percentile(values, 95), Percentile(values, 99),
        Greatest(values))
  }

  lemma SortedEnds(values: seq<int>)
    requires values != []
    ensures var ordered := Sort(values);
      |ordered| == |values| && ordered[0] == Least(values) && ordered[|ordered| - 1] == Greatest(values)
  {
    SortSorts(values);
    var ordered := Sort(values);
    var n := |ordered| - 1;
    assert ordered[0] in multiset(values) && ordered[n] in multiset(values);
    assert Least(values) in multiset(ordered) && Greatest(values) in multiset(ordered);
    assert ordered[0] in values && ordered[n] in values && Least(values) in ordered && Greatest(values) in ordered;
  }

  lemma EndsAreExtremes(values: seq<int>)
    requires values != []
    ensures Percentile(values, 0) == Least(values) && Percentile(values, 100) == Greatest(values)
  {
    SortedEnds(values);
    var ordered := Sort(values);
    var n := |ordered| - 1;
    if n > 0 {
      TimesHundred(n);
      assert Rank(|ordered|, 0) == 0 && Rank(|ordered|, 100) == 100 * n;
      assert ValueAt(ordered, 0) == 100 * ordered[0];
      assert 100 * n / 100 == n && 100 * n % 100 == 0;
      assert ValueAt(ordered, 100 * n) == 100 * ordered[n];
      RoundKeepsWhole(ordered[0]);
      RoundKeepsWhole(ordered[n]);
    }
  }

  /** The row is ordered and does not depend on the order of the samples. */
  lemma StatsAreOrdered(values: seq<int>)
    ensures var s := StatsOf(values); s.min <= s.p50 <= s.p95 <= s.p99 <= s.max
  {
    if values != [] {
      EndsAreExtremes(values);
      PercentilesAreOrdered(values, 0, 50);
      PercentilesAreOrdered(values, 50, 95);
      PercentilesAreOrdered(values, 95, 99);
      PercentilesAreOrdered(values, 99, 100);
    }
  }

  lemma StatsIgnoreOrder(a: seq<int>, b: seq<int>)
    requires multiset(a) == multiset(b)
    ensures StatsOf(a) == StatsOf(b)
  {
    SortSorts(a);
    SortSorts(b);
    SortedIsUnique(Sort(a), Sort(b));
    assert |multiset(a)| == |a| && |multiset(b)| == |b|;
    if a != [] {
      EndsAreExtremes(a);
      EndsAreExtremes(b);
    }
  }

  // ---------- what a percentile within budget promises ----------

  function CountWithin(values: seq<int>, budget: real): nat {
    if values == [] then 0
    else CountWithin(values[..|values| - 1], budget) + if values[|values| - 1] as real <= budget then 1 else 0
  }

  lemma {:induction false} CountConcat(a: seq<int>, b: seq<int>, budget: real)
    ensures CountWithin(a + b, budget) == CountWithin(a, budget) + CountWithin(b, budget)
  {
    if b == [] {
      assert a + b == a;
    } else {
      CountConcat(a, b[..|b| - 1], budget);
      assert (a + b)[..|a + b| - 1] == a + b[..|b| - 1];
    }
  }

  lemma CountMoves(a: seq<int>, x: int, b: seq<int>, budget: real)
    ensures CountWithin(a + [x] + b, budget) == CountWithin(a + b + [x], budget)
  {
    CountConcat(a + [x], b, budget);
    CountConcat(a, [x], budget);
    CountConcat(a + b, [x], budget);
    CountConcat(a, b, budget);
  }

  lemma {:induction false} CountIgnoresOrder(a: seq<int>, b: seq<int>, budget: real)
    requires multiset(a) == multiset(b)
    ensures CountWithin(a, budget) == CountWithin(b, budget)
  {
    assert |multiset(a)| == |a| && |multiset(b)| == |b|;
    if a != [] {
      var n := |a| - 1;
      assert a[n] in multiset(b);
      var k :| 0 <= k < |b| && b[k] == a[n];
      var front, back := b[..k], b[k + 1..];
      assert b == front + [a[n]] + back;
      DropLast(a);
      assert multiset(front + back) == multiset(b) - multiset{a[n]};
      CountIgnoresOrder(a[..n], front + back, budget);
      CountMoves(front, a[n], back, budget);
      assert (front + back + [a[n]])[..n] == front + back;
    }
  }

  lemma {:induction false} CountAll(values: seq<int>, budget: real)
    requires forall v | v in values :: v as real <= budget
    ensures CountWithin(values, budget) == |values|
  {
    if values != [] {
      var prefix := values[..|values| - 1];
      assert values[|values| - 1] in values;
      forall i | 0 <= i < |prefix| ensures prefix[i] as real <= budget {
        assert values[i] in values;
      }
      CountAll(prefix, budget);
    }
  }

  lemma PercentileAboveRank(values: seq<int>, percent: nat)
    requires values != [] && percent <= 100
    ensures var ordered, lower := Sort(values), Rank(|values|, percent) / 100;
      lower < |ordered| == |values| && ordered[lower] <= Percentile(values, percent)
  {
    SortSorts(values);
    var ordered := Sort(values);
    var rank := Rank(|ordered|, percent);
    var lower := rank / 100;
    ValueInRange(ordered, rank);
    RoundIsMonotone(100 * ordered[lower], ValueAt(ordered, rank));
    RoundKeepsWhole(ordered[lower]);
  }

  lemma FirstWithin(ordered: seq<int>, lower: nat, budget: real)
    requires Sorted(ordered) && lower < |ordered| && ordered[lower] as real <= budget
    ensures CountWithin(ordered, budget) >= lower + 1
  {
    var low, high := ordered[..lower + 1], ordered[lower + 1..];
    forall v | v in low ensures v as real <= budget {
      assert v <= ordered[lower];
    }
    CountAll(low, budget);
    CountConcat(low, high, budget);
    assert ordered == low + high;
  }

  /** If the percentile (rounding included) is within budget, so are at least floor(p(n-1)/100) + 1 of the n samples. */
  lemma WithinBudgetCount(values: seq<int>, percent: nat, budget: real)
    requires values != [] && percent <= 100 && Percentile(values, percent) as real <= budget
    ensures CountWithin(values, budget) >= Rank(|values|, percent) / 100 + 1
  {
    SortSorts(values);
    PercentileAboveRank(values, percent);
    FirstWithin(Sort(values), Rank(|values|, percent) / 100, budget);
    CountIgnoresOrder(Sort(values), values, budget);
  }
}
