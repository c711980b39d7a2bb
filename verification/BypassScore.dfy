/** summarize_bypass_evidence of app/bypass.py: bounded scores from repeated evidence rows. */
module BypassScore {
  import opened Common

  /** `weight` is clamped at zero when it is read. */
  datatype Row = Row(ip: string, key: string, weight: int)
  datatype Status = Clear | Watch | Elevated | High
  datatype Device = Device(signals: nat, unique: map<string, nat>)
  datatype Summary = Summary(score: nat, status: Status, devices: map<string, nat>)

  function Weight(r: Row): nat {
    if r.weight > 0 then r.weight else 0
  }

  function Min(a: int, b: int): int {
    if a < b then a else b
  }

  function Max(a: int, b: int): int {
    if a > b then a else b
  }

  function ScoreStatus(score: int): Status {
    if score <= 0 then Clear else if score < 20 then Watch else if score < 45 then Elevated else High
  }

  // ---------- sums over a dict ----------

  ghost function Sum<K>(m: map<K, nat>): nat
    decreases |m.Keys|
  {
    if m.Keys == {} then 0 else
    var k :| k in m.Keys;
    assert (m - {k}).Keys == m.Keys - {k};
    m[k] + Sum(m - {k})
  }

  lemma {:induction false} SumWithout<K>(m: map<K, nat>, k: K)
    requires k in m
    ensures Sum(m) == m[k] + Sum(m - {k})
    decreases |m.Keys|
  {
    var j :| j in m.Keys && Sum(m) == m[j] + Sum(m - {j});
    if j != k {
      assert (m - {j}).Keys == m.Keys - {j} && (m - {k}).Keys == m.Keys - {k};
      SumWithout(m - {j}, k);
      SumWithout(m - {k}, j);
      assert m - {j} - {k} == m - {k} - {j};
    }
  }

  /** One entry raised or added raises the sum; the rest stays. */
  lemma SumRaise<K>(m: map<K, nat>, k: K, v: nat)
    requires k in m ==> m[k] <= v
    ensures Sum(m[k := v]) == Sum(m) - (if k in m then m[k] else 0) + v
  {
    SumWithout(m[k := v], k);
    assert m[k := v] - {k} == m - {k};
    if k in m {
      SumWithout(m, k);
    } else {
      assert m - {k} == m;
    }
  }

  // ---------- the accumulators ----------

  function Raise<K>(m: map<K, nat>, k: K, weight: nat): map<K, nat> {
    m[k := if k in m && m[k] > weight then m[k] else weight]
  }

  /** `_unique` of one device: the greatest weight of each of its signal keys. */
  function Unique(rows: seq<Row>, ip: string): map<string, nat> {
    if rows == [] then map[] else
    var before, last := Unique(rows[..|rows| - 1], ip), rows[|rows| - 1];
    if last.ip == ip then Raise(before, last.key, Weight(last)) else before
  }

  /** `global_unique`: the greatest weight of each (device, key). */
  function Global(rows: seq<Row>): map<(string, string), nat> {
    if rows == [] then map[] else
    var last := rows[|rows| - 1];
    Raise(Global(rows[..|rows| - 1]), (last.ip, last.key), Weight(last))
  }

  function Signals(rows: seq<Row>, ip: string): nat {
    if rows == [] then 0 else Signals(rows[..|rows| - 1], ip) + if rows[|rows| - 1].ip == ip then 1 else 0
  }

  ghost function DeviceScore(rows: seq<Row>, ip: string): (score: int)
    ensures 0 <= score <= 100
  {
    Min(100, Sum(Unique(rows, ip)) + Min(10, 2 * Max(0, Signals(rows, ip) - 1)))
  }

  ghost function OverallScore(rows: seq<Row>): (score: int)
    ensures 0 <= score <= 100
  {
    Min(100, Sum(Global(rows)) + Min(15, Max(0, |rows| - |Global(rows)|)))
  }

  // ---------- the accumulators depend only on which rows occur ----------

  ghost predicate Greatest(m: map<(string, string), nat>, rows: seq<Row>) {
    && (forall r | r in rows :: (r.ip, r.key) in m && Weight(r) <= m[(r.ip, r.key)])
    && (forall p | p in m :: exists r | r in rows :: (r.ip, r.key) == p && Weight(r) == m[p])
  }

  lemma {:induction false} GlobalIsGreatest(rows: seq<Row>)
    ensures Greatest(Global(rows), rows)
  {
    if rows != [] {
      var n := |rows| - 1;
      GlobalIsGreatest(rows[..n]);
      assert rows == rows[..n] + [rows[n]];
      var before, after := Global(rows[..n]), Global(rows);
      forall p | p in after ensures exists r | r in rows :: (r.ip, r.key) == p && Weight(r) == after[p] {
        if p == (rows[n].ip, rows[n].key) && after[p] == Weight(rows[n]) {
          assert rows[n] in rows;
        } else {
          var r :| r in rows[..n] && (r.ip, r.key) == p && Weight(r) == before[p];
          assert r in rows;
        }
      }
    }
  }

  lemma GreatestIsUnique(m: map<(string, string), nat>, n: map<(string, string), nat>, a: seq<Row>, b: seq<Row>)
    requires Greatest(m, a) && Greatest(n, b) && forall r :: r in a <==> r in b
    ensures m == n
  {
    assert forall p | p in m :: p in n && m[p] <= n[p];
    assert forall p | p in n :: p in m && n[p] <= m[p];
  }

  /** One device's dict is its part of the global one. */
  lemma {:induction false} UniqueIsSlice(rows: seq<Row>, ip: string)
    ensures forall k :: k in Unique(rows, ip) <==> (ip, k) in Global(rows)
    ensures forall k | k in Unique(rows, ip) :: Unique(rows, ip)[k] == Global(rows)[(ip, k)]
  {
    if rows != [] {
      UniqueIsSlice(rows[..|rows| - 1], ip);
    }
  }

  lemma SameRowsSameDicts(a: seq<Row>, b: seq<Row>, ip: string)
    requires forall r :: r in a <==> r in b
    ensures Global(a) == Global(b) && Unique(a, ip) == Unique(b, ip)
  {
    GlobalIsGreatest(a);
    GlobalIsGreatest(b);
    GreatestIsUnique(Global(a), Global(b), a, b);
    UniqueIsSlice(a, ip);
    UniqueIsSlice(b, ip);
  }

  // ---------- counts ----------

  lemma {:induction false} SignalsConcat(a: seq<Row>, b: seq<Row>, ip: string)
    ensures Signals(a + b, ip) == Signals(a, ip) + Signals(b, ip)
  {
    if b == [] {
      assert a + b == a;
    } else {
      SignalsConcat(a, b[..|b| - 1], ip);
      assert (a + b)[..|a + b| - 1] == a + b[..|b| - 1];
    }
  }

  lemma SignalsMove(a: seq<Row>, x: Row, b: seq<Row>, ip: string)
    ensures Signals(a + [x] + b, ip) == Signals(a + b + [x], ip)
  {
    SignalsConcat(a + [x], b, ip);
    SignalsConcat(a, [x], ip);
    SignalsConcat(a + b, [x], ip);
    SignalsConcat(a, b, ip);
  }

  lemma {:induction false} SignalsIgnoreOrder(a: seq<Row>, b: seq<Row>, ip: string)
    requires multiset(a) == multiset(b)
    ensures Signals(a, ip) == Signals(b, ip) && |a| == |b|
  {
    assert |multiset(a)| == |a| && |multiset(b)| == |b|;
    if a != [] {
      var n := |a| - 1;
      assert a[n] in multiset(b);
      var k :| 0 <= k < |b| && b[k] == a[n];
      var front, back := b[..k], b[k + 1..];
      assert b == front + [a[n]] + back;
      DropLast(a);
      assert multiset(front + back) == multiset(b) - multiset{a[n]};
      SignalsIgnoreOrder(a[..n], front + back, ip);
      SignalsMove(front, a[n], back, ip);
      assert (front + back + [a[n]])[..n] == front + back;
    }
  }

  // ---------- the promises ----------

  /** Scores do not depend on the order of the evidence. */
  lemma OrderDoesNotMatter(a: seq<Row>, b: seq<Row>, ip: string)
    requires multiset(a) == multiset(b)
    ensures DeviceScore(a, ip) == DeviceScore(b, ip) && OverallScore(a) == OverallScore(b)
  {
    SignalsIgnoreOrder(a, b, ip);
    forall r ensures r in a <==> r in b {
      assert r in a <==> r in multiset(a);
      assert r in b <==> r in multiset(b);
    }
    SameRowsSameDicts(a, b, ip);
  }

  lemma {:induction false} KeysFit(rows: seq<Row>)
    ensures |Global(rows)| <= |rows|
  {
    if rows != [] {
      var n := |rows| - 1;
      KeysFit(rows[..n]);
      RaiseSize(Global(rows[..n]), (rows[n].ip, rows[n].key), Weight(rows[n]));
    }
  }

  lemma RaiseSize<K>(m: map<K, nat>, k: K, weight: nat)
    ensures |Raise(m, k, weight)| == |m| + if k in m then 0 else 1
  {
    var after := Raise(m, k, weight);
    assert after.Keys == m.Keys + {k};
    assert |after| == |after.Keys| && |m| == |m.Keys|;
  }

  lemma RaiseGrows<K>(m: map<K, nat>, k: K, weight: nat)
    ensures Sum(Raise(m, k, weight)) >= Sum(m)
  {
    SumRaise(m, k, Raise(m, k, weight)[k]);
  }

  /** A row added at the end never lowers a device score; with the order lemma, wherever it is added. */
  lemma AddedRowNeverLowersDevice(rows: seq<Row>, r: Row, ip: string)
    ensures DeviceScore(rows + [r], ip) >= DeviceScore(rows, ip)
  {
    assert (rows + [r])[..|rows|] == rows;
    if r.ip == ip {
      RaiseGrows(Unique(rows, ip), r.key, Weight(r));
    }
  }

  ghost predicate NoWorse(a: Status, b: Status) {
    a == Clear || a == b || b == High || (a == Watch && b == Elevated)
  }

  /** Nor does it lower the overall score: a first sight of a key adds its weight, a repetition at most a point. */
  lemma AddedRowNeverLowersOverall(rows: seq<Row>, r: Row)
    ensures OverallScore(rows + [r]) >= OverallScore(rows)
    ensures NoWorse(ScoreStatus(OverallScore(rows)), ScoreStatus(OverallScore(rows + [r])))
  {
    assert (rows + [r])[..|rows|] == rows;
    KeysFit(rows);
    RaiseGrows(Global(rows), (r.ip, r.key), Weight(r));
    RaiseSize(Global(rows), (r.ip, r.key), Weight(r));
  }

  lemma RepeatsAddNothing(rows: seq<Row>, repeats: seq<Row>, ip: string)
    requires forall r | r in repeats :: r in rows
    ensures Global(rows + repeats) == Global(rows) && Unique(rows + repeats, ip) == Unique(rows, ip)
  {
    forall r ensures r in rows + repeats <==> r in rows {
    }
    SameRowsSameDicts(rows + repeats, rows, ip);
  }

  /** Repeating rows that are already there, any number of times, adds at most 10 to a device and 15 overall. */
  lemma RepetitionIsBounded(rows: seq<Row>, repeats: seq<Row>, ip: string)
    requires forall r | r in repeats :: r in rows
    ensures DeviceScore(rows + repeats, ip) <= DeviceScore(rows, ip) + 10
    ensures OverallScore(rows + repeats) <= OverallScore(rows) + 15
  {
    RepeatsAddNothing(rows, repeats, ip);
    KeysFit(rows);
  }

  // ---------- the loop ----------

  function Ips(rows: seq<Row>): set<string> {
    set r | r in rows :: r.ip
  }

  ghost predicate Filled(devices: map<string, Device>, rows: seq<Row>) {
    && devices.Keys == Ips(rows)
    && (forall ip | ip in devices :: devices[ip] == Device(Signals(rows, ip), Unique(rows, ip)))
  }

  lemma {:induction false} Unseen(rows: seq<Row>, ip: string)
    requires ip !in Ips(rows)
    ensures Signals(rows, ip) == 0 && Unique(rows, ip) == map[]
  {
    if rows != [] {
      assert forall r | r in rows[..|rows| - 1] :: r in rows;
      assert rows[|rows| - 1] in rows;
      Unseen(rows[..|rows| - 1], ip);
    }
  }

  method SumValues<K(==)>(m: map<K, nat>) returns (total: nat)
    ensures total == Sum(m)
  {
    total := 0;
    var rest := m;
    while rest.Keys != {}
      invariant total + Sum(rest) == Sum(m)
      decreases |rest.Keys|
    {
      var k :| k in rest.Keys;
      SumWithout(rest, k);
      total := total + rest[k];
      assert (rest - {k}).Keys == rest.Keys - {k};
      rest := rest - {k};
    }
  }

  function Recorded(devices: map<string, Device>, r: Row): map<string, Device> {
    var bucket := if r.ip in devices then devices[r.ip] else Device(0, map[]);
    devices[r.ip := Device(bucket.signals + 1, Raise(bucket.unique, r.key, Weight(r)))]
  }

  lemma RecordedFills(devices: map<string, Device>, rows: seq<Row>, r: Row)
    requires Filled(devices, rows)
    ensures Filled(Recorded(devices, r), rows + [r])
  {
    var all := rows + [r];
    assert all[..|rows|] == rows;
    if r.ip !in devices {
      Unseen(rows, r.ip);
    }
    assert Ips(all) == Ips(rows) + {r.ip} by {
      assert r in all && forall x | x in rows :: x in all;
    }
  }

  method Collect(rows: seq<Row>) returns (devices: map<string, Device>, unique: map<(string, string), nat>)
    ensures Filled(devices, rows) && unique == Global(rows)
  {
    devices, unique := map[], map[];
    for k := 0 to |rows|
      invariant Filled(devices, rows[..k]) && unique == Global(rows[..k])
    {
      var r := rows[k];
      assert rows[..k + 1] == rows[..k] + [r] && rows[..k + 1][..k] == rows[..k];
      RecordedFills(devices, rows[..k], r);
      devices := Record(devices, r);
      unique := Raise(unique, (r.ip, r.key), Weight(r));
    }
    assert rows[..|rows|] == rows;
  }

  method Record(before: map<string, Device>, r: Row) returns (devices: map<string, Device>)
    ensures devices == Recorded(before, r)
  {
    devices := before;
    if r.ip !in devices {
      devices := devices[r.ip := Device(0, map[])];
    }
    var bucket := devices[r.ip];
    devices := devices[r.ip := Device(bucket.signals + 1, Raise(bucket.unique, r.key, Weight(r)))];
  }

  method ScoreDevices(devices: map<string, Device>, ghost rows: seq<Row>) returns (scores: map<string, nat>)
    requires Filled(devices, rows)
    ensures scores.Keys == devices.Keys && forall ip | ip in scores :: scores[ip] == DeviceScore(rows, ip)
  {
    scores := map[];
    var pending := devices.Keys;
    while pending != {}
      invariant pending <= devices.Keys && scores.Keys == devices.Keys - pending
      invariant forall ip | ip in scores :: scores[ip] == DeviceScore(rows, ip)
      decreases |pending|
    {
      var ip :| ip in pending;
      var base := SumValues(devices[ip].unique);
      var recurrence := Min(10, 2 * Max(0, devices[ip].signals - 1));
      scores := scores[ip := Min(100, base + recurrence)];
      pending := pending - {ip};
    }
  }

  method Summarize(rows: seq<Row>) returns (summary: Summary)
    ensures summary.score == OverallScore(rows) && summary.status == ScoreStatus(OverallScore(rows))
    ensures summary.devices.Keys == Ips(rows)
    ensures forall ip | ip in summary.devices :: summary.devices[ip] == DeviceScore(rows, ip)
  {
    var devices, unique := Collect(rows);
    var scores := ScoreDevices(devices, rows);
    var total := SumValues(unique);
    var score := Min(100, total + Min(15, Max(0, |rows| - |unique|)));
    summary := Summary(score, ScoreStatus(score), scores);
  }
}
