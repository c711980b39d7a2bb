/** _acceptance_report of app/performance.py: the responsiveness gate over retained request samples. */
module LatencyGate {
  import opened LatencyStats

  /** `connects` is the recorded number of RouterOS connections; durations are microseconds. */
  datatype Sample = Sample(
    verb: string, route: string, components: set<string>, connects: int, status: int, error: bool, duration: int)

  datatype Class = Navigation | LocalWrite | RouterAction | RouterRead | Unclassified
  datatype State = Pass | Fail | Pending
  datatype Row = Row(state: State, samples: nat, valid: nat, stats: Stats)
  datatype Gate = Gate(overall: State, rows: seq<Row>, connections: State)

  /** The four p95 budgets in milliseconds, scaled to microseconds. */
  datatype Budgets = Budgets(navigation: real, localWrite: real, routerAction: real, routerRead: real)

  predicate StartsWith(s: string, prefix: string) {
    |prefix| <= |s| && s[..|prefix|] == prefix
  }

  /** A component that opens or needs a RouterOS transport. */
  predicate IsTransport(name: string) {
    StartsWith(name, "routeros.") && name != "routeros.mutation_status" && name != "routeros.coherent_session"
  }

  predicate UsesRouter(s: Sample) {
    exists name | name in s.components :: IsTransport(name)
  }

  function ClassOf(s: Sample): Class {
    if s.verb == "GET" && StartsWith(s.route, "/?view=") then Navigation
    else if s.verb == "POST" then if UsesRouter(s) then RouterAction else LocalWrite
    else if s.verb == "GET" && UsesRouter(s) then RouterRead
    else Unclassified
  }

  predicate IsValid(s: Sample) {
    !s.error && 200 <= s.status < 400
  }

  // ---------- selections ----------

  function Of(samples: seq<Sample>, c: Class): seq<Sample> {
    if samples == [] then [] else
    var last := samples[|samples| - 1];
    Of(samples[..|samples| - 1], c) + if ClassOf(last) == c then [last] else []
  }

  function RouterOnly(samples: seq<Sample>): seq<Sample> {
    if samples == [] then [] else
    var last := samples[|samples| - 1];
    RouterOnly(samples[..|samples| - 1]) + if UsesRouter(last) then [last] else []
  }

  function ValidOnly(samples: seq<Sample>): seq<Sample> {
    if samples == [] then [] else
    var last := samples[|samples| - 1];
    ValidOnly(samples[..|samples| - 1]) + if IsValid(last) then [last] else []
  }

  function Durations(samples: seq<Sample>): seq<int> {
    if samples == [] then [] else Durations(samples[..|samples| - 1]) + [samples[|samples| - 1].duration]
  }

  lemma {:induction false} DurationsLength(samples: seq<Sample>)
    ensures |Durations(samples)| == |samples|
  {
    if samples != [] {
      DurationsLength(samples[..|samples| - 1]);
    }
  }

  lemma {:induction false} ValidMembers(samples: seq<Sample>)
    ensures forall s :: s in ValidOnly(samples) <==> s in samples && IsValid(s)
  {
    if samples != [] {
      ValidMembers(samples[..|samples| - 1]);
      assert samples == samples[..|samples| - 1] + [samples[|samples| - 1]];
    }
  }

  lemma {:induction false} ValidLength(samples: seq<Sample>)
    ensures |ValidOnly(samples)| <= |samples|
    ensures |ValidOnly(samples)| == |samples| ==> ValidOnly(samples) == samples
  {
    if samples != [] {
      ValidLength(samples[..|samples| - 1]);
      assert samples == samples[..|samples| - 1] + [samples[|samples| - 1]];
    }
  }

  lemma {:induction false} AllValid(samples: seq<Sample>)
    requires forall s | s in samples :: IsValid(s)
    ensures ValidOnly(samples) == samples
  {
    if samples != [] {
      var prefix, last := samples[..|samples| - 1], samples[|samples| - 1];
      assert samples == prefix + [last] && last in samples;
      AllValid(prefix);
    }
  }

  /** Filtering loses nothing exactly when everything is valid. */
  lemma ValidKeepsAll(samples: seq<Sample>)
    ensures |Durations(samples)| == |samples| && |ValidOnly(samples)| <= |samples|
    ensures |ValidOnly(samples)| == |samples| <==> forall s | s in samples :: IsValid(s)
    ensures |ValidOnly(samples)| == |samples| ==> ValidOnly(samples) == samples
  {
    DurationsLength(samples);
    ValidMembers(samples);
    ValidLength(samples);
    if forall s | s in samples :: IsValid(s) {
      AllValid(samples);
    }
  }

  // ---------- one row ----------

  function RowOf(group: seq<Sample>, budget: real, minimum: nat): Row {
    var valid := ValidOnly(group);
    var stats := StatsOf(Durations(valid));
    var state :=
      if |valid| < minimum then Pending
      else if |valid| < |group| then Fail
      else if stats.p95 as real <= budget then Pass
      else Fail;
    Row(state, |group|, |valid|, stats)
  }

  function ConnectionState(router: seq<Sample>, minimum: nat): State {
    var valid := ValidOnly(router);
    if |valid| < minimum then Pending
    else if |valid| < |router| then Fail
    else if exists s | s in valid :: s.connects <= 0 then Pending
    else if exists s | s in valid :: s.connects > 1 then Fail
    else Pass
  }

  function Overall(states: seq<State>): State {
    if Fail in states then Fail else if Pending in states then Pending else Pass
  }

  // ---------- what a passing gate promises ----------

  /** Enough samples, all of them valid, and the p95 within budget. */
  predicate ClassPasses(group: seq<Sample>, budget: real, minimum: nat) {
    |group| >= minimum && (forall s | s in group :: IsValid(s)) && Percentile(Durations(group), 95) as real <= budget
  }

  /** Missing instrumentation never reads as zero connections: exactly one in every router request. */
  predicate ConnectionsPass(router: seq<Sample>, minimum: nat) {
    |router| >= minimum && forall s | s in router :: IsValid(s) && s.connects == 1
  }

  /** A passing class has at least floor(95(n-1)/100) + 1 of its n samples within budget. */
  lemma PassingRow(group: seq<Sample>, budget: real, minimum: nat)
    requires minimum > 0
    ensures RowOf(group, budget, minimum).state == Pass <==> ClassPasses(group, budget, minimum)
    ensures RowOf(group, budget, minimum).state == Pass ==>
              CountWithin(Durations(group), budget) >= (|group| - 1) * 95 / 100 + 1
  {
    ValidKeepsAll(group);
    if |ValidOnly(group)| == |group| >= minimum {
      assert StatsOf(Durations(group)).p95 == Percentile(Durations(group), 95);
      PassingCount(Durations(group), budget);
    }
  }

  lemma PassingCount(durations: seq<int>, budget: real)
    requires durations != []
    ensures Percentile(durations, 95) as real <= budget ==>
              CountWithin(durations, budget) >= (|durations| - 1) * 95 / 100 + 1
  {
    if Percentile(durations, 95) as real <= budget {
      TimesIsProduct(|durations| - 1, 95);
      WithinBudgetCount(durations, 95, budget);
    }
  }

  lemma PassingConnections(router: seq<Sample>, minimum: nat)
    ensures ConnectionState(router, minimum) == Pass <==> ConnectionsPass(router, minimum)
  {
    ValidKeepsAll(router);
    if |ValidOnly(router)| == |router| {
      assert ValidOnly(router) == router;
    }
  }

  function ReportOf(samples: seq<Sample>, budgets: Budgets, minimum: nat): Gate {
    var rows := [
      RowOf(Of(samples, Navigation), budgets.navigation, minimum),
      RowOf(Of(samples, LocalWrite), budgets.localWrite, minimum),
      RowOf(Of(samples, RouterAction), budgets.routerAction, minimum),
      RowOf(Of(samples, RouterRead), budgets.routerRead, minimum)];
    var connections := ConnectionState(RouterOnly(samples), minimum);
    Gate(Overall([rows[0].state, rows[1].state, rows[2].state, rows[3].state, connections]), rows, connections)
  }

  /** The gate passes exactly when every class and the connection rule pass. */
  lemma PassingGate(samples: seq<Sample>, budgets: Budgets, minimum: nat)
    requires minimum > 0
    ensures ReportOf(samples, budgets, minimum).overall == Pass <==>
      && ClassPasses(Of(samples, Navigation), budgets.navigation, minimum)
      && ClassPasses(Of(samples, LocalWrite), budgets.localWrite, minimum)
      && ClassPasses(Of(samples, RouterAction), budgets.routerAction, minimum)
      && ClassPasses(Of(samples, RouterRead), budgets.routerRead, minimum)
      && ConnectionsPass(RouterOnly(samples), minimum)
  {
    PassingRow(Of(samples, Navigation), budgets.navigation, minimum);
    PassingRow(Of(samples, LocalWrite), budgets.localWrite, minimum);
    PassingRow(Of(samples, RouterAction), budgets.routerAction, minimum);
    PassingRow(Of(samples, RouterRead), budgets.routerRead, minimum);
    PassingConnections(RouterOnly(samples), minimum);
    AllPass(
      RowOf(Of(samples, Navigation), budgets.navigation, minimum).state,
      RowOf(Of(samples, LocalWrite), budgets.localWrite, minimum).state,
      RowOf(Of(samples, RouterAction), budgets.routerAction, minimum).state,
      RowOf(Of(samples, RouterRead), budgets.routerRead, minimum).state,
      ConnectionState(RouterOnly(samples), minimum));
  }

  lemma AllPass(a: State, b: State, c: State, d: State, e: State)
    ensures Overall([a, b, c, d, e]) == Pass <==> a == b == c == d == e == Pass
  {
    var all := [a, b, c, d, e];
    assert all[0] == a && all[1] == b && all[2] == c && all[3] == d && all[4] == e;
  }

  // ---------- the report loop ----------

  method AcceptanceReport(samples: seq<Sample>, budgets: Budgets, minimum: nat) returns (gate: Gate)
    ensures gate == ReportOf(samples, budgets, minimum)
  {
    var navigation: seq<Sample>, localWrite: seq<Sample> := [], [];
    var routerAction: seq<Sample>, routerRead: seq<Sample>, router: seq<Sample> := [], [], [];
    for k := 0 to |samples|
      invariant navigation == Of(samples[..k], Navigation) && localWrite == Of(samples[..k], LocalWrite)
      invariant routerAction == Of(samples[..k], RouterAction) && routerRead == Of(samples[..k], RouterRead)
      invariant router == RouterOnly(samples[..k])
    {
      assert samples[..k + 1][..k] == samples[..k];
      var s := samples[k];
      var usesRouter := UsesRouter(s);
      if usesRouter {
        router := router + [s];
      }
      if s.verb == "GET" && StartsWith(s.route, "/?view=") {
        navigation := navigation + [s];
      } else if s.verb == "POST" && usesRouter {
        routerAction := routerAction + [s];
      } else if s.verb == "POST" {
        localWrite := localWrite + [s];
      } else if s.verb == "GET" && usesRouter {
        routerRead := routerRead + [s];
      }
    }
    assert samples[..|samples|] == samples;
    var rows := [
      RowOf(navigation, budgets.navigation, minimum), RowOf(localWrite, budgets.localWrite, minimum),
      RowOf(routerAction, budgets.routerAction, minimum), RowOf(routerRead, budgets.routerRead, minimum)];
    var connections := ConnectionState(router, minimum);
    var states := [rows[0].state, rows[1].state, rows[2].state, rows[3].state, connections];
    gate := Gate(Overall(states), rows, connections);
  }
}
