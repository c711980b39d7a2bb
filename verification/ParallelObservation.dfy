/** ParallelObserver.observe of app/parallel_observation.py under every interleaving of its worker threads.
    What the reader does with item `i` is the parameter `outcomes[i]`. */
module ParallelObservation {
  import opened Common
  import opened Text

  datatype Outcome<V> = Value(value: V) | Raised(text: string)
  datatype Rejection = NoKey(index: nat) | Duplicated(index: nat)
  datatype Report<V> = Report(
    results: seq<(string, V)>, errors: seq<(string, string)>, order: seq<string>, workers: nat, maxActive: nat)
  datatype Answer<V> = Refused(rejection: Rejection) | Observed(report: Report<V>)

  // ---------- keys ----------

  /** The first key that is empty after stripping or repeats an earlier one. */
  function FirstBad(keys: seq<string>): Option<Rejection> {
    if keys == [] then None else
    var n := |keys| - 1;
    var before := FirstBad(keys[..n]);
    if before.Some? then before
    else if keys[n] == "" then Some(NoKey(n))
    else if keys[n] in keys[..n] then Some(Duplicated(n))
    else None
  }

  lemma {:induction false} FirstBadIff(keys: seq<string>)
    ensures FirstBad(keys).None? <==>
      (forall k | k in keys :: k != "") && forall i, j | 0 <= i < j < |keys| :: keys[i] != keys[j]
  {
    if keys != [] {
      var n := |keys| - 1;
      FirstBadIff(keys[..n]);
      assert keys == keys[..n] + [keys[n]];
      if FirstBad(keys[..n]).Some? {
        if forall k | k in keys[..n] :: k != "" {
          var i, j :| 0 <= i < j < n && keys[..n][i] == keys[..n][j];
          assert keys[i] == keys[j];
        } else {
          var k :| k in keys[..n] && k == "";
          assert k in keys;
        }
      } else if keys[n] in keys[..n] {
        var i :| 0 <= i < n && keys[..n][i] == keys[n];
        assert keys[i] == keys[n];
      } else {
        assert keys[n] in keys;
        assert forall i | 0 <= i < n :: keys[i] == keys[..n][i] && keys[i] in keys[..n];
      }
    }
  }

  lemma {:induction false} FirstBadStays(keys: seq<string>, n: nat)
    requires n <= |keys| && FirstBad(keys[..n]).Some?
    ensures FirstBad(keys) == FirstBad(keys[..n])
    decreases |keys|
  {
    if n == |keys| {
      assert keys[..n] == keys;
    } else {
      assert keys[..|keys| - 1][..n] == keys[..n];
      FirstBadStays(keys[..|keys| - 1], n);
    }
  }

  // ---------- what the caller gets ----------

  function Clip(text: string): string {
    if |text| > 300 then text[..300] else text
  }

  function Results<V>(keys: seq<string>, outcomes: seq<Outcome<V>>): seq<(string, V)>
    requires |keys| == |outcomes|
  {
    if keys == [] then [] else
    var n := |keys| - 1;
    Results(keys[..n], outcomes[..n]) + if outcomes[n].Value? then [(keys[n], outcomes[n].value)] else []
  }

  function Errors<V>(keys: seq<string>, outcomes: seq<Outcome<V>>): seq<(string, string)>
    requires |keys| == |outcomes|
  {
    if keys == [] then [] else
    var n := |keys| - 1;
    Errors(keys[..n], outcomes[..n]) + if outcomes[n].Raised? then [(keys[n], Clip(outcomes[n].text))] else []
  }

  /** Every key is reported exactly once, as a result or as an error. */
  lemma {:induction false} KeysArePartitioned<V>(keys: seq<string>, outcomes: seq<Outcome<V>>)
    requires |keys| == |outcomes| && forall i, j | 0 <= i < j < |keys| :: keys[i] != keys[j]
    ensures |Results(keys, outcomes)| + |Errors(keys, outcomes)| == |keys|
    ensures forall k :: k in keys <==> (exists r | r in Results(keys, outcomes) :: r.0 == k)
                                       || (exists e | e in Errors(keys, outcomes) :: e.0 == k)
    ensures forall r, e | r in Results(keys, outcomes) && e in Errors(keys, outcomes) :: r.0 != e.0
  {
    if keys != [] {
      var n := |keys| - 1;
      KeysArePartitioned(keys[..n], outcomes[..n]);
      assert keys == keys[..n] + [keys[n]];
      var rs, es := Results(keys, outcomes), Errors(keys, outcomes);
      var rs', es' := Results(keys[..n], outcomes[..n]), Errors(keys[..n], outcomes[..n]);
      assert keys[n] !in keys[..n];
      forall k ensures k in keys <==> (exists r | r in rs :: r.0 == k) || (exists e | e in es :: e.0 == k) {
        if k in keys[..n] {
          if r :| r in rs' && r.0 == k {
            assert r in rs;
          } else {
            var e :| e in es' && e.0 == k;
            assert e in es;
          }
        }
        if k == keys[n] {
          assert outcomes[n].Value? ==> (keys[n], outcomes[n].value) in rs;
          assert outcomes[n].Raised? ==> (keys[n], Clip(outcomes[n].text)) in es;
        }
        if r :| r in rs && r.0 == k {
          assert r in rs' || k == keys[n];
        }
        if e :| e in es && e.0 == k {
          assert e in es' || k == keys[n];
        }
      }
      forall r, e | r in rs && e in es ensures r.0 != e.0 {
        assert r in rs' ==> r.0 in keys[..n];
        assert e in es' ==> e.0 in keys[..n];
      }
    }
  }

  // ---------- the interleavings ----------

  /** Where one submitted item stands: a worker picks it up, counts itself active, runs the reader and counts itself
      out, the future completes, and the submitting thread collects it. */
  datatype Phase = Queued | Picked | Running | Left | Finished | Collected

  datatype State<V> = State(
    phases: seq<Phase>, active: nat, maxActive: nat, results: map<nat, V>, errors: map<nat, string>)

  datatype Step = Pick(i: nat) | Enter(i: nat) | Leave(i: nat) | Finish(i: nat) | Collect(i: nat)

  function Busy(phases: seq<Phase>): nat {
    if phases == [] then 0 else
    var last := phases[|phases| - 1];
    Busy(phases[..|phases| - 1]) + if last == Picked || last == Running || last == Left then 1 else 0
  }

  function RunningCount(phases: seq<Phase>): nat {
    if phases == [] then 0
    else RunningCount(phases[..|phases| - 1]) + if phases[|phases| - 1] == Running then 1 else 0
  }

  /** Workers take the oldest queued item and only while one of them is free; the other steps follow one another. */
  predicate Legal<V>(s: State<V>, workers: nat, step: Step) {
    step.i < |s.phases| &&
    match step
    case Pick(i) => s.phases[i] == Queued && Busy(s.phases) < workers && Queued !in s.phases[..i]
    case Enter(i) => s.phases[i] == Picked
    case Leave(i) => s.phases[i] == Running
    case Finish(i) => s.phases[i] == Left
    case Collect(i) => s.phases[i] == Finished
  }

  function NextPhase(step: Step): Phase {
    match step
    case Pick(_) => Picked
    case Enter(_) => Running
    case Leave(_) => Left
    case Finish(_) => Finished
    case Collect(_) => Collected
  }

  function Take<V>(s: State<V>, outcomes: seq<Outcome<V>>, step: Step): State<V>
    requires step.i < |s.phases| == |outcomes|
  {
    var i := step.i;
    var moved := s.(phases := s.phases[i := NextPhase(step)]);
    match step
    case Enter(_) =>
      moved.(active := s.active + 1, maxActive := if s.active + 1 > s.maxActive then s.active + 1 else s.maxActive)
    case Leave(_) => moved.(active := if s.active > 0 then s.active - 1 else 0)
    case Collect(_) =>
      (match outcomes[i]
       case Value(v) => moved.(results := s.results[i := v])
       case Raised(text) => moved.(errors := s.errors[i := Clip(text)]))
    case _ => moved
  }

  function Submitted<V>(n: nat): State<V> {
    State(seq(n, _ => Queued), 0, 0, map[], map[])
  }

  function After<V>(outcomes: seq<Outcome<V>>, trace: seq<Step>): State<V> {
    if trace == [] then Submitted(|outcomes|) else
    var before := After(outcomes, trace[..|trace| - 1]);
    var step := trace[|trace| - 1];
    if step.i < |before.phases| == |outcomes| then Take(before, outcomes, step) else before
  }

  ghost predicate IsTrace<V>(outcomes: seq<Outcome<V>>, workers: nat, trace: seq<Step>) {
    trace == []
    || (IsTrace(outcomes, workers, trace[..|trace| - 1])
        && Legal(After(outcomes, trace[..|trace| - 1]), workers, trace[|trace| - 1]))
  }

  predicate Complete<V>(s: State<V>) {
    forall p | p in s.phases :: p == Collected
  }

  // ---------- what every step keeps ----------

  ghost predicate Counted<V>(s: State<V>, workers: nat) {
    s.active == RunningCount(s.phases) && Busy(s.phases) <= workers && s.active <= s.maxActive <= workers
  }

  ghost predicate Recorded<V>(s: State<V>, outcomes: seq<Outcome<V>>) {
    && |s.phases| == |outcomes|
    && (forall i: nat :: i in s.results <==> i < |outcomes| && s.phases[i] == Collected && outcomes[i].Value?)
    && (forall i: nat :: i in s.errors <==> i < |outcomes| && s.phases[i] == Collected && outcomes[i].Raised?)
    && (forall i | i in s.results :: s.results[i] == outcomes[i].value)
    && (forall i | i in s.errors :: s.errors[i] == Clip(outcomes[i].text))
  }

  function BusyOne(p: Phase): nat {
    if p == Picked || p == Running || p == Left then 1 else 0
  }

  lemma {:induction false} CountsUpdate(phases: seq<Phase>, i: nat, p: Phase)
    requires i < |phases|
    ensures Busy(phases[i := p]) == Busy(phases) - BusyOne(phases[i]) + BusyOne(p)
    ensures RunningCount(phases[i := p])
         == RunningCount(phases) - (if phases[i] == Running then 1 else 0) + (if p == Running then 1 else 0)
  {
    var n := |phases| - 1;
    if i < n {
      assert phases[i := p][..n] == phases[..n][i := p];
      CountsUpdate(phases[..n], i, p);
    } else {
      assert phases[i := p][..n] == phases[..n];
    }
  }

  lemma {:induction false} RunningAreBusy(phases: seq<Phase>)
    ensures RunningCount(phases) <= Busy(phases)
  {
    if phases != [] {
      RunningAreBusy(phases[..|phases| - 1]);
    }
  }

  lemma {:induction false} NoneBusy(phases: seq<Phase>)
    requires forall p | p in phases :: BusyOne(p) == 0
    ensures Busy(phases) == 0
  {
    if phases != [] {
      assert phases[|phases| - 1] in phases;
      assert forall i | 0 <= i < |phases| - 1 :: phases[i] in phases;
      NoneBusy(phases[..|phases| - 1]);
    }
  }

  lemma StepKeepsCounts<V>(s: State<V>, outcomes: seq<Outcome<V>>, workers: nat, step: Step)
    requires |s.phases| == |outcomes| && Counted(s, workers) && Legal(s, workers, step)
    ensures Counted(Take(s, outcomes, step), workers)
  {
    CountsUpdate(s.phases, step.i, NextPhase(step));
    RunningAreBusy(Take(s, outcomes, step).phases);
  }

  lemma StepKeepsRecords<V>(s: State<V>, outcomes: seq<Outcome<V>>, workers: nat, step: Step)
    requires Recorded(s, outcomes) && Legal(s, workers, step)
    ensures Recorded(Take(s, outcomes, step), outcomes)
  {
    if step.Collect? {
      CollectRecords(s, outcomes, step.i);
    } else {
      var after := Take(s, outcomes, step);
      assert after.results == s.results && after.errors == s.errors;
      assert forall i: nat | i < |outcomes| :: after.phases[i] == Collected <==> s.phases[i] == Collected;
    }
  }

  lemma CollectRecords<V>(s: State<V>, outcomes: seq<Outcome<V>>, i: nat)
    requires Recorded(s, outcomes) && i < |outcomes| && s.phases[i] == Finished
    ensures Recorded(Take(s, outcomes, Collect(i)), outcomes)
  {
  }

  lemma StartIsSound<V>(outcomes: seq<Outcome<V>>, workers: nat)
    ensures Recorded(Submitted(|outcomes|), outcomes) && Counted(Submitted<V>(|outcomes|), workers)
  {
    NoneBusy(Submitted<V>(|outcomes|).phases);
    RunningAreBusy(Submitted<V>(|outcomes|).phases);
  }

  /** In every reachable state of every interleaving the counters and the records are right. */
  lemma {:induction false} TraceKeeps<V>(outcomes: seq<Outcome<V>>, workers: nat, trace: seq<Step>)
    requires IsTrace(outcomes, workers, trace)
    ensures Recorded(After(outcomes, trace), outcomes) && Counted(After(outcomes, trace), workers)
  {
    if trace == [] {
      StartIsSound(outcomes, workers);
    } else {
      TraceKeeps(outcomes, workers, trace[..|trace| - 1]);
      var before := After(outcomes, trace[..|trace| - 1]);
      StepKeepsCounts(before, outcomes, workers, trace[|trace| - 1]);
      StepKeepsRecords(before, outcomes, workers, trace[|trace| - 1]);
    }
  }

  // ---------- completion ----------

  function Rank(p: Phase): nat {
    match p
    case Queued => 0 case Picked => 1 case Running => 2 case Left => 3 case Finished => 4 case Collected => 5
  }

  function Progress(phases: seq<Phase>): nat {
    if phases == [] then 0 else Progress(phases[..|phases| - 1]) + Rank(phases[|phases| - 1])
  }

  lemma {:induction false} ProgressUpdate(phases: seq<Phase>, i: nat, p: Phase)
    requires i < |phases|
    ensures Progress(phases[i := p]) == Progress(phases) - Rank(phases[i]) + Rank(p)
  {
    var n := |phases| - 1;
    if i < n {
      assert phases[i := p][..n] == phases[..n][i := p];
      ProgressUpdate(phases[..n], i, p);
    } else {
      assert phases[i := p][..n] == phases[..n];
    }
  }

  lemma {:induction false} ProgressBound(phases: seq<Phase>)
    ensures Progress(phases) <= 5 * |phases|
    ensures Progress(phases) == 5 * |phases| <==> forall p | p in phases :: p == Collected
  {
    if phases != [] {
      var n := |phases| - 1;
      ProgressBound(phases[..n]);
      assert phases == phases[..n] + [phases[n]] && phases[n] in phases;
      assert forall p | p in phases[..n] :: p in phases;
    }
  }

  lemma {:induction false} NoProgressYet(phases: seq<Phase>)
    requires forall p | p in phases :: p == Queued
    ensures Progress(phases) == 0
  {
    if phases != [] {
      assert phases[|phases| - 1] in phases && forall i | 0 <= i < |phases| - 1 :: phases[i] in phases;
      NoProgressYet(phases[..|phases| - 1]);
    }
  }

  lemma StepAdvances<V>(s: State<V>, outcomes: seq<Outcome<V>>, workers: nat, step: Step)
    requires |s.phases| == |outcomes| && Legal(s, workers, step)
    ensures Progress(Take(s, outcomes, step).phases) == Progress(s.phases) + 1
  {
    ProgressUpdate(s.phases, step.i, NextPhase(step));
    assert Take(s, outcomes, step).phases == s.phases[step.i := NextPhase(step)];
    assert Rank(NextPhase(step)) == Rank(s.phases[step.i]) + 1;
  }

  lemma {:induction false} LengthIsProgress<V>(outcomes: seq<Outcome<V>>, workers: nat, trace: seq<Step>)
    requires IsTrace(outcomes, workers, trace)
    ensures Progress(After(outcomes, trace).phases) == |trace|
  {
    if trace == [] {
      NoProgressYet(Submitted<V>(|outcomes|).phases);
    } else {
      var n := |trace| - 1;
      LengthIsProgress(outcomes, workers, trace[..n]);
      TraceKeeps(outcomes, workers, trace[..n]);
      StepAdvances(After(outcomes, trace[..n]), outcomes, workers, trace[n]);
    }
  }

  function FirstQueued(phases: seq<Phase>): (i: nat)
    ensures i <= |phases| && Queued !in phases[..i] && (i < |phases| ==> phases[i] == Queued)
    ensures i == |phases| ==> Queued !in phases
  {
    if phases == [] || phases[0] == Queued then 0 else
    var i := 1 + FirstQueued(phases[1..]);
    assert phases[..i] == [phases[0]] + phases[1..][..i - 1];
    i
  }

  /** While anything is uncollected some thread can move: the batch cannot deadlock. */
  lemma SomeoneCanMove<V>(s: State<V>, workers: nat) returns (step: Step)
    requires workers > 0 && !Complete(s)
    ensures Legal(s, workers, step)
  {
    var k :| 0 <= k < |s.phases| && s.phases[k] != Collected;
    if j :| 0 <= j < |s.phases| && s.phases[j] != Collected && s.phases[j] != Queued {
      var i: nat := j;
      step := if s.phases[i] == Picked then Enter(i) else if s.phases[i] == Running then Leave(i)
              else if s.phases[i] == Left then Finish(i) else Collect(i);
    } else {
      assert forall j | 0 <= j < |s.phases| :: s.phases[j] == Collected || s.phases[j] == Queued;
      NoneBusy(s.phases);
      assert s.phases[k] == Queued;
      step := Pick(FirstQueued(s.phases));
    }
  }

  /** Every interleaving takes exactly five steps an item: it is complete if and only if it has taken them all. */
  lemma CompletionIsCounted<V>(outcomes: seq<Outcome<V>>, workers: nat, trace: seq<Step>)
    requires IsTrace(outcomes, workers, trace)
    ensures |trace| <= 5 * |outcomes| && (Complete(After(outcomes, trace)) <==> |trace| == 5 * |outcomes|)
  {
    TraceKeeps(outcomes, workers, trace);
    LengthIsProgress(outcomes, workers, trace);
    ProgressBound(After(outcomes, trace).phases);
  }

  // ---------- the answer ----------

  /** `{keys[idx]: ... for idx in range(n) if idx in by_index}`. */
  function InOrder<T>(keys: seq<string>, byIndex: map<nat, T>): seq<(string, T)> {
    if keys == [] then [] else
    var n := |keys| - 1;
    InOrder(keys[..n], byIndex) + if n in byIndex then [(keys[n], byIndex[n])] else []
  }

  lemma {:induction false} CollectedInOrder<V>(
    keys: seq<string>, outcomes: seq<Outcome<V>>, results: map<nat, V>, errors: map<nat, string>)
    requires |keys| == |outcomes|
    requires forall i | 0 <= i < |keys| ::
               (i in results <==> outcomes[i].Value?) && (i in errors <==> outcomes[i].Raised?)
    requires forall i | 0 <= i < |keys| && outcomes[i].Value? :: results[i] == outcomes[i].value
    requires forall i | 0 <= i < |keys| && outcomes[i].Raised? :: errors[i] == Clip(outcomes[i].text)
    ensures InOrder(keys, results) == Results(keys, outcomes) && InOrder(keys, errors) == Errors(keys, outcomes)
  {
    if keys != [] {
      CollectedInOrder(keys[..|keys| - 1], outcomes[..|keys| - 1], results, errors);
    }
  }

  /** Whatever the interleaving, a complete batch reports what a sequential loop reports, with nobody left active. */
  lemma EveryInterleavingAgrees<V>(keys: seq<string>, outcomes: seq<Outcome<V>>, workers: nat, trace: seq<Step>)
    requires |keys| == |outcomes| && IsTrace(outcomes, workers, trace) && Complete(After(outcomes, trace))
    ensures var s := After(outcomes, trace);
      && InOrder(keys, s.results) == Results(keys, outcomes) && InOrder(keys, s.errors) == Errors(keys, outcomes)
      && s.active == 0 && s.maxActive <= workers
  {
    var s := After(outcomes, trace);
    TraceKeeps(outcomes, workers, trace);
    forall i | 0 <= i < |keys| ensures s.phases[i] == Collected {
      assert s.phases[i] in s.phases;
    }
    CollectedInOrder(keys, outcomes, s.results, s.errors);
    NoneBusy(s.phases);
    RunningAreBusy(s.phases);
  }

  // ---------- the code ----------

  function Clamp(maxWorkers: int): nat {
    if maxWorkers < 1 then 1 else if maxWorkers > 8 then 8 else maxWorkers
  }

  function Workers(maxWorkers: int, items: nat): nat {
    if Clamp(maxWorkers) < items then Clamp(maxWorkers) else items
  }

  function Stripped(raw: seq<string>): (keys: seq<string>)
    ensures |keys| == |raw|
  {
    seq(|raw|, i requires 0 <= i < |raw| => Strip(raw[i]))
  }

  /** The keys, or the first offending one; no reader has been called yet. */
  method CheckKeys(raw: seq<string>) returns (keys: seq<string>, bad: Option<Rejection>)
    ensures bad == FirstBad(Stripped(raw)) && (bad.None? ==> keys == Stripped(raw))
  {
    ghost var all := Stripped(raw);
    keys := [];
    var seen: set<string> := {};
    for k := 0 to |raw|
      invariant keys == all[..k] && FirstBad(all[..k]) == None
      invariant seen == set x | x in all[..k]
    {
      var key := Strip(raw[k]);
      assert all[..k + 1] == all[..k] + [key] && all[..k + 1][..k] == all[..k];
      if key == "" {
        FirstBadStays(all, k + 1);
        return keys, Some(NoKey(k));
      }
      if key in seen {
        FirstBadStays(all, k + 1);
        return keys, Some(Duplicated(k));
      }
      seen := seen + {key};
      keys := keys + [key];
    }
    assert all[..|raw|] == all;
    bad := None;
  }

  /** One worker: item after item in input order. */
  method ReadInOrder<V>(keys: seq<string>, outcomes: seq<Outcome<V>>)
    returns (results: seq<(string, V)>, errors: seq<(string, string)>, maxActive: nat)
    requires |keys| == |outcomes|
    ensures results == Results(keys, outcomes) && errors == Errors(keys, outcomes)
    ensures maxActive == if keys == [] then 0 else 1
  {
    var byIndex: map<nat, V>, failed: map<nat, string>, active := map[], map[], 0;
    maxActive := 0;
    for k := 0 to |keys|
      invariant active == 0 && maxActive == if k == 0 then 0 else 1
      invariant (forall i | i in byIndex :: i < k) && (forall i | i in failed :: i < k)
      invariant forall i | 0 <= i < k ::
                  (i in byIndex <==> outcomes[i].Value?) && (i in failed <==> outcomes[i].Raised?)
      invariant forall i | 0 <= i < k && outcomes[i].Value? :: byIndex[i] == outcomes[i].value
      invariant forall i | 0 <= i < k && outcomes[i].Raised? :: failed[i] == Clip(outcomes[i].text)
    {
      active := active + 1;
      maxActive := if active > maxActive then active else maxActive;
      var outcome := outcomes[k];
      active := active - 1;
      match outcome {
        case Value(v) => byIndex := byIndex[k := v];
        case Raised(text) => failed := failed[k := Clip(text)];
      }
    }
    CollectedInOrder(keys, outcomes, byIndex, failed);
    results, errors := InOrder(keys, byIndex), InOrder(keys, failed);
  }

  /** Several workers: the threads take the steps of `trace`, whichever complete interleaving that is. */
  method ReadInParallel<V>(keys: seq<string>, outcomes: seq<Outcome<V>>, workers: nat, trace: seq<Step>)
    returns (results: seq<(string, V)>, errors: seq<(string, string)>, maxActive: nat)
    requires |keys| == |outcomes| && IsTrace(outcomes, workers, trace) && Complete(After(outcomes, trace))
    ensures results == Results(keys, outcomes) && errors == Errors(keys, outcomes) && maxActive <= workers
  {
    var s: State<V> := Submitted(|outcomes|);
    for k := 0 to |trace|
      invariant s == After(outcomes, trace[..k]) && IsTrace(outcomes, workers, trace[..k])
    {
      TracePrefix(outcomes, workers, trace, k + 1);
      assert trace[..k + 1][..k] == trace[..k];
      TraceKeeps(outcomes, workers, trace[..k]);
      s := Take(s, outcomes, trace[k]);
    }
    assert trace[..|trace|] == trace;
    EveryInterleavingAgrees(keys, outcomes, workers, trace);
    results, errors, maxActive := InOrder(keys, s.results), InOrder(keys, s.errors), s.maxActive;
  }

  lemma {:induction false} TracePrefix<V>(outcomes: seq<Outcome<V>>, workers: nat, trace: seq<Step>, k: nat)
    requires k <= |trace| && IsTrace(outcomes, workers, trace)
    ensures IsTrace(outcomes, workers, trace[..k])
    decreases |trace|
  {
    if k == |trace| {
      assert trace[..k] == trace;
    } else {
      assert trace[..|trace| - 1][..k] == trace[..k];
      TracePrefix(outcomes, workers, trace[..|trace| - 1], k);
    }
  }

  /** The whole call. A bad key refuses the batch before any outcome is looked at. */
  method Observe<V>(raw: seq<string>, outcomes: seq<Outcome<V>>, maxWorkers: int, trace: seq<Step>)
    returns (answer: Answer<V>)
    requires |raw| == |outcomes|
    requires var workers := Workers(maxWorkers, |raw|);
      workers > 1 ==> IsTrace(outcomes, workers, trace) && Complete(After(outcomes, trace))
    ensures answer.Refused? <==> FirstBad(Stripped(raw)).Some?
    ensures answer.Refused? ==> answer.rejection == FirstBad(Stripped(raw)).value
    ensures answer.Observed? ==>
      && answer.report.results == Results(Stripped(raw), outcomes)
      && answer.report.errors == Errors(Stripped(raw), outcomes)
      && answer.report.order == Stripped(raw)
      && answer.report.maxActive <= answer.report.workers == Workers(maxWorkers, |raw|) <= 8
  {
    if raw == [] {
      return Observed(Report([], [], [], 0, 0));
    }
    var keys, bad := CheckKeys(raw);
    if bad.Some? {
      return Refused(bad.value);
    }
    var workers := Workers(maxWorkers, |raw|);
    if workers == 1 {
      var results, errors, maxActive := ReadInOrder(keys, outcomes);
      answer := Observed(Report(results, errors, keys, workers, maxActive));
    } else {
      var results, errors, maxActive := ReadInParallel(keys, outcomes, workers, trace);
      answer := Observed(Report(results, errors, keys, workers, maxActive));
    }
  }
}
