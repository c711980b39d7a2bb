/** The planner of app/policy_engine.py: the difference between desired policy and live state. */
module PolicyPlan {
  import opened Common
  import opened Bandwidth

  const MODES: set<string> := {"normal", "slow", "blocked"}

  datatype Policy = Policy(
    mode: string,
    blocked: set<string>,
    unsupportedKeys: set<string>,
    preset: string,
    upload: string,
    download: string)

  datatype Service = Service(available: bool, blocked: bool)
  datatype Queue = Queue(active: bool, valid: bool, limit: Option<string>)

  /** Live RouterOS state of one device; a service without a row is available and allowed. */
  datatype Live = Live(mode: string, services: map<string, Service>, queue: Queue, temporary: bool)

  datatype Action =
    | SetModeTo(mode: string)
    | SetService(key: string, block: bool)
    | SetQueue(limit: Option<string>)

  datatype Status = Temporary | Drift | Partial | InSync

  datatype Plan = Plan(
    status: Status,
    modeDrift: bool,
    serviceDrift: bool,
    queueDrift: bool,
    actions: seq<Action>,
    unavailable: seq<string>,
    unsupported: set<string>)

  datatype PlanError = InvalidDesiredMode | InvalidGlobalMode | InvalidPreset(error: RateError)
  datatype Outcome = Planned(plan: Plan) | Failed(error: PlanError)

  function ServiceOf(live: Live, key: string): Service {
    if key in live.services then live.services[key] else Service(true, false)
  }

  predicate ServiceDrifts(policy: Policy, live: Live, key: string) {
    ServiceOf(live, key).available && (key in policy.blocked) != ServiceOf(live, key).blocked
  }

  /** Profile bandwidth is live only while neither the device nor the network is restricted. */
  predicate QueueExpected(policy: Policy, global: string) {
    policy.preset != "normal" && policy.mode == "normal" && global == "normal"
  }

  function DesiredLimit(policy: Policy): Option<string> {
    var built := BuildMaxLimit(policy.upload, policy.download);
    if policy.preset != "normal" && built.Ok? then Some(built.value) else None
  }

  predicate QueueDrifts(policy: Policy, live: Live, global: string) {
    if QueueExpected(policy, global)
    then !live.queue.active || !live.queue.valid || !LimitsEqual(live.queue.limit, DesiredLimit(policy))
    else live.queue.active
  }

  function Refusal(policy: Policy, global: string): Option<PlanError> {
    if policy.mode !in MODES then Some(InvalidDesiredMode)
    else if global !in MODES then Some(InvalidGlobalMode)
    else if policy.preset != "normal" && BuildMaxLimit(policy.upload, policy.download).Err? then
      Some(InvalidPreset(BuildMaxLimit(policy.upload, policy.download).error))
    else None
  }

  function Keys(catalog: seq<string>): set<string> {
    set k | k in catalog
  }

  /** What a plan must say, independent of how it is assembled. */
  ghost predicate Describes(plan: Plan, policy: Policy, live: Live, global: string, catalog: seq<string>) {
    && plan.modeDrift == (!live.temporary && policy.mode != live.mode)
    && plan.queueDrift == (!live.temporary && QueueDrifts(policy, live, global))
    && (plan.serviceDrift <==> !live.temporary && exists k :: k in catalog && ServiceDrifts(policy, live, k))
    && plan.unsupported == policy.blocked - Keys(catalog) + policy.unsupportedKeys
    && (forall k :: k in plan.unavailable <==> k in catalog && k in policy.blocked && !ServiceOf(live, k).available)
    && (forall m :: SetModeTo(m) in plan.actions <==> plan.modeDrift && m == policy.mode)
    && (forall k, b :: SetService(k, b) in plan.actions
          <==> !live.temporary && k in catalog && ServiceDrifts(policy, live, k) && b == (k in policy.blocked))
    && (forall l :: SetQueue(l) in plan.actions
          <==> plan.queueDrift && l == if QueueExpected(policy, global) then DesiredLimit(policy) else None)
    && plan.status == if live.temporary then Temporary
                      else if plan.modeDrift || plan.serviceDrift || plan.queueDrift then Drift
                      else if plan.unavailable != [] || plan.unsupported != {} then Partial
                      else InSync
  }

  method BuildPlan(policy: Policy, live: Live, global: string, catalog: seq<string>) returns (outcome: Outcome)
    ensures outcome.Failed? <==> Refusal(policy, global).Some?
    ensures outcome.Failed? ==> outcome.error == Refusal(policy, global).value
    ensures outcome.Planned? ==> Describes(outcome.plan, policy, live, global, catalog)
  {
    var refusal := Refusal(policy, global);
    if refusal.Some? {
      return Failed(refusal.value);
    }
    var serviceDrift, unavailable, changes := PlanServices(policy, live, catalog);
    var unsupported := policy.blocked - Keys(catalog) + policy.unsupportedKeys;
    if live.temporary {
      return Planned(Plan(Temporary, false, false, false, [], unavailable, unsupported));
    }
    var modeDrift, queueDrift := policy.mode != live.mode, QueueDrifts(policy, live, global);
    var limit := if QueueExpected(policy, global) then DesiredLimit(policy) else None;
    var actions := (if modeDrift then [SetModeTo(policy.mode)] else []) + changes
                   + (if queueDrift then [SetQueue(limit)] else []);
    var status := if modeDrift || serviceDrift || queueDrift then Drift
                  else if unavailable != [] || unsupported != {} then Partial else InSync;
    outcome := Planned(Plan(status, modeDrift, serviceDrift, queueDrift, actions, unavailable, unsupported));
  }

  /** What the loop over the catalogue has found among the first `keys`. */
  ghost predicate ServicesPlanned(
    policy: Policy, live: Live, keys: seq<string>, drift: bool, unavailable: seq<string>, changes: seq<Action>)
  {
    && (drift <==> exists k :: k in keys && ServiceDrifts(policy, live, k))
    && (forall k :: k in unavailable <==> k in keys && k in policy.blocked && !ServiceOf(live, k).available)
    && (forall k, b :: SetService(k, b) in changes
          <==> k in keys && ServiceDrifts(policy, live, k) && b == (k in policy.blocked))
    && (forall a | a in changes :: a.SetService?)
  }

  method PlanServices(policy: Policy, live: Live, catalog: seq<string>)
    returns (serviceDrift: bool, unavailable: seq<string>, changes: seq<Action>)
    ensures ServicesPlanned(policy, live, catalog, serviceDrift, unavailable, changes)
  {
    serviceDrift, unavailable, changes := false, [], [];
    for i := 0 to |catalog|
      invariant ServicesPlanned(policy, live, catalog[..i], serviceDrift, unavailable, changes)
    {
      var key := catalog[i];
      var service := ServiceOf(live, key);
      var desired := key in policy.blocked;
      var drift := service.available && desired != service.blocked;
      assert catalog[..i + 1] == catalog[..i] + [key];
      assert key in catalog[..i + 1] && forall k :: k in catalog[..i + 1] <==> k in catalog[..i] || k == key;
      if drift {
        serviceDrift := true;
        assert ServiceDrifts(policy, live, key);
        changes := changes + [SetService(key, desired)];
      }
      if desired && !service.available {
        unavailable := unavailable + [key];
      }
    }
    assert catalog[..|catalog|] == catalog;
  }

  // ---------- applying a plan ----------

  /** How the router reports a limit it was given: any text for the same pair of rates. */
  type Render = string -> string

  ghost predicate Faithful(render: Render) {
    forall s :: render(s) != "" && (ParseMaxLimit(s).Ok? ==> ParseMaxLimit(render(s)) == ParseMaxLimit(s))
  }

  const NoQueue := Queue(false, true, None)

  /** SLOW and BLOCKED also remove the profile bandwidth queue. */
  function Apply(render: Render, live: Live, action: Action): Live {
    match action
    case SetModeTo(mode) => live.(mode := mode, queue := if mode == "normal" then live.queue else NoQueue)
    case SetService(key, block) =>
      live.(services := live.services[key := ServiceOf(live, key).(blocked := block)])
    case SetQueue(limit) =>
      live.(queue := if limit.Some? then Queue(true, true, Some(render(limit.value))) else NoQueue)
  }

  function ApplyAll(render: Render, live: Live, actions: seq<Action>): Live {
    if actions == [] then live
    else Apply(render, ApplyAll(render, live, actions[..|actions| - 1]), actions[|actions| - 1])
  }

  /** A queue is set up only when no mode action would remove it. */
  ghost predicate Coherent(actions: seq<Action>) {
    && (forall m, m' | SetModeTo(m) in actions && SetModeTo(m') in actions :: m == m')
    && (forall l, l' | SetQueue(l) in actions && SetQueue(l') in actions :: l == l')
    && (forall k, b, b' | SetService(k, b) in actions && SetService(k, b') in actions :: b == b')
    && (forall m, l | SetModeTo(m) in actions && SetQueue(l) in actions :: m == "normal" || l.None?)
  }

  function QueueFor(render: Render, limit: Option<string>): Queue {
    if limit.Some? then Queue(true, true, Some(render(limit.value))) else NoQueue
  }

  ghost predicate ModeReached(live: Live, actions: seq<Action>, r: Live) {
    && r.temporary == live.temporary
    && (forall m | SetModeTo(m) in actions :: r.mode == m)
    && ((forall m :: SetModeTo(m) !in actions) ==> r.mode == live.mode)
  }

  ghost predicate ServicesReached(live: Live, actions: seq<Action>, r: Live) {
    && (forall k, b | SetService(k, b) in actions ::
          k in r.services && r.services[k] == ServiceOf(live, k).(blocked := b))
    && (forall k | SetService(k, true) !in actions && SetService(k, false) !in actions ::
          (k in r.services <==> k in live.services) && ServiceOf(r, k) == ServiceOf(live, k))
  }

  ghost predicate Restricts(actions: seq<Action>) {
    exists m :: SetModeTo(m) in actions && m != "normal"
  }

  ghost predicate QueueReached(render: Render, live: Live, actions: seq<Action>, r: Live) {
    && (forall l | SetQueue(l) in actions :: r.queue == QueueFor(render, l))
    && ((forall l :: SetQueue(l) !in actions) ==> r.queue == if Restricts(actions) then NoQueue else live.queue)
  }

  /** What a set of actions does to each part of the state, whatever their order. */
  ghost predicate Reached(render: Render, live: Live, actions: seq<Action>, r: Live) {
    ModeReached(live, actions, r) && ServicesReached(live, actions, r) && QueueReached(render, live, actions, r)
  }

  lemma CoherentPart(actions: seq<Action>, n: nat)
    requires Coherent(actions) && n <= |actions|
    ensures Coherent(actions[..n])
  {
    assert forall a | a in actions[..n] :: a in actions;
  }

  lemma ReachMode(render: Render, live: Live, rest: seq<Action>, a: Action, before: Live)
    requires Coherent(rest + [a]) && ModeReached(live, rest, before)
    ensures ModeReached(live, rest + [a], Apply(render, before, a))
  {
    assert forall x :: x in rest + [a] <==> x in rest || x == a;
  }

  lemma ReachServices(render: Render, live: Live, rest: seq<Action>, a: Action, before: Live)
    requires Coherent(rest + [a]) && ServicesReached(live, rest, before)
    ensures ServicesReached(live, rest + [a], Apply(render, before, a))
  {
    assert forall x :: x in rest + [a] <==> x in rest || x == a;
    if a.SetService? {
      assert a == SetService(a.key, a.block);
      assert ServiceOf(before, a.key).available == ServiceOf(live, a.key).available;
    }
  }

  lemma ReachQueue(render: Render, live: Live, rest: seq<Action>, a: Action, before: Live)
    requires Coherent(rest + [a]) && QueueReached(render, live, rest, before)
    ensures QueueReached(render, live, rest + [a], Apply(render, before, a))
  {
    var all := rest + [a];
    assert forall x :: x in all <==> x in rest || x == a;
    match a
    case SetModeTo(m) =>
      assert a in all;
      assert Restricts(all) <==> Restricts(rest) || m != "normal";
    case SetService(_, _) =>
      assert Restricts(all) <==> Restricts(rest);
    case SetQueue(l) =>
      assert a in all;
  }

  lemma ReachOne(render: Render, live: Live, rest: seq<Action>, a: Action, before: Live)
    requires Coherent(rest + [a]) && Reached(render, live, rest, before)
    ensures Reached(render, live, rest + [a], Apply(render, before, a))
  {
    ReachMode(render, live, rest, a, before);
    ReachServices(render, live, rest, a, before);
    ReachQueue(render, live, rest, a, before);
  }

  lemma {:induction false} ApplyAllReaches(render: Render, live: Live, actions: seq<Action>)
    requires Coherent(actions)
    ensures Reached(render, live, actions, ApplyAll(render, live, actions))
  {
    if actions != [] {
      var rest := actions[..|actions| - 1];
      CoherentPart(actions, |actions| - 1);
      ApplyAllReaches(render, live, rest);
      assert actions == rest + [actions[|actions| - 1]];
      ReachOne(render, live, rest, actions[|actions| - 1], ApplyAll(render, live, rest));
    }
  }

  /** Any order, even with repetitions, gives one and the same state. */
  lemma OrderDoesNotMatter(render: Render, live: Live, xs: seq<Action>, ys: seq<Action>)
    requires Coherent(xs) && forall a :: a in xs <==> a in ys
    ensures ApplyAll(render, live, xs) == ApplyAll(render, live, ys)
  {
    assert Coherent(ys);
    ApplyAllReaches(render, live, xs);
    ApplyAllReaches(render, live, ys);
    SameReached(render, live, xs, ys, ApplyAll(render, live, xs), ApplyAll(render, live, ys));
  }

  lemma SameReached(render: Render, live: Live, xs: seq<Action>, ys: seq<Action>, r: Live, r': Live)
    requires Reached(render, live, xs, r) && Reached(render, live, ys, r')
    requires forall a :: a in xs <==> a in ys
    ensures r == r'
  {
    forall k
      ensures k in r.services <==> k in r'.services
      ensures ServiceOf(r, k) == ServiceOf(r', k)
    {
      if SetService(k, true) in xs {
        assert SetService(k, true) in ys;
      } else if SetService(k, false) in xs {
        assert SetService(k, false) in ys;
      }
    }
    assert r.services == r'.services by {
      forall k | k in r.services ensures r.services[k] == r'.services[k] {
        assert ServiceOf(r, k) == ServiceOf(r', k);
      }
    }
    if m :| SetModeTo(m) in xs {
      assert SetModeTo(m) in ys;
    }
    assert Restricts(xs) <==> Restricts(ys);
    if l :| SetQueue(l) in xs {
      assert SetQueue(l) in ys;
    }
  }

  lemma PlanIsCoherent(plan: Plan, policy: Policy, live: Live, global: string, catalog: seq<string>)
    requires Describes(plan, policy, live, global, catalog)
    ensures Coherent(plan.actions)
  {
  }

  /** A plan without drift and without actions. */
  predicate Settled(plan: Plan) {
    && !plan.modeDrift && !plan.serviceDrift && !plan.queueDrift && plan.actions == []
    && plan.status == if plan.unavailable != [] || plan.unsupported != {} then Partial else InSync
  }

  /** `order` lists the actions of a plan for `live`, in any order and with any repetitions. */
  ghost predicate Lists(
    order: seq<Action>, plan: Plan, policy: Policy, live: Live, global: string, catalog: seq<string>)
  {
    Describes(plan, policy, live, global, catalog) && forall a :: a in order <==> a in plan.actions
  }

  /** Applying the actions of a plan in any order gives one state, and services that did not drift are untouched. */
  lemma ApplyingIsOrderFree(
    render: Render, policy: Policy, live: Live, global: string, catalog: seq<string>, plan: Plan, order: seq<Action>)
    requires !live.temporary
    ensures Lists(order, plan, policy, live, global, catalog) ==>
      && ApplyAll(render, live, order) == ApplyAll(render, live, plan.actions)
      && (forall k | !(k in catalog && ServiceDrifts(policy, live, k)) ::
            ServiceOf(ApplyAll(render, live, order), k) == ServiceOf(live, k))
  {
    if Lists(order, plan, policy, live, global, catalog) {
      PlanIsCoherent(plan, policy, live, global, catalog);
      OrderDoesNotMatter(render, live, plan.actions, order);
      ApplyAllReaches(render, live, plan.actions);
      ServicesConverge(render, policy, live, global, catalog, plan, ApplyAll(render, live, plan.actions));
    }
  }

  /** Convergence: applying the actions in any order and planning again finds no drift and nothing to do. */
  lemma ApplyingConverges(
    render: Render, policy: Policy, live: Live, global: string, catalog: seq<string>,
    plan: Plan, order: seq<Action>, again: Plan)
    requires Faithful(render) && Refusal(policy, global).None? && !live.temporary
    ensures (Lists(order, plan, policy, live, global, catalog)
             && Describes(again, policy, ApplyAll(render, live, order), global, catalog)) ==> Settled(again)
  {
    if Lists(order, plan, policy, live, global, catalog)
       && Describes(again, policy, ApplyAll(render, live, order), global, catalog) {
      ApplyingIsOrderFree(render, policy, live, global, catalog, plan, order);
      PlanIsCoherent(plan, policy, live, global, catalog);
      ApplyAllReaches(render, live, plan.actions);
      var after := ApplyAll(render, live, plan.actions);
      ServicesConverge(render, policy, live, global, catalog, plan, after);
      QueueConverges(render, policy, live, global, catalog, plan, after);
      NothingToDo(policy, after, global, catalog, again);
    }
  }

  lemma NothingToDo(policy: Policy, live: Live, global: string, catalog: seq<string>, plan: Plan)
    requires Describes(plan, policy, live, global, catalog) && !live.temporary
    requires live.mode == policy.mode && !QueueDrifts(policy, live, global)
    requires forall k | k in catalog :: !ServiceDrifts(policy, live, k)
    ensures Settled(plan)
  {
    if plan.actions != [] {
      NoActionKind(plan.actions[0]);
    }
  }

  lemma NoActionKind(a: Action)
    ensures (exists m :: a == SetModeTo(m)) || (exists k, b :: a == SetService(k, b)) || exists l :: a == SetQueue(l)
  {
  }

  lemma ServicesConverge(
    render: Render, policy: Policy, live: Live, global: string, catalog: seq<string>, plan: Plan, after: Live)
    requires Describes(plan, policy, live, global, catalog) && !live.temporary
    requires Reached(render, live, plan.actions, after)
    ensures forall k | k in catalog :: !ServiceDrifts(policy, after, k)
    ensures forall k | !(k in catalog && ServiceDrifts(policy, live, k)) :: ServiceOf(after, k) == ServiceOf(live, k)
  {
    forall k | k in catalog ensures !ServiceDrifts(policy, after, k) {
      if ServiceDrifts(policy, live, k) {
        assert SetService(k, k in policy.blocked) in plan.actions;
      } else {
        assert forall b :: SetService(k, b) !in plan.actions;
      }
    }
    forall k | !(k in catalog && ServiceDrifts(policy, live, k)) ensures ServiceOf(after, k) == ServiceOf(live, k) {
      assert forall b :: SetService(k, b) !in plan.actions;
    }
  }

  lemma QueueConverges(
    render: Render, policy: Policy, live: Live, global: string, catalog: seq<string>, plan: Plan, after: Live)
    requires Faithful(render) && Refusal(policy, global).None? && !live.temporary
    requires Describes(plan, policy, live, global, catalog) && Reached(render, live, plan.actions, after)
    ensures after.mode == policy.mode && !QueueDrifts(policy, after, global)
  {
    var limit := if QueueExpected(policy, global) then DesiredLimit(policy) else None;
    assert plan.modeDrift ==> SetModeTo(policy.mode) in plan.actions;
    if plan.queueDrift {
      assert SetQueue(limit) in plan.actions;
      if limit.Some? {
        ParseBuiltLimit(policy.upload, policy.download);
      }
    }
  }
}
