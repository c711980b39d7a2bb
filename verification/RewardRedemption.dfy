/** Reward redemption: a durable reservation in the bank around an unreliable grant on the router.

    As in AuthorityTransfer, every call consumes one outcome of a script, and what the caller saw is
    separate from what the call did. */
module RewardRedemption {
  import opened Common

  type Address = nat
  type Id = nat


  // ---------- the bank ----------

  datatype Status = Reserved | Applied | Refunded
  datatype Redemption = Redemption(ip: Address, minutes: nat, status: Status)

  /** Redemption ids are the positions of the durable rows. */
  datatype Bank = Bank(balances: map<Address, int>, redemptions: seq<Redemption>)

  function Balance(bank: Bank, ip: Address): int {
    if ip in bank.balances then bank.balances[ip] else 0
  }

  predicate IsPending(bank: Bank, id: Id) {
    id < |bank.redemptions| && bank.redemptions[id].status.Reserved?
  }

  predicate HasPending(bank: Bank, ip: Address) {
    exists id | 0 <= id < |bank.redemptions| :: IsPending(bank, id) && bank.redemptions[id].ip == ip
  }

  datatype Limits = Limits(enabled: bool, maxRedeem: nat)

  predicate MayReserve(bank: Bank, limits: Limits, ip: Address, minutes: nat) {
    && limits.enabled && minutes in {15, 30, 60} && minutes <= limits.maxRedeem
    && !HasPending(bank, ip) && minutes <= Balance(bank, ip)
  }

  function Reserve(bank: Bank, ip: Address, minutes: nat): Bank {
    Bank(bank.balances[ip := Balance(bank, ip) - minutes], bank.redemptions + [Redemption(ip, minutes, Reserved)])
  }

  function WithStatus(bank: Bank, id: Id, status: Status): Bank
    requires id < |bank.redemptions|
  {
    bank.(redemptions := bank.redemptions[id := bank.redemptions[id].(status := status)])
  }

  /** Completing an applied row again is harmless; completing a refunded one is refused. */
  function Complete(bank: Bank, id: Id): Option<Bank> {
    if id >= |bank.redemptions| || bank.redemptions[id].status.Refunded? then None
    else Some(WithStatus(bank, id, Applied))
  }

  function Refund(bank: Bank, id: Id): Option<Bank> {
    if id >= |bank.redemptions| || bank.redemptions[id].status.Applied? then None
    else if bank.redemptions[id].status.Refunded? then Some(bank)
    else
      var row := bank.redemptions[id];
      Some(WithStatus(bank, id, Refunded).(balances := bank.balances[row.ip := Balance(bank, row.ip) + row.minutes]))
  }

  // ---------- temporary access on the router ----------

  /** The restore scheduler of one device: `live` until it has run or was disabled. */
  datatype Temporary = Temporary(reference: Option<Id>, live: bool)

  /** What get_device_temporary_access reports. */
  datatype Access = Access(active: bool, reference: Option<Id>)

  datatype Reply = Ok | Error | Crash
  /** Of a grant: `Unbound` left live access without its reference; `Opened` wrote NORMAL, lost the reply and removed
      the scheduler again, so that nothing ends it. */
  datatype Effect = Nothing | Unbound | Opened | Full
  datatype Outcome = Outcome(reply: Reply, effect: Effect)
  type Script = nat -> Outcome

  /** `granted` records which reservations ever had access bound to them on the router, `openEnded` which devices a
      grant left in NORMAL without a scheduler, until somebody writes their mode again. */
  datatype World = World(
    bank: Bank, temporary: map<Address, Temporary>, granted: set<Id>, openEnded: set<Address>, calls: nat)

  predicate Took(o: Outcome) {
    o.reply.Ok? || o.effect.Full?
  }

  function Tick(w: World): World {
    w.(calls := w.calls + 1)
  }

  predicate Active(w: World, ip: Address) {
    ip in w.temporary && w.temporary[ip].live
  }

  predicate Evidence(w: World, ip: Address, id: Id) {
    ip in w.temporary && w.temporary[ip].reference == Some(id)
  }

  datatype Reading = Reading(w: World, reply: Reply, access: Access)

  /** Reading a scheduler that is no longer live removes it: the evidence is shown once. */
  function ReadAccess(script: Script, w: World, ip: Address): Reading {
    var o := script(w.calls);
    if ip !in w.temporary then Reading(Tick(w), o.reply, Access(false, None))
    else if w.temporary[ip].live then Reading(Tick(w), o.reply, Access(true, w.temporary[ip].reference))
    else Reading(if Took(o) then Tick(w).(temporary := w.temporary - {ip}) else Tick(w), o.reply,
                 Access(false, w.temporary[ip].reference))
  }

  /** set_device_temporary_normal: the reference is bound only after NORMAL was written and verified.
      An override that is already live is extended and keeps its own reference. */
  function Grant(script: Script, w: World, ip: Address, id: Id): Reading {
    var o := script(w.calls);
    if Active(w, ip) then Reading(Tick(w), o.reply, Access(true, w.temporary[ip].reference))
    else if Took(o) then
      Reading(Tick(w).(temporary := w.temporary[ip := Temporary(Some(id), true)], granted := w.granted + {id}),
              o.reply, Access(true, Some(id)))
    else if o.effect.Unbound? then
      Reading(Tick(w).(temporary := w.temporary[ip := Temporary(None, true)]), o.reply, Access(true, None))
    else if o.effect.Opened? then
      Reading(Tick(w).(temporary := w.temporary - {ip}, openEnded := w.openEnded + {ip}), o.reply, Access(false, None))
    else Reading(Tick(w), o.reply, Access(false, None))
  }

  datatype Step = Step(w: World, reply: Reply)

  function Ask(script: Script, w: World): Step {
    Step(Tick(w), script(w.calls).reply)
  }

  /** A bank transaction is atomic. It answers `Error` (ValueError) exactly when refused. */
  function Commit(script: Script, w: World, result: Option<Bank>): Step {
    var o := script(w.calls);
    if result.None? then Step(Tick(w), if o.reply.Crash? then Crash else Error)
    else Step(if Took(o) then Tick(w).(bank := result.value) else Tick(w), if o.reply.Ok? then Ok else Crash)
  }

  // ---------- the redemption route ----------

  datatype Request = Request(ip: Address, minutes: nat, limits: Limits, globalNormal: bool, desiredNormal: bool)

  /** The checks before the reservation: global mode, existing access, effective plan. */
  function Precheck(script: Script, w: World, q: Request): Step {
    var status := Ask(script, w);
    if !status.reply.Ok? then status
    else if !q.globalNormal then Step(status.w, Error) else
    var existing := ReadAccess(script, status.w, q.ip);
    if !existing.reply.Ok? then Step(existing.w, existing.reply)
    else if existing.access.active then Step(existing.w, Error) else
    var plan := ReadAccess(script, existing.w, q.ip);
    if !plan.reply.Ok? then Step(plan.w, plan.reply)
    else Step(plan.w, if q.desiredNormal then Error else Ok)
  }

  /** After a failed grant: one fresh read decides between completing, refunding and deferring. */
  function Settle(script: Script, w: World, ip: Address, id: Id): Step {
    var r := ReadAccess(script, w, ip);
    if r.reply.Crash? then Step(r.w, Crash)
    else if r.reply.Ok? && r.access.reference == Some(id) then Commit(script, r.w, Complete(r.w.bank, id))
    else if r.reply.Ok? && !r.access.active then Commit(script, r.w, Refund(r.w.bank, id))
    else Step(r.w, Error)
  }

  /** The grant of a reserved row and what follows from its reply. */
  function Finish(script: Script, w: World, ip: Address, id: Id): Step {
    var g := Grant(script, w, ip, id);
    if g.reply.Crash? then Step(g.w, Crash)
    else if g.reply.Ok? && g.access.reference == Some(id) then Commit(script, g.w, Complete(g.w.bank, id))
    else Settle(script, g.w, ip, id)
  }

  function Redeem(script: Script, w: World, q: Request): Step {
    var checked := Precheck(script, w, q);
    if !checked.reply.Ok? then checked else
    var bank := checked.w.bank;
    var id := |bank.redemptions|;
    var reserved := Commit(script, checked.w,
                           if MayReserve(bank, q.limits, q.ip, q.minutes)
                           then Some(Reserve(bank, q.ip, q.minutes)) else None);
    if !reserved.reply.Ok? then reserved else Finish(script, reserved.w, q.ip, id)
  }

  // ---------- recovery ----------

  function RecoverOne(script: Script, w: World, id: Id): Step
    requires id < |w.bank.redemptions|
  {
    var ip := w.bank.redemptions[id].ip;
    var r := ReadAccess(script, w, ip);
    if r.reply.Crash? then Step(r.w, Crash)
    else if r.reply.Error? then Step(r.w, Ok)
    else if r.access.reference == Some(id) then Commit(script, r.w, Complete(r.w.bank, id))
    else if r.access.active then Step(r.w, Ok)
    else Commit(script, r.w, Refund(r.w.bank, id))
  }

  function Selected(w: World, id: Id, only: Option<Address>): bool {
    IsPending(w.bank, id) && (only.None? || w.bank.redemptions[id].ip == only.value)
  }

  /** Pending rows below `n`, in durable order. */
  function Pending(w: World, n: nat, only: Option<Address>): (ids: seq<Id>)
    ensures forall i | 0 <= i < |ids| :: ids[i] < n && Selected(w, ids[i], only)
    ensures forall id | 0 <= id < n :: Selected(w, id, only) ==> id in ids
    ensures forall i, j | 0 <= i < j < |ids| :: ids[i] < ids[j]
  {
    if n == 0 then [] else
    var before := Pending(w, n - 1, only);
    if Selected(w, n - 1, only) then before + [n - 1] else before
  }

  predicate Rows(ids: seq<Id>, bank: Bank) {
    forall i | 0 <= i < |ids| :: ids[i] < |bank.redemptions|
  }

  function RecoverAll(script: Script, w: World, ids: seq<Id>): (s: Step)
    requires Rows(ids, w.bank)
    ensures |s.w.bank.redemptions| == |w.bank.redemptions|
  {
    if ids == [] then Step(w, Ok) else
    var before := RecoverAll(script, w, ids[..|ids| - 1]);
    if !before.reply.Ok? then before else RecoverOne(script, before.w, ids[|ids| - 1])
  }

  function Recover(script: Script, w: World, only: Option<Address>): Step {
    RecoverAll(script, w, Pending(w, |w.bank.redemptions|, only))
  }
}
