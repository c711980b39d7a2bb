/** Which grants can be refunded, within one request and over whole histories. */
module RewardHistories {
  import opened Common
  import opened RewardRedemption
  import opened RewardRedemptionProofs

  // ---------- one request ----------

  predicate IsRefunded(w: World, id: Id) {
    id < |w.bank.redemptions| && w.bank.redemptions[id].status.Refunded?
  }

  /** What a request may have done to the row `id` it reserved, and to the rows before it. */
  ghost predicate Decided(was: Bank, now: World, ip: Address, id: Id, replied: bool) {
    && (IsRefunded(now, id) ==> id !in now.granted && !Active(now, ip))
    && (id in now.granted ==> id < |now.bank.redemptions| && !now.bank.redemptions[id].status.Refunded?)
    && (replied && id in now.granted ==> now.bank.redemptions[id].status.Applied?)
    && (forall k | 0 <= k < id && k < |was.redemptions| ::
          k < |now.bank.redemptions| && now.bank.redemptions[k] == was.redemptions[k])
  }

  lemma SettleDecides(script: Script, w: World, ip: Address, id: Id)
    requires IsPending(w.bank, id) && (id in w.granted ==> Active(w, ip) && Evidence(w, ip, id))
    ensures Decided(w.bank, Settle(script, w, ip, id).w, ip, id, Settle(script, w, ip, id).reply.Ok?)
  {
  }

  lemma FinishDecides(script: Script, w: World, ip: Address, id: Id)
    requires IsPending(w.bank, id) && id !in w.granted
    ensures Decided(w.bank, Finish(script, w, ip, id).w, ip, id, Finish(script, w, ip, id).reply.Ok?)
  {
    var g := Grant(script, w, ip, id);
    SettleDecides(script, g.w, ip, id);
  }

  /** Within its own request a reservation is refunded only if access was never bound to it and no scheduler is live
      (RewardLimits says when NORMAL is in force all the same); a bound grant stays reserved or becomes applied;
      earlier rows are not touched. */
  lemma RedeemRefundsOnlyNonGrants(script: Script, w: World, q: Request)
    requires |w.bank.redemptions| !in w.granted
    ensures var id, w' := |w.bank.redemptions|, Redeem(script, w, q).w;
      && (IsRefunded(w', id) ==> id !in w'.granted && !Active(w', q.ip))
      && (id in w'.granted ==> id < |w'.bank.redemptions| && !w'.bank.redemptions[id].status.Refunded?)
      && (Redeem(script, w, q).reply.Ok? && id in w'.granted ==> w'.bank.redemptions[id].status.Applied?)
      && (forall k | 0 <= k < id :: k < |w'.bank.redemptions| && w'.bank.redemptions[k] == w.bank.redemptions[k])
  {
    var checked := Precheck(script, w, q);
    assert checked.w.bank == w.bank && checked.w.granted == w.granted;
    var id := |w.bank.redemptions|;
    if checked.reply.Ok? && MayReserve(w.bank, q.limits, q.ip, q.minutes) {
      var bank := Reserve(w.bank, q.ip, q.minutes);
      var reserved := Commit(script, checked.w, Some(bank));
      if reserved.reply.Ok? {
        FinishDecides(script, reserved.w, q.ip, id);
        assert Decided(bank, Redeem(script, w, q).w, q.ip, id, Redeem(script, w, q).reply.Ok?);
        assert forall k | 0 <= k < id :: bank.redemptions[k] == w.bank.redemptions[k];
      }
    }
  }

  // ---------- recovery ----------

  predicate OnePending(w: World) {
    forall i, j | 0 <= i < j < |w.bank.redemptions| ::
      IsPending(w.bank, i) && IsPending(w.bank, j) ==> w.bank.redemptions[i].ip != w.bank.redemptions[j].ip
  }

  function Verdict(w: World, id: Id): Status
    requires id < |w.bank.redemptions|
  {
    var ip := w.bank.redemptions[id].ip;
    if Evidence(w, ip, id) then Applied else if Active(w, ip) then Reserved else Refunded
  }

  ghost predicate Answered(script: Script, from: nat) {
    forall n | from <= n :: script(n).reply.Ok?
  }

  lemma RecoverOneDecides(script: Script, w: World, id: Id)
    requires IsPending(w.bank, id) && Answered(script, w.calls)
    ensures var s, ip := RecoverOne(script, w, id), w.bank.redemptions[id].ip;
      && s.reply.Ok? && w.calls <= s.w.calls && s.w.granted == w.granted
      && s.w.bank.redemptions == w.bank.redemptions[id := w.bank.redemptions[id].(status := Verdict(w, id))]
      && (s.w.temporary == w.temporary || s.w.temporary == w.temporary - {ip})
  {
  }

  /** The verdict on a reservation depends on its own device alone. */
  predicate SameView(w: World, w': World, ip: Address) {
    (ip in w.temporary <==> ip in w'.temporary) && (ip in w.temporary ==> w'.temporary[ip] == w.temporary[ip])
  }

  ghost predicate SettledBy(w: World, w': World, ids: seq<Id>) {
    && |w'.bank.redemptions| == |w.bank.redemptions|
    && forall id | 0 <= id < |w.bank.redemptions| :: w'.bank.redemptions[id]
         == if id in ids then w.bank.redemptions[id].(status := Verdict(w, id)) else w.bank.redemptions[id]
  }

  function Touched(w: World, ids: seq<Id>): set<Address>
    requires Rows(ids, w.bank)
  {
    set i | 0 <= i < |ids| :: w.bank.redemptions[ids[i]].ip
  }

  lemma SettleOneMore(w: World, before: World, after: World, rest: seq<Id>, id: Id)
    requires SettledBy(w, before, rest) && id !in rest && id < |w.bank.redemptions|
    requires after.bank.redemptions
          == before.bank.redemptions[id := before.bank.redemptions[id].(status := Verdict(w, id))]
    ensures SettledBy(w, after, rest + [id])
  {
  }

  lemma UntouchedByRest(w: World, ids: seq<Id>)
    requires OnePending(w) && Rows(ids, w.bank) && ids != []
    requires forall i | 0 <= i < |ids| :: IsPending(w.bank, ids[i])
    requires forall i, j | 0 <= i < j < |ids| :: ids[i] < ids[j]
    ensures ids[|ids| - 1] !in ids[..|ids| - 1]
    ensures w.bank.redemptions[ids[|ids| - 1]].ip !in Touched(w, ids[..|ids| - 1])
    ensures Touched(w, ids) == Touched(w, ids[..|ids| - 1]) + {w.bank.redemptions[ids[|ids| - 1]].ip}
  {
    var last := |ids| - 1;
    assert forall i | 0 <= i < last :: ids[..last][i] == ids[i];
    forall ip | ip in Touched(w, ids) ensures ip in Touched(w, ids[..last]) + {w.bank.redemptions[ids[last]].ip} {
      var i :| 0 <= i < |ids| && w.bank.redemptions[ids[i]].ip == ip;
      assert i < last ==> ids[..last][i] == ids[i];
    }
  }

  /** A recovery whose calls are answered settles every selected reservation by the router alone:
      refunded if and only if the router neither holds its reference nor has live access. */
  lemma {:induction false} RecoveryDecides(script: Script, w: World, ids: seq<Id>)
    requires OnePending(w) && Rows(ids, w.bank) && Answered(script, w.calls)
    requires forall i | 0 <= i < |ids| :: IsPending(w.bank, ids[i])
    requires forall i, j | 0 <= i < j < |ids| :: ids[i] < ids[j]
    ensures var s := RecoverAll(script, w, ids);
      && s.reply.Ok? && w.calls <= s.w.calls && s.w.granted == w.granted && SettledBy(w, s.w, ids)
      && forall ip | ip !in Touched(w, ids) :: SameView(w, s.w, ip)
  {
    if ids != [] {
      var rest := ids[..|ids| - 1];
      var id := ids[|ids| - 1];
      RecoveryDecides(script, w, rest);
      UntouchedByRest(w, ids);
      var before := RecoverAll(script, w, rest);
      assert SameView(w, before.w, w.bank.redemptions[id].ip);
      assert before.w.bank.redemptions[id] == w.bank.redemptions[id];
      assert Verdict(before.w, id) == Verdict(w, id);
      RecoverOneDecides(script, before.w, id);
      SettleOneMore(w, before.w, RecoverAll(script, w, ids).w, rest, id);
      assert ids == rest + [id];
    }
  }

  // ---------- histories ----------

  datatype Operation =
    | RedeemOp(script: Script, q: Request)
    | RecoverOp(script: Script, only: Option<Address>)
    | Look(script: Script, ip: Address)     // any page, planner or reconciler read
    | Expire(ip: Address)                   // the router's scheduler runs
    | Override(ip: Address)                 // an operator grants unrelated access
    | Cancel(ip: Address)                   // an operator ends the access
    | Adjust(ip: Address, delta: int)

  function Apply(w: World, op: Operation): World {
    match op
    case RedeemOp(script, q) => Redeem(script, w, q).w
    case RecoverOp(script, only) => Recover(script, w, only).w
    case Look(script, ip) => ReadAccess(script, w, ip).w
    case Expire(ip) =>
      if Active(w, ip) then w.(temporary := w.temporary[ip := w.temporary[ip].(live := false)]) else w
    case Override(ip) => if Active(w, ip) then w else w.(temporary := w.temporary[ip := Temporary(None, true)])
    case Cancel(ip) => w.(temporary := w.temporary - {ip})
    case Adjust(ip, delta) => w.(bank := w.bank.(balances := w.bank.balances[ip := Balance(w.bank, ip) + delta]))
  }

  function History(w: World, ops: seq<Operation>): World {
    if ops == [] then w else Apply(History(w, ops[..|ops| - 1]), ops[|ops| - 1])
  }

  function Adjusted(ops: seq<Operation>, ip: Address): int {
    if ops == [] then 0 else
    var last := ops[|ops| - 1];
    Adjusted(ops[..|ops| - 1], ip) + if last.Adjust? && last.ip == ip then last.delta else 0
  }

  /** Over any history, balance + reserved + completed minutes change by the operators' adjustments only. */
  lemma {:induction false} HistoryConserves(w: World, ops: seq<Operation>, ip: Address)
    ensures Total(History(w, ops).bank, ip) == Total(w.bank, ip) + Adjusted(ops, ip)
    ensures Forward(w.bank, History(w, ops).bank)
  {
    if ops != [] {
      var before := History(w, ops[..|ops| - 1]);
      HistoryConserves(w, ops[..|ops| - 1], ip);
      match ops[|ops| - 1]
      case RedeemOp(script, q) => RedeemConserves(script, before, q);
      case RecoverOp(script, only) =>
        RecoverAllConserves(script, before, Pending(before, |before.bank.redemptions|, only));
      case _ =>
    }
  }

  // ---------- no bound grant is ever refunded, as long as its evidence survives ----------

  ghost predicate Sound(w: World) {
    && OnePending(w)
    && (forall id | id in w.granted :: id < |w.bank.redemptions|)
    && (forall ip | ip in w.temporary && w.temporary[ip].reference.Some? ::
          w.temporary[ip].reference.value in w.granted && w.bank.redemptions[w.temporary[ip].reference.value].ip == ip)
  }

  ghost predicate Kept(w: World) {
    forall id | id in w.granted ::
      && !IsRefunded(w, id)
      && (IsPending(w.bank, id) ==> Evidence(w, w.bank.redemptions[id].ip, id))
  }

  /** The reservation whose grant the temporary record of `ip` still witnesses. */
  predicate Witnesses(w: World, ip: Address) {
    && ip in w.temporary && w.temporary[ip].reference.Some?
    && IsPending(w.bank, w.temporary[ip].reference.value)
  }

  predicate Spent(w: World, ip: Address) {
    Witnesses(w, ip) && !w.temporary[ip].live
  }

  predicate SelectsSpent(w: World, ids: seq<Id>)
    requires Rows(ids, w.bank)
  {
    exists i | 0 <= i < |ids| :: Spent(w, w.bank.redemptions[ids[i]].ip)
  }

  /** An operation is careful if it cannot consume the last evidence of a pending grant without
      settling it. RewardLimits shows for each kind that this is the exact condition. */
  ghost predicate Careful(w: World, op: Operation) {
    match op
    case RedeemOp(_, q) => !(q.globalNormal && Spent(w, q.ip))
    case Look(_, ip) => !Spent(w, ip)
    case RecoverOp(script, only) =>
      Answered(script, w.calls) || !SelectsSpent(w, Pending(w, |w.bank.redemptions|, only))
    case Override(ip) => !Spent(w, ip)
    case Cancel(ip) => !Witnesses(w, ip)
    case _ => true
  }

  ghost predicate AllCareful(w: World, ops: seq<Operation>) {
    ops == [] || (AllCareful(w, ops[..|ops| - 1]) && Careful(History(w, ops[..|ops| - 1]), ops[|ops| - 1]))
  }

  lemma ReadKeeps(script: Script, w: World, ip: Address)
    requires Sound(w)
    ensures Sound(ReadAccess(script, w, ip).w)
    ensures Kept(w) && !Spent(w, ip) ==> Kept(ReadAccess(script, w, ip).w)
  {
  }

  lemma PrecheckKeeps(script: Script, w: World, q: Request)
    requires Sound(w) && Kept(w) && !(q.globalNormal && Spent(w, q.ip))
    ensures var s := Precheck(script, w, q);
      && Sound(s.w) && Kept(s.w) && s.w.bank == w.bank && s.w.granted == w.granted
      && (s.reply.Ok? ==> !Active(s.w, q.ip))
  {
    if q.globalNormal {
      var status := Ask(script, w);
      ReadKeeps(script, status.w, q.ip);
      var existing := ReadAccess(script, status.w, q.ip);
      ReadKeeps(script, existing.w, q.ip);
    }
  }

  lemma GrantKeeps(script: Script, w: World, ip: Address, id: Id)
    requires Sound(w) && Kept(w) && IsPending(w.bank, id) && w.bank.redemptions[id].ip == ip
    requires !Active(w, ip) && id !in w.granted
    ensures var g := Grant(script, w, ip, id);
      && Sound(g.w) && Kept(g.w) && g.w.bank == w.bank
      && (id in g.w.granted ==> Active(g.w, ip) && Evidence(g.w, ip, id))
  {
    forall k | k in w.granted && IsPending(w.bank, k)
      ensures w.bank.redemptions[k].ip != ip
    {
      assert k != id;
      assert if k < id then k < id else id < k;
    }
  }

  lemma ReserveKeeps(w: World, ip: Address, minutes: nat, limits: Limits)
    requires Sound(w) && Kept(w) && MayReserve(w.bank, limits, ip, minutes)
    ensures Sound(w.(bank := Reserve(w.bank, ip, minutes))) && Kept(w.(bank := Reserve(w.bank, ip, minutes)))
  {
  }

  /** Completing, or refunding what was never granted, keeps both invariants. */
  lemma SettleKeeps(w: World, id: Id, bank: Bank)
    requires Sound(w) && Kept(w)
    requires Some(bank) == Complete(w.bank, id) || (id !in w.granted && Some(bank) == Refund(w.bank, id))
    ensures Sound(w.(bank := bank)) && Kept(w.(bank := bank))
  {
  }

  lemma RedeemKeeps(script: Script, w: World, q: Request)
    requires Sound(w) && Kept(w) && !(q.globalNormal && Spent(w, q.ip))
    ensures Sound(Redeem(script, w, q).w) && Kept(Redeem(script, w, q).w)
  {
    PrecheckKeeps(script, w, q);
    var checked := Precheck(script, w, q);
    var id := |w.bank.redemptions|;
    if checked.reply.Ok? && MayReserve(w.bank, q.limits, q.ip, q.minutes) {
      ReserveKeeps(checked.w, q.ip, q.minutes, q.limits);
      var reserved := Commit(script, checked.w, Some(Reserve(w.bank, q.ip, q.minutes)));
      if reserved.reply.Ok? {
        GrantKeeps(script, reserved.w, q.ip, id);
        GrantedIsSettled(script, Grant(script, reserved.w, q.ip, id), q.ip, id);
      }
    }
  }

  lemma CompletionKeeps(script: Script, w: World, ip: Address, id: Id)
    requires Sound(w) && Kept(w) && IsPending(w.bank, id) && w.bank.redemptions[id].ip == ip
    requires id in w.granted ==> Active(w, ip) && Evidence(w, ip, id)
    ensures var c := Commit(script, w, Complete(w.bank, id)); Sound(c.w) && Kept(c.w)
  {
    SettleKeeps(w, id, Complete(w.bank, id).value);
  }

  lemma GrantedIsSettled(script: Script, g: Reading, ip: Address, id: Id)
    requires Sound(g.w) && Kept(g.w) && IsPending(g.w.bank, id) && g.w.bank.redemptions[id].ip == ip
    requires id in g.w.granted ==> Active(g.w, ip) && Evidence(g.w, ip, id)
    requires !Spent(g.w, ip)
    ensures Sound(Settle(script, g.w, ip, id).w) && Kept(Settle(script, g.w, ip, id).w)
    ensures var c := Commit(script, g.w, Complete(g.w.bank, id)); Sound(c.w) && Kept(c.w)
  {
    CompletionKeeps(script, g.w, ip, id);
    ReadKeeps(script, g.w, ip);
    var r := ReadAccess(script, g.w, ip);
    CompletionKeeps(script, r.w, ip, id);
    if id !in r.w.granted {
      SettleKeeps(r.w, id, Refund(r.w.bank, id).value);
    }
  }

  lemma RecoverOneKeeps(script: Script, w: World, id: Id)
    requires Sound(w) && Kept(w) && IsPending(w.bank, id)
    requires (script(w.calls).reply.Ok? && script(w.calls + 1).reply.Ok?) || !Spent(w, w.bank.redemptions[id].ip)
    ensures Sound(RecoverOne(script, w, id).w) && Kept(RecoverOne(script, w, id).w)
  {
    var ip := w.bank.redemptions[id].ip;
    var r := ReadAccess(script, w, ip);
    ReadKeeps(script, w, ip);
    if Spent(w, ip) {
      SpentIsItsOwn(w, ip, id);
      SettledAfterRead(w, r.w, ip, id);
    } else {
      SettleKeeps(r.w, id, Complete(r.w.bank, id).value);
      if id !in r.w.granted {
        SettleKeeps(r.w, id, Refund(r.w.bank, id).value);
      }
    }
  }

  lemma SpentIsItsOwn(w: World, ip: Address, id: Id)
    requires Sound(w) && Spent(w, ip) && IsPending(w.bank, id) && w.bank.redemptions[id].ip == ip
    ensures w.temporary[ip].reference == Some(id)
  {
    var other := w.temporary[ip].reference.value;
    assert other < id || id < other || other == id;
  }

  lemma SettledAfterRead(w: World, r: World, ip: Address, id: Id)
    requires Sound(w) && Kept(w) && Evidence(w, ip, id) && IsPending(w.bank, id)
    requires r == w.(temporary := w.temporary - {ip}, calls := r.calls)
    ensures var after := r.(bank := Complete(r.bank, id).value); Sound(after) && Kept(after)
  {
    forall k | k in w.granted && IsPending(w.bank, k) && k != id ensures w.bank.redemptions[k].ip != ip {
      assert k < id || id < k;
    }
  }

  lemma RecoverOneFrame(script: Script, w: World, id: Id)
    requires id < |w.bank.redemptions|
    ensures var s := RecoverOne(script, w, id);
      && w.calls <= s.w.calls
      && (forall k | 0 <= k < |w.bank.redemptions| && k != id :: s.w.bank.redemptions[k] == w.bank.redemptions[k])
      && forall ip :: Spent(s.w, ip) ==> Spent(w, ip)
  {
  }

  lemma {:induction false} RecoverAllFrame(script: Script, w: World, ids: seq<Id>)
    requires Rows(ids, w.bank)
    ensures var s := RecoverAll(script, w, ids);
      && w.calls <= s.w.calls
      && (forall k | 0 <= k < |w.bank.redemptions| && k !in ids :: s.w.bank.redemptions[k] == w.bank.redemptions[k])
      && forall ip :: Spent(s.w, ip) ==> Spent(w, ip)
  {
    if ids != [] {
      var rest := ids[..|ids| - 1];
      assert ids == rest + [ids[|ids| - 1]];
      RecoverAllFrame(script, w, rest);
      var before := RecoverAll(script, w, rest);
      if before.reply.Ok? {
        RecoverOneFrame(script, before.w, ids[|ids| - 1]);
      }
    }
  }

  lemma {:induction false} RecoverAllKeeps(script: Script, w: World, ids: seq<Id>)
    requires Sound(w) && Kept(w) && Rows(ids, w.bank)
    requires forall i | 0 <= i < |ids| :: IsPending(w.bank, ids[i])
    requires forall i, j | 0 <= i < j < |ids| :: ids[i] < ids[j]
    requires Answered(script, w.calls) || !SelectsSpent(w, ids)
    ensures Sound(RecoverAll(script, w, ids).w) && Kept(RecoverAll(script, w, ids).w)
  {
    if ids != [] {
      var rest := ids[..|ids| - 1];
      var id := ids[|ids| - 1];
      assert forall i | 0 <= i < |rest| :: rest[i] == ids[i];
      RecoverAllKeeps(script, w, rest);
      RecoverAllFrame(script, w, rest);
      var before := RecoverAll(script, w, rest);
      if before.reply.Ok? {
        assert id !in rest by {
          UntouchedByRest(w, ids);
        }
        RecoverOneKeeps(script, before.w, id);
      }
    }
  }

  /** The evidence survives every careful step, and with it every bound grant stays unrefunded. */
  lemma {:induction false} CarefulHistoriesKeepGrants(w: World, ops: seq<Operation>)
    requires Sound(w) && Kept(w) && AllCareful(w, ops)
    ensures Sound(History(w, ops)) && Kept(History(w, ops))
  {
    if ops != [] {
      var before := History(w, ops[..|ops| - 1]);
      CarefulHistoriesKeepGrants(w, ops[..|ops| - 1]);
      match ops[|ops| - 1]
      case RedeemOp(script, q) => RedeemKeeps(script, before, q);
      case RecoverOp(script, only) =>
        RecoverAllKeeps(script, before, Pending(before, |before.bank.redemptions|, only));
      case Look(script, ip) => ReadKeeps(script, before, ip);
      case _ =>
    }
  }
}
