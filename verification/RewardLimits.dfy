/** The exact limit of CarefulHistoriesKeepGrants: what loses the evidence of a bound grant, and that
    the grant is then refunded. */
module RewardLimits {
  import opened Common
  import opened RewardRedemption
  import opened RewardRedemptionProofs
  import opened RewardHistories

  const AlwaysOk: Script := (n: nat) => Outcome(Ok, Full)

  lemma AnsweredRecovery(w: World, ip: Address, id: Id)
    requires OnePending(w) && IsPending(w.bank, id) && w.bank.redemptions[id].ip == ip
    ensures var w' := Recover(AlwaysOk, w, Some(ip)).w;
      id < |w'.bank.redemptions| && w'.bank.redemptions[id].status == Verdict(w, id)
  {
    var ids := Pending(w, |w.bank.redemptions|, Some(ip));
    assert Selected(w, id, Some(ip));
    RecoveryDecides(AlwaysOk, w, ids);
  }

  /** A read between the grant and its recovery turns a used grant into a refund if and only if the
      access has already run out: that read is then the one that is shown the evidence. */
  lemma LookDecidesRefund(w: World, ip: Address, id: Id)
    requires Sound(w) && Kept(w) && id in w.granted && IsPending(w.bank, id) && w.bank.redemptions[id].ip == ip
    ensures IsRefunded(Recover(AlwaysOk, ReadAccess(AlwaysOk, w, ip).w, Some(ip)).w, id) <==> Spent(w, ip)
  {
    AnsweredRecovery(ReadAccess(AlwaysOk, w, ip).w, ip, id);
  }

  /** The same holds for a second redemption on the device, although it is refused. */
  lemma SecondRedemptionDecidesRefund(w: World, q: Request, id: Id)
    requires Sound(w) && Kept(w) && id in w.granted && IsPending(w.bank, id) && w.bank.redemptions[id].ip == q.ip
    requires q.globalNormal
    ensures Redeem(AlwaysOk, w, q).reply.Error? && Redeem(AlwaysOk, w, q).w.bank == w.bank
    ensures IsRefunded(Recover(AlwaysOk, Redeem(AlwaysOk, w, q).w, Some(q.ip)).w, id) <==> Spent(w, q.ip)
  {
    assert HasPending(w.bank, q.ip);
    assert Redeem(AlwaysOk, w, q).w.temporary == if Active(w, q.ip) then w.temporary else w.temporary - {q.ip};
    AnsweredRecovery(Redeem(AlwaysOk, w, q).w, q.ip, id);
  }

  // ---------- each operation, over everything its calls can do ----------

  /** A page view keeps every bound grant, however its call ends, if and only if it does not read an
      expired record of a pending grant. */
  lemma LookKeepsIff(w: World, ip: Address)
    requires Sound(w) && Kept(w)
    ensures (forall script: Script :: Kept(Apply(w, Look(script, ip)))) <==> !Spent(w, ip)
  {
    if Spent(w, ip) {
      EvidenceRemoved(w, Apply(w, Look(AlwaysOk, ip)), ip);
    } else {
      forall script: Script ensures Kept(Apply(w, Look(script, ip))) {
        ReadKeeps(script, w, ip);
      }
    }
  }

  /** Without the record of a pending grant nothing witnesses it. */
  lemma EvidenceRemoved(w: World, after: World, ip: Address)
    requires Sound(w) && Witnesses(w, ip)
    requires after.granted == w.granted && after.bank == w.bank
    requires ip in after.temporary ==> after.temporary[ip].reference.None?
    ensures !Kept(after)
  {
    var id := w.temporary[ip].reference.value;
    assert id in after.granted && IsPending(after.bank, id) && !Evidence(after, ip, id);
  }

  /** A redemption keeps every bound grant if and only if its device has no such record, or the
      router is not in the mode in which the record is read. */
  lemma RedeemKeepsIff(w: World, q: Request)
    requires Sound(w) && Kept(w)
    ensures (forall script: Script :: Kept(Apply(w, RedeemOp(script, q)))) <==> !(q.globalNormal && Spent(w, q.ip))
  {
    if q.globalNormal && Spent(w, q.ip) {
      var id := w.temporary[q.ip].reference.value;
      SecondRedemptionDecidesRefund(w, q, id);
      EvidenceRemoved(w, Apply(w, RedeemOp(AlwaysOk, q)), q.ip);
    } else {
      forall script: Script ensures Kept(Apply(w, RedeemOp(script, q))) {
        RedeemKeeps(script, w, q);
      }
    }
  }

  /** An operator's grant replaces a record only once it has expired; ending the access always does. */
  lemma OperatorKeepsIff(w: World, ip: Address)
    requires Sound(w) && Kept(w)
    ensures Kept(Apply(w, Override(ip))) <==> !Spent(w, ip)
    ensures Kept(Apply(w, Cancel(ip))) <==> !Witnesses(w, ip)
  {
    if Witnesses(w, ip) {
      EvidenceRemoved(w, Apply(w, Cancel(ip)), ip);
    }
    if Spent(w, ip) {
      EvidenceRemoved(w, Apply(w, Override(ip)), ip);
    }
  }

  // ---------- a recovery that is cut short ----------

  lemma {:induction false} RecoveryAgrees(script: Script, other: Script, w: World, ids: seq<Id>)
    requires Rows(ids, w.bank)
    requires forall n | w.calls <= n < RecoverAll(script, w, ids).w.calls :: script(n) == other(n)
    ensures RecoverAll(other, w, ids) == RecoverAll(script, w, ids)
  {
    if ids != [] {
      var rest := ids[..|ids| - 1];
      var before := RecoverAll(script, w, rest);
      RecoverAllFrame(script, w, rest);
      if before.reply.Ok? {
        RecoverOneFrame(script, before.w, ids[|ids| - 1]);
        RecoveryAgrees(script, other, w, rest);
        RecoverOneAgrees(script, other, before.w, ids[|ids| - 1]);
      } else {
        RecoveryAgrees(script, other, w, rest);
      }
    }
  }

  lemma RecoverOneAgrees(script: Script, other: Script, w: World, id: Id)
    requires id < |w.bank.redemptions|
    requires forall n | w.calls <= n < RecoverOne(script, w, id).w.calls :: script(n) == other(n)
    ensures RecoverOne(other, w, id) == RecoverOne(script, w, id)
  {
    assert script(w.calls) == other(w.calls);
  }

  /** The process dies at one call, before that call does anything. */
  function DiesAt(call: nat): Script {
    (n: nat) => if n == call then Outcome(Crash, Nothing) else Outcome(Ok, Full)
  }

  /** The grant `id` was read out of the router and is still reserved. */
  predicate Unwitnessed(w: World, id: Id) {
    OnePending(w) && IsPending(w.bank, id) && w.bank.redemptions[id].ip !in w.temporary
  }

  lemma UnwitnessedIsLost(w: World, id: Id)
    requires id in w.granted && Unwitnessed(w, id)
    ensures !Kept(w)
  {
  }

  /** Dying between the read of an expired record and the completion leaves the grant unwitnessed. */
  lemma DyingBeforeCompletion(w: World, id: Id)
    requires OnePending(w) && IsPending(w.bank, id) && Spent(w, w.bank.redemptions[id].ip)
    requires Evidence(w, w.bank.redemptions[id].ip, id)
    ensures var s := RecoverOne(DiesAt(w.calls + 1), w, id);
      s.reply.Crash? && s.w.granted == w.granted && Unwitnessed(s.w, id)
  {
  }

  lemma {:induction false} SomeRecoveryLoses(w: World, ids: seq<Id>, id: Id) returns (script: Script)
    requires Sound(w) && Kept(w) && Rows(ids, w.bank) && id in ids && Spent(w, w.bank.redemptions[id].ip)
    requires forall i | 0 <= i < |ids| :: IsPending(w.bank, ids[i])
    requires forall i, j | 0 <= i < j < |ids| :: ids[i] < ids[j]
    ensures var s := RecoverAll(script, w, ids);
      s.reply.Crash? && s.w.granted == w.granted && id in s.w.granted && Unwitnessed(s.w, id)
  {
    var rest := ids[..|ids| - 1];
    assert ids == rest + [ids[|ids| - 1]];
    if id in rest {
      script := SomeRecoveryLoses(w, rest, id);
    } else {
      var before := ReachedUndisturbed(w, ids);
      script := DiesAt(before.calls + 1);
      RecoveryAgrees(AlwaysOk, script, w, rest);
      DyingBeforeCompletion(before, id);
    }
  }

  /** Answered calls bring a recovery to its last row with that row's record as it was. */
  lemma ReachedUndisturbed(w: World, ids: seq<Id>) returns (before: World)
    requires Sound(w) && Rows(ids, w.bank) && ids != []
    requires forall i | 0 <= i < |ids| :: IsPending(w.bank, ids[i])
    requires forall i, j | 0 <= i < j < |ids| :: ids[i] < ids[j]
    requires Spent(w, w.bank.redemptions[ids[|ids| - 1]].ip)
    ensures RecoverAll(AlwaysOk, w, ids[..|ids| - 1]) == Step(before, Ok)
    ensures var id := ids[|ids| - 1];
      && OnePending(before) && IsPending(before.bank, id) && before.granted == w.granted && id in w.granted
      && Spent(before, before.bank.redemptions[id].ip) && Evidence(before, before.bank.redemptions[id].ip, id)
  {
    var rest, id := ids[..|ids| - 1], ids[|ids| - 1];
    SpentIsItsOwn(w, w.bank.redemptions[id].ip, id);
    assert forall i | 0 <= i < |rest| :: rest[i] == ids[i];
    RecoveryDecides(AlwaysOk, w, rest);
    UntouchedByRest(w, ids);
    before := RecoverAll(AlwaysOk, w, rest).w;
    assert SameView(w, before, w.bank.redemptions[id].ip);
    assert before.bank.redemptions[id] == w.bank.redemptions[id];
  }

  lemma SelectedSpent(w: World, only: Option<Address>)
    ensures SelectsSpent(w, Pending(w, |w.bank.redemptions|, only))
       <==> exists id: Id :: id < |w.bank.redemptions| && Selected(w, id, only) && Spent(w, w.bank.redemptions[id].ip)
  {
  }

  lemma RecoveryMayLose(w: World, only: Option<Address>)
    requires Sound(w) && Kept(w) && SelectsSpent(w, Pending(w, |w.bank.redemptions|, only))
    ensures exists script: Script :: !Kept(Apply(w, RecoverOp(script, only)))
  {
    var ids := Pending(w, |w.bank.redemptions|, only);
    var i :| 0 <= i < |ids| && Spent(w, w.bank.redemptions[ids[i]].ip);
    var script := SomeRecoveryLoses(w, ids, ids[i]);
    UnwitnessedIsLost(RecoverAll(script, w, ids).w, ids[i]);
    assert !Kept(Apply(w, RecoverOp(script, only)));
  }

  /** A recovery keeps every bound grant, wherever it stops, if and only if no row it would settle
      has an expired record. */
  lemma RecoveryKeepsIff(w: World, only: Option<Address>)
    requires Sound(w) && Kept(w)
    ensures (forall script: Script :: Kept(Apply(w, RecoverOp(script, only))))
       <==> forall id: Id :: id < |w.bank.redemptions| && Selected(w, id, only)
              ==> !Spent(w, w.bank.redemptions[id].ip)
  {
    SelectedSpent(w, only);
    if SelectsSpent(w, Pending(w, |w.bank.redemptions|, only)) {
      RecoveryMayLose(w, only);
    } else {
      forall script: Script ensures Kept(Apply(w, RecoverOp(script, only))) {
        RecoverAllKeeps(script, w, Pending(w, |w.bank.redemptions|, only));
      }
    }
  }

  /** A recovery and, after it, an undisturbed one. */
  function RecoveredTwice(script: Script, w: World, ip: Address): World {
    Recover(AlwaysOk, Recover(script, w, Some(ip)).w, Some(ip)).w
  }

  /** Recovery by itself can refund a used grant: repeating it after one that was cut short does so,
      for some way of being cut short, if and only if the access has already run out. */
  lemma InterruptedRecoveryDecidesRefund(w: World, ip: Address, id: Id)
    requires Sound(w) && Kept(w) && id in w.granted && IsPending(w.bank, id) && w.bank.redemptions[id].ip == ip
    ensures (exists script: Script :: IsRefunded(RecoveredTwice(script, w, ip), id)) <==> Spent(w, ip)
  {
    var ids := Pending(w, |w.bank.redemptions|, Some(ip));
    assert Selected(w, id, Some(ip)) && id in ids;
    if Spent(w, ip) {
      var script := SomeRecoveryLoses(w, ids, id);
      var cut := RecoverAll(script, w, ids).w;
      RecoverAllConserves(script, w, ids);
      AnsweredRecovery(cut, ip, id);
      assert IsRefunded(RecoveredTwice(script, w, ip), id);
    } else {
      forall script: Script ensures !IsRefunded(RecoveredTwice(script, w, ip), id) {
        RecoverAllKeeps(script, w, ids);
        RecoveryGrantsNothing(script, w, ids);
        var first := Recover(script, w, Some(ip)).w;
        var again := Pending(first, |first.bank.redemptions|, Some(ip));
        RecoverAllKeeps(AlwaysOk, first, again);
        RecoveryGrantsNothing(AlwaysOk, first, again);
      }
    }
  }

  // ---------- two concrete histories ----------

  const Funded := World(Bank(map[7 := 30], []), map[], {}, {}, 0)
  const Lost := World(Bank(map[7 := 0], [Redemption(7, 30, Reserved)]), map[7 := Temporary(Some(0), true)], {0}, {}, 5)
  const DiesAfterGrant: Script := (n: nat) => Outcome(if n < 4 then Ok else Crash, Full)

  const DyingRedemption := RedeemOp(DiesAfterGrant, Request(7, 30, Limits(true, 60), true, false))
  const RanOut := Lost.(temporary := map[7 := Temporary(Some(0), false)])

  lemma HistoryStep(w: World, ops: seq<Operation>, op: Operation)
    ensures History(w, ops + [op]) == Apply(History(w, ops), op)
  {
    assert (ops + [op])[..|ops|] == ops;
  }

  lemma FourSteps(w: World, a: Operation, b: Operation, c: Operation, d: Operation)
    ensures History(w, [a, b, c, d]) == Apply(Apply(Apply(Apply(w, a), b), c), d)
  {
    HistoryStep(w, [], a);
    HistoryStep(w, [] + [a], b);
    HistoryStep(w, [] + [a] + [b], c);
    HistoryStep(w, [] + [a] + [b] + [c], d);
    assert [] + [a] + [b] + [c] + [d] == [a, b, c, d];
  }

  lemma GrantRunsOut()
    ensures Apply(Apply(Funded, DyingRedemption), Expire(7)) == RanOut
  {
    assert Apply(Funded, DyingRedemption) == Lost;
  }

  lemma RanOutIsSpent()
    ensures Sound(RanOut) && Kept(RanOut) && Spent(RanOut, 7) && Evidence(RanOut, 7, 0) && IsPending(RanOut.bank, 0)
    ensures |RanOut.bank.redemptions| == 1 && RanOut.bank.redemptions[0].ip == 7
  {
    assert RanOut.bank.redemptions[0] == Redemption(7, 30, Reserved);
  }

  /** The process dies after the grant, the access runs out, a page is opened, recovery refunds it. */
  lemma UsedGrantIsRefunded()
    ensures var after := History(Funded, [DyingRedemption, Expire(7), Look(AlwaysOk, 7), RecoverOp(AlwaysOk, Some(7))]);
      0 in after.granted && IsRefunded(after, 0)
  {
    FourSteps(Funded, DyingRedemption, Expire(7), Look(AlwaysOk, 7), RecoverOp(AlwaysOk, Some(7)));
    GrantRunsOut();
    RanOutIsSpent();
    var looked := ReadAccess(AlwaysOk, RanOut, 7).w;
    LookDecidesRefund(RanOut, 7, 0);
    RecoveryGrantsNothing(AlwaysOk, looked, Pending(looked, |looked.bank.redemptions|, Some(7)));
  }

  /** Without any page view: the process dies after the grant, the access runs out, the recovery dies
      before it completes the row, and the next recovery refunds it. */
  lemma InterruptedRecoveryRefunds()
    ensures var after := History(Funded, [DyingRedemption, Expire(7), RecoverOp(DiesAt(6), Some(7)),
                                          RecoverOp(AlwaysOk, Some(7))]);
      0 in after.granted && IsRefunded(after, 0)
  {
    FourSteps(Funded, DyingRedemption, Expire(7), RecoverOp(DiesAt(6), Some(7)), RecoverOp(AlwaysOk, Some(7)));
    GrantRunsOut();
    RanOutIsSpent();
    var cut := CutShort(RanOut, Some(7));
    AnsweredRecovery(cut, 7, 0);
    RecoveryGrantsNothing(AlwaysOk, cut, Pending(cut, |cut.bank.redemptions|, Some(7)));
  }

  lemma OnlyRow(script: Script, w: World, only: Option<Address>)
    requires |w.bank.redemptions| == 1 && Selected(w, 0, only)
    ensures Recover(script, w, only) == RecoverOne(script, w, 0)
  {
    assert Pending(w, 0, only) == [];
    assert Pending(w, 1, only) == [0];
    RecoverJust(script, w, 0);
  }

  lemma RecoverJust(script: Script, w: World, id: Id)
    requires id < |w.bank.redemptions|
    ensures RecoverAll(script, w, [id]) == RecoverOne(script, w, id)
  {
    var ids := [id];
    assert ids[..|ids| - 1] == [];
  }

  lemma CutShort(w: World, only: Option<Address>) returns (cut: World)
    requires OnePending(w) && |w.bank.redemptions| == 1 && Selected(w, 0, only)
    requires Spent(w, w.bank.redemptions[0].ip) && Evidence(w, w.bank.redemptions[0].ip, 0)
    ensures cut == Recover(DiesAt(w.calls + 1), w, only).w
    ensures cut.granted == w.granted && Unwitnessed(cut, 0) && cut.bank.redemptions[0].ip == w.bank.redemptions[0].ip
  {
    DyingBeforeCompletion(w, 0);
    RecoverOneConserves(DiesAt(w.calls + 1), w, 0);
    OnlyRow(DiesAt(w.calls + 1), w, only);
    cut := RecoverOne(DiesAt(w.calls + 1), w, 0).w;
  }

  // ---------- a refund while NORMAL is in force ----------

  /** The call in which a redemption asks the router for the access. */
  function GrantCall(script: Script, w: World, q: Request): nat {
    Precheck(script, w, q).w.calls + 1
  }

  lemma FinishOpens(script: Script, w: World, ip: Address, id: Id)
    requires IsPending(w.bank, id) && id !in w.granted
    ensures var s := Finish(script, w, ip, id);
      IsRefunded(s.w, id) ==> s.w.openEnded == w.openEnded + if script(w.calls).effect.Opened? then {ip} else {}
  {
    SettleOpensNothing(script, Grant(script, w, ip, id).w, ip, id);
    FinishDecides(script, w, ip, id);
  }

  lemma SettleOpensNothing(script: Script, w: World, ip: Address, id: Id)
    ensures Settle(script, w, ip, id).w.openEnded == w.openEnded
  {
  }

  /** A refund within its own request means that no scheduler grants access, yet the device may be left in NORMAL:
      exactly when the mode write of the grant took effect and its reply was lost. */
  lemma RefundLeavesOpenIff(script: Script, w: World, q: Request)
    requires |w.bank.redemptions| !in w.granted
    ensures var w' := Redeem(script, w, q).w;
      IsRefunded(w', |w.bank.redemptions|)
      ==> (q.ip in w'.openEnded <==> q.ip in w.openEnded || script(GrantCall(script, w, q)).effect.Opened?)
  {
    var checked := Precheck(script, w, q);
    assert checked.w.bank == w.bank && checked.w.granted == w.granted && checked.w.openEnded == w.openEnded;
    if checked.reply.Ok? && MayReserve(w.bank, q.limits, q.ip, q.minutes) {
      var reserved := Commit(script, checked.w, Some(Reserve(w.bank, q.ip, q.minutes)));
      if reserved.reply.Ok? {
        FinishOpens(script, reserved.w, q.ip, |w.bank.redemptions|);
      }
    }
  }

  const LosesModeReply: Script := (n: nat) => if n == 4 then Outcome(Error, Opened) else Outcome(Ok, Full)

  /** Concretely: the minutes are back on the account and the device is in NORMAL with nothing to end it. */
  lemma RefundedWhileOpen()
    ensures var after := Redeem(LosesModeReply, Funded, Request(7, 30, Limits(true, 60), true, false)).w;
      IsRefunded(after, 0) && Balance(after.bank, 7) == 30 && 7 in after.openEnded
  {
    var q := Request(7, 30, Limits(true, 60), true, false);
    var checked := Precheck(LosesModeReply, Funded, q);
    assert checked.reply.Ok? && checked.w == Funded.(calls := 3);
    var reserved := Commit(LosesModeReply, checked.w, Some(Reserve(Funded.bank, 7, 30)));
    assert reserved.w.calls == 4 && reserved.w.bank.redemptions == [Redemption(7, 30, Reserved)];
    var g := Grant(LosesModeReply, reserved.w, 7, 0);
    assert g.reply.Error? && g.w.calls == 5;
  }

  // ---------- recovery and the record of grants ----------

  lemma {:induction false} RecoveryGrantsNothing(script: Script, w: World, ids: seq<Id>)
    requires Rows(ids, w.bank)
    ensures RecoverAll(script, w, ids).w.granted == w.granted
  {
    if ids != [] {
      var before := RecoverAll(script, w, ids[..|ids| - 1]);
      RecoveryGrantsNothing(script, w, ids[..|ids| - 1]);
      RecoverOneGrantsNothing(script, before.w, ids[|ids| - 1]);
    }
  }

  lemma RecoverOneGrantsNothing(script: Script, w: World, id: Id)
    ensures id < |w.bank.redemptions| ==> RecoverOne(script, w, id).w.granted == w.granted
  {
  }
}
