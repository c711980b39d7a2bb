/** Minutes are conserved, statuses only move forward, and what may and may not be refunded. */
module RewardRedemptionProofs {
  import opened Common
  import opened RewardRedemption

  // ---------- conservation ----------

  /** Minutes of `ip` that are reserved or spent. */
  function Held(rows: seq<Redemption>, ip: Address): nat {
    if rows == [] then 0 else
    var last := rows[|rows| - 1];
    Held(rows[..|rows| - 1], ip) + if last.ip == ip && !last.status.Refunded? then last.minutes else 0
  }

  function Total(bank: Bank, ip: Address): int {
    Balance(bank, ip) + Held(bank.redemptions, ip)
  }

  function Counted(row: Redemption, ip: Address): nat {
    if row.ip == ip && !row.status.Refunded? then row.minutes else 0
  }

  lemma {:induction false} HeldUpdate(rows: seq<Redemption>, id: Id, row: Redemption, ip: Address)
    requires id < |rows|
    ensures Held(rows[id := row], ip) == Held(rows, ip) - Counted(rows[id], ip) + Counted(row, ip)
  {
    var prefix := rows[..|rows| - 1];
    if id < |prefix| {
      HeldUpdate(prefix, id, row, ip);
      assert rows[id := row][..|rows| - 1] == prefix[id := row];
    } else {
      assert rows[id := row][..|rows| - 1] == prefix;
    }
  }

  /** Rows are never dropped or rewritten; a status leaves `Reserved` at most once and then stays. */
  predicate Forward(before: Bank, after: Bank) {
    && |before.redemptions| <= |after.redemptions|
    && forall id | 0 <= id < |before.redemptions| ::
         var old_, new_ := before.redemptions[id], after.redemptions[id];
         && new_.ip == old_.ip && new_.minutes == old_.minutes
         && (!old_.status.Reserved? ==> new_.status == old_.status)
  }

  ghost predicate Conserves(before: Bank, after: Bank) {
    Forward(before, after) && forall ip :: Total(after, ip) == Total(before, ip)
  }

  lemma ReserveConserves(bank: Bank, ip: Address, minutes: nat)
    ensures Conserves(bank, Reserve(bank, ip, minutes))
  {
    var after := Reserve(bank, ip, minutes);
    assert after.redemptions[..|after.redemptions| - 1] == bank.redemptions;
  }

  lemma CompleteConserves(bank: Bank, id: Id)
    ensures Complete(bank, id).Some? ==> Conserves(bank, Complete(bank, id).value)
  {
    if Complete(bank, id).Some? {
      var row := bank.redemptions[id].(status := Applied);
      forall ip ensures Total(Complete(bank, id).value, ip) == Total(bank, ip) {
        HeldUpdate(bank.redemptions, id, row, ip);
      }
    }
  }

  lemma RefundConserves(bank: Bank, id: Id)
    ensures Refund(bank, id).Some? ==> Conserves(bank, Refund(bank, id).value)
  {
    if id < |bank.redemptions| && bank.redemptions[id].status.Reserved? {
      var row := bank.redemptions[id].(status := Refunded);
      forall ip ensures Total(Refund(bank, id).value, ip) == Total(bank, ip) {
        HeldUpdate(bank.redemptions, id, row, ip);
      }
    }
  }

  lemma ConservesTransitive(a: Bank, b: Bank, c: Bank)
    requires Conserves(a, b) && Conserves(b, c)
    ensures Conserves(a, c)
  {
    forall ip ensures Total(c, ip) == Total(a, ip) {
      assert Total(b, ip) == Total(a, ip);
    }
  }

  lemma SettleEnds(script: Script, w: World, ip: Address, id: Id)
    ensures var after := Settle(script, w, ip, id).w.bank;
      after == w.bank || Some(after) == Complete(w.bank, id) || Some(after) == Refund(w.bank, id)
  {
  }

  lemma FinishConserves(script: Script, w: World, ip: Address, id: Id)
    requires id < |w.bank.redemptions|
    ensures Conserves(w.bank, Finish(script, w, ip, id).w.bank)
  {
    CompleteConserves(w.bank, id);
    RefundConserves(w.bank, id);
    SettleEnds(script, Grant(script, w, ip, id).w, ip, id);
    var after := Finish(script, w, ip, id).w.bank;
    assert after == w.bank || Some(after) == Complete(w.bank, id) || Some(after) == Refund(w.bank, id);
  }

  /** For every outcome of every call, a redemption keeps balance + reserved + completed minutes. */
  lemma RedeemConserves(script: Script, w: World, q: Request)
    ensures Conserves(w.bank, Redeem(script, w, q).w.bank)
  {
    var checked := Precheck(script, w, q);
    assert checked.w.bank == w.bank;
    var id := |w.bank.redemptions|;
    if checked.reply.Ok? && MayReserve(w.bank, q.limits, q.ip, q.minutes) {
      ReserveConserves(w.bank, q.ip, q.minutes);
      var bank := Reserve(w.bank, q.ip, q.minutes);
      var reserved := Commit(script, checked.w, Some(bank));
      if reserved.reply.Ok? {
        FinishConserves(script, reserved.w, q.ip, id);
        ConservesTransitive(w.bank, bank, Finish(script, reserved.w, q.ip, id).w.bank);
      }
    }
  }

  lemma RecoverOneConserves(script: Script, w: World, id: Id)
    requires id < |w.bank.redemptions|
    ensures Conserves(w.bank, RecoverOne(script, w, id).w.bank)
  {
    CompleteConserves(w.bank, id);
    RefundConserves(w.bank, id);
  }

  lemma {:induction false} RecoverAllConserves(script: Script, w: World, ids: seq<Id>)
    requires Rows(ids, w.bank)
    ensures Conserves(w.bank, RecoverAll(script, w, ids).w.bank)
  {
    if ids != [] {
      RecoverAllConserves(script, w, ids[..|ids| - 1]);
      var before := RecoverAll(script, w, ids[..|ids| - 1]);
      if before.reply.Ok? {
        RecoverOneConserves(script, before.w, ids[|ids| - 1]);
        ConservesTransitive(w.bank, before.w.bank, RecoverAll(script, w, ids).w.bank);
      }
    }
  }
}
