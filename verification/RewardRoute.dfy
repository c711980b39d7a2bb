/** The redemption route and the recovery loop over mutable state. */
module RewardRoute {
  import opened Common
  import opened RewardRedemption

  class RewardService {
    const script: Script
    var bank: Bank
    var temporary: map<Address, Temporary>
    ghost var granted: set<Id>
    ghost var openEnded: set<Address>
    var calls: nat

    ghost function Now(): World
      reads this
    {
      World(bank, temporary, granted, openEnded, calls)
    }

    constructor (script: Script, bank: Bank, temporary: map<Address, Temporary>)
      ensures this.script == script && Now() == World(bank, temporary, {}, {}, 0)
    {
      this.script, this.bank, this.temporary := script, bank, temporary;
      granted, openEnded, calls := {}, {}, 0;
    }

    method Take() returns (o: Outcome)
      modifies this`calls
      ensures o == script(old(calls)) && Now() == Tick(old(Now()))
    {
      o := script(calls);
      calls := calls + 1;
    }

    method GetTemporaryAccess(ip: Address) returns (reply: Reply, access: Access)
      modifies this
      ensures Reading(Now(), reply, access) == ReadAccess(script, old(Now()), ip)
    {
      var o := Take();
      reply := o.reply;
      access := Access(false, None);
      if ip in temporary {
        var entry := temporary[ip];
        access := Access(entry.live, entry.reference);
        if !entry.live && Took(o) {
          temporary := temporary - {ip};
        }
      }
    }

    method SetTemporaryNormal(ip: Address, id: Id) returns (reply: Reply, access: Access)
      modifies this
      ensures Reading(Now(), reply, access) == Grant(script, old(Now()), ip, id)
    {
      var o := Take();
      reply := o.reply;
      access := Access(false, None);
      if ip in temporary && temporary[ip].live {
        access := Access(true, temporary[ip].reference);
      } else if Took(o) {
        temporary := temporary[ip := Temporary(Some(id), true)];
        granted := granted + {id};
        access := Access(true, Some(id));
      } else if o.effect.Unbound? {
        temporary := temporary[ip := Temporary(None, true)];
        access := Access(true, None);
      } else if o.effect.Opened? {
        temporary := temporary - {ip};
        openEnded := openEnded + {ip};
      }
    }

    method CommitBank(result: Option<Bank>) returns (reply: Reply)
      modifies this
      ensures Step(Now(), reply) == Commit(script, old(Now()), result)
    {
      var o := Take();
      match result {
        case None =>
          reply := if o.reply.Crash? then Crash else Error;
        case Some(after) =>
          if Took(o) {
            bank := after;
          }
          reply := if o.reply.Ok? then Ok else Crash;
      }
    }

    method RedeemRoute(q: Request) returns (reply: Reply)
      modifies this
      ensures Step(Now(), reply) == Redeem(script, old(Now()), q)
    {
      var o := Take();
      if !o.reply.Ok? {
        return o.reply;
      }
      if !q.globalNormal {
        return Error;
      }
      var access;
      reply, access := GetTemporaryAccess(q.ip);
      if !reply.Ok? {
        return;
      }
      if access.active {
        return Error;
      }
      reply, access := GetTemporaryAccess(q.ip);
      if !reply.Ok? {
        return;
      }
      if q.desiredNormal {
        return Error;
      }
      var id := |bank.redemptions|;
      reply := CommitBank(if MayReserve(bank, q.limits, q.ip, q.minutes)
          then Some(Reserve(bank, q.ip, q.minutes)) else None);
      if !reply.Ok? {
        return;
      }
      reply, access := SetTemporaryNormal(q.ip, id);
      if reply.Crash? {
        return;
      }
      var routerGrantConfirmed := reply.Ok? && access.reference == Some(id);
      if routerGrantConfirmed {
        reply := CommitBank(Complete(bank, id));
        return;
      }
      reply, access := GetTemporaryAccess(q.ip);
      if reply.Crash? {
        return;
      }
      if reply.Ok? && access.reference == Some(id) {
        reply := CommitBank(Complete(bank, id));
      } else if reply.Ok? && !access.active {
        reply := CommitBank(Refund(bank, id));
      } else {
        reply := Error;
      }
    }

    method RecoverRow(id: Id) returns (reply: Reply)
      requires id < |bank.redemptions|
      modifies this
      ensures Step(Now(), reply) == RecoverOne(script, old(Now()), id)
    {
      var access;
      reply, access := GetTemporaryAccess(bank.redemptions[id].ip);
      if reply.Error? {
        reply := Ok;
      } else if reply.Ok? {
        if access.reference == Some(id) {
          reply := CommitBank(Complete(bank, id));
        } else if !access.active {
          reply := CommitBank(Refund(bank, id));
        }
      }
    }

    method RecoverPending(only: Option<Address>) returns (reply: Reply)
      modifies this
      ensures Step(Now(), reply) == Recover(script, old(Now()), only)
    {
      ghost var first := Now();
      var ids := ListPending(only);
      reply := Ok;
      var i := 0;
      while i < |ids| && reply.Ok?
        invariant 0 <= i <= |ids| && Rows(ids, bank) && Rows(ids, first.bank)
        invariant Step(Now(), reply) == RecoverAll(script, first, ids[..i])
        invariant !reply.Ok? ==> RecoverAll(script, first, ids) == RecoverAll(script, first, ids[..i])
      {
        RecoverNext(script, first, ids, i);
        reply := RecoverRow(ids[i]);
        i := i + 1;
        if !reply.Ok? {
          RecoverStops(script, first, ids, i);
        }
      }
      assert ids[..|ids|] == ids;
    }

    method ListPending(only: Option<Address>) returns (ids: seq<Id>)
      ensures ids == Pending(Now(), |bank.redemptions|, only)
    {
      ids := [];
      for n := 0 to |bank.redemptions|
        invariant ids == Pending(Now(), n, only)
      {
        if bank.redemptions[n].status.Reserved? && (only.None? || bank.redemptions[n].ip == only.value) {
          ids := ids + [n];
        }
      }
    }
  }

  lemma {:induction false} RecoverStops(script: Script, w: World, ids: seq<Id>, k: nat)
    requires k <= |ids| && Rows(ids, w.bank) && !RecoverAll(script, w, ids[..k]).reply.Ok?
    ensures RecoverAll(script, w, ids) == RecoverAll(script, w, ids[..k])
  {
    if k < |ids| {
      assert ids[..|ids| - 1][..k] == ids[..k];
      RecoverStops(script, w, ids[..|ids| - 1], k);
    } else {
      assert ids[..k] == ids;
    }
  }

  lemma RecoverNext(script: Script, w: World, ids: seq<Id>, i: nat)
    requires i < |ids| && Rows(ids, w.bank) && RecoverAll(script, w, ids[..i]).reply.Ok?
    ensures RecoverAll(script, w, ids[..i + 1]) == RecoverOne(script, RecoverAll(script, w, ids[..i]).w, ids[i])
  {
    assert ids[..i + 1][..i] == ids[..i];
  }
}
