/** What holds of an account over any history of requests to app/auth.py. */
module ParentAuthProofs {
  import opened Common
  import opened ParentAuth

  // ---------- the account invariant ----------

  predicate UniqueIds(devices: seq<Device>, nextId: nat) {
    && (forall d | d in devices :: d.id < nextId)
    && (forall i, j | 0 <= i < j < |devices| :: devices[i].id != devices[j].id)
  }

  /** OTP login or a shared display always has an authenticator behind it. */
  predicate Guarded(a: Account) {
    a.mode != Password || a.shared ==> ActiveCount(a.devices) >= 1
  }

  predicate Invariant(a: Account) {
    UniqueIds(a.devices, a.nextId) && DistinctTexts(a.recovery) && Guarded(a)
  }

  lemma {:induction false} CountUpdate(devices: seq<Device>, i: nat, d: Device)
    requires i < |devices|
    ensures ActiveCount(devices[i := d])
         == ActiveCount(devices) - (if devices[i].revoked then 0 else 1) + (if d.revoked then 0 else 1)
  {
    var n := |devices| - 1;
    if i < n {
      assert devices[i := d][..n] == devices[..n][i := d];
      CountUpdate(devices[..n], i, d);
    } else {
      assert devices[i := d][..n] == devices[..n];
    }
  }

  lemma RowsAreDistinct(a: Account, i: nat)
    requires DistinctTexts(a.recovery) && i < |a.recovery|
    ensures DistinctTexts(a.recovery[i := a.recovery[i].(used := true)])
  {
  }

  lemma UpdateKeepsIds(devices: seq<Device>, nextId: nat, i: nat, d: Device)
    requires UniqueIds(devices, nextId) && i < |devices| && d.id == devices[i].id
    ensures UniqueIds(devices[i := d], nextId)
  {
  }

  lemma AppendKeepsIds(devices: seq<Device>, nextId: nat, d: Device)
    requires UniqueIds(devices, nextId) && d.id == nextId
    ensures UniqueIds(devices + [d], nextId + 1) && ActiveCount(devices + [d]) >= ActiveCount(devices)
  {
    assert (devices + [d])[..|devices|] == devices;
  }

  lemma ConfirmKeepsInvariant(a: Account, hotp: Hotp, token: string, code: string, now: int, codes: seq<string>)
    requires Invariant(a)
    ensures Invariant(Confirm(a, hotp, token, code, now, codes).0)
  {
    forall d: Device | d.id == a.nextId
      ensures UniqueIds(a.devices + [d], a.nextId + 1) && ActiveCount(a.devices + [d]) >= ActiveCount(a.devices)
    {
      AppendKeepsIds(a.devices, a.nextId, d);
    }
  }

  lemma RevokeKeepsInvariant(a: Account, id: nat)
    requires Invariant(a)
    ensures Invariant(Revoke(a, id).0)
  {
    var i := DeviceAt(a.devices, id);
    if i < |a.devices| {
      CountUpdate(a.devices, i, a.devices[i].(revoked := true));
      UpdateKeepsIds(a.devices, a.nextId, i, a.devices[i].(revoked := true));
    }
  }

  lemma ServeKeepsInvariant(a: Account, hotp: Hotp, e: Event)
    requires Invariant(a)
    ensures Invariant(Serve(a, hotp, e).0)
  {
    match e.request
    case Save(mode, shared, minutes) =>
    case Start(token, secret) =>
    case Enroll(token, code, codes) => ConfirmKeepsInvariant(a, hotp, token, code, e.at, codes);
    case Check(code, readable) => CheckKeepsInvariant(a, hotp, code, e.at, readable);
    case Drop(device) => RevokeKeepsInvariant(a, device);
    case Renew(codes) =>
  }

  lemma CheckKeepsInvariant(a: Account, hotp: Hotp, code: string, at: int, readable: set<nat>)
    requires Invariant(a)
    ensures Invariant(Verify(a, hotp, code, at, readable).0)
  {
    var i := FirstHit(a.devices, hotp, Compact(code), at, readable);
    if i < |a.devices| {
      var probe := ProbeDevice(a.devices[i], hotp, Compact(code), at, readable);
      if probe.Match? {
        CountUpdate(a.devices, i, a.devices[i].(counter := probe.counter));
        UpdateKeepsIds(a.devices, a.nextId, i, a.devices[i].(counter := probe.counter));
      }
    }
    var r := Unused(a.recovery, Normalized(code));
    if r < |a.recovery| {
      RowsAreDistinct(a, r);
    }
  }

  /** In every reachable account OTP login or shared display being on implies an active authenticator. */
  lemma {:induction false} ReachableIsGuarded(hotp: Hotp, history: seq<Event>)
    ensures Invariant(Run(NewAccount, hotp, history))
  {
    if history != [] {
      ReachableIsGuarded(hotp, history[..|history| - 1]);
      ServeKeepsInvariant(Run(NewAccount, hotp, history[..|history| - 1]), hotp, history[|history| - 1]);
    }
  }

  // ---------- replay ----------

  function CounterFor(answer: Answer, device: nat): Option<int> {
    match answer
    case ByTotp(id, counter) => if id == device then Some(counter) else None
    case Confirmed(id, counter, _) => if id == device then Some(counter) else None
    case _ => None
  }

  /** The counters one authenticator has had accepted, enrollment included. */
  function Counters(a: Account, hotp: Hotp, history: seq<Event>, device: nat): seq<int> {
    if history == [] then [] else
    var n := |history| - 1;
    var answer := Serve(Run(a, hotp, history[..n]), hotp, history[n]).1;
    Counters(a, hotp, history[..n], device)
    + if CounterFor(answer, device).Some? then [CounterFor(answer, device).value] else []
  }

  predicate HasReached(a: Account, device: nat, counter: int) {
    exists i | 0 <= i < |a.devices| :: a.devices[i].id == device && a.devices[i].counter >= counter
  }

  /** Rows keep their place and identity, and counters never fall. */
  predicate Grown(was: seq<Device>, now: seq<Device>) {
    |was| <= |now| && forall i | 0 <= i < |was| :: now[i].id == was[i].id && now[i].counter >= was[i].counter
  }

  lemma TotpGrows(a: Account, hotp: Hotp, code: string, at: int, readable: set<nat>)
    ensures Grown(a.devices, VerifyTotp(a, hotp, code, at, readable).0.devices)
  {
  }

  lemma ConfirmGrows(a: Account, hotp: Hotp, token: string, code: string, now: int, codes: seq<string>)
    ensures Grown(a.devices, Confirm(a, hotp, token, code, now, codes).0.devices)
  {
  }

  lemma ServeGrows(a: Account, hotp: Hotp, e: Event)
    ensures Grown(a.devices, Serve(a, hotp, e).0.devices)
  {
    match e.request
    case Enroll(token, code, codes) => ConfirmGrows(a, hotp, token, code, e.at, codes);
    case Check(code, readable) => TotpGrows(a, hotp, Compact(code), e.at, readable);
    case _ =>
  }

  lemma ServeKeepsReached(a: Account, hotp: Hotp, e: Event, device: nat, counter: int)
    requires HasReached(a, device, counter)
    ensures HasReached(Serve(a, hotp, e).0, device, counter)
  {
    ServeGrows(a, hotp, e);
    var i :| 0 <= i < |a.devices| && a.devices[i].id == device && a.devices[i].counter >= counter;
    var after := Serve(a, hotp, e).0.devices;
    assert after[i].id == device && after[i].counter >= counter;
  }

  /** An accepted counter lies in the window, is stored, and is above everything the device had reached. */
  lemma AcceptanceIsNew(a: Account, hotp: Hotp, e: Event, device: nat)
    requires Invariant(a) && CounterFor(Serve(a, hotp, e).1, device).Some?
    ensures var c := CounterFor(Serve(a, hotp, e).1, device).value;
      && e.at / Period - 1 <= c <= e.at / Period + 1
      && HasReached(Serve(a, hotp, e).0, device, c)
      && !HasReached(a, device, c)
  {
    var after, c := Serve(a, hotp, e).0, CounterFor(Serve(a, hotp, e).1, device).value;
    if e.request.Enroll? {
      assert after.devices[|a.devices|].id == device && after.devices[|a.devices|].counter == c;
    } else {
      var i := FirstHit(a.devices, hotp, Compact(e.request.code), e.at, e.request.readable);
      assert after.devices[i].id == device && after.devices[i].counter == c > a.devices[i].counter;
    }
  }

  predicate Rising(s: seq<int>) {
    forall i, j | 0 <= i < j < |s| :: s[i] < s[j]
  }

  lemma {:induction false} CountersRise(a: Account, hotp: Hotp, history: seq<Event>, device: nat)
    requires Invariant(a)
    ensures Invariant(Run(a, hotp, history)) && Rising(Counters(a, hotp, history, device))
    ensures forall c | c in Counters(a, hotp, history, device) :: HasReached(Run(a, hotp, history), device, c)
  {
    if history != [] {
      var n := |history| - 1;
      CountersRise(a, hotp, history[..n], device);
      var before, e := Run(a, hotp, history[..n]), history[n];
      ServeKeepsInvariant(before, hotp, e);
      var earlier := Counters(a, hotp, history[..n], device);
      forall c | c in earlier ensures HasReached(Serve(before, hotp, e).0, device, c) {
        ServeKeepsReached(before, hotp, e, device, c);
      }
      if CounterFor(Serve(before, hotp, e).1, device).Some? {
        AcceptanceIsNew(before, hotp, e, device);
        var next := CounterFor(Serve(before, hotp, e).1, device).value;
        forall i | 0 <= i < |earlier| ensures earlier[i] < next {
          assert earlier[i] in earlier;
          ReachedIsDownward(before, device, earlier[i], next);
        }
      }
    }
  }

  lemma ReachedIsDownward(a: Account, device: nat, reached: int, next: int)
    requires HasReached(a, device, reached) && !HasReached(a, device, next)
    ensures reached < next
  {
  }

  lemma {:induction false} CountersInWindow(a: Account, hotp: Hotp, history: seq<Event>, device: nat, t0: int, t1: int)
    requires Invariant(a) && forall e | e in history :: t0 <= e.at <= t1
    ensures forall c | c in Counters(a, hotp, history, device) :: t0 / Period - 1 <= c <= t1 / Period + 1
  {
    if history != [] {
      var n := |history| - 1;
      assert forall e | e in history[..n] :: e in history;
      CountersInWindow(a, hotp, history[..n], device, t0, t1);
      CountersRise(a, hotp, history[..n], device);
      var before, e := Run(a, hotp, history[..n]), history[n];
      assert e in history;
      if CounterFor(Serve(before, hotp, e).1, device).Some? {
        AcceptanceIsNew(before, hotp, e, device);
        assert t0 / Period <= e.at / Period <= t1 / Period;
      }
    }
  }

  lemma {:induction false} RisingFits(s: seq<int>, low: int, high: int)
    requires Rising(s) && forall c | c in s :: low <= c <= high
    ensures s != [] ==> s[|s| - 1] >= low + |s| - 1
    ensures s != [] ==> |s| <= high - low + 1
  {
    if s != [] {
      var n := |s| - 1;
      assert s[n] in s && forall c | c in s[..n] :: c in s;
      RisingFits(s[..n], low, high);
    }
  }

  /** Replay protection: the counters accepted for one authenticator strictly increase over any history,
      and between two instants there are at most as many as the window allows. */
  lemma NoReplay(hotp: Hotp, history: seq<Event>, device: nat, t0: int, t1: int)
    requires t0 <= t1 && forall e | e in history :: t0 <= e.at <= t1
    ensures Rising(Counters(NewAccount, hotp, history, device))
    ensures |Counters(NewAccount, hotp, history, device)| <= t1 / Period - t0 / Period + 3
  {
    CountersRise(NewAccount, hotp, history, device);
    CountersInWindow(NewAccount, hotp, history, device, t0, t1);
    RisingFits(Counters(NewAccount, hotp, history, device), t0 / Period - 1, t1 / Period + 1);
    assert t0 / Period <= t1 / Period;
  }

  // ---------- recovery codes ----------

  predicate Renews(answer: Answer) {
    answer == Regenerated || (answer.Confirmed? && answer.renewed)
  }

  /** No request of the history replaces the recovery codes. */
  ghost predicate Quiet(a: Account, hotp: Hotp, history: seq<Event>) {
    forall i | 0 <= i < |history| :: !Renews(AnswerAt(a, hotp, history, i))
  }

  function Successes(a: Account, hotp: Hotp, history: seq<Event>): seq<string> {
    if history == [] then [] else
    var n := |history| - 1;
    Successes(a, hotp, history[..n])
    + if Serve(Run(a, hotp, history[..n]), hotp, history[n]).1 == ByRecovery && history[n].request.Check?
      then [Normalized(history[n].request.code)] else []
  }

  lemma {:induction false} RemainingUpdate(rows: seq<Recovery>, i: nat, r: Recovery)
    requires i < |rows|
    ensures Remaining(rows[i := r]) == Remaining(rows) - (if rows[i].used then 0 else 1) + (if r.used then 0 else 1)
  {
    var n := |rows| - 1;
    if i < n {
      assert rows[i := r][..n] == rows[..n][i := r];
      RemainingUpdate(rows[..n], i, r);
    } else {
      assert rows[i := r][..n] == rows[..n];
    }
  }

  lemma {:induction false} AllUnused(rows: seq<Recovery>)
    requires forall r | r in rows :: !r.used
    ensures Remaining(rows) == |rows|
  {
    if rows != [] {
      AllUnused(rows[..|rows| - 1]);
    }
  }

  /** A renewal leaves one unused code for each code drawn. */
  lemma RenewalFills(a: Account, hotp: Hotp, e: Event)
    requires Renews(Serve(a, hotp, e).1)
    ensures (e.request.Renew? || e.request.Enroll?) && Remaining(Serve(a, hotp, e).0.recovery) == |e.request.codes|
  {
    AllUnused(Rows(e.request.codes));
  }

  predicate IsSpent(rows: seq<Recovery>, text: string) {
    forall r | r in rows :: r.text == text ==> r.used
  }

  lemma RecoverySpends(a: Account, code: string)
    requires DistinctTexts(a.recovery)
    ensures var after, answer := VerifyRecovery(a, code).0, VerifyRecovery(a, code).1;
      && Remaining(after.recovery) == Remaining(a.recovery) - (if answer == ByRecovery then 1 else 0)
      && (answer == ByRecovery ==> IsSpent(after.recovery, Normalized(code)) && !IsSpent(a.recovery, Normalized(code)))
      && (forall text | IsSpent(a.recovery, text) :: IsSpent(after.recovery, text))
  {
    var i := Unused(a.recovery, Normalized(code));
    if i < |a.recovery| {
      RemainingUpdate(a.recovery, i, a.recovery[i].(used := true));
      assert a.recovery[i] in a.recovery;
    }
  }

  lemma OthersKeepRecovery(a: Account, hotp: Hotp, e: Event)
    requires !Renews(Serve(a, hotp, e).1)
    ensures (e.request.Check? && !IsOtp(Compact(e.request.code)))
         || (Serve(a, hotp, e).0.recovery == a.recovery && Serve(a, hotp, e).1 != ByRecovery)
  {
  }

  lemma ServeSpends(a: Account, hotp: Hotp, e: Event)
    requires Invariant(a) && !Renews(Serve(a, hotp, e).1)
    ensures var after, answer := Serve(a, hotp, e).0, Serve(a, hotp, e).1;
      && Remaining(after.recovery) == Remaining(a.recovery) - (if answer == ByRecovery then 1 else 0)
      && (answer == ByRecovery ==> e.request.Check? && IsSpent(after.recovery, Normalized(e.request.code))
                                   && !IsSpent(a.recovery, Normalized(e.request.code)))
      && (forall text | IsSpent(a.recovery, text) :: IsSpent(after.recovery, text))
  {
    OthersKeepRecovery(a, hotp, e);
    if e.request.Check? && !IsOtp(Compact(e.request.code)) {
      RecoverySpends(a, e.request.code);
    }
  }

  predicate AllDifferent(texts: seq<string>) {
    forall i, j | 0 <= i < j < |texts| :: texts[i] != texts[j]
  }

  lemma QuietPrefix(a: Account, hotp: Hotp, history: seq<Event>)
    requires history != [] && Quiet(a, hotp, history)
    ensures Quiet(a, hotp, history[..|history| - 1])
    ensures !Renews(Serve(Run(a, hotp, history[..|history| - 1]), hotp, history[|history| - 1]).1)
  {
    var n := |history| - 1;
    forall i | 0 <= i < n ensures !Renews(AnswerAt(a, hotp, history[..n], i)) {
      assert history[..n][..i] == history[..i];
      assert AnswerAt(a, hotp, history, i) == AnswerAt(a, hotp, history[..n], i);
    }
    assert AnswerAt(a, hotp, history, n) == Serve(Run(a, hotp, history[..n]), hotp, history[n]).1;
  }

  /** Between renewals every code succeeds at most once and each success uses up exactly one code. */
  lemma {:induction false} RecoveryBudget(a: Account, hotp: Hotp, history: seq<Event>)
    requires Invariant(a) && Quiet(a, hotp, history)
    ensures Invariant(Run(a, hotp, history))
    ensures Remaining(Run(a, hotp, history).recovery) == Remaining(a.recovery) - |Successes(a, hotp, history)|
    ensures AllDifferent(Successes(a, hotp, history))
    ensures forall text | text in Successes(a, hotp, history) :: IsSpent(Run(a, hotp, history).recovery, text)
  {
    if history != [] {
      var n := |history| - 1;
      QuietPrefix(a, hotp, history);
      RecoveryBudget(a, hotp, history[..n]);
      var before := Run(a, hotp, history[..n]);
      ServeKeepsInvariant(before, hotp, history[n]);
      ServeSpends(before, hotp, history[n]);
      var earlier := Successes(a, hotp, history[..n]);
      assert forall i | 0 <= i < |earlier| :: earlier[i] in earlier;
    }
  }

  /** After a regeneration of ten codes: ten minus the successes since remain, and no code succeeds twice. */
  lemma TenSingleUses(start: Account, hotp: Hotp, renewal: Event, history: seq<Event>)
    requires Invariant(start) && Renews(Serve(start, hotp, renewal).1)
    requires renewal.request.Renew? || renewal.request.Enroll?
    requires |renewal.request.codes| == RecoveryCodes
    requires Quiet(Serve(start, hotp, renewal).0, hotp, history)
    ensures var a := Serve(start, hotp, renewal).0;
      && Remaining(Run(a, hotp, history).recovery) == 10 - |Successes(a, hotp, history)|
      && AllDifferent(Successes(a, hotp, history))
  {
    ServeKeepsInvariant(start, hotp, renewal);
    RenewalFills(start, hotp, renewal);
    RecoveryBudget(Serve(start, hotp, renewal).0, hotp, history);
  }

  lemma {:induction false} NormalizedIsShorter(code: string)
    ensures |Normalized(code)| <= |Compact(code)|
  {
    if code != [] {
      NormalizedIsShorter(code[1..]);
    }
  }

  /** Exactly the unused codes of at least ten letters and digits are accepted, however they are punctuated. */
  lemma RecoveryAcceptedIff(a: Account, hotp: Hotp, code: string, at: int, readable: set<nat>)
    ensures Verify(a, hotp, code, at, readable).1 == ByRecovery
       <==> |Normalized(code)| >= 10 && Recovery(Normalized(code), false) in a.recovery
  {
    NormalizedIsShorter(code);
  }

  // ---------- OTP-only login and its recovery codes ----------

  /** OTP-only login starts with a recovery code, keeps an authenticator for as long as it lasts, and is left without
      a code exactly after as many successes as there were codes when it was switched on, unless they are renewed. */
  lemma OtpOnlyBudget(a: Account, hotp: Hotp, shared: bool, minutes: int, history: seq<Event>)
    requires Invariant(a) && SaveSettings(a, TotpOnly, shared, minutes).1 == Saved
    requires Quiet(SaveSettings(a, TotpOnly, shared, minutes).0, hotp, history)
    ensures var start := SaveSettings(a, TotpOnly, shared, minutes).0;
      var now := Run(start, hotp, history);
      && Remaining(a.recovery) >= 1
      && (now.mode == TotpOnly ==> ActiveCount(now.devices) >= 1)
      && (Remaining(now.recovery) == 0 <==> |Successes(start, hotp, history)| == Remaining(a.recovery))
  {
    RecoveryBudget(SaveSettings(a, TotpOnly, shared, minutes).0, hotp, history);
  }

  /** The stored form of a drawn code. */
  ghost predicate Drawn(rows: seq<Recovery>) {
    forall r | r in rows :: |r.text| >= 10 && Normalized(r.text) == r.text
  }

  lemma {:induction false} RunCons(a: Account, hotp: Hotp, e: Event, history: seq<Event>)
    ensures Run(a, hotp, [e] + history) == Run(Serve(a, hotp, e).0, hotp, history)
  {
    if history == [] {
      assert [e] + history == [e] && [e][..0] == [];
    } else {
      var n := |history| - 1;
      RunCons(a, hotp, e, history[..n]);
      assert ([e] + history)[..n + 1] == [e] + history[..n];
    }
  }

  lemma {:induction false} SomeUnused(rows: seq<Recovery>) returns (i: nat)
    requires Remaining(rows) > 0
    ensures i < |rows| && !rows[i].used
  {
    i := |rows| - 1;
    if rows[i].used {
      i := SomeUnused(rows[..|rows| - 1]);
    }
  }

  /** Nothing stops the last code from being used: from any account some requests, code checks all, leave the login mode
      and the authenticators as they are and no recovery code behind, OTP-only login included. */
  lemma {:induction false} CodesRunOut(a: Account, hotp: Hotp, at: int) returns (history: seq<Event>)
    requires Invariant(a) && Drawn(a.recovery)
    ensures var now := Run(a, hotp, history);
      now.mode == a.mode && now.devices == a.devices && Remaining(now.recovery) == 0
    ensures forall e | e in history :: e.request.Check?
    decreases Remaining(a.recovery)
  {
    if Remaining(a.recovery) == 0 {
      history := [];
    } else {
      var i := SomeUnused(a.recovery);
      var text := a.recovery[i].text;
      var e := Event(at, Check(text, {}));
      assert a.recovery[i] in a.recovery && a.recovery[i] == Recovery(text, false);
      RecoveryAcceptedIff(a, hotp, text, at, {});
      NormalizedIsShorter(text);
      ServeKeepsInvariant(a, hotp, e);
      ServeSpends(a, hotp, e);
      var rest := CodesRunOut(Serve(a, hotp, e).0, hotp, at);
      RunCons(a, hotp, e, rest);
      history := [e] + rest;
    }
  }
}
