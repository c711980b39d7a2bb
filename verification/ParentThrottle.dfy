/** The failure throttle that every code-checking route of app/main.py keeps in LOGIN_FAILS, one record per key. */
module ParentThrottle {

  datatype Fails = Fails(count: nat, until: real)
  datatype Try = Try(at: real, ok: bool)

  const NoFails := Fails(0, 0.0)

  function FailsAt(table: map<string, Fails>, key: string): Fails {
    if key in table then table[key] else NoFails
  }

  predicate IsBlocked(f: Fails, now: real) {
    f.until > now
  }

  function Failed(f: Fails, now: real): Fails {
    Fails(f.count + 1, if f.count + 1 >= 5 then now + 60.0 else 0.0)
  }

  /** A blocked try is not even checked; a success forgets the record. */
  function Attempt(f: Fails, t: Try): Fails {
    if IsBlocked(f, t.at) then f else if t.ok then NoFails else Failed(f, t.at)
  }

  function After(tries: seq<Try>): Fails {
    if tries == [] then NoFails else Attempt(After(tries[..|tries| - 1]), tries[|tries| - 1])
  }

  /** How many of the tries reached the code check. */
  function Checks(tries: seq<Try>): nat {
    if tries == [] then 0 else
    var before := tries[..|tries| - 1];
    Checks(before) + if IsBlocked(After(before), tries[|tries| - 1].at) then 0 else 1
  }

  ghost predicate WrongAndOrdered(tries: seq<Try>) {
    && (forall t | t in tries :: !t.ok && t.at >= 0.0)
    && (forall i, j | 0 <= i < j < |tries| :: tries[i].at <= tries[j].at)
  }

  lemma {:induction false} BlockedUntil(tries: seq<Try>)
    requires tries != [] && WrongAndOrdered(tries)
    ensures After(tries).count == Checks(tries) && After(tries).until <= tries[|tries| - 1].at + 60.0
    ensures Checks(tries) >= 5 ==> After(tries).until >= tries[0].at + 60.0 * (Checks(tries) - 4) as real
  {
    var n := |tries| - 1;
    if n > 0 {
      assert WrongAndOrdered(tries[..n]) by {
        assert forall t | t in tries[..n] :: t in tries;
      }
      BlockedUntil(tries[..n]);
      assert tries[n - 1].at <= tries[n].at;
    }
    assert tries[n] in tries && tries[0].at <= tries[n].at;
  }

  /** Without a success, five wrong codes can be checked at once and after them at most one a minute. */
  lemma GuessesAreLimited(tries: seq<Try>)
    requires tries != [] && WrongAndOrdered(tries)
    ensures 60.0 * (Checks(tries) as real - 5.0) <= tries[|tries| - 1].at - tries[0].at || Checks(tries) <= 5
  {
    BlockedUntil(tries);
  }

  // ---------- all keys together ----------

  /** A wrong code under one key of the table: each route has its own key for an address and a user. */
  datatype Guess = Guess(key: string, at: real)

  function TableAfter(guesses: seq<Guess>): map<string, Fails> {
    if guesses == [] then map[] else
    var before, g := TableAfter(guesses[..|guesses| - 1]), guesses[|guesses| - 1];
    before[g.key := Attempt(FailsAt(before, g.key), Try(g.at, false))]
  }

  /** How many guesses under the given keys reached the code check. */
  function Checked(guesses: seq<Guess>, keys: set<string>): nat {
    if guesses == [] then 0 else
    var rest, g := guesses[..|guesses| - 1], guesses[|guesses| - 1];
    Checked(rest, keys) + if g.key in keys && !IsBlocked(FailsAt(TableAfter(rest), g.key), g.at) then 1 else 0
  }

  /** What one key sees of them. */
  function Under(guesses: seq<Guess>, key: string): seq<Try> {
    if guesses == [] then [] else
    var g := guesses[|guesses| - 1];
    Under(guesses[..|guesses| - 1], key) + if g.key == key then [Try(g.at, false)] else []
  }

  ghost predicate Ordered(guesses: seq<Guess>) {
    && (forall g | g in guesses :: g.at >= 0.0)
    && (forall i, j | 0 <= i < j < |guesses| :: guesses[i].at <= guesses[j].at)
  }

  lemma AfterOneMore(tries: seq<Try>, t: Try)
    ensures After(tries + [t]) == Attempt(After(tries), t)
    ensures Checks(tries + [t]) == Checks(tries) + if IsBlocked(After(tries), t.at) then 0 else 1
  {
    assert (tries + [t])[..|tries|] == tries;
  }

  lemma {:induction false} KeysAreSeparate(guesses: seq<Guess>, key: string)
    ensures FailsAt(TableAfter(guesses), key) == After(Under(guesses, key))
    ensures Checked(guesses, {key}) == Checks(Under(guesses, key))
  {
    if guesses != [] {
      var rest, g := guesses[..|guesses| - 1], guesses[|guesses| - 1];
      KeysAreSeparate(rest, key);
      if g.key == key {
        AfterOneMore(Under(rest, key), Try(g.at, false));
      } else {
        assert Under(guesses, key) == Under(rest, key);
      }
    }
  }

  lemma {:induction false} UnderIsOrdered(guesses: seq<Guess>, key: string)
    requires Ordered(guesses)
    ensures WrongAndOrdered(Under(guesses, key))
    ensures forall t | t in Under(guesses, key) :: guesses != [] && guesses[0].at <= t.at <= guesses[|guesses| - 1].at
  {
    if guesses != [] {
      var rest, g := guesses[..|guesses| - 1], guesses[|guesses| - 1];
      assert g in guesses && forall h | h in rest :: h in guesses;
      UnderIsOrdered(rest, key);
      assert rest != [] ==> rest[|rest| - 1].at <= g.at && rest[0] == guesses[0];
      var before := Under(rest, key);
      assert forall i | 0 <= i < |before| :: before[i] in before && before[i].at <= g.at;
    }
  }

  lemma {:induction false} CheckedSplits(guesses: seq<Guess>, keys: set<string>, key: string)
    requires key in keys
    ensures Checked(guesses, keys) == Checked(guesses, keys - {key}) + Checked(guesses, {key})
  {
    if guesses != [] {
      CheckedSplits(guesses[..|guesses| - 1], keys, key);
    }
  }

  lemma {:induction false} NoKeyNoCheck(guesses: seq<Guess>)
    ensures Checked(guesses, {}) == 0
  {
    if guesses != [] {
      NoKeyNoCheck(guesses[..|guesses| - 1]);
    }
  }

  lemma KeyIsLimited(guesses: seq<Guess>, key: string, each: real)
    requires guesses != [] && Ordered(guesses)
    requires 60.0 * (each - 5.0) == guesses[|guesses| - 1].at - guesses[0].at
    ensures Checked(guesses, {key}) as real <= each
  {
    var tries := Under(guesses, key);
    KeysAreSeparate(guesses, key);
    UnderIsOrdered(guesses, key);
    if tries != [] {
      assert tries[0] in tries && tries[|tries| - 1] in tries;
      GuessesAreLimited(tries);
    }
    assert |guesses| > 1 ==> guesses[0].at <= guesses[|guesses| - 1].at;
  }

  /** The product of `n` and `x`; see TimesIsProduct. */
  function Times(n: nat, x: real): real {
    if n == 0 then 0.0 else Times(n - 1, x) + x
  }

  lemma {:induction false} TimesIsProduct(n: nat, x: real)
    ensures Times(n, x) == n as real * x
  {
    if n > 0 {
      TimesIsProduct(n - 1, x);
      assert n as real * x == (n - 1) as real * x + x;
    }
  }

  lemma {:induction false} LimitsAddUp(guesses: seq<Guess>, keys: set<string>, bound: real)
    requires forall key | key in keys :: Checked(guesses, {key}) as real <= bound
    ensures Checked(guesses, keys) as real <= Times(|keys|, bound)
  {
    if keys == {} {
      NoKeyNoCheck(guesses);
    } else {
      var key :| key in keys;
      assert |keys - {key}| == |keys| - 1;
      LimitsAddUp(guesses, keys - {key}, bound);
      CheckedSplits(guesses, keys, key);
    }
  }

  /** Without a success, n keys together let through at most n times what one does: five codes each, and one a
      minute. */
  lemma GuessesAreLimitedTogether(guesses: seq<Guess>, keys: set<string>, each: real)
    requires guesses != [] && Ordered(guesses)
    requires 60.0 * (each - 5.0) == guesses[|guesses| - 1].at - guesses[0].at
    ensures Checked(guesses, keys) as real <= Times(|keys|, each)
  {
    forall key | key in keys ensures Checked(guesses, {key}) as real <= each {
      KeyIsLimited(guesses, key, each);
    }
    LimitsAddUp(guesses, keys, each);
  }
}
