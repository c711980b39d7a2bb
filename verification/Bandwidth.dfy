/** The rate codec of app/bandwidth.py, over characters. */
module Bandwidth {
  import opened Common
  import opened Text

  datatype RateError = Malformed | NotPositive | Fractional
  datatype Result<+T> = Ok(value: T) | Err(error: RateError)

  const K := 1_000
  const M := 1_000_000
  const G := 1_000_000_000

  function SuffixFactor(c: char): (factor: Option<nat>)
    ensures factor.Some? ==> factor.value > 0 && !IsDigit(c)
  {
    if c == 'k' || c == 'K' then Some(K)
    else if c == 'm' || c == 'M' then Some(M)
    else if c == 'g' || c == 'G' then Some(G)
    else None
  }

  function Pow10(n: nat): (r: nat)
    ensures r > 0
  {
    if n == 0 then 1 else 10 * Pow10(n - 1)
  }

  /** A decimal label: `numerator / 10^scale`. */
  datatype Number = Number(numerator: nat, scale: nat)

  function ParseNumber(s: string): Option<Number> {
    var dot := IndexOf(s, '.');
    var whole := s[..dot];
    if dot == |s| then (if IsDigits(s) then Some(Number(DecimalValue(s), 0)) else None)
    else
      var fraction := s[dot + 1..];
      if IsDigits(whole) && IsDigits(fraction) then Some(Number(DecimalValue(whole + fraction), |fraction|)) else None
  }

  lemma ExactQuotient(a: nat, b: nat)
    requires b > 0 && a % b == 0
    ensures a == a / b * b && (a > 0 ==> a / b > 0)
  {
  }

  function SuffixOf(raw: string): Option<nat> {
    if raw == [] then None else SuffixFactor(raw[|raw| - 1])
  }

  function RateOf(number: Option<Number>, factor: nat): (r: Result<nat>)
    requires factor > 0
    ensures r.Ok? ==> r.value > 0
  {
    if number.None? then Err(Malformed)
    else if number.value.numerator == 0 then Err(NotPositive)
    else
      var scaled, unit := number.value.numerator * factor, Pow10(number.value.scale);
      if scaled % unit != 0 then Err(Fractional)
      else
        ExactQuotient(scaled, unit);
        Ok(scaled / unit)
  }

  function ParseRate(value: string): (r: Result<nat>)
    ensures r.Ok? ==> r.value > 0
  {
    var raw := Strip(value);
    match SuffixOf(raw)
    case None => RateOf(ParseNumber(raw), 1)
    case Some(factor) => RateOf(ParseNumber(raw[..|raw| - 1]), factor)
  }

  predicate ExactUnit(bps: nat, factor: nat)
    requires factor > 0
  {
    bps >= factor && bps % factor == 0
  }

  /** The first unit that divides the rate, largest first. */
  function Label(bps: nat): string {
    if ExactUnit(bps, G) then Decimal(bps / G) + "G"
    else if ExactUnit(bps, M) then Decimal(bps / M) + "M"
    else if ExactUnit(bps, K) then Decimal(bps / K) + "k"
    else Decimal(bps)
  }

  function NormalizeRate(value: string): Result<string> {
    match ParseRate(value)
    case Ok(bps) => Ok(Label(bps))
    case Err(error) => Err(error)
  }

  function BuildMaxLimit(upload: string, download: string): Result<string> {
    match NormalizeRate(upload)
    case Err(error) => Err(error)
    case Ok(up) =>
      match NormalizeRate(download)
      case Err(error) => Err(error)
      case Ok(down) => Ok(up + "/" + down)
  }

  function ParseMaxLimit(value: string): Result<(nat, nat)> {
    var parts := Split(Strip(value), '/');
    if |parts| != 2 then Err(Malformed) else
    match ParseRate(parts[0])
    case Err(error) => Err(error)
    case Ok(up) =>
      match ParseRate(parts[1])
      case Err(error) => Err(error)
      case Ok(down) => Ok((up, down))
  }

  predicate Blank(limit: Option<string>) {
    limit.None? || limit.value == ""
  }

  predicate LimitsEqual(left: Option<string>, right: Option<string>) {
    if Blank(left) || Blank(right) then left == right
    else
      var l, r := ParseMaxLimit(left.value), ParseMaxLimit(right.value);
      l.Ok? && r.Ok? && l.value == r.value
  }

  // ---------- printing and parsing undo each other ----------

  lemma ParseDecimal(n: nat)
    ensures ParseNumber(Decimal(n)) == Some(Number(n, 0))
  {
    var s := Decimal(n);
    assert '.' !in s;
  }

  lemma DecimalIsTight(n: nat, suffix: string)
    requires suffix == "" || (|suffix| == 1 && SuffixFactor(suffix[0]).Some?)
    ensures Strip(Decimal(n) + suffix) == Decimal(n) + suffix && '/' !in Decimal(n) + suffix
  {
    var d := Decimal(n);
    assert IsDigit(d[0]) && IsDigit(d[|d| - 1]);
    TightIsStripped(d + suffix);
  }

  lemma WholeRate(n: nat, factor: nat)
    requires n > 0 && factor > 0
    ensures RateOf(Some(Number(n, 0)), factor) == Ok(n * factor)
  {
    assert Pow10(0) == 1 && n * factor > 0;
  }

  lemma DecimalParses(n: nat)
    requires n > 0
    ensures ParseRate(Decimal(n)) == Ok(n)
  {
    var s := Decimal(n);
    DecimalIsTight(n, "");
    assert s + "" == s && IsDigit(s[|s| - 1]);
    ParseDecimal(n);
    WholeRate(n, 1);
  }

  lemma SuffixedParses(n: nat, c: char)
    requires n > 0 && SuffixFactor(c).Some?
    ensures ParseRate(Decimal(n) + [c]) == Ok(n * SuffixFactor(c).value)
  {
    var s := Decimal(n) + [c];
    DecimalIsTight(n, [c]);
    ParseDecimal(n);
    assert s[..|s| - 1] == Decimal(n);
    WholeRate(n, SuffixFactor(c).value);
  }

  lemma UnitLabel(bps: nat, factor: nat, c: char)
    requires SuffixFactor(c) == Some(factor) && factor > 0 && ExactUnit(bps, factor)
    ensures var s := Decimal(bps / factor) + [c];
      ParseRate(s) == Ok(bps) && Strip(s) == s && '/' !in s
  {
    ExactQuotient(bps, factor);
    DecimalIsTight(bps / factor, [c]);
    SuffixedParses(bps / factor, c);
  }

  /** The canonical label of a rate parses back to exactly that rate. */
  lemma ParseLabel(bps: nat)
    requires bps > 0
    ensures ParseRate(Label(bps)) == Ok(bps) && Strip(Label(bps)) == Label(bps) && '/' !in Label(bps)
  {
    if ExactUnit(bps, G) {
      UnitLabel(bps, G, 'G');
    } else if ExactUnit(bps, M) {
      UnitLabel(bps, M, 'M');
    } else if ExactUnit(bps, K) {
      UnitLabel(bps, K, 'k');
    } else {
      DecimalIsTight(bps, "");
      DecimalParses(bps);
      assert Decimal(bps) + "" == Decimal(bps);
    }
  }

  /** Normalisation keeps the rate, refuses exactly what parsing refuses, and is idempotent. */
  lemma NormalizeKeepsRate(value: string)
    ensures NormalizeRate(value).Ok? <==> ParseRate(value).Ok?
    ensures NormalizeRate(value).Ok? ==> ParseRate(NormalizeRate(value).value) == ParseRate(value)
    ensures NormalizeRate(value).Ok? ==> NormalizeRate(NormalizeRate(value).value) == NormalizeRate(value)
  {
    if ParseRate(value).Ok? {
      ParseLabel(ParseRate(value).value);
    }
  }

  /** Two labels normalise to the same text if and only if they denote the same rate. */
  lemma NormalizeIsCanonical(a: string, b: string)
    requires ParseRate(a).Ok? && ParseRate(b).Ok?
    ensures NormalizeRate(a) == NormalizeRate(b) <==> ParseRate(a) == ParseRate(b)
  {
    NormalizeKeepsRate(a);
    NormalizeKeepsRate(b);
  }

  lemma JoinedLabelsAreTight(a: string, b: string)
    requires Tight(a) && Tight(b) && a != [] && b != []
    ensures Strip(a + "/" + b) == a + "/" + b
  {
    var s := a + "/" + b;
    assert s[0] == a[0] && s[|s| - 1] == b[|b| - 1];
    TightIsStripped(s);
  }

  lemma StrippedIsTight(s: string)
    requires Strip(s) == s
    ensures Tight(s)
  {
    TrimLeftShorter(s);
    TrimRightShorter(TrimLeft(s));
  }

  lemma TrimLeftShorter(s: string)
    ensures |TrimLeft(s)| <= |s| && (|TrimLeft(s)| == |s| ==> TrimLeft(s) == s && (s == [] || !IsSpace(s[0])))
  {
  }

  lemma TrimRightShorter(s: string)
    ensures |TrimRight(s)| <= |s|
    ensures |TrimRight(s)| == |s| ==> TrimRight(s) == s && (s == [] || !IsSpace(s[|s| - 1]))
  {
  }

  /** A built max-limit parses back to the pair of rates it was built from. */
  lemma ParseBuiltLimit(upload: string, download: string)
    ensures BuildMaxLimit(upload, download).Ok? <==> ParseRate(upload).Ok? && ParseRate(download).Ok?
    ensures BuildMaxLimit(upload, download).Ok? ==>
              && BuildMaxLimit(upload, download).value != ""
              && ParseMaxLimit(BuildMaxLimit(upload, download).value)
                 == Ok((ParseRate(upload).value, ParseRate(download).value))
  {
    if ParseRate(upload).Ok? && ParseRate(download).Ok? {
      var up, down := Label(ParseRate(upload).value), Label(ParseRate(download).value);
      ParseLabel(ParseRate(upload).value);
      ParseLabel(ParseRate(download).value);
      StrippedIsTight(up);
      StrippedIsTight(down);
      JoinedLabelsAreTight(up, down);
      SplitPair(up, down, '/');
      assert up + ['/'] + down == up + "/" + down;
    }
  }

  /** On built limits, comparison decides equality of both rates. */
  lemma LimitsEqualDecides(u: string, d: string, u': string, d': string)
    ensures var left, right := BuildMaxLimit(u, d), BuildMaxLimit(u', d');
      left.Ok? && right.Ok? ==>
        (LimitsEqual(Some(left.value), Some(right.value))
         <==> (ParseRate(u) == ParseRate(u') && ParseRate(d) == ParseRate(d')))
  {
    if BuildMaxLimit(u, d).Ok? && BuildMaxLimit(u', d').Ok? {
      ParseBuiltLimit(u, d);
      ParseBuiltLimit(u', d');
    }
  }
}
