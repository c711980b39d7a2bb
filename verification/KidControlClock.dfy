/** The RouterOS clock and day-window parsers of app/kid_control_migration.py, over ASCII characters. */
module KidControlClock {
  import opened Common
  import opened Text

  datatype ClockError = Unsupported | SecondLevel | NoRange | Identical | Overnight
  datatype Result<+T> = Ok(value: T) | Err(error: ClockError)

  function Pad(n: nat): (s: string)
    requires n < 100
    ensures |s| == 2 && IsDigit(s[0]) && IsDigit(s[1]) && 10 * DigitValue(s[0]) + DigitValue(s[1]) == n
  {
    [DigitChar(n / 10), DigitChar(n % 10)]
  }

  function Clock(hour: nat, minute: nat): (s: ClockText)
    requires hour < 24 && minute < 60
    ensures Minute(s) == 60 * hour + minute
  {
    Pad(hour) + ":" + Pad(minute)
  }

  predicate TwoDigits(s: string, i: nat) {
    i + 1 < |s| && IsDigit(s[i]) && IsDigit(s[i + 1])
  }

  function TwoDigitValue(s: string, i: nat): nat
    requires TwoDigits(s, i)
  {
    10 * DigitValue(s[i]) + DigitValue(s[i + 1])
  }

  /** Exactly `HH:MM`. */
  predicate IsClock(s: string) {
    |s| == 5 && TwoDigits(s, 0) && s[2] == ':' && TwoDigits(s, 3) && TwoDigitValue(s, 0) < 24
        && TwoDigitValue(s, 3) < 60
  }

  /** The minute of the day that a stored clock text names. */
  function Minute(s: string): (m: nat)
    requires IsClock(s)
    ensures m < 1440
  {
    60 * TwoDigitValue(s, 0) + TwoDigitValue(s, 3)
  }

  type ClockText = s: string | IsClock(s) witness "00:00"

  /** A range of the day as the code stores it: two zero-padded clock texts. */
  datatype Range = Range(start: ClockText, end: ClockText)
  type Window = w: Range | Minute(w.start) < Minute(w.end) witness Range("00:00", "00:01")

  /** `(?:(\d{1,2})<letter>)?` at the front of `s`. */
  function TakeUnit(s: string, letter: char): (r: (Option<nat>, string))
    ensures r.0.Some? ==> r.0.value < 100
  {
    if TwoDigits(s, 0) && |s| >= 3 && s[2] == letter then (Some(TwoDigitValue(s, 0)), s[3..])
    else if |s| >= 2 && IsDigit(s[0]) && s[1] == letter then (Some(DigitValue(s[0])), s[2..])
    else (None, s)
  }

  function OrZero(x: Option<nat>): nat {
    if x.Some? then x.value else 0
  }

  function HourText(s: string): Option<nat> {
    if |s| == 1 && IsDigit(s[0]) then Some(DigitValue(s[0]))
    else if |s| == 2 && TwoDigits(s, 0) && TwoDigitValue(s, 0) < 24 then Some(TwoDigitValue(s, 0))
    else None
  }

  predicate SixtyText(s: string) {
    |s| == 2 && TwoDigits(s, 0) && TwoDigitValue(s, 0) < 60
  }

  /** `H:MM`, `HH:MM` or `HH:MM:SS`; the seconds are matched and then dropped. */
  function ColonForm(raw: string): Option<ClockText>
  {
    var parts := Split(raw, ':');
    if (|parts| == 2 || (|parts| == 3 && SixtyText(parts[2]))) && SixtyText(parts[1]) && HourText(parts[0]).Some?
    then Some(Clock(HourText(parts[0]).value, TwoDigitValue(parts[1], 0)))
    else None
  }

  function UnitForm(raw: string): Result<ClockText>
  {
    var (hours, afterHours) := TakeUnit(raw, 'h');
    var (minutes, afterMinutes) := TakeUnit(afterHours, 'm');
    var (seconds, rest) := TakeUnit(afterMinutes, 's');
    if rest != [] || (hours.None? && minutes.None? && seconds.None?) then Err(Unsupported)
    else if OrZero(hours) > 23 || OrZero(minutes) > 59 || OrZero(seconds) > 59 then Err(Unsupported)
    else if OrZero(seconds) != 0 then Err(SecondLevel)
    else Ok(Clock(OrZero(hours), OrZero(minutes)))
  }

  function RouterClock(value: string): Result<ClockText>
  {
    var raw := Lower(Strip(value));
    var colon := ColonForm(raw);
    if colon.Some? then Ok(colon.value) else UnitForm(raw)
  }

  /** Python compares the padded texts; that order is the order of the minutes they name. */
  predicate TextLess(a: string, b: string) {
    if a == [] || b == [] then a == [] && b != []
    else a[0] < b[0] || (a[0] == b[0] && TextLess(a[1..], b[1..]))
  }

  lemma TextLessFrom(a: string, b: string, i: nat)
    requires i < |a| == |b|
    ensures TextLess(a[i..], b[i..]) <==> (a[i] < b[i] || (a[i] == b[i] && TextLess(a[i + 1..], b[i + 1..])))
  {
    assert a[i..][1..] == a[i + 1..] && b[i..][1..] == b[i + 1..];
  }

  lemma TextOrderIsMinuteOrder(a: ClockText, b: ClockText)
    ensures TextLess(a, b) <==> Minute(a) < Minute(b)
    ensures a == b <==> Minute(a) == Minute(b)
  {
    TextLessFrom(a, b, 0);
    TextLessFrom(a, b, 1);
    TextLessFrom(a, b, 2);
    TextLessFrom(a, b, 3);
    TextLessFrom(a, b, 4);
    assert a[0..] == a && b[0..] == b && a[5..] == [] && b[5..] == [];
    if Minute(a) == Minute(b) {
      assert TwoDigitValue(a, 0) == TwoDigitValue(b, 0) && TwoDigitValue(a, 3) == TwoDigitValue(b, 3);
      assert a == [a[0], a[1], a[2], a[3], a[4]] == b;
    }
  }

  lemma LowerKeeps(s: string)
    requires forall c | c in s :: !('A' <= c <= 'Z')
    ensures Lower(s) == s
  {
    forall i | 0 <= i < |s| ensures Lower(s)[i] == s[i] {
      assert s[i] in s;
    }
  }

  lemma SplitOnce(a: string, rest: string, sep: char)
    requires sep !in a
    ensures Split(a + [sep] + rest, sep) == [a] + Split(rest, sep)
  {
    var s := a + [sep] + rest;
    IndexOfJoined(a, rest, sep);
    assert s[..|a|] == a && s[|a| + 1..] == rest;
  }

  lemma SplitNone(a: string, sep: char)
    requires sep !in a
    ensures Split(a, sep) == [a]
  {
  }

  /** A stored clock text reads back as itself. */
  lemma ClockIsCanonical(s: string)
    requires IsClock(s)
    ensures RouterClock(s) == Ok(s)
  {
    TightIsStripped(s);
    LowerKeeps(s);
    var h, m := s[..2], s[3..];
    assert s == h + [':'] + m;
    SplitPair(h, m, ':');
    var again := Clock(TwoDigitValue(s, 0), TwoDigitValue(s, 3));
    assert TwoDigitValue(h, 0) == TwoDigitValue(s, 0) && TwoDigitValue(m, 0) == TwoDigitValue(s, 3);
    TextOrderIsMinuteOrder(s, again);
  }

  /** Spaces around a text make no difference, whether it is read or refused. */
  lemma SpacesAreIgnored(before: string, value: string, after: string)
    requires AllSpace(before) && AllSpace(after)
    ensures RouterClock(before + value + after) == RouterClock(value)
  {
    StripIgnores(before, value, after);
  }

  predicate RawChar(c: char) {
    IsDigit(c) || c == ':' || c == 'h' || c == 'm' || c == 's'
  }

  lemma RawIsKept(s: string)
    requires s != [] && forall c | c in s :: RawChar(c)
    ensures Lower(Strip(s)) == s
  {
    assert s[0] in s && s[|s| - 1] in s;
    TightIsStripped(s);
    LowerKeeps(s);
  }

  lemma PadReads(n: nat, rest: string)
    requires n < 100
    ensures TwoDigits(Pad(n) + rest, 0) && TwoDigitValue(Pad(n) + rest, 0) == n
    ensures (Pad(n) + rest)[2..] == rest && TwoDigits(Pad(n), 0) && TwoDigitValue(Pad(n), 0) == n
    ensures ':' !in Pad(n) && forall c | c in Pad(n) :: RawChar(c)
  {
  }

  /** The colon form forgets its seconds. */
  lemma ColonSecondsAreDropped(hour: nat, minute: nat, second: nat)
    requires hour < 24 && minute < 60 && second < 60
    ensures RouterClock(Pad(hour) + ":" + Pad(minute) + ":" + Pad(second)) == Ok(Clock(hour, minute))
  {
    PadReads(hour, "");
    PadReads(minute, "");
    PadReads(second, "");
    var s := Pad(hour) + ":" + Pad(minute) + ":" + Pad(second);
    RawIsKept(s);
    var tail := Pad(minute) + [':'] + Pad(second);
    assert s == Pad(hour) + [':'] + tail;
    SplitOnce(Pad(hour), tail, ':');
    SplitPair(Pad(minute), Pad(second), ':');
    ColonPartsRead(s, Pad(hour), Pad(minute), Pad(second));
  }

  lemma ColonPartsRead(raw: string, h: string, m: string, s: string)
    requires Split(raw, ':') == [h, m, s] && SixtyText(s) && SixtyText(m)
    requires |h| == 2 && TwoDigits(h, 0) && TwoDigitValue(h, 0) < 24
    ensures ColonForm(raw) == Some(Clock(TwoDigitValue(h, 0), TwoDigitValue(m, 0)))
  {
  }

  lemma UnitReads(n: nat, letter: char, rest: string)
    requires n < 100
    ensures TakeUnit(Pad(n) + [letter] + rest, letter) == (Some(n), rest)
  {
    PadReads(n, [letter] + rest);
    assert Pad(n) + [letter] + rest == Pad(n) + ([letter] + rest);
    assert (Pad(n) + [letter] + rest)[3..] == rest;
  }

  /** The unit form refuses what the colon form forgets. */
  lemma UnitSecondsAreRefused(hour: nat, minute: nat, second: nat)
    requires hour < 24 && minute < 60 && second < 60
    ensures RouterClock(Pad(hour) + "h" + Pad(minute) + "m" + Pad(second) + "s")
         == if second == 0 then Ok(Clock(hour, minute)) else Err(SecondLevel)
  {
    var s := Pad(hour) + "h" + Pad(minute) + "m" + Pad(second) + "s";
    PadReads(hour, "");
    PadReads(minute, "");
    PadReads(second, "");
    RawIsKept(s);
    assert ':' !in s;
    SplitNone(s, ':');
    var last := Pad(second) + ['s'] + "";
    var later := Pad(minute) + ['m'] + last;
    assert s == Pad(hour) + ['h'] + later;
    UnitReads(hour, 'h', later);
    UnitReads(minute, 'm', last);
    UnitReads(second, 's', "");
  }

  // ---------- windows of a day ----------

  function Commas(s: string): (r: string)
    ensures |r| == |s|
  {
    seq(|s|, i requires 0 <= i < |s| => if s[i] == ';' then ',' else s[i])
  }

  function ReadRange(start: Result<ClockText>, end: Result<ClockText>): (r: Result<Window>)
    ensures r.Ok? ==> start == Ok(r.value.start) && end == Ok(r.value.end)
  {
    if start.Err? then Err(start.error)
    else if end.Err? then Err(end.error)
    else
      TextOrderIsMinuteOrder(end.value, start.value);
      if start.value == end.value then Err(Identical)
      else if TextLess(end.value, start.value) then Err(Overnight)
      else Ok(Range(start.value, end.value))
  }

  function ParseRange(part: string): Result<Window>
  {
    var dash := IndexOf(part, '-');
    if dash == |part| then Err(NoRange)
    else ReadRange(RouterClock(Strip(part[..dash])), RouterClock(Strip(part[dash + 1..])))
  }

  function ParseParts(parts: seq<string>): Result<seq<Window>>
  {
    if parts == [] then Ok([]) else
    var before, last := ParseParts(parts[..|parts| - 1]), Strip(parts[|parts| - 1]);
    if before.Err? || last == [] then before
    else match ParseRange(last)
         case Err(e) => Err(e)
         case Ok(w) => Ok(before.value + [w])
  }

  function ParseDay(raw: string): Result<seq<Window>>
  {
    var text := Strip(raw);
    if text == [] then Ok([]) else ParseParts(Split(Commas(text), ','))
  }

  lemma {:induction false} FirstErrorWins(parts: seq<string>, n: nat)
    requires n <= |parts| && ParseParts(parts[..n]).Err?
    ensures ParseParts(parts) == ParseParts(parts[..n])
    decreases |parts|
  {
    if n == |parts| {
      assert parts[..n] == parts;
    } else {
      assert parts[..|parts| - 1][..n] == parts[..n];
      FirstErrorWins(parts[..|parts| - 1], n);
    }
  }

  /** The windows of one day; the first part that cannot be read refuses the whole day. */
  method DayWindows(raw: string) returns (ranges: Result<seq<Window>>)
    ensures ranges == ParseDay(raw)
  {
    var text := Strip(raw);
    if text == [] {
      return Ok([]);
    }
    var parts := Split(Commas(text), ',');
    var found: seq<Window> := [];
    for k := 0 to |parts|
      invariant ParseParts(parts[..k]) == Ok(found)
    {
      assert parts[..k + 1][..k] == parts[..k];
      var part := Strip(parts[k]);
      if part != [] {
        var read := ParseRange(part);
        if read.Err? {
          FirstErrorWins(parts, k + 1);
          return Err(read.error);
        }
        found := found + [read.value];
      }
    }
    assert parts[..|parts|] == parts;
    ranges := Ok(found);
  }

  /** How RouterOS writes a day: comma-separated ranges. */
  ghost function Printed(windows: seq<Window>): string {
    if windows == [] then "" else
    var range := windows[0].start + "-" + windows[0].end;
    if |windows| == 1 then range else range + "," + Printed(windows[1..])
  }

  lemma RangeReadsBack(w: Window)
    ensures Strip(w.start + "-" + w.end) == w.start + "-" + w.end
    ensures ParseRange(w.start + "-" + w.end) == Ok(w)
  {
    var s := w.start + ['-'] + w.end;
    TightIsStripped(s);
    IndexOfJoined(w.start, w.end, '-');
    assert s[..5] == w.start && s[6..] == w.end;
    TightIsStripped(w.start);
    TightIsStripped(w.end);
    ClockIsCanonical(w.start);
    ClockIsCanonical(w.end);
    TextOrderIsMinuteOrder(w.end, w.start);
  }

  lemma RangeChars(w: Window)
    ensures var range := w.start + "-" + w.end; ',' !in range && ';' !in range && PlainText(range)
  {
    var a, b := w.start, w.end;
    assert a == [a[0], a[1], a[2], a[3], a[4]] && b == [b[0], b[1], b[2], b[3], b[4]];
  }

  ghost predicate PlainText(s: string) {
    s != [] && !IsSpace(s[0]) && !IsSpace(s[|s| - 1]) && ';' !in s
  }

  lemma {:induction false} PrintedIsPlain(windows: seq<Window>)
    requires windows != []
    ensures PlainText(Printed(windows))
  {
    RangeChars(windows[0]);
    var range := windows[0].start + "-" + windows[0].end;
    if |windows| > 1 {
      PrintedIsPlain(windows[1..]);
    }
  }

  ghost function Ranges(windows: seq<Window>): (r: seq<string>)
    ensures |r| == |windows|
  {
    seq(|windows|, i requires 0 <= i < |windows| => windows[i].start + "-" + windows[i].end)
  }

  lemma {:induction false} PrintedSplits(windows: seq<Window>)
    requires windows != []
    ensures Split(Printed(windows), ',') == Ranges(windows)
  {
    RangeChars(windows[0]);
    var range := windows[0].start + "-" + windows[0].end;
    if |windows| == 1 {
      SplitNone(range, ',');
    } else {
      PrintedSplits(windows[1..]);
      assert Printed(windows) == range + [','] + Printed(windows[1..]);
      SplitOnce(range, Printed(windows[1..]), ',');
      RangesCons(windows);
    }
  }

  lemma RangesCons(windows: seq<Window>)
    requires windows != []
    ensures Ranges(windows) == [windows[0].start + "-" + windows[0].end] + Ranges(windows[1..])
  {
  }

  lemma {:induction false} RangesReadBack(windows: seq<Window>)
    ensures ParseParts(Ranges(windows)) == Ok(windows)
  {
    if windows != [] {
      var n := |windows| - 1;
      RangesReadBack(windows[..n]);
      RangeReadsBack(windows[n]);
      var ranges := Ranges(windows);
      assert ranges[..n] == Ranges(windows[..n]) && ranges[n] == windows[n].start + "-" + windows[n].end;
      assert windows == windows[..n] + [windows[n]];
      assert Strip(ranges[n]) == ranges[n] != [];
    }
  }

  /** Every list of windows, overlapping or not, survives being printed and parsed. */
  lemma WindowsReadBack(windows: seq<Window>)
    ensures ParseDay(Printed(windows)) == Ok(windows)
  {
    if windows != [] {
      PrintedIsPlain(windows);
      var text := Printed(windows);
      TightIsStripped(text);
      assert Commas(text) == text;
      PrintedSplits(windows);
      RangesReadBack(windows);
    }
  }
}
