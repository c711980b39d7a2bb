/** _translate_profile of app/kid_control_migration.py, and the resolver of app/policy_store.py that reads its output.
    Instants are local minutes; day 0 of the week is Monday. */
module KidControlSchedule {
  import opened KidControlClock

  datatype Mode = Normal | Blocked
  datatype Slot = Slot(time: ClockText, mode: Mode)
  datatype Event = Event(slot: Slot, days: seq<nat>)

  type Week = w: seq<seq<Window>> | |w| == 7 witness [[], [], [], [], [], [], []]

  /** A day that cannot be read contributes no windows. */
  function WindowsOf(raw: string): seq<Window>
  {
    match ParseDay(raw) case Ok(windows) => windows case Err(_) => []
  }

  function WeekOf(raw: seq<string>): Week
    requires |raw| == 7
  {
    seq(7, d requires 0 <= d < 7 => WindowsOf(raw[d]))
  }

  // ---------- what the windows ask for, and what a list of events means ----------

  function AskedOn(windows: seq<Window>, day: nat): set<(nat, Slot)> {
    (set w | w in windows :: (day, Slot(w.start, Normal))) + (set w | w in windows :: (day, Slot(w.end, Blocked)))
  }

  function Asked(week: seq<seq<Window>>): set<(nat, Slot)> {
    if week == [] then {} else Asked(week[..|week| - 1]) + AskedOn(week[|week| - 1], |week| - 1)
  }

  function MeantBy(event: Event): set<(nat, Slot)> {
    set day | day in event.days :: (day, event.slot)
  }

  function Meant(events: seq<Event>): set<(nat, Slot)> {
    if events == [] then {} else MeantBy(events[0]) + Meant(events[1..])
  }

  // ---------- the compiler ----------

  /** `schedule_slots.setdefault(slot, []).append(day)` on an insertion-ordered dict. */
  function AddDay(events: seq<Event>, slot: Slot, day: nat): seq<Event> {
    if events == [] then [Event(slot, [day])]
    else if events[0].slot == slot then [Event(slot, events[0].days + [day])] + events[1..]
    else [events[0]] + AddDay(events[1..], slot, day)
  }

  function SlotsOf(events: seq<Event>): set<Slot> {
    set e | e in events :: e.slot
  }

  predicate Distinct(events: seq<Event>) {
    forall i, j | 0 <= i < j < |events| :: events[i].slot != events[j].slot
  }

  lemma {:induction false} AddDayAdds(events: seq<Event>, slot: Slot, day: nat)
    ensures Meant(AddDay(events, slot, day)) == Meant(events) + {(day, slot)}
  {
    if events != [] {
      var first, rest := events[0], events[1..];
      if first.slot == slot {
        assert ([Event(slot, first.days + [day])] + rest)[1..] == rest;
        assert MeantBy(Event(slot, first.days + [day])) == MeantBy(first) + {(day, slot)};
      } else {
        AddDayAdds(rest, slot, day);
        assert ([first] + AddDay(rest, slot, day))[1..] == AddDay(rest, slot, day);
      }
    }
  }

  lemma SlotsSplit(first: Event, rest: seq<Event>)
    ensures SlotsOf([first] + rest) == {first.slot} + SlotsOf(rest)
  {
    var whole := [first] + rest;
    forall slot | slot in {first.slot} + SlotsOf(rest) ensures slot in SlotsOf(whole) {
      if slot == first.slot {
        assert first in whole;
      } else {
        var e :| e in rest && e.slot == slot;
        assert e in whole;
      }
    }
  }

  lemma DistinctSplit(first: Event, rest: seq<Event>)
    ensures Distinct([first] + rest) <==> Distinct(rest) && first.slot !in SlotsOf(rest)
  {
    var whole := [first] + rest;
    assert forall i | 0 <= i < |rest| :: rest[i] == whole[i + 1];
    assert whole[0] == first;
    if Distinct(rest) && first.slot !in SlotsOf(rest) {
      forall i | 0 <= i < |rest| ensures rest[i].slot != first.slot {
        assert rest[i] in rest;
      }
    }
    if Distinct(whole) {
      forall e | e in rest ensures e.slot != first.slot {
        var i :| 0 <= i < |rest| && rest[i] == e;
      }
    }
  }

  lemma {:induction false} AddDaySlots(events: seq<Event>, slot: Slot, day: nat)
    requires Distinct(events)
    ensures Distinct(AddDay(events, slot, day)) && SlotsOf(AddDay(events, slot, day)) == SlotsOf(events) + {slot}
  {
    if events != [] {
      var first, rest := events[0], events[1..];
      assert events == [first] + rest;
      DistinctSplit(first, rest);
      SlotsSplit(first, rest);
      if first.slot == slot {
        SlotsSplit(Event(slot, first.days + [day]), rest);
        DistinctSplit(Event(slot, first.days + [day]), rest);
      } else {
        AddDaySlots(rest, slot, day);
        SlotsSplit(first, AddDay(rest, slot, day));
        DistinctSplit(first, AddDay(rest, slot, day));
      }
    }
  }

  /** `[day for day in DAYS if day in days]`. */
  function InOrder(days: seq<nat>, n: nat): (r: seq<nat>)
    ensures forall d :: d in r <==> d in days && d < n
    ensures forall i, j | 0 <= i < j < |r| :: r[i] < r[j]
  {
    if n == 0 then [] else
    var before := InOrder(days, n - 1);
    assert forall i | 0 <= i < |before| :: before[i] in before;
    before + if n - 1 in days then [n - 1] else []
  }

  function Rank(slot: Slot): nat {
    2 * Minute(slot.time) + if slot.mode == Normal then 0 else 1
  }

  /** The sort key `(time, mode != "normal")`, compared as Python compares it. */
  predicate Before(a: Slot, b: Slot) {
    TextLess(a.time, b.time) || (a.time == b.time && a.mode == Normal && b.mode == Blocked)
  }

  lemma BeforeIsRank(a: Slot, b: Slot)
    ensures Before(a, b) <==> Rank(a) < Rank(b)
    ensures a == b <==> Rank(a) == Rank(b)
  {
    TextOrderIsMinuteOrder(a.time, b.time);
  }

  predicate Ascending(events: seq<Event>) {
    forall i, j | 0 <= i < j < |events| :: Before(events[i].slot, events[j].slot)
  }

  function Place(events: seq<Event>, e: Event): seq<Event> {
    if events == [] || Before(e.slot, events[0].slot) then [e] + events else [events[0]] + Place(events[1..], e)
  }

  function SortSlots(events: seq<Event>): seq<Event> {
    if events == [] then [] else Place(SortSlots(events[1..]), Event(events[0].slot, InOrder(events[0].days, 7)))
  }

  lemma {:induction false} PlaceKeeps(events: seq<Event>, e: Event)
    ensures Meant(Place(events, e)) == Meant(events) + MeantBy(e)
    ensures forall x :: x in Place(events, e) <==> x in events || x == e
  {
    if events != [] {
      var first, rest := events[0], events[1..];
      assert events == [first] + rest;
      if Before(e.slot, first.slot) {
        assert ([e] + events)[1..] == events;
      } else {
        PlaceKeeps(rest, e);
        assert ([first] + Place(rest, e))[1..] == Place(rest, e);
      }
    }
  }

  lemma BeforeAll(e: Event, first: Event, rest: seq<Event>)
    requires Before(e.slot, first.slot) && Ascending([first] + rest)
    ensures Ascending([e, first] + rest)
  {
    var events := [first] + rest;
    forall i | 0 <= i < |events| ensures Before(e.slot, events[i].slot) {
      assert i > 0 ==> Before(events[0].slot, events[i].slot);
      BeforeIsRank(e.slot, first.slot);
      BeforeIsRank(first.slot, events[i].slot);
      BeforeIsRank(e.slot, events[i].slot);
    }
    assert [e, first] + rest == [e] + events;
  }

  lemma FirstThenAscending(first: Event, rest: seq<Event>, e: Event)
    requires Ascending([first] + rest) && Before(first.slot, e.slot) && Ascending(Place(rest, e))
    ensures Ascending([first] + Place(rest, e))
  {
    var more := Place(rest, e);
    forall x | x in rest ensures Before(first.slot, x.slot) {
      var j :| 0 <= j < |rest| && rest[j] == x;
      assert Before(([first] + rest)[0].slot, ([first] + rest)[j + 1].slot);
    }
    forall i | 0 <= i < |more| ensures Before(first.slot, more[i].slot) {
      PlaceKeeps(rest, e);
      assert more[i] in more;
    }
  }

  lemma AscendingTail(first: Event, rest: seq<Event>)
    requires Ascending([first] + rest)
    ensures Ascending(rest)
  {
    assert forall i | 0 <= i < |rest| :: ([first] + rest)[i + 1] == rest[i];
  }

  lemma {:induction false} PlaceSorts(events: seq<Event>, e: Event)
    requires Ascending(events) && e.slot !in SlotsOf(events)
    ensures Ascending(Place(events, e))
  {
    if events != [] {
      var first, rest := events[0], events[1..];
      assert events == [first] + rest;
      if Before(e.slot, first.slot) {
        BeforeAll(e, first, rest);
        assert [e, first] + rest == [e] + events;
      } else {
        SlotsSplit(first, rest);
        BeforeIsRank(e.slot, first.slot);
        BeforeIsRank(first.slot, e.slot);
        AscendingTail(first, rest);
        PlaceSorts(rest, e);
        FirstThenAscending(first, rest, e);
      }
    }
  }

  lemma {:induction false} SortKeepsMeaning(events: seq<Event>)
    requires forall p | p in Meant(events) :: p.0 < 7
    ensures Meant(SortSlots(events)) == Meant(events)
  {
    if events != [] {
      var first, rest := events[0], events[1..];
      SortKeepsMeaning(rest);
      var tidy := Event(first.slot, InOrder(first.days, 7));
      forall day | day in first.days ensures day < 7 {
        assert (day, first.slot) in MeantBy(first);
      }
      assert MeantBy(tidy) == MeantBy(first);
      PlaceKeeps(SortSlots(rest), tidy);
    }
  }

  lemma PlaceSlots(events: seq<Event>, e: Event)
    ensures SlotsOf(Place(events, e)) == SlotsOf(events) + {e.slot}
  {
    PlaceKeeps(events, e);
    assert forall x | x in events :: x in Place(events, e);
    assert e in Place(events, e);
  }

  lemma {:induction false} SortAscends(events: seq<Event>)
    requires Distinct(events)
    ensures Ascending(SortSlots(events)) && SlotsOf(SortSlots(events)) == SlotsOf(events)
  {
    if events != [] {
      var first, rest := events[0], events[1..];
      assert events == [first] + rest;
      DistinctSplit(first, rest);
      SlotsSplit(first, rest);
      SortAscends(rest);
      var tidy := Event(first.slot, InOrder(first.days, 7));
      PlaceSlots(SortSlots(rest), tidy);
      PlaceSorts(SortSlots(rest), tidy);
    }
  }

  predicate DaysInOrder(e: Event) {
    forall i, j | 0 <= i < j < |e.days| :: e.days[i] < e.days[j]
  }

  lemma {:induction false} SortOrdersDays(events: seq<Event>)
    ensures forall e | e in SortSlots(events) :: DaysInOrder(e)
  {
    if events != [] {
      SortOrdersDays(events[1..]);
      PlaceKeeps(SortSlots(events[1..]), Event(events[0].slot, InOrder(events[0].days, 7)));
    }
  }

  /** A schedule means exactly what the windows ask for: one event per (time, mode), in clock order, days in week
      order. */
  ghost predicate Compiled(week: Week, schedule: seq<Event>) {
    Meant(schedule) == Asked(week) && Ascending(schedule) && forall e | e in schedule :: DaysInOrder(e)
  }

  lemma {:induction false} AskedHas(week: seq<seq<Window>>, day: nat, slot: Slot)
    ensures (day, slot) in Asked(week) <==> day < |week| && (day, slot) in AskedOn(week[day], day)
  {
    if week != [] {
      AskedHas(week[..|week| - 1], day, slot);
    }
  }

  /** The days whose text could not be read, in week order. */
  function Unreadable(raw: seq<string>): seq<(nat, ClockError)> {
    if raw == [] then [] else
    Reported(Unreadable(raw[..|raw| - 1]), |raw| - 1, ParseDay(raw[|raw| - 1]))
  }

  function Reported<T>(before: seq<(nat, ClockError)>, day: nat, read: Result<T>): seq<(nat, ClockError)> {
    before + if read.Err? then [(day, read.error)] else []
  }

  lemma ReportedHas<T>(before: seq<(nat, ClockError)>, day: nat, read: Result<T>, d: nat, e: ClockError)
    ensures (d, e) in Reported(before, day, read) <==> (d, e) in before || (d == day && read == Err(e))
  {
  }

  lemma {:induction false} UnreadableHas(raw: seq<string>, d: nat, e: ClockError)
    ensures (d, e) in Unreadable(raw) <==> d < |raw| && ParseDay(raw[d]) == Err(e)
  {
    if raw != [] {
      var n := |raw| - 1;
      UnreadableHas(raw[..n], d, e);
      ReportedHas(Unreadable(raw[..n]), n, ParseDay(raw[n]), d, e);
    }
  }

  lemma NextDay(raw: seq<string>, week: seq<seq<Window>>, day: nat)
    requires day < |raw| == |week|
    ensures Asked(week[..day + 1]) == Asked(week[..day]) + AskedOn(week[day], day)
    ensures Unreadable(raw[..day + 1]) == Reported(Unreadable(raw[..day]), day, ParseDay(raw[day]))
  {
    assert week[..day + 1][..day] == week[..day] && raw[..day + 1][..day] == raw[..day];
  }

  /** Translates one profile; `review` lists the days left for manual review. */
  method TranslateProfile(raw: seq<string>) returns (schedule: seq<Event>, review: seq<(nat, ClockError)>)
    requires |raw| == 7
    ensures Compiled(WeekOf(raw), schedule)
    ensures review == Unreadable(raw)
    ensures forall d: nat, e :: (d, e) in review <==> d < 7 && ParseDay(raw[d]) == Err(e)
  {
    var slots: seq<Event> := [];
    review := [];
    ghost var week := WeekOf(raw);
    for day := 0 to 7
      invariant Meant(slots) == Asked(week[..day]) && Distinct(slots)
      invariant review == Unreadable(raw[..day])
    {
      NextDay(raw, week, day);
      var read := DayWindows(raw[day]);
      if read.Err? {
        review := review + [(day, read.error)];
      }
      slots := FillDay(slots, if read.Ok? then read.value else [], day);
    }
    assert week[..7] == week && raw[..7] == raw;
    SortCompiles(week, slots);
    schedule := SortSlots(slots);
    ReviewIsExact(raw);
  }

  lemma ReviewIsExact(raw: seq<string>)
    ensures forall d: nat, e :: (d, e) in Unreadable(raw) <==> d < |raw| && ParseDay(raw[d]) == Err(e)
  {
    forall d: nat, e ensures (d, e) in Unreadable(raw) <==> d < |raw| && ParseDay(raw[d]) == Err(e) {
      UnreadableHas(raw, d, e);
    }
  }

  lemma SortCompiles(week: Week, slots: seq<Event>)
    requires Meant(slots) == Asked(week) && Distinct(slots)
    ensures Compiled(week, SortSlots(slots))
  {
    forall p | p in Asked(week) ensures p.0 < 7 {
      AskedHas(week, p.0, p.1);
    }
    SortKeepsMeaning(slots);
    SortAscends(slots);
    SortOrdersDays(slots);
  }

  method FillDay(found: seq<Event>, windows: seq<Window>, day: nat) returns (slots: seq<Event>)
    requires Distinct(found)
    ensures Meant(slots) == Meant(found) + AskedOn(windows, day) && Distinct(slots)
  {
    slots := found;
    for k := 0 to |windows|
      invariant Meant(slots) == Meant(found) + AskedOn(windows[..k], day) && Distinct(slots)
    {
      var w := windows[k];
      assert windows[..k + 1] == windows[..k] + [w];
      AskedOnSnoc(windows[..k], w, day);
      AddDayAdds(slots, Slot(w.start, Normal), day);
      AddDaySlots(slots, Slot(w.start, Normal), day);
      slots := AddDay(slots, Slot(w.start, Normal), day);
      AddDayAdds(slots, Slot(w.end, Blocked), day);
      AddDaySlots(slots, Slot(w.end, Blocked), day);
      slots := AddDay(slots, Slot(w.end, Blocked), day);
    }
    assert windows[..|windows|] == windows;
  }

  lemma AskedOnSnoc(windows: seq<Window>, w: Window, day: nat)
    ensures AskedOn(windows + [w], day)
        == AskedOn(windows, day) + {(day, Slot(w.start, Normal)), (day, Slot(w.end, Blocked))}
  {
  }

  // ---------- the resolver ----------

  datatype Occurrence = Occurrence(at: int, mode: Mode)
  datatype Verdict = Decided(mode: Mode) | Ambiguous

  /** The occurrence of an event `back` days before the day of `t`, if it falls on that weekday and has passed. */
  function DayBack(event: Event, t: int, back: nat): seq<Occurrence> {
    var day := t / 1440 - back;
    var at := day * 1440 + Minute(event.slot.time);
    if day % 7 in event.days && at <= t then [Occurrence(at, event.slot.mode)] else []
  }

  /** The occurrences of one event at or before `t`, going back fewer than `n` days. */
  function DaysBack(event: Event, t: int, n: nat): seq<Occurrence> {
    if n == 0 then [] else DaysBack(event, t, n - 1) + DayBack(event, t, n - 1)
  }

  function Past(events: seq<Event>, t: int): seq<Occurrence>
  {
    if events == [] then [] else DaysBack(events[0], t, 8) + Past(events[1..], t)
  }

  function Newest(past: seq<Occurrence>): (at: int)
    requires past != []
    ensures exists o | o in past :: o.at == at
    ensures forall o | o in past :: o.at <= at
  {
    if |past| == 1 then past[0].at else
    var rest := Newest(past[1..]);
    assert past == [past[0]] + past[1..];
    if past[0].at > rest then past[0].at else rest
  }

  /** The latest occurrence decides; two modes at one instant are refused; no occurrence leaves the default. */
  function Resolve(events: seq<Event>, t: int): Verdict
  {
    var past := Past(events, t);
    if past == [] then Decided(Blocked) else
    var at := Newest(past);
    if Occurrence(at, Normal) in past then
      if Occurrence(at, Blocked) in past then Ambiguous else Decided(Normal)
    else Decided(Blocked)
  }

  function ClockOf(minute: nat): ClockText
    requires minute < 1440
  {
    Clock(minute / 60, minute % 60)
  }

  function SlotAt(o: Occurrence): (nat, Slot) {
    (o.at / 1440 % 7, Slot(ClockOf(o.at % 1440), o.mode))
  }

  predicate Recent(o: Occurrence, t: int, n: nat) {
    o.at <= t && t / 1440 - n < o.at / 1440
  }

  lemma MinuteOfDay(at: int, day: int, minute: nat)
    requires minute < 1440
    ensures at == day * 1440 + minute <==> at / 1440 == day && at % 1440 == minute
  {
  }

  lemma ClockOfMinute(time: ClockText, minute: nat)
    requires minute < 1440
    ensures time == ClockOf(minute) <==> Minute(time) == minute
  {
    TextOrderIsMinuteOrder(time, ClockOf(minute));
  }

  lemma DayBackHas(event: Event, t: int, back: nat, o: Occurrence)
    ensures o in DayBack(event, t, back)
       <==> o.at <= t && o.at / 1440 == t / 1440 - back && SlotAt(o) in MeantBy(event)
  {
    var day, minute := t / 1440 - back, Minute(event.slot.time);
    MinuteOfDay(o.at, day, minute);
    ClockOfMinute(event.slot.time, o.at % 1440);
  }

  lemma {:induction false} DaysBackHas(event: Event, t: int, n: nat, o: Occurrence)
    ensures o in DaysBack(event, t, n) <==> Recent(o, t, n) && SlotAt(o) in MeantBy(event)
  {
    if n > 0 {
      DaysBackHas(event, t, n - 1, o);
      DayBackHas(event, t, n - 1, o);
    }
    RecentDays(o, t, n);
  }

  lemma RecentDays(o: Occurrence, t: int, n: nat)
    ensures !Recent(o, t, 0)
    ensures n > 0 ==> (Recent(o, t, n) <==> Recent(o, t, n - 1) || (o.at <= t && o.at / 1440 == t / 1440 - (n - 1)))
  {
    assert o.at <= t ==> o.at / 1440 <= t / 1440;
  }

  lemma {:induction false} PastHas(events: seq<Event>, t: int, o: Occurrence)
    ensures o in Past(events, t) <==> Recent(o, t, 8) && SlotAt(o) in Meant(events)
  {
    if events != [] {
      DaysBackHas(events[0], t, 8, o);
      PastHas(events[1..], t, o);
    }
  }

  // ---------- the meaning is preserved ----------

  /** Legacy semantics: the minute lies in a window of its own day. */
  predicate AllowedAt(week: Week, day: int, minute: nat) {
    exists w | w in week[day % 7] :: Minute(w.start) <= minute < Minute(w.end)
  }

  predicate Allowed(week: Week, t: int) {
    AllowedAt(week, t / 1440, t % 1440)
  }

  predicate Clash(ends: Window, inside: Window)
  {
    Minute(inside.start) <= Minute(ends.end) < Minute(inside.end)
  }

  /** On no day does one window end inside another, or exactly where another starts. */
  predicate EndsOutside(week: Week)
  {
    forall d | 0 <= d < 7 :: forall v, w | v in week[d] && w in week[d] :: !Clash(v, w)
  }

  function EdgeOf(w: Window, mode: Mode): nat {
    Minute(if mode == Normal then w.start else w.end)
  }

  /** Some window of that weekday opens (Normal) or closes (Blocked) at that minute. */
  predicate Edge(week: Week, day: int, minute: nat, mode: Mode) {
    exists w | w in week[day % 7] :: EdgeOf(w, mode) == minute
  }

  lemma AskedIsEdge(week: Week, day: int, minute: nat, mode: Mode)
    requires minute < 1440
    ensures (day % 7, Slot(ClockOf(minute), mode)) in Asked(week) <==> Edge(week, day, minute, mode)
  {
    var slot := Slot(ClockOf(minute), mode);
    AskedHas(week, day % 7, slot);
    forall w | w in week[day % 7]
      ensures EdgeOf(w, mode) == minute <==> slot.time == if mode == Normal then w.start else w.end
    {
      ClockOfMinute(if mode == Normal then w.start else w.end, minute);
    }
  }

  function Instant(day: int, minute: nat): int {
    day * 1440 + minute
  }

  /** What the resolver hears at a given minute of `today`: the edges of the last eight days that have passed. */
  lemma HeardIffEdge(week: Week, schedule: seq<Event>, today: int, now: nat, day: int, minute: nat, mode: Mode)
    requires Compiled(week, schedule) && minute < 1440 && now < 1440
    ensures Occurrence(Instant(day, minute), mode) in Past(schedule, Instant(today, now))
       <==> ((day < today || (day == today && minute <= now)) && today - 8 < day && Edge(week, day, minute, mode))
  {
    var o := Occurrence(Instant(day, minute), mode);
    MinuteOfDay(o.at, day, minute);
    MinuteOfDay(Instant(today, now), today, now);
    PastHas(schedule, Instant(today, now), o);
    AskedIsEdge(week, day, minute, mode);
  }

  /** The resolver's answer in terms of the newest edge. */
  ghost predicate NewestIs(schedule: seq<Event>, t: int, day: int, minute: nat) {
    && (forall o | o in Past(schedule, t) :: o.at <= Instant(day, minute))
    && (exists mode :: Occurrence(Instant(day, minute), mode) in Past(schedule, t))
  }

  lemma NewestEdge(schedule: seq<Event>, t: int) returns (day: int, minute: nat)
    requires Past(schedule, t) != []
    ensures minute < 1440 && NewestIs(schedule, t, day, minute)
    ensures Resolve(schedule, t)
         == if Occurrence(Instant(day, minute), Normal) !in Past(schedule, t) then Decided(Blocked)
            else if Occurrence(Instant(day, minute), Blocked) in Past(schedule, t) then Ambiguous
            else Decided(Normal)
  {
    var newest := Newest(Past(schedule, t));
    day, minute := newest / 1440, newest % 1440;
    var o :| o in Past(schedule, t) && o.at == newest;
    assert Occurrence(Instant(day, minute), o.mode) in Past(schedule, t);
  }

  /** Once an edge of today has passed, the newest edge is one of today's and decides alone. */
  lemma NewestToday(week: Week, schedule: seq<Event>, today: int, now: nat, from: nat, mode: Mode) returns (minute: nat)
    requires Compiled(week, schedule) && from <= now < 1440 && Edge(week, today, from, mode)
    ensures from <= minute <= now && (Edge(week, today, minute, Normal) || Edge(week, today, minute, Blocked))
    ensures Resolve(schedule, Instant(today, now))
         == if !Edge(week, today, minute, Normal) then Decided(Blocked)
            else if Edge(week, today, minute, Blocked) then Ambiguous
            else Decided(Normal)
  {
    var t := Instant(today, now);
    HeardIffEdge(week, schedule, today, now, today, from, mode);
    var day: int;
    day, minute := NewestEdge(schedule, t);
    assert Occurrence(Instant(today, from), mode).at <= Instant(day, minute);
    HeardIffEdge(week, schedule, today, now, day, minute, Normal);
    HeardIffEdge(week, schedule, today, now, day, minute, Blocked);
    var other :| Occurrence(Instant(day, minute), other) in Past(schedule, t);
    assert other == Normal || other == Blocked;
    assert day <= today;
    assert day == today;
  }

  lemma OpenIsNormal(week: Week, schedule: seq<Event>, today: int, now: nat)
    requires Compiled(week, schedule) && EndsOutside(week) && now < 1440 && AllowedAt(week, today, now)
    ensures Resolve(schedule, Instant(today, now)) == Decided(Normal)
  {
    var w :| w in week[today % 7] && Minute(w.start) <= now < Minute(w.end);
    assert EdgeOf(w, Normal) == Minute(w.start);
    var minute := NewestToday(week, schedule, today, now, Minute(w.start), Normal);
    if Edge(week, today, minute, Blocked) {
      var v :| v in week[today % 7] && EdgeOf(v, Blocked) == minute;
      assert Clash(v, w);
    }
  }

  lemma ShutIsBlocked(week: Week, schedule: seq<Event>, today: int, now: nat)
    requires Compiled(week, schedule) && now < 1440 && !AllowedAt(week, today, now)
    ensures Resolve(schedule, Instant(today, now)) == Decided(Blocked)
  {
    if Past(schedule, Instant(today, now)) != [] {
      var day, minute := NewestEdge(schedule, Instant(today, now));
      HeardIffEdge(week, schedule, today, now, day, minute, Normal);
      if Occurrence(Instant(day, minute), Normal) in Past(schedule, Instant(today, now)) {
        var w :| w in week[day % 7] && EdgeOf(w, Normal) == minute;
        assert EdgeOf(w, Blocked) == Minute(w.end);
        HeardIffEdge(week, schedule, today, now, day, Minute(w.end), Blocked);
      }
    }
  }

  /** At the minute of a clash the closing event is heard, so the resolver never answers NORMAL there;
      where two windows touch it refuses to answer at all. */
  lemma ClashIsVisible(week: Week, schedule: seq<Event>, d: nat, v: Window, w: Window)
    requires Compiled(week, schedule) && d < 7 && v in week[d] && w in week[d] && Clash(v, w)
    ensures AllowedAt(week, d, Minute(v.end)) && Resolve(schedule, Instant(d, Minute(v.end))) != Decided(Normal)
    ensures Minute(v.end) == Minute(w.start) ==> Resolve(schedule, Instant(d, Minute(v.end))) == Ambiguous
  {
    var now := Minute(v.end);
    assert EdgeOf(v, Blocked) == now && EdgeOf(w, Normal) == Minute(w.start);
    var minute := NewestToday(week, schedule, d, now, now, Blocked);
  }

  /** The resolver answers NORMAL inside the windows and BLOCKED outside, and is never ambiguous. */
  ghost predicate Agrees(week: Week, schedule: seq<Event>, t: int) {
    Resolve(schedule, t) == Decided(if Allowed(week, t) then Normal else Blocked)
  }

  /** The translation means the same as the legacy windows, at every minute, exactly when no window ends inside
      another. */
  lemma TranslationIsExact(week: Week, schedule: seq<Event>)
    requires Compiled(week, schedule)
    ensures (forall t :: Agrees(week, schedule, t)) <==> EndsOutside(week)
  {
    if EndsOutside(week) {
      forall t ensures Agrees(week, schedule, t) {
        assert t == Instant(t / 1440, t % 1440);
        if Allowed(week, t) {
          OpenIsNormal(week, schedule, t / 1440, t % 1440);
        } else {
          ShutIsBlocked(week, schedule, t / 1440, t % 1440);
        }
      }
    } else {
      var d, v, w :| 0 <= d < 7 && v in week[d] && w in week[d] && Clash(v, w);
      ClashIsVisible(week, schedule, d, v, w);
      MinuteOfDay(Instant(d, Minute(v.end)), d, Minute(v.end));
      assert !Agrees(week, schedule, Instant(d, Minute(v.end)));
    }
  }
}
