/** The planner's days and weekdays are those of the calendar, and so are its picks. */
module Calendar {
  import opened Wrappers
  import opened Digits
  import opened SlotKeys
  import opened Planner

  // ---------------------------------------------------------------- weekdays

  /** The days of a common year before each month. */
  function DaysBefore(month: nat): nat
    requires 1 <= month <= 12
  {
    match month
    case 1 => 0
    case 2 => 31
    case 3 => 59
    case 4 => 90
    case 5 => 120
    case 6 => 151
    case 7 => 181
    case 8 => 212
    case 9 => 243
    case 10 => 273
    case 11 => 304
    case 12 => 334
  }

  /** Leap days up to the end of year `y`: one every four years, but in centuries only
      every fourth. */
  function LeapDays(y: nat): int {
    y / 4 - y / 100 + y / 400
  }

  function DaysToYear(y: nat): int
    requires y >= 1
  {
    365 * (y - 1) + LeapDays(y - 1)
  }

  function DaysToMonth(y: nat, month: nat): nat
    requires 1 <= month <= 12
  {
    DaysBefore(month) + if month > 2 && IsLeap(y) then 1 else 0
  }

  /** The number of days since 1 January of year 1. */
  function DayNumber(d: Date): int
    requires IsDate(d)
  {
    DaysToYear(d.year) + DaysToMonth(d.year, d.month) + d.day - 1
  }

  /** Sakamoto's month terms; January and February count with the year before. */
  function MonthTerm(month: nat): nat
    requires 1 <= month <= 12
  {
    match month
    case 1 => 0
    case 2 => 3
    case 3 => 2
    case 4 => 5
    case 5 => 0
    case 6 => 3
    case 7 => 5
    case 8 => 1
    case 9 => 4
    case 10 => 6
    case 11 => 2
    case 12 => 4
  }

  function WeekSum(d: Date): int
    requires IsDate(d)
  {
    var y := if d.month < 3 then d.year - 1 else d.year;
    y + LeapDays(y) + MonthTerm(d.month) + d.day + 6
  }

  /** The day of the week from year, month and day alone, 0 for Monday. */
  function CalendarWeekday(d: Date): int
    requires IsDate(d)
  {
    WeekSum(d) % 7
  }

  /** 1 January 2024 was a Monday. */
  lemma KnownMonday()
    ensures CalendarWeekday(Date(2024, 1, 1)) == 0
  {
    assert LeapDays(2023) == 505 - 20 + 5;
    assert WeekSum(Date(2024, 1, 1)) == 2520;
  }

  /** 29 February 2000 was a Tuesday. */
  lemma KnownTuesday()
    ensures CalendarWeekday(Date(2000, 2, 29)) == 1
  {
    assert LeapDays(1999) == 499 - 19 + 4;
    assert WeekSum(Date(2000, 2, 29)) == 2521;
  }

  lemma FourthsGrow(y: nat)
    requires y >= 1
    ensures y / 4 == (y - 1) / 4 + if y % 4 == 0 then 1 else 0
  {
  }

  lemma CenturiesGrow(y: nat)
    requires y >= 1
    ensures y / 100 == (y - 1) / 100 + if y % 100 == 0 then 1 else 0
  {
    var q, r := (y - 1) / 100, (y - 1) % 100;
    assert y == 100 * q + r + 1;
  }

  lemma FourthCenturiesGrow(y: nat)
    requires y >= 1
    ensures y / 400 == (y - 1) / 400 + if y % 400 == 0 then 1 else 0
  {
    var q, r := (y - 1) / 400, (y - 1) % 400;
    assert y == 400 * q + r + 1;
  }

  lemma CenturiesAreFourths(y: nat)
    ensures y % 100 == 0 ==> y % 4 == 0
  {
    if y % 100 == 0 {
      var k := y / 100;
      assert y == 4 * (25 * k);
    }
  }

  lemma FourthCenturiesAreCenturies(y: nat)
    ensures y % 400 == 0 ==> y % 100 == 0
  {
    if y % 400 == 0 {
      var k := y / 400;
      assert y == 100 * (4 * k);
    }
  }

  lemma LeapDaysGrow(y: nat)
    requires y >= 1
    ensures LeapDays(y) == LeapDays(y - 1) + if IsLeap(y) then 1 else 0
  {
    FourthsGrow(y);
    CenturiesGrow(y);
    FourthCenturiesGrow(y);
    CenturiesAreFourths(y);
    FourthCenturiesAreCenturies(y);
  }

  lemma NextMonthNumber(d: Date)
    requires IsDate(d) && d.day == DaysIn(d.year, d.month) && d.month < 12
    ensures DayNumber(Date(d.year, d.month + 1, 1)) == DayNumber(d) + 1
  {
  }

  lemma NextYearNumber(y: nat)
    requires y >= 1
    ensures DayNumber(Date(y + 1, 1, 1)) == DayNumber(Date(y, 12, 31)) + 1
  {
    LeapDaysGrow(y);
  }

  lemma NextDayNumber(d: Date)
    requires IsDate(d)
    ensures DayNumber(Next(d)) == DayNumber(d) + 1
  {
    if d.day == DaysIn(d.year, d.month) {
      if d.month < 12 { NextMonthNumber(d); } else { NextYearNumber(d.year); }
    }
  }

  /** Days are numbered as the calendar numbers them. */
  lemma {:induction false} DaysAreTheCalendars(n: nat)
    ensures DayNumber(DateOf(n)) == n
  {
    if n > 0 {
      var d := DateOf(n - 1);
      DaysAreTheCalendars(n - 1);
      NextDayNumber(d);
      assert DateOf(n) == Next(d);
    }
  }

  /** The two formulas differ by whole weeks. */
  lemma WholeWeeks(d: Date) returns (k: int)
    requires IsDate(d)
    ensures WeekSum(d) == DayNumber(d) + 7 * k
  {
    LeapDaysGrow(d.year);
    var weeks := match d.month
      case 1 => 1
      case 2 => -3
      case 3 => -7
      case 4 => -11
      case 5 => -16
      case 6 => -20
      case 7 => -24
      case 8 => -29
      case 9 => -33
      case 10 => -37
      case 11 => -42
      case 12 => -46;
    k := weeks - 52 * (d.year - 1);
  }

  lemma WholeWeeksDoNotCount(sum: int, n: int, k: int)
    requires sum == n + 7 * k
    ensures sum % 7 == n % 7
  {
  }

  lemma WeekdayOfNumber(d: Date)
    requires IsDate(d)
    ensures CalendarWeekday(d) == DayNumber(d) % 7
  {
    var k := WholeWeeks(d);
    WholeWeeksDoNotCount(WeekSum(d), DayNumber(d), k);
  }

  /** The weekday of a day is that of its date. */
  lemma WeekdayIsTheCalendars(n: nat)
    ensures CalendarWeekday(DateOf(n)) == Weekday(n)
  {
    DaysAreTheCalendars(n);
    WeekdayOfNumber(DateOf(n));
  }

  lemma TwoDigits(n: nat)
    requires n < 100
    ensures Pad(n, 2) == [Digit(n / 10), Digit(n % 10)]
  {
    assert Pad(n / 10, 1) == [Digit(n / 10)];
  }

  lemma FourDigits(n: nat)
    requires n < 10000
    ensures Pad(n, 4) == [Digit(n / 1000), Digit(n / 100 % 10), Digit(n / 10 % 10), Digit(n % 10)]
  {
    assert n / 100 / 10 == n / 1000 && n / 100 == n / 10 / 10;
    TwoDigits(n / 100);
    assert Pad(n / 10, 3) == Pad(n / 10 / 10, 2) + [Digit(n / 10 % 10)];
  }

  /** How dates of four-digit years and clock times are spelled in keys. */
  lemma DatesAreSpelled(d: Date)
    requires IsDate(d) && d.year <= 9999
    ensures Iso(d) == [Digit(d.year / 1000), Digit(d.year / 100 % 10), Digit(d.year / 10 % 10), Digit(d.year % 10), '-',
                       Digit(d.month / 10), Digit(d.month % 10), '-', Digit(d.day / 10), Digit(d.day % 10)]
  {
    FourDigits(d.year);
    TwoDigits(d.month);
    TwoDigits(d.day);
  }

  lemma ClocksAreSpelled(hour: nat, minute: nat)
    requires hour < 24 && minute < 60
    ensures Clock(hour, minute)
         == [Digit(hour / 10), Digit(hour % 10), ':', Digit(minute / 10), Digit(minute % 10)]
  {
    TwoDigits(hour);
    TwoDigits(minute);
  }

  // ---------------------------------------------------------------- picks

  /** Minutes since midnight. */
  function MinuteOf(t: nat): nat {
    t % 86400 / 60
  }

  /** The instant is on this date, on a weekday the slot lists, and by the clock between its
      hours. */
  ghost predicate InHours(s: Slot, d: Date, at: nat)
    requires IsDate(d)
  {
    && DayNumber(d) == at / 86400 && CalendarWeekday(d) in s.days
    && s.startHour * 60 + s.startMinute <= MinuteOf(at) < s.endHour * 60 + s.endMinute
  }

  lemma ClockOfInstant(day: nat, at: nat, start: nat, end: nat)
    requires end <= 1440 && day * 86400 + start * 60 <= at < day * 86400 + end * 60
    ensures at / 86400 == day && start <= at % 86400 / 60 < end
  {
    assert at == day * 86400 + (at - day * 86400) && 0 <= at - day * 86400 < 86400;
  }

  lemma InstantInHours(s: Slot, day: nat, at: nat)
    requires ValidClock(s) && Opens(s, day) && WindowStart(s, day) <= at < WindowEnd(s, day)
    ensures InHours(s, DateOf(day), at)
  {
    WeekdayIsTheCalendars(day);
    DaysAreTheCalendars(day);
    ClockOfInstant(day, at, s.startHour * 60 + s.startMinute, s.endHour * 60 + s.endMinute);
  }

  /** No slot's window on a day whose date falls on one of the slot's weekdays, with hours that
      are a clock time and in order, that starts after `now` and before `until` is left
      pending. */
  ghost predicate NoneLeft(slots: seq<Slot>, keys: set<string>, now: nat, until: nat) {
    forall s, day: nat :: s in slots && IsLeft(s, day, now, until) ==> ToKey(s, day) in keys
  }

  ghost predicate IsLeft(s: Slot, day: nat, now: nat, until: nat) {
    var start, end := day * 1440 + s.startHour * 60 + s.startMinute, day * 1440 + s.endHour * 60 + s.endMinute;
    && CalendarWeekday(DateOf(day)) in s.days
    && s.startHour < 24 && s.startMinute < 60 && s.endHour < 24 && s.endMinute < 60
    && start < end && now < start * 60 < until
  }

  lemma NoneSkippedLeavesNone(slots: seq<Slot>, keys: set<string>, now: nat, r: Pick)
    requires r.Picked? && NoneSkipped(slots, Executed(keys), now, r)
    ensures NoneLeft(slots, keys, now, WindowStart(r.slot, r.day))
  {
    forall s, day: nat | s in slots && IsLeft(s, day, now, WindowStart(r.slot, r.day)) ensures ToKey(s, day) in keys {
      WeekdayIsTheCalendars(day);
      assert Window(slots, s, day);
      assert now < WindowStart(s, day) < WindowStart(r.slot, r.day);
      assert Executed(keys)(s, day);
    }
  }

  /** By the calendar and the clock: what a search returns is an instant after now on a
      weekday its slot lists and between its hours, on a day for which the slot's key is not
      executed; and with separated windows no earlier one is left pending. */
  lemma NextPendingByTheCalendar(rnd: Random, slots: seq<Slot>, keys: set<string>, lookahead: nat, now: nat)
    ensures var r := NextPending(rnd, slots, Executed(keys), lookahead, now);
            r.Picked? ==>
              && r.slot in slots && r.at > now && InHours(r.slot, DateOf(r.day), r.at)
              && ToKey(r.slot, r.day) !in keys
              && (Separated(slots) ==> NoneLeft(slots, keys, now, WindowStart(r.slot, r.day)))
  {
    var r := NextPending(rnd, slots, Executed(keys), lookahead, now);
    NextPendingIsPending(rnd, slots, keys, lookahead, now);
    if r.Picked? {
      InstantInHours(r.slot, r.day, r.at);
      if Separated(slots) { NoneSkippedLeavesNone(slots, keys, now, r); }
    }
  }

  // ---------------------------------------------------------------- ties

  /** The slot at place `i` offers `c`, and every other offer of the first `n` slots is later,
      or as early but of a slot further back. */
  ghost predicate FirstOffer(rnd: Random, slots: seq<Slot>, now: nat, day: nat, n: nat, i: nat, c: Pick) {
    && i < n <= |slots| && Offers(rnd, slots, now, day, i, c)
    && forall j, b :: 0 <= j < n && Offers(rnd, slots, now, day, j, b) ==> c.at < b.at || (c.at == b.at && i <= j)
  }

  lemma FirstMinOfMore(candidates: seq<Pick>, c: Pick)
    requires c.Picked? && forall b :: b in candidates ==> b.Picked?
    ensures FirstMin(candidates + [c]) == if candidates == [] || c.at < FirstMin(candidates).at then c
                                          else FirstMin(candidates)
  {
    assert (candidates + [c])[..|candidates|] == candidates;
  }

  /** One slot more, that offers nothing or the candidate `c`. */
  lemma CandidatesOfMore(rnd: Random, slots: seq<Slot>, now: nat, day: nat, n: nat) returns (c: Option<Pick>)
    requires 0 < n <= |slots| && Candidates(rnd, slots, now, day, n).Some?
    ensures var cs, before := Candidates(rnd, slots, now, day, n), Candidates(rnd, slots, now, day, n - 1);
            before.Some? && cs.value == if c.Some? then before.value + [c.value] else before.value
    ensures forall b :: Offers(rnd, slots, now, day, n - 1, b) <==> c == Some(b)
  {
    var draw := RandomDatetimeInSlot(day, slots[n - 1], now, rnd(now, day, n - 1));
    c := if Opens(slots[n - 1], day) && draw.Drawn? && draw.at > now then Some(Picked(draw.at, slots[n - 1], day))
         else None;
  }

  lemma NoneOffers(rnd: Random, slots: seq<Slot>, now: nat, day: nat, n: nat)
    requires n <= |slots| && Candidates(rnd, slots, now, day, n) == Some([])
    ensures forall i, c :: 0 <= i < n ==> !Offers(rnd, slots, now, day, i, c)
  {
    CandidatesAreOffers(rnd, slots, now, day, n);
    forall i, c | 0 <= i < n ensures !Offers(rnd, slots, now, day, i, c) {
      assert c !in Candidates(rnd, slots, now, day, n).value;
    }
  }

  /** The next slot offers nothing. */
  lemma StillFirst(rnd: Random, slots: seq<Slot>, now: nat, day: nat, n: nat, i: nat, c: Pick)
    requires n < |slots| && FirstOffer(rnd, slots, now, day, n, i, c)
    requires forall b :: !Offers(rnd, slots, now, day, n, b)
    ensures FirstOffer(rnd, slots, now, day, n + 1, i, c)
  {
  }

  /** The next slot is the first to offer anything. */
  lemma OnlyOffer(rnd: Random, slots: seq<Slot>, now: nat, day: nat, n: nat, c: Pick)
    requires n < |slots| && Offers(rnd, slots, now, day, n, c)
    requires forall i, b :: 0 <= i < n ==> !Offers(rnd, slots, now, day, i, b)
    requires forall b :: Offers(rnd, slots, now, day, n, b) <==> b == c
    ensures FirstOffer(rnd, slots, now, day, n + 1, n, c)
  {
  }

  /** The next slot offers one more candidate. */
  lemma FirstOfMore(rnd: Random, slots: seq<Slot>, now: nat, day: nat, n: nat, i: nat, b: Pick, c: Pick)
    requires n < |slots| && FirstOffer(rnd, slots, now, day, n, i, b) && Offers(rnd, slots, now, day, n, c)
    requires forall b' :: Offers(rnd, slots, now, day, n, b') <==> b' == c
    ensures if c.at < b.at then FirstOffer(rnd, slots, now, day, n + 1, n, c)
            else FirstOffer(rnd, slots, now, day, n + 1, i, b)
  {
  }

  /** Of the candidates of a day the earliest is chosen, of equally early ones that of the slot
      listed first. */
  lemma {:induction false} TiesGoToTheFirstSlot(rnd: Random, slots: seq<Slot>, now: nat, day: nat, n: nat)
    returns (i: nat, first: Pick)
    requires n <= |slots|
    requires var cs := Candidates(rnd, slots, now, day, n); cs.Some? && cs.value != []
    ensures first == FirstMin(Candidates(rnd, slots, now, day, n).value)
    ensures FirstOffer(rnd, slots, now, day, n, i, first)
    decreases n
  {
    var before := Candidates(rnd, slots, now, day, n - 1);
    var c := CandidatesOfMore(rnd, slots, now, day, n);
    if c.None? {
      i, first := TiesGoToTheFirstSlot(rnd, slots, now, day, n - 1);
      StillFirst(rnd, slots, now, day, n - 1, i, first);
    } else {
      FirstMinOfMore(before.value, c.value);
      if before.value == [] {
        NoneOffers(rnd, slots, now, day, n - 1);
        OnlyOffer(rnd, slots, now, day, n - 1, c.value);
        i, first := n - 1, c.value;
      } else {
        i, first := TiesGoToTheFirstSlot(rnd, slots, now, day, n - 1);
        FirstOfMore(rnd, slots, now, day, n - 1, i, first, c.value);
        if c.value.at < first.at { i, first := n - 1, c.value; }
      }
    }
  }

  /** A pick lies within the lookahead. */
  lemma {:induction false} PickWithinLookahead(rnd: Random, slots: seq<Slot>, now: nat, lookahead: nat, offset: nat)
    ensures var r := PickFrom(rnd, slots, now, lookahead, offset);
            r.Picked? ==> DayOf(now) + offset <= r.day < DayOf(now) + lookahead
    decreases lookahead - offset
  {
    if offset < lookahead {
      CandidatesAreOffers(rnd, slots, now, DayOf(now) + offset, |slots|);
      PickWithinLookahead(rnd, slots, now, lookahead, offset + 1);
    }
  }
}
