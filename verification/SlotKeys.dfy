/** Slots, their weekly windows, and the keys that identify them (scheduler/model.py). */
module SlotKeys {
  import opened Digits

  datatype Slot = Slot(
    id: string, days: seq<int>, startHour: nat, startMinute: nat, endHour: nat, endMinute: nat, scenario: string)

  // ---------------------------------------------------------------- dates

  datatype Date = Date(year: nat, month: nat, day: nat)

  predicate IsLeap(y: nat) {
    y % 4 == 0 && (y % 100 != 0 || y % 400 == 0)
  }

  function DaysIn(y: nat, m: nat): nat {
    if m == 2 then (if IsLeap(y) then 29 else 28) else if m == 4 || m == 6 || m == 9 || m == 11 then 30 else 31
  }

  predicate IsDate(d: Date) {
    d.year >= 1 && 1 <= d.month <= 12 && 1 <= d.day <= DaysIn(d.year, d.month)
  }

  function Next(d: Date): (r: Date)
    requires IsDate(d)
    ensures IsDate(r) && Earlier(d, r)
  {
    if d.day < DaysIn(d.year, d.month) then d.(day := d.day + 1)
    else if d.month < 12 then Date(d.year, d.month + 1, 1)
    else Date(d.year + 1, 1, 1)
  }

  predicate Earlier(a: Date, b: Date) {
    || a.year < b.year
    || (a.year == b.year && (a.month < b.month || (a.month == b.month && a.day < b.day)))
  }

  /** The date `n` days after 1 January of year 1, a Monday. */
  function DateOf(n: nat): (d: Date)
    ensures IsDate(d)
  {
    if n == 0 then Date(1, 1, 1) else Next(DateOf(n - 1))
  }

  function Weekday(n: nat): nat {
    n % 7
  }

  lemma {:induction false} DatesGrow(n: nat, m: nat)
    requires n < m
    ensures Earlier(DateOf(n), DateOf(m))
    decreases m
  {
    if n < m - 1 { DatesGrow(n, m - 1); }
  }

  /** Days and dates are ordered alike. */
  lemma DatesCompareAsDays(n: nat, m: nat)
    ensures Earlier(DateOf(n), DateOf(m)) <==> n < m
  {
    if n < m { DatesGrow(n, m); } else if m < n { DatesGrow(m, n); }
  }

  // ---------------------------------------------------------------- keys

  /** `isoformat` of a date: the calendar date of section 4.1.2 of ISO 8601:2004. */
  function Iso(d: Date): string {
    Pad(d.year, 4) + ['-'] + Pad(d.month, 2) + ['-'] + Pad(d.day, 2)
  }

  function Clock(hour: nat, minute: nat): string {
    Pad(hour, 2) + [':'] + Pad(minute, 2)
  }

  function Hours(s: Slot): string {
    Clock(s.startHour, s.startMinute) + ['-'] + Clock(s.endHour, s.endMinute)
  }

  /** `TimeSlot.to_key`. */
  function ToKey(s: Slot, day: nat): string {
    Iso(DateOf(day)) + ['|'] + s.id + ['|'] + Hours(s)
  }

  /** `key.split("|", 1)[0]`. */
  function DatePart(key: string): string {
    if key == [] || key[0] == '|' then [] else [key[0]] + DatePart(key[1..])
  }

  lemma NoneOf(c: char, s: string)
    requires !IsDigit(c) && forall i :: 0 <= i < |s| ==> IsDigit(s[i])
    ensures c !in s
  {
  }

  lemma ClockIsInjective(h: nat, m: nat, h': nat, m': nat)
    requires Clock(h, m) == Clock(h', m')
    ensures h == h' && m == m'
  {
    NoneOf(':', Pad(h, 2));
    NoneOf(':', Pad(h', 2));
    FirstSplitIsUnique(':', Pad(h, 2), Pad(m, 2), Pad(h', 2), Pad(m', 2));
    PadIsInjective(h, h', 2);
    PadIsInjective(m, m', 2);
  }

  lemma ClockHasNo(c: char, h: nat, m: nat)
    requires !IsDigit(c) && c != ':'
    ensures c !in Clock(h, m)
  {
    NoneOf(c, Pad(h, 2));
    NoneOf(c, Pad(m, 2));
  }

  lemma IsoIsInjective(a: Date, b: Date)
    requires Iso(a) == Iso(b)
    ensures a == b
  {
    NoneOf('-', Pad(a.year, 4));
    NoneOf('-', Pad(b.year, 4));
    NoneOf('-', Pad(a.month, 2));
    NoneOf('-', Pad(b.month, 2));
    var x, y := Pad(a.month, 2) + ['-'] + Pad(a.day, 2), Pad(b.month, 2) + ['-'] + Pad(b.day, 2);
    assert Iso(a) == Pad(a.year, 4) + ['-'] + x && Iso(b) == Pad(b.year, 4) + ['-'] + y;
    FirstSplitIsUnique('-', Pad(a.year, 4), x, Pad(b.year, 4), y);
    FirstSplitIsUnique('-', Pad(a.month, 2), Pad(a.day, 2), Pad(b.month, 2), Pad(b.day, 2));
    PadIsInjective(a.year, b.year, 4);
    PadIsInjective(a.month, b.month, 2);
    PadIsInjective(a.day, b.day, 2);
  }

  lemma IsoHasNoBar(d: Date)
    ensures '|' !in Iso(d)
  {
    NoneOf('|', Pad(d.year, 4));
    NoneOf('|', Pad(d.month, 2));
    NoneOf('|', Pad(d.day, 2));
  }

  /** Two slots with the same id and hours. */
  predicate SameIdAndHours(s: Slot, t: Slot) {
    && s.id == t.id && s.startHour == t.startHour && s.startMinute == t.startMinute
    && s.endHour == t.endHour && s.endMinute == t.endMinute
  }

  /** A key determines its day, slot id and hours, even when ids contain '|'. */
  lemma KeysAreInjective(s: Slot, day: nat, t: Slot, day': nat)
    ensures ToKey(s, day) == ToKey(t, day') <==> day == day' && SameIdAndHours(s, t)
  {
    if ToKey(s, day) == ToKey(t, day') {
      KeyParts(s, day, t, day');
      IsoIsInjective(DateOf(day), DateOf(day'));
      DatesCompareAsDays(day, day');
      DatesCompareAsDays(day', day);
      HoursAreInjective(s, t);
    }
  }

  lemma KeyParts(s: Slot, day: nat, t: Slot, day': nat)
    requires ToKey(s, day) == ToKey(t, day')
    ensures Iso(DateOf(day)) == Iso(DateOf(day')) && s.id + ['|'] + Hours(s) == t.id + ['|'] + Hours(t)
  {
    var p, q := Iso(DateOf(day)), Iso(DateOf(day'));
    IsoHasNoBar(DateOf(day));
    IsoHasNoBar(DateOf(day'));
    KeySplit(p, s.id, Hours(s));
    KeySplit(q, t.id, Hours(t));
    FirstSplitIsUnique('|', p, s.id + ['|'] + Hours(s), q, t.id + ['|'] + Hours(t));
  }

  lemma KeySplit(a: string, b: string, c: string)
    ensures a + ['|'] + b + ['|'] + c == a + ['|'] + (b + ['|'] + c)
  {
  }

  lemma HoursAreInjective(s: Slot, t: Slot)
    requires s.id + ['|'] + Hours(s) == t.id + ['|'] + Hours(t)
    ensures SameIdAndHours(s, t)
  {
    ClockHasNo('|', s.startHour, s.startMinute);
    ClockHasNo('|', s.endHour, s.endMinute);
    ClockHasNo('|', t.startHour, t.startMinute);
    ClockHasNo('|', t.endHour, t.endMinute);
    LastSplitIsUnique('|', s.id, Hours(s), t.id, Hours(t));
    ClockHasNo('-', s.startHour, s.startMinute);
    ClockHasNo('-', t.startHour, t.startMinute);
    FirstSplitIsUnique('-', Clock(s.startHour, s.startMinute), Clock(s.endHour, s.endMinute),
                       Clock(t.startHour, t.startMinute), Clock(t.endHour, t.endMinute));
    ClockIsInjective(s.startHour, s.startMinute, t.startHour, t.startMinute);
    ClockIsInjective(s.endHour, s.endMinute, t.endHour, t.endMinute);
  }

  // ---------------------------------------------------------------- order

  /** Dates of four-digit years compare as strings exactly as they compare as dates. */
  lemma IsoComparesAsDates(a: Date, b: Date)
    requires IsDate(a) && IsDate(b) && a.year <= 9999 && b.year <= 9999
    ensures Less(Iso(a), Iso(b)) <==> Earlier(a, b)
  {
    YearThenDay(a);
    YearThenDay(b);
    YearsCompare(a.year, b.year, ['-'] + DayText(a), ['-'] + DayText(b));
    LessCons('-', '-', DayText(a), DayText(b));
    DayTextCompares(a, b);
  }

  lemma YearsCompare(m: nat, n: nat, x: string, y: string)
    requires m <= 9999 && n <= 9999
    ensures Less(Pad(m, 4) + x, Pad(n, 4) + y) <==> m < n || (m == n && Less(x, y))
  {
    assert Pow10(4) == 10000;
    PadsCompareAsNumbers(m, n, 4, x, y);
  }

  lemma YearThenDay(d: Date)
    ensures Iso(d) == Pad(d.year, 4) + (['-'] + DayText(d))
  {
  }

  function DayText(d: Date): string {
    Pad(d.month, 2) + (['-'] + Pad(d.day, 2))
  }

  lemma DayTextCompares(a: Date, b: Date)
    requires IsDate(a) && IsDate(b)
    ensures Less(DayText(a), DayText(b)) <==> a.month < b.month || (a.month == b.month && a.day < b.day)
  {
    assert Pow10(2) == 100;
    PadsCompareAsNumbers(a.month, b.month, 2, ['-'] + Pad(a.day, 2), ['-'] + Pad(b.day, 2));
    LessCons('-', '-', Pad(a.day, 2), Pad(b.day, 2));
    PadsCompareAsNumbers(a.day, b.day, 2, [], []);
    assert Pad(a.day, 2) + [] == Pad(a.day, 2) && Pad(b.day, 2) + [] == Pad(b.day, 2);
  }

  lemma {:induction false} DatePartOfSplit(a: string, b: string)
    requires '|' !in a
    ensures DatePart(a + ['|'] + b) == a
    decreases a
  {
    var s := a + ['|'] + b;
    if a != [] {
      assert s[0] == a[0] && s[1..] == a[1..] + ['|'] + b;
      DatePartOfSplit(a[1..], b);
    }
  }

  /** Comparing a key's date part with today's date as strings finds exactly the keys
      of earlier days. */
  lemma DatePartComparesAsDays(s: Slot, day: nat, today: nat)
    requires DateOf(day).year <= 9999 && DateOf(today).year <= 9999
    ensures Less(DatePart(ToKey(s, day)), Iso(DateOf(today))) <==> day < today
  {
    IsoHasNoBar(DateOf(day));
    KeySplit(Iso(DateOf(day)), s.id, Hours(s));
    DatePartOfSplit(Iso(DateOf(day)), s.id + ['|'] + Hours(s));
    IsoComparesAsDates(DateOf(day), DateOf(today));
    DatesCompareAsDays(day, today);
  }
}
