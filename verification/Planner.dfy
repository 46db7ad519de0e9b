/** Choosing the next execution (scheduler/model.py). Instants are seconds since
    1 January of year 1, wall-clock; all datetimes the program compares here share one
    time zone, so Python compares them in the same way. */
module Planner {
  import opened Wrappers
  import opened SlotKeys

  const DAY: nat := 86400

  function DayOf(t: nat): nat {
    t / DAY
  }

  function StartOf(s: Slot): nat {
    s.startHour * 3600 + s.startMinute * 60
  }

  function EndOf(s: Slot): nat {
    s.endHour * 3600 + s.endMinute * 60
  }

  function WindowStart(s: Slot, day: nat): nat {
    day * DAY + StartOf(s)
  }

  function WindowEnd(s: Slot, day: nat): nat {
    day * DAY + EndOf(s)
  }

  /** Hours and minutes the datetime constructor accepts. */
  predicate ValidClock(s: Slot) {
    s.startHour < 24 && s.startMinute < 60 && s.endHour < 24 && s.endMinute < 60
  }

  predicate Opens(s: Slot, day: nat) {
    Weekday(day) in s.days
  }

  /** A non-empty window of the plan. */
  predicate Window(slots: seq<Slot>, s: Slot, day: nat) {
    s in slots && Opens(s, day) && ValidClock(s) && StartOf(s) < EndOf(s)
  }

  datatype Pick =
    | Picked(at: nat, slot: Slot, day: nat)
    | NoWindow
    | BadClock
    | NothingPending

  /** What `random.randint` answers, numbers past the end standing for the end, when a
      search whose probe stands at the first number draws in the window of the slot at
      the third place on the second's day. The probe grows, so no search draws twice
      under one name. */
  type Random = (nat, nat, nat) -> nat

  datatype Draw = Drawn(at: nat) | Empty | Rejected

  /** Instants `random_datetime_in_slot` may return. */
  predicate CanDraw(s: Slot, day: nat, now: nat, at: nat) {
    && WindowStart(s, day) <= at < WindowEnd(s, day)
    && (day == DayOf(now) ==> now <= at)
  }

  /** `start_dt`. */
  function FirstInstant(s: Slot, day: nat, now: nat): nat {
    if day == DayOf(now) && now > WindowStart(s, day) then now else WindowStart(s, day)
  }

  function RandomDatetimeInSlot(day: nat, s: Slot, now: nat, n: nat): (r: Draw)
    ensures r.Rejected? <==> !ValidClock(s)
    ensures r.Drawn? ==> CanDraw(s, day, now, r.at)
    ensures r.Empty? ==> forall at :: !CanDraw(s, day, now, at)
  {
    var start, end := FirstInstant(s, day, now), WindowEnd(s, day);
    if !ValidClock(s) then Rejected
    else if start >= end then Empty
    else Drawn(if n < end - start then start + n else end - 1)
  }

  /** Every instant of the window from now on can be drawn. */
  lemma AnyInstantCanBeDrawn(s: Slot, day: nat, now: nat, at: nat)
    requires ValidClock(s) && CanDraw(s, day, now, at)
    ensures RandomDatetimeInSlot(day, s, now, at - FirstInstant(s, day, now)) == Drawn(at)
  {
  }

  /** `c` is a candidate found on its day. */
  ghost predicate Candidate(slots: seq<Slot>, now: nat, c: Pick) {
    && c.Picked? && c.slot in slots && Opens(c.slot, c.day) && ValidClock(c.slot)
    && CanDraw(c.slot, c.day, now, c.at) && c.at > now
  }

  /** No window that starts after `now` ends by the time `at`. */
  ghost predicate NonePassed(slots: seq<Slot>, now: nat, at: nat) {
    forall s, day: nat :: Window(slots, s, day) && WindowStart(s, day) > now ==> at < WindowEnd(s, day)
  }

  /** The candidates of the first `n` slots on one day, or nothing when the hours of a
      slot that opens are not a clock time. */
  function Candidates(rnd: Random, slots: seq<Slot>, now: nat, day: nat, n: nat): (r: Option<seq<Pick>>)
    requires n <= |slots|
    ensures r.Some? ==> forall c :: c in r.value ==> c.Picked?
  {
    if n == 0 then Some([])
    else
      var before := Candidates(rnd, slots, now, day, n - 1);
      if before.None? || !Opens(slots[n - 1], day) then before
      else
        match RandomDatetimeInSlot(day, slots[n - 1], now, rnd(now, day, n - 1))
        case Rejected => None
        case Empty => before
        case Drawn(at) => if at > now then Some(before.value + [Picked(at, slots[n - 1], day)]) else before
  }

  /** `min` by instant, the first of equals. */
  function FirstMin(candidates: seq<Pick>): (c: Pick)
    requires candidates != [] && forall c :: c in candidates ==> c.Picked?
    ensures c in candidates && forall b :: b in candidates ==> c.at <= b.at
  {
    var n := |candidates| - 1;
    if n == 0 then candidates[0]
    else
      var c := FirstMin(candidates[..n]);
      if candidates[n].at < c.at then candidates[n] else c
  }

  /** The search for candidates from `offset` days after today on. */
  function PickFrom(rnd: Random, slots: seq<Slot>, now: nat, lookahead: nat, offset: nat): Pick
    decreases lookahead - offset
  {
    if offset >= lookahead then NoWindow
    else
      var c := Candidates(rnd, slots, now, DayOf(now) + offset, |slots|);
      if c.None? then BadClock
      else if c.value == [] then PickFrom(rnd, slots, now, lookahead, offset + 1)
      else FirstMin(c.value)
  }

  /** Whether the window of a slot on a day has been executed. */
  type Done = (Slot, nat) -> bool

  /** A set of executed keys as the search reads it. */
  function Executed(keys: set<string>): Done {
    (s: Slot, day: nat) => ToKey(s, day) in keys
  }

  /** At most `n` more picks, the next one after `probe`. */
  function Search(rnd: Random, slots: seq<Slot>, done: Done, lookahead: nat, probe: nat, n: nat): Pick
    decreases n
  {
    if n == 0 then NothingPending
    else
      var r := PickFrom(rnd, slots, probe, lookahead, 0);
      if !r.Picked? || !done(r.slot, r.day) then r
      else Search(rnd, slots, done, lookahead, WindowEnd(r.slot, r.day) + 1, n - 1)
  }

  function Rounds(slots: seq<Slot>, lookahead: nat): nat {
    |slots| * lookahead + 1
  }

  function NextPending(rnd: Random, slots: seq<Slot>, done: Done, lookahead: nat, now: nat): Pick {
    Search(rnd, slots, done, lookahead, now, Rounds(slots, lookahead))
  }

  // ---------------------------------------------------------------- the loops

  method PickNextExecution(rnd: Random, now: nat, slots: seq<Slot>, lookahead: nat) returns (r: Pick)
    ensures r == PickFrom(rnd, slots, now, lookahead, 0)
  {
    for offset := 0 to lookahead
      invariant PickFrom(rnd, slots, now, lookahead, 0) == PickFrom(rnd, slots, now, lookahead, offset)
    {
      var day, candidates := DayOf(now) + offset, [];
      for i := 0 to |slots|
        invariant Candidates(rnd, slots, now, day, i) == Some(candidates)
      {
        if Opens(slots[i], day) {
          var draw := RandomDatetimeInSlot(day, slots[i], now, rnd(now, day, i));
          if draw.Rejected? {
            RaisesLater(rnd, slots, now, day, i + 1, |slots|);
            return BadClock;
          }
          if draw.Drawn? && draw.at > now { candidates := candidates + [Picked(draw.at, slots[i], day)]; }
        }
      }
      if candidates != [] { return FirstMin(candidates); }
    }
    r := NoWindow;
  }

  lemma {:induction false} RaisesLater(rnd: Random, slots: seq<Slot>, now: nat, day: nat, n: nat, m: nat)
    requires n <= m <= |slots| && Candidates(rnd, slots, now, day, n).None?
    ensures Candidates(rnd, slots, now, day, m).None?
    decreases m
  {
    if n < m { RaisesLater(rnd, slots, now, day, n, m - 1); }
  }

  /** `find_next_pending_execution`. */
  method FindNextPending(rnd: Random, now: nat, slots: seq<Slot>, isSlotExecuted: Done, lookahead: nat)
    returns (r: Pick)
    ensures r == NextPending(rnd, slots, isSlotExecuted, lookahead, now)
  {
    var probe: nat := now;
    ghost var found := NextPending(rnd, slots, isSlotExecuted, lookahead, now);
    for left := Rounds(slots, lookahead) downto 0
      invariant found == Search(rnd, slots, isSlotExecuted, lookahead, probe, left)
    {
      r := PickNextExecution(rnd, probe, slots, lookahead);
      SearchUnfolds(rnd, slots, isSlotExecuted, lookahead, probe, left + 1, r);
      if !r.Picked? || !isSlotExecuted(r.slot, r.day) { return; }
      probe := WindowEnd(r.slot, r.day) + 1;
    }
    r := NothingPending;
  }

  lemma SearchUnfolds(rnd: Random, slots: seq<Slot>, done: Done, lookahead: nat, probe: nat, n: nat, r: Pick)
    requires n > 0 && r == PickFrom(rnd, slots, probe, lookahead, 0)
    ensures Search(rnd, slots, done, lookahead, probe, n)
         == if !r.Picked? || !done(r.slot, r.day) then r
            else Search(rnd, slots, done, lookahead, WindowEnd(r.slot, r.day) + 1, n - 1)
  {
  }

  // ---------------------------------------------------------------- one pick

  /** The slot at place `i` offers the candidate `c`. */
  ghost predicate Offers(rnd: Random, slots: seq<Slot>, now: nat, day: nat, i: nat, c: Pick)
    requires i < |slots|
  {
    && c.Picked? && c.slot == slots[i] && c.day == day && Opens(slots[i], day) && c.at > now
    && RandomDatetimeInSlot(day, slots[i], now, rnd(now, day, i)) == Drawn(c.at)
  }

  lemma {:induction false} CandidatesAreOffers(rnd: Random, slots: seq<Slot>, now: nat, day: nat, n: nat)
    requires n <= |slots|
    ensures var cs := Candidates(rnd, slots, now, day, n);
            if cs.Some? then forall c :: c in cs.value <==> exists i :: 0 <= i < n && Offers(rnd, slots, now, day, i, c)
            else exists s :: s in slots && !ValidClock(s)
  {
    if n > 0 {
      CandidatesAreOffers(rnd, slots, now, day, n - 1);
      var cs, before := Candidates(rnd, slots, now, day, n), Candidates(rnd, slots, now, day, n - 1);
      if cs.None? {
        assert before.None? || (slots[n - 1] in slots && !ValidClock(slots[n - 1]));
      } else {
        forall c ensures c in cs.value <==> c in before.value || Offers(rnd, slots, now, day, n - 1, c) {}
      }
    }
  }

  ghost predicate AllValid(slots: seq<Slot>) {
    forall s :: s in slots ==> ValidClock(s)
  }

  ghost predicate NoneBeforeDay(slots: seq<Slot>, now: nat, today: nat) {
    forall s, day: nat :: Window(slots, s, day) && WindowStart(s, day) > now ==> day >= today
  }

  /** What a pick is: the earliest candidate of its day, and no window that starts after
      `now` is over before it. */
  lemma {:induction false} PickIsEarliest(rnd: Random, slots: seq<Slot>, now: nat, lookahead: nat, offset: nat)
    requires NoneBeforeDay(slots, now, DayOf(now) + offset)
    ensures var r := PickFrom(rnd, slots, now, lookahead, offset);
            && !r.NothingPending?
            && (r.BadClock? ==> !AllValid(slots))
            && (r.NoWindow? ==> NoneBeforeDay(slots, now, DayOf(now) + lookahead))
            && (r.Picked? ==> Candidate(slots, now, r) && NonePassed(slots, now, r.at))
    decreases lookahead - offset
  {
    if offset < lookahead {
      var day := DayOf(now) + offset;
      var c := Candidates(rnd, slots, now, day, |slots|);
      CandidatesAreOffers(rnd, slots, now, day, |slots|);
      if c.Some? && c.value == [] {
        NoCandidates(rnd, slots, now, day);
        PickIsEarliest(rnd, slots, now, lookahead, offset + 1);
      } else if c.Some? {
        EarliestPassesNone(rnd, slots, now, day);
      }
    }
  }

  /** A window that starts after `now` offers a candidate. */
  lemma WindowOffers(rnd: Random, slots: seq<Slot>, now: nat, s: Slot, day: nat) returns (c: Pick)
    requires Window(slots, s, day) && WindowStart(s, day) > now
    requires Candidates(rnd, slots, now, day, |slots|).Some?
    ensures c in Candidates(rnd, slots, now, day, |slots|).value && c.Picked? && c.slot == s
    ensures Candidate(slots, now, c) && c.day == day
  {
    var i :| 0 <= i < |slots| && slots[i] == s;
    assert CanDraw(s, day, now, WindowStart(s, day));
    c := Picked(RandomDatetimeInSlot(day, s, now, rnd(now, day, i)).at, s, day);
    assert Offers(rnd, slots, now, day, i, c);
    CandidatesAreOffers(rnd, slots, now, day, |slots|);
  }

  lemma NoCandidates(rnd: Random, slots: seq<Slot>, now: nat, today: nat)
    requires NoneBeforeDay(slots, now, today) && Candidates(rnd, slots, now, today, |slots|) == Some([])
    ensures NoneBeforeDay(slots, now, today + 1)
  {
    forall s, day: nat | Window(slots, s, day) && WindowStart(s, day) > now ensures day >= today + 1 {
      if day == today { var c := WindowOffers(rnd, slots, now, s, day); }
    }
  }

  lemma EarliestPassesNone(rnd: Random, slots: seq<Slot>, now: nat, today: nat)
    requires NoneBeforeDay(slots, now, today)
    requires var cs := Candidates(rnd, slots, now, today, |slots|); cs.Some? && cs.value != []
    ensures var r := FirstMin(Candidates(rnd, slots, now, today, |slots|).value);
            Candidate(slots, now, r) && NonePassed(slots, now, r.at)
  {
    var r := FirstMin(Candidates(rnd, slots, now, today, |slots|).value);
    CandidatesAreOffers(rnd, slots, now, today, |slots|);
    forall s, day: nat | Window(slots, s, day) && WindowStart(s, day) > now ensures r.at < WindowEnd(s, day) {
      if day == today {
        var c := WindowOffers(rnd, slots, now, s, day);
      } else {
        assert day >= today + 1;
      }
    }
  }

  // ---------------------------------------------------------------- no pending window is skipped

  /** Two windows on one weekday are separated when one ends strictly before the other
      starts; windows with the same key count as one. */
  ghost predicate Separated(slots: seq<Slot>) {
    forall i, j :: 0 <= i < j < |slots| ==> Apart(slots[i], slots[j])
  }

  ghost predicate Apart(s: Slot, t: Slot) {
    (exists w :: 0 <= w < 7 && w in s.days && w in t.days) && StartOf(s) < EndOf(s) && StartOf(t) < EndOf(t) ==>
      SameIdAndHours(s, t) || EndOf(s) < StartOf(t) || EndOf(t) < StartOf(s)
  }

  lemma WindowsApart(slots: seq<Slot>, s: Slot, t: Slot, day: nat)
    requires Separated(slots) && Window(slots, s, day) && Window(slots, t, day)
    ensures SameIdAndHours(s, t) || EndOf(s) < StartOf(t) || EndOf(t) < StartOf(s)
  {
    var i :| 0 <= i < |slots| && slots[i] == s;
    var j :| 0 <= j < |slots| && slots[j] == t;
    assert Weekday(day) in s.days && Weekday(day) in t.days;
    if i < j {
      assert Apart(slots[i], slots[j]);
    } else if j < i {
      assert Apart(slots[j], slots[i]);
    }
  }

  /** Executed windows are told apart by id and hours only. */
  ghost predicate ReadsKeys(done: Done) {
    forall s, t, day: nat :: SameIdAndHours(s, t) ==> done(s, day) == done(t, day)
  }

  /** Every window that starts after `now` and by `until` has been executed. */
  ghost predicate AllExecuted(slots: seq<Slot>, done: Done, now: nat, until: nat) {
    forall s, day: nat :: Window(slots, s, day) && now < WindowStart(s, day) <= until ==> done(s, day)
  }

  /** A window that starts after `probe`, other than the picked one, starts after the
      picked window's end. */
  lemma PickedComesFirst(slots: seq<Slot>, probe: nat, r: Pick, s: Slot, day: nat)
    requires Separated(slots) && Candidate(slots, probe, r) && NonePassed(slots, probe, r.at)
    requires Window(slots, s, day) && probe < WindowStart(s, day)
    ensures (SameIdAndHours(s, r.slot) && day == r.day) || WindowStart(s, day) > WindowEnd(r.slot, r.day) + 1
  {
    assert r.at < WindowEnd(s, day);
    if day == r.day { WindowsApart(slots, s, r.slot, day); }
  }

  /** Every window that starts after `now` and before the picked one has been
      executed. */
  ghost predicate NoneSkipped(slots: seq<Slot>, done: Done, now: nat, r: Pick)
    requires r.Picked?
  {
    forall s, day: nat ::
      Window(slots, s, day) && now < WindowStart(s, day) < WindowStart(r.slot, r.day) ==> done(s, day)
  }

  lemma PickSkipsNone(slots: seq<Slot>, done: Done, now: nat, probe: nat, r: Pick)
    requires Separated(slots) && ReadsKeys(done) && AllExecuted(slots, done, now, probe)
    requires Candidate(slots, probe, r) && NonePassed(slots, probe, r.at)
    ensures NoneSkipped(slots, done, now, r)
    ensures done(r.slot, r.day) ==> AllExecuted(slots, done, now, WindowEnd(r.slot, r.day) + 1)
  {
    forall s, day: nat | Window(slots, s, day) && probe < WindowStart(s, day)
      ensures (SameIdAndHours(s, r.slot) && day == r.day) || WindowStart(s, day) > WindowEnd(r.slot, r.day) + 1
    {
      PickedComesFirst(slots, probe, r, s, day);
    }
  }

  /** A window not executed, at an instant after `now` inside it. */
  ghost predicate IsPending(slots: seq<Slot>, done: Done, now: nat, r: Pick)
    requires r.Picked?
  {
    && r.slot in slots && Opens(r.slot, r.day) && ValidClock(r.slot) && !done(r.slot, r.day)
    && WindowStart(r.slot, r.day) <= r.at < WindowEnd(r.slot, r.day) && r.at > now
  }

  /** What is kept while the probe moves. */
  ghost predicate Searching(slots: seq<Slot>, done: Done, now: nat, probe: nat) {
    probe >= now && (Separated(slots) ==> AllExecuted(slots, done, now, probe))
  }

  lemma SearchStep(slots: seq<Slot>, done: Done, now: nat, probe: nat, r: Pick)
    requires ReadsKeys(done) && Searching(slots, done, now, probe)
    requires Candidate(slots, probe, r) && NonePassed(slots, probe, r.at)
    ensures Separated(slots) ==> NoneSkipped(slots, done, now, r)
    ensures if done(r.slot, r.day) then Searching(slots, done, now, WindowEnd(r.slot, r.day) + 1)
            else IsPending(slots, done, now, r)
  {
    if Separated(slots) { PickSkipsNone(slots, done, now, probe, r); }
  }

  lemma NextProbe(rnd: Random, slots: seq<Slot>, done: Done, lookahead: nat, now: nat, probe: nat) returns (r: Pick)
    requires ReadsKeys(done) && Searching(slots, done, now, probe)
    ensures r == PickFrom(rnd, slots, probe, lookahead, 0)
    ensures r.Picked? ==> (Separated(slots) ==> NoneSkipped(slots, done, now, r))
    ensures r.Picked? ==> if done(r.slot, r.day) then Searching(slots, done, now, WindowEnd(r.slot, r.day) + 1)
                          else IsPending(slots, done, now, r)
  {
    r := PickFrom(rnd, slots, probe, lookahead, 0);
    PickIsEarliest(rnd, slots, probe, lookahead, 0);
    if r.Picked? { SearchStep(slots, done, now, probe, r); }
  }

  /** A search returns only pending windows, and between separated windows it skips no
      pending one. */
  lemma {:induction false} SearchSkipsNone(rnd: Random, slots: seq<Slot>, done: Done, lookahead: nat, now: nat,
                                           probe: nat, n: nat) returns (r: Pick)
    requires ReadsKeys(done) && Searching(slots, done, now, probe)
    ensures r == Search(rnd, slots, done, lookahead, probe, n)
    ensures r.Picked? ==> IsPending(slots, done, now, r) && (Separated(slots) ==> NoneSkipped(slots, done, now, r))
    decreases n
  {
    if n == 0 { return NothingPending; }
    r := NextProbe(rnd, slots, done, lookahead, now, probe);
    if r.Picked? && done(r.slot, r.day) {
      r := SearchSkipsNone(rnd, slots, done, lookahead, now, WindowEnd(r.slot, r.day) + 1, n - 1);
    }
  }

  // ---------------------------------------------------------------- the iteration bound

  /** Some slot has a non-empty window on some weekday. */
  ghost predicate Usable(slots: seq<Slot>) {
    exists s :: s in slots && StartOf(s) < EndOf(s) && HasWeekday(s)
  }

  predicate HasWeekday(s: Slot) {
    exists w :: 0 <= w < 7 && w in s.days
  }

  /** Within a week after today a usable slot opens again. */
  lemma OpensWithinAWeek(slots: seq<Slot>, now: nat) returns (s: Slot, day: nat)
    requires Usable(slots) && AllValid(slots)
    ensures Window(slots, s, day) && WindowStart(s, day) > now && day < DayOf(now) + 8
  {
    s :| s in slots && StartOf(s) < EndOf(s) && HasWeekday(s);
    var w :| 0 <= w < 7 && w in s.days;
    var next := DayOf(now) + 1;
    day := next + (w - next % 7 + 7) % 7;
    assert Weekday(day) == w;
  }

  /** Slots for which a window always lies ahead. */
  ghost predicate NeverEnds(slots: seq<Slot>, lookahead: nat) {
    AllValid(slots) && Usable(slots) && lookahead >= 8
  }

  lemma AlwaysPicks(rnd: Random, slots: seq<Slot>, lookahead: nat, probe: nat)
    requires NeverEnds(slots, lookahead)
    ensures var r := PickFrom(rnd, slots, probe, lookahead, 0); r.Picked? && Candidate(slots, probe, r)
  {
    PickIsEarliest(rnd, slots, probe, lookahead, 0);
    var s, day := OpensWithinAWeek(slots, probe);
  }

  /** Windows passed one after the other by a search: all executed, each ending later
      than the one before, the last before `probe`. */
  ghost predicate Passed(windows: seq<(Slot, nat)>, done: Done, probe: nat) {
    && (forall i :: 0 <= i < |windows| ==>
          done(windows[i].0, windows[i].1) && WindowEnd(windows[i].0, windows[i].1) < probe)
    && (forall i, j :: 0 <= i < j < |windows| ==>
          WindowEnd(windows[i].0, windows[i].1) < WindowEnd(windows[j].0, windows[j].1))
  }

  /** Such windows have distinct keys. */
  lemma {:induction false} PassedHaveDistinctKeys(windows: seq<(Slot, nat)>, keys: set<string>, probe: nat)
    requires Passed(windows, Executed(keys), probe)
    ensures |windows| <= |keys|
  {
    if windows != [] {
      var n := |windows| - 1;
      var (s, day) := windows[n];
      var left := keys - {ToKey(s, day)};
      forall i | 0 <= i < n ensures ToKey(windows[i].0, windows[i].1) in left {
        assert Executed(keys)(windows[i].0, windows[i].1);
        if ToKey(windows[i].0, windows[i].1) == ToKey(s, day) { KeysAreInjective(windows[i].0, windows[i].1, s, day); }
      }
      assert Executed(keys)(s, day);
      PassedHaveDistinctKeys(windows[..n], left, probe);
    }
  }

  /** A search that ends without a pick has passed as many windows as it had rounds. */
  lemma {:induction false} SearchPasses(rnd: Random, slots: seq<Slot>, done: Done, lookahead: nat, probe: nat,
                                        windows: seq<(Slot, nat)>, n: nat) returns (all: seq<(Slot, nat)>, end: nat)
    requires NeverEnds(slots, lookahead) && Passed(windows, done, probe)
    ensures !Search(rnd, slots, done, lookahead, probe, n).Picked? ==> Passed(all, done, end) && |all| == |windows| + n
    decreases n
  {
    all, end := windows, probe;
    if n > 0 {
      AlwaysPicks(rnd, slots, lookahead, probe);
      var r := PickFrom(rnd, slots, probe, lookahead, 0);
      if done(r.slot, r.day) {
        var later := WindowEnd(r.slot, r.day) + 1;
        assert Passed(windows + [(r.slot, r.day)], done, later);
        all, end := SearchPasses(rnd, slots, done, lookahead, later, windows + [(r.slot, r.day)], n - 1);
      }
    }
  }

  // ---------------------------------------------------------------- the search

  lemma ExecutedReadsKeys(keys: set<string>)
    ensures ReadsKeys(Executed(keys))
  {
    forall s, t, day: nat | SameIdAndHours(s, t) ensures Executed(keys)(s, day) == Executed(keys)(t, day) {
      KeysAreInjective(s, day, t, day);
    }
  }

  /** A search returns a pending window, its hours and weekday respected; with separated
      windows it skips no pending one, whatever is drawn. */
  lemma NextPendingIsPending(rnd: Random, slots: seq<Slot>, keys: set<string>, lookahead: nat, now: nat)
    ensures var r := NextPending(rnd, slots, Executed(keys), lookahead, now);
            r.Picked? ==> IsPending(slots, Executed(keys), now, r)
                          && (Separated(slots) ==> NoneSkipped(slots, Executed(keys), now, r))
  {
    ExecutedReadsKeys(keys);
    var r := SearchSkipsNone(rnd, slots, Executed(keys), lookahead, now, now, Rounds(slots, lookahead));
  }

  /** It always finds one when the executed set is not larger than the iteration bound. */
  lemma NextPendingIsFound(rnd: Random, slots: seq<Slot>, keys: set<string>, lookahead: nat, now: nat)
    requires NeverEnds(slots, lookahead) && |keys| <= |slots| * lookahead
    ensures NextPending(rnd, slots, Executed(keys), lookahead, now).Picked?
  {
    var windows, end := SearchPasses(rnd, slots, Executed(keys), lookahead, now, [], Rounds(slots, lookahead));
    if Passed(windows, Executed(keys), end) { PassedHaveDistinctKeys(windows, keys, end); }
  }
}
