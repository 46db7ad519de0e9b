/** How far the promises of the planner go: exactly which plans may lose a window, and
    exactly when a window that was run is picked again. */
module PlannerLimits {
  import opened SlotKeys
  import opened StateStore
  import opened Planner

  // ---------------------------------------------------------------- clocks

  lemma FullMinutes(s: Slot, day: nat)
    ensures WindowStart(s, day) % 60 == 0 && WindowEnd(s, day) % 60 == 0
  {
    assert WindowStart(s, day) == 60 * (day * 1440 + s.startHour * 60 + s.startMinute);
    assert WindowEnd(s, day) == 60 * (day * 1440 + s.endHour * 60 + s.endMinute);
  }

  lemma InsideItsDay(s: Slot, day: nat)
    requires ValidClock(s)
    ensures day * DAY <= WindowStart(s, day) && WindowEnd(s, day) <= (day + 1) * DAY - 60
  {
  }

  /** The pick is the first of the earliest candidates of its day. */
  lemma {:induction false} PickIsFirstMin(rnd: Random, slots: seq<Slot>, now: nat, lookahead: nat, offset: nat)
    ensures var r := PickFrom(rnd, slots, now, lookahead, offset);
            r.Picked? ==>
              var c := Candidates(rnd, slots, now, r.day, |slots|);
              c.Some? && c.value != [] && r == FirstMin(c.value)
    decreases lookahead - offset
  {
    if offset < lookahead {
      CandidatesAreOffers(rnd, slots, now, DayOf(now) + offset, |slots|);
      PickIsFirstMin(rnd, slots, now, lookahead, offset + 1);
    }
  }

  /** The place that offers the pick, and what the pick is not later than. */
  lemma PickIsOffered(rnd: Random, slots: seq<Slot>, now: nat, lookahead: nat) returns (i: nat)
    requires PickFrom(rnd, slots, now, lookahead, 0).Picked?
    ensures var r := PickFrom(rnd, slots, now, lookahead, 0);
            && i < |slots| && Offers(rnd, slots, now, r.day, i, r)
            && forall j, c :: 0 <= j < |slots| && Offers(rnd, slots, now, r.day, j, c) ==> r.at <= c.at
  {
    var r := PickFrom(rnd, slots, now, lookahead, 0);
    PickIsFirstMin(rnd, slots, now, lookahead, 0);
    CandidatesAreOffers(rnd, slots, now, r.day, |slots|);
    i :| 0 <= i < |slots| && Offers(rnd, slots, now, r.day, i, r);
  }

  // ---------------------------------------------------------------- plans that lose windows

  ghost predicate SkipsNone(rnd: Random, slots: seq<Slot>, keys: set<string>, lookahead: nat, now: nat) {
    var r := NextPending(rnd, slots, Executed(keys), lookahead, now);
    r.Picked? ==> NoneSkipped(slots, Executed(keys), now, r)
  }

  /** Two windows of one day, the second starting within the first or as it ends. */
  ghost predicate Crossing(slots: seq<Slot>, u: Slot, s: Slot, day: nat) {
    && Window(slots, u, day) && Window(slots, s, day) && !SameIdAndHours(u, s)
    && StartOf(u) <= StartOf(s) <= EndOf(u)
  }

  /** Draws that lose the window of `s`: the last instant while the probe stands before
      the window, the probe itself after that; all other windows draw early. */
  function Losing(slots: seq<Slot>, s: Slot, day: nat): Random {
    (probe, d, i) => LosingDraw(slots, s, day, probe, d, i)
  }

  function LosingDraw(slots: seq<Slot>, s: Slot, day: nat, probe: nat, d: nat, i: nat): nat {
    if i >= |slots| then 0
    else if d == day && SameIdAndHours(slots[i], s) then (if probe < WindowStart(s, d) then EndOf(s) else 0)
    else if probe < WindowStart(slots[i], d) then 0
    else 1
  }

  /** Where the probe of the losing search can stand. */
  ghost predicate Probes(u: Slot, day: nat, probe: nat) {
    probe + 1 >= WindowStart(u, day) && (probe >= WindowStart(u, day) ==> probe % 60 == 1)
  }

  lemma DrawsThat(u: Slot, day: nat, probe: nat, n: nat)
    requires ValidClock(u) && FirstInstant(u, day, probe) + n < WindowEnd(u, day)
    ensures RandomDatetimeInSlot(day, u, probe, n) == Drawn(FirstInstant(u, day, probe) + n)
  {
  }

  /** While the probe stands before the window of `s`, the other one draws earlier. */
  lemma OtherDrawsEarlier(slots: seq<Slot>, u: Slot, s: Slot, day: nat, probe: nat) returns (j: nat, c: Pick)
    requires Crossing(slots, u, s, day) && Probes(u, day, probe) && probe < WindowStart(s, day)
    ensures j < |slots| && Offers(Losing(slots, s, day), slots, probe, day, j, c) && c.at < WindowEnd(s, day) - 1
  {
    j :| 0 <= j < |slots| && slots[j] == u;
    var n := OtherDraw(slots, u, s, day, probe);
    DrawsThat(u, day, probe, n);
    c := Picked(FirstInstant(u, day, probe) + n, u, day);
    assert LosingDraw(slots, s, day, probe, day, j) == n;
  }

  lemma OtherDraw(slots: seq<Slot>, u: Slot, s: Slot, day: nat, probe: nat) returns (n: nat)
    requires Crossing(slots, u, s, day) && Probes(u, day, probe) && probe < WindowStart(s, day)
    ensures n == if probe < WindowStart(u, day) then 0 else 1
    ensures probe < FirstInstant(u, day, probe) + n < WindowEnd(u, day)
    ensures FirstInstant(u, day, probe) + n < WindowEnd(s, day) - 1
  {
    FullMinutes(u, day);
    FullMinutes(s, day);
    InsideItsDay(u, day);
    InsideItsDay(s, day);
    n := if probe < WindowStart(u, day) then 0 else 1;
    if n == 1 { assert DayOf(probe) == day; }
  }

  /** The window itself draws its last instant before it starts, and later the probe,
      which is dropped. */
  lemma ItselfDrawsLate(slots: seq<Slot>, s: Slot, day: nat, probe: nat, i: nat, c: Pick)
    requires i < |slots| && SameIdAndHours(slots[i], s) && Window(slots, s, day)
    requires Offers(Losing(slots, s, day), slots, probe, day, i, c)
    ensures probe < WindowStart(s, day) && c.at == WindowEnd(s, day) - 1
  {
    InsideItsDay(s, day);
    assert c.at > probe;
    assert DayOf(probe) <= day;
  }

  lemma NotOfferedFirst(slots: seq<Slot>, u: Slot, s: Slot, day: nat, probe: nat, i: nat, r: Pick)
    requires Crossing(slots, u, s, day) && Probes(u, day, probe)
    requires i < |slots| && Offers(Losing(slots, s, day), slots, probe, day, i, r)
    requires forall j, c :: 0 <= j < |slots| && Offers(Losing(slots, s, day), slots, probe, day, j, c) ==> r.at <= c.at
    ensures !SameIdAndHours(slots[i], s)
  {
    if SameIdAndHours(slots[i], s) {
      ItselfDrawsLate(slots, s, day, probe, i, r);
      var j, c := OtherDrawsEarlier(slots, u, s, day, probe);
    }
  }

  lemma NotPicked(slots: seq<Slot>, u: Slot, s: Slot, day: nat, lookahead: nat, probe: nat, r: Pick)
    requires Crossing(slots, u, s, day) && Probes(u, day, probe)
    requires r == PickFrom(Losing(slots, s, day), slots, probe, lookahead, 0)
    ensures r.Picked? ==> !(r.day == day && SameIdAndHours(r.slot, s)) && Probes(u, day, WindowEnd(r.slot, r.day) + 1)
  {
    if r.Picked? {
      var i := PickIsOffered(Losing(slots, s, day), slots, probe, lookahead);
      if r.day == day { NotOfferedFirst(slots, u, s, day, probe, i, r); }
      ProbesAgain(u, day, probe, r);
    }
  }

  /** The probe after a pick. */
  lemma ProbesAgain(u: Slot, day: nat, probe: nat, r: Pick)
    requires r.Picked? && Probes(u, day, probe) && probe < r.at < WindowEnd(r.slot, r.day)
    ensures Probes(u, day, WindowEnd(r.slot, r.day) + 1)
  {
    FullMinutes(r.slot, r.day);
    var end := WindowEnd(r.slot, r.day);
    assert end % 60 == 0 ==> (end + 1) % 60 == 1;
  }

  /** Wherever its probe can stand, a search with these draws does not pick the window. */
  ghost predicate Avoids(rnd: Random, slots: seq<Slot>, u: Slot, s: Slot, day: nat, lookahead: nat) {
    forall probe: nat | Probes(u, day, probe) ::
      var r := PickFrom(rnd, slots, probe, lookahead, 0);
      r.Picked? ==> !(r.day == day && SameIdAndHours(r.slot, s)) && Probes(u, day, WindowEnd(r.slot, r.day) + 1)
  }

  lemma {:induction false} NeverPicked(rnd: Random, slots: seq<Slot>, u: Slot, s: Slot, day: nat, done: Done,
                                       lookahead: nat,
                                       probe: nat, n: nat)
    requires Avoids(rnd, slots, u, s, day, lookahead) && Probes(u, day, probe)
    ensures var r := Search(rnd, slots, done, lookahead, probe, n);
            r.Picked? ==> !(r.day == day && SameIdAndHours(r.slot, s))
    decreases n
  {
    if n > 0 {
      var r := PickFrom(rnd, slots, probe, lookahead, 0);
      if r.Picked? && done(r.slot, r.day) {
        NeverPicked(rnd, slots, u, s, day, done, lookahead, WindowEnd(r.slot, r.day) + 1, n - 1);
      }
    }
  }

  /** The keys of the first `n` slots. */
  function KeysOf(slots: seq<Slot>, key: Slot -> string, n: nat): (keys: set<string>)
    requires n <= |slots|
    ensures |keys| <= n && forall i :: 0 <= i < n ==> key(slots[i]) in keys
  {
    if n == 0 then {} else KeysOf(slots, key, n - 1) + {key(slots[n - 1])}
  }

  /** The keys of one day, but for that of `s`. */
  function KeysBut(slots: seq<Slot>, s: Slot, day: nat): (keys: set<string>)
    ensures |keys| <= |slots|
  {
    var all := KeysOf(slots, t => ToKey(t, day), |slots|);
    all - {ToKey(s, day)}
  }

  /** All windows of the day have been executed but the one of `s`. */
  ghost predicate AllDoneBut(slots: seq<Slot>, s: Slot, day: nat, done: Done) {
    !done(s, day) && forall t :: t in slots && !SameIdAndHours(t, s) ==> done(t, day)
  }

  lemma KeysButLeaveOne(slots: seq<Slot>, s: Slot, day: nat)
    ensures AllDoneBut(slots, s, day, Executed(KeysBut(slots, s, day)))
  {
    var key: Slot -> string := t => ToKey(t, day);
    forall t | t in slots && !SameIdAndHours(t, s) ensures ToKey(t, day) in KeysBut(slots, s, day) {
      var i :| 0 <= i < |slots| && slots[i] == t;
      assert key(slots[i]) in KeysOf(slots, key, |slots|);
      KeysAreInjective(t, day, s, day);
    }
  }

  /** Then a pick that is not the window of `s` is of a later day. */
  lemma PicksLaterDay(slots: seq<Slot>, u: Slot, s: Slot, day: nat, done: Done, now: nat, r: Pick)
    requires Crossing(slots, u, s, day) && AllDoneBut(slots, s, day, done) && now + 1 == WindowStart(u, day)
    requires r.Picked? && IsPending(slots, done, now, r) && !(r.day == day && SameIdAndHours(r.slot, s))
    ensures !NoneSkipped(slots, done, now, r)
  {
    InsideItsDay(r.slot, r.day);
    InsideItsDay(u, day);
    InsideItsDay(s, day);
    assert r.day > day;
    assert WindowStart(r.slot, r.day) > WindowStart(s, day);
  }

  lemma LosingAvoids(slots: seq<Slot>, u: Slot, s: Slot, day: nat, lookahead: nat)
    requires Crossing(slots, u, s, day)
    ensures Avoids(Losing(slots, s, day), slots, u, s, day, lookahead)
  {
    forall probe: nat | Probes(u, day, probe)
      ensures var r := PickFrom(Losing(slots, s, day), slots, probe, lookahead, 0);
              r.Picked? ==> !(r.day == day && SameIdAndHours(r.slot, s)) && Probes(u, day, WindowEnd(r.slot, r.day) + 1)
    {
      NotPicked(slots, u, s, day, lookahead, probe, PickFrom(Losing(slots, s, day), slots, probe, lookahead, 0));
    }
  }

  lemma AvoidingLoses(rnd: Random, slots: seq<Slot>, u: Slot, s: Slot, day: nat, keys: set<string>, lookahead: nat,
                      now: nat)
    requires Crossing(slots, u, s, day) && now + 1 == WindowStart(u, day)
    requires NeverEnds(slots, lookahead) && |keys| <= |slots| * lookahead
    requires Avoids(rnd, slots, u, s, day, lookahead) && AllDoneBut(slots, s, day, Executed(keys))
    ensures !SkipsNone(rnd, slots, keys, lookahead, now)
  {
    NextPendingIsFound(rnd, slots, keys, lookahead, now);
    NextPendingIsPending(rnd, slots, keys, lookahead, now);
    NeverPicked(rnd, slots, u, s, day, Executed(keys), lookahead, now, Rounds(slots, lookahead));
    PicksLaterDay(slots, u, s, day, Executed(keys), now, NextPending(rnd, slots, Executed(keys), lookahead, now));
  }

  lemma CrossingLoses(slots: seq<Slot>, u: Slot, s: Slot, day: nat, lookahead: nat)
    requires AllValid(slots) && lookahead >= 8 && day >= 1 && Crossing(slots, u, s, day) && HasWeekday(s)
    ensures !SkipsNone(Losing(slots, s, day), slots, KeysBut(slots, s, day), lookahead, WindowStart(u, day) - 1)
  {
    var keys := KeysBut(slots, s, day);
    KeysButLeaveOne(slots, s, day);
    AtMostTimes(|keys|, |slots|, lookahead);
    LosingAvoids(slots, u, s, day, lookahead);
    AvoidingLoses(Losing(slots, s, day), slots, u, s, day, keys, lookahead, WindowStart(u, day) - 1);
  }

  lemma AtMostTimes(k: nat, n: nat, m: nat)
    requires k <= n && m >= 1
    ensures k <= n * m
  {
    assert n * m == n + n * (m - 1);
  }

  /** Two windows on one weekday that are not separated cross on some day. */
  lemma NotApart(slots: seq<Slot>) returns (u: Slot, s: Slot, day: nat)
    requires AllValid(slots) && !Separated(slots)
    ensures day >= 1 && Crossing(slots, u, s, day) && HasWeekday(s)
  {
    var i, j :| 0 <= i < j < |slots| && !Apart(slots[i], slots[j]);
    u, s := slots[i], slots[j];
    if StartOf(u) > StartOf(s) { u, s := s, u; }
    var w :| 0 <= w < 7 && w in u.days && w in s.days;
    day := 7 + w;
    assert Weekday(day) == w;
  }

  /** No window is ever skipped, whatever is drawn and whatever has been executed, if and
      only if windows on one weekday are separated. */
  lemma NoneIsSkippedIffSeparated(slots: seq<Slot>, lookahead: nat)
    requires AllValid(slots) && lookahead >= 8
    ensures Separated(slots) <==>
            forall rnd: Random, keys: set<string>, now: nat :: SkipsNone(rnd, slots, keys, lookahead, now)
  {
    if Separated(slots) {
      forall rnd: Random, keys: set<string>, now: nat ensures SkipsNone(rnd, slots, keys, lookahead, now) {
        NextPendingIsPending(rnd, slots, keys, lookahead, now);
      }
    } else {
      var u, s, day := NotApart(slots);
      CrossingLoses(slots, u, s, day, lookahead);
    }
  }

  // ---------------------------------------------------------------- windows picked again

  ghost predicate Picks(rnd: Random, slots: seq<Slot>, keys: set<string>, lookahead: nat, now: nat, s: Slot, day: nat) {
    var r := NextPending(rnd, slots, Executed(keys), lookahead, now);
    r.Picked? && r.day == day && SameIdAndHours(r.slot, s)
  }

  /** Draws that pick the open window of `s`: a second from now; other open windows draw
      this very second, which is dropped, and those to come draw late. */
  function Hasty(slots: seq<Slot>, s: Slot): Random {
    (probe, d, i) => HastyDraw(slots, s, probe, d, i)
  }

  function HastyDraw(slots: seq<Slot>, s: Slot, probe: nat, d: nat, i: nat): nat {
    if i >= |slots| then 0
    else if slots[i] == s then 1
    else if probe >= WindowStart(slots[i], d) then 0
    else EndOf(slots[i])
  }

  lemma HastyPicksSoonest(slots: seq<Slot>, s: Slot, day: nat, now: nat, i: nat, c: Pick)
    requires i < |slots| && Offers(Hasty(slots, s), slots, now, day, i, c) && c.at <= now + 1
    requires Window(slots, s, day) && WindowStart(s, day) <= now && now + 1 < WindowEnd(s, day)
    ensures slots[i] == s
  {
    InsideItsDay(s, day);
    FullMinutes(slots[i], day);
  }

  lemma OpenWindowIsPicked(slots: seq<Slot>, s: Slot, day: nat, lookahead: nat, now: nat)
    requires AllValid(slots) && lookahead >= 1 && Window(slots, s, day)
    requires WindowStart(s, day) <= now && now + 1 < WindowEnd(s, day)
    ensures PickFrom(Hasty(slots, s), slots, now, lookahead, 0) == Picked(now + 1, s, day)
  {
    var rnd := Hasty(slots, s);
    InsideItsDay(s, day);
    assert DayOf(now) == day;
    var j :| 0 <= j < |slots| && slots[j] == s;
    var c := Picked(now + 1, s, day);
    assert Offers(rnd, slots, now, day, j, c);
    CandidatesAreOffers(rnd, slots, now, day, |slots|);
    assert c in Candidates(rnd, slots, now, day, |slots|).value;
    var r := PickFrom(rnd, slots, now, lookahead, 0);
    var i := PickIsOffered(rnd, slots, now, lookahead);
    HastyPicksSoonest(slots, s, day, now, i, r);
  }

  lemma ForgottenIsPicked(slots: seq<Slot>, s: Slot, day: nat, keys: set<string>, lookahead: nat, now: nat)
    requires AllValid(slots) && lookahead >= 1 && Window(slots, s, day)
    requires WindowStart(s, day) <= now && now + 1 < WindowEnd(s, day)
    requires ToKey(s, day) !in keys
    ensures Picks(Hasty(slots, s), slots, keys, lookahead, now, s, day)
  {
    OpenWindowIsPicked(slots, s, day, lookahead, now);
    FirstPickIsNext(Hasty(slots, s), slots, Executed(keys), lookahead, now, Picked(now + 1, s, day));
  }

  lemma AlikeWhetherDone(keys: set<string>, s: Slot, t: Slot, day: nat)
    requires SameIdAndHours(s, t)
    ensures Executed(keys)(t, day) == (ToKey(s, day) in keys)
  {
    KeysAreInjective(s, day, t, day);
  }

  lemma FirstPickIsNext(rnd: Random, slots: seq<Slot>, done: Done, lookahead: nat, now: nat, r: Pick)
    requires r == PickFrom(rnd, slots, now, lookahead, 0) && r.Picked? && !done(r.slot, r.day)
    ensures NextPending(rnd, slots, done, lookahead, now) == r
  {
  }

  lemma RecordedIsNotPicked(rnd: Random, slots: seq<Slot>, s: Slot, day: nat, keys: set<string>, lookahead: nat,
                            now: nat)
    requires ToKey(s, day) in keys
    ensures !Picks(rnd, slots, keys, lookahead, now, s, day)
  {
    NextPendingIsPending(rnd, slots, keys, lookahead, now);
    var r := NextPending(rnd, slots, Executed(keys), lookahead, now);
    if r.Picked? && SameIdAndHours(r.slot, s) { AlikeWhetherDone(keys, s, r.slot, day); }
  }

  /** A window that was run and recorded can be picked again while it is open if and only
      if the UTC date at the time of recording was already past its day. */
  lemma RunsAgainIffUtcIsAhead(slots: seq<Slot>, s: Slot, day: nat, executed: map<string, int>, today: nat,
                               lookahead: nat,
                               now: nat)
    requires AllValid(slots) && lookahead >= 1 && Window(slots, s, day)
    requires WindowStart(s, day) <= now && now + 1 < WindowEnd(s, day)
    requires DateOf(day).year <= 9999 && DateOf(today).year <= 9999 && ToKey(s, day) in executed
    ensures var keys := Kept(executed, Iso(DateOf(today))).Keys;
            (exists rnd: Random :: Picks(rnd, slots, keys, lookahead, now, s, day)) <==> today > day
  {
    var keys := Kept(executed, Iso(DateOf(today))).Keys;
    PruningKeepsTodayAndLater(executed, s, day, today);
    if today > day {
      ForgottenIsPicked(slots, s, day, keys, lookahead, now);
    } else {
      forall rnd: Random ensures !Picks(rnd, slots, keys, lookahead, now, s, day) {
        RecordedIsNotPicked(rnd, slots, s, day, keys, lookahead, now);
      }
    }
  }

  // ---------------------------------------------------------------- the iteration bound

  /** The windows a search comes by when all it meets are executed. */
  function PassedBy(rnd: Random, slots: seq<Slot>, lookahead: nat, probe: nat, n: nat): (windows: seq<(Slot, nat)>)
    ensures |windows| <= n
    decreases n
  {
    if n == 0 then []
    else
      var r := PickFrom(rnd, slots, probe, lookahead, 0);
      if !r.Picked? then []
      else [(r.slot, r.day)] + PassedBy(rnd, slots, lookahead, WindowEnd(r.slot, r.day) + 1, n - 1)
  }

  ghost predicate AllDone(done: Done, windows: seq<(Slot, nat)>) {
    forall i :: 0 <= i < |windows| ==> done(windows[i].0, windows[i].1)
  }

  lemma {:induction false} SearchUsedUp(rnd: Random, slots: seq<Slot>, done: Done, lookahead: nat, probe: nat, n: nat)
    requires NeverEnds(slots, lookahead) && AllDone(done, PassedBy(rnd, slots, lookahead, probe, n))
    ensures !Search(rnd, slots, done, lookahead, probe, n).Picked?
    decreases n
  {
    if n > 0 {
      AlwaysPicks(rnd, slots, lookahead, probe);
      var r := PickFrom(rnd, slots, probe, lookahead, 0);
      var later := WindowEnd(r.slot, r.day) + 1;
      var windows, rest := PassedBy(rnd, slots, lookahead, probe, n), PassedBy(rnd, slots, lookahead, later, n - 1);
      assert windows == [(r.slot, r.day)] + rest;
      assert done(windows[0].0, windows[0].1);
      forall i | 0 <= i < |rest| ensures done(rest[i].0, rest[i].1) { assert rest[i] == windows[i + 1]; }
      SearchUsedUp(rnd, slots, done, lookahead, later, n - 1);
    }
  }

  function WindowKeys(windows: seq<(Slot, nat)>): (keys: set<string>)
    ensures |keys| <= |windows|
  {
    if windows == [] then {} else WindowKeys(windows[1..]) + {ToKey(windows[0].0, windows[0].1)}
  }

  lemma {:induction false} KeyOfWindow(windows: seq<(Slot, nat)>, i: nat)
    requires i < |windows|
    ensures ToKey(windows[i].0, windows[i].1) in WindowKeys(windows)
  {
    if i > 0 { KeyOfWindow(windows[1..], i - 1); }
  }

  /** Executed windows for which a search of so many rounds finds nothing. */
  lemma NotFoundBeyond(rnd: Random, slots: seq<Slot>, lookahead: nat, now: nat, n: nat) returns (keys: set<string>)
    requires NeverEnds(slots, lookahead)
    ensures |keys| <= n && !Search(rnd, slots, Executed(keys), lookahead, now, n).Picked?
  {
    var windows := PassedBy(rnd, slots, lookahead, now, n);
    keys := WindowKeys(windows);
    forall i | 0 <= i < |windows| ensures Executed(keys)(windows[i].0, windows[i].1) { KeyOfWindow(windows, i); }
    SearchUsedUp(rnd, slots, Executed(keys), lookahead, now, n);
  }

  ghost predicate FindsAll(rnd: Random, slots: seq<Slot>, lookahead: nat, now: nat, m: nat) {
    forall keys :: |keys| <= m ==> NextPending(rnd, slots, Executed(keys), lookahead, now).Picked?
  }

  /** With a usable plan, a search finds a pending window for every executed set of at most
      `m` keys if and only if `m` is within the iteration bound. */
  lemma FoundIffWithinBound(rnd: Random, slots: seq<Slot>, lookahead: nat, now: nat, m: nat)
    requires NeverEnds(slots, lookahead)
    ensures FindsAll(rnd, slots, lookahead, now, m) <==> m <= |slots| * lookahead
  {
    if m <= |slots| * lookahead {
      forall keys | |keys| <= m ensures NextPending(rnd, slots, Executed(keys), lookahead, now).Picked? {
        NextPendingIsFound(rnd, slots, keys, lookahead, now);
      }
    } else {
      var keys := NotFoundBeyond(rnd, slots, lookahead, now, Rounds(slots, lookahead));
      assert !NextPending(rnd, slots, Executed(keys), lookahead, now).Picked?;
    }
  }
}
