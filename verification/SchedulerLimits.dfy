/** Exactly when the loop may let a slot key succeed twice: when the UTC date can be ahead
    of the local one. */
module SchedulerLimits {
  import opened Wrappers
  import opened SlotKeys
  import opened StateStore
  import opened Planner
  import opened PlannerLimits
  import opened Scheduler

  /** A round in which nothing stands in the way, nothing takes time, the task succeeds,
      and the open window of `s` is drawn. */
  function Rerun(slots: seq<Slot>, s: Slot, ahead: int): Round {
    Round(0, 0, 0, ahead, Hasty(slots, s), Up, Up, false, [], [], [], Interpreter.Ended(true, "", "", None))
  }

  /** An open window of `s`, its key not recorded. */
  ghost predicate Open(plan: Plan, s: Slot, day: nat, key: string, st: State) {
    && AllValid(plan.slots) && Window(plan.slots, s, day)
    && (forall t :: t in plan.slots ==> t.scenario in plan.scenarios)
    && WindowStart(s, day) <= st.clock && st.clock + 1 < WindowEnd(s, day)
    && key !in st.executed
  }

  /** One more success of the key, which is pruned as it is recorded. */
  ghost predicate RanUnseen(key: string, st: State, st': State) {
    st'.clock == st.clock + 1 && key !in st'.executed && SucceededOnceMore(key, st.history, st'.history)
  }

  ghost predicate SucceededOnceMore(key: string, before: seq<Record>, after: seq<Record>) {
    exists line: Record :: after == before + [line] && line.success && line.key == key
  }

  lemma {:induction false} YearsAreShort(n: nat)
    ensures DateOf(n).year <= n + 1
  {
    if n > 0 { YearsAreShort(n - 1); }
  }

  lemma DayBefore(day: nat, later: nat)
    requires day < later && DateOf(later).year <= 9999
    ensures DateOf(day).year <= 9999
  {
    DatesGrow(day, later);
  }

  /** The key of a window that is over by the UTC date is pruned as it is recorded. */
  lemma RecordedAndPruned(s: Slot, day: nat, executed: map<string, int>, at: int, ahead: int)
    requires ahead > 0 && DateOf(day + ahead).year <= 9999
    ensures ToKey(s, day) !in Kept(executed[ToKey(s, day) := at], Iso(DateOf(day + ahead)))
  {
    DayBefore(day, day + ahead);
    PruningKeepsTodayAndLater(executed[ToKey(s, day) := at], s, day, day + ahead);
  }

  /** The result of a pick, recorded on its own day. */
  lemma ResultUnseen(r: Pick, ahead: int, end: Interpreter.TaskEnd, st: State)
    requires r.Picked? && ahead > 0 && DayOf(st.clock) == r.day && DateOf(r.day + ahead).year <= 9999
    requires end.Ended? && end.success
    ensures var st' := HandleResult(r, st.clock, end, ahead, st);
            && st'.clock == st.clock && ToKey(r.slot, r.day) !in st'.executed
            && st'.history == st.history + [ResultLine(r, st.clock, end)]
  {
    RecordedAndPruned(r.slot, r.day, st.executed, st.clock, ahead);
  }

  lemma RunsUnseen(slots: seq<Slot>, s: Slot, ahead: int, r: Pick, key: string, needsNetwork: bool, st: State)
    requires r.Picked? && DayOf(st.clock) == r.day && ahead > 0 && DateOf(r.day + ahead).year <= 9999
    requires key == ToKey(r.slot, r.day) && key !in st.executed
    ensures var (st', pass) := RunPicked(r, needsNetwork, Rerun(slots, s, ahead), false, st);
            && pass.Continue? && st'.clock == st.clock && key !in st'.executed
            && SucceededOnceMore(key, st.history, st'.history)
  {
    var round := Rerun(slots, s, ahead);
    var running := Running(key, round, st);
    assert MarkAll([], st) == st;
    ResultUnseen(r, ahead, round.end, running);
  }

  lemma ProceedsUnseen(slots: seq<Slot>, s: Slot, ahead: int, r: Pick, key: string, needsNetwork: bool, st: State)
    requires r.Picked? && r.at == st.clock + 1 && DayOf(r.at) == r.day
    requires ahead > 0 && DateOf(r.day + ahead).year <= 9999
    requires key == ToKey(r.slot, r.day) && key !in st.executed
    ensures var (st', pass) := Proceed(r, needsNetwork, Rerun(slots, s, ahead), false, st);
            pass.Continue? && RanUnseen(key, st, st')
  {
    var round := Rerun(slots, s, ahead);
    var waited := WaitFor(r, round, Announce(key, false, st.(alertSentAt := None)));
    assert MarkAll([], waited) == waited && waited.clock == st.clock + 1 && waited.history == st.history;
    RunsUnseen(slots, s, ahead, r, key, needsNetwork, waited);
  }

  /** The planner picks the open window. */
  lemma ChoosesOpen(plan: Plan, s: Slot, day: nat, ahead: int, key: string, st: State)
    requires key == ToKey(s, day) && Open(plan, s, day, key, st)
    ensures var round := Rerun(plan.slots, s, ahead);
            Choice(plan, round, Planning(round, st)) == Picked(st.clock + 1, s, day) && DayOf(st.clock + 1) == day
  {
    var rnd := Hasty(plan.slots, s);
    OpenWindowIsPicked(plan.slots, s, day, 10, st.clock);
    NotYetDone(s, day, key, st.executed);
    FirstPickIsNext(rnd, plan.slots, Executed(st.executed.Keys), 10, st.clock, Picked(st.clock + 1, s, day));
    NextSecondIsInside(s, day, st.clock);
  }

  lemma NextSecondIsInside(s: Slot, day: nat, now: nat)
    requires ValidClock(s) && WindowStart(s, day) <= now + 1 < WindowEnd(s, day)
    ensures DayOf(now + 1) == day
  {
    InsideItsDay(s, day);
  }

  lemma NotYetDone(s: Slot, day: nat, key: string, executed: map<string, int>)
    requires key == ToKey(s, day) && key !in executed
    ensures !Executed(executed.Keys)(s, day)
  {
  }

  lemma PassRunsUnseen(plan: Plan, s: Slot, day: nat, ahead: int, key: string, st: State) returns (st': State)
    requires key == ToKey(s, day) && Open(plan, s, day, key, st) && ahead > 0 && DateOf(day + ahead).year <= 9999
    ensures OnePass(plan, Rerun(plan.slots, s, ahead), false, st) == (st', Continue) && RanUnseen(key, st, st')
  {
    ChoosesOpen(plan, s, day, ahead, key, st);
    PassProceeds(plan, Picked(st.clock + 1, s, day), Rerun(plan.slots, s, ahead), st);
    st' := PlannedRunsUnseen(plan, s, day, ahead, key, st);
  }

  lemma PassProceeds(plan: Plan, r: Pick, round: Round, st: State)
    requires r == Choice(plan, round, Planning(round, st))
    requires r.Picked? && r.slot.scenario in plan.scenarios && round.network.Up?
    ensures OnePass(plan, round, false, st)
         == Proceed(r, plan.scenarios[r.slot.scenario], round, false, Planning(round, st))
  {
  }

  lemma PlannedRunsUnseen(plan: Plan, s: Slot, day: nat, ahead: int, key: string, st: State) returns (st': State)
    requires s.scenario in plan.scenarios && key == ToKey(s, day) && key !in st.executed
    requires DayOf(st.clock + 1) == day && ahead > 0 && DateOf(day + ahead).year <= 9999
    ensures var round, r := Rerun(plan.slots, s, ahead), Picked(st.clock + 1, s, day);
            Proceed(r, plan.scenarios[s.scenario], round, false, Planning(round, st)) == (st', Continue)
    ensures RanUnseen(key, st, st')
  {
    var round, r := Rerun(plan.slots, s, ahead), Picked(st.clock + 1, s, day);
    var planned := Planning(round, st);
    ProceedsUnseen(plan.slots, s, ahead, r, key, plan.scenarios[s.scenario], planned);
    st' := Proceed(r, plan.scenarios[s.scenario], round, false, planned).0;
  }

  lemma TwoPasses(plan: Plan, round: Round, st: State, st1: State, st2: State)
    requires OnePass(plan, round, false, st) == (st1, Continue) && OnePass(plan, round, false, st1) == (st2, Continue)
    ensures Run(plan, [round, round], false, st) == (st2, None)
  {
    assert [round, round][1..] == [round] && [round][1..] == [];
    assert Run(plan, [], false, st2) == (st2, None);
    assert Run(plan, [round], false, st1) == (st2, None);
  }

  /** Two rounds in one open window: its key succeeds twice. */
  lemma SucceedsTwice(plan: Plan, s: Slot, day: nat, ahead: int, key: string, st: State) returns (st2: State)
    requires key == ToKey(s, day) && Open(plan, s, day, key, st) && st.clock + 2 < WindowEnd(s, day) && st.history == []
    requires ahead > 0 && DateOf(day + ahead).year <= 9999
    ensures var round := Rerun(plan.slots, s, ahead); Run(plan, [round, round], false, st) == (st2, None)
    ensures !AtMostOnce(st2.history) && DayOf(st2.clock) == day
  {
    var st1 := PassRunsUnseen(plan, s, day, ahead, key, st);
    st2 := PassRunsUnseen(plan, s, day, ahead, key, st1);
    TwoPasses(plan, Rerun(plan.slots, s, ahead), st, st1, st2);
    TwoSuccesses(key, st, st1, st2);
    InsideItsDay(s, day);
  }

  lemma TwoSuccesses(key: string, st: State, st1: State, st2: State)
    requires st.history == [] && RanUnseen(key, st, st1) && RanUnseen(key, st1, st2)
    ensures !AtMostOnce(st2.history)
  {
    assert st2.history[0] == st1.history[0];
    assert st2.history[0].key == st2.history[1].key;
  }

  /** The loop never lets a key succeed twice, started on an empty store at any time, while
      the UTC date is at most so many days ahead when slots are marked. */
  ghost predicate NeverTwice(plan: Plan, ahead: int) {
    forall rounds: seq<Round>, clock: nat | AheadAtMost(rounds, ahead) :: OnceEach(plan, rounds, clock)
  }

  ghost predicate AheadAtMost(rounds: seq<Round>, ahead: int) {
    forall i :: 0 <= i < |rounds| ==>
      && rounds[i].utcAhead <= ahead
      && MarksAtMost(rounds[i].marksBefore, ahead) && MarksAtMost(rounds[i].marksWaiting, ahead)
      && MarksAtMost(rounds[i].marksRunning, ahead)
  }

  predicate MarksAtMost(marks: seq<Marking>, ahead: int) {
    forall i :: 0 <= i < |marks| ==> marks[i].utcAhead <= ahead
  }

  function Started(clock: nat): State {
    State(map[], clock, [], None, None, None, "starting")
  }

  ghost predicate OnceEach(plan: Plan, rounds: seq<Round>, clock: nat) {
    var st := Run(plan, rounds, false, Started(clock)).0; FourDigits(st.clock) ==> AtMostOnce(st.history)
  }

  /** For every usable plan: no slot key ever succeeds twice if and only if the UTC date is
      never ahead. */
  lemma NeverTwiceIffNotAhead(plan: Plan, ahead: int)
    requires AllValid(plan.slots) && Usable(plan.slots) && forall t :: t in plan.slots ==> t.scenario in plan.scenarios
    ensures NeverTwice(plan, ahead) <==> ahead <= 0
  {
    if ahead <= 0 {
      forall rounds: seq<Round>, clock: nat | AheadAtMost(rounds, ahead) ensures OnceEach(plan, rounds, clock) {
        forall i | 0 <= i < |rounds| ensures NotAhead(rounds[i]) {}
        NeverSucceedsTwice(plan, rounds, false, Started(clock));
      }
    } else {
      var rounds, clock := TwiceWhenAhead(plan);
      assert AheadAtMost(rounds, ahead);
    }
  }

  lemma TwiceWhenAhead(plan: Plan) returns (rounds: seq<Round>, clock: nat)
    requires AllValid(plan.slots) && Usable(plan.slots) && forall t :: t in plan.slots ==> t.scenario in plan.scenarios
    ensures AheadAtMost(rounds, 1) && !OnceEach(plan, rounds, clock)
  {
    var s, day := OpensWithinAWeek(plan.slots, 0);
    clock := WindowStart(s, day);
    rounds := [Rerun(plan.slots, s, 1), Rerun(plan.slots, s, 1)];
    TwiceInWindow(plan, s, day);
  }

  lemma TwiceInWindow(plan: Plan, s: Slot, day: nat)
    requires AllValid(plan.slots) && Window(plan.slots, s, day) && day < 8
    requires forall t :: t in plan.slots ==> t.scenario in plan.scenarios
    ensures var round := Rerun(plan.slots, s, 1); !OnceEach(plan, [round, round], WindowStart(s, day))
  {
    var key, st, round := ToKey(s, day), Started(WindowStart(s, day)), Rerun(plan.slots, s, 1);
    YearsAreShort(day + 1);
    LongWindow(s, day);
    assert Open(plan, s, day, key, st);
    var st2 := SucceedsTwice(plan, s, day, 1, key, st);
    NotOnce(plan, [round, round], st, st2, day);
  }

  lemma NotOnce(plan: Plan, rounds: seq<Round>, st: State, st2: State, day: nat)
    requires st == Started(st.clock) && Run(plan, rounds, false, st) == (st2, None)
    requires !AtMostOnce(st2.history) && DayOf(st2.clock) == day && DateOf(day + 1).year <= 9999
    ensures !OnceEach(plan, rounds, st.clock)
  {
    DayBefore(day, day + 1);
  }

  lemma LongWindow(s: Slot, day: nat)
    requires StartOf(s) < EndOf(s)
    ensures WindowStart(s, day) + 2 < WindowEnd(s, day)
  {
    FullMinutes(s, day);
  }
}
