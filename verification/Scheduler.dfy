/** The scheduler loop (scheduler/service.py) over the planner and the executed-slot
    store: what one pass does, as a function of the state before, and what any run of the
    loop keeps: no slot key ever succeeds twice. */
module Scheduler {
  import opened Wrappers
  import opened SlotKeys
  import opened StateStore
  import opened Planner
  import Interpreter

  /** A line of the run history. */
  datatype Record = Record(
    key: string, slotId: string, scenarioId: string, executedAt: nat, success: bool, step: string)

  datatype NextExecution = NextExecution(key: string, status: string)

  datatype NetworkCheck = Up | Down | CheckRaises

  /** What the world does during one pass of the loop: how long things take, what is
      drawn, the network before and after the wait, whether notifying raises, which keys
      other commands mark as executed before planning, while the loop waits and while the
      task runs, how the task ends, and by how many days
      the UTC date is ahead of the local date when a success is marked. */
  datatype Round = Round(
    beforePlan: nat, beforeRun: nat, running: nat, utcAhead: int, rnd: Random, network: NetworkCheck,
    networkAgain: NetworkCheck, notifyRaises: bool, marksBefore: seq<Marking>, marksWaiting: seq<Marking>,
    marksRunning: seq<Marking>, end: Interpreter.TaskEnd)

  /** A key another command marks, the UTC date being that many days ahead. */
  datatype Marking = Marking(key: string, utcAhead: int)

  /** How a pass ends: the loop goes on, after an exception or not, or returns. */
  datatype Pass = Continue | Caught | Return(code: int)

  /** The slots, which scenarios there are and whether they require the enterprise
      network, and the seconds between network alerts. */
  datatype Plan = Plan(slots: seq<Slot>, scenarios: map<string, bool>, alertCooldown: int)

  datatype State = State(
    executed: map<string, int>, clock: nat, history: seq<Record>, nextExecution: Option<NextExecution>,
    alertSentAt: Option<nat>, lastPlanned: Option<string>, heartbeat: string)

  // ---------------------------------------------------------------- one pass

  function Later(seconds: nat, st: State): State {
    st.(clock := st.clock + seconds)
  }

  /** The UTC date: in the program's time zones the local one, the day before or the day
      after. */
  function UtcDay(clock: nat, ahead: int): (day: nat)
    ensures ahead <= 0 ==> day <= DayOf(clock)
  {
    if DayOf(clock) + ahead > 0 then DayOf(clock) + ahead else 0
  }

  function Mark(key: string, at: int, ahead: int, st: State): State {
    st.(executed := Kept(st.executed[key := at], Iso(DateOf(UtcDay(st.clock, ahead)))))
  }

  /** What other commands mark, one key after the other. */
  function MarkAll(marks: seq<Marking>, st: State): State {
    if marks == [] then st
    else
      var before, mark := MarkAll(marks[..|marks| - 1], st), marks[|marks| - 1];
      Mark(mark.key, before.clock, mark.utcAhead, before)
  }

  function Note(key: string, status: string, st: State): State {
    st.(nextExecution := Some(NextExecution(key, status)))
  }

  predicate AlertIsDue(plan: Plan, st: State) {
    st.alertSentAt.None? || st.clock - st.alertSentAt.value >= plan.alertCooldown
  }

  /** No network when planning: noted, and an alert sent unless there was one lately. */
  function Suspend(plan: Plan, key: string, raises: bool, st: State): (State, Pass) {
    var noted := Note(key, "blocked_no_network", st);
    if !AlertIsDue(plan, st) then (noted, Continue)
    else if raises then (noted, Caught)
    else (noted.(alertSentAt := Some(st.clock)), Continue)
  }

  /** A newly planned slot is noted and announced, once per key in a row. */
  function Announce(key: string, raises: bool, st: State): State {
    if st.lastPlanned == Some(key) then st
    else if raises then Note(key, "planned", st)
    else Note(key, "planned", st).(lastPlanned := Some(key))
  }

  function ResultLine(r: Pick, started: nat, end: Interpreter.TaskEnd): Record
    requires r.Picked? && end.Ended?
  {
    Record(ToKey(r.slot, r.day), r.slot.id, r.slot.scenario, started, end.success, end.step)
  }

  /** `_handle_task_result`. */
  function HandleResult(r: Pick, started: nat, end: Interpreter.TaskEnd, ahead: int, st: State): State
    requires r.Picked? && end.Ended?
  {
    var st' := if end.success then Mark(ToKey(r.slot, r.day), started, ahead, st).(nextExecution := None)
               else Note(ToKey(r.slot, r.day), "failed", st);
    st'.(history := st.history + [ResultLine(r, started, end)])
  }

  /** The task has run. */
  function Running(key: string, round: Round, st: State): State {
    MarkAll(round.marksRunning, Later(round.running, Note(key, "running", st).(heartbeat := "running")))
  }

  /** The pass once the picked instant has come. */
  function RunPicked(r: Pick, needsNetwork: bool, round: Round, once: bool, st: State): (State, Pass)
    requires r.Picked?
  {
    var key := ToKey(r.slot, r.day);
    if key in st.executed then (st.(nextExecution := None), Continue)
    else if needsNetwork && round.networkAgain.CheckRaises? then (st, Caught)
    else if needsNetwork && round.networkAgain.Down? then
      (Note(key, "blocked_no_network", st), if once then Return(2) else Continue)
    else
      var running := Running(key, round, st);
      if round.end.Escaped? then (running, Caught)
      else
        (HandleResult(r, st.clock, round.end, round.utcAhead, running).(heartbeat := "planning"),
         if once then Return(if round.end.success then 0 else 2) else Continue)
  }

  function WaitFor(r: Pick, round: Round, st: State): State
    requires r.Picked?
  {
    Later(round.beforeRun + if st.clock < r.at then r.at - st.clock else 0, st)
  }

  function Planning(round: Round, st: State): State {
    MarkAll(round.marksBefore, Later(round.beforePlan, st)).(heartbeat := "planning")
  }

  /** `choose_next_slot`. */
  function Choice(plan: Plan, round: Round, st: State): Pick {
    NextPending(round.rnd, plan.slots, Executed(st.executed.Keys), 10, st.clock)
  }

  /** The pass once a slot is chosen. */
  function Proceed(r: Pick, needsNetwork: bool, round: Round, once: bool, st: State): (State, Pass)
    requires r.Picked?
  {
    var key := ToKey(r.slot, r.day);
    var announced := Announce(key, round.notifyRaises, st.(alertSentAt := None));
    if announced.lastPlanned != Some(key) then (announced, Caught)
    else RunPicked(r, needsNetwork, round, once, MarkAll(round.marksWaiting, WaitFor(r, round, announced)))
  }

  function OnePass(plan: Plan, round: Round, once: bool, before: State): (State, Pass) {
    var st := Planning(round, before);
    AfterChoice(plan, Choice(plan, round, st), round, once, st)
  }

  function AfterChoice(plan: Plan, r: Pick, round: Round, once: bool, st: State): (State, Pass) {
    if !r.Picked? || r.slot.scenario !in plan.scenarios then (st, Caught)
    else
      var needsNetwork := plan.scenarios[r.slot.scenario];
      if needsNetwork && round.network.CheckRaises? then (st, Caught)
      else if needsNetwork && round.network.Down? then Suspend(plan, ToKey(r.slot, r.day), round.notifyRaises, st)
      else Proceed(r, needsNetwork, round, once, st)
  }

  /** Any number of passes, up to the one that returns. */
  function Run(plan: Plan, rounds: seq<Round>, once: bool, st: State): (State, Option<int>) {
    if rounds == [] then (st, None)
    else
      var (st', pass) := OnePass(plan, rounds[0], once, st);
      if pass.Return? then (st', Some(pass.code)) else Run(plan, rounds[1..], once, st')
  }

  // ---------------------------------------------------------------- what a run keeps

  predicate FourDigits(t: nat) {
    DateOf(DayOf(t)).year <= 9999
  }

  lemma FourDigitsBefore(t: nat, u: nat)
    requires t <= u && FourDigits(u)
    ensures FourDigits(t)
  {
    if DayOf(t) < DayOf(u) { DatesGrow(DayOf(t), DayOf(u)); }
  }

  /** A key that will never be picked again: recorded as executed, or of a day that is
      over. */
  ghost predicate Settled(key: string, executed: set<string>, clock: nat) {
    exists s, day: nat :: SettledAs(key, s, day, executed, clock)
  }

  ghost predicate SettledAs(key: string, s: Slot, day: nat, executed: set<string>, clock: nat) {
    key == ToKey(s, day) && DateOf(day).year <= 9999 && (key in executed || day < DayOf(clock))
  }

  /** All successes so far are settled. */
  ghost predicate AllSettled(history: seq<Record>, executed: set<string>, clock: nat) {
    forall i :: 0 <= i < |history| && history[i].success ==> Settled(history[i].key, executed, clock)
  }

  /** No key has two successes. */
  ghost predicate AtMostOnce(history: seq<Record>) {
    forall i, j :: 0 <= i < j < |history| && history[i].success && history[j].success ==>
      history[i].key != history[j].key
  }

  ghost predicate NeverSucceeded(history: seq<Record>, key: string) {
    forall i :: 0 <= i < |history| && history[i].success ==> history[i].key != key
  }

  /** What every pass of the loop keeps. */
  ghost predicate Sound(st: State) {
    FourDigits(st.clock) ==> AllSettled(st.history, st.executed.Keys, st.clock) && AtMostOnce(st.history)
  }

  lemma StaysSettled(key: string, executed: set<string>, clock: nat, clock': nat)
    requires Settled(key, executed, clock) && clock <= clock'
    ensures Settled(key, executed, clock')
  {
    var s, day: nat :| SettledAs(key, s, day, executed, clock);
    assert SettledAs(key, s, day, executed, clock');
  }

  /** Time passes. */
  lemma LaterIsSound(seconds: nat, st: State)
    requires Sound(st)
    ensures Sound(Later(seconds, st))
  {
    var clock' := st.clock + seconds;
    if FourDigits(clock') {
      FourDigitsBefore(st.clock, clock');
      forall i | 0 <= i < |st.history| && st.history[i].success
        ensures Settled(st.history[i].key, st.executed.Keys, clock')
      {
        StaysSettled(st.history[i].key, st.executed.Keys, st.clock, clock');
      }
    }
  }

  /** A key picked as pending is none of the earlier successes. */
  lemma PickedIsNoSuccess(history: seq<Record>, executed: set<string>, clock: nat, slots: seq<Slot>, r: Pick)
    requires r.Picked? && IsPending(slots, Executed(executed), clock, r)
    requires AllSettled(history, executed, clock)
    ensures NeverSucceeded(history, ToKey(r.slot, r.day))
  {
    forall i | 0 <= i < |history| && history[i].success ensures history[i].key != ToKey(r.slot, r.day) {
      var s, day: nat :| SettledAs(history[i].key, s, day, executed, clock);
      KeysAreInjective(s, day, r.slot, r.day);
    }
  }

  /** Marking any key prunes by the UTC date, which is not ahead of the local date: every
      settled key stays settled. */
  lemma MarkingKeepsSettled(executed: map<string, int>, marked: string, at: int, clock: nat, today: nat, key: string)
    requires FourDigits(clock) && today <= DayOf(clock)
    requires Settled(key, executed.Keys, clock)
    ensures Settled(key, Kept(executed[marked := at], Iso(DateOf(today))).Keys, clock)
  {
    DayInRange(clock, today);
    var s, day: nat :| SettledAs(key, s, day, executed.Keys, clock);
    PruningKeepsTodayAndLater(executed[marked := at], s, day, today);
    assert SettledAs(key, s, day, Kept(executed[marked := at], Iso(DateOf(today))).Keys, clock);
  }

  /** The marked key itself is settled, unless it is of a day to come. */
  lemma MarkingSettles(executed: map<string, int>, s: Slot, day: nat, at: int, clock: nat, today: nat)
    requires FourDigits(clock) && today <= DayOf(clock) && day <= DayOf(clock)
    ensures Settled(ToKey(s, day), Kept(executed[ToKey(s, day) := at], Iso(DateOf(today))).Keys, clock)
  {
    DayInRange(clock, day);
    DayInRange(clock, today);
    PruningKeepsTodayAndLater(executed[ToKey(s, day) := at], s, day, today);
    assert SettledAs(ToKey(s, day), s, day, Kept(executed[ToKey(s, day) := at], Iso(DateOf(today))).Keys, clock);
  }

  lemma DayInRange(clock: nat, day: nat)
    requires FourDigits(clock) && day <= DayOf(clock)
    ensures DateOf(day).year <= 9999
  {
    if day < DayOf(clock) { DatesGrow(day, DayOf(clock)); }
  }

  /** Marking any key, here or by another command, keeps the loop sound. */
  lemma MarkingIsSound(key: string, at: int, ahead: int, st: State)
    requires Sound(st) && ahead <= 0
    ensures Sound(Mark(key, at, ahead, st))
  {
    forall i | FourDigits(st.clock) && 0 <= i < |st.history| && st.history[i].success
      ensures Settled(st.history[i].key, Mark(key, at, ahead, st).executed.Keys, st.clock)
    {
      MarkingKeepsSettled(st.executed, key, at, st.clock, UtcDay(st.clock, ahead), st.history[i].key);
    }
  }

  predicate NoneAhead(marks: seq<Marking>) {
    forall i :: 0 <= i < |marks| ==> marks[i].utcAhead <= 0
  }

  /** When slots are marked the UTC date is not ahead of the local one. */
  predicate NotAhead(round: Round) {
    && round.utcAhead <= 0
    && NoneAhead(round.marksBefore) && NoneAhead(round.marksWaiting) && NoneAhead(round.marksRunning)
  }

  lemma {:induction false} MarkAllIsSound(marks: seq<Marking>, st: State)
    requires Sound(st) && NoneAhead(marks)
    ensures var st' := MarkAll(marks, st);
            && Sound(st') && st'.history == st.history && st'.clock == st.clock
            && st'.lastPlanned == st.lastPlanned
  {
    if marks != [] {
      var before, mark := MarkAll(marks[..|marks| - 1], st), marks[|marks| - 1];
      MarkAllIsSound(marks[..|marks| - 1], st);
      MarkingIsSound(mark.key, before.clock, mark.utcAhead, before);
    }
  }

  lemma OneMoreSuccess(history: seq<Record>, record: Record, executed: set<string>, clock: nat)
    requires AllSettled(history, executed, clock) && AtMostOnce(history)
    requires NeverSucceeded(history, record.key) && Settled(record.key, executed, clock)
    ensures AllSettled(history + [record], executed, clock) && AtMostOnce(history + [record])
  {
    var history' := history + [record];
    forall i | 0 <= i < |history'| ensures history'[i] == if i < |history| then history[i] else record {}
  }

  /** A result for a key that never succeeded before keeps the loop sound. */
  lemma ResultIsSound(r: Pick, started: nat, end: Interpreter.TaskEnd, ahead: int, st: State)
    requires Sound(st) && r.Picked? && r.day <= DayOf(st.clock) && end.Ended? && ahead <= 0
    requires FourDigits(st.clock) ==> NeverSucceeded(st.history, ToKey(r.slot, r.day))
    ensures Sound(HandleResult(r, started, end, ahead, st))
  {
    if end.success && FourDigits(st.clock) {
      var key, executed := ToKey(r.slot, r.day), Mark(ToKey(r.slot, r.day), started, ahead, st).executed;
      MarkingIsSound(key, started, ahead, st);
      MarkingSettles(st.executed, r.slot, r.day, started, st.clock, UtcDay(st.clock, ahead));
      OneMoreSuccess(st.history, ResultLine(r, started, end), executed.Keys, st.clock);
    }
  }

  /** From the state before to the state after: sound, the clock not back, and at most one
      line more in the history. */
  ghost predicate GoesOn(st: State, st': State) {
    Sound(st') && st.clock <= st'.clock && st.history <= st'.history && |st'.history| <= |st.history| + 1
  }

  lemma RunPickedIsSound(r: Pick, needsNetwork: bool, round: Round, once: bool, st: State)
    requires Sound(st) && r.Picked? && r.day <= DayOf(st.clock) && NotAhead(round)
    requires FourDigits(st.clock) ==> NeverSucceeded(st.history, ToKey(r.slot, r.day))
    ensures GoesOn(st, RunPicked(r, needsNetwork, round, once, st).0)
  {
    var key := ToKey(r.slot, r.day);
    RunningIsSound(key, round, st);
    if round.end.Ended? { ResultIsSound(r, st.clock, round.end, round.utcAhead, Running(key, round, st)); }
  }

  lemma RunningIsSound(key: string, round: Round, st: State)
    requires Sound(st) && NotAhead(round)
    ensures var running := Running(key, round, st);
            && Sound(running) && running.history == st.history && st.clock <= running.clock
            && (FourDigits(running.clock) ==> FourDigits(st.clock))
  {
    var started := Note(key, "running", st).(heartbeat := "running");
    LaterIsSound(round.running, started);
    MarkAllIsSound(round.marksRunning, Later(round.running, started));
    if FourDigits(st.clock + round.running) { FourDigitsBefore(st.clock, st.clock + round.running); }
  }

  lemma ProceedIsSound(plan: Plan, r: Pick, needsNetwork: bool, round: Round, once: bool, st: State)
    requires Sound(st) && NotAhead(round) && r.Picked? && IsPending(plan.slots, Executed(st.executed.Keys), st.clock, r)
    ensures GoesOn(st, Proceed(r, needsNetwork, round, once, st).0)
  {
    if FourDigits(st.clock) { PickedIsNoSuccess(st.history, st.executed.Keys, st.clock, plan.slots, r); }
    var announced := Announce(ToKey(r.slot, r.day), round.notifyRaises, st.(alertSentAt := None));
    WaitingIsSound(r, round, announced);
    RunPickedIsSound(r, needsNetwork, round, once, MarkAll(round.marksWaiting, WaitFor(r, round, announced)));
  }

  lemma WaitingIsSound(r: Pick, round: Round, st: State)
    requires Sound(st) && r.Picked? && NotAhead(round)
    ensures var st' := MarkAll(round.marksWaiting, WaitFor(r, round, st));
            && Sound(st') && st'.history == st.history && st.clock <= st'.clock && r.at <= st'.clock
            && (FourDigits(st'.clock) ==> FourDigits(st.clock))
  {
    var waited := WaitFor(r, round, st);
    LaterIsSound(waited.clock - st.clock, st);
    MarkAllIsSound(round.marksWaiting, waited);
    if FourDigits(waited.clock) { FourDigitsBefore(st.clock, waited.clock); }
  }

  lemma OnePassIsSound(plan: Plan, round: Round, once: bool, before: State)
    requires Sound(before) && NotAhead(round)
    ensures GoesOn(before, OnePass(plan, round, once, before).0)
  {
    LaterIsSound(round.beforePlan, before);
    MarkAllIsSound(round.marksBefore, Later(round.beforePlan, before));
    var st := Planning(round, before);
    NextPendingIsPending(round.rnd, plan.slots, st.executed.Keys, 10, st.clock);
    AfterChoiceIsSound(plan, Choice(plan, round, st), round, once, st);
  }

  lemma SuspendIsSound(plan: Plan, key: string, raises: bool, st: State)
    requires Sound(st)
    ensures GoesOn(st, Suspend(plan, key, raises, st).0)
  {
  }

  lemma AfterChoiceIsSound(plan: Plan, r: Pick, round: Round, once: bool, st: State)
    requires Sound(st) && NotAhead(round)
    requires r.Picked? ==> IsPending(plan.slots, Executed(st.executed.Keys), st.clock, r)
    ensures GoesOn(st, AfterChoice(plan, r, round, once, st).0)
  {
    if r.Picked? && r.slot.scenario in plan.scenarios {
      SuspendIsSound(plan, ToKey(r.slot, r.day), round.notifyRaises, st);
      ProceedIsSound(plan, r, plan.scenarios[r.slot.scenario], round, once, st);
    }
  }

  /** In any run of the loop, of any length, no slot key succeeds twice, as long as dates
      have four-digit years and the UTC date is not ahead. */
  lemma {:induction false} NeverSucceedsTwice(plan: Plan, rounds: seq<Round>, once: bool, st: State)
    requires Sound(st) && forall i :: 0 <= i < |rounds| ==> NotAhead(rounds[i])
    ensures var st' := Run(plan, rounds, once, st).0;
            && Sound(st') && st.clock <= st'.clock && st.history <= st'.history
            && (FourDigits(st'.clock) ==> AtMostOnce(st'.history))
    decreases |rounds|
  {
    if rounds != [] {
      OnePassIsSound(plan, rounds[0], once, st);
      var (st', pass) := OnePass(plan, rounds[0], once, st);
      if !pass.Return? { NeverSucceedsTwice(plan, rounds[1..], once, st'); }
    }
  }

  /** A world in which nothing stands in the way of the next slot. */
  predicate Undisturbed(round: Round) {
    && round.network.Up? && round.networkAgain.Up? && !round.notifyRaises && round.end.Ended?
    && round.marksWaiting == round.marksRunning == []
  }

  /** The line a pass adds: the result of a window that was pending when planned, started
      in or after its window's picked instant; no pending window between separated ones
      came before it. */
  ghost predicate Runs(plan: Plan, round: Round, planned: State, r: Pick, st': State)
    requires round.end.Ended?
  {
    && r.Picked? && IsPending(plan.slots, Executed(planned.executed.Keys), planned.clock, r)
    && (Separated(plan.slots) ==> NoneSkipped(plan.slots, Executed(planned.executed.Keys), planned.clock, r))
    && exists started: nat :: started >= r.at && AddsResult(r, started, round.end, planned, st')
  }

  ghost predicate AddsResult(r: Pick, started: nat, end: Interpreter.TaskEnd, st: State, st': State)
    requires r.Picked? && end.Ended?
  {
    st'.history
    == st.history + [Record(ToKey(r.slot, r.day), r.slot.id, r.slot.scenario, started, end.success, end.step)]
  }

  /** The loop makes progress: with a usable plan and an executed set within the planner's
      bound, an undisturbed pass runs a pending window and records its result. */
  lemma UndisturbedPassRuns(plan: Plan, round: Round, once: bool, before: State)
    requires NeverEnds(plan.slots, 10) && |Planning(round, before).executed.Keys| <= |plan.slots| * 10
    requires forall s :: s in plan.slots ==> s.scenario in plan.scenarios
    requires Undisturbed(round)
    ensures var planned := Planning(round, before);
            Runs(plan, round, planned, Choice(plan, round, planned), OnePass(plan, round, once, before).0)
  {
    var st := Planning(round, before);
    var r := Choice(plan, round, st);
    NextPendingIsFound(round.rnd, plan.slots, st.executed.Keys, 10, st.clock);
    NextPendingIsPending(round.rnd, plan.slots, st.executed.Keys, 10, st.clock);
    UndisturbedRuns(r, plan.scenarios[r.slot.scenario], round, once, st);
  }

  lemma UndisturbedRuns(r: Pick, needsNetwork: bool, round: Round, once: bool, st: State)
    requires r.Picked? && Undisturbed(round) && ToKey(r.slot, r.day) !in st.executed
    ensures var (st', pass) := Proceed(r, needsNetwork, round, once, st);
            && (exists started: nat :: started >= r.at && AddsResult(r, started, round.end, st, st'))
            && (pass == if once then Return(if round.end.success then 0 else 2) else Continue)
  {
    var (st', pass) := Proceed(r, needsNetwork, round, once, st);
    var waited := WaitFor(r, round, Announce(ToKey(r.slot, r.day), false, st.(alertSentAt := None)));
    assert AddsResult(r, waited.clock, round.end, st, st');
  }

  // ---------------------------------------------------------------- the loop

  class SchedulerService {
    const plan: Plan
    const store: ExecutionStateStore
    var clock: nat
    var history: seq<Record>
    var nextExecution: Option<NextExecution>
    var alertSentAt: Option<nat>
    var lastPlanned: Option<string>
    var heartbeat: string

    function Now(): State
      reads this, store
    {
      State(store.Load(), clock, history, nextExecution, alertSentAt, lastPlanned, heartbeat)
    }

    constructor (plan: Plan, store: ExecutionStateStore, clock: nat)
      ensures this.plan == plan && this.store == store
      ensures Now() == State(store.Load(), clock, [], None, None, None, "starting")
    {
      this.plan, this.store, this.clock, history, heartbeat := plan, store, clock, [], "starting";
      nextExecution, alertSentAt, lastPlanned := None, None, None;
    }

    method DoSuspend(key: string, raises: bool) returns (pass: Pass)
      modifies this`nextExecution, this`alertSentAt
      ensures (Now(), pass) == Suspend(plan, key, raises, old(Now()))
    {
      nextExecution := Some(NextExecution(key, "blocked_no_network"));
      if alertSentAt.None? || clock - alertSentAt.value >= plan.alertCooldown {
        if raises { return Caught; }
        alertSentAt := Some(clock);
      }
      pass := Continue;
    }

    method DoAnnounce(key: string, raises: bool) returns (ok: bool)
      modifies this`nextExecution, this`lastPlanned
      ensures Now() == Announce(key, raises, old(Now())) && (ok <==> lastPlanned == Some(key))
    {
      if lastPlanned != Some(key) {
        nextExecution := Some(NextExecution(key, "planned"));
        if raises { return false; }
        lastPlanned := Some(key);
      }
      ok := true;
    }

    /** What other commands do to the store. */
    method MarkElsewhere(marks: seq<Marking>)
      modifies store
      ensures Now() == MarkAll(marks, old(Now()))
    {
      for i := 0 to |marks|
        invariant Now() == MarkAll(marks[..i], old(Now()))
      {
        assert marks[..i + 1][..i] == marks[..i];
        store.MarkExecuted(marks[i].key, clock, UtcDay(clock, marks[i].utcAhead));
      }
      assert marks[..|marks|] == marks;
    }

    method DoHandleResult(r: Pick, started: nat, end: Interpreter.TaskEnd, ahead: int)
      requires r.Picked? && end.Ended?
      modifies this`history, this`nextExecution, store
      ensures Now() == HandleResult(r, started, end, ahead, old(Now()))
    {
      var key := ToKey(r.slot, r.day);
      if end.success {
        store.MarkExecuted(key, started, UtcDay(clock, ahead));
        nextExecution := None;
      } else {
        nextExecution := Some(NextExecution(key, "failed"));
      }
      history := history + [Record(key, r.slot.id, r.slot.scenario, started, end.success, end.step)];
    }

    method DoRunPicked(r: Pick, needsNetwork: bool, round: Round, once: bool) returns (pass: Pass)
      requires r.Picked?
      modifies this, store
      ensures (Now(), pass) == RunPicked(r, needsNetwork, round, once, old(Now()))
    {
      var key := ToKey(r.slot, r.day);
      var already := store.HasExecuted(key);
      if already {
        nextExecution := None;
        return Continue;
      }
      if needsNetwork && round.networkAgain.CheckRaises? { return Caught; }
      if needsNetwork && round.networkAgain.Down? {
        nextExecution := Some(NextExecution(key, "blocked_no_network"));
        return if once then Return(2) else Continue;
      }
      var started := clock;
      heartbeat := "running";
      nextExecution := Some(NextExecution(key, "running"));
      clock := clock + round.running;
      MarkElsewhere(round.marksRunning);
      assert Now() == Running(key, round, old(Now()));
      if round.end.Escaped? { return Caught; }
      DoHandleResult(r, started, round.end, round.utcAhead);
      heartbeat := "planning";
      pass := if once then Return(if round.end.success then 0 else 2) else Continue;
    }

    method DoProceed(r: Pick, needsNetwork: bool, round: Round, once: bool) returns (pass: Pass)
      requires r.Picked?
      modifies this, store
      ensures (Now(), pass) == Proceed(r, needsNetwork, round, once, old(Now()))
    {
      alertSentAt := None;
      var announced := DoAnnounce(ToKey(r.slot, r.day), round.notifyRaises);
      if !announced { return Caught; }
      DoWait(r, round);
      pass := DoRunPicked(r, needsNetwork, round, once);
    }

    /** The countdown, and what other commands do to the store meanwhile. */
    method DoWait(r: Pick, round: Round)
      requires r.Picked?
      modifies this`clock, store
      ensures Now() == MarkAll(round.marksWaiting, WaitFor(r, round, old(Now())))
    {
      clock := clock + round.beforeRun + if clock < r.at then r.at - clock else 0;
      assert Now() == WaitFor(r, round, old(Now()));
      MarkElsewhere(round.marksWaiting);
    }

    method DoAfterChoice(r: Pick, round: Round, once: bool) returns (pass: Pass)
      modifies this, store
      ensures (Now(), pass) == AfterChoice(plan, r, round, once, old(Now()))
    {
      if !r.Picked? || r.slot.scenario !in plan.scenarios { return Caught; }
      var needsNetwork := plan.scenarios[r.slot.scenario];
      if needsNetwork && round.network.CheckRaises? { return Caught; }
      if needsNetwork && round.network.Down? {
        pass := DoSuspend(ToKey(r.slot, r.day), round.notifyRaises);
      } else {
        pass := DoProceed(r, needsNetwork, round, once);
      }
    }

    method DoOnePass(round: Round, once: bool) returns (pass: Pass)
      modifies this, store
      ensures (Now(), pass) == OnePass(plan, round, once, old(Now()))
    {
      DoPlanning(round);
      var r := DoChoose(round);
      pass := DoAfterChoice(r, round, once);
    }

    method DoPlanning(round: Round)
      modifies this`clock, this`heartbeat, store
      ensures Now() == Planning(round, old(Now()))
    {
      clock := clock + round.beforePlan;
      assert Now() == Later(round.beforePlan, old(Now()));
      MarkElsewhere(round.marksBefore);
      heartbeat := "planning";
    }

    /** `choose_next_slot`. */
    method DoChoose(round: Round) returns (r: Pick)
      ensures r == Choice(plan, round, Now())
    {
      r := FindNextPending(round.rnd, clock, plan.slots, Executed(store.Load().Keys), 10);
    }

    method Loop(rounds: seq<Round>, once: bool) returns (code: Option<int>)
      modifies this, store
      ensures (Now(), code) == Run(plan, rounds, once, old(Now()))
    {
      for i := 0 to |rounds|
        invariant Run(plan, rounds, once, old(Now())) == Run(plan, rounds[i..], once, Now())
      {
        assert rounds[i..][1..] == rounds[i + 1..];
        var pass := DoOnePass(rounds[i], once);
        if pass.Return? { return Some(pass.code); }
      }
      code := None;
    }
  }

  /** A loop started on any store never lets a slot key succeed twice, if the UTC date is
      not ahead. */
  method RunLoop(plan: Plan, store: ExecutionStateStore, clock: nat, rounds: seq<Round>, once: bool)
    returns (history: seq<Record>, end: nat)
    modifies store
    ensures var start := State(old(store.Load()), clock, [], None, None, None, "starting");
            var (st, code) := Run(plan, rounds, once, start);
            history == st.history && end == st.clock && store.Load() == st.executed
    ensures FourDigits(end) && (forall i :: 0 <= i < |rounds| ==> NotAhead(rounds[i])) ==> AtMostOnce(history)
  {
    var service := new SchedulerService(plan, store, clock);
    if forall i :: 0 <= i < |rounds| ==> NotAhead(rounds[i]) { NeverSucceedsTwice(plan, rounds, once, service.Now()); }
    var code := service.Loop(rounds, once);
    history, end := service.history, service.clock;
  }
}
