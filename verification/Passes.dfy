/** What one pass of the loop comes to: when it runs the task, what it writes down of it, and
    what it returns. Above all, no task that needs the enterprise network is run without. */
module Passes {
  import opened Wrappers
  import opened SlotKeys
  import opened StateStore
  import opened Planner
  import opened Scheduler

  /** No key was recorded but those that other commands marked. */
  ghost predicate OnlyMarked(executed: map<string, int>, executed': map<string, int>, marks: seq<Marking>) {
    forall key :: key in executed' ==>
                    || (key in executed && executed'[key] == executed[key])
                    || exists i :: 0 <= i < |marks| && marks[i].key == key
  }

  lemma {:induction false} MarkAllMarks(marks: seq<Marking>, st: State)
    ensures var st' := MarkAll(marks, st);
            && OnlyMarked(st.executed, st'.executed, marks)
            && st' == st.(executed := st'.executed)
  {
    if marks != [] {
      var n := |marks| - 1;
      var before := MarkAll(marks[..n], st);
      MarkAllMarks(marks[..n], st);
      forall key | key in MarkAll(marks, st).executed && key != marks[n].key
        ensures (key in st.executed && MarkAll(marks, st).executed[key] == st.executed[key])
                || exists i :: 0 <= i < |marks| && marks[i].key == key
      {
        assert key in before.executed;
        if !(key in st.executed && before.executed[key] == st.executed[key]) {
          var i :| 0 <= i < n && marks[..n][i].key == key;
          assert marks[i].key == key;
        }
      }
      assert marks[n].key == marks[n].key;
    }
  }

  // ---------------------------------------------------------------- when the task is run

  /** The planner chose a slot of a scenario that exists. */
  predicate Chosen(plan: Plan, r: Pick) {
    r.Picked? && r.slot.scenario in plan.scenarios
  }

  /** The enterprise network is there, at both checks, where the scenario needs it. */
  predicate Online(plan: Plan, r: Pick, round: Round)
    requires Chosen(plan, r)
  {
    plan.scenarios[r.slot.scenario] ==> round.network.Up? && round.networkAgain.Up?
  }

  /** The plan is announced already, or announcing it works. */
  predicate Announced(r: Pick, round: Round, st: State)
    requires r.Picked?
  {
    st.lastPlanned == Some(ToKey(r.slot, r.day)) || !round.notifyRaises
  }

  /** When the wait is over, nobody has recorded the key. */
  predicate StillPending(r: Pick, round: Round, st: State)
    requires r.Picked?
  {
    ToKey(r.slot, r.day) !in MarkAll(round.marksWaiting, WaitFor(r, round, st)).executed
  }

  predicate Starts(plan: Plan, r: Pick, round: Round, st: State) {
    Chosen(plan, r) && Online(plan, r, round) && Announced(r, round, st) && StillPending(r, round, st)
  }

  /** The network is lost between the two checks. */
  predicate LosesNetwork(plan: Plan, r: Pick, round: Round, st: State) {
    && Chosen(plan, r) && plan.scenarios[r.slot.scenario] && round.network.Up? && round.networkAgain.Down?
    && Announced(r, round, st) && StillPending(r, round, st)
  }

  function StartTime(r: Pick, round: Round, st: State): nat
    requires r.Picked?
  {
    round.beforeRun + if st.clock < r.at then r.at else st.clock
  }

  /** The task is run, from instant `start` on. */
  ghost predicate RunsTask(r: Pick, round: Round, once: bool, start: nat, st: State, st': State, pass: Pass)
    requires r.Picked?
  {
    var key := ToKey(r.slot, r.day);
    if round.end.Ended? then
      && st'.history == st.history + [Record(key, r.slot.id, r.slot.scenario, start, round.end.success, round.end.step)]
      && st'.clock == start + round.running && st'.heartbeat == "planning"
      && st'.nextExecution == (if round.end.success then None else Some(NextExecution(key, "failed")))
      && pass == if once then Return(if round.end.success then 0 else 2) else Continue
    else
      && st'.history == st.history && st'.heartbeat == "running" && pass == Caught
      && st'.nextExecution == Some(NextExecution(key, "running"))
  }

  lemma WaitedState(r: Pick, round: Round, st: State)
    requires r.Picked?
    ensures var w, w' := MarkAll(round.marksWaiting, WaitFor(r, round, st)), WaitFor(r, round, st);
            && w.clock == StartTime(r, round, st) == w'.clock && w.history == st.history
            && w.heartbeat == st.heartbeat && w.lastPlanned == st.lastPlanned && w.alertSentAt == st.alertSentAt
            && w.nextExecution == st.nextExecution && OnlyMarked(st.executed, w.executed, round.marksWaiting)
  {
    MarkAllMarks(round.marksWaiting, WaitFor(r, round, st));
  }

  /** What others mark does not depend on announcements. */
  lemma {:induction false} MarksAlike(marks: seq<Marking>, a: State, b: State)
    requires a.executed == b.executed && a.clock == b.clock
    ensures MarkAll(marks, a).executed == MarkAll(marks, b).executed
  {
    if marks != [] {
      MarksAlike(marks[..|marks| - 1], a, b);
      MarkAllMarks(marks[..|marks| - 1], a);
      MarkAllMarks(marks[..|marks| - 1], b);
    }
  }

  lemma RunningState(key: string, round: Round, st: State)
    ensures var running := Running(key, round, st);
            && running.history == st.history && running.clock == st.clock + round.running
            && running.heartbeat == "running" && OnlyMarked(st.executed, running.executed, round.marksRunning)
            && running.nextExecution == Some(NextExecution(key, "running"))
  {
    MarkAllMarks(round.marksRunning, Later(round.running, Note(key, "running", st).(heartbeat := "running")));
  }

  /** What a pass that does not start the task leaves of history and record. */
  ghost predicate Idle(round: Round, st: State, st': State) {
    && st'.history == st.history && st'.heartbeat == st.heartbeat
    && OnlyMarked(st.executed, st'.executed, round.marksWaiting)
  }

  lemma RunPickedGives(r: Pick, needsNetwork: bool, round: Round, once: bool, st: State)
    requires r.Picked?
    ensures var (st', pass), key := RunPicked(r, needsNetwork, round, once, st), ToKey(r.slot, r.day);
            && (key in st.executed ==> pass == Continue && st' == st.(nextExecution := None))
            && (key !in st.executed && needsNetwork && !round.networkAgain.Up? ==>
                  if round.networkAgain.CheckRaises? then pass == Caught && st' == st
                  else
                    && st' == st.(nextExecution := Some(NextExecution(key, "blocked_no_network")))
                    && pass == if once then Return(2) else Continue)
            && (key !in st.executed && (needsNetwork ==> round.networkAgain.Up?) ==>
                  RunsTask(r, round, once, st.clock, st, st', pass))
  {
    RunningState(ToKey(r.slot, r.day), round, st);
  }

  /** The network fails the check before the run. */
  predicate FailsAgain(needsNetwork: bool, round: Round) {
    needsNetwork && !round.networkAgain.Up?
  }

  lemma AnnouncedState(r: Pick, round: Round, st: State) returns (key: string, announced: State)
    requires r.Picked?
    ensures key == ToKey(r.slot, r.day) && announced == Announce(key, round.notifyRaises, st.(alertSentAt := None))
    ensures announced.lastPlanned == Some(key) <==> Announced(r, round, st)
    ensures announced.executed == st.executed && announced.clock == st.clock && announced.history == st.history
    ensures announced.heartbeat == st.heartbeat
  {
    key := ToKey(r.slot, r.day);
    announced := Announce(key, round.notifyRaises, st.(alertSentAt := None));
  }

  /** The state when the wait after an announcement is over. */
  lemma AwaitedState(r: Pick, round: Round, st: State, announced: State) returns (waited: State)
    requires r.Picked? && announced.executed == st.executed && announced.clock == st.clock
    requires announced.history == st.history && announced.heartbeat == st.heartbeat
    ensures waited == MarkAll(round.marksWaiting, WaitFor(r, round, announced))
    ensures waited.clock == StartTime(r, round, st) && waited.history == st.history && waited.heartbeat == st.heartbeat
    ensures ToKey(r.slot, r.day) !in waited.executed <==> StillPending(r, round, st)
    ensures OnlyMarked(st.executed, waited.executed, round.marksWaiting)
  {
    waited := MarkAll(round.marksWaiting, WaitFor(r, round, announced));
    MarksAlike(round.marksWaiting, WaitFor(r, round, st), WaitFor(r, round, announced));
    WaitedState(r, round, announced);
  }

  lemma ProceedGives(r: Pick, needsNetwork: bool, round: Round, once: bool, st: State)
    requires r.Picked?
    ensures var (st', pass) := Proceed(r, needsNetwork, round, once, st);
            if Announced(r, round, st) && StillPending(r, round, st) && !FailsAgain(needsNetwork, round) then
              RunsTask(r, round, once, StartTime(r, round, st), st, st', pass)
            else
              && Idle(round, st, st')
              && if Announced(r, round, st) && StillPending(r, round, st) && round.networkAgain.Down? then
                   && st'.nextExecution == Some(NextExecution(ToKey(r.slot, r.day), "blocked_no_network"))
                   && pass == if once then Return(2) else Continue
                 else !pass.Return?
  {
    var key, announced := AnnouncedState(r, round, st);
    if Announced(r, round, st) {
      var waited := AwaitedState(r, round, st, announced);
      RunPickedGives(r, needsNetwork, round, once, waited);
    }
  }

  lemma SuspendGives(plan: Plan, key: string, round: Round, st: State)
    ensures var (st', pass) := Suspend(plan, key, round.notifyRaises, st);
            Idle(round, st, st') && !pass.Return? && st'.nextExecution == Some(NextExecution(key, "blocked_no_network"))
  {
  }

  /** A pass starts its task exactly when a slot is chosen whose scenario exists, the network
      is there at both checks where it is needed, the plan is announced, and nobody recorded
      the key meanwhile; it then writes the task's end down as one line and otherwise none.
      Only a pass of a single run returns: 0 for a success, 2 for a failure or for a network
      lost before the run. */
  lemma AfterChoiceGives(plan: Plan, r: Pick, round: Round, once: bool, st: State)
    ensures var (st', pass) := AfterChoice(plan, r, round, once, st);
            if Starts(plan, r, round, st) then RunsTask(r, round, once, StartTime(r, round, st), st, st', pass)
            else
              && Idle(round, st, st')
              && if LosesNetwork(plan, r, round, st) then
                   && st'.nextExecution == Some(NextExecution(ToKey(r.slot, r.day), "blocked_no_network"))
                   && pass == if once then Return(2) else Continue
                 else !pass.Return?
  {
    if Chosen(plan, r) {
      SuspendGives(plan, ToKey(r.slot, r.day), round, st);
      ProceedGives(r, plan.scenarios[r.slot.scenario], round, once, st);
    }
  }

  // ---------------------------------------------------------------- one pass

  lemma PlanningState(round: Round, before: State)
    ensures var planned := Planning(round, before);
            && planned.history == before.history && planned.heartbeat == "planning"
            && planned.alertSentAt == before.alertSentAt && planned.lastPlanned == before.lastPlanned
            && planned.clock == before.clock + round.beforePlan
            && OnlyMarked(before.executed, planned.executed, round.marksBefore)
  {
    MarkAllMarks(round.marksBefore, Later(round.beforePlan, before));
  }

  lemma MarkedInTurn(a: map<string, int>, b: map<string, int>, c: map<string, int>, marks: seq<Marking>,
                     more: seq<Marking>)
    requires OnlyMarked(a, b, marks) && OnlyMarked(b, c, more)
    ensures OnlyMarked(a, c, marks + more)
  {
    forall key | key in c && !(key in a && c[key] == a[key])
      ensures exists i :: 0 <= i < |marks + more| && (marks + more)[i].key == key
    {
      if key in b && c[key] == b[key] {
        var i :| 0 <= i < |marks| && marks[i].key == key;
        assert (marks + more)[i].key == key;
      } else {
        var i :| 0 <= i < |more| && more[i].key == key;
        assert (marks + more)[|marks| + i].key == key;
      }
    }
  }

  /** No task that needs the enterprise network is run without it: in any pass, from any state,
      if the chosen scenario needs the network and it is not up at both checks, the history
      stays as it is, only what other commands marked is recorded, and the task is not
      started. The slot is noted as blocked if the network is down when planning, and also if
      it is gone when the wait is over; then a single run returns 2. */
  lemma NothingRunsOffline(plan: Plan, round: Round, once: bool, before: State)
    requires var r := Choice(plan, round, Planning(round, before));
             Chosen(plan, r) && plan.scenarios[r.slot.scenario] && !(round.network.Up? && round.networkAgain.Up?)
    ensures var (st, pass) := OnePass(plan, round, once, before);
            && st.history == before.history && st.heartbeat == "planning" && pass != Return(0)
            && OnlyMarked(before.executed, st.executed, round.marksBefore + round.marksWaiting)
    ensures var planned := Planning(round, before);
            var r := Choice(plan, round, planned);
            var (st, pass) := OnePass(plan, round, once, before);
            var blocked := st.nextExecution == Some(NextExecution(ToKey(r.slot, r.day), "blocked_no_network"));
            && (round.network.Down? ==> blocked && !pass.Return?)
            && (LosesNetwork(plan, r, round, planned) ==> blocked && pass == if once then Return(2) else Continue)
  {
    var planned := Planning(round, before);
    var r := Choice(plan, round, planned);
    var st := OnePass(plan, round, once, before).0;
    PlanningState(round, before);
    AfterChoiceGives(plan, r, round, once, planned);
    MarkedInTurn(before.executed, planned.executed, st.executed, round.marksBefore, round.marksWaiting);
    if round.network.Down? { SuspendGives(plan, ToKey(r.slot, r.day), round, planned); }
  }

  lemma ProceedForgetsAlert(r: Pick, needsNetwork: bool, round: Round, once: bool, st: State)
    requires r.Picked?
    ensures Proceed(r, needsNetwork, round, once, st).0.alertSentAt.None?
  {
    var announced := Announce(ToKey(r.slot, r.day), round.notifyRaises, st.(alertSentAt := None));
    MarkAllMarks(round.marksWaiting, WaitFor(r, round, announced));
    var waited := MarkAll(round.marksWaiting, WaitFor(r, round, announced));
    var key := ToKey(r.slot, r.day);
    MarkAllMarks(round.marksRunning, Later(round.running, Note(key, "running", waited).(heartbeat := "running")));
  }

  lemma AlertAfterChoice(plan: Plan, r: Pick, round: Round, once: bool, st: State)
    ensures var st' := AfterChoice(plan, r, round, once, st).0;
            if Chosen(plan, r) && plan.scenarios[r.slot.scenario] && round.network.Down? then
              st'.alertSentAt == if AlertIsDue(plan, st) && !round.notifyRaises then Some(st.clock) else st.alertSentAt
            else st'.alertSentAt == st.alertSentAt || st'.alertSentAt.None?
  {
    if Chosen(plan, r) { ProceedForgetsAlert(r, plan.scenarios[r.slot.scenario], round, once, st); }
  }

  /** While there is no network the first alert is sent at once, and each further one when the
      cooldown is over and not before; the network being back makes the next one a first. */
  lemma AlertsAreSpaced(plan: Plan, round: Round, once: bool, before: State)
    ensures var r, st := Choice(plan, round, Planning(round, before)), OnePass(plan, round, once, before).0;
            var now, last := before.clock + round.beforePlan, before.alertSentAt;
            if Chosen(plan, r) && plan.scenarios[r.slot.scenario] && round.network.Down? then
              st.alertSentAt == if (last.None? || now >= last.value + plan.alertCooldown) && !round.notifyRaises
                                then Some(now) else last
            else st.alertSentAt == last || st.alertSentAt.None?
  {
    var planned := Planning(round, before);
    var r := Choice(plan, round, planned);
    PlanningState(round, before);
    AlertAfterChoice(plan, r, round, once, planned);
  }

  /** What the record says of the chosen key once its task has ended. */
  ghost predicate Recorded(r: Pick, round: Round, start: nat, st: State, st': State)
    requires r.Picked? && round.end.Ended?
  {
    var key, today := ToKey(r.slot, r.day), UtcDay(st'.clock, round.utcAhead);
    if round.end.success then
      DateOf(r.day).year <= 9999 && DateOf(today).year <= 9999 ==>
        (key in st'.executed <==> r.day >= today) && (r.day >= today ==> st'.executed[key] == start)
    else OnlyMarked(st.executed, st'.executed, round.marksWaiting + round.marksRunning)
  }

  lemma ResultRecords(r: Pick, round: Round, start: nat, st: State)
    requires r.Picked? && round.end.Ended? && round.end.success
    requires DateOf(r.day).year <= 9999 && DateOf(UtcDay(st.clock, round.utcAhead)).year <= 9999
    ensures var st' := HandleResult(r, start, round.end, round.utcAhead, st);
            var key, today := ToKey(r.slot, r.day), UtcDay(st.clock, round.utcAhead);
            (key in st'.executed <==> r.day >= today) && (r.day >= today ==> st'.executed[key] == start)
  {
    PruningKeepsTodayAndLater(st.executed[ToKey(r.slot, r.day) := start], r.slot, r.day,
                              UtcDay(st.clock, round.utcAhead));
  }

  lemma RunPickedRecords(r: Pick, needsNetwork: bool, round: Round, once: bool, st: State, waited: State)
    requires r.Picked? && round.end.Ended? && !FailsAgain(needsNetwork, round)
    requires ToKey(r.slot, r.day) !in waited.executed && OnlyMarked(st.executed, waited.executed, round.marksWaiting)
    ensures Recorded(r, round, waited.clock, st, RunPicked(r, needsNetwork, round, once, waited).0)
  {
    var key := ToKey(r.slot, r.day);
    var running := Running(key, round, waited);
    RunningState(key, round, waited);
    MarkedInTurn(st.executed, waited.executed, running.executed, round.marksWaiting, round.marksRunning);
    if round.end.success && DateOf(r.day).year <= 9999 && DateOf(UtcDay(running.clock, round.utcAhead)).year <= 9999 {
      ResultRecords(r, round, waited.clock, running);
    }
  }

  lemma AfterChoiceRecords(plan: Plan, r: Pick, round: Round, once: bool, st: State)
    requires Starts(plan, r, round, st) && round.end.Ended?
    ensures Recorded(r, round, StartTime(r, round, st), st, AfterChoice(plan, r, round, once, st).0)
  {
    var key, announced := AnnouncedState(r, round, st);
    var waited := AwaitedState(r, round, st, announced);
    RunPickedRecords(r, plan.scenarios[r.slot.scenario], round, once, st, waited);
  }

  /** A task that succeeds is recorded with the instant it was started, unless its day is over
      by the UTC date when it ends; one that fails is not recorded by the pass. */
  lemma SuccessIsRecorded(plan: Plan, round: Round, once: bool, before: State)
    requires var planned := Planning(round, before);
             Starts(plan, Choice(plan, round, planned), round, planned) && round.end.Ended?
    ensures var planned := Planning(round, before);
            var r := Choice(plan, round, planned);
            Recorded(r, round, StartTime(r, round, planned), planned, OnePass(plan, round, once, before).0)
  {
    var planned := Planning(round, before);
    AfterChoiceRecords(plan, Choice(plan, round, planned), round, once, planned);
  }

  /** What a pass past the first network check does about announcing. */
  ghost predicate Announces(r: Pick, needsNetwork: bool, round: Round, st: State, st': State, pass: Pass)
    requires r.Picked?
  {
    if !Announced(r, round, st) then
      && pass == Caught && st'.lastPlanned == st.lastPlanned
      && st'.nextExecution == Some(NextExecution(ToKey(r.slot, r.day), "planned"))
    else
      && st'.lastPlanned == Some(ToKey(r.slot, r.day))
      && (!StillPending(r, round, st) ==> pass == Continue && st'.nextExecution.None?)
      && (StillPending(r, round, st) && needsNetwork && round.networkAgain.CheckRaises? ==>
            && pass == Caught
            && st'.nextExecution == if st.lastPlanned == st'.lastPlanned then st.nextExecution
                                    else Some(NextExecution(ToKey(r.slot, r.day), "planned")))
  }

  lemma RunPickedKeepsPlan(r: Pick, needsNetwork: bool, round: Round, once: bool, st: State)
    requires r.Picked?
    ensures RunPicked(r, needsNetwork, round, once, st).0.lastPlanned == st.lastPlanned
  {
    var key := ToKey(r.slot, r.day);
    MarkAllMarks(round.marksRunning, Later(round.running, Note(key, "running", st).(heartbeat := "running")));
  }

  lemma ProceedAnnounces(r: Pick, needsNetwork: bool, round: Round, once: bool, st: State)
    requires r.Picked?
    ensures var (st', pass) := Proceed(r, needsNetwork, round, once, st);
            Announces(r, needsNetwork, round, st, st', pass)
  {
    var key, announced := AnnouncedState(r, round, st);
    if Announced(r, round, st) {
      var waited := AwaitedState(r, round, st, announced);
      MarkAllMarks(round.marksWaiting, WaitFor(r, round, announced));
      RunPickedKeepsPlan(r, needsNetwork, round, once, waited);
      RunPickedGives(r, needsNetwork, round, once, waited);
    }
  }

  lemma AfterChoiceAnnounces(plan: Plan, r: Pick, round: Round, once: bool, st: State)
    ensures var (st', pass) := AfterChoice(plan, r, round, once, st);
            if Chosen(plan, r) && (plan.scenarios[r.slot.scenario] ==> round.network.Up?) then
              Announces(r, plan.scenarios[r.slot.scenario], round, st, st', pass)
            else st'.lastPlanned == st.lastPlanned
  {
    if Chosen(plan, r) { ProceedAnnounces(r, plan.scenarios[r.slot.scenario], round, once, st); }
  }

  /** A plan is announced once in a row: a pass that announces it, or finds it announced,
      leaves it so; one that cannot notify tries again. A key that was recorded during the
      wait is let go. */
  lemma PlansAreAnnounced(plan: Plan, round: Round, once: bool, before: State)
    ensures var planned := Planning(round, before);
            var r := Choice(plan, round, planned);
            var (st, pass) := OnePass(plan, round, once, before);
            if Chosen(plan, r) && (plan.scenarios[r.slot.scenario] ==> round.network.Up?) then
              Announces(r, plan.scenarios[r.slot.scenario], round, planned, st, pass)
            else st.lastPlanned == before.lastPlanned
  {
    var planned := Planning(round, before);
    PlanningState(round, before);
    AfterChoiceAnnounces(plan, Choice(plan, round, planned), round, once, planned);
  }

  // ---------------------------------------------------------------- runs of the loop

  /** The line tells of a task run in this round: which slot of the plan, in whose window on
      which day, with the network up at both checks if its scenario needs it, and how the
      task ended. */
  ghost predicate LineOf(plan: Plan, round: Round, line: Record, s: Slot, day: nat) {
    && s in plan.slots && Opens(s, day) && WindowStart(s, day) <= line.executedAt
    && line.key == ToKey(s, day) && line.slotId == s.id && line.scenarioId == s.scenario
    && s.scenario in plan.scenarios
    && (plan.scenarios[s.scenario] ==> round.network.Up? && round.networkAgain.Up?)
    && round.end.Ended? && line.success == round.end.success && line.step == round.end.step
  }

  ghost predicate IsLine(plan: Plan, round: Round, line: Record) {
    exists s, day: nat :: LineOf(plan, round, line, s, day)
  }

  /** What a pass adds to the history, and when it returns. */
  ghost predicate PassTells(plan: Plan, round: Round, once: bool, before: State, st: State, pass: Pass) {
    && (st.history == before.history || AddsLine(plan, round, once, before, st, pass))
    && (pass == Return(0) ==> st.history != before.history)
    && (pass.Return? ==> once && (pass.code == 0 || pass.code == 2))
  }

  ghost predicate AddsLine(plan: Plan, round: Round, once: bool, before: State, st: State, pass: Pass) {
    exists line :: st.history == before.history + [line] && IsLine(plan, round, line)
                   && (once ==> pass == Return(if line.success then 0 else 2))
  }

  lemma RunTells(plan: Plan, r: Pick, round: Round, once: bool, start: nat, st: State, st': State, pass: Pass)
    requires Starts(plan, r, round, st) && r.slot in plan.slots && Opens(r.slot, r.day)
    requires WindowStart(r.slot, r.day) <= start && RunsTask(r, round, once, start, st, st', pass)
    ensures PassTells(plan, round, once, st, st', pass)
  {
    if round.end.Ended? {
      var line := Record(ToKey(r.slot, r.day), r.slot.id, r.slot.scenario, start, round.end.success, round.end.step);
      assert LineOf(plan, round, line, r.slot, r.day);
      assert IsLine(plan, round, line);
    }
  }

  lemma PassLine(plan: Plan, round: Round, once: bool, before: State)
    ensures var (st, pass) := OnePass(plan, round, once, before); PassTells(plan, round, once, before, st, pass)
  {
    var planned := Planning(round, before);
    var r := Choice(plan, round, planned);
    var (st, pass) := OnePass(plan, round, once, before);
    PlanningState(round, before);
    NextPendingIsPending(round.rnd, plan.slots, planned.executed.Keys, 10, planned.clock);
    AfterChoiceGives(plan, r, round, once, planned);
    if Starts(plan, r, round, planned) {
      RunTells(plan, r, round, once, StartTime(r, round, planned), planned, st, pass);
    }
  }

  /** Every line that any run of the loop adds tells of a task run in one of its rounds, never
      of one without the network its scenario needs. */
  lemma {:induction false} LinesAreRuns(plan: Plan, rounds: seq<Round>, once: bool, st: State)
    ensures var st' := Run(plan, rounds, once, st).0;
            && st.history <= st'.history
            && forall i :: |st.history| <= i < |st'.history| ==> SomeLine(plan, rounds, st'.history[i])
    decreases |rounds|
  {
    if rounds != [] {
      PassLine(plan, rounds[0], once, st);
      var (st1, pass) := OnePass(plan, rounds[0], once, st);
      var st' := Run(plan, rounds, once, st).0;
      if !pass.Return? { LinesAreRuns(plan, rounds[1..], once, st1); }
      forall i | |st.history| <= i < |st'.history| ensures SomeLine(plan, rounds, st'.history[i]) {
        if i < |st1.history| {
          assert IsLine(plan, rounds[0], st'.history[i]);
        } else {
          var k :| 0 <= k < |rounds[1..]| && IsLine(plan, rounds[1..][k], st'.history[i]);
          assert IsLine(plan, rounds[k + 1], st'.history[i]);
        }
      }
    }
  }

  ghost predicate SomeLine(plan: Plan, rounds: seq<Round>, line: Record) {
    exists k :: 0 <= k < |rounds| && IsLine(plan, rounds[k], line)
  }

  /** A single run adds at most one line, as its last act, and returns 0 exactly when that line
      tells of a success; a run that is not single never returns. */
  lemma {:induction false} OnceRunsOnce(plan: Plan, rounds: seq<Round>, once: bool, st: State)
    ensures var (st', code) := Run(plan, rounds, once, st);
            if once then
              && (st'.history == st.history
                  || (|st'.history| == |st.history| + 1 && st.history <= st'.history
                      && code == Some(if st'.history[|st.history|].success then 0 else 2)))
              && (code == Some(0) ==> st'.history != st.history)
              && (code == None || code == Some(0) || code == Some(2))
            else code == None
    decreases |rounds|
  {
    if rounds != [] {
      PassLine(plan, rounds[0], once, st);
      var (st1, pass) := OnePass(plan, rounds[0], once, st);
      if !pass.Return? { OnceRunsOnce(plan, rounds[1..], once, st1); }
    }
  }
}
