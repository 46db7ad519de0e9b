/** The event that closes a step tells the truth about it. */
module ClosingEvents {
  import opened Wrappers
  import opened Steps
  import opened Interpreter
  import opened ParallelBlocks

  /** Attempts k, k+1, ... all raise. */
  predicate AllAttemptsRaise(e: Env, s: Step, id: StepId, k: nat, d: Driver, w: World)
    requires k < s.Attempts()
    decreases s.Attempts() - k
  {
    var a := Attempt(e, s, id, d, w);
    && a.out.Raised?
    && (k + 1 < s.Attempts() ==>
          AllAttemptsRaise(e, s, id, k + 1, a.held, Retry(s, id, k, a.out.error, a.w)))
  }

  // ---------------------------------------------------------------- the swallow flag

  lemma {:induction false} SequenceLeavesNoFlag(e: Env, steps: seq<Step>, part: Part, i: nat, id: StepId, d: Driver,
                                                w: World)
    requires i <= |steps| && w.swallowed.None?
    ensures Sequence(e, steps, part, i, id, d, w).w.swallowed.None?
    decreases steps, 0, |steps| - i
  {
    if i < |steps| {
      var s, cid := steps[i], ChildId(id, part, i);
      var w' := Start(w, cid, s.stype);
      if Condition(e, s, w') == Some(true) { AttemptsFlag(e, s, cid, 0, d, w'); }
      var r0, r := ExecStep(e, s, cid, d, w'), ExecChild(e, s, cid, d, w);
      assert r0.out.Raised? ==> r0.w.swallowed.None?;
      if r.out.Returned? { SequenceLeavesNoFlag(e, steps, part, i + 1, id, r.out.driver, r.w); }
    }
  }

  lemma {:induction false} RepeatLeavesNoFlag(e: Env, s: Step, times: int, id: StepId, d: Driver, w: World)
    requires w.swallowed.None?
    ensures RepeatBlock(e, s, times, id, d, w).w.swallowed.None?
    decreases s, 0, if times > 0 then times else 0
  {
    if times > 0 {
      var r := Sequence(e, s.steps, InRepeat, 0, id, d, w);
      SequenceLeavesNoFlag(e, s.steps, InRepeat, 0, id, d, w);
      if r.out.Returned? { RepeatLeavesNoFlag(e, s, times - 1, id, r.out.driver, r.w); }
    }
  }

  lemma {:induction false} TryLeavesNoFlag(e: Env, s: Step, id: StepId, d: Driver, w: World)
    requires w.swallowed.None?
    ensures TryBlock(e, s, id, d, w).w.swallowed.None?
    decreases s, 0, 1
  {
    var t, r := Sequence(e, s.trySteps, InTry, 0, id, d, w), TryCatch(e, s, id, d, w);
    SequenceLeavesNoFlag(e, s.trySteps, InTry, 0, id, d, w);
    if t.out.Raised? {
      var w' := t.w.(ctx := t.w.ctx["error_message" := e.text(t.out.error)]);
      SequenceLeavesNoFlag(e, s.catchSteps, InCatch, 0, id, d, w');
    }
    SequenceLeavesNoFlag(e, s.finallySteps, InFinally, 0, id, if r.out.Returned? then r.out.driver else d, r.w);
  }

  lemma {:induction false} AttemptLeavesNoFlag(e: Env, s: Step, id: StepId, d: Driver, w: World)
    requires w.swallowed.None?
    ensures Attempt(e, s, id, d, w).w.swallowed.None?
    decreases s, 2, 0
  {
    match s.stype
    case Group => SequenceLeavesNoFlag(e, s.steps, InGroup, 0, id, d, w);
    case Repeat => RepeatLeavesNoFlag(e, s, s.times, id, d, w);
    case Parallel =>
      if UnsafeTypes(s.steps, |s.steps|) == [] { ParallelIsScheduleIndependent(e, e, s.steps, id, d, w); }
    case Try => TryLeavesNoFlag(e, s, id, d, w);
    case _ =>
  }

  /** The swallow flag and, with it, the warning are left exactly by a step whose
      attempts all raised and which continues on error; then it returns. */
  ghost predicate FlagTells(failed: bool, s: Step, id: StepId, r: Result) {
    && (r.w.swallowed.Some? <==> failed && s.ctl.continueOnError)
    && (r.w.swallowed.Some? ==>
          r.w.trace != [] && r.w.trace[|r.w.trace| - 1].kind.Warned? && r.w.trace[|r.w.trace| - 1].id == id)
    && (r.out.Raised? <==> failed && !s.ctl.continueOnError)
  }

  lemma {:induction false} AttemptsFlag(e: Env, s: Step, id: StepId, k: nat, d: Driver, w: World)
    requires w.swallowed.None? && k < s.Attempts()
    ensures FlagTells(AllAttemptsRaise(e, s, id, k, d, w), s, id, Attempts(e, s, id, k, d, w))
    decreases s, 3, s.Attempts() - k
  {
    var a := Attempt(e, s, id, d, w);
    AttemptLeavesNoFlag(e, s, id, d, w);
    if a.out.Raised? && k + 1 < s.Attempts() {
      var w' := Retry(s, id, k, a.out.error, a.w);
      AttemptsFlag(e, s, id, k + 1, a.held, w');
      assert Attempts(e, s, id, k, d, w) == Attempts(e, s, id, k + 1, a.held, w');
    } else if a.out.Raised? {
      ExhaustedFlag(e, s, id, a.out.error, a.held, a.w);
    }
  }

  lemma ExhaustedFlag(e: Env, s: Step, id: StepId, error: Error, d: Driver, w: World)
    requires w.swallowed.None?
    ensures FlagTells(true, s, id, Exhausted(e, s, id, error, d, w))
  {
  }

  // ---------------------------------------------------------------- the closing event

  /** The last event is this step's closing one: green exactly when the step was skipped or
      one of its attempts returned, a warning exactly when all attempts raised and it
      continues on error, an error exactly when it raises. */
  ghost predicate Tells(e: Env, s: Step, id: StepId, d: Driver, w: World, r: Result) {
    var go := Condition(e, s, w);
    var failed := go == Some(true) && AllAttemptsRaise(e, s, id, 0, d, w);
    && r.w.trace != []
    && var last := r.w.trace[|r.w.trace| - 1];
    && last.id == id
    && (last.kind == Succeeded <==> go.Some? && !failed)
    && (last.kind == Warned <==> failed && s.ctl.continueOnError)
    && (last.kind == Failed <==> r.out.Raised?)
    && (r.out.Raised? <==> go.None? || (failed && !s.ctl.continueOnError))
  }

  lemma CloseTells(e: Env, s: Step, id: StepId, d: Driver, w: World)
    requires w.swallowed.None?
    ensures Tells(e, s, id, d, w, Close(s, id, ExecStep(e, s, id, d, w)))
  {
    if Condition(e, s, w) == Some(true) { AttemptsFlag(e, s, id, 0, d, w); }
  }

  /** The closing event of a child of a block, or of a hook, in any run. */
  lemma ClosingEventTellsTheTruth(e: Env, s: Step, id: StepId, d: Driver, w: World)
    ensures Tells(e, s, id, d, Start(w, id, s.stype), ExecChild(e, s, id, d, w))
  {
    CloseTells(e, s, id, d, Start(w, id, s.stype));
  }

  /** The closing event of a main step in any run, unless it is stuck: then its start is
      the last event. A main step is run when its condition holds, so it is green exactly
      when an attempt returned. */
  lemma MainClosingEventTellsTheTruth(e: Env, s: Step, i: nat, d: Driver, w: World)
    requires Condition(e, s, w) == Some(true)
    ensures var id, m := [Segment(InSteps, i)], MainStep(e, s, i, d, w);
            var got := EnsureDriver(e, s.stype, d, Emit(w, id, Started, s.stype, None));
            var w' := got.w.(swallowed := None);
            if m.stuck.None? then Tells(e, s, id, m.held, w', Result(m.out, m.w)) && Condition(e, s, w') == Some(true)
            else m.out.Raised? && m.w.trace == w.trace + [Event(id, Started, s.stype, None)]
  {
    var id := [Segment(InSteps, i)];
    var got := EnsureDriver(e, s.stype, d, Emit(w, id, Started, s.stype, None));
    if got.out.Returned? { CloseTells(e, s, id, got.held, got.w.(swallowed := None)); }
  }
}
