/** Where nothing outside goes wrong, neither does the run. */
module SmoothRuns {
  import opened Wrappers
  import opened Steps
  import opened Conditions
  import opened Interpreter
  import opened Footprint
  import opened RunResults

  /** Handlers answer in time and without raising, browsers start and quit. */
  ghost predicate Obliging(e: Env) {
    && (forall calls: seq<Call> :: e.reply(calls).failure.None? && !e.reply(calls).late)
    && (forall calls, browsers, failed: nat :: e.launch(calls, browsers, failed).None?)
    && forall calls, browsers :: e.quit(calls, browsers).None?
  }

  /** A supported tree whose conditions can all be evaluated. */
  ghost predicate Sound(e: Env, s: Step) {
    && Evaluable(s.ctl.when, e.search) && (IsAtomic(s.stype) || IsBlock(s.stype))
    && (s.stype.Parallel? ==> forall i :: 0 <= i < |s.steps| ==> IsParallelSafe(s.steps[i].stype))
    && (s.stype.Group? || s.stype.Parallel? || s.stype.Repeat? ==> AllSound(e, s.steps))
    && (s.stype.Try? ==> AllSound(e, s.trySteps) && AllSound(e, s.finallySteps))
  }

  ghost predicate AllSound(e: Env, steps: seq<Step>) {
    forall i :: 0 <= i < |steps| ==> Sound(e, steps[i])
  }

  predicate Green(event: Event) {
    event.kind.Started? || event.kind.Succeeded? || event.kind.Skipped?
  }

  /** Nothing but green events was added, and no failed launch. */
  ghost predicate Smooth(w: World, w': World) {
    && w.trace <= w'.trace && w'.swallowed.None? && w'.failedLaunches == w.failedLaunches
    && forall k :: |w.trace| <= k < |w'.trace| ==> Green(w'.trace[k])
  }

  ghost predicate Succeeds(w: World, r: Result) {
    r.out.Returned? && Smooth(w, r.w)
  }

  lemma SmoothOn(w0: World, w1: World, w2: World)
    requires Smooth(w0, w1) && Smooth(w1, w2)
    ensures Smooth(w0, w2)
  {
  }

  lemma Decidable(e: Env, s: Step, w: World) returns (go: bool)
    requires Evaluable(s.ctl.when, e.search)
    ensures Condition(e, s, w) == Some(go)
  {
    EvaluableNeverRaises(s.ctl.when, e.search);
    assert ShouldExecute(s.ctl.when, View(e, w), e.search).Some?;
    go := Condition(e, s, w).value;
  }

  lemma AtomicSucceeds(e: Env, s: Step, d: Driver, w: World)
    requires Obliging(e) && IsAtomic(s.stype) && w.swallowed.None?
    ensures var a := AtomicAttempt(e, s, d, w); Succeeds(w, Result(a.out, a.w)) && a.w.trace == w.trace
  {
  }

  // ---------------------------------------------------------------- the step tree

  predicate Underway(c: Child) {
    c.Waiting? || (c.Trying? && c.k == 0) || (c.Done? && c.out.Returned?)
  }

  lemma MoveIsSmooth(e: Env, s: Step, id: StepId, c: Child, w: World)
    requires Obliging(e) && Sound(e, s) && IsAtomic(s.stype) && Underway(c) && w.swallowed.None?
    ensures var m := ChildMove(e, s, id, c, w); Underway(m.0) && Smooth(w, m.1)
  {
    if c.Waiting? { var go := Decidable(e, s, w.(ctx := c.ctx)); }
    if c.Trying? { AtomicSucceeds(e, s, None, w.(ctx := c.ctx)); }
  }

  lemma {:induction false} InterleaveIsSmooth(e: Env, steps: seq<Step>, id: StepId, cs: seq<Child>, w: World, n: nat)
    requires Obliging(e) && AllSound(e, steps) && |cs| == |steps| && w.swallowed.None?
    requires forall i :: 0 <= i < |steps| ==> IsAtomic(steps[i].stype) && Underway(cs[i])
    ensures var r := Interleave(e, steps, id, cs, w, n);
            Smooth(w, r.1) && forall i :: 0 <= i < |cs| ==> Underway(r.0[i])
    decreases TotalMeasure(steps, cs, |cs|)
  {
    if Unfinished(cs, |cs|) != [] {
      var i := Scheduled(e, cs, w.calls, n);
      var cid := ChildId(id, InParallel, i);
      var m := ChildMove(e, steps[i], cid, cs[i], w);
      ChildMoveDecreases(e, steps[i], cid, cs[i], w);
      TotalMeasureUpdate(steps, cs, |cs|, i, m.0);
      MoveIsSmooth(e, steps[i], cid, cs[i], w);
      InterleaveIsSmooth(e, steps, id, cs[i := m.0], m.1, n + 1);
      SmoothOn(w, m.1, Interleave(e, steps, id, cs, w, n).1);
    }
  }

  lemma ParallelSucceeds(e: Env, steps: seq<Step>, id: StepId, d: Driver, w: World)
    requires Obliging(e) && AllSound(e, steps) && w.swallowed.None?
    requires forall i :: 0 <= i < |steps| ==> IsParallelSafe(steps[i].stype)
    ensures Succeeds(w, ParallelBlock(e, steps, id, d, w))
  {
    var cs := Threads(steps, w.ctx);
    InterleaveIsSmooth(e, steps, id, cs, w, 0);
    FirstRaiseIsRaised(Interleave(e, steps, id, cs, w, 0).0, 0, d);
  }

  lemma {:induction false} StepSucceeds(e: Env, s: Step, id: StepId, d: Driver, w: World)
    requires Obliging(e) && Sound(e, s) && w.swallowed.None?
    ensures Succeeds(w, ExecStep(e, s, id, d, w))
    decreases s, 4, 0
  {
    var go := Decidable(e, s, w);
    if go {
      AttemptSucceeds(e, s, id, d, w);
      var a := Attempt(e, s, id, d, w);
      assert Attempts(e, s, id, 0, d, w) == Result(a.out, a.w);
    }
  }

  lemma {:induction false} AttemptSucceeds(e: Env, s: Step, id: StepId, d: Driver, w: World)
    requires Obliging(e) && Sound(e, s) && w.swallowed.None?
    ensures var a := Attempt(e, s, id, d, w); Succeeds(w, Result(a.out, a.w))
    decreases s, 2, 0
  {
    match s.stype
    case Group => SequenceSucceeds(e, s.steps, InGroup, 0, id, d, w);
    case Repeat => RepeatSucceeds(e, s, s.times, id, d, w);
    case Parallel => ParallelSucceeds(e, s.steps, id, d, w);
    case Try => TrySucceeds(e, s, id, d, w);
    case _ => AtomicSucceeds(e, s, d, w);
  }

  lemma {:induction false} SequenceSucceeds(e: Env, steps: seq<Step>, part: Part, i: nat, id: StepId, d: Driver,
                                            w: World)
    requires Obliging(e) && AllSound(e, steps) && i <= |steps| && w.swallowed.None?
    ensures Succeeds(w, Sequence(e, steps, part, i, id, d, w))
    decreases steps, 0, |steps| - i
  {
    if i < |steps| {
      var cid := ChildId(id, part, i);
      ChildSucceeds(e, steps[i], cid, d, w);
      var r := ExecChild(e, steps[i], cid, d, w);
      SequenceSucceeds(e, steps, part, i + 1, id, r.out.driver, r.w);
      SmoothOn(w, r.w, Sequence(e, steps, part, i, id, d, w).w);
    }
  }

  lemma {:induction false} ChildSucceeds(e: Env, s: Step, id: StepId, d: Driver, w: World)
    requires Obliging(e) && Sound(e, s)
    ensures Succeeds(w, ExecChild(e, s, id, d, w))
    decreases s, 5, 0
  {
    StepSucceeds(e, s, id, d, Start(w, id, s.stype));
  }

  lemma {:induction false} RepeatSucceeds(e: Env, s: Step, times: int, id: StepId, d: Driver, w: World)
    requires Obliging(e) && AllSound(e, s.steps) && w.swallowed.None?
    ensures Succeeds(w, RepeatBlock(e, s, times, id, d, w))
    decreases s, 0, if times > 0 then times else 0
  {
    if times > 0 {
      SequenceSucceeds(e, s.steps, InRepeat, 0, id, d, w);
      var r := Sequence(e, s.steps, InRepeat, 0, id, d, w);
      RepeatSucceeds(e, s, times - 1, id, r.out.driver, r.w);
      SmoothOn(w, r.w, RepeatBlock(e, s, times, id, d, w).w);
    }
  }

  lemma {:induction false} TrySucceeds(e: Env, s: Step, id: StepId, d: Driver, w: World)
    requires Obliging(e) && AllSound(e, s.trySteps) && AllSound(e, s.finallySteps) && w.swallowed.None?
    ensures Succeeds(w, TryBlock(e, s, id, d, w))
    decreases s, 0, 1
  {
    SequenceSucceeds(e, s.trySteps, InTry, 0, id, d, w);
    var t := Sequence(e, s.trySteps, InTry, 0, id, d, w);
    assert TryCatch(e, s, id, d, w) == t;
    if s.finallySteps != [] {
      SequenceSucceeds(e, s.finallySteps, InFinally, 0, id, t.out.driver, t.w);
      SmoothOn(w, t.w, TryBlock(e, s, id, d, w).w);
    }
  }

  // ---------------------------------------------------------------- the whole run

  lemma {:induction false} HooksSucceed(e: Env, steps: seq<Step>, part: Part, i: nat, d: Driver, w: World)
    returns (r: Result)
    requires Obliging(e) && AllSound(e, steps) && i <= |steps| && w.swallowed.None?
    ensures r == Hooks(e, steps, part, i, d, w) && Succeeds(w, r)
    decreases |steps| - i
  {
    if i == |steps| {
      r := Hooks(e, steps, part, i, d, w);
    } else {
      var s, id := steps[i], [Segment(part, i)];
      var go := Decidable(e, s, w);
      var w' := Emit(w, id, Skipped, s.stype, None);
      if !go {
        r := HooksSucceed(e, steps, part, i + 1, d, w');
        SmoothOn(w, w', r.w);
      } else {
        ChildSucceeds(e, s, id, d, w);
        var c := ExecChild(e, s, id, d, w);
        r := HooksSucceed(e, steps, part, i + 1, c.out.driver, c.w);
        SmoothOn(w, c.w, r.w);
      }
    }
  }

  lemma MainStepSucceeds(e: Env, s: Step, i: nat, d: Driver, w: World)
    requires Obliging(e) && Sound(e, s) && w.swallowed.None?
    ensures var m := MainStep(e, s, i, d, w); Succeeds(w, Result(m.out, m.w))
  {
    var id := [Segment(InSteps, i)];
    var got := EnsureDriver(e, s.stype, d, Emit(w, id, EventKind.Started, s.stype, None));
    var w1 := got.w.(swallowed := None);
    StepSucceeds(e, s, id, got.held, w1);
  }

  lemma {:induction false} MainSucceeds(e: Env, steps: seq<Step>, i: nat, d: Driver, w: World) returns (m: MainEnd)
    requires Obliging(e) && AllSound(e, steps) && i <= |steps| && w.swallowed.None?
    ensures m == MainSteps(e, steps, i, d, w) && Succeeds(w, Result(m.out, m.w))
    decreases |steps| - i
  {
    if i == |steps| {
      m := MainSteps(e, steps, i, d, w);
    } else {
      var s, id := steps[i], [Segment(InSteps, i)];
      var go := Decidable(e, s, w);
      var w' := Emit(w, id, Skipped, s.stype, None);
      if !go {
        m := MainSucceeds(e, steps, i + 1, d, w');
        SmoothOn(w, w', m.w);
      } else {
        MainStepSucceeds(e, s, i, d, w);
        var c := MainStep(e, s, i, d, w);
        m := MainSucceeds(e, steps, i + 1, c.out.driver, c.w);
        SmoothOn(w, c.w, m.w);
      }
    }
  }

  lemma BodySucceeds(e: Env, sc: Scenario, w: World)
    requires Obliging(e) && AllSound(e, sc.before) && AllSound(e, sc.steps) && AllSound(e, sc.onSuccess)
    requires w.swallowed.None?
    ensures var p := Body(e, sc, w); Smooth(w, p.w) && p.end.Ended? && p.end.success
  {
    var b := HooksSucceed(e, sc.before, BeforeSteps, 0, None, w);
    var m := MainSucceeds(e, sc.steps, 0, HookedDriver(b.w, None), b.w);
    SmoothOn(w, b.w, m.w);
    var w1 := Note(m.w, "current_step", StepLabel(e, sc.steps, m.reached));
    var r := HooksSucceed(e, sc.onSuccess, OnSuccess, 0, m.held, w1);
    SmoothOn(w, w1, r.w);
  }

  /** With handlers that answer in time and do not raise, browsers that start and quit and
      conditions that can be evaluated, every run of a supported scenario is a success: no
      event tells of a failure, a warning or a retry, and all steps are through. Of catch
      parts and failure hooks nothing is asked. */
  lemma SmoothRunsSucceed(e: Env, sc: Scenario, ctx: Ctx)
    requires Obliging(e) && AllSound(e, sc.before) && AllSound(e, sc.steps) && AllSound(e, sc.onSuccess)
    requires AllSound(e, sc.finallySteps)
    ensures var r := RunTask(e, sc, ctx);
            && r.end.Ended? && r.end.success && Good(r.w.trace, sc) && r.w.failedLaunches == 0
            && forall event :: event in r.w.trace ==> Green(event)
  {
    var p := Body(e, sc, Fresh(ctx));
    var w1 := Note(p.w, "current_step", p.at);
    BodySucceeds(e, sc, Fresh(ctx));
    var r := HooksSucceed(e, sc.finallySteps, FinallyHooks, 0, p.held, w1);
    SmoothOn(Fresh(ctx), w1, r.w);
    SuccessIsAllThrough(e, sc, ctx);
  }
}
