/** What a step can add to the records of a run, read off the step tree: which
    handlers it may call and which errors it may meet. Two of the program's static
    checks are sound for every run because of it: a validated scenario never meets an
    error of the interpreter itself, and a scenario whose network flag is down never
    calls the network handler. */
module Footprint {
  import opened Wrappers
  import opened Steps
  import opened Conditions
  import opened Interpreter

  /** `_step_requires_enterprise_network`. */
  predicate NeedsNetwork(s: Step) {
    || s.stype.RequireEnterpriseNetwork?
    || ((s.stype.Group? || s.stype.Parallel? || s.stype.Repeat?) && AnyNeedsNetwork(s.steps))
    || (s.stype.Try? &&
          (AnyNeedsNetwork(s.trySteps) || AnyNeedsNetwork(s.catchSteps) || AnyNeedsNetwork(s.finallySteps)))
  }

  predicate AnyNeedsNetwork(steps: seq<Step>) {
    exists i :: 0 <= i < |steps| && NeedsNetwork(steps[i])
  }

  /** The flag the loader stores with the scenario. */
  predicate ScenarioNeedsNetwork(sc: Scenario) {
    || AnyNeedsNetwork(sc.before) || AnyNeedsNetwork(sc.steps) || AnyNeedsNetwork(sc.onSuccess)
    || AnyNeedsNetwork(sc.onFailure) || AnyNeedsNetwork(sc.finallySteps)
  }

  /** All types are known and parallel blocks hold only parallel-safe steps. */
  ghost predicate Supported(s: Step) {
    && (IsAtomic(s.stype) || IsBlock(s.stype))
    && (s.stype.Parallel? ==> forall i :: 0 <= i < |s.steps| ==> IsParallelSafe(s.steps[i].stype))
    && (s.stype.Group? || s.stype.Parallel? || s.stype.Repeat? ==> AllSupported(s.steps))
    && (s.stype.Try? ==> AllSupported(s.trySteps) && AllSupported(s.catchSteps) && AllSupported(s.finallySteps))
  }

  ghost predicate AllSupported(steps: seq<Step>) {
    forall i :: 0 <= i < |steps| ==> Supported(steps[i])
  }

  ghost predicate ScenarioSupported(sc: Scenario) {
    && AllSupported(sc.before) && AllSupported(sc.steps) && AllSupported(sc.onSuccess)
    && AllSupported(sc.onFailure) && AllSupported(sc.finallySteps)
  }

  /** The three errors the interpreter raises on its own account. */
  predicate Internal(error: Error) {
    error.UnsupportedBlock? || error.UnsupportedStepType? || error.UnsupportedParallel?
  }

  predicate Shows(event: Event) {
    event.error.Some? && Internal(event.error.value)
  }

  /** What the records of a run may come to hold: calls of the network handler,
      internal errors, launched browsers. */
  datatype May = May(net: bool, err: bool, launch: bool)

  /** From `w` to `w'` records were only added, and nothing `may` excludes. */
  ghost predicate Adds(may: May, w: World, w': World) {
    && w.trace <= w'.trace && w.calls <= w'.calls && w.browsers <= w'.browsers && w.sleeps <= w'.sleeps
    && (!may.net ==> forall i :: |w.calls| <= i < |w'.calls| ==> !w'.calls[i].stype.RequireEnterpriseNetwork?)
    && (!may.err ==> forall i :: |w.trace| <= i < |w'.trace| ==> !Shows(w'.trace[i]))
    && (!may.launch ==> forall i :: |w.browsers| <= i < |w'.browsers| ==> !w'.browsers[i].Launch?)
  }

  ghost predicate AddsResult(may: May, w: World, r: Result) {
    Adds(may, w, r.w) && (!may.err && r.out.Raised? ==> !Internal(r.out.error))
  }

  lemma Chain(may: May, w0: World, w1: World, w2: World)
    requires Adds(may, w0, w1) && Adds(may, w1, w2)
    ensures Adds(may, w0, w2)
  {
  }

  // Every lemma below takes `may` as a bound on its steps, so that the bound of a
  // tree serves all its parts.

  ghost predicate Bounded(may: May, s: Step) {
    (NeedsNetwork(s) ==> may.net) && (!may.err ==> Supported(s))
  }

  ghost predicate AllBounded(may: May, steps: seq<Step>) {
    forall i :: 0 <= i < |steps| ==> Bounded(may, steps[i])
  }

  lemma BoundedParts(may: May, s: Step)
    requires Bounded(may, s)
    ensures s.stype.Group? || s.stype.Parallel? || s.stype.Repeat? ==> AllBounded(may, s.steps)
    ensures s.stype.Try? ==>
              AllBounded(may, s.trySteps) && AllBounded(may, s.catchSteps) && AllBounded(may, s.finallySteps)
  {
    if s.stype.Group? || s.stype.Parallel? || s.stype.Repeat? {
      assert !may.err ==> AllSupported(s.steps);
      assert AnyNeedsNetwork(s.steps) ==> may.net;
    }
    if s.stype.Try? {
      assert !may.err ==> AllSupported(s.trySteps) && AllSupported(s.catchSteps) && AllSupported(s.finallySteps);
      assert AnyNeedsNetwork(s.trySteps) || AnyNeedsNetwork(s.catchSteps) || AnyNeedsNetwork(s.finallySteps) ==>
               may.net;
    }
  }

  lemma AtomicAdds(may: May, e: Env, s: Step, d: Driver, w: World)
    requires e.dryRun || may.launch
    requires IsAtomic(s.stype) && Bounded(may, s)
    ensures var a := AtomicAttempt(e, s, d, w); AddsResult(may, w, Result(a.out, a.w))
  {
  }

  ghost predicate NoneInternal(cs: seq<Child>) {
    forall i :: 0 <= i < |cs| ==> Clean(cs[i])
  }

  predicate Clean(c: Child) {
    && (c.Reporting? ==> !Internal(c.error))
    && (c.Done? && c.out.Raised? ==> !Internal(c.out.error))
  }

  lemma MoveAdds(may: May, e: Env, s: Step, id: StepId, c: Child, w: World)
    requires e.dryRun || may.launch
    requires IsAtomic(s.stype) && Bounded(may, s)
    requires !may.err ==> Clean(c)
    ensures var m := ChildMove(e, s, id, c, w); Adds(may, w, m.1) && (!may.err ==> Clean(m.0))
  {
    if c.Trying? { AtomicAdds(may, e, s, None, w.(ctx := c.ctx)); }
  }

  lemma {:induction false} InterleaveAdds(may: May, e: Env, steps: seq<Step>, id: StepId, cs: seq<Child>, w: World,
                                          n: nat)
    requires e.dryRun || may.launch
    requires |cs| == |steps| && AllBounded(may, steps)
    requires forall i :: 0 <= i < |steps| ==> IsAtomic(steps[i].stype)
    requires !may.err ==> NoneInternal(cs)
    ensures var r := Interleave(e, steps, id, cs, w, n); Adds(may, w, r.1) && (!may.err ==> NoneInternal(r.0))
    decreases TotalMeasure(steps, cs, |cs|)
  {
    if Unfinished(cs, |cs|) != [] {
      var i := Scheduled(e, cs, w.calls, n);
      var cid := ChildId(id, InParallel, i);
      var m := ChildMove(e, steps[i], cid, cs[i], w);
      ChildMoveDecreases(e, steps[i], cid, cs[i], w);
      TotalMeasureUpdate(steps, cs, |cs|, i, m.0);
      MoveAdds(may, e, steps[i], cid, cs[i], w);
      InterleaveAdds(may, e, steps, id, cs[i := m.0], m.1, n + 1);
      Chain(may, w, m.1, Interleave(e, steps, id, cs, w, n).1);
    }
  }

  lemma {:induction false} FirstRaiseIsRaised(cs: seq<Child>, i: nat, d: Driver)
    requires i <= |cs|
    ensures var out := FirstRaise(cs, i, d);
            out.Raised? ==> exists j :: i <= j < |cs| && cs[j].Done? && cs[j].out == out
    decreases |cs| - i
  {
    if i < |cs| && !(cs[i].Done? && cs[i].out.Raised?) { FirstRaiseIsRaised(cs, i + 1, d); }
  }

  lemma ParallelAdds(may: May, e: Env, s: Step, id: StepId, d: Driver, w: World)
    requires e.dryRun || may.launch
    requires s.stype.Parallel? && Bounded(may, s)
    ensures AddsResult(may, w, ParallelBlock(e, s.steps, id, d, w))
  {
    BoundedParts(may, s);
    if UnsafeTypes(s.steps, |s.steps|) == [] {
      var cs := Threads(s.steps, w.ctx);
      InterleaveAdds(may, e, s.steps, id, cs, w, 0);
      FirstRaiseIsRaised(Interleave(e, s.steps, id, cs, w, 0).0, 0, d);
    }
  }

  lemma {:induction false} StepAdds(may: May, e: Env, s: Step, id: StepId, d: Driver, w: World)
    requires e.dryRun || may.launch
    requires Bounded(may, s)
    ensures AddsResult(may, w, ExecStep(e, s, id, d, w))
    decreases s, 4, 0
  {
    if Condition(e, s, w) == Some(true) { AttemptsAdd(may, e, s, id, 0, d, w); }
  }

  lemma {:induction false} AttemptsAdd(may: May, e: Env, s: Step, id: StepId, k: nat, d: Driver, w: World)
    requires e.dryRun || may.launch
    requires Bounded(may, s) && k < s.Attempts()
    ensures AddsResult(may, w, Attempts(e, s, id, k, d, w))
    decreases s, 3, s.Attempts() - k
  {
    var a := Attempt(e, s, id, d, w);
    if IsAtomic(s.stype) { AtomicAdds(may, e, s, d, w); } else { BlockAdds(may, e, s, id, d, w); }
    if a.out.Raised? {
      if k + 1 < s.Attempts() {
        var w' := Retry(s, id, k, a.out.error, a.w);
        Chain(may, w, a.w, w');
        AttemptsAdd(may, e, s, id, k + 1, a.held, w');
        Chain(may, w, w', Attempts(e, s, id, k, d, w).w);
      } else {
        Chain(may, w, a.w, Exhausted(e, s, id, a.out.error, a.held, a.w).w);
      }
    }
  }

  lemma {:induction false} BlockAdds(may: May, e: Env, s: Step, id: StepId, d: Driver, w: World)
    requires e.dryRun || may.launch
    requires Bounded(may, s)
    requires !IsAtomic(s.stype)
    ensures AddsResult(may, w, ExecBlock(e, s, id, d, w))
    decreases s, 1, 0
  {
    BoundedParts(may, s);
    match s.stype
    case Group => SequenceAdds(may, e, s.steps, InGroup, 0, id, d, w);
    case Repeat => RepeatAdds(may, e, s, s.times, id, d, w);
    case Parallel => ParallelAdds(may, e, s, id, d, w);
    case Try => TryAdds(may, e, s, id, d, w);
    case _ =>
  }

  lemma {:induction false} ChildAdds(may: May, e: Env, s: Step, id: StepId, d: Driver, w: World)
    requires e.dryRun || may.launch
    requires Bounded(may, s)
    ensures AddsResult(may, w, ExecChild(e, s, id, d, w))
    decreases s, 5, 0
  {
    var w' := Start(w, id, s.stype);
    StepAdds(may, e, s, id, d, w');
    CloseAdds(may, s, id, ExecStep(e, s, id, d, w'), w, w');
  }

  lemma CloseAdds(may: May, s: Step, id: StepId, r: Result, w: World, w': World)
    requires Adds(may, w, w') && AddsResult(may, w', r)
    ensures AddsResult(may, w, Close(s, id, r))
  {
    Chain(may, w, w', r.w);
    Chain(may, w, r.w, Close(s, id, r).w);
  }

  lemma {:induction false} SequenceAdds(may: May, e: Env, steps: seq<Step>, part: Part, i: nat, id: StepId,
                                        d: Driver, w: World)
    requires e.dryRun || may.launch
    requires i <= |steps| && AllBounded(may, steps)
    ensures AddsResult(may, w, Sequence(e, steps, part, i, id, d, w))
    decreases steps, 0, |steps| - i
  {
    if i < |steps| {
      var cid := ChildId(id, part, i);
      ChildAdds(may, e, steps[i], cid, d, w);
      var r := ExecChild(e, steps[i], cid, d, w);
      if r.out.Returned? {
        SequenceAdds(may, e, steps, part, i + 1, id, r.out.driver, r.w);
        Chain(may, w, r.w, Sequence(e, steps, part, i, id, d, w).w);
      }
    }
  }

  lemma {:induction false} RepeatAdds(may: May, e: Env, s: Step, times: int, id: StepId, d: Driver, w: World)
    requires e.dryRun || may.launch
    requires s.stype.Repeat? && Bounded(may, s)
    ensures AddsResult(may, w, RepeatBlock(e, s, times, id, d, w))
    decreases s, 0, if times > 0 then times else 0
  {
    if times > 0 {
      BoundedParts(may, s);
      SequenceAdds(may, e, s.steps, InRepeat, 0, id, d, w);
      var r := Sequence(e, s.steps, InRepeat, 0, id, d, w);
      if r.out.Returned? {
        RepeatAdds(may, e, s, times - 1, id, r.out.driver, r.w);
        Chain(may, w, r.w, RepeatBlock(e, s, times, id, d, w).w);
      }
    }
  }

  lemma {:induction false} TryCatchAdds(may: May, e: Env, s: Step, id: StepId, d: Driver, w: World)
    requires e.dryRun || may.launch
    requires s.stype.Try? && Bounded(may, s)
    ensures AddsResult(may, w, TryCatch(e, s, id, d, w))
    decreases s, 0, 0
  {
    BoundedParts(may, s);
    var t := Sequence(e, s.trySteps, InTry, 0, id, d, w);
    SequenceAdds(may, e, s.trySteps, InTry, 0, id, d, w);
    if t.out.Raised? && s.catchSteps != [] {
      var w' := t.w.(ctx := t.w.ctx["error_message" := e.text(t.out.error)]);
      SequenceAdds(may, e, s.catchSteps, InCatch, 0, id, d, w');
      Chain(may, w, w', TryCatch(e, s, id, d, w).w);
    }
  }

  lemma {:induction false} TryAdds(may: May, e: Env, s: Step, id: StepId, d: Driver, w: World)
    requires e.dryRun || may.launch
    requires s.stype.Try? && Bounded(may, s)
    ensures AddsResult(may, w, TryBlock(e, s, id, d, w))
    decreases s, 0, 1
  {
    TryCatchAdds(may, e, s, id, d, w);
    var r := TryCatch(e, s, id, d, w);
    if s.finallySteps != [] {
      BoundedParts(may, s);
      SequenceAdds(may, e, s.finallySteps, InFinally, 0, id, if r.out.Returned? then r.out.driver else d, r.w);
      Chain(may, w, r.w, TryBlock(e, s, id, d, w).w);
    }
  }

  lemma {:induction false} HooksAdd(may: May, e: Env, steps: seq<Step>, part: Part, i: nat, d: Driver, w: World)
    requires e.dryRun || may.launch
    requires i <= |steps| && AllBounded(may, steps)
    ensures AddsResult(may, w, Hooks(e, steps, part, i, d, w))
    decreases |steps| - i
  {
    if i < |steps| {
      var s, id := steps[i], [Segment(part, i)];
      var go := Condition(e, s, w);
      if go == Some(false) {
        var w' := Emit(w, id, Skipped, s.stype, None);
        HooksAdd(may, e, steps, part, i + 1, d, w');
        Chain(may, w, w', Hooks(e, steps, part, i, d, w).w);
      } else if go == Some(true) {
        ChildAdds(may, e, s, id, d, w);
        var r := ExecChild(e, s, id, d, w);
        if r.out.Returned? {
          HooksAdd(may, e, steps, part, i + 1, r.out.driver, r.w);
          Chain(may, w, r.w, Hooks(e, steps, part, i, d, w).w);
        }
      }
    }
  }

  lemma MainStepAdds(may: May, e: Env, s: Step, i: nat, d: Driver, w: World)
    requires e.dryRun || may.launch
    requires Bounded(may, s)
    ensures var m := MainStep(e, s, i, d, w); AddsResult(may, w, Result(m.out, m.w))
  {
    var id := [Segment(InSteps, i)];
    var got := EnsureDriver(e, s.stype, d, Emit(w, id, Started, s.stype, None));
    if got.out.Returned? {
      var w' := got.w.(swallowed := None);
      StepAdds(may, e, s, id, got.held, w');
      CloseAdds(may, s, id, ExecStep(e, s, id, got.held, w'), w, w');
    }
  }

  lemma {:induction false} MainAdds(may: May, e: Env, steps: seq<Step>, i: nat, d: Driver, w: World)
    requires e.dryRun || may.launch
    requires i <= |steps| && AllBounded(may, steps)
    ensures var m := MainSteps(e, steps, i, d, w); AddsResult(may, w, Result(m.out, m.w))
    decreases |steps| - i
  {
    if i < |steps| {
      var s, id := steps[i], [Segment(InSteps, i)];
      var go := Condition(e, s, w);
      if go == Some(false) {
        var w' := Emit(w, id, Skipped, s.stype, None);
        MainAdds(may, e, steps, i + 1, d, w');
        Chain(may, w, w', MainSteps(e, steps, i, d, w).w);
      } else if go == Some(true) {
        var m := MainStep(e, s, i, d, w);
        MainStepAdds(may, e, s, i, d, w);
        if m.out.Returned? {
          MainAdds(may, e, steps, i + 1, m.out.driver, m.w);
          Chain(may, w, m.w, MainSteps(e, steps, i, d, w).w);
        }
      }
    }
  }

  ghost predicate EndsClean(may: May, end: TaskEnd) {
    !may.err && end.Escaped? ==> !Internal(end.error)
  }

  lemma ErrorPhaseAdds(may: May, e: Env, sc: Scenario, error: Error, d: Driver, at: string, w: World)
    requires e.dryRun || may.launch
    requires AllBounded(may, sc.onFailure)
    ensures var p := OnError(e, sc, error, d, at, w); Adds(may, w, p.w) && EndsClean(may, p.end)
  {
    HooksAdd(may, e, sc.onFailure, OnFailure, 0, d, Note(Note(w, "current_step", at), "error_message", e.text(error)));
  }

  lemma ReturnPhaseAdds(may: May, e: Env, sc: Scenario, m: MainEnd)
    requires e.dryRun || may.launch
    requires m.out.Returned? && AllBounded(may, sc.onSuccess) && AllBounded(may, sc.onFailure)
    ensures var p := OnReturn(e, sc, m); Adds(may, m.w, p.w) && EndsClean(may, p.end)
  {
    var w := Note(m.w, "current_step", StepLabel(e, sc.steps, m.reached));
    HooksAdd(may, e, sc.onSuccess, OnSuccess, 0, m.held, w);
    var r := Hooks(e, sc.onSuccess, OnSuccess, 0, m.held, w);
    if r.out.Raised? {
      ErrorPhaseAdds(may, e, sc, r.out.error, m.held, StepLabel(e, sc.steps, m.reached), r.w);
      Chain(may, m.w, r.w, OnReturn(e, sc, m).w);
    }
  }

  lemma FinallyAdds(may: May, e: Env, sc: Scenario, p: Phase)
    requires e.dryRun || may.launch
    requires AllBounded(may, sc.finallySteps) && EndsClean(may, p.end)
    ensures var r := Finally(e, sc, p); Adds(may, p.w, r.w) && EndsClean(may, r.end)
  {
    HooksAdd(may, e, sc.finallySteps, FinallyHooks, 0, p.held, Note(p.w, "current_step", p.at));
  }

  lemma RunAdds(may: May, e: Env, sc: Scenario, ctx: Ctx)
    requires e.dryRun || may.launch
    requires AllBounded(may, sc.before) && AllBounded(may, sc.steps) && AllBounded(may, sc.onSuccess)
    requires AllBounded(may, sc.onFailure) && AllBounded(may, sc.finallySteps)
    ensures var r := RunTask(e, sc, ctx); Adds(may, Fresh(ctx), r.w) && EndsClean(may, r.end)
  {
    var w := Fresh(ctx);
    HooksAdd(may, e, sc.before, BeforeSteps, 0, None, w);
    var h := Hooks(e, sc.before, BeforeSteps, 0, None, w);
    var p := Body(e, sc, w);
    if h.out.Raised? {
      ErrorPhaseAdds(may, e, sc, h.out.error, None, StepLabel(e, sc.steps, 0), h.w);
      Chain(may, w, h.w, p.w);
    } else {
      var m := MainSteps(e, sc.steps, 0, HookedDriver(h.w, None), h.w);
      MainAdds(may, e, sc.steps, 0, HookedDriver(h.w, None), h.w);
      Chain(may, w, h.w, m.w);
      if m.out.Raised? {
        ErrorPhaseAdds(may, e, sc, m.out.error, m.held, StepLabel(e, sc.steps, m.reached), m.w);
      } else {
        ReturnPhaseAdds(may, e, sc, m);
      }
      Chain(may, w, m.w, p.w);
    }
    FinallyAdds(may, e, sc, p);
    Chain(may, w, p.w, RunTask(e, sc, ctx).w);
  }

  /** A scenario whose network flag is down never calls the network handler, in any
      run, with any handlers and any scheduling. */
  lemma NetworkFlagIsSound(e: Env, sc: Scenario, ctx: Ctx)
    requires !ScenarioNeedsNetwork(sc)
    ensures forall c :: c in RunTask(e, sc, ctx).w.calls ==> !c.stype.RequireEnterpriseNetwork?
  {
    RunAdds(May(false, true, true), e, sc, ctx);
  }

  /** No run of a supported scenario shows an internal error, in an event or in how
      it ends. */
  lemma SupportedScenariosDoNotGoWrong(e: Env, sc: Scenario, ctx: Ctx)
    requires ScenarioSupported(sc)
    ensures var r := RunTask(e, sc, ctx);
            && (forall event :: event in r.w.trace ==> !Shows(event))
            && (r.end.Escaped? ==> !Internal(r.end.error))
  {
    RunAdds(May(true, false, true), e, sc, ctx);
  }

  /** A dry run launches no browser. */
  lemma DryRunLaunchesNothing(e: Env, sc: Scenario, ctx: Ctx)
    requires e.dryRun
    ensures forall b :: b in RunTask(e, sc, ctx).w.browsers ==> !b.Launch?
  {
    RunAdds(May(true, true, false), e, sc, ctx);
  }
}
