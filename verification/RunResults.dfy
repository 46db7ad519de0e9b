/** What `run_task` reports, told from the events of the run. */
module RunResults {
  import opened Wrappers
  import opened Steps
  import opened Digits
  import opened Conditions
  import opened Interpreter
  import opened ClosingEvents
  import opened Events
  import opened LostBrowsers

  /** The list of this part was left at step `n`: the step failed with this error, or its
      condition could not be evaluated, or its browser could not be launched. */
  ghost predicate Blames(t: seq<Event>, steps: seq<Step>, part: Part, n: nat, error: Error) {
    && n < |steps| && LeftAt(t, 0, [], part, n)
    && var id := ChildId([], part, n);
    || FailedSince(t, 0, id, error)
    || (error == BadCondition(steps[n].ctl.when.GetOr("")) && NoneFrom(t, 0, [], part, n))
    || (part == InSteps && error.LaunchFailed? && StuckSince(t, id))
  }

  /** The step was started and nothing more is said of it. */
  ghost predicate StuckSince(t: seq<Event>, id: StepId) {
    && (exists k :: 0 <= k < |t| && t[k].id == id && t[k].kind.Started?)
    && forall k :: 0 <= k < |t| && t[k].id == id ==> t[k].kind.Started?
  }

  lemma SameIds(part: Part, i: nat)
    ensures ChildId([], part, i) == [Segment(part, i)]
  {
  }

  lemma SkippedThrough(w: World, part: Part, i: nat, t: StepType)
    requires Through(w.trace, 0, [], part, i)
    ensures var w' := Emit(w, [Segment(part, i)], Skipped, t, None);
            Through(w'.trace, 0, [], part, i + 1) && Grows(w, w', [], {part}, i)
  {
    var id := [Segment(part, i)];
    var w' := Emit(w, id, Skipped, t, None);
    SameIds(part, i);
    StillClosed(w.trace, w'.trace, 0, [], part, i);
    assert w'.trace[|w.trace|] == Event(id, Skipped, t, None);
    assert ClosedSince(w'.trace, 0, id);
    assert Below(w'.trace[|w.trace|], [], {part}, i);
  }

  lemma UnevaluableBlames(t: seq<Event>, steps: seq<Step>, part: Part, i: nat)
    requires i < |steps| && Through(t, 0, [], part, i)
    ensures Blames(t, steps, part, i, BadCondition(steps[i].ctl.when.GetOr("")))
  {
    var id := ChildId([], part, i);
    SameIds(part, i);
    forall k | 0 <= k < |t| ensures t[k].id != id { assert !Below(t[k], [], {part}, i); }
  }

  /** From step `i` of a list of this part on: it returns exactly when its steps are through,
      and one that raises is left at the step to blame. */
  ghost predicate ListThrough(steps: seq<Step>, part: Part, i: nat, w: World, r: Result, n: nat) {
    && Grows(w, r.w, [], {part}, i)
    && (r.out.Returned? ==> Through(r.w.trace, 0, [], part, |steps|))
    && (r.out.Raised? ==> Blames(r.w.trace, steps, part, n, r.out.error))
  }

  lemma ListGoesOn(steps: seq<Step>, part: Part, i: nat, w: World, w': World, r: Result, n: nat)
    requires Grows(w, w', [], {part}, i) && ListThrough(steps, part, i + 1, w', r, n)
    ensures ListThrough(steps, part, i, w, r, n)
  {
    GrowsMore(w', r.w, [], {part}, i + 1, {part}, i);
    GrowsOn(w, w', r.w, [], {part}, i);
  }

  lemma HookThrough(e: Env, steps: seq<Step>, part: Part, i: nat, d: Driver, w: World)
    requires i < |steps| && Through(w.trace, 0, [], part, i)
    ensures var r := ExecChild(e, steps[i], [Segment(part, i)], d, w);
            && Grows(w, r.w, [], {part}, i)
            && (r.out.Returned? ==> Through(r.w.trace, 0, [], part, i + 1))
            && (r.out.Raised? ==> Blames(r.w.trace, steps, part, i, r.out.error))
  {
    var s, id := steps[i], [Segment(part, i)];
    var r := ExecChild(e, s, id, d, w);
    SameIds(part, i);
    ChildEvents(e, s, id, d, w);
    ChildIsBelow(s, [], part, i, w, r);
    ChildThrough(s, [], part, i, w, r, 0);
  }

  lemma {:induction false} HooksThrough(e: Env, steps: seq<Step>, part: Part, i: nat, d: Driver, w: World)
    returns (n: nat)
    requires i <= |steps| && Through(w.trace, 0, [], part, i)
    ensures ListThrough(steps, part, i, w, Hooks(e, steps, part, i, d, w), n)
    decreases |steps| - i
  {
    n := i;
    if i < |steps| {
      var s, id, all := steps[i], [Segment(part, i)], Hooks(e, steps, part, i, d, w);
      var go := Condition(e, s, w);
      if go.None? {
        UnevaluableBlames(w.trace, steps, part, i);
      } else if !go.value {
        var w' := Emit(w, id, Skipped, s.stype, None);
        SkippedThrough(w, part, i, s.stype);
        n := HooksThrough(e, steps, part, i + 1, d, w');
        ListGoesOn(steps, part, i, w, w', all, n);
      } else {
        HookThrough(e, steps, part, i, d, w);
        var r := ExecChild(e, s, id, d, w);
        if r.out.Returned? {
          n := HooksThrough(e, steps, part, i + 1, r.out.driver, r.w);
          ListGoesOn(steps, part, i, w, r.w, all, n);
        }
      }
    }
  }

  lemma MainStepThrough(e: Env, steps: seq<Step>, i: nat, d: Driver, w: World)
    requires i < |steps| && Through(w.trace, 0, [], InSteps, i)
    ensures var m := MainStep(e, steps[i], i, d, w);
            && Grows(w, m.w, [], {InSteps}, i)
            && (m.out.Returned? ==> Through(m.w.trace, 0, [], InSteps, i + 1))
            && (m.out.Raised? ==> Blames(m.w.trace, steps, InSteps, i, m.out.error) && m.reached == i + 1)
  {
    var s, id := steps[i], [Segment(InSteps, i)];
    var w0 := Emit(w, id, Started, s.stype, None);
    var got := EnsureDriver(e, s.stype, d, w0);
    SameIds(InSteps, i);
    if got.out.Raised? {
      StuckBlames(w, w0, steps, i, got.out.error);
      assert got.w.trace == w0.trace;
    } else {
      var w1 := got.w.(swallowed := None);
      assert w1.trace == w0.trace;
      var r := ExecStep(e, s, id, got.held, w1);
      StepEvents(e, s, id, got.held, w1);
      if Condition(e, s, w1) == Some(true) { AttemptsFlag(e, s, id, 0, got.held, w1); }
      ClosedEvents(s, id, w, w1, r);
      ChildIsBelow(s, [], InSteps, i, w, Close(s, id, r));
      ChildThrough(s, [], InSteps, i, w, Close(s, id, r), 0);
    }
  }

  lemma StuckBlames(w: World, w': World, steps: seq<Step>, i: nat, error: Error)
    requires i < |steps| && Through(w.trace, 0, [], InSteps, i) && error.LaunchFailed?
    requires w' == Emit(w, [Segment(InSteps, i)], Started, steps[i].stype, None)
    ensures Grows(w, w', [], {InSteps}, i) && Blames(w'.trace, steps, InSteps, i, error)
  {
    var id, t := [Segment(InSteps, i)], w'.trace;
    SameIds(InSteps, i);
    StillClosed(w.trace, t, 0, [], InSteps, i);
    assert t[|w.trace|] == Event(id, Started, steps[i].stype, None);
    assert Below(t[|w.trace|], [], {InSteps}, i);
    forall k | 0 <= k < |t| ensures (t[k].id == id ==> t[k].kind.Started?) && !Below(t[k], [], {InSteps}, i + 1) {
      if k < |w.trace| { assert t[k] == w.trace[k] && !Below(t[k], [], {InSteps}, i); }
    }
    assert StuckSince(t, id);
  }

  lemma {:induction false} MainThrough(e: Env, steps: seq<Step>, i: nat, d: Driver, w: World) returns (n: nat)
    requires i <= |steps| && Through(w.trace, 0, [], InSteps, i)
    ensures var m := MainSteps(e, steps, i, d, w);
            && ListThrough(steps, InSteps, i, w, Result(m.out, m.w), n)
            && m.reached == if m.out.Returned? then |steps| else n + 1
    decreases |steps| - i
  {
    n := i;
    if i < |steps| {
      var s, id, all := steps[i], [Segment(InSteps, i)], MainSteps(e, steps, i, d, w);
      var go := Condition(e, s, w);
      if go.None? {
        UnevaluableBlames(w.trace, steps, InSteps, i);
      } else if !go.value {
        var w' := Emit(w, id, Skipped, s.stype, None);
        SkippedThrough(w, InSteps, i, s.stype);
        n := MainThrough(e, steps, i + 1, d, w');
        ListGoesOn(steps, InSteps, i, w, w', Result(all.out, all.w), n);
      } else {
        MainStepThrough(e, steps, i, d, w);
        var m := MainStep(e, s, i, d, w);
        if m.out.Returned? {
          n := MainThrough(e, steps, i + 1, m.out.driver, m.w);
          ListGoesOn(steps, InSteps, i, w, m.w, Result(all.out, all.w), n);
        }
      }
    }
  }

  // ---------------------------------------------------------------- the whole run

  /** The step at which the before hooks, the main steps or the success hooks were left,
      and the error. */
  datatype Cause = Cause(part: Part, index: nat, error: Error)

  /** The steps of this part are all through. */
  ghost predicate AllThrough(t: seq<Event>, steps: seq<Step>, part: Part) {
    ClosedBefore(t, 0, [], part, |steps|)
  }

  ghost predicate Untold(t: seq<Event>, part: Part) {
    NoneFrom(t, 0, [], part, 0)
  }

  /** The run came as far as this and no further. */
  ghost predicate StopsAt(t: seq<Event>, sc: Scenario, c: Cause) {
    match c.part
    case BeforeSteps =>
      Blames(t, sc.before, BeforeSteps, c.index, c.error) && Untold(t, InSteps) && Untold(t, OnSuccess)
    case InSteps =>
      && AllThrough(t, sc.before, BeforeSteps)
      && Blames(t, sc.steps, InSteps, c.index, c.error) && Untold(t, OnSuccess)
    case OnSuccess =>
      && AllThrough(t, sc.before, BeforeSteps) && AllThrough(t, sc.steps, InSteps)
      && Blames(t, sc.onSuccess, OnSuccess, c.index, c.error)
    case _ => false
  }

  /** Hooks before, main steps and success hooks are all through. */
  ghost predicate Good(t: seq<Event>, sc: Scenario) {
    AllThrough(t, sc.before, BeforeSteps) && AllThrough(t, sc.steps, InSteps) && AllThrough(t, sc.onSuccess, OnSuccess)
  }

  lemma StillBlames(w: World, w': World, steps: seq<Step>, part: Part, n: nat, error: Error, part': Part)
    requires Blames(w.trace, steps, part, n, error) && Grows(w, w', [], {part'}, 0) && part' != part
    ensures Blames(w'.trace, steps, part, n, error)
  {
    var id, t, t' := ChildId([], part, n), w.trace, w'.trace;
    SameIds(part, n);
    StillClosed(t, t', 0, [], part, n);
    StillNone(w, w', 0, [], part, n + 1, {part'}, 0);
    StillUnclosed(w, w', 0, [], part, n, {part'}, 0);
    forall k | 0 <= k < |t'| ensures t'[k].id == id ==> k < |t| && t'[k] == t[k] {
    }
    if FailedSince(t, 0, id, error) {
      var k :| 0 <= k < |t| && t[k].id == id && t[k].kind.Failed?;
      assert t'[k] == t[k];
      assert FailedSince(t', 0, id, error);
    } else if NoneFrom(t, 0, [], part, n) {
      StillNone(w, w', 0, [], part, n, {part'}, 0);
    } else {
      var k :| 0 <= k < |t| && t[k].id == id && t[k].kind.Started?;
      assert t'[k] == t[k];
      assert StuckSince(t', id);
    }
  }

  lemma StillUntold(w: World, w': World, part: Part, part': Part)
    requires Untold(w.trace, part) && Grows(w, w', [], {part'}, 0) && part' != part
    ensures Untold(w'.trace, part)
  {
    StillNone(w, w', 0, [], part, 0, {part'}, 0);
  }

  lemma StillStops(w: World, w': World, sc: Scenario, c: Cause, part': Part)
    requires StopsAt(w.trace, sc, c) && Grows(w, w', [], {part'}, 0) && (part'.OnFailure? || part'.FinallyHooks?)
    ensures StopsAt(w'.trace, sc, c)
  {
    if c.part.BeforeSteps? {
      StillBlames(w, w', sc.before, BeforeSteps, c.index, c.error, part');
      StillUntold(w, w', InSteps, part');
      StillUntold(w, w', OnSuccess, part');
    } else {
      StillClosed(w.trace, w'.trace, 0, [], BeforeSteps, |sc.before|);
      if c.part.InSteps? {
        StillBlames(w, w', sc.steps, InSteps, c.index, c.error, part');
        StillUntold(w, w', OnSuccess, part');
      } else {
        StillClosed(w.trace, w'.trace, 0, [], InSteps, |sc.steps|);
        StillBlames(w, w', sc.onSuccess, OnSuccess, c.index, c.error, part');
      }
    }
  }

  lemma StillGood(w: World, w': World, sc: Scenario)
    requires Good(w.trace, sc) && w.trace <= w'.trace
    ensures Good(w'.trace, sc)
  {
    StillClosed(w.trace, w'.trace, 0, [], BeforeSteps, |sc.before|);
    StillClosed(w.trace, w'.trace, 0, [], InSteps, |sc.steps|);
    StillClosed(w.trace, w'.trace, 0, [], OnSuccess, |sc.onSuccess|);
  }

  /** A run that stopped somewhere is not good. */
  lemma StoppedIsNotGood(t: seq<Event>, sc: Scenario, c: Cause)
    requires StopsAt(t, sc, c)
    ensures !Good(t, sc)
  {
    assert !ClosedSince(t, 0, ChildId([], c.part, c.index));
  }

  /** How many main steps a run that stopped there has come to. */
  function ReachedBy(sc: Scenario, c: Cause): nat {
    if c.part.BeforeSteps? then 0 else if c.part.InSteps? then c.index + 1 else |sc.steps|
  }

  /** What the except clause leaves behind. */
  ghost predicate FailsWith(e: Env, sc: Scenario, c: Cause, p: Phase) {
    && StopsAt(p.w.trace, sc, c) && Untold(p.w.trace, FinallyHooks)
    && p.at == StepLabel(e, sc.steps, ReachedBy(sc, c))
    && (p.end.Ended? ==>
          && AllThrough(p.w.trace, sc.onFailure, OnFailure)
          && !p.end.success && p.end.message == e.text(c.error) && p.end.step == p.at)
    && (p.end.Escaped? ==> exists n :: Blames(p.w.trace, sc.onFailure, OnFailure, n, p.end.error))
  }

  lemma ErrorPhaseFails(e: Env, sc: Scenario, c: Cause, d: Driver, w: World)
    requires StopsAt(w.trace, sc, c) && Untold(w.trace, OnFailure) && Untold(w.trace, FinallyHooks)
    ensures FailsWith(e, sc, c, OnError(e, sc, c.error, d, StepLabel(e, sc.steps, ReachedBy(sc, c)), w))
  {
    var at := StepLabel(e, sc.steps, ReachedBy(sc, c));
    var w1 := Note(Note(w, "current_step", at), "error_message", e.text(c.error));
    assert w1.trace == w.trace;
    var n := HooksThrough(e, sc.onFailure, OnFailure, 0, d, w1);
    var r := Hooks(e, sc.onFailure, OnFailure, 0, d, w1);
    StillStops(w1, r.w, sc, c, OnFailure);
    StillUntold(w1, r.w, FinallyHooks, OnFailure);
  }

  /** What the try clause leaves behind when all goes well. */
  ghost predicate EndsWell(e: Env, sc: Scenario, p: Phase) {
    && Good(p.w.trace, sc) && Untold(p.w.trace, OnFailure) && Untold(p.w.trace, FinallyHooks)
    && p.end.Ended? && p.end.success && p.end.step == p.at == StepLabel(e, sc.steps, |sc.steps|)
    && p.end.message == if e.dryRun then "Dry-run complet du scenario execute." else "Tache executee avec succes."
  }

  lemma ReturnPhaseEnds(e: Env, sc: Scenario, m: MainEnd) returns (c: Option<Cause>)
    requires m.out.Returned? && m.reached == |sc.steps|
    requires AllThrough(m.w.trace, sc.before, BeforeSteps) && AllThrough(m.w.trace, sc.steps, InSteps)
    requires Untold(m.w.trace, OnSuccess) && Untold(m.w.trace, OnFailure) && Untold(m.w.trace, FinallyHooks)
    ensures var p := OnReturn(e, sc, m); if c.None? then EndsWell(e, sc, p) else FailsWith(e, sc, c.value, p)
  {
    var at := StepLabel(e, sc.steps, m.reached);
    var w := Note(m.w, "current_step", at);
    assert w.trace == m.w.trace;
    var n := HooksThrough(e, sc.onSuccess, OnSuccess, 0, m.held, w);
    var r := Hooks(e, sc.onSuccess, OnSuccess, 0, m.held, w);
    StillClosed(w.trace, r.w.trace, 0, [], BeforeSteps, |sc.before|);
    StillClosed(w.trace, r.w.trace, 0, [], InSteps, |sc.steps|);
    StillUntold(w, r.w, OnFailure, OnSuccess);
    StillUntold(w, r.w, FinallyHooks, OnSuccess);
    if r.out.Raised? {
      c := Some(Cause(OnSuccess, n, r.out.error));
      ErrorPhaseFails(e, sc, c.value, m.held, r.w);
    } else {
      c := None;
    }
  }

  lemma BodyEnds(e: Env, sc: Scenario, ctx: Ctx) returns (c: Option<Cause>)
    ensures var p := Body(e, sc, Fresh(ctx)); if c.None? then EndsWell(e, sc, p) else FailsWith(e, sc, c.value, p)
  {
    var w := Fresh(ctx);
    var n := HooksThrough(e, sc.before, BeforeSteps, 0, None, w);
    var b := Hooks(e, sc.before, BeforeSteps, 0, None, w);
    assert Untold(b.w.trace, InSteps) && Untold(b.w.trace, OnSuccess);
    assert Untold(b.w.trace, OnFailure) && Untold(b.w.trace, FinallyHooks);
    if b.out.Raised? {
      c := Some(Cause(BeforeSteps, n, b.out.error));
      ErrorPhaseFails(e, sc, c.value, None, b.w);
    } else {
      c := MainEnds(e, sc, b.w);
    }
  }

  /** Between the before hooks and the hooks at the end. */
  ghost predicate Midway(t: seq<Event>, sc: Scenario) {
    && AllThrough(t, sc.before, BeforeSteps) && Untold(t, OnSuccess)
    && Untold(t, OnFailure) && Untold(t, FinallyHooks)
  }

  lemma StillMidway(w: World, w': World, sc: Scenario)
    requires Midway(w.trace, sc) && Grows(w, w', [], {InSteps}, 0)
    ensures Midway(w'.trace, sc)
  {
    StillClosed(w.trace, w'.trace, 0, [], BeforeSteps, |sc.before|);
    StillUntold(w, w', OnSuccess, InSteps);
    StillUntold(w, w', OnFailure, InSteps);
    StillUntold(w, w', FinallyHooks, InSteps);
  }

  lemma MainEnds(e: Env, sc: Scenario, w: World) returns (c: Option<Cause>)
    requires Midway(w.trace, sc) && Untold(w.trace, InSteps)
    ensures var m := MainSteps(e, sc.steps, 0, HookedDriver(w, None), w);
            var p := AfterMain(e, sc, m);
            if c.None? then EndsWell(e, sc, p) else FailsWith(e, sc, c.value, p)
  {
    var m := MainSteps(e, sc.steps, 0, HookedDriver(w, None), w);
    var n := MainThrough(e, sc.steps, 0, HookedDriver(w, None), w);
    StillMidway(w, m.w, sc);
    if m.out.Raised? {
      c := Some(Cause(InSteps, n, m.out.error));
      ErrorPhaseFails(e, sc, c.value, m.held, m.w);
    } else {
      c := ReturnPhaseEnds(e, sc, m);
    }
  }

  /** The last quit raised. */
  ghost predicate QuitRaised(e: Env, r: Run) {
    r.end.Escaped? && r.end.error.QuitFailed? && e.quit(r.w.calls, r.w.browsers) == Some(r.end.error.message)
  }

  /** The end of the finally clause. */
  ghost predicate Finishes(e: Env, sc: Scenario, p: Phase, r: Run) {
    && Grows(p.w, r.w, [], {FinallyHooks}, 0)
    && if AllThrough(r.w.trace, sc.finallySteps, FinallyHooks) then r.end == p.end || QuitRaised(e, r)
       else r.end.Escaped? && exists n :: Blames(r.w.trace, sc.finallySteps, FinallyHooks, n, r.end.error)
  }

  lemma FinallyFinishes(e: Env, sc: Scenario, p: Phase)
    requires Untold(p.w.trace, FinallyHooks)
    ensures Finishes(e, sc, p, Finally(e, sc, p))
  {
    var w := Note(p.w, "current_step", p.at);
    assert w.trace == p.w.trace;
    var n := HooksThrough(e, sc.finallySteps, FinallyHooks, 0, p.held, w);
    var r := Hooks(e, sc.finallySteps, FinallyHooks, 0, p.held, w);
    if r.out.Raised? { assert !ClosedSince(r.w.trace, 0, ChildId([], FinallyHooks, n)); }
  }

  /** How a run ended, given where its body stopped, if anywhere. */
  ghost predicate Tale(e: Env, sc: Scenario, c: Option<Cause>, r: Run) {
    && Course(sc, c, r.w.trace)
    && (r.end.Ended? ==>
          && r.end.success == c.None? && r.end.message == MessageFor(e, c)
          && r.end.step == StepLabel(e, sc.steps, if c.None? then |sc.steps| else ReachedBy(sc, c.value))
          && AllThrough(r.w.trace, sc.finallySteps, FinallyHooks)
          && (c.Some? ==> AllThrough(r.w.trace, sc.onFailure, OnFailure)))
    && (r.end.Escaped? ==> Escapes(e, sc, c, r))
  }

  ghost predicate Course(sc: Scenario, c: Option<Cause>, t: seq<Event>) {
    if c.None? then Good(t, sc) && Untold(t, OnFailure) else StopsAt(t, sc, c.value)
  }

  function MessageFor(e: Env, c: Option<Cause>): string {
    if c.Some? then e.text(c.value.error)
    else if e.dryRun then "Dry-run complet du scenario execute."
    else "Tache executee avec succes."
  }

  ghost predicate Escapes(e: Env, sc: Scenario, c: Option<Cause>, r: Run) {
    || HooksEscape(r, sc.finallySteps, FinallyHooks)
    || (c.Some? && HooksEscape(r, sc.onFailure, OnFailure))
    || (AllThrough(r.w.trace, sc.finallySteps, FinallyHooks) && QuitRaised(e, r))
  }

  ghost predicate HooksEscape(r: Run, steps: seq<Step>, part: Part) {
    r.end.Escaped? && exists n :: Blames(r.w.trace, steps, part, n, r.end.error)
  }

  lemma RunTells(e: Env, sc: Scenario, ctx: Ctx) returns (c: Option<Cause>)
    ensures Tale(e, sc, c, RunTask(e, sc, ctx))
  {
    var p := Body(e, sc, Fresh(ctx));
    c := BodyEnds(e, sc, ctx);
    FinallyFinishes(e, sc, p);
    if c.None? {
      GoodTale(e, sc, p, Finally(e, sc, p));
    } else {
      FailureTale(e, sc, c.value, p, Finally(e, sc, p));
    }
  }

  lemma GoodTale(e: Env, sc: Scenario, p: Phase, r: Run)
    requires EndsWell(e, sc, p) && Finishes(e, sc, p, r)
    ensures Tale(e, sc, None, r)
  {
    StillGood(p.w, r.w, sc);
    StillUntold(p.w, r.w, OnFailure, FinallyHooks);
  }

  lemma FailureTale(e: Env, sc: Scenario, c: Cause, p: Phase, r: Run)
    requires FailsWith(e, sc, c, p) && Finishes(e, sc, p, r)
    ensures Tale(e, sc, Some(c), r)
  {
    StillStops(p.w, r.w, sc, c, FinallyHooks);
    if p.end.Ended? {
      StillClosed(p.w.trace, r.w.trace, 0, [], OnFailure, |sc.onFailure|);
    } else if r.end == p.end {
      var n :| Blames(p.w.trace, sc.onFailure, OnFailure, n, p.end.error);
      StillBlames(p.w, r.w, sc.onFailure, OnFailure, n, p.end.error, FinallyHooks);
    }
  }

  /** A run that ends reports success if and only if all its before hooks, main steps and
      success hooks are through, each closed as succeeded or warned or else skipped; its
      finally hooks are through then, and those for failure if it reports failure, or else
      none of them was begun. A run ends unless such a list of hooks, or the last quit,
      raised: then that exception escapes. */
  lemma SuccessIsAllThrough(e: Env, sc: Scenario, ctx: Ctx)
    ensures var r := RunTask(e, sc, ctx); var t := r.w.trace;
            r.end.Ended? ==>
              && (r.end.success <==> Good(t, sc)) && AllThrough(t, sc.finallySteps, FinallyHooks)
              && if r.end.success then Untold(t, OnFailure) else AllThrough(t, sc.onFailure, OnFailure)
    ensures var r := RunTask(e, sc, ctx);
            r.end.Escaped? ==>
              || HooksEscape(r, sc.finallySteps, FinallyHooks)
              || (!Good(r.w.trace, sc) && HooksEscape(r, sc.onFailure, OnFailure))
              || (AllThrough(r.w.trace, sc.finallySteps, FinallyHooks) && QuitRaised(e, r))
  {
    var c := RunTells(e, sc, ctx);
    if c.Some? { StoppedIsNotGood(RunTask(e, sc, ctx).w.trace, sc, c.value); }
  }

  /** The main steps before `i` are through, and it is the last or is not. */
  ghost predicate LastReached(t: seq<Event>, sc: Scenario, i: nat) {
    && i < |sc.steps| && ClosedBefore(t, 0, [], InSteps, i)
    && (i + 1 == |sc.steps| || !ClosedSince(t, 0, ChildId([], InSteps, i)))
  }

  /** The step a run reports is the last main step it came to: the first that is not through,
      or the last of all; before any, how the browser stands. */
  lemma ReportedStepIsTheLastReached(e: Env, sc: Scenario, ctx: Ctx)
    requires RunTask(e, sc, ctx).end.Ended?
    ensures var r := RunTask(e, sc, ctx);
            if AllThrough(r.w.trace, sc.before, BeforeSteps) && sc.steps != [] then
              forall i: nat :: LastReached(r.w.trace, sc, i) ==>
                            r.end.step == Decimal(i + 1) + ":" + Name(sc.steps[i].stype)
            else r.end.step == if e.dryRun then "dry_run" else "driver_created"
  {
    var c := RunTells(e, sc, ctx);
    StepTold(e, sc, c, RunTask(e, sc, ctx));
  }

  lemma StepTold(e: Env, sc: Scenario, c: Option<Cause>, r: Run)
    requires Tale(e, sc, c, r) && r.end.Ended?
    ensures if AllThrough(r.w.trace, sc.before, BeforeSteps) && sc.steps != [] then
              forall i: nat :: LastReached(r.w.trace, sc, i) ==>
                            r.end.step == Decimal(i + 1) + ":" + Name(sc.steps[i].stype)
            else r.end.step == if e.dryRun then "dry_run" else "driver_created"
  {
    var t := r.w.trace;
    if c.Some? { assert !ClosedSince(t, 0, ChildId([], c.value.part, c.value.index)); }
    forall i: nat | AllThrough(t, sc.before, BeforeSteps) && LastReached(t, sc, i)
      ensures r.end.step == Decimal(i + 1) + ":" + Name(sc.steps[i].stype)
    {
      OneLastReached(t, sc, c, i);
    }
  }

  lemma OneLastReached(t: seq<Event>, sc: Scenario, c: Option<Cause>, i: nat)
    requires Course(sc, c, t) && AllThrough(t, sc.before, BeforeSteps) && LastReached(t, sc, i)
    ensures i + 1 == if c.None? then |sc.steps| else ReachedBy(sc, c.value)
  {
    if c.Some? { assert !ClosedSince(t, 0, ChildId([], c.value.part, c.value.index)); }
  }

  /** The message of a run that ends: of success, or the text of the error that stopped it, of
      which the trace says where it came from. */
  lemma ReportedMessageIsTheCause(e: Env, sc: Scenario, ctx: Ctx)
    requires RunTask(e, sc, ctx).end.Ended?
    ensures var r := RunTask(e, sc, ctx);
            if r.end.success then
              r.end.message
              == if e.dryRun then "Dry-run complet du scenario execute." else "Tache executee avec succes."
            else exists c :: StopsAt(r.w.trace, sc, c) && r.end.message == e.text(c.error)
  {
    var c := RunTells(e, sc, ctx);
  }

  /** The execution id a run reports is the one the context holds before the finally hooks. */
  lemma ReportedIdIsTheContexts(e: Env, sc: Scenario, ctx: Ctx)
    requires RunTask(e, sc, ctx).end.Ended? && sc.finallySteps == []
    ensures var r := RunTask(e, sc, ctx);
            r.end.executionId == if "execution_id" in r.w.ctx then Some(r.w.ctx["execution_id"]) else None
  {
    var p := Body(e, sc, Fresh(ctx));
    BodyReportsId(e, sc, Fresh(ctx));
    assert Finally(e, sc, p).w.ctx == p.w.ctx["current_step" := p.at];
  }

  lemma BodyReportsId(e: Env, sc: Scenario, w: World)
    ensures var p := Body(e, sc, w);
            p.end.Ended? ==>
              p.end.executionId == if "execution_id" in p.w.ctx then Some(p.w.ctx["execution_id"]) else None
  {
  }

  /** No step of this list is said to have failed. */
  ghost predicate Unfailed(t: seq<Event>, part: Part) {
    forall k :: 0 <= k < |t| && |t[k].id| == 1 && t[k].id[0].part == part ==> !t[k].kind.Failed?
  }

  lemma ChildUnfailed(s: Step, part: Part, i: nat, w: World, r: Result)
    requires Unfailed(w.trace, part) && ChildGrows(s, [Segment(part, i)], w, r) && r.out.Returned?
    ensures Unfailed(r.w.trace, part)
  {
    var id, t := [Segment(part, i)], r.w.trace;
    forall k | 0 <= k < |t| && |t[k].id| == 1 && t[k].id[0].part == part ensures !t[k].kind.Failed? {
      if k < |w.trace| {
        assert t[k] == w.trace[k];
      } else {
        assert id <= t[k].id && t[k].id == id;
      }
    }
  }

  lemma SkipUnfailed(w: World, part: Part, i: nat, t: StepType)
    requires Unfailed(w.trace, part)
    ensures Unfailed(Emit(w, [Segment(part, i)], Skipped, t, None).trace, part)
  {
  }

  lemma OthersUnfailed(w: World, w': World, part: Part, part': Part)
    requires Unfailed(w.trace, part) && Grows(w, w', [], {part'}, 0) && part != part'
    ensures Unfailed(w'.trace, part)
  {
    forall k | 0 <= k < |w'.trace| && |w'.trace[k].id| == 1 && w'.trace[k].id[0].part == part
      ensures !w'.trace[k].kind.Failed?
    {
      assert k < |w.trace| && w'.trace[k] == w.trace[k];
    }
  }

  lemma {:induction false} HooksUnfailed(e: Env, steps: seq<Step>, part: Part, i: nat, d: Driver, w: World)
    requires i <= |steps| && Unfailed(w.trace, part) && Hooks(e, steps, part, i, d, w).out.Returned?
    ensures Unfailed(Hooks(e, steps, part, i, d, w).w.trace, part)
    decreases |steps| - i
  {
    if i < |steps| {
      var s, id := steps[i], [Segment(part, i)];
      if Condition(e, s, w) == Some(false) {
        SkipUnfailed(w, part, i, s.stype);
        HooksUnfailed(e, steps, part, i + 1, d, Emit(w, id, Skipped, s.stype, None));
      } else {
        var r := ExecChild(e, s, id, d, w);
        ChildEvents(e, s, id, d, w);
        ChildUnfailed(s, part, i, w, r);
        HooksUnfailed(e, steps, part, i + 1, r.out.driver, r.w);
      }
    }
  }

  lemma MainStepUnfailed(e: Env, s: Step, i: nat, d: Driver, w: World)
    requires Unfailed(w.trace, InSteps) && MainStep(e, s, i, d, w).out.Returned?
    ensures Unfailed(MainStep(e, s, i, d, w).w.trace, InSteps)
  {
    var id := [Segment(InSteps, i)];
    var got := EnsureDriver(e, s.stype, d, Emit(w, id, Started, s.stype, None));
    var w1 := got.w.(swallowed := None);
    var r := ExecStep(e, s, id, got.held, w1);
    StepEvents(e, s, id, got.held, w1);
    if Condition(e, s, w1) == Some(true) { AttemptsFlag(e, s, id, 0, got.held, w1); }
    ClosedEvents(s, id, w, w1, r);
    ChildUnfailed(s, InSteps, i, w, Close(s, id, r));
  }

  lemma {:induction false} MainUnfailed(e: Env, steps: seq<Step>, i: nat, d: Driver, w: World)
    requires i <= |steps| && Unfailed(w.trace, InSteps) && MainSteps(e, steps, i, d, w).out.Returned?
    ensures Unfailed(MainSteps(e, steps, i, d, w).w.trace, InSteps)
    decreases |steps| - i
  {
    if i < |steps| {
      var s, id := steps[i], [Segment(InSteps, i)];
      if Condition(e, s, w) == Some(false) {
        SkipUnfailed(w, InSteps, i, s.stype);
        MainUnfailed(e, steps, i + 1, d, Emit(w, id, Skipped, s.stype, None));
      } else {
        MainStepUnfailed(e, s, i, d, w);
        var m := MainStep(e, s, i, d, w);
        MainUnfailed(e, steps, i + 1, m.out.driver, m.w);
      }
    }
  }

  lemma ReturnUnfailed(e: Env, sc: Scenario, m: MainEnd)
    requires Unfailed(m.w.trace, BeforeSteps) && Unfailed(m.w.trace, InSteps) && Unfailed(m.w.trace, OnSuccess)
    requires m.out.Returned? && OnReturn(e, sc, m).end.Ended? && OnReturn(e, sc, m).end.success
    ensures var t := OnReturn(e, sc, m).w.trace;
            Unfailed(t, BeforeSteps) && Unfailed(t, InSteps) && Unfailed(t, OnSuccess)
  {
    var w := Note(m.w, "current_step", StepLabel(e, sc.steps, m.reached));
    var r := Hooks(e, sc.onSuccess, OnSuccess, 0, m.held, w);
    assert w.trace == m.w.trace && r.out.Returned?;
    HooksUnfailed(e, sc.onSuccess, OnSuccess, 0, m.held, w);
    HooksEvents(e, sc.onSuccess, OnSuccess, 0, m.held, w);
    OthersUnfailed(w, r.w, BeforeSteps, OnSuccess);
    OthersUnfailed(w, r.w, InSteps, OnSuccess);
  }

  lemma BodyUnfailed(e: Env, sc: Scenario, ctx: Ctx)
    requires Body(e, sc, Fresh(ctx)).end.Ended? && Body(e, sc, Fresh(ctx)).end.success
    ensures var t := Body(e, sc, Fresh(ctx)).w.trace;
            Unfailed(t, BeforeSteps) && Unfailed(t, InSteps) && Unfailed(t, OnSuccess)
  {
    var w := Fresh(ctx);
    var b := Hooks(e, sc.before, BeforeSteps, 0, None, w);
    assert b.out.Returned?;
    HooksUnfailed(e, sc.before, BeforeSteps, 0, None, w);
    HooksEvents(e, sc.before, BeforeSteps, 0, None, w);
    OthersUnfailed(w, b.w, InSteps, BeforeSteps);
    OthersUnfailed(w, b.w, OnSuccess, BeforeSteps);
    var m := MainSteps(e, sc.steps, 0, HookedDriver(b.w, None), b.w);
    assert m.out.Returned?;
    MainUnfailed(e, sc.steps, 0, HookedDriver(b.w, None), b.w);
    MainEvents(e, sc.steps, 0, HookedDriver(b.w, None), b.w);
    OthersUnfailed(b.w, m.w, BeforeSteps, InSteps);
    OthersUnfailed(b.w, m.w, OnSuccess, InSteps);
    ReturnUnfailed(e, sc, m);
  }

  /** No before hook, main step or success hook of a run that reports success is said to have
      failed. */
  lemma SuccessHasNoFailures(e: Env, sc: Scenario, ctx: Ctx)
    requires RunTask(e, sc, ctx).end.Ended? && RunTask(e, sc, ctx).end.success
    ensures var t := RunTask(e, sc, ctx).w.trace;
            Unfailed(t, BeforeSteps) && Unfailed(t, InSteps) && Unfailed(t, OnSuccess)
  {
    var p := Body(e, sc, Fresh(ctx));
    var c := BodyEnds(e, sc, ctx);
    FinallyFinishes(e, sc, p);
    assert RunTask(e, sc, ctx).end == p.end;
    BodyUnfailed(e, sc, ctx);
    OthersUnfailed(p.w, RunTask(e, sc, ctx).w, BeforeSteps, FinallyHooks);
    OthersUnfailed(p.w, RunTask(e, sc, ctx).w, InSteps, FinallyHooks);
    OthersUnfailed(p.w, RunTask(e, sc, ctx).w, OnSuccess, FinallyHooks);
  }

  /** The finally clause, once its hooks have returned, tells the browser to quit that they left
      in the context, or else the one the run held; if that raises, the exception escapes,
      and otherwise the run ends as its body did. Without a browser nothing is told to quit. */
  lemma LastQuitDecides(e: Env, sc: Scenario, p: Phase)
    requires Hooks(e, sc.finallySteps, FinallyHooks, 0, p.held, Note(p.w, "current_step", p.at)).out.Returned?
    ensures var hooks := Hooks(e, sc.finallySteps, FinallyHooks, 0, p.held, Note(p.w, "current_step", p.at));
            var d := if hooks.w.hookDriver.Some? then hooks.w.hookDriver else p.held;
            var r := Finally(e, sc, p);
            if d.None? then r.end == p.end && r.w == hooks.w
            else
              && r.w == hooks.w.(browsers := hooks.w.browsers + [Quit(d.value)])
              && var failure := e.quit(r.w.calls, r.w.browsers);
              r.end == if failure.None? then p.end else Escaped(QuitFailed(failure.value))
  {
  }
}
