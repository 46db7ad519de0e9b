/** Conditions of main steps and hooks decide, in the context they are read in, whether the
    step is started or skipped. */
module Skips {
  import opened Wrappers
  import opened Steps
  import opened Conditions
  import opened Interpreter
  import opened Footprint
  import opened Events
  import opened Handovers

  /** The condition has this value in the context some handler left, or in the run's own,
      but for the keys the engine writes. */
  ghost predicate DecidedBy(e: Env, first: Ctx, calls: seq<Call>, when: Option<string>, go: bool) {
    exists n: nat, ctx: Ctx :: Decides(e, first, calls, when, go, n, ctx)
  }

  ghost predicate Decides(e: Env, first: Ctx, calls: seq<Call>, when: Option<string>, go: bool, n: nat, ctx: Ctx) {
    && n <= |calls| && SameOff(NOTES, ctx, Left(e, first, calls[..n]))
    && ShouldExecute(when, ctx, e.search) == Some(go)
  }

  /** What an event of step `i` of a list says of its condition. */
  ghost predicate Decided(e: Env, first: Ctx, steps: seq<Step>, part: Part, i: nat, calls: seq<Call>, event: Event)
    requires i < |steps|
  {
    && (event.kind.Started? ==> DecidedBy(e, first, calls, steps[i].ctl.when, true))
    && (event.kind.Skipped? ==> DecidedBy(e, first, calls, steps[i].ctl.when, false))
  }

  ghost predicate AllDecided(e: Env, first: Ctx, steps: seq<Step>, part: Part, w: World) {
    forall k, i :: 0 <= k < |w.trace| && 0 <= i < |steps| && w.trace[k].id == [Segment(part, i)] ==>
                     Decided(e, first, steps, part, i, w.calls, w.trace[k])
  }

  lemma StillDecidedBy(e: Env, first: Ctx, calls: seq<Call>, calls': seq<Call>, when: Option<string>, go: bool)
    requires DecidedBy(e, first, calls, when, go) && calls <= calls'
    ensures DecidedBy(e, first, calls', when, go)
  {
    var n: nat, ctx: Ctx :| Decides(e, first, calls, when, go, n, ctx);
    assert calls'[..n] == calls[..n];
    assert Decides(e, first, calls', when, go, n, ctx);
  }

  lemma StillDecided(e: Env, first: Ctx, steps: seq<Step>, part: Part, i: nat, calls: seq<Call>, calls': seq<Call>,
                     event: Event)
    requires i < |steps| && Decided(e, first, steps, part, i, calls, event) && calls <= calls'
    ensures Decided(e, first, steps, part, i, calls', event)
  {
    if event.kind.Started? { StillDecidedBy(e, first, calls, calls', steps[i].ctl.when, true); }
    if event.kind.Skipped? { StillDecidedBy(e, first, calls, calls', steps[i].ctl.when, false); }
  }

  lemma DecidesNow(e: Env, first: Ctx, s: Step, w: World, go: bool)
    requires HandedOn(e, NOTES, first, w) && Condition(e, s, w) == Some(go)
    ensures DecidedBy(e, first, w.calls, s.ctl.when, go)
  {
    var view := View(e, w);
    assert view - NOTES == w.ctx - NOTES && w.calls[..|w.calls|] == w.calls;
    assert Decides(e, first, w.calls, s.ctl.when, go, |w.calls|, view);
  }

  /** All new events of this part are about step `i` or what is below it, and if the step was
      started or skipped its condition said so. */
  lemma StepDecided(e: Env, first: Ctx, steps: seq<Step>, part: Part, i: nat, w: World, w': World, go: bool)
    requires AllDecided(e, first, steps, part, w) && i < |steps|
    requires w.trace <= w'.trace && w.calls <= w'.calls && DecidedBy(e, first, w.calls, steps[i].ctl.when, go)
    requires forall k :: |w.trace| <= k < |w'.trace| ==> [Segment(part, i)] <= w'.trace[k].id
    requires forall k :: |w.trace| <= k < |w'.trace| && w'.trace[k].id == [Segment(part, i)] ==>
                           if go then !w'.trace[k].kind.Skipped? else !w'.trace[k].kind.Started?
    ensures AllDecided(e, first, steps, part, w')
  {
    StillDecidedBy(e, first, w.calls, w'.calls, steps[i].ctl.when, go);
    forall k, j | 0 <= k < |w'.trace| && 0 <= j < |steps| && w'.trace[k].id == [Segment(part, j)]
      ensures Decided(e, first, steps, part, j, w'.calls, w'.trace[k])
    {
      if k < |w.trace| {
        assert w'.trace[k] == w.trace[k];
        StillDecided(e, first, steps, part, j, w.calls, w'.calls, w.trace[k]);
      } else {
        assert w'.trace[k].id[0] == [Segment(part, i)][0];
      }
    }
  }

  lemma SkipDecided(e: Env, first: Ctx, steps: seq<Step>, part: Part, i: nat, w: World)
    requires AllDecided(e, first, steps, part, w) && i < |steps| && HandedOn(e, NOTES, first, w)
    requires Condition(e, steps[i], w) == Some(false)
    ensures var w' := Emit(w, [Segment(part, i)], Skipped, steps[i].stype, None);
            AllDecided(e, first, steps, part, w') && HandedOn(e, NOTES, first, w')
  {
    DecidesNow(e, first, steps[i], w, false);
    StepDecided(e, first, steps, part, i, w, Emit(w, [Segment(part, i)], Skipped, steps[i].stype, None), false);
  }

  lemma HookDecided(e: Env, first: Ctx, steps: seq<Step>, part: Part, i: nat, d: Driver, w: World)
    requires AllDecided(e, first, steps, part, w) && i < |steps| && HandedOn(e, NOTES, first, w)
    requires Condition(e, steps[i], w) == Some(true) && AllSerial(NOTES, steps)
    ensures var w' := ExecChild(e, steps[i], [Segment(part, i)], d, w).w;
            AllDecided(e, first, steps, part, w') && HandedOn(e, NOTES, first, w')
  {
    var s, id := steps[i], [Segment(part, i)];
    DecidesNow(e, first, s, w, true);
    ChildAdds(May(true, true, true), e, s, id, d, w);
    ChildEvents(e, s, id, d, w);
    ChildHandsOn(e, NOTES, first, s, id, d, w);
    StepDecided(e, first, steps, part, i, w, ExecChild(e, s, id, d, w).w, true);
  }

  lemma {:induction false} HooksDecided(e: Env, first: Ctx, steps: seq<Step>, part: Part, i: nat, d: Driver, w: World)
    requires AllDecided(e, first, steps, part, w) && i <= |steps| && HandedOn(e, NOTES, first, w)
    requires AllSerial(NOTES, steps)
    ensures AllDecided(e, first, steps, part, Hooks(e, steps, part, i, d, w).w)
    decreases |steps| - i
  {
    if i < |steps| {
      var s, id := steps[i], [Segment(part, i)];
      var go := Condition(e, s, w);
      if go == Some(false) {
        SkipDecided(e, first, steps, part, i, w);
        HooksDecided(e, first, steps, part, i + 1, d, Emit(w, id, Skipped, s.stype, None));
      } else if go == Some(true) {
        HookDecided(e, first, steps, part, i, d, w);
        var r := ExecChild(e, s, id, d, w);
        if r.out.Returned? { HooksDecided(e, first, steps, part, i + 1, r.out.driver, r.w); }
      }
    }
  }

  lemma MainStepDecided(e: Env, first: Ctx, steps: seq<Step>, i: nat, d: Driver, w: World)
    requires AllDecided(e, first, steps, InSteps, w) && i < |steps| && HandedOn(e, NOTES, first, w)
    requires Condition(e, steps[i], w) == Some(true) && AllSerial(NOTES, steps)
    ensures var w' := MainStep(e, steps[i], i, d, w).w;
            AllDecided(e, first, steps, InSteps, w') && HandedOn(e, NOTES, first, w')
  {
    var s, id := steps[i], [Segment(InSteps, i)];
    DecidesNow(e, first, s, w, true);
    MainStepAdds(May(true, true, true), e, s, i, d, w);
    MainStepHandsOn(e, first, s, i, d, w);
    MainStepEvents(e, s, i, d, w);
    StepDecided(e, first, steps, InSteps, i, w, MainStep(e, s, i, d, w).w, true);
  }

  lemma {:induction false} MainDecided(e: Env, first: Ctx, steps: seq<Step>, i: nat, d: Driver, w: World)
    requires AllDecided(e, first, steps, InSteps, w) && i <= |steps| && HandedOn(e, NOTES, first, w)
    requires AllSerial(NOTES, steps)
    ensures AllDecided(e, first, steps, InSteps, MainSteps(e, steps, i, d, w).w)
    decreases |steps| - i
  {
    if i < |steps| {
      var s, id := steps[i], [Segment(InSteps, i)];
      var go := Condition(e, s, w);
      if go == Some(false) {
        SkipDecided(e, first, steps, InSteps, i, w);
        MainDecided(e, first, steps, i + 1, d, Emit(w, id, Skipped, s.stype, None));
      } else if go == Some(true) {
        MainStepDecided(e, first, steps, i, d, w);
        var m := MainStep(e, s, i, d, w);
        if m.out.Returned? { MainDecided(e, first, steps, i + 1, m.out.driver, m.w); }
      }
    }
  }

  // ---------------------------------------------------------------- the whole run

  ghost predicate ScenarioDecided(e: Env, first: Ctx, sc: Scenario, w: World) {
    && AllDecided(e, first, sc.before, BeforeSteps, w) && AllDecided(e, first, sc.steps, InSteps, w)
    && AllDecided(e, first, sc.onSuccess, OnSuccess, w) && AllDecided(e, first, sc.onFailure, OnFailure, w)
    && AllDecided(e, first, sc.finallySteps, FinallyHooks, w)
  }

  lemma OthersDecided(e: Env, first: Ctx, steps: seq<Step>, part: Part, w: World, w': World, part': Part)
    requires AllDecided(e, first, steps, part, w) && Grows(w, w', [], {part'}, 0) && part != part'
    requires w.calls <= w'.calls
    ensures AllDecided(e, first, steps, part, w')
  {
    forall k, j | 0 <= k < |w'.trace| && 0 <= j < |steps| && w'.trace[k].id == [Segment(part, j)]
      ensures Decided(e, first, steps, part, j, w'.calls, w'.trace[k])
    {
      assert k < |w.trace| && w'.trace[k] == w.trace[k];
      StillDecided(e, first, steps, part, j, w.calls, w'.calls, w.trace[k]);
    }
  }

  /** A list of one part leaves the others' events as they are. */
  lemma ScenarioStillDecided(e: Env, first: Ctx, sc: Scenario, w: World, w': World, part: Part)
    requires ScenarioDecided(e, first, sc, w) && Grows(w, w', [], {part}, 0) && w.calls <= w'.calls
    ensures !part.BeforeSteps? ==> AllDecided(e, first, sc.before, BeforeSteps, w')
    ensures !part.InSteps? ==> AllDecided(e, first, sc.steps, InSteps, w')
    ensures !part.OnSuccess? ==> AllDecided(e, first, sc.onSuccess, OnSuccess, w')
    ensures !part.OnFailure? ==> AllDecided(e, first, sc.onFailure, OnFailure, w')
    ensures !part.FinallyHooks? ==> AllDecided(e, first, sc.finallySteps, FinallyHooks, w')
  {
    if !part.BeforeSteps? { OthersDecided(e, first, sc.before, BeforeSteps, w, w', part); }
    if !part.InSteps? { OthersDecided(e, first, sc.steps, InSteps, w, w', part); }
    if !part.OnSuccess? { OthersDecided(e, first, sc.onSuccess, OnSuccess, w, w', part); }
    if !part.OnFailure? { OthersDecided(e, first, sc.onFailure, OnFailure, w, w', part); }
    if !part.FinallyHooks? { OthersDecided(e, first, sc.finallySteps, FinallyHooks, w, w', part); }
  }

  /** Where a run stands between two lists. */
  ghost predicate Stands(e: Env, first: Ctx, sc: Scenario, w: World) {
    HandedOn(e, NOTES, first, w) && ScenarioDecided(e, first, sc, w)
  }

  function HooksOf(sc: Scenario, part: Part): seq<Step> {
    match part
    case BeforeSteps => sc.before
    case OnSuccess => sc.onSuccess
    case OnFailure => sc.onFailure
    case FinallyHooks => sc.finallySteps
    case _ => []
  }

  predicate IsHookPart(part: Part) {
    part.BeforeSteps? || part.OnSuccess? || part.OnFailure? || part.FinallyHooks?
  }

  lemma HooksStand(e: Env, first: Ctx, sc: Scenario, part: Part, d: Driver, w: World)
    requires Stands(e, first, sc, w) && ScenarioSerial(sc) && IsHookPart(part)
    ensures Stands(e, first, sc, Hooks(e, HooksOf(sc, part), part, 0, d, w).w)
  {
    var steps := HooksOf(sc, part);
    var w' := Hooks(e, steps, part, 0, d, w).w;
    HooksAdd(May(true, true, true), e, steps, part, 0, d, w);
    HooksHandOn(e, first, steps, part, 0, d, w);
    HooksDecided(e, first, steps, part, 0, d, w);
    HooksEvents(e, steps, part, 0, d, w);
    ScenarioStillDecided(e, first, sc, w, w', part);
  }

  lemma MainStands(e: Env, first: Ctx, sc: Scenario, d: Driver, w: World)
    requires Stands(e, first, sc, w) && ScenarioSerial(sc)
    ensures Stands(e, first, sc, MainSteps(e, sc.steps, 0, d, w).w)
  {
    var w' := MainSteps(e, sc.steps, 0, d, w).w;
    MainAdds(May(true, true, true), e, sc.steps, 0, d, w);
    MainHandsOn(e, first, sc.steps, 0, d, w);
    MainDecided(e, first, sc.steps, 0, d, w);
    MainEvents(e, sc.steps, 0, d, w);
    ScenarioStillDecided(e, first, sc, w, w', InSteps);
  }

  lemma NoteStands(e: Env, first: Ctx, sc: Scenario, w: World, key: string, value: string)
    requires Stands(e, first, sc, w) && key in NOTES
    ensures Stands(e, first, sc, Note(w, key, value))
  {
    var w' := Note(w, key, value);
    NoteHandsOn(e, NOTES, first, w, key, value);
    assert w'.trace == w.trace && w'.calls == w.calls;
  }

  lemma ErrorStands(e: Env, first: Ctx, sc: Scenario, error: Error, d: Driver, at: string, w: World)
    requires Stands(e, first, sc, w) && ScenarioSerial(sc)
    ensures Stands(e, first, sc, OnError(e, sc, error, d, at, w).w)
  {
    var w1 := Note(w, "current_step", at);
    NoteStands(e, first, sc, w, "current_step", at);
    NoteStands(e, first, sc, w1, "error_message", e.text(error));
    HooksStand(e, first, sc, OnFailure, d, Note(w1, "error_message", e.text(error)));
  }

  lemma ReturnStands(e: Env, first: Ctx, sc: Scenario, m: MainEnd)
    requires Stands(e, first, sc, m.w) && ScenarioSerial(sc) && m.out.Returned?
    ensures Stands(e, first, sc, OnReturn(e, sc, m).w)
  {
    var at := StepLabel(e, sc.steps, m.reached);
    var w := Note(m.w, "current_step", at);
    NoteStands(e, first, sc, m.w, "current_step", at);
    HooksStand(e, first, sc, OnSuccess, m.held, w);
    var r := Hooks(e, sc.onSuccess, OnSuccess, 0, m.held, w);
    if r.out.Raised? { ErrorStands(e, first, sc, r.out.error, m.held, at, r.w); }
  }

  lemma RunStands(e: Env, sc: Scenario, ctx: Ctx)
    requires ScenarioSerial(sc)
    ensures Stands(e, ctx, sc, RunTask(e, sc, ctx).w)
  {
    var w, p := Fresh(ctx), Body(e, sc, Fresh(ctx));
    HooksStand(e, ctx, sc, BeforeSteps, None, w);
    var b := Hooks(e, sc.before, BeforeSteps, 0, None, w);
    if b.out.Raised? {
      ErrorStands(e, ctx, sc, b.out.error, None, StepLabel(e, sc.steps, 0), b.w);
    } else {
      var m := MainSteps(e, sc.steps, 0, HookedDriver(b.w, None), b.w);
      MainStands(e, ctx, sc, HookedDriver(b.w, None), b.w);
      if m.out.Raised? {
        ErrorStands(e, ctx, sc, m.out.error, m.held, StepLabel(e, sc.steps, m.reached), m.w);
      } else {
        ReturnStands(e, ctx, sc, m);
      }
    }
    FinallyStands(e, ctx, sc, p);
  }

  lemma FinallyStands(e: Env, first: Ctx, sc: Scenario, p: Phase)
    requires Stands(e, first, sc, p.w) && ScenarioSerial(sc)
    ensures Stands(e, first, sc, Finally(e, sc, p).w)
  {
    var w := Note(p.w, "current_step", p.at);
    NoteStands(e, first, sc, p.w, "current_step", p.at);
    HooksStand(e, first, sc, FinallyHooks, p.held, w);
    var r, all := Hooks(e, sc.finallySteps, FinallyHooks, 0, p.held, w), Finally(e, sc, p);
    assert all.w.trace == r.w.trace && all.w.calls == r.w.calls && all.w.ctx == r.w.ctx;
  }

  /** In every run of a scenario without parallel blocks, through its hooks, blocks, retries,
      swallowed and caught failures, each handler is shown the context the handler before it
      left, the first one the run's own, but for the keys the engine writes; and so is the
      context at the end what the last handler left. */
  lemma ContextIsHandedOn(e: Env, sc: Scenario, ctx: Ctx)
    requires ScenarioSerial(sc)
    ensures HandedOn(e, NOTES, ctx, RunTask(e, sc, ctx).w)
  {
    RunStands(e, sc, ctx);
  }

  /** ... and a main step or hook is started only where its condition holds, and skipped only
      where it does not, in the context some handler left, or in the run's own, but for the
      keys the engine writes. So a step without condition is never skipped, and one whose
      condition cannot be evaluated is neither started nor skipped. */
  lemma ConditionsDecide(e: Env, sc: Scenario, ctx: Ctx)
    requires ScenarioSerial(sc)
    ensures ScenarioDecided(e, ctx, sc, RunTask(e, sc, ctx).w)
  {
    RunStands(e, sc, ctx);
  }
}
