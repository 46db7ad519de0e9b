/** What the engine notes in the context, and who reads it: the error a catch part is told,
    the error and the step the hooks of a run are told, the error a step leaves that
    continues on it. */
module Notes {
  import opened Wrappers
  import opened Steps
  import opened Conditions
  import opened Interpreter
  import opened Footprint
  import opened ClosingEvents
  import opened Events
  import opened TryBlocks
  import opened LostBrowsers
  import opened Calls

  // ---------------------------------------------------------------- swallowed errors

  /** The last event is the step's warning with this error, and the context tells of it. */
  ghost predicate Noted(e: Env, s: Step, id: StepId, error: Error, w: World) {
    && w.trace != [] && w.trace[|w.trace| - 1] == Event(id, Warned, s.stype, Some(error))
    && "error_message" in w.ctx && w.ctx["error_message"] == e.text(error)
    && "last_error_message" in w.ctx && w.ctx["last_error_message"] == e.text(error)
    && "last_error_step" in w.ctx && w.ctx["last_error_step"] == Name(s.stype)
  }

  /** A step that swallows its error notes the error and its own type in the context. */
  lemma {:induction false} SwallowedErrorIsNoted(e: Env, s: Step, id: StepId, k: nat, d: Driver, w: World)
    requires w.swallowed.None? && k < s.Attempts()
    ensures var r := Attempts(e, s, id, k, d, w);
            r.w.swallowed.Some? ==> r.out.Returned? && exists error :: Noted(e, s, id, error, r.w)
    decreases s.Attempts() - k
  {
    var a := Attempt(e, s, id, d, w);
    AttemptLeavesNoFlag(e, s, id, d, w);
    if a.out.Raised? {
      if k + 1 < s.Attempts() {
        SwallowedErrorIsNoted(e, s, id, k + 1, a.held, Retry(s, id, k, a.out.error, a.w));
      } else {
        ExhaustedIsNoted(e, s, id, a.out.error, a.held, a.w);
      }
    }
  }

  lemma ExhaustedIsNoted(e: Env, s: Step, id: StepId, error: Error, d: Driver, w: World)
    requires w.swallowed.None?
    ensures var r := Exhausted(e, s, id, error, d, w);
            r.w.swallowed.Some? ==> r.out.Returned? && Noted(e, s, id, error, r.w)
  {
  }

  // ---------------------------------------------------------------- the first call of a list

  /** The step calls its handler straight away. */
  predicate Direct(e: Env, s: Step) {
    IsAtomic(s.stype) && s.ctl.when.None? && (e.dryRun || !RequiresDriver(s.stype))
  }

  /** The next call after `w` is this step's, and it reads the context of `w`. */
  ghost predicate CalledNext(e: Env, s: Step, w: World, w': World) {
    && |w.calls| < |w'.calls| && CallOf(s, w'.calls[|w.calls|])
    && w'.calls[|w.calls|].view == View(e, w)
  }

  lemma DirectAttempt(e: Env, s: Step, d: Driver, w: World)
    requires Direct(e, s)
    ensures AtomicAttempt(e, s, d, w).w.calls
         == w.calls + [Call(s.stype, s.payload, d, View(e, w), e.dryRun, s.ctl.timeout)]
  {
    assert EnsureDriver(e, s.stype, d, w) == Tried(Returned(d), d, w);
  }

  lemma FirstAttemptCalls(e: Env, s: Step, id: StepId, d: Driver, w: World)
    requires IsAtomic(s.stype)
    ensures AtomicAttempt(e, s, d, w).w.calls <= Attempts(e, s, id, 0, d, w).w.calls
  {
    var a := AtomicAttempt(e, s, d, w);
    assert Attempt(e, s, id, d, w) == a;
    if a.out.Raised? && 1 < s.Attempts() {
      AttemptsAdd(May(true, true, true), e, s, id, 1, a.held, Retry(s, id, 0, a.out.error, a.w));
    }
  }

  lemma DirectCalls(e: Env, s: Step, id: StepId, d: Driver, w: World)
    requires Direct(e, s)
    ensures CalledNext(e, s, w, ExecChild(e, s, id, d, w).w)
  {
    var w1 := Start(w, id, s.stype);
    DirectAttempt(e, s, d, w1);
    FirstAttemptCalls(e, s, id, d, w1);
    assert View(e, w1) == View(e, w);
    var r := ExecStep(e, s, id, d, w1);
    assert r == Attempts(e, s, id, 0, d, w1);
    assert Close(s, id, r).w.calls == r.w.calls;
  }

  lemma CalledNextLater(e: Env, s: Step, w: World, w': World, w'': World)
    requires CalledNext(e, s, w, w') && w'.calls <= w''.calls
    ensures CalledNext(e, s, w, w'')
  {
  }

  lemma SequenceCallsNext(e: Env, steps: seq<Step>, part: Part, id: StepId, d: Driver, w: World)
    requires steps != [] && Direct(e, steps[0])
    ensures CalledNext(e, steps[0], w, Sequence(e, steps, part, 0, id, d, w).w)
  {
    var cid := ChildId(id, part, 0);
    var r := ExecChild(e, steps[0], cid, d, w);
    DirectCalls(e, steps[0], cid, d, w);
    if r.out.Returned? {
      SequenceAdds(May(true, true, true), e, steps, part, 1, id, r.out.driver, r.w);
      CalledNextLater(e, steps[0], w, r.w, Sequence(e, steps, part, 0, id, d, w).w);
    }
  }

  lemma HooksCallNext(e: Env, steps: seq<Step>, part: Part, d: Driver, w: World)
    requires steps != [] && Direct(e, steps[0])
    ensures CalledNext(e, steps[0], w, Hooks(e, steps, part, 0, d, w).w)
  {
    var id := [Segment(part, 0)];
    var r := ExecChild(e, steps[0], id, d, w);
    DirectCalls(e, steps[0], id, d, w);
    assert Condition(e, steps[0], w) == Some(true);
    if r.out.Returned? {
      HooksAdd(May(true, true, true), e, steps, part, 1, r.out.driver, r.w);
      CalledNextLater(e, steps[0], w, r.w, Hooks(e, steps, part, 0, d, w).w);
    }
  }

  // ---------------------------------------------------------------- catch parts

  /** Some call since `w` is this step's and reads this text under this key. */
  ghost predicate Reads(w: World, w': World, s: Step, key: string, text: string) {
    exists k :: |w.calls| <= k < |w'.calls| && CallOf(s, w'.calls[k])
                && key in w'.calls[k].view && w'.calls[k].view[key] == text
  }

  lemma ReadsNext(e: Env, s: Step, w0: World, w: World, w': World, w'': World, key: string, text: string)
    requires CalledNext(e, s, w, w') && w'.calls <= w''.calls && w0.calls <= w.calls
    requires key != "__driver__" && key in w.ctx && w.ctx[key] == text
    ensures Reads(w0, w'', s, key, text)
  {
    assert w''.calls[|w.calls|] == w'.calls[|w.calls|];
  }

  lemma ReadsSince(w0: World, w: World, w': World, s: Step, key: string, text: string)
    requires Reads(w, w', s, key, text) && w0.calls <= w.calls
    ensures Reads(w0, w', s, key, text)
  {
  }

  lemma ReadsLater(w: World, w': World, w'': World, s: Step, key: string, text: string)
    requires Reads(w, w', s, key, text) && w'.calls <= w''.calls
    ensures Reads(w, w'', s, key, text)
  {
    var k :| |w.calls| <= k < |w'.calls| && CallOf(s, w'.calls[k])
              && key in w'.calls[k].view && w'.calls[k].view[key] == text;
    assert w''.calls[k] == w'.calls[k];
  }

  /** ... the error the try part was left with. */
  ghost predicate CatchTold(e: Env, s: Step, id: StepId, w: World, w': World)
    requires s.catchSteps != []
  {
    exists error :: LeftSomewhere(w'.trace, |w.trace|, id, InTry, |s.trySteps|, error)
                    && Reads(w, w', s.catchSteps[0], "error_message", e.text(error))
  }

  lemma CaughtIsTold(e: Env, s: Step, id: StepId, d: Driver, w: World, t: World, error: Error)
    requires s.catchSteps != [] && Direct(e, s.catchSteps[0]) && w.calls <= t.calls && |w.trace| <= |t.trace|
    requires LeftSomewhere(t.trace, |w.trace|, id, InTry, |s.trySteps|, error)
    ensures var w1 := Note(t, "error_message", e.text(error));
            CatchTold(e, s, id, w, Sequence(e, s.catchSteps, InCatch, 0, id, d, w1).w)
  {
    var w1 := Note(t, "error_message", e.text(error));
    var c := Sequence(e, s.catchSteps, InCatch, 0, id, d, w1);
    SequenceCallsNext(e, s.catchSteps, InCatch, id, d, w1);
    SequenceEvents(e, s.catchSteps, InCatch, 0, id, d, w1);
    ReadsNext(e, s.catchSteps[0], w, w1, c.w, c.w, "error_message", e.text(error));
    StillTold(w1, c.w, |w.trace|, id, InTry, |s.trySteps|, Raised(error), InCatch);
  }

  lemma StillCatchTold(e: Env, s: Step, id: StepId, w: World, c: World, w': World)
    requires s.catchSteps != [] && CatchTold(e, s, id, w, c)
    requires c.calls <= w'.calls && Grows(c, w', id, {InFinally}, 0)
    ensures CatchTold(e, s, id, w, w')
  {
    var error :| LeftSomewhere(c.trace, |w.trace|, id, InTry, |s.trySteps|, error)
                 && Reads(w, c, s.catchSteps[0], "error_message", e.text(error));
    StillTold(c, w', |w.trace|, id, InTry, |s.trySteps|, Raised(error), InFinally);
    ReadsLater(w, c, w', s.catchSteps[0], "error_message", e.text(error));
  }

  lemma TryCatchIsTold(e: Env, s: Step, id: StepId, d: Driver, w: World) returns (c: World)
    requires s.catchSteps != [] && Direct(e, s.catchSteps[0])
    ensures c == TryCatch(e, s, id, d, w).w
    ensures TryThrough(c.trace, |w.trace|, id, s) || CatchTold(e, s, id, w, c)
  {
    var t := Sequence(e, s.trySteps, InTry, 0, id, d, w);
    c := TryCatch(e, s, id, d, w).w;
    PartTold(e, s.trySteps, InTry, id, d, w, |w.trace|);
    SequenceAdds(May(true, true, true), e, s.trySteps, InTry, 0, id, d, w);
    if t.out.Raised? { CaughtIsTold(e, s, id, d, w, t.w, t.out.error); }
  }

  /** The catch part of a try block that is not through reads the error of the child at which
      its try part was left. Stated for catch parts that call a handler straight away. */
  lemma CatchIsTold(e: Env, s: Step, id: StepId, d: Driver, w: World)
    requires s.catchSteps != [] && Direct(e, s.catchSteps[0])
    ensures var w' := TryBlock(e, s, id, d, w).w;
            TryThrough(w'.trace, |w.trace|, id, s) || CatchTold(e, s, id, w, w')
  {
    var r := TryCatch(e, s, id, d, w);
    var c := TryCatchIsTold(e, s, id, d, w);
    var fd := if r.out.Returned? then r.out.driver else d;
    var f := Sequence(e, s.finallySteps, InFinally, 0, id, fd, c).w;
    assert f == TryBlock(e, s, id, d, w).w;
    SequenceAdds(May(true, true, true), e, s.finallySteps, InFinally, 0, id, fd, c);
    SequenceEvents(e, s.finallySteps, InFinally, 0, id, fd, c);
    if TryThrough(c.trace, |w.trace|, id, s) {
      StillClosed(c.trace, f.trace, |w.trace|, id, InTry, |s.trySteps|);
    } else {
      StillCatchTold(e, s, id, w, c, f);
    }
  }

  // ---------------------------------------------------------------- hooks

  lemma ErrorPhaseIsTold(e: Env, sc: Scenario, error: Error, d: Driver, at: string, w: World)
    requires sc.onFailure != [] && Direct(e, sc.onFailure[0])
    ensures var p := OnError(e, sc, error, d, at, w);
            && Reads(w, p.w, sc.onFailure[0], "error_message", e.text(error))
            && Reads(w, p.w, sc.onFailure[0], "current_step", at)
  {
    var w' := Note(Note(w, "current_step", at), "error_message", e.text(error));
    HooksCallNext(e, sc.onFailure, OnFailure, d, w');
    var r := Hooks(e, sc.onFailure, OnFailure, 0, d, w');
    ReadsNext(e, sc.onFailure[0], w, w', r.w, r.w, "error_message", e.text(error));
    ReadsNext(e, sc.onFailure[0], w, w', r.w, r.w, "current_step", at);
  }

  /** The browser that hooks left in the context is shown to the handlers and conditions that
      come after them. */
  lemma HookDriverIsShown(e: Env, s: Step, id: StepId, d: Driver, w: World)
    requires Direct(e, s) && w.hookDriver.Some?
    ensures var w', text := ExecChild(e, s, id, d, w).w, "<" + e.driverText(w.hookDriver.value);
            Reads(w, w', s, "__driver__", text)
    ensures ShouldExecute(Some("context_exists:__driver__"), View(e, w), e.search) == Some(true)
  {
    DirectCalls(e, s, id, d, w);
    ExistenceForms("__driver__", View(e, w), e.search);
    assert "context_exists:" + "__driver__" == "context_exists:__driver__";
  }

  /** How the body of a run came to its end. */
  ghost predicate BodyTold(e: Env, sc: Scenario, w: World, p: Phase) {
    p.end.Ended? ==>
      && p.end.step == p.at
      && (!p.end.success ==> FailureTold(e, sc, w, p)) && (p.end.success ==> SuccessTold(e, sc, w, p))
  }

  ghost predicate FailureTold(e: Env, sc: Scenario, w: World, p: Phase)
    requires p.end.Ended?
  {
    sc.onFailure != [] && Direct(e, sc.onFailure[0]) ==>
      && Reads(w, p.w, sc.onFailure[0], "error_message", p.end.message)
      && Reads(w, p.w, sc.onFailure[0], "current_step", p.end.step)
  }

  ghost predicate SuccessTold(e: Env, sc: Scenario, w: World, p: Phase)
    requires p.end.Ended?
  {
    sc.onSuccess != [] && Direct(e, sc.onSuccess[0]) ==>
      Reads(w, p.w, sc.onSuccess[0], "current_step", p.end.step)
  }

  lemma ErrorTold(e: Env, sc: Scenario, error: Error, d: Driver, at: string, w0: World, w: World)
    requires w0.calls <= w.calls
    ensures BodyTold(e, sc, w0, OnError(e, sc, error, d, at, w))
  {
    var p := OnError(e, sc, error, d, at, w);
    if p.end.Ended? && sc.onFailure != [] && Direct(e, sc.onFailure[0]) {
      ErrorPhaseIsTold(e, sc, error, d, at, w);
      ReadsSince(w0, w, p.w, sc.onFailure[0], "error_message", e.text(error));
      ReadsSince(w0, w, p.w, sc.onFailure[0], "current_step", at);
    }
  }

  lemma ReturnTold(e: Env, sc: Scenario, m: MainEnd, w0: World)
    requires w0.calls <= m.w.calls && m.out.Returned?
    ensures BodyTold(e, sc, w0, OnReturn(e, sc, m))
  {
    var p, at := OnReturn(e, sc, m), StepLabel(e, sc.steps, m.reached);
    var w := Note(m.w, "current_step", at);
    var r := Hooks(e, sc.onSuccess, OnSuccess, 0, m.held, w);
    HooksAdd(May(true, true, true), e, sc.onSuccess, OnSuccess, 0, m.held, w);
    if r.out.Raised? {
      ErrorTold(e, sc, r.out.error, m.held, at, w0, r.w);
    } else if sc.onSuccess != [] && Direct(e, sc.onSuccess[0]) {
      HooksCallNext(e, sc.onSuccess, OnSuccess, m.held, w);
      ReadsNext(e, sc.onSuccess[0], w0, w, r.w, r.w, "current_step", at);
    }
  }

  lemma BodyIsTold(e: Env, sc: Scenario, w: World)
    ensures BodyTold(e, sc, w, Body(e, sc, w))
  {
    var may := May(true, true, true);
    var b := Hooks(e, sc.before, BeforeSteps, 0, None, w);
    HooksAdd(may, e, sc.before, BeforeSteps, 0, None, w);
    if b.out.Raised? {
      ErrorTold(e, sc, b.out.error, None, StepLabel(e, sc.steps, 0), w, b.w);
    } else {
      var m := MainSteps(e, sc.steps, 0, HookedDriver(b.w, None), b.w);
      MainAdds(may, e, sc.steps, 0, HookedDriver(b.w, None), b.w);
      if m.out.Raised? {
        ErrorTold(e, sc, m.out.error, m.held, StepLabel(e, sc.steps, m.reached), w, m.w);
      } else {
        ReturnTold(e, sc, m, w);
      }
    }
  }

  /** In every run that ends, its hooks are told what the run reports: those for failure the
      message and the step, those for success and the last ones the step. Stated for lists
      whose first step calls its handler straight away. */
  lemma HooksAreTold(e: Env, sc: Scenario, ctx: Ctx)
    requires RunTask(e, sc, ctx).end.Ended?
    ensures var r := RunTask(e, sc, ctx);
            && (!r.end.success && sc.onFailure != [] && Direct(e, sc.onFailure[0]) ==>
                  && Reads(Fresh(ctx), r.w, sc.onFailure[0], "error_message", r.end.message)
                  && Reads(Fresh(ctx), r.w, sc.onFailure[0], "current_step", r.end.step))
            && (r.end.success && sc.onSuccess != [] && Direct(e, sc.onSuccess[0]) ==>
                  Reads(Fresh(ctx), r.w, sc.onSuccess[0], "current_step", r.end.step))
            && (sc.finallySteps != [] && Direct(e, sc.finallySteps[0]) ==>
                  Reads(Fresh(ctx), r.w, sc.finallySteps[0], "current_step", r.end.step))
  {
    var w, p, r := Fresh(ctx), Body(e, sc, Fresh(ctx)), RunTask(e, sc, ctx);
    BodyIsTold(e, sc, w);
    var w1 := Note(p.w, "current_step", p.at);
    HooksAdd(May(true, true, true), e, sc.finallySteps, FinallyHooks, 0, p.held, w1);
    assert p.w.calls <= r.w.calls && r.end == p.end;
    if !p.end.success && sc.onFailure != [] && Direct(e, sc.onFailure[0]) {
      ReadsLater(w, p.w, r.w, sc.onFailure[0], "error_message", p.end.message);
      ReadsLater(w, p.w, r.w, sc.onFailure[0], "current_step", p.end.step);
    }
    if p.end.success && sc.onSuccess != [] && Direct(e, sc.onSuccess[0]) {
      ReadsLater(w, p.w, r.w, sc.onSuccess[0], "current_step", p.end.step);
    }
    if sc.finallySteps != [] && Direct(e, sc.finallySteps[0]) {
      HooksCallNext(e, sc.finallySteps, FinallyHooks, p.held, w1);
      ReadsNext(e, sc.finallySteps[0], w, w1, r.w, r.w, "current_step", p.at);
    }
  }
}
