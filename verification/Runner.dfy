/** The imperative interpreter of scenarios/runner.py and scenarios/engine.py: one
    object holds the shared context and what observers see, its methods update it step
    by step, and each is proved to do exactly what `Interpreter` says. An exception is
    an `Outcome` the methods return. */
module Runner {
  import opened Wrappers
  import opened Steps
  import opened Conditions
  import opened Interpreter

  class TaskRunner {
    const env: Env
    var ctx: Ctx
    var hookDriver: Driver
    var swallowed: Option<StepId>
    var trace: seq<Event>
    var calls: seq<Call>
    var browsers: seq<BrowserEvent>
    var failedLaunches: nat
    var sleeps: seq<Nap>

    constructor (env: Env, ctx: Ctx)
      ensures this.env == env && Now() == Fresh(ctx)
    {
      this.env := env;
      this.ctx := ctx;
      hookDriver, swallowed := None, None;
      trace, calls, browsers, failedLaunches, sleeps := [], [], [], 0, [];
    }

    /** The object as a value. */
    function Now(): World
      reads this
    {
      World(ctx, hookDriver, swallowed, trace, calls, browsers, failedLaunches, sleeps)
    }

    method DoEmit(id: StepId, kind: EventKind, t: StepType, error: Option<Error>)
      modifies this
      ensures Now() == Emit(old(Now()), id, kind, t, error)
    {
      trace := trace + [Event(id, kind, t, error)];
    }

    method DoEnsureDriver(t: StepType, driver: Driver) returns (out: Outcome, held: Driver)
      modifies this
      ensures Tried(out, held, Now()) == EnsureDriver(env, t, driver, old(Now()))
    {
      held := driver;
      if !env.dryRun && RequiresDriver(t) && driver.None? {
        var failure := env.launch(calls, browsers, failedLaunches);
        if failure.Some? {
          failedLaunches := failedLaunches + 1;
          return Raised(LaunchFailed(failure.value)), None;
        }
        held := Some(|browsers|);
        browsers := browsers + [Launch];
      }
      out := Returned(held);
    }

    /** `_execute_step`, with the time limit of `_run_with_timeout`. */
    method DoInvoke(s: Step, driver: Driver) returns (out: Outcome)
      modifies this
      ensures Result(out, Now()) == Invoke(env, s, driver, old(Now()))
    {
      if !HasHandler(s.stype) { return Raised(UnsupportedStepType(s.stype)); }
      var view := View(env, Now());
      calls := calls + [Call(s.stype, s.payload, driver, view, env.dryRun, s.ctl.timeout)];
      var reply := env.reply(calls);
      ctx := reply.ctx;
      var driver' := driver;
      if Closes(env, s.stype, driver) {
        browsers := browsers + [Quit(driver.value)];
        driver' := None;
      }
      if s.ctl.timeout.Some? && reply.late { return Raised(TimedOut); }
      if reply.failure.Some? { return Raised(HandlerError(reply.failure.value)); }
      out := Returned(driver');
    }

    method DoPause(s: Step, k: nat)
      modifies this
      ensures Now() == Pause(s, k, old(Now()))
    {
      if s.ctl.delay > 0.0 { sleeps := sleeps + [NapAfter(s, k)]; }
    }

    /** `_execute_scenario_step`: condition, attempts with backoff, swallowing. */
    method DoStep(s: Step, id: StepId, driver: Driver) returns (out: Outcome)
      modifies this
      ensures Result(out, Now()) == ExecStep(env, s, id, driver, old(Now()))
      decreases s, 4, 0
    {
      var go := Condition(env, s, Now());
      if go.None? { return Raised(BadCondition(s.ctl.when.GetOr(""))); }
      if !go.value { return Returned(None); }
      var held := driver;
      var lastError: Error := TimedOut;
      var k := 0;
      while k < s.Attempts()
        invariant k <= s.Attempts()
        invariant k < s.Attempts() ==>
                    Attempts(env, s, id, k, held, Now()) == Attempts(env, s, id, 0, driver, old(Now()))
        invariant k == s.Attempts() ==>
                    Exhausted(env, s, id, lastError, held, Now()) == Attempts(env, s, id, 0, driver, old(Now()))
        decreases s.Attempts() - k
      {
        out, held := DoAttempt(s, id, held);
        if out.Returned? { return; }
        lastError := out.error;
        if k + 1 < s.Attempts() {
          DoEmit(id, Retrying, s.stype, Some(lastError));
          DoPause(s, k);
        }
        k := k + 1;
      }
      if s.ctl.continueOnError {
        var text := env.text(lastError);
        ctx := ctx["error_message" := text]["last_error_message" := text]["last_error_step" := Name(s.stype)];
        DoEmit(id, Warned, s.stype, Some(lastError));
        swallowed := Some(id);
        return Returned(held);
      }
      out := Raised(lastError);
    }

    method DoAttempt(s: Step, id: StepId, driver: Driver) returns (out: Outcome, held: Driver)
      modifies this
      ensures Tried(out, held, Now()) == Attempt(env, s, id, driver, old(Now()))
      decreases s, 2, 0
    {
      if !IsAtomic(s.stype) {
        out := DoBlock(s, id, driver);
        return out, driver;
      }
      out, held := DoEnsureDriver(s.stype, driver);
      if out.Raised? { return; }
      out := DoInvoke(s, held);
      if out.Returned? { held := out.driver; }
    }

    /** `execute_block_step`. */
    method DoBlock(s: Step, id: StepId, driver: Driver) returns (out: Outcome)
      modifies this
      ensures Result(out, Now()) == ExecBlock(env, s, id, driver, old(Now()))
      decreases s, 1, 0
    {
      match s.stype
      case Group => out := DoSequence(s.steps, InGroup, id, driver);
      case Repeat => out := DoRepeat(s, id, driver);
      case Parallel => out := DoParallel(s.steps, id, driver);
      case Try => out := DoTry(s, id, driver);
      case _ => out := Raised(UnsupportedBlock(s.stype));
    }

    method DoRepeat(s: Step, id: StepId, driver: Driver) returns (out: Outcome)
      modifies this
      ensures Result(out, Now()) == RepeatBlock(env, s, s.times, id, driver, old(Now()))
      decreases s, 0, 2
    {
      var updated := driver;
      var left := s.times;
      while left > 0
        invariant RepeatBlock(env, s, left, id, updated, Now()) == RepeatBlock(env, s, s.times, id, driver, old(Now()))
      {
        out := DoSequence(s.steps, InRepeat, id, updated);
        if out.Raised? { return; }
        updated := out.driver;
        left := left - 1;
      }
      out := Returned(updated);
    }

    /** `execute_steps_sequence`. */
    method DoSequence(steps: seq<Step>, part: Part, id: StepId, driver: Driver) returns (out: Outcome)
      modifies this
      ensures Result(out, Now()) == Sequence(env, steps, part, 0, id, driver, old(Now()))
      decreases steps, 0
    {
      var updated := driver;
      for i := 0 to |steps|
        invariant Sequence(env, steps, part, i, id, updated, Now())
               == Sequence(env, steps, part, 0, id, driver, old(Now()))
      {
        out := DoChild(steps[i], ChildId(id, part, i), updated);
        if out.Raised? { return; }
        updated := out.driver;
      }
      out := Returned(updated);
    }

    /** One round of the loop of a sequence or of a hook list. */
    method DoChild(s: Step, id: StepId, driver: Driver) returns (out: Outcome)
      modifies this
      ensures Result(out, Now()) == ExecChild(env, s, id, driver, old(Now()))
      decreases s, 5, 0
    {
      DoEmit(id, EventKind.Started, s.stype, None);
      swallowed := None;
      out := DoStep(s, id, driver);
      DoClose(s, id, out);
    }

    method DoClose(s: Step, id: StepId, out: Outcome)
      modifies this
      ensures Result(out, Now()) == Close(s, id, Result(out, old(Now())))
    {
      if out.Raised? {
        DoEmit(id, Failed, s.stype, Some(out.error));
      } else if swallowed.None? {
        DoEmit(id, Succeeded, s.stype, None);
      } else {
        swallowed := None;
      }
    }

    /** `execute_try_step`. */
    method DoTry(s: Step, id: StepId, driver: Driver) returns (out: Outcome)
      modifies this
      ensures Result(out, Now()) == TryBlock(env, s, id, driver, old(Now()))
      decreases s, 0, 2
    {
      var updated := driver;
      out := DoSequence(s.trySteps, InTry, id, updated);
      if out.Raised? {
        ctx := ctx["error_message" := env.text(out.error)];
        if s.catchSteps != [] {
          out := DoSequence(s.catchSteps, InCatch, id, updated);
        }
      }
      if out.Returned? { updated := out.driver; }
      if s.finallySteps != [] {
        var last := DoSequence(s.finallySteps, InFinally, id, updated);
        if last.Raised? || out.Returned? { out := last; }
      }
    }

    /** `execute_parallel_steps`: the pool runs the threads until all are done, then
        their results are read in list order. */
    method DoParallel(steps: seq<Step>, id: StepId, driver: Driver) returns (out: Outcome)
      modifies this
      ensures Result(out, Now()) == ParallelBlock(env, steps, id, driver, old(Now()))
    {
      var unsafe := UnsafeTypes(steps, |steps|);
      if unsafe != [] { return Raised(UnsupportedParallel(unsafe)); }
      var threads := Threads(steps, ctx);
      var moves := 0;
      while Unfinished(threads, |threads|) != []
        invariant |threads| == |steps|
        invariant Interleave(env, steps, id, threads, Now(), moves)
               == Interleave(env, steps, id, Threads(steps, old(ctx)), old(Now()), 0)
        decreases TotalMeasure(steps, threads, |threads|)
      {
        var i := Scheduled(env, threads, calls, moves);
        ghost var cid := ChildId(id, InParallel, i);
        ChildMoveDecreases(env, steps[i], cid, threads[i], Now());
        var thread := DoMove(steps[i], ChildId(id, InParallel, i), threads[i]);
        TotalMeasureUpdate(steps, threads, |threads|, i, thread);
        threads := threads[i := thread];
        moves := moves + 1;
      }
      var j := 0;
      while j < |threads|
        invariant j <= |threads|
        invariant FirstRaise(threads, j, driver) == FirstRaise(threads, 0, driver)
      {
        if threads[j].Done? && threads[j].out.Raised? { return threads[j].out; }
        j := j + 1;
      }
      out := Returned(driver);
    }

    /** A move of one thread, on its own copy of the context. */
    method DoMove(s: Step, id: StepId, c: Child) returns (c': Child)
      modifies this
      ensures (c', Now()) == ChildMove(env, s, id, c, old(Now()))
    {
      match c
      case Waiting(own) =>
        var go := Condition(env, s, Now().(ctx := own));
        c' := if go.None? then Done(Raised(BadCondition(s.ctl.when.GetOr(""))))
              else if go.value then Trying(0, own)
              else Done(Returned(None));
      case Trying(k, own) =>
        var parent := ctx;
        ctx := own;
        var out, held := DoEnsureDriver(s.stype, None);
        if out.Returned? { out := DoInvoke(s, held); }
        c' := if out.Raised? then Reporting(k, ctx, out.error) else Done(out);
        ctx := parent;
      case Reporting(k, own, error) =>
        if k + 1 < s.Attempts() {
          DoEmit(id, Retrying, s.stype, Some(error));
          DoPause(s, k);
          c' := Trying(k + 1, own);
        } else if s.ctl.continueOnError {
          DoEmit(id, Warned, s.stype, Some(error));
          c' := Done(Returned(None));
        } else {
          c' := Done(Raised(error));
        }
      case Done(_) => c' := c;
    }

    /** `_execute_hook_steps`. */
    method DoHooks(steps: seq<Step>, part: Part, driver: Driver) returns (out: Outcome)
      modifies this
      ensures Result(out, Now()) == Hooks(env, steps, part, 0, driver, old(Now()))
    {
      var updated := driver;
      for i := 0 to |steps|
        invariant Hooks(env, steps, part, i, updated, Now()) == Hooks(env, steps, part, 0, driver, old(Now()))
      {
        var s, id := steps[i], [Segment(part, i)];
        var go := Condition(env, s, Now());
        if go.None? { return Raised(BadCondition(s.ctl.when.GetOr(""))); }
        if !go.value {
          DoEmit(id, Skipped, s.stype, None);
        } else {
          out := DoChild(s, id, updated);
          if out.Raised? { return; }
          updated := out.driver;
        }
      }
      if updated.Some? { hookDriver := updated; }
      out := Returned(updated);
    }

    /** The loop of `run_task` over the main steps. */
    method DoMainSteps(steps: seq<Step>, driver: Driver)
      returns (out: Outcome, held: Driver, reached: nat, ghost stuck: Option<StepId>)
      modifies this
      ensures MainEnd(out, held, reached, stuck, Now()) == MainSteps(env, steps, 0, driver, old(Now()))
    {
      held, stuck, reached := driver, None, 0;
      for i := 0 to |steps|
        invariant MainSteps(env, steps, i, held, Now()) == MainSteps(env, steps, 0, driver, old(Now()))
        invariant reached == i && stuck.None?
      {
        var s, id := steps[i], [Segment(InSteps, i)];
        reached := i + 1;
        var go := Condition(env, s, Now());
        if go.None? { return Raised(BadCondition(s.ctl.when.GetOr(""))), held, reached, None; }
        if !go.value {
          DoEmit(id, Skipped, s.stype, None);
        } else {
          ghost var before := Now();
          DoEmit(id, EventKind.Started, s.stype, None);
          var first, got := DoEnsureDriver(s.stype, held);
          if first.Raised? {
            assert MainStep(env, s, i, held, before) == MainEnd(first, held, reached, Some(id), Now());
            return first, held, reached, Some(id);
          }
          swallowed := None;
          out := DoStep(s, id, got);
          DoClose(s, id, out);
          assert MainStep(env, s, i, held, before) == MainEnd(out, got, reached, None, Now());
          held := got;
          if out.Raised? { return; }
          held := out.driver;
        }
      }
      out := Returned(held);
    }

    /** The except clause of `run_task`. */
    method DoOnError(sc: Scenario, error: Error, driver: Driver, at: string) returns (end: TaskEnd, held: Driver)
      modifies this
      ensures Phase(end, held, at, Now()) == OnError(env, sc, error, driver, at, old(Now()))
    {
      ctx := ctx["current_step" := at]["error_message" := env.text(error)];
      var out := DoHooks(sc.onFailure, OnFailure, driver);
      if out.Raised? { return Escaped(out.error), driver; }
      held := if hookDriver.Some? then hookDriver else driver;
      end := Ended(false, at, env.text(error), ExecutionId(Now()));
    }

    /** The try clause of `run_task` once the main steps have returned. */
    method DoOnReturn(sc: Scenario, ghost m: MainEnd, driver: Driver, at: string) returns (end: TaskEnd, held: Driver)
      requires m.out.Returned? && m.w == Now() && m.held == driver && at == StepLabel(env, sc.steps, m.reached)
      modifies this
      ensures Phase(end, held, at, Now()) == OnReturn(env, sc, m)
    {
      ctx := ctx["current_step" := at];
      var out := DoHooks(sc.onSuccess, OnSuccess, driver);
      if out.Raised? {
        end, held := DoOnError(sc, out.error, driver, at);
      } else {
        held := if hookDriver.Some? then hookDriver else driver;
        end := Ended(true, at, SuccessMessage(env), ExecutionId(Now()));
      }
    }

    /** The try and except clauses of `run_task`. */
    method DoBody(sc: Scenario) returns (end: TaskEnd, held: Driver, at: string)
      modifies this
      ensures Phase(end, held, at, Now()) == Body(env, sc, old(Now()))
    {
      at := StepLabel(env, sc.steps, 0);
      var out := DoHooks(sc.before, BeforeSteps, None);
      if out.Raised? {
        end, held := DoOnError(sc, out.error, None, at);
        return;
      }
      var reached;
      ghost var stuck;
      out, held, reached, stuck := DoMainSteps(sc.steps, hookDriver);
      at := StepLabel(env, sc.steps, reached);
      if out.Raised? {
        end, held := DoOnError(sc, out.error, held, at);
      } else {
        end, held := DoOnReturn(sc, MainEnd(out, held, reached, stuck, Now()), held, at);
      }
    }

    /** `run_task`. */
    method DoRunTask(sc: Scenario) returns (end: TaskEnd)
      modifies this
      ensures Run(end, Now()) == Finally(env, sc, Body(env, sc, old(Now())))
    {
      var held, at;
      end, held, at := DoBody(sc);
      ctx := ctx["current_step" := at];
      var out := DoHooks(sc.finallySteps, FinallyHooks, held);
      if out.Raised? { return Escaped(out.error); }
      held := if hookDriver.Some? then hookDriver else held;
      if held.Some? {
        browsers := browsers + [Quit(held.value)];
        var failure := env.quit(calls, browsers);
        if failure.Some? { end := Escaped(QuitFailed(failure.value)); }
      }
    }
  }

  /** A run on a new object, from its initial context. */
  method RunScenario(env: Env, sc: Scenario, ctx: Ctx) returns (end: TaskEnd, w: World)
    ensures Run(end, w) == RunTask(env, sc, ctx)
  {
    var runner := new TaskRunner(env, ctx);
    end := runner.DoRunTask(sc);
    w := runner.Now();
  }
}
