/** What one run of a scenario does (scenarios/runner.py, scenarios/engine.py), as
    functions from the world before to the outcome and the world after. Class
    `Runner.TaskRunner` is the imperative interpreter proved equal to them. */
module Interpreter {
  import opened Wrappers
  import opened Steps
  import opened Json
  import opened Digits
  import opened Conditions

  type Driver = Option<nat>

  datatype Error =
    | HandlerError(message: string)
    | TimedOut
    | LaunchFailed(message: string)
    | QuitFailed(message: string)
    | BadCondition(expression: string)
    | UnsupportedBlock(stype: StepType)
    | UnsupportedStepType(stype: StepType)
    | UnsupportedParallel(stypes: seq<StepType>)

  datatype Outcome = Returned(driver: Driver) | Raised(error: Error)

  datatype Part =
    | BeforeSteps | InSteps | OnSuccess | OnFailure | FinallyHooks
    | InGroup | InRepeat | InParallel | InTry | InCatch | InFinally

  datatype Segment = Segment(part: Part, index: nat)

  /** `steps[2]>group[0]` is the path [InSteps 2, InGroup 0]. */
  type StepId = seq<Segment>

  /** `Failed` is step_failed at level error, `Warned` the warning-level
      step_failed of a step that continues on error. */
  datatype EventKind = Started | Succeeded | Failed | Warned | Retrying | Skipped

  datatype Event = Event(id: StepId, kind: EventKind, stype: StepType, error: Option<Error>)

  /** Browsers are numbered by the event that launches them. */
  datatype BrowserEvent = Launch | Quit(id: nat)

  /** The sleep of `delay * backoff**attempt` seconds after a failed attempt. */
  datatype Nap = Nap(delay: real, backoff: real, attempt: nat)

  /** What a handler is given, and the time limit it runs under. */
  datatype Call = Call(
    stype: StepType, payload: map<string, Value>, driver: Driver, view: Ctx, dryRun: bool, limit: Option<real>)

  /** What a handler does: the context it leaves, whether it raises, and whether it
      ends after the step's time limit. */
  datatype Reply = Reply(ctx: Ctx, failure: Option<string>, late: bool)

  /** Everything the program cannot see into. A handler may answer differently on
      every call: its reply depends on all calls so far. So may a launch on every try,
      after failed ones too. `pick` schedules the threads of parallel blocks. */
  datatype Env = Env(
    dryRun: bool,
    reply: seq<Call> -> Reply,
    launch: (seq<Call>, seq<BrowserEvent>, nat) -> Option<string>,
    quit: (seq<Call>, seq<BrowserEvent>) -> Option<string>,
    pick: (seq<Call>, nat) -> nat,
    search: (string, string) -> Option<bool>,
    text: Error -> string,
    driverText: nat -> string)

  /** The shared state of a run: the context dictionary (its two reserved keys as
      fields of their own) and what an observer of the run has seen so far. */
  datatype World = World(
    ctx: Ctx, hookDriver: Driver, swallowed: Option<StepId>,
    trace: seq<Event>, calls: seq<Call>, browsers: seq<BrowserEvent>, failedLaunches: nat, sleeps: seq<Nap>)

  datatype Result = Result(out: Outcome, w: World)

  /** One attempt of a step: its outcome and the driver the step holds after it. */
  datatype Tried = Tried(out: Outcome, held: Driver, w: World)

  // ---------------------------------------------------------------- small steps

  /** The context as conditions and handlers read it. */
  function View(e: Env, w: World): Ctx {
    if w.hookDriver.Some? then w.ctx["__driver__" := "<" + e.driverText(w.hookDriver.value)] else w.ctx
  }

  function Emit(w: World, id: StepId, kind: EventKind, t: StepType, error: Option<Error>): World {
    w.(trace := w.trace + [Event(id, kind, t, error)])
  }

  function Start(w: World, id: StepId, t: StepType): World {
    Emit(w, id, Started, t, None).(swallowed := None)
  }

  /** After a child returned: green, unless its error was swallowed. */
  function Finish(w: World, id: StepId, t: StepType): World {
    if w.swallowed.None? then Emit(w, id, Succeeded, t, None) else w.(swallowed := None)
  }

  function NapAfter(s: Step, k: nat): Nap {
    Nap(s.ctl.delay, s.ctl.backoff, k)
  }

  function Pause(s: Step, k: nat, w: World): World {
    if s.ctl.delay > 0.0 then w.(sleeps := w.sleeps + [NapAfter(s, k)]) else w
  }

  function Condition(e: Env, s: Step, w: World): Option<bool> {
    ShouldExecute(s.ctl.when, View(e, w), e.search)
  }

  // ---------------------------------------------------------------- atomic steps

  function EnsureDriver(e: Env, t: StepType, d: Driver, w: World): Tried {
    if !e.dryRun && RequiresDriver(t) && d.None? then
      var failure := e.launch(w.calls, w.browsers, w.failedLaunches);
      if failure.Some? then
        Tried(Raised(LaunchFailed(failure.value)), None, w.(failedLaunches := w.failedLaunches + 1))
      else
        var id := |w.browsers|;
        Tried(Returned(Some(id)), Some(id), w.(browsers := w.browsers + [Launch]))
    else Tried(Returned(d), d, w)
  }

  function Closes(e: Env, t: StepType, d: Driver): bool {
    t.CloseBrowser? && !e.dryRun && d.Some?
  }

  /** Looks the handler up, calls it and reads the driver back. */
  function Invoke(e: Env, s: Step, d: Driver, w: World): Result {
    if !HasHandler(s.stype) then Result(Raised(UnsupportedStepType(s.stype)), w)
    else
      var calls := w.calls + [Call(s.stype, s.payload, d, View(e, w), e.dryRun, s.ctl.timeout)];
      var reply := e.reply(calls);
      var closes := Closes(e, s.stype, d);
      var browsers := if closes then w.browsers + [Quit(d.value)] else w.browsers;
      var w' := w.(calls := calls, ctx := reply.ctx, browsers := browsers);
      if s.ctl.timeout.Some? && reply.late then Result(Raised(TimedOut), w')
      else if reply.failure.Some? then Result(Raised(HandlerError(reply.failure.value)), w')
      else Result(Returned(if closes then None else d), w')
  }

  function AtomicAttempt(e: Env, s: Step, d: Driver, w: World): Tried {
    var got := EnsureDriver(e, s.stype, d, w);
    if got.out.Raised? then got
    else
      var r := Invoke(e, s, got.held, got.w);
      Tried(r.out, if r.out.Returned? then r.out.driver else got.held, r.w)
  }

  // ---------------------------------------------------------------- parallel blocks

  /** A thread of a parallel block, with its own copy of the context: about to test
      its condition, to make attempt `k`, to report that attempt's error, or done. */
  datatype Child =
    | Waiting(ctx: Ctx)
    | Trying(k: nat, ctx: Ctx)
    | Reporting(k: nat, ctx: Ctx, error: Error)
    | Done(out: Outcome)

  function ChildMeasure(s: Step, c: Child): nat {
    var n := s.Attempts();
    match c
    case Waiting(_) => 2 * n + 3
    case Trying(k, _) => if k < n then 2 * (n - k) + 2 else 2
    case Reporting(k, _, _) => if k < n then 2 * (n - k) + 1 else 1
    case Done(_) => 0
  }

  /** One uninterrupted move of a thread. */
  function ChildMove(e: Env, s: Step, id: StepId, c: Child, w: World): (Child, World) {
    match c
    case Waiting(ctx) =>
      var go := Condition(e, s, w.(ctx := ctx));
      if go.None? then (Done(Raised(BadCondition(s.ctl.when.GetOr("")))), w)
      else if go.value then (Trying(0, ctx), w)
      else (Done(Returned(None)), w)
    case Trying(k, ctx) =>
      var a := AtomicAttempt(e, s, None, w.(ctx := ctx));
      var w' := a.w.(ctx := w.ctx);
      (if a.out.Raised? then Reporting(k, a.w.ctx, a.out.error) else Done(a.out), w')
    case Reporting(k, ctx, error) =>
      if k + 1 < s.Attempts() then
        (Trying(k + 1, ctx), Pause(s, k, Emit(w, id, Retrying, s.stype, Some(error))))
      else if s.ctl.continueOnError then
        (Done(Returned(None)), Emit(w, id, Warned, s.stype, Some(error)))
      else (Done(Raised(error)), w)
    case Done(_) => (c, w)
  }

  function Unfinished(cs: seq<Child>, n: nat): (ids: seq<nat>)
    requires n <= |cs|
    ensures forall i :: i in ids <==> 0 <= i < n && !cs[i].Done?
  {
    if n == 0 then []
    else Unfinished(cs, n - 1) + if cs[n - 1].Done? then [] else [n - 1]
  }

  function TotalMeasure(steps: seq<Step>, cs: seq<Child>, n: nat): nat
    requires |cs| == |steps| && n <= |cs|
  {
    if n == 0 then 0 else TotalMeasure(steps, cs, n - 1) + ChildMeasure(steps[n - 1], cs[n - 1])
  }

  lemma {:induction false} TotalMeasureUpdate(steps: seq<Step>, cs: seq<Child>, n: nat, i: nat, c: Child)
    requires |cs| == |steps| && n <= |cs| && i < |cs|
    ensures TotalMeasure(steps, cs[i := c], n)
         == TotalMeasure(steps, cs, n) + if i < n then ChildMeasure(steps[i], c) - ChildMeasure(steps[i], cs[i]) else 0
  {
    if n > 0 { TotalMeasureUpdate(steps, cs, n - 1, i, c); }
  }

  lemma ChildMoveDecreases(e: Env, s: Step, id: StepId, c: Child, w: World)
    requires !c.Done?
    ensures ChildMeasure(s, ChildMove(e, s, id, c, w).0) < ChildMeasure(s, c)
  {
  }

  function Scheduled(e: Env, cs: seq<Child>, calls: seq<Call>, n: nat): (i: nat)
    requires Unfinished(cs, |cs|) != []
    ensures i < |cs| && !cs[i].Done?
  {
    var ids := Unfinished(cs, |cs|);
    var i := ids[e.pick(calls, n) % |ids|];
    assert i in ids;
    i
  }

  /** Interleaves the threads until all are done; `n` moves were made before. */
  function Interleave(e: Env, steps: seq<Step>, id: StepId, cs: seq<Child>, w: World, n: nat): (r: (seq<Child>, World))
    requires |cs| == |steps|
    ensures |r.0| == |cs|
    decreases TotalMeasure(steps, cs, |cs|)
  {
    if Unfinished(cs, |cs|) == [] then (cs, w)
    else
      var i := Scheduled(e, cs, w.calls, n);
      var m := ChildMove(e, steps[i], ChildId(id, InParallel, i), cs[i], w);
      ChildMoveDecreases(e, steps[i], ChildId(id, InParallel, i), cs[i], w);
      TotalMeasureUpdate(steps, cs, |cs|, i, m.0);
      Interleave(e, steps, id, cs[i := m.0], m.1, n + 1)
  }

  function ChildId(id: StepId, part: Part, i: nat): StepId {
    id + [Segment(part, i)]
  }

  /** Futures are read in list order, so the first child that raised decides. */
  function FirstRaise(cs: seq<Child>, i: nat, d: Driver): Outcome
    requires i <= |cs|
    decreases |cs| - i
  {
    if i == |cs| then Returned(d)
    else if cs[i].Done? && cs[i].out.Raised? then cs[i].out
    else FirstRaise(cs, i + 1, d)
  }

  function UnsafeTypes(steps: seq<Step>, n: nat): (ts: seq<StepType>)
    requires n <= |steps|
    ensures ts == [] <==> forall i :: 0 <= i < n ==> IsParallelSafe(steps[i].stype)
  {
    if n == 0 then []
    else UnsafeTypes(steps, n - 1) + if IsParallelSafe(steps[n - 1].stype) then [] else [steps[n - 1].stype]
  }

  function Threads(steps: seq<Step>, ctx: Ctx): (cs: seq<Child>)
    ensures |cs| == |steps| && forall i :: 0 <= i < |cs| ==> cs[i] == Waiting(ctx)
  {
    seq(|steps|, _ => Waiting(ctx))
  }

  function ParallelBlock(e: Env, steps: seq<Step>, id: StepId, d: Driver, w: World): Result {
    var unsafe := UnsafeTypes(steps, |steps|);
    if unsafe != [] then Result(Raised(UnsupportedParallel(unsafe)), w)
    else
      var r := Interleave(e, steps, id, Threads(steps, w.ctx), w, 0);
      Result(FirstRaise(r.0, 0, d), r.1)
  }

  // ---------------------------------------------------------------- the step tree

  function ExecStep(e: Env, s: Step, id: StepId, d: Driver, w: World): Result
    decreases s, 4, 0
  {
    var go := Condition(e, s, w);
    if go.None? then Result(Raised(BadCondition(s.ctl.when.GetOr(""))), w)
    else if !go.value then Result(Returned(None), w)
    else Attempts(e, s, id, 0, d, w)
  }

  /** Attempts k, k+1, ... of a step. */
  function Attempts(e: Env, s: Step, id: StepId, k: nat, d: Driver, w: World): Result
    requires k < s.Attempts()
    decreases s, 3, s.Attempts() - k
  {
    var a := Attempt(e, s, id, d, w);
    if a.out.Returned? then Result(a.out, a.w)
    else if k + 1 < s.Attempts() then
      Attempts(e, s, id, k + 1, a.held, Retry(s, id, k, a.out.error, a.w))
    else Exhausted(e, s, id, a.out.error, a.held, a.w)
  }

  function Retry(s: Step, id: StepId, k: nat, error: Error, w: World): World {
    Pause(s, k, Emit(w, id, Retrying, s.stype, Some(error)))
  }

  /** All attempts raised: swallow the last error or raise it. */
  function Exhausted(e: Env, s: Step, id: StepId, error: Error, d: Driver, w: World): Result {
    if s.ctl.continueOnError then
      var text := e.text(error);
      var ctx := w.ctx["error_message" := text]["last_error_message" := text]["last_error_step" := Name(s.stype)];
      Result(Returned(d), Emit(w.(ctx := ctx), id, Warned, s.stype, Some(error)).(swallowed := Some(id)))
    else Result(Raised(error), w)
  }

  function Attempt(e: Env, s: Step, id: StepId, d: Driver, w: World): Tried
    decreases s, 2, 0
  {
    if IsAtomic(s.stype) then AtomicAttempt(e, s, d, w)
    else var r := ExecBlock(e, s, id, d, w); Tried(r.out, d, r.w)
  }

  function ExecBlock(e: Env, s: Step, id: StepId, d: Driver, w: World): Result
    decreases s, 1, 0
  {
    match s.stype
    case Group => Sequence(e, s.steps, InGroup, 0, id, d, w)
    case Repeat => RepeatBlock(e, s, s.times, id, d, w)
    case Parallel => ParallelBlock(e, s.steps, id, d, w)
    case Try => TryBlock(e, s, id, d, w)
    case _ => Result(Raised(UnsupportedBlock(s.stype)), w)
  }

  /** Children i, i+1, ... of a sequence. */
  function Sequence(e: Env, steps: seq<Step>, part: Part, i: nat, id: StepId, d: Driver, w: World): Result
    requires i <= |steps|
    decreases steps, 0, |steps| - i
  {
    if i == |steps| then Result(Returned(d), w)
    else
      var r := ExecChild(e, steps[i], ChildId(id, part, i), d, w);
      if r.out.Raised? then r
      else Sequence(e, steps, part, i + 1, id, r.out.driver, r.w)
  }

  /** A child from its step_started to its closing event. */
  function ExecChild(e: Env, s: Step, id: StepId, d: Driver, w: World): Result
    decreases s, 5, 0
  {
    Close(s, id, ExecStep(e, s, id, d, Start(w, id, s.stype)))
  }

  function Close(s: Step, id: StepId, r: Result): Result {
    if r.out.Raised? then Result(r.out, Emit(r.w, id, Failed, s.stype, Some(r.out.error)))
    else Result(r.out, Finish(r.w, id, s.stype))
  }

  /** The remaining `times` rounds of a repeat block. */
  function RepeatBlock(e: Env, s: Step, times: int, id: StepId, d: Driver, w: World): Result
    decreases s, 0, if times > 0 then times else 0
  {
    if times <= 0 then Result(Returned(d), w)
    else
      var r := Sequence(e, s.steps, InRepeat, 0, id, d, w);
      if r.out.Raised? then r
      else RepeatBlock(e, s, times - 1, id, r.out.driver, r.w)
  }

  function TryBlock(e: Env, s: Step, id: StepId, d: Driver, w: World): Result
    decreases s, 0, 1
  {
    var r := TryCatch(e, s, id, d, w);
    if s.finallySteps == [] then r
    else
      var f := Sequence(e, s.finallySteps, InFinally, 0, id, if r.out.Returned? then r.out.driver else d, r.w);
      if f.out.Raised? || r.out.Returned? then f else Result(r.out, f.w)
  }

  /** The try and catch parts. A part that raises leaves the block's driver as it was. */
  function TryCatch(e: Env, s: Step, id: StepId, d: Driver, w: World): Result
    decreases s, 0, 0
  {
    var t := Sequence(e, s.trySteps, InTry, 0, id, d, w);
    if t.out.Returned? then t
    else
      var w' := t.w.(ctx := t.w.ctx["error_message" := e.text(t.out.error)]);
      if s.catchSteps == [] then Result(t.out, w')
      else Sequence(e, s.catchSteps, InCatch, 0, id, d, w')
  }

  // ---------------------------------------------------------------- the whole run

  /** Hook steps i, i+1, ...; hooks that end with a driver leave it in the context. */
  function Hooks(e: Env, steps: seq<Step>, part: Part, i: nat, d: Driver, w: World): Result
    requires i <= |steps|
    decreases |steps| - i
  {
    if i == |steps| then Result(Returned(d), if d.Some? then w.(hookDriver := d) else w)
    else
      var s, id := steps[i], [Segment(part, i)];
      var go := Condition(e, s, w);
      if go.None? then Result(Raised(BadCondition(s.ctl.when.GetOr(""))), w)
      else if !go.value then Hooks(e, steps, part, i + 1, d, Emit(w, id, Skipped, s.stype, None))
      else
        var r := ExecChild(e, s, id, d, w);
        if r.out.Raised? then r
        else Hooks(e, steps, part, i + 1, r.out.driver, r.w)
  }

  /** How the main steps ended: the driver `run_task` then holds, how many steps it
      came to, and the started step, if any, whose browser could not be launched. */
  datatype MainEnd = MainEnd(out: Outcome, held: Driver, reached: nat, stuck: Option<StepId>, w: World)

  function MainSteps(e: Env, steps: seq<Step>, i: nat, d: Driver, w: World): MainEnd
    requires i <= |steps|
    decreases |steps| - i
  {
    if i == |steps| then MainEnd(Returned(d), d, i, None, w)
    else
      var s, id := steps[i], [Segment(InSteps, i)];
      var go := Condition(e, s, w);
      if go.None? then MainEnd(Raised(BadCondition(s.ctl.when.GetOr(""))), d, i + 1, None, w)
      else if !go.value then MainSteps(e, steps, i + 1, d, Emit(w, id, Skipped, s.stype, None))
      else
        var m := MainStep(e, s, i, d, w);
        if m.out.Raised? then m else MainSteps(e, steps, i + 1, m.out.driver, m.w)
  }

  /** One main step that is not skipped. */
  function MainStep(e: Env, s: Step, i: nat, d: Driver, w: World): MainEnd {
    var id := [Segment(InSteps, i)];
    var got := EnsureDriver(e, s.stype, d, Emit(w, id, Started, s.stype, None));
    if got.out.Raised? then MainEnd(got.out, d, i + 1, Some(id), got.w)
    else
      var r := Close(s, id, ExecStep(e, s, id, got.held, got.w.(swallowed := None)));
      MainEnd(r.out, got.held, i + 1, None, r.w)
  }

  /** The value of `current_step` when the run has come to `reached` main steps. */
  function StepLabel(e: Env, steps: seq<Step>, reached: nat): string {
    if 0 < reached <= |steps| then Decimal(reached) + ":" + Name(steps[reached - 1].stype)
    else if e.dryRun then "dry_run" else "driver_created"
  }

  /** What `run_task` gives back: its result, or an exception out of hooks run in
      its except and finally clauses or out of the final quit. */
  datatype TaskEnd =
    | Ended(success: bool, step: string, message: string, executionId: Option<string>)
    | Escaped(error: Error)

  /** The state of `run_task` before its finally clause. */
  datatype Phase = Phase(end: TaskEnd, held: Driver, at: string, w: World)

  datatype Run = Run(end: TaskEnd, w: World)

  function HookedDriver(w: World, d: Driver): Driver {
    if w.hookDriver.Some? then w.hookDriver else d
  }

  function Note(w: World, key: string, value: string): World {
    w.(ctx := w.ctx[key := value])
  }

  function ExecutionId(w: World): Option<string> {
    if "execution_id" in w.ctx then Some(w.ctx["execution_id"]) else None
  }

  function SuccessMessage(e: Env): string {
    if e.dryRun then "Dry-run complet du scenario execute." else "Tache executee avec succes."
  }

  /** The except clause. */
  function OnError(e: Env, sc: Scenario, error: Error, d: Driver, at: string, w: World): Phase {
    var w1 := Note(Note(w, "current_step", at), "error_message", e.text(error));
    var r := Hooks(e, sc.onFailure, OnFailure, 0, d, w1);
    if r.out.Raised? then Phase(Escaped(r.out.error), d, at, r.w)
    else Phase(Ended(false, at, e.text(error), ExecutionId(r.w)), HookedDriver(r.w, d), at, r.w)
  }

  /** The try clause after the main steps returned. */
  function OnReturn(e: Env, sc: Scenario, m: MainEnd): Phase
    requires m.out.Returned?
  {
    var at := StepLabel(e, sc.steps, m.reached);
    var r := Hooks(e, sc.onSuccess, OnSuccess, 0, m.held, Note(m.w, "current_step", at));
    if r.out.Raised? then OnError(e, sc, r.out.error, m.held, at, r.w)
    else Phase(Ended(true, at, SuccessMessage(e), ExecutionId(r.w)), HookedDriver(r.w, m.held), at, r.w)
  }

  function Body(e: Env, sc: Scenario, w: World): Phase {
    var b := Hooks(e, sc.before, BeforeSteps, 0, None, w);
    if b.out.Raised? then OnError(e, sc, b.out.error, None, StepLabel(e, sc.steps, 0), b.w)
    else
      var m := MainSteps(e, sc.steps, 0, HookedDriver(b.w, None), b.w);
      if m.out.Raised? then OnError(e, sc, m.out.error, m.held, StepLabel(e, sc.steps, m.reached), m.w)
      else OnReturn(e, sc, m)
  }

  /** The finally clause. */
  function Finally(e: Env, sc: Scenario, p: Phase): Run {
    var r := Hooks(e, sc.finallySteps, FinallyHooks, 0, p.held, Note(p.w, "current_step", p.at));
    if r.out.Raised? then Run(Escaped(r.out.error), r.w)
    else QuitLast(e, p.end, HookedDriver(r.w, p.held), r.w)
  }

  function QuitLast(e: Env, end: TaskEnd, d: Driver, w: World): Run {
    if d.None? then Run(end, w)
    else
      var browsers := w.browsers + [Quit(d.value)];
      var failure := e.quit(w.calls, browsers);
      Run(if failure.Some? then Escaped(QuitFailed(failure.value)) else end, w.(browsers := browsers))
  }

  function Fresh(ctx: Ctx): World {
    World(ctx, None, None, [], [], [], 0, [])
  }

  function RunTask(e: Env, sc: Scenario, ctx: Ctx): Run {
    Finally(e, sc, Body(e, sc, Fresh(ctx)))
  }
}
