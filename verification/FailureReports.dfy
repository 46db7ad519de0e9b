/** Every failure of a handler is reported exactly once, in order and with its error: by the
    event that retries the step, the one that swallows the error, or the one that closes the
    step as failed. Likewise every browser that could not be launched. */
module FailureReports {
  import opened Wrappers
  import opened Steps
  import opened Conditions
  import opened Interpreter
  import opened Handovers
  import opened Brackets
  import opened ParallelBlocks

  /** How the last of these calls failed, if it did: ending late under a time limit goes
      before what the handler raised. */
  function FailureOf(e: Env, calls: seq<Call>): seq<Error>
    requires calls != []
  {
    var reply := e.reply(calls);
    if calls[|calls| - 1].limit.Some? && reply.late then [TimedOut]
    else if reply.failure.Some? then [HandlerError(reply.failure.value)]
    else []
  }

  function Failures(e: Env, calls: seq<Call>): seq<Error> {
    if calls == [] then [] else Failures(e, calls[..|calls| - 1]) + FailureOf(e, calls)
  }

  predicate OfHandler(error: Error) {
    error.HandlerError? || error.TimedOut?
  }

  /** The event tells why an attempt of a step that calls a handler failed. */
  predicate Accuses(event: Event) {
    IsAtomic(event.stype) && (event.kind.Retrying? || event.kind.Warned? || event.kind.Failed?) && event.error.Some?
  }

  function Report(event: Event): seq<Error> {
    if Accuses(event) && OfHandler(event.error.value) then [event.error.value] else []
  }

  /** The handlers' errors that the trace reports. */
  function Reports(t: seq<Event>): seq<Error> {
    if t == [] then [] else Reports(t[..|t| - 1]) + Report(t[|t| - 1])
  }

  function LaunchReport(event: Event): nat {
    if Accuses(event) && event.error.value.LaunchFailed? then 1 else 0
  }

  function LaunchReports(t: seq<Event>): nat {
    if t == [] then 0 else LaunchReports(t[..|t| - 1]) + LaunchReport(t[|t| - 1])
  }

  /** All failures are reported, but for the error a step of type `t` still raises, and for
      `debt` launches. */
  ghost predicate Owes(e: Env, debt: nat, w: World, t: StepType, out: Outcome) {
    var error := if out.Raised? && IsAtomic(t) then [out.error] else [];
    && Failures(e, w.calls) == Reports(w.trace) + (if error != [] && OfHandler(error[0]) then error else [])
    && w.failedLaunches == LaunchReports(w.trace) + debt + (if error != [] && error[0].LaunchFailed? then 1 else 0)
  }

  ghost predicate Told(e: Env, debt: nat, w: World) {
    Failures(e, w.calls) == Reports(w.trace) && w.failedLaunches == LaunchReports(w.trace) + debt
  }

  lemma ReportsEmit(w: World, id: StepId, kind: EventKind, t: StepType, error: Option<Error>)
    ensures var trace, event := Emit(w, id, kind, t, error).trace, Event(id, kind, t, error);
            Reports(trace) == Reports(w.trace) + Report(event)
            && LaunchReports(trace) == LaunchReports(w.trace) + LaunchReport(event)
  {
    var trace := Emit(w, id, kind, t, error).trace;
    assert trace[..|trace| - 1] == w.trace;
  }

  /** An event that accuses no one. */
  lemma PlainEmit(e: Env, debt: nat, w: World, id: StepId, kind: EventKind, t: StepType)
    requires Told(e, debt, w)
    ensures Told(e, debt, Emit(w, id, kind, t, None))
  {
    ReportsEmit(w, id, kind, t, None);
  }

  /** Reporting the error settles what is owed. */
  lemma AccusingEmit(e: Env, debt: nat, w: World, id: StepId, kind: EventKind, t: StepType, error: Error)
    requires Owes(e, debt, w, t, Raised(error)) && (kind.Retrying? || kind.Warned? || kind.Failed?)
    ensures Told(e, debt, Emit(w, id, kind, t, Some(error)))
  {
    ReportsEmit(w, id, kind, t, Some(error));
  }

  lemma OwesNothing(e: Env, debt: nat, w: World, t: StepType, out: Outcome)
    requires out.Returned? || !IsAtomic(t) || !(OfHandler(out.error) || out.error.LaunchFailed?)
    ensures Owes(e, debt, w, t, out) <==> Told(e, debt, w)
  {
    assert Reports(w.trace) + [] == Reports(w.trace);
  }

  lemma InvokeOwes(e: Env, debt: nat, s: Step, d: Driver, w: World)
    requires Told(e, debt, w) && IsAtomic(s.stype)
    ensures var r := Invoke(e, s, d, w); Owes(e, debt, r.w, s.stype, r.out)
  {
    var r := Invoke(e, s, d, w);
    assert r.w.calls[..|r.w.calls| - 1] == w.calls;
    assert r.w.calls[|r.w.calls| - 1].limit == s.ctl.timeout;
    assert r.w.trace == w.trace;
  }

  lemma AtomicOwes(e: Env, debt: nat, s: Step, d: Driver, w: World)
    requires Told(e, debt, w) && IsAtomic(s.stype)
    ensures var a := AtomicAttempt(e, s, d, w); Owes(e, debt, a.w, s.stype, a.out)
  {
    var got := EnsureDriver(e, s.stype, d, w);
    if got.out.Returned? {
      assert Told(e, debt, got.w);
      InvokeOwes(e, debt, s, got.held, got.w);
    } else {
      assert Reports(w.trace) + [] == Reports(w.trace);
    }
  }

  // ---------------------------------------------------------------- the step tree

  lemma {:induction false} StepOwes(e: Env, debt: nat, s: Step, id: StepId, d: Driver, w: World)
    requires Told(e, debt, w) && Serial(NOTES, s)
    ensures var r := ExecStep(e, s, id, d, w); Owes(e, debt, r.w, s.stype, r.out)
    decreases s, 4, 0
  {
    var r := ExecStep(e, s, id, d, w);
    if Condition(e, s, w) == Some(true) {
      var r' := AttemptsOwe(e, debt, s, id, 0, d, w);
    } else {
      OwesNothing(e, debt, w, s.stype, r.out);
    }
  }

  lemma {:induction false} AttemptsOwe(e: Env, debt: nat, s: Step, id: StepId, k: nat, d: Driver, w: World)
    returns (r: Result)
    requires Told(e, debt, w) && Serial(NOTES, s) && k < s.Attempts()
    ensures r == Attempts(e, s, id, k, d, w) && Owes(e, debt, r.w, s.stype, r.out)
    decreases s, 3, s.Attempts() - k
  {
    var a := AttemptOwes(e, debt, s, id, d, w);
    var last := a.out.Returned? || k + 1 == s.Attempts();
    var w' := AttemptGoesOn(e, debt, s, id, k, d, w, a, last);
    if last {
      r := LastAttemptOwes(e, debt, s, id, k, d, w, a);
    } else {
      r := AttemptsOwe(e, debt, s, id, k + 1, a.held, w');
    }
  }

  lemma NextAttempts(e: Env, s: Step, id: StepId, k: nat, d: Driver, w: World, a: Tried, w': World)
    requires k + 1 < s.Attempts() && a == Attempt(e, s, id, d, w) && a.out.Raised?
    requires w' == Retry(s, id, k, a.out.error, a.w)
    ensures Attempts(e, s, id, k, d, w) == Attempts(e, s, id, k + 1, a.held, w')
  {
  }

  lemma AttemptGoesOn(e: Env, debt: nat, s: Step, id: StepId, k: nat, d: Driver, w: World, a: Tried, last: bool)
    returns (w': World)
    requires k < s.Attempts() && a == Attempt(e, s, id, d, w) && Owes(e, debt, a.w, s.stype, a.out)
    requires last == (a.out.Returned? || k + 1 == s.Attempts())
    ensures !last ==> Told(e, debt, w') && Attempts(e, s, id, k, d, w) == Attempts(e, s, id, k + 1, a.held, w')
  {
    w' := a.w;
    if !last {
      w' := RetryTells(e, debt, s, id, k, a.out.error, a.w);
      NextAttempts(e, s, id, k, d, w, a, w');
    }
  }

  lemma LastAttemptOwes(e: Env, debt: nat, s: Step, id: StepId, k: nat, d: Driver, w: World, a: Tried)
    returns (r: Result)
    requires k < s.Attempts() && a == Attempt(e, s, id, d, w) && (a.out.Returned? || k + 1 == s.Attempts())
    requires Owes(e, debt, a.w, s.stype, a.out)
    ensures r == Attempts(e, s, id, k, d, w) && Owes(e, debt, r.w, s.stype, r.out)
  {
    if a.out.Raised? {
      r := ExhaustedOwes(e, debt, s, id, a.out.error, a.held, a.w);
    } else {
      r := Result(a.out, a.w);
    }
  }

  lemma RetryTells(e: Env, debt: nat, s: Step, id: StepId, k: nat, error: Error, w: World)
    returns (w': World)
    requires Owes(e, debt, w, s.stype, Raised(error))
    ensures w' == Retry(s, id, k, error, w) && Told(e, debt, w')
  {
    AccusingEmit(e, debt, w, id, Retrying, s.stype, error);
    w' := Retry(s, id, k, error, w);
    assert w'.trace == Emit(w, id, Retrying, s.stype, Some(error)).trace;
  }

  lemma ExhaustedOwes(e: Env, debt: nat, s: Step, id: StepId, error: Error, d: Driver, w: World)
    returns (r: Result)
    requires Owes(e, debt, w, s.stype, Raised(error))
    ensures r == Exhausted(e, s, id, error, d, w) && Owes(e, debt, r.w, s.stype, r.out)
  {
    r := Exhausted(e, s, id, error, d, w);
    if r.out.Returned? {
      AccusingEmit(e, debt, w, id, Warned, s.stype, error);
      assert r.w.trace == Emit(w, id, Warned, s.stype, Some(error)).trace;
      OwesNothing(e, debt, r.w, s.stype, r.out);
    }
  }

  lemma {:induction false} AttemptOwes(e: Env, debt: nat, s: Step, id: StepId, d: Driver, w: World)
    returns (a: Tried)
    requires Told(e, debt, w) && Serial(NOTES, s)
    ensures a == Attempt(e, s, id, d, w) && Owes(e, debt, a.w, s.stype, a.out)
    decreases s, 2, 0
  {
    a := Attempt(e, s, id, d, w);
    if IsAtomic(s.stype) {
      AtomicOwes(e, debt, s, d, w);
    } else {
      BlockTells(e, debt, s, id, d, w);
      OwesNothing(e, debt, a.w, s.stype, a.out);
    }
  }

  lemma {:induction false} BlockTells(e: Env, debt: nat, s: Step, id: StepId, d: Driver, w: World)
    requires Told(e, debt, w) && Serial(NOTES, s)
    ensures Told(e, debt, ExecBlock(e, s, id, d, w).w)
    decreases s, 1, 0
  {
    match s.stype
    case Group => SequenceTells(e, debt, s.steps, InGroup, 0, id, d, w);
    case Repeat => RepeatTells(e, debt, s, s.times, id, d, w);
    case Try => TryTells(e, debt, s, id, d, w);
    case _ =>
  }

  lemma {:induction false} SequenceTells(e: Env, debt: nat, steps: seq<Step>, part: Part, i: nat, id: StepId,
                                         d: Driver, w: World)
    requires Told(e, debt, w) && i <= |steps| && AllSerial(NOTES, steps)
    ensures Told(e, debt, Sequence(e, steps, part, i, id, d, w).w)
    decreases steps, 0, |steps| - i
  {
    if i < |steps| {
      var cid := ChildId(id, part, i);
      ChildTells(e, debt, steps[i], cid, d, w);
      var r := ExecChild(e, steps[i], cid, d, w);
      if r.out.Returned? { SequenceTells(e, debt, steps, part, i + 1, id, r.out.driver, r.w); }
    }
  }

  lemma {:induction false} ChildTells(e: Env, debt: nat, s: Step, id: StepId, d: Driver, w: World)
    requires Told(e, debt, w) && Serial(NOTES, s)
    ensures Told(e, debt, ExecChild(e, s, id, d, w).w)
    decreases s, 5, 0
  {
    PlainEmit(e, debt, w, id, Started, s.stype);
    StepOwes(e, debt, s, id, d, Start(w, id, s.stype));
    CloseTells(e, debt, s, id, ExecStep(e, s, id, d, Start(w, id, s.stype)));
  }

  lemma CloseTells(e: Env, debt: nat, s: Step, id: StepId, r: Result)
    requires Owes(e, debt, r.w, s.stype, r.out)
    ensures Told(e, debt, Close(s, id, r).w)
  {
    if r.out.Raised? {
      AccusingEmit(e, debt, r.w, id, Failed, s.stype, r.out.error);
    } else {
      OwesNothing(e, debt, r.w, s.stype, r.out);
      PlainEmit(e, debt, r.w, id, Succeeded, s.stype);
    }
  }

  lemma {:induction false} RepeatTells(e: Env, debt: nat, s: Step, times: int, id: StepId, d: Driver, w: World)
    requires Told(e, debt, w) && AllSerial(NOTES, s.steps)
    ensures Told(e, debt, RepeatBlock(e, s, times, id, d, w).w)
    decreases s, 0, if times > 0 then times else 0
  {
    if times > 0 {
      var r := Sequence(e, s.steps, InRepeat, 0, id, d, w);
      SequenceTells(e, debt, s.steps, InRepeat, 0, id, d, w);
      if r.out.Returned? { RepeatTells(e, debt, s, times - 1, id, r.out.driver, r.w); }
    }
  }

  lemma {:induction false} TryTells(e: Env, debt: nat, s: Step, id: StepId, d: Driver, w: World)
    requires Told(e, debt, w) && Serial(NOTES, s) && s.stype.Try?
    ensures Told(e, debt, TryBlock(e, s, id, d, w).w)
    decreases s, 0, 1
  {
    var t, r := Sequence(e, s.trySteps, InTry, 0, id, d, w), TryCatch(e, s, id, d, w);
    SequenceTells(e, debt, s.trySteps, InTry, 0, id, d, w);
    if t.out.Raised? {
      var w' := Note(t.w, "error_message", e.text(t.out.error));
      assert Told(e, debt, w');
      SequenceTells(e, debt, s.catchSteps, InCatch, 0, id, d, w');
    }
    SequenceTells(e, debt, s.finallySteps, InFinally, 0, id, if r.out.Returned? then r.out.driver else d, r.w);
  }

  // ---------------------------------------------------------------- the whole run

  lemma {:induction false} HooksTell(e: Env, debt: nat, steps: seq<Step>, part: Part, i: nat, d: Driver, w: World)
    returns (r: Result)
    requires Told(e, debt, w) && i <= |steps| && AllSerial(NOTES, steps)
    ensures r == Hooks(e, steps, part, i, d, w) && Told(e, debt, r.w)
    decreases |steps| - i
  {
    if i == |steps| {
      r := Hooks(e, steps, part, i, d, w);
    } else {
      var s, id := steps[i], [Segment(part, i)];
      var go := Condition(e, s, w);
      if go.None? {
        r := Hooks(e, steps, part, i, d, w);
      } else if !go.value {
        PlainEmit(e, debt, w, id, Skipped, s.stype);
        r := HooksTell(e, debt, steps, part, i + 1, d, Emit(w, id, Skipped, s.stype, None));
      } else {
        ChildTells(e, debt, s, id, d, w);
        r := ExecChild(e, s, id, d, w);
        if r.out.Returned? { r := HooksTell(e, debt, steps, part, i + 1, r.out.driver, r.w); }
      }
    }
  }

  /** A stuck step's launch failure is the one that no event reports. */
  ghost predicate MainTold(e: Env, debt: nat, m: MainEnd) {
    && Failures(e, m.w.calls) == Reports(m.w.trace)
    && m.w.failedLaunches == LaunchReports(m.w.trace) + debt + (if m.stuck.Some? then 1 else 0)
    && (m.out.Returned? ==> m.stuck.None?)
  }

  lemma LaunchTells(e: Env, debt: nat, t: StepType, d: Driver, w: World)
    requires Told(e, debt, w)
    ensures var got := EnsureDriver(e, t, d, w);
            if got.out.Returned? then Told(e, debt, got.w.(swallowed := None))
            else Told(e, debt + 1, got.w)
  {
  }

  lemma MainStepTells(e: Env, debt: nat, s: Step, i: nat, d: Driver, w: World) returns (m: MainEnd)
    requires Told(e, debt, w) && Serial(NOTES, s)
    ensures m == MainStep(e, s, i, d, w) && MainTold(e, debt, m)
  {
    m := MainStep(e, s, i, d, w);
    var id := [Segment(InSteps, i)];
    var w0 := Emit(w, id, Started, s.stype, None);
    PlainEmit(e, debt, w, id, Started, s.stype);
    var got := EnsureDriver(e, s.stype, d, w0);
    LaunchTells(e, debt, s.stype, d, w0);
    if got.out.Returned? {
      var w1 := got.w.(swallowed := None);
      StepOwes(e, debt, s, id, got.held, w1);
      CloseTells(e, debt, s, id, ExecStep(e, s, id, got.held, w1));
    }
  }

  lemma {:induction false} MainTells(e: Env, debt: nat, steps: seq<Step>, i: nat, d: Driver, w: World)
    returns (m: MainEnd)
    requires Told(e, debt, w) && i <= |steps| && AllSerial(NOTES, steps)
    ensures m == MainSteps(e, steps, i, d, w) && MainTold(e, debt, m)
    decreases |steps| - i
  {
    if i == |steps| {
      m := MainSteps(e, steps, i, d, w);
    } else {
      var s, id := steps[i], [Segment(InSteps, i)];
      var go := Condition(e, s, w);
      if go.None? {
        m := MainSteps(e, steps, i, d, w);
      } else if !go.value {
        PlainEmit(e, debt, w, id, Skipped, s.stype);
        m := MainTells(e, debt, steps, i + 1, d, Emit(w, id, Skipped, s.stype, None));
      } else {
        m := MainStepTells(e, debt, s, i, d, w);
        if m.out.Returned? { m := MainTells(e, debt, steps, i + 1, m.out.driver, m.w); }
      }
    }
  }

  lemma ErrorPhaseTells(e: Env, debt: nat, sc: Scenario, error: Error, d: Driver, at: string, w: World)
    requires Told(e, debt, w) && AllSerial(NOTES, sc.onFailure)
    ensures Told(e, debt, OnError(e, sc, error, d, at, w).w)
  {
    var w' := Note(Note(w, "current_step", at), "error_message", e.text(error));
    assert Told(e, debt, w');
    var r := HooksTell(e, debt, sc.onFailure, OnFailure, 0, d, w');
  }

  lemma ReturnPhaseTells(e: Env, debt: nat, sc: Scenario, m: MainEnd)
    requires Told(e, debt, m.w) && m.out.Returned?
    requires AllSerial(NOTES, sc.onSuccess) && AllSerial(NOTES, sc.onFailure)
    ensures Told(e, debt, OnReturn(e, sc, m).w)
  {
    var at := StepLabel(e, sc.steps, m.reached);
    var w := Note(m.w, "current_step", at);
    assert Told(e, debt, w);
    var r := HooksTell(e, debt, sc.onSuccess, OnSuccess, 0, m.held, w);
    if r.out.Raised? { ErrorPhaseTells(e, debt, sc, r.out.error, m.held, at, r.w); }
  }

  /** One launch goes unreported in a run with a stuck step. */
  function Debt(e: Env, sc: Scenario, ctx: Ctx): nat {
    if StuckStep(e, sc, ctx).Some? then 1 else 0
  }

  lemma BodyTells(e: Env, sc: Scenario, ctx: Ctx)
    requires ScenarioSerial(sc)
    ensures Told(e, Debt(e, sc, ctx), Body(e, sc, Fresh(ctx)).w)
  {
    var w := Fresh(ctx);
    var b := HooksTell(e, 0, sc.before, BeforeSteps, 0, None, w);
    if b.out.Raised? {
      ErrorPhaseTells(e, 0, sc, b.out.error, None, StepLabel(e, sc.steps, 0), b.w);
    } else {
      var m := MainTells(e, 0, sc.steps, 0, HookedDriver(b.w, None), b.w);
      var debt := if m.stuck.Some? then 1 else 0;
      assert Debt(e, sc, ctx) == debt && Told(e, debt, m.w);
      if m.out.Raised? {
        ErrorPhaseTells(e, debt, sc, m.out.error, m.held, StepLabel(e, sc.steps, m.reached), m.w);
      } else {
        ReturnPhaseTells(e, debt, sc, m);
      }
    }
  }

  lemma FinallyTells(e: Env, debt: nat, sc: Scenario, p: Phase)
    requires Told(e, debt, p.w) && AllSerial(NOTES, sc.finallySteps)
    ensures Told(e, debt, Finally(e, sc, p).w)
  {
    var w := Note(p.w, "current_step", p.at);
    assert Told(e, debt, w);
    var r := HooksTell(e, debt, sc.finallySteps, FinallyHooks, 0, p.held, w);
    var all := Finally(e, sc, p);
    assert all.w.trace == r.w.trace && all.w.calls == r.w.calls && all.w.failedLaunches == r.w.failedLaunches;
  }

  /** In every run of a scenario without parallel blocks the errors that the trace reports for
      steps that call handlers, by retrying, warning or failed events, are exactly those with
      which the calls failed, in order: no failure is passed over and none is told twice. So
      are the browsers that could not be launched, but for that of a stuck main step. */
  lemma EveryFailureIsReported(e: Env, sc: Scenario, ctx: Ctx)
    requires ScenarioSerial(sc)
    ensures var w := RunTask(e, sc, ctx).w;
            && Reports(w.trace) == Failures(e, w.calls)
            && w.failedLaunches == LaunchReports(w.trace) + if StuckStep(e, sc, ctx).Some? then 1 else 0
  {
    BodyTells(e, sc, ctx);
    FinallyTells(e, Debt(e, sc, ctx), sc, Body(e, sc, Fresh(ctx)));
  }

  // ---------------------------------------------------------------- parallel blocks

  /** Whether the thread has an error still to report, or raised one and never will. */
  function Pending(c: Child): nat {
    if c.Reporting? || (c.Done? && c.out.Raised? && OfHandler(c.out.error)) then 1 else 0
  }

  function AllPending(cs: seq<Child>, n: nat): nat
    requires n <= |cs|
  {
    if n == 0 then 0 else AllPending(cs, n - 1) + Pending(cs[n - 1])
  }

  lemma {:induction false} PendingUpdate(cs: seq<Child>, n: nat, i: nat, c: Child)
    requires n <= |cs| && i < |cs|
    ensures AllPending(cs[i := c], n) == AllPending(cs, n) + if i < n then Pending(c) - Pending(cs[i]) else 0
  {
    if n > 0 { PendingUpdate(cs, n - 1, i, c); }
  }

  predicate ReportsHandler(c: Child) {
    c.Reporting? ==> OfHandler(c.error)
  }

  lemma CallMoves(e: Env, s: Step, w: World, ctx: Ctx)
    requires IsParallelSafe(s.stype)
    ensures var a := AtomicAttempt(e, s, None, w.(ctx := ctx));
            && a.w.trace == w.trace && (a.out.Raised? ==> OfHandler(a.out.error))
            && |Failures(e, a.w.calls)| == |Failures(e, w.calls)| + if a.out.Raised? then 1 else 0
  {
    var w0 := w.(ctx := ctx);
    assert EnsureDriver(e, s.stype, None, w0) == Tried(Returned(None), None, w0);
    var r := Invoke(e, s, None, w0);
    assert r.w.calls[..|r.w.calls| - 1] == w.calls;
    assert r.w.calls[|r.w.calls| - 1].limit == s.ctl.timeout;
  }

  lemma ReportMoves(e: Env, s: Step, id: StepId, c: Child, w: World)
    requires c.Reporting? && OfHandler(c.error) && IsAtomic(s.stype)
    ensures var m := ChildMove(e, s, id, c, w);
            && m.1.calls == w.calls && !m.0.Reporting?
            && |Reports(m.1.trace)| + Pending(m.0) == |Reports(w.trace)| + 1
  {
    if c.k + 1 < s.Attempts() {
      OneMoreReport(w, id, Retrying, s.stype, c.error);
      assert ChildMove(e, s, id, c, w).1.trace == Emit(w, id, Retrying, s.stype, Some(c.error)).trace;
    } else if s.ctl.continueOnError {
      OneMoreReport(w, id, Warned, s.stype, c.error);
    }
  }

  lemma OneMoreReport(w: World, id: StepId, kind: EventKind, t: StepType, error: Error)
    requires (kind.Retrying? || kind.Warned?) && IsAtomic(t) && OfHandler(error)
    ensures |Reports(Emit(w, id, kind, t, Some(error)).trace)| == |Reports(w.trace)| + 1
  {
    ReportsEmit(w, id, kind, t, Some(error));
  }

  /** A move of a thread makes one call, or reports one error, or lets it stand. */
  lemma MoveAccounts(e: Env, s: Step, id: StepId, c: Child, w: World)
    requires IsParallelSafe(s.stype) && ReportsHandler(c)
    ensures var m := ChildMove(e, s, id, c, w);
            && ReportsHandler(m.0)
            && |Failures(e, m.1.calls)| - |Reports(m.1.trace)| - Pending(m.0)
               == |Failures(e, w.calls)| - |Reports(w.trace)| - Pending(c)
  {
    match c
    case Trying(k, ctx) => CallMoves(e, s, w, ctx);
    case Reporting(k, ctx, error) => ReportMoves(e, s, id, c, w);
    case _ =>
  }

  lemma {:induction false} InterleaveAccounts(e: Env, steps: seq<Step>, id: StepId, cs: seq<Child>, w: World, n: nat)
    returns (ends: seq<Child>, w': World)
    requires |cs| == |steps|
    requires forall i :: 0 <= i < |steps| ==> IsParallelSafe(steps[i].stype) && ReportsHandler(cs[i])
    ensures (ends, w') == Interleave(e, steps, id, cs, w, n) && |ends| == |cs|
    ensures |Failures(e, w'.calls)| - |Reports(w'.trace)| - AllPending(ends, |ends|)
         == |Failures(e, w.calls)| - |Reports(w.trace)| - AllPending(cs, |cs|)
    decreases TotalMeasure(steps, cs, |cs|)
  {
    if Unfinished(cs, |cs|) == [] {
      ends, w' := cs, w;
    } else {
      var i := Scheduled(e, cs, w.calls, n);
      var cid := ChildId(id, InParallel, i);
      var m := ChildMove(e, steps[i], cid, cs[i], w);
      ChildMoveDecreases(e, steps[i], cid, cs[i], w);
      TotalMeasureUpdate(steps, cs, |cs|, i, m.0);
      MoveAccounts(e, steps[i], cid, cs[i], w);
      PendingUpdate(cs, |cs|, i, m.0);
      ends, w' := InterleaveAccounts(e, steps, id, cs[i := m.0], m.1, n + 1);
    }
  }

  /** The threads that ended with a handler's error. */
  function Raisers(outs: seq<Outcome>, n: nat): nat
    requires n <= |outs|
  {
    if n == 0 then 0
    else Raisers(outs, n - 1) + if outs[n - 1].Raised? && OfHandler(outs[n - 1].error) then 1 else 0
  }

  lemma {:induction false} PendingAtEnd(ends: seq<Child>, n: nat)
    requires n <= |ends| && forall i :: 0 <= i < |ends| ==> ends[i].Done?
    ensures AllPending(ends, n) == Raisers(Outcomes(ends), n)
  {
    if n > 0 { PendingAtEnd(ends, n - 1); }
  }

  lemma {:induction false} NonePending(steps: seq<Step>, ctx: Ctx, n: nat)
    requires n <= |steps|
    ensures AllPending(Threads(steps, ctx), n) == 0
  {
    if n > 0 { NonePending(steps, ctx, n - 1); }
  }

  /** In a parallel block too, for any handlers and schedule, every failure of a handler is
      reported once by a retrying or warning event of its thread, but for those with which
      threads end. */
  lemma ParallelFailuresAreReported(e: Env, steps: seq<Step>, id: StepId, d: Driver, w: World)
    requires AllParallelSafe(steps)
    ensures var r := ParallelBlock(e, steps, id, d, w);
            var ends := Interleave(e, steps, id, Threads(steps, w.ctx), w, 0).0;
            |Failures(e, r.w.calls)| - |Failures(e, w.calls)|
            == |Reports(r.w.trace)| - |Reports(w.trace)| + Raisers(Outcomes(ends), |ends|)
  {
    var ends, w' := InterleaveAccounts(e, steps, id, Threads(steps, w.ctx), w, 0);
    ThreadsDecide(e, steps, id, d, w);
    NonePending(steps, w.ctx, |steps|);
    PendingAtEnd(ends, |ends|);
  }
}
