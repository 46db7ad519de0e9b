/** The event trace of a run is well bracketed. */
module Brackets {
  import opened Wrappers
  import opened Steps
  import opened Conditions
  import opened Interpreter
  import opened Footprint

  /** Ids of the threads of a parallel block: these have no step_started. */
  predicate OfThread(id: StepId) {
    id != [] && id[|id| - 1].part == InParallel
  }

  /** `id` is a direct child of the innermost open step. */
  predicate Under(id: StepId, open: seq<StepId>) {
    id != [] && id[..|id| - 1] == if open == [] then [] else open[|open| - 1]
  }

  /** Reads one event with the given steps open, innermost last. None: the event
      does not belong there. */
  function Read(open: Option<seq<StepId>>, event: Event): Option<seq<StepId>> {
    if open.None? then None
    else
      var st := open.value;
      if OfThread(event.id) then
        if (event.kind.Retrying? || event.kind.Warned?) && Under(event.id, st) then open else None
      else
        var innermost := st != [] && st[|st| - 1] == event.id;
        match event.kind
        case Started => if Under(event.id, st) then Some(st + [event.id]) else None
        case Skipped => if Under(event.id, st) && st == [] then open else None
        case Retrying => if innermost then open else None
        case _ => if innermost then Some(st[..|st| - 1]) else None
  }

  /** The steps open after a trace, or None for a trace that is not bracketed. */
  function Open(trace: seq<Event>): Option<seq<StepId>> {
    if trace == [] then Some([]) else Read(Open(trace[..|trace| - 1]), trace[|trace| - 1])
  }

  /** Read from event `b` on, the trace leaves exactly `open` open. */
  ghost predicate Leaves(w: World, b: nat, open: seq<StepId>) {
    b <= |w.trace| && Open(w.trace[b..]) == Some(open)
  }

  /** ... and no swallow flag is set. */
  ghost predicate At(w: World, b: nat, open: seq<StepId>) {
    Leaves(w, b, open) && w.swallowed.None?
  }

  /** A step with this id returned or raised, its own start still to be closed. */
  ghost predicate StepDone(r: Result, b: nat, outer: seq<StepId>, id: StepId) {
    if r.out.Returned? && r.w.swallowed.Some? then
      Leaves(r.w, b, outer) && r.w.swallowed == Some(id)
    else At(r.w, b, outer + [id])
  }

  lemma OpenEmit(w: World, b: nat, id: StepId, kind: EventKind, t: StepType, error: Option<Error>)
    requires b <= |w.trace|
    ensures Open(Emit(w, id, kind, t, error).trace[b..]) == Read(Open(w.trace[b..]), Event(id, kind, t, error))
  {
    var trace := Emit(w, id, kind, t, error).trace[b..];
    assert trace[..|trace| - 1] == w.trace[b..];
  }

  lemma AtomicFrame(e: Env, s: Step, d: Driver, w: World)
    ensures var a := AtomicAttempt(e, s, d, w); a.w.trace == w.trace && a.w.swallowed == w.swallowed
  {
  }

  lemma {:induction false} InterleaveBrackets(e: Env, steps: seq<Step>, id: StepId, cs: seq<Child>, w: World, n: nat,
                                              b: nat, outer: seq<StepId>)
    requires |cs| == |steps|
    requires At(w, b, outer + [id])
    ensures At(Interleave(e, steps, id, cs, w, n).1, b, outer + [id])
    decreases TotalMeasure(steps, cs, |cs|)
  {
    if Unfinished(cs, |cs|) != [] {
      var i := Scheduled(e, cs, w.calls, n);
      var cid := ChildId(id, InParallel, i);
      var m := ChildMove(e, steps[i], cid, cs[i], w);
      ChildMoveDecreases(e, steps[i], cid, cs[i], w);
      TotalMeasureUpdate(steps, cs, |cs|, i, m.0);
      MoveBrackets(e, steps[i], id, i, cs[i], w, b, outer);
      InterleaveBrackets(e, steps, id, cs[i := m.0], m.1, n + 1, b, outer);
    }
  }

  lemma MoveBrackets(e: Env, s: Step, id: StepId, i: nat, c: Child, w: World, b: nat, outer: seq<StepId>)
    requires At(w, b, outer + [id])
    ensures At(ChildMove(e, s, ChildId(id, InParallel, i), c, w).1, b, outer + [id])
  {
    var cid := ChildId(id, InParallel, i);
    assert cid[..|cid| - 1] == id;
    match c
    case Reporting(k, ctx, error) =>
      OpenEmit(w, b, cid, Retrying, s.stype, Some(error));
      OpenEmit(w, b, cid, Warned, s.stype, Some(error));
    case _ =>
  }

  lemma {:induction false} StepBrackets(e: Env, s: Step, id: StepId, d: Driver, w: World, b: nat, outer: seq<StepId>)
    requires At(w, b, outer + [id]) && !OfThread(id)
    ensures StepDone(ExecStep(e, s, id, d, w), b, outer, id)
    decreases s, 4, 0
  {
    var go := Condition(e, s, w);
    if go == Some(true) { AttemptsBrackets(e, s, id, 0, d, w, b, outer); }
  }

  lemma {:induction false} AttemptsBrackets(e: Env, s: Step, id: StepId, k: nat, d: Driver, w: World, b: nat,
                                            outer: seq<StepId>)
    requires At(w, b, outer + [id]) && !OfThread(id) && k < s.Attempts()
    ensures StepDone(Attempts(e, s, id, k, d, w), b, outer, id)
    decreases s, 3, s.Attempts() - k
  {
    var a := Attempt(e, s, id, d, w);
    AttemptBrackets(e, s, id, d, w, b, outer);
    if a.out.Raised? {
      if k + 1 < s.Attempts() {
        RetryBrackets(s, id, k, a.out.error, a.w, b, outer);
        AttemptsBrackets(e, s, id, k + 1, a.held, Retry(s, id, k, a.out.error, a.w), b, outer);
      } else {
        ExhaustedBrackets(e, s, id, a.out.error, a.held, a.w, b, outer);
      }
    }
  }

  lemma RetryBrackets(s: Step, id: StepId, k: nat, error: Error, w: World, b: nat, outer: seq<StepId>)
    requires At(w, b, outer + [id]) && !OfThread(id)
    ensures At(Retry(s, id, k, error, w), b, outer + [id])
  {
    OpenEmit(w, b, id, Retrying, s.stype, Some(error));
  }

  lemma ExhaustedBrackets(e: Env, s: Step, id: StepId, error: Error, d: Driver, w: World, b: nat, outer: seq<StepId>)
    requires At(w, b, outer + [id]) && !OfThread(id)
    ensures StepDone(Exhausted(e, s, id, error, d, w), b, outer, id)
  {
    var text := e.text(error);
    var ctx := w.ctx["error_message" := text]["last_error_message" := text]["last_error_step" := Name(s.stype)];
    OpenEmit(w.(ctx := ctx), b, id, Warned, s.stype, Some(error));
    assert (outer + [id])[..|outer|] == outer;
  }

  lemma {:induction false} AttemptBrackets(e: Env, s: Step, id: StepId, d: Driver, w: World, b: nat, outer: seq<StepId>)
    requires At(w, b, outer + [id]) && !OfThread(id)
    ensures At(Attempt(e, s, id, d, w).w, b, outer + [id])
    decreases s, 2, 0
  {
    if IsAtomic(s.stype) {
      AtomicFrame(e, s, d, w);
    } else {
      BlockBrackets(e, s, id, d, w, b, outer);
    }
  }

  lemma {:induction false} BlockBrackets(e: Env, s: Step, id: StepId, d: Driver, w: World, b: nat, outer: seq<StepId>)
    requires At(w, b, outer + [id]) && !OfThread(id)
    ensures At(ExecBlock(e, s, id, d, w).w, b, outer + [id])
    decreases s, 1, 0
  {
    match s.stype
    case Group => SequenceBrackets(e, s.steps, InGroup, 0, id, d, w, b, outer);
    case Repeat => RepeatBrackets(e, s, s.times, id, d, w, b, outer);
    case Parallel => InterleaveBrackets(e, s.steps, id, Threads(s.steps, w.ctx), w, 0, b, outer);
    case Try => TryBrackets(e, s, id, d, w, b, outer);
    case _ =>
  }

  /** A sequence returns or raises with the enclosing step innermost again and the
      swallow flag absent. */
  lemma {:induction false} SequenceBrackets(e: Env, steps: seq<Step>, part: Part, i: nat, id: StepId, d: Driver,
                                            w: World, b: nat, outer: seq<StepId>)
    requires i <= |steps| && part != InParallel
    requires At(w, b, outer + [id])
    ensures At(Sequence(e, steps, part, i, id, d, w).w, b, outer + [id])
    decreases steps, 0, |steps| - i
  {
    if i < |steps| {
      var cid := ChildId(id, part, i);
      assert cid[..|cid| - 1] == id;
      ChildBrackets(e, steps[i], cid, d, w, b, outer + [id]);
      var r := ExecChild(e, steps[i], cid, d, w);
      if r.out.Returned? {
        SequenceBrackets(e, steps, part, i + 1, id, r.out.driver, r.w, b, outer);
      }
    }
  }

  /** From its start to its closing event a child adds a bracketed piece of trace. */
  lemma {:induction false} ChildBrackets(e: Env, s: Step, id: StepId, d: Driver, w: World, b: nat, open: seq<StepId>)
    requires Leaves(w, b, open) && Under(id, open) && !OfThread(id)
    ensures At(ExecChild(e, s, id, d, w).w, b, open)
    decreases s, 5, 0
  {
    OpenEmit(w, b, id, Started, s.stype, None);
    StepBrackets(e, s, id, d, Start(w, id, s.stype), b, open);
    CloseBrackets(s, id, ExecStep(e, s, id, d, Start(w, id, s.stype)), b, open);
  }

  lemma CloseBrackets(s: Step, id: StepId, r: Result, b: nat, open: seq<StepId>)
    requires StepDone(r, b, open, id) && !OfThread(id)
    ensures At(Close(s, id, r).w, b, open)
  {
    assert (open + [id])[..|open|] == open;
    if r.out.Raised? {
      OpenEmit(r.w, b, id, Failed, s.stype, Some(r.out.error));
    } else {
      OpenEmit(r.w, b, id, Succeeded, s.stype, None);
    }
  }

  lemma {:induction false} RepeatBrackets(e: Env, s: Step, times: int, id: StepId, d: Driver, w: World, b: nat,
                                          outer: seq<StepId>)
    requires At(w, b, outer + [id])
    ensures At(RepeatBlock(e, s, times, id, d, w).w, b, outer + [id])
    decreases s, 0, if times > 0 then times else 0
  {
    if times > 0 {
      SequenceBrackets(e, s.steps, InRepeat, 0, id, d, w, b, outer);
      var r := Sequence(e, s.steps, InRepeat, 0, id, d, w);
      if r.out.Returned? { RepeatBrackets(e, s, times - 1, id, r.out.driver, r.w, b, outer); }
    }
  }

  lemma {:induction false} TryBrackets(e: Env, s: Step, id: StepId, d: Driver, w: World, b: nat, outer: seq<StepId>)
    requires At(w, b, outer + [id])
    ensures At(TryBlock(e, s, id, d, w).w, b, outer + [id])
    decreases s, 0, 1
  {
    var t := Sequence(e, s.trySteps, InTry, 0, id, d, w);
    SequenceBrackets(e, s.trySteps, InTry, 0, id, d, w, b, outer);
    var r := TryCatch(e, s, id, d, w);
    if t.out.Raised? && s.catchSteps != [] {
      var w' := t.w.(ctx := t.w.ctx["error_message" := e.text(t.out.error)]);
      SequenceBrackets(e, s.catchSteps, InCatch, 0, id, d, w', b, outer);
    }
    assert At(r.w, b, outer + [id]);
    if s.finallySteps != [] {
      SequenceBrackets(e, s.finallySteps, InFinally, 0, id, if r.out.Returned? then r.out.driver else d, r.w, b, outer);
    }
  }

  // ------------------------------------------------------------- the whole run

  /** A skipped top-level step changes nothing. */
  lemma SkipBrackets(w: World, b: nat, part: Part, i: nat, t: StepType)
    requires At(w, b, []) && part != InParallel
    ensures At(Emit(w, [Segment(part, i)], Skipped, t, None), b, [])
  {
    var id := [Segment(part, i)];
    assert id[..|id| - 1] == [];
    OpenEmit(w, b, id, Skipped, t, None);
  }

  lemma {:induction false} HooksBrackets(e: Env, steps: seq<Step>, part: Part, i: nat, d: Driver, w: World, b: nat)
    requires i <= |steps| && part != InParallel
    requires At(w, b, [])
    ensures At(Hooks(e, steps, part, i, d, w).w, b, [])
    decreases |steps| - i
  {
    if i < |steps| {
      var s, id := steps[i], [Segment(part, i)];
      assert id[..|id| - 1] == [];
      var go := Condition(e, s, w);
      if go == Some(false) {
        SkipBrackets(w, b, part, i, s.stype);
        HooksBrackets(e, steps, part, i + 1, d, Emit(w, id, Skipped, s.stype, None), b);
      } else if go == Some(true) {
        ChildBrackets(e, s, id, d, w, b, []);
        var r := ExecChild(e, s, id, d, w);
        if r.out.Returned? { HooksBrackets(e, steps, part, i + 1, r.out.driver, r.w, b); }
      }
    }
  }

  /** The main steps close every step they start, but for one whose browser could
      not be launched. */
  ghost predicate MainDone(m: MainEnd, b: nat) {
    if m.stuck.None? then At(m.w, b, [])
    else
      && m.out.Raised? && m.out.error.LaunchFailed?
      && At(m.w, b, [m.stuck.value])
      && m.stuck.value != []
      && |m.w.trace| > b && m.w.trace[|m.w.trace| - 1].kind.Started?
  }

  lemma {:induction false} MainBrackets(e: Env, steps: seq<Step>, i: nat, d: Driver, w: World, b: nat)
    requires i <= |steps|
    requires At(w, b, [])
    ensures MainDone(MainSteps(e, steps, i, d, w), b)
    decreases |steps| - i
  {
    if i < |steps| {
      var s, id := steps[i], [Segment(InSteps, i)];
      assert id[..|id| - 1] == [];
      var go := Condition(e, s, w);
      if go == Some(false) {
        SkipBrackets(w, b, InSteps, i, s.stype);
        MainBrackets(e, steps, i + 1, d, Emit(w, id, Skipped, s.stype, None), b);
      } else if go == Some(true) {
        MainStepBrackets(e, s, i, d, w, b);
        var m := MainStep(e, s, i, d, w);
        if m.out.Returned? { MainBrackets(e, steps, i + 1, m.out.driver, m.w, b); }
      }
    }
  }

  lemma MainStepBrackets(e: Env, s: Step, i: nat, d: Driver, w: World, b: nat)
    requires At(w, b, [])
    ensures MainDone(MainStep(e, s, i, d, w), b)
  {
    var id := [Segment(InSteps, i)];
    assert id[..|id| - 1] == [];
    assert [] + [id] == [id];
    OpenEmit(w, b, id, Started, s.stype, None);
    var got := EnsureDriver(e, s.stype, d, Emit(w, id, Started, s.stype, None));
    if got.out.Returned? {
      var w' := got.w.(swallowed := None);
      StepBrackets(e, s, id, got.held, w', b, []);
      CloseBrackets(s, id, ExecStep(e, s, id, got.held, w'), b, []);
    }
  }

  lemma ErrorPhaseBrackets(e: Env, sc: Scenario, error: Error, d: Driver, at: string, w: World, b: nat)
    requires At(w, b, [])
    ensures At(OnError(e, sc, error, d, at, w).w, b, [])
  {
    var w' := Note(Note(w, "current_step", at), "error_message", e.text(error));
    HooksBrackets(e, sc.onFailure, OnFailure, 0, d, w', b);
  }

  lemma ReturnPhaseBrackets(e: Env, sc: Scenario, m: MainEnd, b: nat)
    requires m.out.Returned? && At(m.w, b, [])
    ensures At(OnReturn(e, sc, m).w, b, [])
  {
    var w := Note(m.w, "current_step", StepLabel(e, sc.steps, m.reached));
    HooksBrackets(e, sc.onSuccess, OnSuccess, 0, m.held, w, b);
    var r := Hooks(e, sc.onSuccess, OnSuccess, 0, m.held, w);
    if r.out.Raised? { ErrorPhaseBrackets(e, sc, r.out.error, m.held, StepLabel(e, sc.steps, m.reached), r.w, b); }
  }

  /** The main steps of a run, when its before-hooks return. */
  function MainOf(e: Env, sc: Scenario, ctx: Ctx): Option<MainEnd> {
    var h := Hooks(e, sc.before, BeforeSteps, 0, None, Fresh(ctx));
    if h.out.Raised? then None
    else Some(MainSteps(e, sc.steps, 0, HookedDriver(h.w, None), h.w))
  }

  /** The main step, if any, left open because its browser could not be launched. */
  function StuckStep(e: Env, sc: Scenario, ctx: Ctx): Option<StepId> {
    var m := MainOf(e, sc, ctx);
    if m.None? then None else m.value.stuck
  }

  /** The trace splits into a piece that leaves just the stuck step open, its start
      being the last event, and a piece that is well bracketed on its own. */
  ghost predicate SplitsAt(trace: seq<Event>, k: nat, stuck: StepId) {
    && 0 < k <= |trace|
    && trace[k - 1].kind.Started?
    && Open(trace[..k]) == Some([stuck])
    && Open(trace[k..]) == Some([])
  }

  /** Over a whole run, however it ends, the trace is well bracketed exactly when no
      main step got stuck launching its browser; and then that step's start is the
      only event without a partner. */
  lemma RunBrackets(e: Env, sc: Scenario, ctx: Ctx)
    ensures var trace, stuck := RunTask(e, sc, ctx).w.trace, StuckStep(e, sc, ctx);
            && (Open(trace) == Some([]) <==> stuck.None?)
            && RunTask(e, sc, ctx).w.swallowed.None?
            && (stuck.Some? ==> exists k :: SplitsAt(trace, k, stuck.value))
  {
    var p := Body(e, sc, Fresh(ctx));
    var b := BodyBrackets(e, sc, ctx);
    HooksBrackets(e, sc.finallySteps, FinallyHooks, 0, p.held, Note(p.w, "current_step", p.at), b);
    FinallyAdds(May(true, true, true), e, sc, p);
    var trace := RunTask(e, sc, ctx).w.trace;
    assert Open(trace[b..]) == Some([]);
    var stuck := StuckStep(e, sc, ctx);
    if stuck.Some? {
      assert trace[..b] == p.w.trace[..b];
      assert SplitsAt(trace, b, stuck.value);
      StaysOpen(trace[..b], trace[b..], stuck.value);
      assert trace == trace[..b] + trace[b..];
    } else {
      assert trace[0..] == trace;
    }
  }

  /** Before the finally clause: `b` is where the well bracketed rest begins. */
  lemma BodyBrackets(e: Env, sc: Scenario, ctx: Ctx) returns (b: nat)
    ensures var p, stuck := Body(e, sc, Fresh(ctx)), StuckStep(e, sc, ctx);
            && At(p.w, b, [])
            && (stuck.None? ==> b == 0)
            && (stuck.Some? ==>
                  && stuck.value != [] && b > 0 && p.w.trace[b - 1].kind.Started?
                  && Open(p.w.trace[..b]) == Some([stuck.value]))
  {
    var w := Fresh(ctx);
    HooksBrackets(e, sc.before, BeforeSteps, 0, None, w, 0);
    var h := Hooks(e, sc.before, BeforeSteps, 0, None, w);
    b := 0;
    if h.out.Raised? {
      ErrorPhaseBrackets(e, sc, h.out.error, None, StepLabel(e, sc.steps, 0), h.w, 0);
    } else {
      var m := MainOf(e, sc, ctx).value;
      MainBrackets(e, sc.steps, 0, HookedDriver(h.w, None), h.w, 0);
      if m.out.Returned? {
        ReturnPhaseBrackets(e, sc, m, 0);
      } else {
        if m.stuck.Some? { b := |m.w.trace|; }
        ErrorPhaseBrackets(e, sc, m.out.error, m.held, StepLabel(e, sc.steps, m.reached), m.w, b);
        ErrorPhaseAdds(May(true, true, true), e, sc, m.out.error, m.held, StepLabel(e, sc.steps, m.reached), m.w);
        assert m.w.trace[0..] == m.w.trace == Body(e, sc, w).w.trace[..|m.w.trace|];
      }
    }
  }

  /** What follows a stuck step never closes it. */
  lemma {:induction false} StaysOpen(first: seq<Event>, rest: seq<Event>, stuck: StepId)
    requires Open(first) == Some([stuck]) && stuck != []
    requires Open(rest).Some?
    ensures if rest == [] then Open(first + rest) == Some([stuck]) else Open(first + rest).None?
  {
    if rest == [] {
      assert first + rest == first;
    } else {
      var n := |rest| - 1;
      assert (first + rest)[..|first| + n] == first + rest[..n];
      StaysOpen(first, rest[..n], stuck);
    }
  }

  // ------------------------------------------------------- what bracketed means

  predicate IsCloser(event: Event) {
    event.kind.Succeeded? || event.kind.Failed? || event.kind.Warned?
  }

  /** The steps open after the first `i` events. */
  function OpenAfter(trace: seq<Event>, i: nat): Option<seq<StepId>>
    requires i <= |trace|
  {
    if i == 0 then Some([]) else Read(OpenAfter(trace, i - 1), trace[i - 1])
  }

  lemma {:induction false} OpenAfterIsOpen(trace: seq<Event>, i: nat)
    requires i <= |trace|
    ensures OpenAfter(trace, i) == Open(trace[..i])
  {
    if i > 0 {
      OpenAfterIsOpen(trace, i - 1);
      assert trace[..i][..i - 1] == trace[..i - 1];
    }
  }

  /** After `i` events the step event `k` started is open, with the steps around it. */
  ghost predicate StillOpen(trace: seq<Event>, k: nat, i: nat) {
    && k < i <= |trace|
    && OpenAfter(trace, k).Some? && OpenAfter(trace, i).Some?
    && OpenAfter(trace, k).value + [trace[k].id] <= OpenAfter(trace, i).value
  }

  /** Event `j` closes the step event `k` started: same id, same depth, and the step
      is open at each event in between. */
  ghost predicate Partners(trace: seq<Event>, k: nat, j: nat) {
    && k < j < |trace|
    && trace[k].kind.Started? && IsCloser(trace[j]) && trace[j].id == trace[k].id
    && OpenAfter(trace, j + 1) == OpenAfter(trace, k)
    && forall i :: k < i <= j ==> StillOpen(trace, k, i)
  }

  lemma {:induction false} PrefixIsBracketed(trace: seq<Event>, i: nat)
    requires i <= |trace| && OpenAfter(trace, |trace|).Some?
    ensures OpenAfter(trace, i).Some?
    decreases |trace| - i
  {
    if i < |trace| { PrefixIsBracketed(trace, i + 1); }
  }

  /** In a bracketed trace every step_started has exactly one partner. */
  lemma EveryStartIsClosedOnce(trace: seq<Event>, k: nat) returns (j: nat)
    requires Open(trace) == Some([]) && k < |trace| && trace[k].kind.Started?
    ensures Partners(trace, k, j)
    ensures forall j' :: Partners(trace, k, j') ==> j' == j
  {
    OpenAfterIsOpen(trace, |trace|);
    assert trace[..|trace|] == trace;
    PrefixIsBracketed(trace, k);
    StartOpens(trace, k);
    j := FindPartner(trace, k, k + 1);
    forall j' | Partners(trace, k, j') ensures j' == j {
      NoLaterPartner(trace, k, j, j');
      NoLaterPartner(trace, k, j', j);
    }
  }

  lemma StartOpens(trace: seq<Event>, k: nat)
    requires OpenAfter(trace, |trace|).Some? && k < |trace| && trace[k].kind.Started?
    ensures StillOpen(trace, k, k + 1)
  {
    PrefixIsBracketed(trace, k);
    PrefixIsBracketed(trace, k + 1);
    var open := OpenAfter(trace, k);
    assert OpenAfter(trace, k + 1) == Read(open, trace[k]) == Some(open.value + [trace[k].id]);
  }

  lemma NoLaterPartner(trace: seq<Event>, k: nat, j: nat, j': nat)
    requires Partners(trace, k, j) && Partners(trace, k, j')
    ensures j' <= j
  {
    assert !StillOpen(trace, k, j + 1);
  }

  /** Scans for the partner from event `i` on. */
  lemma {:induction false} FindPartner(trace: seq<Event>, k: nat, i: nat) returns (j: nat)
    requires k < i <= |trace| && OpenAfter(trace, |trace|) == Some([]) && trace[k].kind.Started?
    requires forall x :: k < x <= i ==> StillOpen(trace, k, x)
    ensures Partners(trace, k, j)
    decreases |trace| - i
  {
    assert StillOpen(trace, k, i);
    if i < |trace| {
      PrefixIsBracketed(trace, i + 1);
      PopOrKeep(trace, k, i);
      assert forall x :: k < x <= i + 1 && x != i + 1 ==> StillOpen(trace, k, x);
      if StillOpen(trace, k, i + 1) {
        j := FindPartner(trace, k, i + 1);
      } else {
        j := i;
      }
    } else {
      assert false;
    }
  }

  /** The next event keeps the step open, or is its partner. */
  lemma PopOrKeep(trace: seq<Event>, k: nat, i: nat)
    requires StillOpen(trace, k, i) && i < |trace| && OpenAfter(trace, i + 1).Some?
    ensures StillOpen(trace, k, i + 1)
         || (IsCloser(trace[i]) && trace[i].id == trace[k].id && OpenAfter(trace, i + 1) == OpenAfter(trace, k))
  {
    var outer, st := OpenAfter(trace, k).value, OpenAfter(trace, i).value;
    assert |st| > |outer| + 1 ==> outer + [trace[k].id] <= st[..|st| - 1];
    assert |st| == |outer| + 1 ==> st[..|st| - 1] == outer;
  }
}
