/** `repeat n` of a body does what a group of n copies of the body does. */
module Unrolling {
  import opened Wrappers
  import opened Steps
  import opened Interpreter

  /** Events that differ at most in their ids, which have the same depth. */
  predicate AlikeEvents(a: Event, b: Event) {
    a == b.(id := a.id) && |a.id| == |b.id|
  }

  ghost predicate AlikeTraces(a: seq<Event>, b: seq<Event>) {
    |a| == |b| && forall i :: 0 <= i < |a| ==> AlikeEvents(a[i], b[i])
  }

  /** Worlds that differ at most in the ids of steps. */
  ghost predicate Alike(a: World, b: World) {
    && a.ctx == b.ctx && a.hookDriver == b.hookDriver && a.calls == b.calls
    && a.browsers == b.browsers && a.failedLaunches == b.failedLaunches && a.sleeps == b.sleeps
    && a.swallowed.Some? == b.swallowed.Some?
    && AlikeTraces(a.trace, b.trace)
  }

  ghost predicate AlikeResults(a: Result, b: Result) {
    a.out == b.out && Alike(a.w, b.w)
  }

  function Copies(body: seq<Step>, n: nat): seq<Step> {
    if n == 0 then [] else body + Copies(body, n - 1)
  }

  lemma EmitAlike(a: World, b: World, id: StepId, id': StepId, kind: EventKind, t: StepType, error: Option<Error>)
    requires Alike(a, b) && |id| == |id'|
    ensures Alike(Emit(a, id, kind, t, error), Emit(b, id', kind, t, error))
  {
  }

  lemma EnsureAlike(e: Env, t: StepType, d: Driver, a: World, b: World)
    requires Alike(a, b)
    ensures var x, y := EnsureDriver(e, t, d, a), EnsureDriver(e, t, d, b);
            x.out == y.out && x.held == y.held && Alike(x.w, y.w)
  {
  }

  lemma InvokeAlike(e: Env, s: Step, d: Driver, a: World, b: World)
    requires Alike(a, b)
    ensures AlikeResults(Invoke(e, s, d, a), Invoke(e, s, d, b))
  {
    assert View(e, a) == View(e, b);
  }

  lemma AtomicAlike(e: Env, s: Step, d: Driver, a: World, b: World)
    requires Alike(a, b)
    ensures var x, y := AtomicAttempt(e, s, d, a), AtomicAttempt(e, s, d, b);
            x.out == y.out && x.held == y.held && Alike(x.w, y.w)
  {
    EnsureAlike(e, s.stype, d, a, b);
    var got, got' := EnsureDriver(e, s.stype, d, a), EnsureDriver(e, s.stype, d, b);
    InvokeAlike(e, s, got.held, got.w, got'.w);
  }

  lemma MoveAlike(e: Env, s: Step, id: StepId, id': StepId, c: Child, a: World, b: World)
    requires Alike(a, b) && |id| == |id'|
    ensures var x, y := ChildMove(e, s, id, c, a), ChildMove(e, s, id', c, b); x.0 == y.0 && Alike(x.1, y.1)
  {
    match c
    case Trying(k, ctx) => AtomicAlike(e, s, None, a.(ctx := ctx), b.(ctx := ctx));
    case Reporting(k, ctx, error) =>
      EmitAlike(a, b, id, id', Retrying, s.stype, Some(error));
      EmitAlike(a, b, id, id', Warned, s.stype, Some(error));
    case _ =>
  }

  lemma {:induction false} InterleaveAlike(e: Env, steps: seq<Step>, id: StepId, id': StepId, cs: seq<Child>,
                                           a: World, b: World, n: nat)
    requires |cs| == |steps| && Alike(a, b) && |id| == |id'|
    ensures var x, y := Interleave(e, steps, id, cs, a, n), Interleave(e, steps, id', cs, b, n);
            x.0 == y.0 && Alike(x.1, y.1)
    decreases TotalMeasure(steps, cs, |cs|)
  {
    if Unfinished(cs, |cs|) != [] {
      var i := Scheduled(e, cs, a.calls, n);
      var cid, cid' := ChildId(id, InParallel, i), ChildId(id', InParallel, i);
      var x, y := ChildMove(e, steps[i], cid, cs[i], a), ChildMove(e, steps[i], cid', cs[i], b);
      ChildMoveDecreases(e, steps[i], cid, cs[i], a);
      TotalMeasureUpdate(steps, cs, |cs|, i, x.0);
      MoveAlike(e, steps[i], cid, cid', cs[i], a, b);
      InterleaveAlike(e, steps, id, id', cs[i := x.0], x.1, y.1, n + 1);
    }
  }

  lemma {:induction false} StepAlike(e: Env, s: Step, id: StepId, id': StepId, d: Driver, a: World, b: World)
    requires Alike(a, b) && |id| == |id'|
    ensures AlikeResults(ExecStep(e, s, id, d, a), ExecStep(e, s, id', d, b))
    decreases s, 4, 0
  {
    if Condition(e, s, a) == Some(true) { AttemptsAlike(e, s, id, id', 0, d, a, b); }
  }

  lemma {:induction false} AttemptsAlike(e: Env, s: Step, id: StepId, id': StepId, k: nat, d: Driver, a: World,
                                         b: World)
    requires Alike(a, b) && |id| == |id'| && k < s.Attempts()
    ensures AlikeResults(Attempts(e, s, id, k, d, a), Attempts(e, s, id', k, d, b))
    decreases s, 3, s.Attempts() - k
  {
    var x, y := Attempt(e, s, id, d, a), Attempt(e, s, id', d, b);
    AttemptAlike(e, s, id, id', d, a, b);
    if x.out.Raised? {
      if k + 1 < s.Attempts() {
        EmitAlike(x.w, y.w, id, id', Retrying, s.stype, Some(x.out.error));
        AttemptsAlike(e, s, id, id', k + 1, x.held,
                      Retry(s, id, k, x.out.error, x.w), Retry(s, id', k, x.out.error, y.w));
      } else {
        ExhaustedAlike(e, s, id, id', x.out.error, x.held, x.w, y.w);
      }
    }
  }

  lemma ExhaustedAlike(e: Env, s: Step, id: StepId, id': StepId, error: Error, d: Driver, a: World, b: World)
    requires Alike(a, b) && |id| == |id'|
    ensures AlikeResults(Exhausted(e, s, id, error, d, a), Exhausted(e, s, id', error, d, b))
  {
    var text := e.text(error);
    var ctx := a.ctx["error_message" := text]["last_error_message" := text]["last_error_step" := Name(s.stype)];
    EmitAlike(a.(ctx := ctx), b.(ctx := ctx), id, id', Warned, s.stype, Some(error));
  }

  lemma {:induction false} AttemptAlike(e: Env, s: Step, id: StepId, id': StepId, d: Driver, a: World, b: World)
    requires Alike(a, b) && |id| == |id'|
    ensures var x, y := Attempt(e, s, id, d, a), Attempt(e, s, id', d, b);
            x.out == y.out && x.held == y.held && Alike(x.w, y.w)
    decreases s, 2, 0
  {
    if IsAtomic(s.stype) { AtomicAlike(e, s, d, a, b); } else { BlockAlike(e, s, id, id', d, a, b); }
  }

  lemma {:induction false} BlockAlike(e: Env, s: Step, id: StepId, id': StepId, d: Driver, a: World, b: World)
    requires Alike(a, b) && |id| == |id'|
    ensures AlikeResults(ExecBlock(e, s, id, d, a), ExecBlock(e, s, id', d, b))
    decreases s, 1, 0
  {
    match s.stype
    case Group => SequenceAlike(e, s.steps, InGroup, 0, s.steps, InGroup, 0, id, id', d, a, b);
    case Repeat => RepeatAlike(e, s, s.times, id, id', d, a, b);
    case Parallel => InterleaveAlike(e, s.steps, id, id', Threads(s.steps, a.ctx), a, b, 0);
    case Try => TryAlike(e, s, id, id', d, a, b);
    case _ =>
  }

  lemma {:induction false} ChildAlike(e: Env, s: Step, id: StepId, id': StepId, d: Driver, a: World, b: World)
    requires Alike(a, b) && |id| == |id'|
    ensures AlikeResults(ExecChild(e, s, id, d, a), ExecChild(e, s, id', d, b))
    decreases s, 5, 0
  {
    EmitAlike(a, b, id, id', Started, s.stype, None);
    StepAlike(e, s, id, id', d, Start(a, id, s.stype), Start(b, id', s.stype));
    CloseAlike(s, id, id', ExecStep(e, s, id, d, Start(a, id, s.stype)),
               ExecStep(e, s, id', d, Start(b, id', s.stype)));
  }

  lemma CloseAlike(s: Step, id: StepId, id': StepId, x: Result, y: Result)
    requires AlikeResults(x, y) && |id| == |id'|
    ensures AlikeResults(Close(s, id, x), Close(s, id', y))
  {
    if x.out.Raised? {
      EmitAlike(x.w, y.w, id, id', Failed, s.stype, Some(x.out.error));
    } else {
      EmitAlike(x.w, y.w, id, id', Succeeded, s.stype, None);
    }
  }

  lemma PrefixGoesOn(xs: seq<Step>, i: nat, ys: seq<Step>, j: nat)
    requires i < |xs| && j <= |ys| && xs[i..] <= ys[j..]
    ensures j < |ys| && xs[i] == ys[j] && xs[i + 1..] <= ys[j + 1..]
    ensures |xs| - i == |ys| - j ==> xs[i + 1..] == ys[j + 1..]
  {
    assert xs[i] == xs[i..][0] == ys[j..][0] == ys[j];
    assert xs[i + 1..] == xs[i..][1..] <= ys[j..][1..] == ys[j + 1..];
  }

  /** Two sequences with the same steps left. */
  lemma {:induction false} SequenceAlike(e: Env, xs: seq<Step>, part: Part, i: nat, ys: seq<Step>, part': Part, j: nat,
                                         id: StepId, id': StepId, d: Driver, a: World, b: World)
    requires i <= |xs| && j <= |ys| && xs[i..] == ys[j..]
    requires Alike(a, b) && |id| == |id'|
    ensures AlikeResults(Sequence(e, xs, part, i, id, d, a), Sequence(e, ys, part', j, id', d, b))
    decreases xs, 0, |xs| - i
  {
    if i < |xs| {
      PrefixGoesOn(xs, i, ys, j);
      var cid, cid' := ChildId(id, part, i), ChildId(id', part', j);
      ChildAlike(e, xs[i], cid, cid', d, a, b);
      var x, y := ExecChild(e, xs[i], cid, d, a), ExecChild(e, ys[j], cid', d, b);
      if x.out.Returned? {
        SequenceAlike(e, xs, part, i + 1, ys, part', j + 1, id, id', x.out.driver, x.w, y.w);
      }
    }
  }

  lemma {:induction false} RepeatAlike(e: Env, s: Step, times: int, id: StepId, id': StepId, d: Driver, a: World,
                                       b: World)
    requires Alike(a, b) && |id| == |id'|
    ensures AlikeResults(RepeatBlock(e, s, times, id, d, a), RepeatBlock(e, s, times, id', d, b))
    decreases s, 0, if times > 0 then times else 0
  {
    if times > 0 {
      SequenceAlike(e, s.steps, InRepeat, 0, s.steps, InRepeat, 0, id, id', d, a, b);
      var x, y := Sequence(e, s.steps, InRepeat, 0, id, d, a), Sequence(e, s.steps, InRepeat, 0, id', d, b);
      if x.out.Returned? { RepeatAlike(e, s, times - 1, id, id', x.out.driver, x.w, y.w); }
    }
  }

  lemma {:induction false} TryAlike(e: Env, s: Step, id: StepId, id': StepId, d: Driver, a: World, b: World)
    requires Alike(a, b) && |id| == |id'|
    ensures AlikeResults(TryBlock(e, s, id, d, a), TryBlock(e, s, id', d, b))
    decreases s, 0, 2
  {
    TryCatchAlike(e, s, id, id', d, a, b);
    var x, y := TryCatch(e, s, id, d, a), TryCatch(e, s, id', d, b);
    if s.finallySteps != [] {
      SequenceAlike(e, s.finallySteps, InFinally, 0, s.finallySteps, InFinally, 0, id, id',
                    if x.out.Returned? then x.out.driver else d, x.w, y.w);
    }
  }

  lemma {:induction false} TryCatchAlike(e: Env, s: Step, id: StepId, id': StepId, d: Driver, a: World, b: World)
    requires Alike(a, b) && |id| == |id'|
    ensures AlikeResults(TryCatch(e, s, id, d, a), TryCatch(e, s, id', d, b))
    decreases s, 0, 1
  {
    SequenceAlike(e, s.trySteps, InTry, 0, s.trySteps, InTry, 0, id, id', d, a, b);
    var x, y := Sequence(e, s.trySteps, InTry, 0, id, d, a), Sequence(e, s.trySteps, InTry, 0, id', d, b);
    if x.out.Raised? && s.catchSteps != [] {
      SequenceAlike(e, s.catchSteps, InCatch, 0, s.catchSteps, InCatch, 0, id, id', d,
                    Note(x.w, "error_message", e.text(x.out.error)), Note(y.w, "error_message", e.text(x.out.error)));
    }
  }

  // ---------------------------------------------------------------- unrolling

  /** A sequence whose steps from `j` on begin with the body: it does what the body
      does, and, if that returns, goes on from a world like the one it leaves. */
  lemma {:induction false} BodyFirst(e: Env, body: seq<Step>, part: Part, i: nat, ys: seq<Step>, part': Part, j: nat,
                                     id: StepId, d: Driver, a: World, b: World) returns (b': World)
    requires i <= |body| && j <= |ys| && body[i..] <= ys[j..]
    requires Alike(a, b)
    ensures var x, y := Sequence(e, body, part, i, id, d, a), Sequence(e, ys, part', j, id, d, b);
            && Alike(x.w, b')
            && y == if x.out.Raised? then Result(x.out, b')
                    else Sequence(e, ys, part', j + |body| - i, id, x.out.driver, b')
    decreases |body| - i
  {
    if i == |body| {
      b' := b;
    } else {
      PrefixGoesOn(body, i, ys, j);
      var cid, cid' := ChildId(id, part, i), ChildId(id, part', j);
      ChildAlike(e, body[i], cid, cid', d, a, b);
      SequenceNext(e, body, part, i, id, d, a);
      SequenceNext(e, ys, part', j, id, d, b);
      var x, y := ExecChild(e, body[i], cid, d, a), ExecChild(e, body[i], cid', d, b);
      if x.out.Returned? {
        b' := BodyFirst(e, body, part, i + 1, ys, part', j + 1, id, x.out.driver, x.w, y.w);
      } else {
        b' := y.w;
      }
    }
  }

  lemma SequenceNext(e: Env, steps: seq<Step>, part: Part, i: nat, id: StepId, d: Driver, w: World)
    requires i < |steps|
    ensures var r := ExecChild(e, steps[i], ChildId(id, part, i), d, w);
            var rest := if r.out.Raised? then r else Sequence(e, steps, part, i + 1, id, r.out.driver, r.w);
            Sequence(e, steps, part, i, id, d, w) == rest
  {
  }

  lemma {:induction false} Unroll(e: Env, s: Step, n: nat, ys: seq<Step>, j: nat, id: StepId, d: Driver, a: World,
                                  b: World)
    requires j <= |ys| && ys[j..] == Copies(s.steps, n)
    requires Alike(a, b)
    ensures AlikeResults(RepeatBlock(e, s, n, id, d, a), Sequence(e, ys, InGroup, j, id, d, b))
    decreases n
  {
    if n > 0 {
      var b' := BodyFirst(e, s.steps, InRepeat, 0, ys, InGroup, j, id, d, a, b);
      var x := Sequence(e, s.steps, InRepeat, 0, id, d, a);
      if x.out.Returned? {
        assert ys[j + |s.steps|..] == ys[j..][|s.steps|..] == Copies(s.steps, n - 1);
        Unroll(e, s, n - 1, ys, j + |s.steps|, id, x.out.driver, x.w, b');
      }
    }
  }

  /** A repeat block leaves the same context, browser and outcome as the group of
      `times` copies of its body, and the same trace up to the children's ids. */
  lemma RepeatIsGroupOfCopies(e: Env, s: Step, id: StepId, d: Driver, w: World)
    requires s.stype.Repeat?
    ensures var g := s.(stype := Group, steps := Copies(s.steps, if s.times > 0 then s.times else 0));
            AlikeResults(ExecBlock(e, s, id, d, w), ExecBlock(e, g, id, d, w))
  {
    var n := if s.times > 0 then s.times else 0;
    var ys := Copies(s.steps, n);
    assert ys[0..] == ys;
    Unroll(e, s, n, ys, 0, id, d, w, w);
  }
}
