/** How much a run can do: a bound on handler calls and on time slept between
    retries, computed from the step tree alone. */
module WorkBound {
  import opened Wrappers
  import opened Steps
  import opened Conditions
  import opened Interpreter

  datatype Cost = Cost(calls: nat, sleep: real)

  const FREE := Cost(0, 0.0)

  function Plus(a: Cost, b: Cost): Cost {
    Cost(a.calls + b.calls, a.sleep + b.sleep)
  }

  function Times(n: nat, c: Cost): Cost {
    if n == 0 then FREE else Plus(c, Times(n - 1, c))
  }

  /** How long a nap takes; the bounds below hold for any such measure. */
  type Measure = Nap -> real

  /** The waits after failed attempts k, k+1, ... of one visit of a step. */
  function RetrySleep(s: Step, f: Measure, k: nat): real
    decreases s.Attempts() - k
  {
    if k + 1 >= s.Attempts() then 0.0 else f(NapAfter(s, k)) + RetrySleep(s, f, k + 1)
  }

  function StepCost(s: Step, f: Measure): Cost
    decreases s, 1
  {
    Plus(Times(s.Attempts(), BodyCost(s, f)), Cost(0, RetrySleep(s, f, 0)))
  }

  /** One attempt. */
  function BodyCost(s: Step, f: Measure): Cost
    decreases s, 0
  {
    match s.stype
    case Group => SequenceCost(s.steps, f, 0)
    case Parallel => SequenceCost(s.steps, f, 0)
    case Repeat => Times(if s.times > 0 then s.times else 0, SequenceCost(s.steps, f, 0))
    case Try =>
      Plus(Plus(SequenceCost(s.trySteps, f, 0), SequenceCost(s.catchSteps, f, 0)), SequenceCost(s.finallySteps, f, 0))
    case Unknown(_) => FREE
    case _ => Cost(1, 0.0)
  }

  function SequenceCost(steps: seq<Step>, f: Measure, i: nat): Cost
    requires i <= |steps|
    decreases steps, |steps| - i
  {
    if i == |steps| then FREE else Plus(StepCost(steps[i], f), SequenceCost(steps, f, i + 1))
  }

  /** The naps of this step take no negative time. */
  ghost predicate Timed(s: Step, f: Measure) {
    forall k: nat :: f(NapAfter(s, k)) >= 0.0
  }

  /** ... nor do those of any step in its tree. */
  ghost predicate Paced(s: Step, f: Measure) {
    && Timed(s, f)
    && AllPaced(s.steps, f) && AllPaced(s.trySteps, f) && AllPaced(s.catchSteps, f) && AllPaced(s.finallySteps, f)
  }

  ghost predicate AllPaced(steps: seq<Step>, f: Measure) {
    forall i :: 0 <= i < |steps| ==> Paced(steps[i], f)
  }

  function Sum(sleeps: seq<Nap>, f: Measure): real {
    if sleeps == [] then 0.0 else Sum(sleeps[..|sleeps| - 1], f) + f(sleeps[|sleeps| - 1])
  }

  /** From `w` to `w'` the run did at most `c`. */
  ghost predicate Within(c: Cost, f: Measure, w: World, w': World) {
    && |w'.calls| <= |w.calls| + c.calls
    && Sum(w'.sleeps, f) <= Sum(w.sleeps, f) + c.sleep
  }

  lemma {:induction false} RetrySleepNonNegative(s: Step, f: Measure, k: nat)
    requires Timed(s, f)
    ensures RetrySleep(s, f, k) >= 0.0
    decreases s.Attempts() - k
  {
    if k + 1 < s.Attempts() { RetrySleepNonNegative(s, f, k + 1); }
  }

  lemma SumPause(s: Step, f: Measure, k: nat, w: World)
    requires Timed(s, f)
    ensures Sum(Pause(s, k, w).sleeps, f) <= Sum(w.sleeps, f) + f(NapAfter(s, k))
  {
    var sleeps := w.sleeps + [NapAfter(s, k)];
    assert sleeps[..|sleeps| - 1] == w.sleeps;
  }

  // ---------------------------------------------------------------- the step tree

  lemma {:induction false} TimesNonNegative(n: nat, c: Cost)
    requires c.sleep >= 0.0
    ensures Times(n, c).sleep >= 0.0
  {
    if n > 0 { TimesNonNegative(n - 1, c); }
  }

  lemma {:induction false} StepCostNonNegative(s: Step, f: Measure)
    requires Paced(s, f)
    ensures StepCost(s, f).sleep >= 0.0 && BodyCost(s, f).sleep >= 0.0
    decreases s, 1
  {
    match s.stype {
      case Group => SequenceCostNonNegative(s.steps, f, 0);
      case Parallel => SequenceCostNonNegative(s.steps, f, 0);
      case Repeat =>
        SequenceCostNonNegative(s.steps, f, 0);
        TimesNonNegative(if s.times > 0 then s.times else 0, SequenceCost(s.steps, f, 0));
      case Try =>
        SequenceCostNonNegative(s.trySteps, f, 0);
        SequenceCostNonNegative(s.catchSteps, f, 0);
        SequenceCostNonNegative(s.finallySteps, f, 0);
      case _ =>
    }
    TimesNonNegative(s.Attempts(), BodyCost(s, f));
    RetrySleepNonNegative(s, f, 0);
  }

  lemma {:induction false} SequenceCostNonNegative(steps: seq<Step>, f: Measure, i: nat)
    requires i <= |steps| && AllPaced(steps, f)
    ensures SequenceCost(steps, f, i).sleep >= 0.0
    decreases steps, 0, |steps| - i
  {
    if i < |steps| {
      StepCostNonNegative(steps[i], f);
      SequenceCostNonNegative(steps, f, i + 1);
    }
  }

  lemma AtomicWithin(f: Measure, e: Env, s: Step, d: Driver, w: World)
    ensures Within(Cost(1, 0.0), f, w, AtomicAttempt(e, s, d, w).w)
  {
  }

  /** What a thread of a parallel block can still do. */
  function ChildCost(s: Step, f: Measure, c: Child): Cost {
    var n := s.Attempts();
    match c
    case Waiting(_) => Cost(n, RetrySleep(s, f, 0))
    case Trying(k, _) => if k < n then Cost(n - k, RetrySleep(s, f, k)) else Cost(1, 0.0)
    case Reporting(k, _, _) => if k < n then Cost(n - k - 1, RetrySleep(s, f, k)) else FREE
    case Done(_) => FREE
  }

  function ChildrenCost(steps: seq<Step>, f: Measure, cs: seq<Child>, i: nat): Cost
    requires i <= |cs| == |steps|
    decreases |steps| - i
  {
    if i == |steps| then FREE else Plus(ChildCost(steps[i], f, cs[i]), ChildrenCost(steps, f, cs, i + 1))
  }

  lemma MoveWithin(f: Measure, e: Env, s: Step, id: StepId, c: Child, w: World)
    requires Timed(s, f)
    ensures var m := ChildMove(e, s, id, c, w);
            && |m.1.calls| + ChildCost(s, f, m.0).calls <= |w.calls| + ChildCost(s, f, c).calls
            && Sum(m.1.sleeps, f) + ChildCost(s, f, m.0).sleep <= Sum(w.sleeps, f) + ChildCost(s, f, c).sleep
  {
    RetrySleepNonNegative(s, f, 0);
    match c
    case Trying(k, ctx) =>
      RetrySleepNonNegative(s, f, k);
      AtomicWithin(f, e, s, None, w.(ctx := ctx));
    case Reporting(k, ctx, error) =>
      RetrySleepNonNegative(s, f, k);
      SumPause(s, f, k, Emit(w, id, Retrying, s.stype, Some(error)));
    case _ =>
  }

  lemma {:induction false} ChildrenCostUpdate(steps: seq<Step>, f: Measure, cs: seq<Child>, i: nat, j: nat, c: Child)
    requires i <= |cs| == |steps| && j < |cs|
    ensures var a, b := ChildrenCost(steps, f, cs, i), ChildrenCost(steps, f, cs[j := c], i);
            var x, y := ChildCost(steps[j], f, cs[j]), ChildCost(steps[j], f, c);
            if i <= j then b.calls - y.calls == a.calls - x.calls && b.sleep - y.sleep == a.sleep - x.sleep
            else b == a
    decreases |steps| - i
  {
    if i < |steps| { ChildrenCostUpdate(steps, f, cs, i + 1, j, c); }
  }

  lemma {:induction false} ChildrenCostNonNegative(steps: seq<Step>, f: Measure, cs: seq<Child>, i: nat)
    requires i <= |cs| == |steps| && AllPaced(steps, f)
    ensures ChildrenCost(steps, f, cs, i).sleep >= 0.0
    decreases |steps| - i
  {
    if i < |steps| {
      ChildrenCostNonNegative(steps, f, cs, i + 1);
      RetrySleepNonNegative(steps[i], f, 0);
      if cs[i].Trying? || cs[i].Reporting? { RetrySleepNonNegative(steps[i], f, cs[i].k); }
    }
  }

  lemma {:induction false} InterleaveWithin(f: Measure, e: Env, steps: seq<Step>, id: StepId, cs: seq<Child>,
                                            w: World, n: nat)
    requires |cs| == |steps| && AllPaced(steps, f)
    ensures Within(ChildrenCost(steps, f, cs, 0), f, w, Interleave(e, steps, id, cs, w, n).1)
    decreases TotalMeasure(steps, cs, |cs|)
  {
    ChildrenCostNonNegative(steps, f, cs, 0);
    if Unfinished(cs, |cs|) != [] {
      var i := Scheduled(e, cs, w.calls, n);
      var cid := ChildId(id, InParallel, i);
      var m := ChildMove(e, steps[i], cid, cs[i], w);
      ChildMoveDecreases(e, steps[i], cid, cs[i], w);
      TotalMeasureUpdate(steps, cs, |cs|, i, m.0);
      MoveWithin(f, e, steps[i], cid, cs[i], w);
      ChildrenCostUpdate(steps, f, cs, 0, i, m.0);
      InterleaveWithin(f, e, steps, id, cs[i := m.0], m.1, n + 1);
    }
  }

  lemma {:induction false} TimesOne(n: nat)
    ensures Times(n, Cost(1, 0.0)) == Cost(n, 0.0)
  {
    if n > 0 { TimesOne(n - 1); }
  }

  /** Threads that are about to begin may do what their steps may do. */
  lemma {:induction false} ThreadsCost(steps: seq<Step>, f: Measure, ctx: Ctx, i: nat)
    requires i <= |steps|
    requires forall j :: 0 <= j < |steps| ==> IsParallelSafe(steps[j].stype)
    ensures ChildrenCost(steps, f, Threads(steps, ctx), i) == SequenceCost(steps, f, i)
    decreases |steps| - i
  {
    if i < |steps| {
      ThreadsCost(steps, f, ctx, i + 1);
      assert BodyCost(steps[i], f) == Cost(1, 0.0);
      TimesOne(steps[i].Attempts());
      assert StepCost(steps[i], f) == ChildCost(steps[i], f, Waiting(ctx));
    }
  }

  lemma {:induction false} StepWithin(f: Measure, e: Env, s: Step, id: StepId, d: Driver, w: World)
    requires Paced(s, f)
    ensures Within(StepCost(s, f), f, w, ExecStep(e, s, id, d, w).w)
    decreases s, 4, 0
  {
    StepCostNonNegative(s, f);
    if Condition(e, s, w) == Some(true) { AttemptsWithin(f, e, s, id, 0, d, w); }
  }

  /** What attempts k, k+1, ... may do. */
  function AttemptsCost(s: Step, f: Measure, k: nat): Cost
    requires k <= s.Attempts()
  {
    Plus(Times(s.Attempts() - k, BodyCost(s, f)), Cost(0, RetrySleep(s, f, k)))
  }

  lemma TimesSplits(n: nat, c: Cost)
    requires n > 0
    ensures Times(n, c).calls == c.calls + Times(n - 1, c).calls
    ensures Times(n, c).sleep == c.sleep + Times(n - 1, c).sleep
  {
  }

  lemma RetrySleepSplits(s: Step, f: Measure, k: nat)
    requires k < s.Attempts()
    ensures RetrySleep(s, f, k) == RetrySleep(s, f, k + 1) + if k + 1 < s.Attempts() then f(NapAfter(s, k)) else 0.0
  {
  }

  lemma AttemptsCostSplits(s: Step, f: Measure, k: nat)
    requires k < s.Attempts()
    ensures var c, c' := AttemptsCost(s, f, k), AttemptsCost(s, f, k + 1);
            && c.calls == BodyCost(s, f).calls + c'.calls
            && c.sleep == BodyCost(s, f).sleep + c'.sleep + (RetrySleep(s, f, k) - RetrySleep(s, f, k + 1))
  {
    TimesSplits(s.Attempts() - k, BodyCost(s, f));
  }

  lemma AttemptsSleepNonNegative(s: Step, f: Measure, k: nat)
    requires Paced(s, f) && k <= s.Attempts()
    ensures AttemptsCost(s, f, k).sleep >= 0.0
  {
    StepCostNonNegative(s, f);
    TimesNonNegative(s.Attempts() - k, BodyCost(s, f));
    RetrySleepNonNegative(s, f, k);
  }

  /** `w'` is within what `c` leaves over after `c'`. */
  ghost predicate Spends(c: Cost, c': Cost, f: Measure, w: World, w': World) {
    && |w'.calls| + c'.calls <= |w.calls| + c.calls
    && Sum(w'.sleeps, f) + c'.sleep <= Sum(w.sleeps, f) + c.sleep
  }

  lemma RetrySpends(s: Step, f: Measure, id: StepId, k: nat, error: Error, w: World, w': World)
    requires Paced(s, f) && k + 1 < s.Attempts() && Within(BodyCost(s, f), f, w, w')
    ensures Spends(AttemptsCost(s, f, k), AttemptsCost(s, f, k + 1), f, w, Retry(s, id, k, error, w'))
  {
    SumPause(s, f, k, Emit(w', id, Retrying, s.stype, Some(error)));
    AttemptsCostSplits(s, f, k);
    RetrySleepSplits(s, f, k);
  }

  /** The attempts left cover the one being made. */
  lemma AttemptCovered(s: Step, f: Measure, k: nat)
    requires Paced(s, f) && k < s.Attempts()
    ensures AttemptsCost(s, f, k).calls >= BodyCost(s, f).calls
    ensures AttemptsCost(s, f, k).sleep >= BodyCost(s, f).sleep
  {
    AttemptsCostSplits(s, f, k);
    RetrySleepGoesOn(s, f, k);
    AttemptsSleepNonNegative(s, f, k + 1);
  }

  lemma RetrySleepGoesOn(s: Step, f: Measure, k: nat)
    requires Timed(s, f) && k < s.Attempts()
    ensures RetrySleep(s, f, k) >= RetrySleep(s, f, k + 1)
  {
    RetrySleepSplits(s, f, k);
    assert f(NapAfter(s, k)) >= 0.0;
  }

  lemma WithinMore(c: Cost, c': Cost, f: Measure, w: World, w': World)
    requires Within(c, f, w, w') && c.calls <= c'.calls && c.sleep <= c'.sleep
    ensures Within(c', f, w, w')
  {
  }

  lemma {:induction false} AttemptsWithin(f: Measure, e: Env, s: Step, id: StepId, k: nat, d: Driver, w: World)
    requires Paced(s, f) && k < s.Attempts()
    ensures Within(AttemptsCost(s, f, k), f, w, Attempts(e, s, id, k, d, w).w)
    decreases s, 3, s.Attempts() - k
  {
    var a, r := Attempt(e, s, id, d, w), Attempts(e, s, id, k, d, w);
    AttemptWithin(f, e, s, id, d, w);
    if a.out.Raised? && k + 1 < s.Attempts() {
      var w' := Retry(s, id, k, a.out.error, a.w);
      RetrySpends(s, f, id, k, a.out.error, w, a.w);
      AttemptsWithin(f, e, s, id, k + 1, a.held, w');
      assert r == Attempts(e, s, id, k + 1, a.held, w');
    } else {
      assert r.w.calls == a.w.calls && r.w.sleeps == a.w.sleeps;
      AttemptCovered(s, f, k);
      WithinMore(BodyCost(s, f), AttemptsCost(s, f, k), f, w, r.w);
    }
  }

  lemma {:induction false} AttemptWithin(f: Measure, e: Env, s: Step, id: StepId, d: Driver, w: World)
    requires Paced(s, f)
    ensures Within(BodyCost(s, f), f, w, Attempt(e, s, id, d, w).w)
    decreases s, 2, 0
  {
    if IsAtomic(s.stype) {
      AtomicWithin(f, e, s, d, w);
      assert BodyCost(s, f) == Cost(1, 0.0);
    } else {
      BlockWithin(f, e, s, id, d, w);
    }
  }

  lemma {:induction false} BlockWithin(f: Measure, e: Env, s: Step, id: StepId, d: Driver, w: World)
    requires Paced(s, f) && !IsAtomic(s.stype)
    ensures Within(BodyCost(s, f), f, w, ExecBlock(e, s, id, d, w).w)
    decreases s, 1, 0
  {
    match s.stype
    case Group => SequenceWithin(f, e, s.steps, InGroup, 0, id, d, w);
    case Repeat => RepeatWithin(f, e, s, s.times, id, d, w);
    case Parallel => ParallelWithin(f, e, s, id, d, w);
    case Try => TryWithin(f, e, s, id, d, w);
    case _ =>
  }

  lemma ParallelWithin(f: Measure, e: Env, s: Step, id: StepId, d: Driver, w: World)
    requires s.stype.Parallel? && Paced(s, f)
    ensures Within(BodyCost(s, f), f, w, ParallelBlock(e, s.steps, id, d, w).w)
  {
    assert BodyCost(s, f) == SequenceCost(s.steps, f, 0);
    if UnsafeTypes(s.steps, |s.steps|) == [] {
      ThreadsWithin(f, e, s.steps, id, w);
    } else {
      SequenceCostNonNegative(s.steps, f, 0);
    }
  }

  lemma ThreadsWithin(f: Measure, e: Env, steps: seq<Step>, id: StepId, w: World)
    requires AllPaced(steps, f) && forall j :: 0 <= j < |steps| ==> IsParallelSafe(steps[j].stype)
    ensures Within(SequenceCost(steps, f, 0), f, w, Interleave(e, steps, id, Threads(steps, w.ctx), w, 0).1)
  {
    InterleaveWithin(f, e, steps, id, Threads(steps, w.ctx), w, 0);
    ThreadsCost(steps, f, w.ctx, 0);
  }

  lemma {:induction false} SequenceWithin(f: Measure, e: Env, steps: seq<Step>, part: Part, i: nat, id: StepId,
                                          d: Driver, w: World)
    requires i <= |steps| && AllPaced(steps, f)
    ensures Within(SequenceCost(steps, f, i), f, w, Sequence(e, steps, part, i, id, d, w).w)
    decreases steps, 0, |steps| - i
  {
    if i < |steps| {
      var s, cid := steps[i], ChildId(id, part, i);
      StepWithin(f, e, s, cid, d, Start(w, cid, s.stype));
      var r := ExecChild(e, s, cid, d, w);
      SequenceCostNonNegative(steps, f, i + 1);
      if r.out.Returned? { SequenceWithin(f, e, steps, part, i + 1, id, r.out.driver, r.w); }
    }
  }

  lemma {:induction false} RepeatWithin(f: Measure, e: Env, s: Step, times: int, id: StepId, d: Driver, w: World)
    requires AllPaced(s.steps, f)
    ensures var c := Times(if times > 0 then times else 0, SequenceCost(s.steps, f, 0));
            Within(c, f, w, RepeatBlock(e, s, times, id, d, w).w)
    decreases s, 0, if times > 0 then times else 0
  {
    if times > 0 {
      SequenceWithin(f, e, s.steps, InRepeat, 0, id, d, w);
      SequenceCostNonNegative(s.steps, f, 0);
      TimesNonNegative(times - 1, SequenceCost(s.steps, f, 0));
      var r := Sequence(e, s.steps, InRepeat, 0, id, d, w);
      if r.out.Returned? { RepeatWithin(f, e, s, times - 1, id, r.out.driver, r.w); }
    }
  }

  lemma {:induction false} TryWithin(f: Measure, e: Env, s: Step, id: StepId, d: Driver, w: World)
    requires s.stype.Try? && Paced(s, f)
    ensures Within(BodyCost(s, f), f, w, TryBlock(e, s, id, d, w).w)
    decreases s, 0, 1
  {
    var r, all := TryCatch(e, s, id, d, w), TryBlock(e, s, id, d, w);
    var c := Plus(SequenceCost(s.trySteps, f, 0), SequenceCost(s.catchSteps, f, 0));
    var c' := SequenceCost(s.finallySteps, f, 0);
    TryCatchWithin(f, e, s, id, d, w);
    var fd := if r.out.Returned? then r.out.driver else d;
    SequenceWithin(f, e, s.finallySteps, InFinally, 0, id, fd, r.w);
    FinallyRuns(e, s, id, d, w, r, fd);
    WithinPlus(c, c', f, w, r.w, all.w);
  }

  /** Leaving out the finally part when it is empty is running it. */
  lemma FinallyRuns(e: Env, s: Step, id: StepId, d: Driver, w: World, r: Result, fd: Driver)
    requires r == TryCatch(e, s, id, d, w) && fd == if r.out.Returned? then r.out.driver else d
    ensures TryBlock(e, s, id, d, w).w == Sequence(e, s.finallySteps, InFinally, 0, id, fd, r.w).w
  {
  }

  lemma WithinPlus(c: Cost, c': Cost, f: Measure, w0: World, w1: World, w2: World)
    requires Within(c, f, w0, w1) && Within(c', f, w1, w2)
    ensures Within(Plus(c, c'), f, w0, w2)
  {
  }

  lemma {:induction false} TryCatchWithin(f: Measure, e: Env, s: Step, id: StepId, d: Driver, w: World)
    requires s.stype.Try? && Paced(s, f)
    ensures var c := Plus(SequenceCost(s.trySteps, f, 0), SequenceCost(s.catchSteps, f, 0));
            Within(c, f, w, TryCatch(e, s, id, d, w).w)
    decreases s, 0, 0
  {
    var t := Sequence(e, s.trySteps, InTry, 0, id, d, w);
    SequenceWithin(f, e, s.trySteps, InTry, 0, id, d, w);
    SequenceCostNonNegative(s.catchSteps, f, 0);
    if t.out.Raised? {
      var w' := t.w.(ctx := t.w.ctx["error_message" := e.text(t.out.error)]);
      if s.catchSteps != [] { SequenceWithin(f, e, s.catchSteps, InCatch, 0, id, d, w'); }
    }
  }

  // ---------------------------------------------------------------- the whole run

  function ScenarioCost(sc: Scenario, f: Measure): Cost {
    Plus(Plus(Plus(Plus(SequenceCost(sc.before, f, 0), SequenceCost(sc.steps, f, 0)), SequenceCost(sc.onSuccess, f, 0)),
              SequenceCost(sc.onFailure, f, 0)), SequenceCost(sc.finallySteps, f, 0))
  }

  ghost predicate ScenarioPaced(sc: Scenario, f: Measure) {
    && AllPaced(sc.before, f) && AllPaced(sc.steps, f) && AllPaced(sc.onSuccess, f)
    && AllPaced(sc.onFailure, f) && AllPaced(sc.finallySteps, f)
  }

  lemma ChildWithin(f: Measure, e: Env, s: Step, id: StepId, d: Driver, w: World)
    requires Paced(s, f)
    ensures Within(StepCost(s, f), f, w, ExecChild(e, s, id, d, w).w)
  {
    var w' := Start(w, id, s.stype);
    StepWithin(f, e, s, id, d, w');
    CloseIsFree(s, id, ExecStep(e, s, id, d, w'));
    FreeAround(StepCost(s, f), f, w, w', ExecStep(e, s, id, d, w').w, ExecChild(e, s, id, d, w).w);
  }

  lemma CloseIsFree(s: Step, id: StepId, r: Result)
    ensures Close(s, id, r).w.calls == r.w.calls && Close(s, id, r).w.sleeps == r.w.sleeps
  {
  }

  lemma LaunchIsFree(e: Env, t: StepType, d: Driver, w: World)
    ensures EnsureDriver(e, t, d, w).w.calls == w.calls && EnsureDriver(e, t, d, w).w.sleeps == w.sleeps
  {
  }

  /** A bound stays one when nothing is called or slept before and after. */
  lemma FreeAround(c: Cost, f: Measure, w: World, v: World, v': World, w': World)
    requires Within(c, f, v, v')
    requires w.calls == v.calls && w.sleeps == v.sleeps && w'.calls == v'.calls && w'.sleeps == v'.sleeps
    ensures Within(c, f, w, w')
  {
  }

  lemma MainStepWithin(f: Measure, e: Env, s: Step, i: nat, d: Driver, w: World)
    requires Paced(s, f)
    ensures Within(StepCost(s, f), f, w, MainStep(e, s, i, d, w).w)
  {
    var id := [Segment(InSteps, i)];
    var w0 := Emit(w, id, Started, s.stype, None);
    var got := EnsureDriver(e, s.stype, d, w0);
    LaunchIsFree(e, s.stype, d, w0);
    if got.out.Raised? {
      StepCostNonNegative(s, f);
    } else {
      var w' := got.w.(swallowed := None);
      StepWithin(f, e, s, id, got.held, w');
      CloseIsFree(s, id, ExecStep(e, s, id, got.held, w'));
      FreeAround(StepCost(s, f), f, w, w', ExecStep(e, s, id, got.held, w').w, MainStep(e, s, i, d, w).w);
    }
  }

  /** The cost of what is left of a list covers a step of it and what is left then. */
  lemma SequenceCostCovers(steps: seq<Step>, f: Measure, i: nat)
    requires i < |steps| && AllPaced(steps, f)
    ensures SequenceCost(steps, f, i) == Plus(StepCost(steps[i], f), SequenceCost(steps, f, i + 1))
    ensures StepCost(steps[i], f).sleep >= 0.0 && SequenceCost(steps, f, i + 1).sleep >= 0.0
  {
    StepCostNonNegative(steps[i], f);
    SequenceCostNonNegative(steps, f, i + 1);
  }

  lemma {:induction false} HooksWithin(f: Measure, e: Env, steps: seq<Step>, part: Part, i: nat, d: Driver, w: World)
    requires i <= |steps| && AllPaced(steps, f)
    ensures Within(SequenceCost(steps, f, i), f, w, Hooks(e, steps, part, i, d, w).w)
    decreases |steps| - i
  {
    if i < |steps| {
      var s, id := steps[i], [Segment(part, i)];
      var go := Condition(e, s, w);
      SequenceCostCovers(steps, f, i);
      if go == Some(false) {
        HooksWithin(f, e, steps, part, i + 1, d, Emit(w, id, Skipped, s.stype, None));
      } else if go == Some(true) {
        ChildWithin(f, e, s, id, d, w);
        var r := ExecChild(e, s, id, d, w);
        if r.out.Returned? {
          HooksWithin(f, e, steps, part, i + 1, r.out.driver, r.w);
          WithinTwice(StepCost(s, f), SequenceCost(steps, f, i + 1), f, w, r.w, Hooks(e, steps, part, i, d, w).w);
        }
      }
    }
  }

  lemma {:induction false} MainWithin(f: Measure, e: Env, steps: seq<Step>, i: nat, d: Driver, w: World)
    requires i <= |steps| && AllPaced(steps, f)
    ensures Within(SequenceCost(steps, f, i), f, w, MainSteps(e, steps, i, d, w).w)
    decreases |steps| - i
  {
    if i < |steps| {
      var s, id := steps[i], [Segment(InSteps, i)];
      var go := Condition(e, s, w);
      SequenceCostCovers(steps, f, i);
      if go == Some(false) {
        MainWithin(f, e, steps, i + 1, d, Emit(w, id, Skipped, s.stype, None));
      } else if go == Some(true) {
        MainStepWithin(f, e, s, i, d, w);
        var m := MainStep(e, s, i, d, w);
        if m.out.Returned? {
          MainWithin(f, e, steps, i + 1, m.out.driver, m.w);
          WithinTwice(StepCost(s, f), SequenceCost(steps, f, i + 1), f, w, m.w, MainSteps(e, steps, i, d, w).w);
        }
      }
    }
  }

  lemma WithinTwice(c: Cost, c': Cost, f: Measure, w: World, w': World, w'': World)
    requires Within(c, f, w, w') && Within(c', f, w', w'')
    ensures Within(Plus(c, c'), f, w, w'')
  {
  }

  /** No run of a scenario calls handlers more often, or sleeps longer between
      retries, than its step tree says, whatever the handlers do. */
  lemma RunIsBounded(f: Measure, e: Env, sc: Scenario, ctx: Ctx)
    requires ScenarioPaced(sc, f)
    ensures var w := RunTask(e, sc, ctx).w;
            |w.calls| <= ScenarioCost(sc, f).calls && Sum(w.sleeps, f) <= ScenarioCost(sc, f).sleep
  {
    var w := Fresh(ctx);
    SequenceCostNonNegative(sc.steps, f, 0);
    SequenceCostNonNegative(sc.onSuccess, f, 0);
    SequenceCostNonNegative(sc.onFailure, f, 0);
    HooksWithin(f, e, sc.before, BeforeSteps, 0, None, w);
    var h := Hooks(e, sc.before, BeforeSteps, 0, None, w);
    var p := Body(e, sc, w);
    if h.out.Raised? {
      ErrorPhaseWithin(f, e, sc, h.out.error, None, StepLabel(e, sc.steps, 0), h.w);
    } else {
      var m := MainSteps(e, sc.steps, 0, HookedDriver(h.w, None), h.w);
      MainWithin(f, e, sc.steps, 0, HookedDriver(h.w, None), h.w);
      if m.out.Raised? {
        ErrorPhaseWithin(f, e, sc, m.out.error, m.held, StepLabel(e, sc.steps, m.reached), m.w);
      } else {
        ReturnPhaseWithin(f, e, sc, m);
      }
    }
    HooksWithin(f, e, sc.finallySteps, FinallyHooks, 0, p.held, Note(p.w, "current_step", p.at));
  }

  lemma ErrorPhaseWithin(f: Measure, e: Env, sc: Scenario, error: Error, d: Driver, at: string, w: World)
    requires AllPaced(sc.onFailure, f)
    ensures Within(SequenceCost(sc.onFailure, f, 0), f, w, OnError(e, sc, error, d, at, w).w)
  {
    HooksWithin(f, e, sc.onFailure, OnFailure, 0, d, Note(Note(w, "current_step", at), "error_message", e.text(error)));
  }

  lemma ReturnPhaseWithin(f: Measure, e: Env, sc: Scenario, m: MainEnd)
    requires m.out.Returned? && AllPaced(sc.onSuccess, f) && AllPaced(sc.onFailure, f)
    ensures var c := Plus(SequenceCost(sc.onSuccess, f, 0), SequenceCost(sc.onFailure, f, 0));
            Within(c, f, m.w, OnReturn(e, sc, m).w)
  {
    var at := StepLabel(e, sc.steps, m.reached);
    var w := Note(m.w, "current_step", at);
    HooksWithin(f, e, sc.onSuccess, OnSuccess, 0, m.held, w);
    SequenceCostNonNegative(sc.onFailure, f, 0);
    var r := Hooks(e, sc.onSuccess, OnSuccess, 0, m.held, w);
    if r.out.Raised? { ErrorPhaseWithin(f, e, sc, r.out.error, m.held, at, r.w); }
  }
}
