/** Parallel blocks do not depend on how their threads are scheduled. */
module ParallelBlocks {
  import opened Wrappers
  import opened Steps
  import opened Conditions
  import opened Interpreter

  /** What the steps around a parallel block can see of it afterwards. */
  ghost predicate ParentUntouched(w: World, w': World) {
    w'.ctx == w.ctx && w'.hookDriver == w.hookDriver && w'.swallowed == w.swallowed && w'.browsers == w.browsers
  }

  ghost predicate AllParallelSafe(steps: seq<Step>) {
    forall i :: 0 <= i < |steps| ==> IsParallelSafe(steps[i].stype)
  }

  lemma MoveLeavesParent(e: Env, s: Step, id: StepId, c: Child, w: World)
    requires IsParallelSafe(s.stype)
    ensures ParentUntouched(w, ChildMove(e, s, id, c, w).1)
  {
    if c.Trying? { AtomicLeavesParent(e, s, w.(ctx := c.ctx)); }
  }

  lemma AtomicLeavesParent(e: Env, s: Step, w: World)
    requires IsParallelSafe(s.stype)
    ensures var w' := AtomicAttempt(e, s, None, w).w;
            w'.hookDriver == w.hookDriver && w'.swallowed == w.swallowed && w'.browsers == w.browsers
  {
    assert EnsureDriver(e, s.stype, None, w) == Tried(Returned(None), None, w);
  }

  /** Whatever the schedule, the threads all end and leave the parent as it was. */
  lemma {:induction false} InterleaveLeavesParent(e: Env, steps: seq<Step>, id: StepId, cs: seq<Child>, w: World,
                                                  n: nat)
    requires |cs| == |steps| && AllParallelSafe(steps)
    ensures var r := Interleave(e, steps, id, cs, w, n);
            ParentUntouched(w, r.1) && forall i :: 0 <= i < |cs| ==> r.0[i].Done?
    decreases TotalMeasure(steps, cs, |cs|)
  {
    var ids := Unfinished(cs, |cs|);
    if ids == [] {
      assert forall i :: 0 <= i < |cs| && !cs[i].Done? ==> i in ids;
    } else {
      var i := Scheduled(e, cs, w.calls, n);
      var cid := ChildId(id, InParallel, i);
      var m := ChildMove(e, steps[i], cid, cs[i], w);
      ChildMoveDecreases(e, steps[i], cid, cs[i], w);
      TotalMeasureUpdate(steps, cs, |cs|, i, m.0);
      MoveLeavesParent(e, steps[i], cid, cs[i], w);
      InterleaveLeavesParent(e, steps, id, cs[i := m.0], m.1, n + 1);
    }
  }

  /** `j` is the first child in list order that raised, and `out` its error. */
  ghost predicate FirstFailure(outs: seq<Outcome>, j: nat, out: Outcome) {
    && j < |outs| && out.Raised? && outs[j] == out
    && forall i :: 0 <= i < j ==> outs[i].Returned?
  }

  /** The block's outcome in terms of its threads' outcomes. */
  ghost predicate Decides(outs: seq<Outcome>, d: Driver, out: Outcome) {
    if out.Returned? then out.driver == d && forall i :: 0 <= i < |outs| ==> outs[i].Returned?
    else exists j :: FirstFailure(outs, j, out)
  }

  lemma {:induction false} FirstRaiseDecides(cs: seq<Child>, outs: seq<Outcome>, i: nat, d: Driver)
    requires i <= |cs| == |outs|
    requires forall k :: 0 <= k < |cs| ==> cs[k] == Done(outs[k])
    requires forall k :: 0 <= k < i ==> outs[k].Returned?
    ensures Decides(outs, d, FirstRaise(cs, i, d))
    decreases |cs| - i
  {
    if i < |cs| {
      if outs[i].Raised? {
        assert FirstFailure(outs, i, outs[i]);
      } else {
        FirstRaiseDecides(cs, outs, i + 1, d);
      }
    }
  }

  /** A handler whose reply depends on the call alone, not on the calls of others. */
  ghost predicate Local(e: Env) {
    forall calls, c :: e.reply(calls + [c]) == e.reply([c])
  }

  /** Environments that differ at most in their scheduler. */
  ghost predicate SameButSchedule(e: Env, e': Env) {
    e' == e.(pick := e'.pick)
  }

  /** Under local handlers one attempt of a parallel-safe step depends only on the
      context it sees. */
  lemma AtomicIsLocal(e: Env, e': Env, s: Step, w: World, w': World)
    requires Local(e) && SameButSchedule(e, e') && IsParallelSafe(s.stype)
    requires w.ctx == w'.ctx && w.hookDriver == w'.hookDriver
    ensures var a, a' := AtomicAttempt(e, s, None, w), AtomicAttempt(e', s, None, w');
            a.out == a'.out && a.held == a'.held == None && a.w.ctx == a'.w.ctx
            && a.w.hookDriver == a'.w.hookDriver == w.hookDriver
  {
    var call := Call(s.stype, s.payload, None, View(e, w), e.dryRun, s.ctl.timeout);
    assert EnsureDriver(e, s.stype, None, w) == Tried(Returned(None), None, w);
    assert EnsureDriver(e', s.stype, None, w') == Tried(Returned(None), None, w');
    assert e.reply(w.calls + [call]) == e.reply([call]) == e.reply(w'.calls + [call]);
  }

  /** Under local handlers attempts of a parallel-safe step depend only on the context
      they see. */
  lemma {:induction false} AttemptsAreLocal(e: Env, e': Env, s: Step, id: StepId, id': StepId, k: nat, w: World,
                                            w': World)
    requires Local(e) && SameButSchedule(e, e') && IsParallelSafe(s.stype) && k < s.Attempts()
    requires w.ctx == w'.ctx && w.hookDriver == w'.hookDriver
    ensures Attempts(e, s, id, k, None, w).out == Attempts(e', s, id', k, None, w').out
    decreases s.Attempts() - k
  {
    var a, a' := AtomicAttempt(e, s, None, w), AtomicAttempt(e', s, None, w');
    AtomicIsLocal(e, e', s, w, w');
    assert Attempt(e, s, id, None, w) == a && Attempt(e', s, id', None, w') == a';
    if a.out.Raised? && k + 1 < s.Attempts() {
      var next, next' := Retry(s, id, k, a.out.error, a.w), Retry(s, id', k, a.out.error, a'.w);
      assert next.ctx == a.w.ctx && next'.ctx == a'.w.ctx;
      AttemptsAreLocal(e, e', s, id, id', k + 1, next, next');
    }
  }

  /** How a thread in this state ends when left alone. */
  function Alone(e: Env, s: Step, id: StepId, c: Child, w: World): Outcome {
    match c
    case Waiting(ctx) => ExecStep(e, s, id, None, w.(ctx := ctx)).out
    case Trying(k, ctx) => if k < s.Attempts() then Attempts(e, s, id, k, None, w.(ctx := ctx)).out else Returned(None)
    case Reporting(k, ctx, error) =>
      if k + 1 < s.Attempts() then Attempts(e, s, id, k + 1, None, w.(ctx := ctx)).out
      else if s.ctl.continueOnError then Returned(None)
      else Raised(error)
    case Done(out) => out
  }

  predicate Underway(s: Step, c: Child) {
    c.Trying? ==> c.k < s.Attempts()
  }

  /** A move of a thread leaves how it will end as it was; `home` is the world in
      which the block began, `w` any later one. */
  lemma MoveKeepsEnd(e: Env, e': Env, s: Step, id: StepId, c: Child, home: World, w: World)
    requires Local(e) && SameButSchedule(e, e') && IsParallelSafe(s.stype) && Underway(s, c)
    requires home.hookDriver == w.hookDriver
    ensures var c' := ChildMove(e', s, id, c, w).0;
            Underway(s, c') && Alone(e, s, id, c', home) == Alone(e, s, id, c, home)
  {
    match c
    case Waiting(ctx) =>
      assert View(e', w.(ctx := ctx)) == View(e, home.(ctx := ctx));
    case Trying(k, ctx) => TryingKeepsEnd(e, e', s, id, k, ctx, home, w);
    case _ =>
  }

  lemma TryingKeepsEnd(e: Env, e': Env, s: Step, id: StepId, k: nat, ctx: Ctx, home: World, w: World)
    requires Local(e) && SameButSchedule(e, e') && IsParallelSafe(s.stype) && k < s.Attempts()
    requires home.hookDriver == w.hookDriver
    ensures var c, c' := Trying(k, ctx), ChildMove(e', s, id, Trying(k, ctx), w).0;
            Underway(s, c') && Alone(e, s, id, c', home) == Alone(e, s, id, c, home)
  {
    var here, there := home.(ctx := ctx), w.(ctx := ctx);
    AtomicIsLocal(e, e', s, here, there);
    var a, a' := AtomicAttempt(e, s, None, here), AtomicAttempt(e', s, None, there);
    assert Attempt(e, s, id, None, here) == a;
    if a.out.Raised? && k + 1 < s.Attempts() {
      AttemptsAreLocal(e, e, s, id, id, k + 1, Retry(s, id, k, a.out.error, a.w), home.(ctx := a'.w.ctx));
    }
  }

  lemma {:induction false} ThreadsEndAsAlone(e: Env, e': Env, steps: seq<Step>, id: StepId, cs: seq<Child>,
                                             home: World, w: World, n: nat)
    requires Local(e) && SameButSchedule(e, e') && AllParallelSafe(steps) && |cs| == |steps|
    requires forall i :: 0 <= i < |cs| ==> Underway(steps[i], cs[i])
    requires home.hookDriver == w.hookDriver
    ensures var ends := Interleave(e', steps, id, cs, w, n).0;
            forall i :: 0 <= i < |cs| ==> ends[i] == Done(Alone(e, steps[i], ChildId(id, InParallel, i), cs[i], home))
    decreases TotalMeasure(steps, cs, |cs|)
  {
    var ids := Unfinished(cs, |cs|);
    if ids == [] {
      assert forall i :: 0 <= i < |cs| && !cs[i].Done? ==> i in ids;
    } else {
      var i := Scheduled(e', cs, w.calls, n);
      var cid := ChildId(id, InParallel, i);
      var m := ChildMove(e', steps[i], cid, cs[i], w);
      ChildMoveDecreases(e', steps[i], cid, cs[i], w);
      TotalMeasureUpdate(steps, cs, |cs|, i, m.0);
      MoveLeavesParent(e', steps[i], cid, cs[i], w);
      MoveKeepsEnd(e, e', steps[i], cid, cs[i], home, w);
      ThreadsEndAsAlone(e, e', steps, id, cs[i := m.0], home, m.1, n + 1);
    }
  }

  /** How each child ends when run by itself, one after the other, on a copy of the
      parent's context. */
  function OneByOne(e: Env, steps: seq<Step>, id: StepId, w: World): (outs: seq<Outcome>)
    ensures |outs| == |steps|
  {
    seq(|steps|, i requires 0 <= i < |steps| => ExecStep(e, steps[i], ChildId(id, InParallel, i), None, w).out)
  }

  /** For every schedule, a parallel block leaves the parent's context and browser
      unchanged, and ends with the driver it was given or with the error of the first
      failing child in list order. With local handlers "failing" means failing when
      run alone, so the outcome is the same for every schedule. */
  lemma ParallelIsScheduleIndependent(e: Env, e': Env, steps: seq<Step>, id: StepId, d: Driver, w: World)
    requires AllParallelSafe(steps) && SameButSchedule(e, e')
    ensures var r, r' := ParallelBlock(e, steps, id, d, w), ParallelBlock(e', steps, id, d, w);
            && ParentUntouched(w, r.w) && ParentUntouched(w, r'.w)
            && (Local(e) ==> Decides(OneByOne(e, steps, id, w), d, r.out) && r'.out == r.out)
  {
    var cs := Threads(steps, w.ctx);
    InterleaveLeavesParent(e, steps, id, cs, w, 0);
    InterleaveLeavesParent(e', steps, id, cs, w, 0);
    if Local(e) {
      var outs := OneByOne(e, steps, id, w);
      ThreadsEndAsAlone(e, e, steps, id, cs, w, w, 0);
      ThreadsEndAsAlone(e, e', steps, id, cs, w, w, 0);
      assert w.(ctx := w.ctx) == w;
      FirstRaiseDecides(Interleave(e, steps, id, cs, w, 0).0, outs, 0, d);
      FirstRaiseDecides(Interleave(e', steps, id, cs, w, 0).0, outs, 0, d);
      OneDecision(outs, d, ParallelBlock(e, steps, id, d, w).out, ParallelBlock(e', steps, id, d, w).out);
    }
  }

  lemma OneDecision(outs: seq<Outcome>, d: Driver, out: Outcome, out': Outcome)
    requires Decides(outs, d, out) && Decides(outs, d, out')
    ensures out == out'
  {
    if out.Raised? && out'.Raised? {
      var j :| FirstFailure(outs, j, out);
      var j' :| FirstFailure(outs, j', out');
      assert j == j';
    }
  }

  /** The outcomes of threads that have ended. */
  function Outcomes(ends: seq<Child>): seq<Outcome> {
    seq(|ends|, i requires 0 <= i < |ends| => if ends[i].Done? then ends[i].out else Returned(None))
  }

  /** Without any assumption on the handlers: all threads end, and their outcomes
      decide the block's. */
  lemma ThreadsDecide(e: Env, steps: seq<Step>, id: StepId, d: Driver, w: World)
    requires AllParallelSafe(steps)
    ensures var ends := Interleave(e, steps, id, Threads(steps, w.ctx), w, 0).0;
            && (forall i :: 0 <= i < |ends| ==> ends[i].Done?)
            && Decides(Outcomes(ends), d, ParallelBlock(e, steps, id, d, w).out)
  {
    var ends := Interleave(e, steps, id, Threads(steps, w.ctx), w, 0).0;
    InterleaveLeavesParent(e, steps, id, Threads(steps, w.ctx), w, 0);
    FirstRaiseDecides(ends, Outcomes(ends), 0, d);
  }

  lemma {:induction false} UnsafeAreListed(steps: seq<Step>, n: nat, t: StepType)
    requires n <= |steps|
    ensures t in UnsafeTypes(steps, n) <==>
              exists i :: 0 <= i < n && steps[i].stype == t && !IsParallelSafe(steps[i].stype)
  {
    if n > 0 { UnsafeAreListed(steps, n - 1, t); }
  }

  /** A block with a child that is not parallel-safe runs none of its children: it raises, and
      names exactly the types of such children. */
  lemma UnsafeChildrenAreRefused(e: Env, steps: seq<Step>, id: StepId, d: Driver, w: World)
    requires !AllParallelSafe(steps)
    ensures var r := ParallelBlock(e, steps, id, d, w);
            && r.w == w && r.out.Raised? && r.out.error.UnsupportedParallel?
            && forall t :: t in r.out.error.stypes <==>
                 exists i :: 0 <= i < |steps| && steps[i].stype == t && !IsParallelSafe(steps[i].stype)
  {
    var ts := UnsafeTypes(steps, |steps|);
    forall t
      ensures t in ts <==> exists i :: 0 <= i < |steps| && steps[i].stype == t && !IsParallelSafe(steps[i].stype)
    {
      UnsafeAreListed(steps, |steps|, t);
    }
  }
}
