/** Which steps the events of a run are about. Whatever a step adds to the trace is about
    the step itself or about a child in one of its own parts, so that the trace says which
    children of a block were run to their end. */
module Events {
  import opened Wrappers
  import opened Steps
  import opened Conditions
  import opened Interpreter
  import opened ClosingEvents

  /** The event is about child `from` or a later one in these parts of step `id`, or about
      something below such a child. */
  predicate Below(event: Event, id: StepId, parts: set<Part>, from: nat) {
    && |event.id| > |id| && event.id[..|id|] == id
    && event.id[|id|].part in parts && event.id[|id|].index >= from
  }

  /** From `w` to `w'` events were only added, all of them below. */
  ghost predicate Grows(w: World, w': World, id: StepId, parts: set<Part>, from: nat) {
    && w.trace <= w'.trace
    && forall k :: |w.trace| <= k < |w'.trace| ==> Below(w'.trace[k], id, parts, from)
  }

  /** The parts of a block that its events can be about. */
  function PartsOf(t: StepType): set<Part> {
    match t
    case Group => {InGroup}
    case Repeat => {InRepeat}
    case Parallel => {InParallel}
    case Try => {InTry, InCatch, InFinally}
    case _ => {}
  }

  /** What a step says of itself before it is closed: that it is retried, or that its
      error is swallowed. */
  predicate OfItself(event: Event, s: Step, id: StepId, r: Result) {
    event.id == id && (event.kind.Retrying? || (event.kind.Warned? && s.ctl.continueOnError && r.out.Returned?))
  }

  ghost predicate StepGrows(s: Step, id: StepId, w: World, r: Result) {
    && w.trace <= r.w.trace
    && forall k :: |w.trace| <= k < |r.w.trace| ==>
         Below(r.w.trace[k], id, PartsOf(s.stype), 0) || OfItself(r.w.trace[k], s, id, r)
  }

  /** A child is closed by the last event about itself, and raising is the only way not to
      be closed as succeeded or warned. */
  ghost predicate ChildGrows(s: Step, id: StepId, w: World, r: Result) {
    && |w.trace| < |r.w.trace| && w.trace <= r.w.trace
    && (forall k :: |w.trace| <= k < |r.w.trace| ==> id <= r.w.trace[k].id)
    && var last := r.w.trace[|r.w.trace| - 1];
    && last.id == id
    && (forall k :: |w.trace| <= k < |r.w.trace| && r.w.trace[k].id == id ==> !r.w.trace[k].kind.Skipped?)
    && (r.out.Returned? ==>
          && Closing(last.kind)
          && forall k :: |w.trace| <= k < |r.w.trace| && r.w.trace[k].id == id ==> !r.w.trace[k].kind.Failed?)
    && (r.out.Raised? ==>
          && last.kind.Failed? && last.error == Some(r.out.error)
          && (forall k :: |w.trace| <= k < |r.w.trace| && r.w.trace[k].id == id ==> !Closing(r.w.trace[k].kind))
          && forall k :: |w.trace| <= k < |r.w.trace| - 1 && r.w.trace[k].id == id ==> !r.w.trace[k].kind.Failed?)
  }

  /** The step is through: it ran to its end, or was not to run. */
  predicate Closing(kind: EventKind) {
    kind.Succeeded? || kind.Warned? || kind.Skipped?
  }

  lemma GrowsOn(w0: World, w1: World, w2: World, id: StepId, parts: set<Part>, from: nat)
    requires Grows(w0, w1, id, parts, from) && Grows(w1, w2, id, parts, from)
    ensures Grows(w0, w2, id, parts, from)
  {
  }

  lemma GrowsMore(w: World, w': World, id: StepId, parts: set<Part>, from: nat, parts': set<Part>, from': nat)
    requires Grows(w, w', id, parts, from) && parts <= parts' && from' <= from
    ensures Grows(w, w', id, parts', from')
  {
  }

  // ---------------------------------------------------------------- the step tree

  lemma AtomicIsSilent(e: Env, s: Step, d: Driver, w: World)
    ensures AtomicAttempt(e, s, d, w).w.trace == w.trace
  {
  }

  lemma {:induction false} InterleaveGrows(e: Env, steps: seq<Step>, id: StepId, cs: seq<Child>, w: World, n: nat)
    requires |cs| == |steps|
    ensures Grows(w, Interleave(e, steps, id, cs, w, n).1, id, {InParallel}, 0)
    decreases TotalMeasure(steps, cs, |cs|)
  {
    if Unfinished(cs, |cs|) != [] {
      var i := Scheduled(e, cs, w.calls, n);
      var cid := ChildId(id, InParallel, i);
      var m := ChildMove(e, steps[i], cid, cs[i], w);
      ChildMoveDecreases(e, steps[i], cid, cs[i], w);
      TotalMeasureUpdate(steps, cs, |cs|, i, m.0);
      MoveGrows(e, steps[i], id, i, cs[i], w);
      InterleaveGrows(e, steps, id, cs[i := m.0], m.1, n + 1);
      GrowsOn(w, m.1, Interleave(e, steps, id, cs, w, n).1, id, {InParallel}, 0);
    }
  }

  lemma MoveGrows(e: Env, s: Step, id: StepId, i: nat, c: Child, w: World)
    ensures Grows(w, ChildMove(e, s, ChildId(id, InParallel, i), c, w).1, id, {InParallel}, 0)
  {
    var cid := ChildId(id, InParallel, i);
    assert cid[..|id|] == id;
    if c.Trying? { AtomicIsSilent(e, s, None, w.(ctx := c.ctx)); }
  }

  lemma {:induction false} StepEvents(e: Env, s: Step, id: StepId, d: Driver, w: World)
    ensures StepGrows(s, id, w, ExecStep(e, s, id, d, w))
    decreases s, 4, 0
  {
    if Condition(e, s, w) == Some(true) { AttemptsEvents(e, s, id, 0, d, w); }
  }

  lemma {:induction false} AttemptsEvents(e: Env, s: Step, id: StepId, k: nat, d: Driver, w: World)
    requires k < s.Attempts()
    ensures StepGrows(s, id, w, Attempts(e, s, id, k, d, w))
    decreases s, 3, s.Attempts() - k
  {
    var a := Attempt(e, s, id, d, w);
    AttemptEvents(e, s, id, d, w);
    if a.out.Raised? {
      if k + 1 < s.Attempts() {
        AttemptsEvents(e, s, id, k + 1, a.held, Retry(s, id, k, a.out.error, a.w));
        RetriedEvents(s, id, k, a.out.error, w, a.w, Attempts(e, s, id, k, d, w));
      } else {
        ExhaustedEvents(e, s, id, a.out.error, a.held, w, a.w);
      }
    }
  }

  lemma RetriedEvents(s: Step, id: StepId, k: nat, error: Error, w: World, w': World, r: Result)
    requires Grows(w, w', id, PartsOf(s.stype), 0) && StepGrows(s, id, Retry(s, id, k, error, w'), r)
    ensures StepGrows(s, id, w, r)
  {
    var w1 := Retry(s, id, k, error, w');
    assert w1.trace == w'.trace + [Event(id, Retrying, s.stype, Some(error))];
  }

  lemma ExhaustedEvents(e: Env, s: Step, id: StepId, error: Error, d: Driver, w: World, w': World)
    requires Grows(w, w', id, PartsOf(s.stype), 0)
    ensures StepGrows(s, id, w, Exhausted(e, s, id, error, d, w'))
  {
  }

  lemma {:induction false} AttemptEvents(e: Env, s: Step, id: StepId, d: Driver, w: World)
    ensures Grows(w, Attempt(e, s, id, d, w).w, id, PartsOf(s.stype), 0)
    decreases s, 2, 0
  {
    if IsAtomic(s.stype) { AtomicIsSilent(e, s, d, w); } else { BlockEvents(e, s, id, d, w); }
  }

  lemma {:induction false} BlockEvents(e: Env, s: Step, id: StepId, d: Driver, w: World)
    ensures Grows(w, ExecBlock(e, s, id, d, w).w, id, PartsOf(s.stype), 0)
    decreases s, 1, 0
  {
    match s.stype
    case Group => SequenceEvents(e, s.steps, InGroup, 0, id, d, w);
    case Repeat => RepeatEvents(e, s, s.times, id, d, w);
    case Parallel =>
      if UnsafeTypes(s.steps, |s.steps|) == [] { InterleaveGrows(e, s.steps, id, Threads(s.steps, w.ctx), w, 0); }
    case Try => TryEvents(e, s, id, d, w);
    case _ =>
  }

  lemma {:induction false} RepeatEvents(e: Env, s: Step, times: int, id: StepId, d: Driver, w: World)
    ensures Grows(w, RepeatBlock(e, s, times, id, d, w).w, id, {InRepeat}, 0)
    decreases s, 0, if times > 0 then times else 0
  {
    if times > 0 {
      var r := Sequence(e, s.steps, InRepeat, 0, id, d, w);
      SequenceEvents(e, s.steps, InRepeat, 0, id, d, w);
      if r.out.Returned? {
        RepeatEvents(e, s, times - 1, id, r.out.driver, r.w);
        GrowsOn(w, r.w, RepeatBlock(e, s, times, id, d, w).w, id, {InRepeat}, 0);
      }
    }
  }

  /** The events of a try block's catch part come only after its try part raised. */
  lemma {:induction false} TryEvents(e: Env, s: Step, id: StepId, d: Driver, w: World)
    ensures var t := Sequence(e, s.trySteps, InTry, 0, id, d, w);
            Grows(w, TryBlock(e, s, id, d, w).w, id, TryParts(t.out.Raised?), 0)
    decreases s, 0, 1
  {
    var r, parts := TryCatch(e, s, id, d, w), TryParts(Sequence(e, s.trySteps, InTry, 0, id, d, w).out.Raised?);
    TryCatchEvents(e, s, id, d, w);
    var fd := if r.out.Returned? then r.out.driver else d;
    var f := Sequence(e, s.finallySteps, InFinally, 0, id, fd, r.w);
    SequenceEvents(e, s.finallySteps, InFinally, 0, id, fd, r.w);
    GrowsMore(r.w, f.w, id, {InFinally}, 0, parts, 0);
    GrowsOn(w, r.w, f.w, id, parts, 0);
  }

  lemma {:induction false} TryCatchEvents(e: Env, s: Step, id: StepId, d: Driver, w: World)
    ensures var t := Sequence(e, s.trySteps, InTry, 0, id, d, w);
            Grows(w, TryCatch(e, s, id, d, w).w, id, TryParts(t.out.Raised?), 0)
    decreases s, 0, 0
  {
    var t, r := Sequence(e, s.trySteps, InTry, 0, id, d, w), TryCatch(e, s, id, d, w);
    var parts := TryParts(t.out.Raised?);
    SequenceEvents(e, s.trySteps, InTry, 0, id, d, w);
    GrowsMore(w, t.w, id, {InTry}, 0, parts, 0);
    if t.out.Raised? && s.catchSteps != [] {
      var w' := t.w.(ctx := t.w.ctx["error_message" := e.text(t.out.error)]);
      SequenceEvents(e, s.catchSteps, InCatch, 0, id, d, w');
      GrowsMore(w', r.w, id, {InCatch}, 0, parts, 0);
      GrowsOn(w, w', r.w, id, parts, 0);
    }
  }

  function TryParts(raised: bool): set<Part> {
    if raised then {InTry, InCatch, InFinally} else {InTry, InFinally}
  }

  lemma {:induction false} ChildEvents(e: Env, s: Step, id: StepId, d: Driver, w: World)
    ensures ChildGrows(s, id, w, ExecChild(e, s, id, d, w))
    decreases s, 5, 0
  {
    var w' := Start(w, id, s.stype);
    StepEvents(e, s, id, d, w');
    ClosingEventTellsTheTruth(e, s, id, d, w);
    ClosedEvents(s, id, w, w', ExecStep(e, s, id, d, w'));
  }

  lemma ClosedEvents(s: Step, id: StepId, w: World, w': World, r: Result)
    requires w'.trace == w.trace + [Event(id, Started, s.stype, None)] && StepGrows(s, id, w', r)
    requires r.out.Returned? && r.w.swallowed.Some? ==>
               r.w.trace != [] && r.w.trace[|r.w.trace| - 1].kind.Warned? && r.w.trace[|r.w.trace| - 1].id == id
    ensures ChildGrows(s, id, w, Close(s, id, r))
  {
  }

  lemma {:induction false} SequenceEvents(e: Env, steps: seq<Step>, part: Part, i: nat, id: StepId, d: Driver,
                                          w: World)
    requires i <= |steps|
    ensures Grows(w, Sequence(e, steps, part, i, id, d, w).w, id, {part}, i)
    decreases steps, 0, |steps| - i
  {
    if i < |steps| {
      var cid := ChildId(id, part, i);
      var r := ExecChild(e, steps[i], cid, d, w);
      ChildEvents(e, steps[i], cid, d, w);
      ChildIsBelow(steps[i], id, part, i, w, r);
      if r.out.Returned? {
        SequenceEvents(e, steps, part, i + 1, id, r.out.driver, r.w);
        var all := Sequence(e, steps, part, i, id, d, w).w;
        GrowsMore(r.w, all, id, {part}, i + 1, {part}, i);
        GrowsOn(w, r.w, all, id, {part}, i);
      }
    }
  }

  lemma ChildIsBelow(s: Step, id: StepId, part: Part, i: nat, w: World, r: Result)
    requires ChildGrows(s, ChildId(id, part, i), w, r)
    ensures Grows(w, r.w, id, {part}, i)
  {
    var cid := ChildId(id, part, i);
    forall k | |w.trace| <= k < |r.w.trace| ensures Below(r.w.trace[k], id, {part}, i) {
      var event := r.w.trace[k];
      assert cid <= event.id;
      assert event.id[..|id|] == cid[..|id|] == id && event.id[|id|] == cid[|id|];
    }
  }

  // ---------------------------------------------------------------- which children ran

  /** From event `b` on, the step is through. */
  ghost predicate ClosedSince(t: seq<Event>, b: nat, id: StepId) {
    exists k :: b <= k < |t| && t[k].id == id && Closing(t[k].kind)
  }

  /** From event `b` on, the step is said to have failed, with this error and no other. */
  ghost predicate FailedSince(t: seq<Event>, b: nat, id: StepId, error: Error) {
    && (exists k :: b <= k < |t| && t[k].id == id && t[k].kind.Failed?)
    && forall k :: b <= k < |t| && t[k].id == id && t[k].kind.Failed? ==> t[k].error == Some(error)
  }

  /** The children before `i` are through. */
  ghost predicate ClosedBefore(t: seq<Event>, b: nat, id: StepId, part: Part, i: nat) {
    forall j :: 0 <= j < i ==> ClosedSince(t, b, ChildId(id, part, j))
  }

  /** No child from `i` on has an event. */
  ghost predicate NoneFrom(t: seq<Event>, b: nat, id: StepId, part: Part, i: nat) {
    forall k :: b <= k < |t| ==> !Below(t[k], id, {part}, i)
  }

  /** The children before `i` are through and nothing else of this part has happened. */
  ghost predicate Through(t: seq<Event>, b: nat, id: StepId, part: Part, i: nat) {
    ClosedBefore(t, b, id, part, i) && NoneFrom(t, b, id, part, i)
  }

  /** The part was left at child `i`. */
  ghost predicate LeftAt(t: seq<Event>, b: nat, id: StepId, part: Part, i: nat) {
    && ClosedBefore(t, b, id, part, i) && NoneFrom(t, b, id, part, i + 1)
    && !ClosedSince(t, b, ChildId(id, part, i))
  }

  lemma StillClosed(t: seq<Event>, t': seq<Event>, b: nat, id: StepId, part: Part, i: nat)
    requires ClosedBefore(t, b, id, part, i) && t <= t'
    ensures ClosedBefore(t', b, id, part, i)
  {
    forall j | 0 <= j < i ensures ClosedSince(t', b, ChildId(id, part, j)) {
      SameClosed(t, t', b, ChildId(id, part, j));
    }
  }

  lemma SameClosed(t: seq<Event>, t': seq<Event>, b: nat, id: StepId)
    requires ClosedSince(t, b, id) && t <= t'
    ensures ClosedSince(t', b, id)
  {
    var k :| b <= k < |t| && t[k].id == id && Closing(t[k].kind);
    assert t'[k] == t[k];
  }

  lemma StillNone(w: World, w': World, b: nat, id: StepId, part: Part, i: nat, parts: set<Part>, from: nat)
    requires NoneFrom(w.trace, b, id, part, i) && Grows(w, w', id, parts, from) && part !in parts
    ensures NoneFrom(w'.trace, b, id, part, i)
  {
    forall k | b <= k < |w'.trace| ensures !Below(w'.trace[k], id, {part}, i) {
      if k < |w.trace| { assert w'.trace[k] == w.trace[k]; }
    }
  }

  lemma StillUnclosed(w: World, w': World, b: nat, id: StepId, part: Part, i: nat, parts: set<Part>, from: nat)
    requires !ClosedSince(w.trace, b, ChildId(id, part, i)) && Grows(w, w', id, parts, from) && part !in parts
    ensures !ClosedSince(w'.trace, b, ChildId(id, part, i))
  {
    var cid := ChildId(id, part, i);
    assert cid[|id|].part !in parts;
    forall k | b <= k < |w'.trace| ensures !(w'.trace[k].id == cid && Closing(w'.trace[k].kind)) {
      if k < |w.trace| { assert w'.trace[k] == w.trace[k]; }
    }
  }

  /** A child more. */
  lemma ChildThrough(s: Step, id: StepId, part: Part, i: nat, w: World, r: Result, b: nat)
    requires b <= |w.trace| && Through(w.trace, b, id, part, i) && ChildGrows(s, ChildId(id, part, i), w, r)
    ensures r.out.Returned? ==> Through(r.w.trace, b, id, part, i + 1)
    ensures r.out.Raised? ==>
              LeftAt(r.w.trace, b, id, part, i) && FailedSince(r.w.trace, b, ChildId(id, part, i), r.out.error)
  {
    var t, cid := r.w.trace, ChildId(id, part, i);
    assert cid[|id|] == Segment(part, i) && cid[..|id|] == id;
    StillClosed(w.trace, t, b, id, part, i);
    assert t[|t| - 1].id == cid;
    if r.out.Returned? { assert ClosedSince(t, b, cid); }
    forall k | b <= k < |t| ensures !Below(t[k], id, {part}, i + 1) {
      if k < |w.trace| { assert t[k] == w.trace[k]; } else { assert cid <= t[k].id; }
    }
    if r.out.Raised? {
      forall k | b <= k < |t| - 1 ensures !(t[k].id == cid && (Closing(t[k].kind) || t[k].kind.Failed?)) {
        if k < |w.trace| { assert t[k] == w.trace[k]; }
      }
    }
  }

  lemma NextThrough(e: Env, s: Step, part: Part, i: nat, id: StepId, d: Driver, w: World, b: nat) returns (r: Result)
    requires b <= |w.trace| && Through(w.trace, b, id, part, i)
    ensures r == ExecChild(e, s, ChildId(id, part, i), d, w) && |w.trace| <= |r.w.trace|
    ensures r.out.Returned? ==> Through(r.w.trace, b, id, part, i + 1)
    ensures r.out.Raised? ==>
              LeftAt(r.w.trace, b, id, part, i) && FailedSince(r.w.trace, b, ChildId(id, part, i), r.out.error)
  {
    r := ExecChild(e, s, ChildId(id, part, i), d, w);
    ChildEvents(e, s, ChildId(id, part, i), d, w);
    ChildThrough(s, id, part, i, w, r, b);
  }

  /** The children of a sequence are through exactly when it returns. One that raises is left at
      the child that failed with its error, and no later one has an event. */
  lemma {:induction false} SequenceThrough(e: Env, steps: seq<Step>, part: Part, i: nat, id: StepId, d: Driver,
                                           w: World, b: nat)
    returns (n: nat)
    requires i <= |steps| && b <= |w.trace| && Through(w.trace, b, id, part, i)
    ensures var r := Sequence(e, steps, part, i, id, d, w);
            && (r.out.Returned? ==> Through(r.w.trace, b, id, part, |steps|))
            && (r.out.Raised? ==>
                  && n < |steps| && LeftAt(r.w.trace, b, id, part, n)
                  && FailedSince(r.w.trace, b, ChildId(id, part, n), r.out.error))
    decreases |steps| - i
  {
    n := i;
    if i < |steps| {
      var r := NextThrough(e, steps[i], part, i, id, d, w, b);
      if r.out.Returned? { n := SequenceThrough(e, steps, part, i + 1, id, r.out.driver, r.w, b); }
    }
  }

  // ---------------------------------------------------------------- main steps and hooks

  /** All events of a main step are about it or what is below it, and none says it was
      skipped. */
  ghost predicate OfStep(id: StepId, w: World, w': World) {
    && w.trace <= w'.trace
    && (forall k :: |w.trace| <= k < |w'.trace| ==> id <= w'.trace[k].id)
    && forall k :: |w.trace| <= k < |w'.trace| && w'.trace[k].id == id ==> !w'.trace[k].kind.Skipped?
  }

  lemma MainStepEvents(e: Env, s: Step, i: nat, d: Driver, w: World)
    ensures OfStep([Segment(InSteps, i)], w, MainStep(e, s, i, d, w).w)
  {
    var id := [Segment(InSteps, i)];
    var got := EnsureDriver(e, s.stype, d, Emit(w, id, Started, s.stype, None));
    if got.out.Returned? {
      var w1 := got.w.(swallowed := None);
      StepEvents(e, s, id, got.held, w1);
      if Condition(e, s, w1) == Some(true) { AttemptsFlag(e, s, id, 0, got.held, w1); }
      ClosedEvents(s, id, w, w1, ExecStep(e, s, id, got.held, w1));
    }
  }

  lemma OfStepIsBelow(part: Part, i: nat, w: World, w': World)
    requires w.trace <= w'.trace
    requires forall k :: |w.trace| <= k < |w'.trace| ==> [Segment(part, i)] <= w'.trace[k].id
    ensures Grows(w, w', [], {part}, 0)
  {
    forall k | |w.trace| <= k < |w'.trace| ensures Below(w'.trace[k], [], {part}, 0) {
      assert w'.trace[k].id[0] == [Segment(part, i)][0];
    }
  }

  lemma {:induction false} HooksEvents(e: Env, steps: seq<Step>, part: Part, i: nat, d: Driver, w: World)
    requires i <= |steps|
    ensures Grows(w, Hooks(e, steps, part, i, d, w).w, [], {part}, 0)
    decreases |steps| - i
  {
    if i < |steps| {
      var s, id := steps[i], [Segment(part, i)];
      var go := Condition(e, s, w);
      if go == Some(false) {
        var w' := Emit(w, id, Skipped, s.stype, None);
        OfStepIsBelow(part, i, w, w');
        HooksEvents(e, steps, part, i + 1, d, w');
        GrowsOn(w, w', Hooks(e, steps, part, i, d, w).w, [], {part}, 0);
      } else if go == Some(true) {
        var r := ExecChild(e, s, id, d, w);
        ChildEvents(e, s, id, d, w);
        OfStepIsBelow(part, i, w, r.w);
        if r.out.Returned? {
          HooksEvents(e, steps, part, i + 1, r.out.driver, r.w);
          GrowsOn(w, r.w, Hooks(e, steps, part, i, d, w).w, [], {part}, 0);
        }
      }
    }
  }

  lemma {:induction false} MainEvents(e: Env, steps: seq<Step>, i: nat, d: Driver, w: World)
    requires i <= |steps|
    ensures Grows(w, MainSteps(e, steps, i, d, w).w, [], {InSteps}, 0)
    decreases |steps| - i
  {
    if i < |steps| {
      var s, id := steps[i], [Segment(InSteps, i)];
      var go := Condition(e, s, w);
      if go == Some(false) {
        var w' := Emit(w, id, Skipped, s.stype, None);
        OfStepIsBelow(InSteps, i, w, w');
        MainEvents(e, steps, i + 1, d, w');
        GrowsOn(w, w', MainSteps(e, steps, i, d, w).w, [], {InSteps}, 0);
      } else if go == Some(true) {
        var m := MainStep(e, s, i, d, w);
        MainStepEvents(e, s, i, d, w);
        OfStepIsBelow(InSteps, i, w, m.w);
        if m.out.Returned? {
          MainEvents(e, steps, i + 1, m.out.driver, m.w);
          GrowsOn(w, m.w, MainSteps(e, steps, i, d, w).w, [], {InSteps}, 0);
        }
      }
    }
  }
}
