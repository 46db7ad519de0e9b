/** Browsers are conserved: which browsers a run without failures leaves live, exactly,
    and when it leaves none and never has two. */
module Browsers {
  import opened Wrappers
  import opened Steps
  import opened Conditions
  import opened Interpreter
  import opened Footprint
  import opened ParallelBlocks
  import opened BrowserLogs

  /** No exception escaped a step: the trace has no step_failed at level error. */
  ghost predicate Quiet(w: World) {
    forall i :: 0 <= i < |w.trace| ==> !w.trace[i].kind.Failed?
  }

  lemma QuietBefore(may: May, w: World, w': World)
    requires Adds(may, w, w') && Quiet(w')
    ensures Quiet(w)
  {
    forall i | 0 <= i < |w.trace| ensures !w.trace[i].kind.Failed? {
      assert w'.trace[i] == w.trace[i];
    }
  }

  // ---------------------------------------------------------------- what a piece of a run drops

  /** The live browsers that nested steps were handed when they were skipped: a skipped
      step gives back no driver. */
  function StepDrops(e: Env, s: Step, id: StepId, d: Driver, w: World): set<nat>
    decreases s, 4, 0
  {
    var go := Condition(e, s, w);
    if go == Some(true) then AttemptsDrop(e, s, id, 0, d, w)
    else if go == Some(false) then Held(d) * Live(w.browsers)
    else {}
  }

  function AttemptsDrop(e: Env, s: Step, id: StepId, k: nat, d: Driver, w: World): set<nat>
    requires k < s.Attempts()
    decreases s, 3, s.Attempts() - k
  {
    var a := Attempt(e, s, id, d, w);
    BlockDrops(e, s, id, d, w)
    + if a.out.Raised? && k + 1 < s.Attempts() then
        AttemptsDrop(e, s, id, k + 1, a.held, Retry(s, id, k, a.out.error, a.w))
      else {}
  }

  function BlockDrops(e: Env, s: Step, id: StepId, d: Driver, w: World): set<nat>
    decreases s, 2, 0
  {
    match s.stype
    case Group => SequenceDrops(e, s.steps, InGroup, 0, id, d, w)
    case Repeat => RepeatDrops(e, s, s.times, id, d, w)
    case Try => TryDrops(e, s, id, d, w)
    case _ => {}
  }

  function SequenceDrops(e: Env, steps: seq<Step>, part: Part, i: nat, id: StepId, d: Driver, w: World): set<nat>
    requires i <= |steps|
    decreases steps, 0, |steps| - i
  {
    if i == |steps| then {}
    else
      var cid := ChildId(id, part, i);
      var r := ExecChild(e, steps[i], cid, d, w);
      ChildDrops(e, steps[i], cid, d, w)
      + if r.out.Returned? then SequenceDrops(e, steps, part, i + 1, id, r.out.driver, r.w) else {}
  }

  function ChildDrops(e: Env, s: Step, id: StepId, d: Driver, w: World): set<nat>
    decreases s, 5, 0
  {
    StepDrops(e, s, id, d, Start(w, id, s.stype))
  }

  function RepeatDrops(e: Env, s: Step, times: int, id: StepId, d: Driver, w: World): set<nat>
    decreases s, 0, if times > 0 then times else 0
  {
    if times <= 0 then {}
    else
      var r := Sequence(e, s.steps, InRepeat, 0, id, d, w);
      SequenceDrops(e, s.steps, InRepeat, 0, id, d, w)
      + if r.out.Returned? then RepeatDrops(e, s, times - 1, id, r.out.driver, r.w) else {}
  }

  /** Of the try and finally parts: a run without failures makes no use of the catch
      part. */
  function TryDrops(e: Env, s: Step, id: StepId, d: Driver, w: World): set<nat>
    decreases s, 0, 1
  {
    var t := Sequence(e, s.trySteps, InTry, 0, id, d, w);
    SequenceDrops(e, s.trySteps, InTry, 0, id, d, w)
    + if t.out.Returned? then SequenceDrops(e, s.finallySteps, InFinally, 0, id, t.out.driver, t.w) else {}
  }

  function HooksDrop(e: Env, steps: seq<Step>, part: Part, i: nat, d: Driver, w: World): set<nat>
    requires i <= |steps|
    decreases |steps| - i
  {
    if i == |steps| then {}
    else
      var s, id := steps[i], [Segment(part, i)];
      var go := Condition(e, s, w);
      if go == Some(false) then HooksDrop(e, steps, part, i + 1, d, Emit(w, id, Skipped, s.stype, None))
      else if go == Some(true) then
        var r := ExecChild(e, s, id, d, w);
        ChildDrops(e, s, id, d, w)
        + if r.out.Returned? then HooksDrop(e, steps, part, i + 1, r.out.driver, r.w) else {}
      else {}
  }

  /** The driver a list of hooks holds when it returns or raises. */
  function HooksHeld(e: Env, steps: seq<Step>, part: Part, i: nat, d: Driver, w: World): Driver
    requires i <= |steps|
    decreases |steps| - i
  {
    if i == |steps| then d
    else
      var s, id := steps[i], [Segment(part, i)];
      var go := Condition(e, s, w);
      if go == Some(false) then HooksHeld(e, steps, part, i + 1, d, Emit(w, id, Skipped, s.stype, None))
      else if go == Some(true) then
        var r := ExecChild(e, s, id, d, w);
        if r.out.Returned? then HooksHeld(e, steps, part, i + 1, r.out.driver, r.w) else d
      else d
  }

  function MainDrops(e: Env, steps: seq<Step>, i: nat, d: Driver, w: World): set<nat>
    requires i <= |steps|
    decreases |steps| - i
  {
    if i == |steps| then {}
    else
      var s, id := steps[i], [Segment(InSteps, i)];
      var go := Condition(e, s, w);
      if go == Some(false) then MainDrops(e, steps, i + 1, d, Emit(w, id, Skipped, s.stype, None))
      else if go == Some(true) then
        var m := MainStep(e, s, i, d, w);
        MainStepDrops(e, s, i, d, w)
        + if m.out.Returned? then MainDrops(e, steps, i + 1, m.out.driver, m.w) else {}
      else {}
  }

  function MainStepDrops(e: Env, s: Step, i: nat, d: Driver, w: World): set<nat> {
    var id := [Segment(InSteps, i)];
    var got := EnsureDriver(e, s.stype, d, Emit(w, id, Started, s.stype, None));
    if got.out.Raised? then {} else StepDrops(e, s, id, got.held, got.w.(swallowed := None))
  }

  // ---------------------------------------------------------------- pieces drop no more than that

  lemma EnsureSettles(e: Env, t: StepType, d: Driver, w: World)
    ensures var got := EnsureDriver(e, t, d, w);
            Settles(w.browsers, d, got.w.browsers, got.held, {}) && (got.out.Returned? ==> got.out.driver == got.held)
  {
    var got := EnsureDriver(e, t, d, w);
    if got.w != w { LaunchSettles(w.browsers); }
  }

  lemma InvokeSettles(e: Env, s: Step, d: Driver, w: World)
    ensures var r := Invoke(e, s, d, w); Settles(w.browsers, d, r.w.browsers, Kept(r.out, d), {})
  {
    InvokeQuits(e, s, d, w);
    var r := Invoke(e, s, d, w);
    if r.w.browsers == w.browsers {
      NothingSettles(w.browsers, d);
    } else {
      QuitSettles(w.browsers, d.value, Kept(r.out, d));
    }
  }

  /** A handler call leaves browser and driver, or closes the browser. */
  lemma InvokeQuits(e: Env, s: Step, d: Driver, w: World)
    ensures var r := Invoke(e, s, d, w);
            || (r.w.browsers == w.browsers && Kept(r.out, d) == d)
            || (d.Some? && r.w.browsers == w.browsers + [Quit(d.value)]
                && (Kept(r.out, d).None? || Kept(r.out, d) == d))
  {
  }

  lemma AtomicSettles(e: Env, s: Step, d: Driver, w: World)
    ensures var a := AtomicAttempt(e, s, d, w);
            Settles(w.browsers, d, a.w.browsers, a.held, {}) && (a.out.Returned? ==> a.out.driver == a.held)
  {
    EnsureSettles(e, s.stype, d, w);
    var got := EnsureDriver(e, s.stype, d, w);
    if got.out.Returned? {
      InvokeSettles(e, s, got.held, got.w);
      var a := AtomicAttempt(e, s, d, w);
      ChainedAfter(w.browsers, d, got.w.browsers, got.held, a.w.browsers, a.held, {});
    }
  }

  lemma {:induction false} StepSettles(e: Env, s: Step, id: StepId, d: Driver, w: World)
    requires Quiet(ExecStep(e, s, id, d, w).w)
    ensures var r := ExecStep(e, s, id, d, w);
            r.out.Returned? ==> Settles(w.browsers, d, r.w.browsers, r.out.driver, StepDrops(e, s, id, d, w))
    decreases s, 4, 0
  {
    if Condition(e, s, w) == Some(true) {
      AttemptsSettle(e, s, id, 0, d, w);
    } else {
      assert Live(w.browsers) - Held(None) == Others(w.browsers, d) + Held(d) * Live(w.browsers);
    }
  }

  lemma {:induction false} AttemptsSettle(e: Env, s: Step, id: StepId, k: nat, d: Driver, w: World)
    requires k < s.Attempts() && Quiet(Attempts(e, s, id, k, d, w).w)
    ensures var r := Attempts(e, s, id, k, d, w);
            r.out.Returned? ==> Settles(w.browsers, d, r.w.browsers, r.out.driver, AttemptsDrop(e, s, id, k, d, w))
    decreases s, 3, s.Attempts() - k
  {
    var a := Attempt(e, s, id, d, w);
    AttemptQuiet(e, s, id, k, d, w);
    AttemptSettles(e, s, id, d, w);
    if a.out.Raised? && k + 1 < s.Attempts() {
      var w' := Retry(s, id, k, a.out.error, a.w);
      AttemptsGoOn(e, s, id, k, d, w, a, w');
      AttemptsSettle(e, s, id, k + 1, a.held, w');
      AttemptsChain(e, s, id, k, d, w, a, w');
    } else {
      AttemptsEnd(e, s, id, k, d, w, a);
    }
  }

  lemma AttemptsChain(e: Env, s: Step, id: StepId, k: nat, d: Driver, w: World, a: Tried, w': World)
    requires k + 1 < s.Attempts() && a == Attempt(e, s, id, d, w) && a.out.Raised?
    requires w' == Retry(s, id, k, a.out.error, a.w)
    requires Settles(w.browsers, d, a.w.browsers, a.held, BlockDrops(e, s, id, d, w))
    requires var r := Attempts(e, s, id, k + 1, a.held, w');
             r.out.Returned? ==>
               Settles(w'.browsers, a.held, r.w.browsers, r.out.driver, AttemptsDrop(e, s, id, k + 1, a.held, w'))
    ensures var r := Attempts(e, s, id, k, d, w);
            r.out.Returned? ==> Settles(w.browsers, d, r.w.browsers, r.out.driver, AttemptsDrop(e, s, id, k, d, w))
  {
    AttemptsGoOn(e, s, id, k, d, w, a, w');
    var r := Attempts(e, s, id, k + 1, a.held, w');
    if r.out.Raised? { return; }
    Chained(w.browsers, d, w'.browsers, a.held, r.w.browsers, r.out.driver, BlockDrops(e, s, id, d, w),
            AttemptsDrop(e, s, id, k + 1, a.held, w'));
  }

  lemma AttemptsEnd(e: Env, s: Step, id: StepId, k: nat, d: Driver, w: World, a: Tried)
    requires k < s.Attempts() && a == Attempt(e, s, id, d, w) && (a.out.Returned? || k + 1 == s.Attempts())
    requires Settles(w.browsers, d, a.w.browsers, Kept(a.out, a.held), BlockDrops(e, s, id, d, w))
    ensures var r := Attempts(e, s, id, k, d, w);
            r.out.Returned? ==> Settles(w.browsers, d, r.w.browsers, r.out.driver, AttemptsDrop(e, s, id, k, d, w))
  {
    assert BlockDrops(e, s, id, d, w) + {} == BlockDrops(e, s, id, d, w);
    assert Attempts(e, s, id, k, d, w).w.browsers == a.w.browsers;
  }

  lemma AttemptsGoOn(e: Env, s: Step, id: StepId, k: nat, d: Driver, w: World, a: Tried, w': World)
    requires k + 1 < s.Attempts() && a == Attempt(e, s, id, d, w) && a.out.Raised?
    requires w' == Retry(s, id, k, a.out.error, a.w)
    ensures w'.browsers == a.w.browsers && Attempts(e, s, id, k, d, w) == Attempts(e, s, id, k + 1, a.held, w')
    ensures AttemptsDrop(e, s, id, k, d, w)
         == BlockDrops(e, s, id, d, w) + AttemptsDrop(e, s, id, k + 1, a.held, w')
  {
  }

  lemma {:induction false} AttemptSettles(e: Env, s: Step, id: StepId, d: Driver, w: World)
    requires Quiet(Attempt(e, s, id, d, w).w)
    ensures var a := Attempt(e, s, id, d, w);
            Settles(w.browsers, d, a.w.browsers, Kept(a.out, a.held), BlockDrops(e, s, id, d, w))
    decreases s, 2, 0
  {
    if IsAtomic(s.stype) { AtomicSettles(e, s, d, w); } else { BlockSettles(e, s, id, d, w); }
  }

  /** An attempt of a quiet step is quiet. */
  lemma AttemptQuiet(e: Env, s: Step, id: StepId, k: nat, d: Driver, w: World)
    requires k < s.Attempts()
    requires Quiet(Attempts(e, s, id, k, d, w).w)
    ensures Quiet(Attempt(e, s, id, d, w).w)
  {
    var may := May(true, true, true);
    var a := Attempt(e, s, id, d, w);
    var r := Attempts(e, s, id, k, d, w);
    if a.out.Raised? {
      if k + 1 < s.Attempts() {
        var w' := Retry(s, id, k, a.out.error, a.w);
        AttemptsAdd(may, e, s, id, k + 1, a.held, w');
        Chain(may, a.w, w', r.w);
      }
      QuietBefore(may, a.w, r.w);
    }
  }

  /** A quiet block raises only where nothing inside it was started. */
  lemma {:induction false} BlockSettles(e: Env, s: Step, id: StepId, d: Driver, w: World)
    requires !IsAtomic(s.stype) && Quiet(ExecBlock(e, s, id, d, w).w)
    ensures var r := ExecBlock(e, s, id, d, w);
            Settles(w.browsers, d, r.w.browsers, Kept(r.out, d), BlockDrops(e, s, id, d, w))
    decreases s, 1, 0
  {
    match s.stype
    case Group => SequenceSettles(e, s.steps, InGroup, 0, id, d, w);
    case Repeat => RepeatSettles(e, s, s.times, id, d, w);
    case Parallel =>
      if UnsafeTypes(s.steps, |s.steps|) == [] {
        ParallelIsScheduleIndependent(e, e, s.steps, id, d, w);
        ThreadsDecide(e, s.steps, id, d, w);
      }
    case Try => TrySettles(e, s, id, d, w);
    case _ =>
  }

  lemma {:induction false} SequenceSettles(e: Env, steps: seq<Step>, part: Part, i: nat, id: StepId, d: Driver,
                                           w: World)
    requires i <= |steps| && Quiet(Sequence(e, steps, part, i, id, d, w).w)
    ensures var r := Sequence(e, steps, part, i, id, d, w);
            && r.out.Returned?
            && Settles(w.browsers, d, r.w.browsers, r.out.driver, SequenceDrops(e, steps, part, i, id, d, w))
    decreases steps, 0, |steps| - i
  {
    if i < |steps| {
      var may, s, cid := May(true, true, true), steps[i], ChildId(id, part, i);
      var r, all := ExecChild(e, s, cid, d, w), Sequence(e, steps, part, i, id, d, w);
      if r.out.Returned? {
        SequenceAdds(may, e, steps, part, i + 1, id, r.out.driver, r.w);
        QuietBefore(may, r.w, all.w);
      }
      ChildSettles(e, s, cid, d, w);
      SequenceSettles(e, steps, part, i + 1, id, r.out.driver, r.w);
      Chained(w.browsers, d, r.w.browsers, r.out.driver, all.w.browsers, all.out.driver, ChildDrops(e, s, cid, d, w),
              SequenceDrops(e, steps, part, i + 1, id, r.out.driver, r.w));
    }
  }

  lemma {:induction false} ChildSettles(e: Env, s: Step, id: StepId, d: Driver, w: World)
    requires Quiet(ExecChild(e, s, id, d, w).w)
    ensures var r := ExecChild(e, s, id, d, w);
            r.out.Returned? && Settles(w.browsers, d, r.w.browsers, r.out.driver, ChildDrops(e, s, id, d, w))
    decreases s, 5, 0
  {
    var w' := Start(w, id, s.stype);
    CloseQuiet(s, id, ExecStep(e, s, id, d, w'));
    StepSettles(e, s, id, d, w');
  }

  /** A raising step is closed by an error event. */
  lemma CloseQuiet(s: Step, id: StepId, r: Result)
    ensures Quiet(Close(s, id, r).w) ==> r.out.Returned? && Quiet(r.w)
  {
    var w := Close(s, id, r).w;
    assert r.w.trace <= w.trace;
    assert r.out.Raised? ==> w.trace[|r.w.trace|].kind.Failed?;
    assert forall i :: 0 <= i < |r.w.trace| ==> w.trace[i] == r.w.trace[i];
  }

  lemma {:induction false} RepeatSettles(e: Env, s: Step, times: int, id: StepId, d: Driver, w: World)
    requires Quiet(RepeatBlock(e, s, times, id, d, w).w)
    ensures var r := RepeatBlock(e, s, times, id, d, w);
            r.out.Returned? && Settles(w.browsers, d, r.w.browsers, r.out.driver, RepeatDrops(e, s, times, id, d, w))
    decreases s, 0, if times > 0 then times else 0
  {
    if times > 0 {
      var r, all := Sequence(e, s.steps, InRepeat, 0, id, d, w), RepeatBlock(e, s, times, id, d, w);
      if r.out.Returned? {
        RepeatGrows(e, s, times - 1, id, r.out.driver, r.w);
        QuietBefore(May(true, true, true), r.w, all.w);
      }
      SequenceSettles(e, s.steps, InRepeat, 0, id, d, w);
      RepeatSettles(e, s, times - 1, id, r.out.driver, r.w);
      Chained(w.browsers, d, r.w.browsers, r.out.driver, all.w.browsers, all.out.driver,
              SequenceDrops(e, s.steps, InRepeat, 0, id, d, w),
              RepeatDrops(e, s, times - 1, id, r.out.driver, r.w));
    }
  }

  lemma {:induction false} RepeatGrows(e: Env, s: Step, times: int, id: StepId, d: Driver, w: World)
    ensures Adds(May(true, true, true), w, RepeatBlock(e, s, times, id, d, w).w)
    decreases if times > 0 then times else 0
  {
    if times > 0 {
      var may, r := May(true, true, true), Sequence(e, s.steps, InRepeat, 0, id, d, w);
      SequenceAdds(may, e, s.steps, InRepeat, 0, id, d, w);
      if r.out.Returned? {
        RepeatGrows(e, s, times - 1, id, r.out.driver, r.w);
        Chain(may, w, r.w, RepeatBlock(e, s, times, id, d, w).w);
      }
    }
  }

  lemma {:induction false} TrySettles(e: Env, s: Step, id: StepId, d: Driver, w: World)
    requires Quiet(TryBlock(e, s, id, d, w).w)
    ensures var r := TryBlock(e, s, id, d, w);
            r.out.Returned? && Settles(w.browsers, d, r.w.browsers, r.out.driver, TryDrops(e, s, id, d, w))
    decreases s, 0, 1
  {
    var may := May(true, true, true);
    var t, r, all := Sequence(e, s.trySteps, InTry, 0, id, d, w), TryCatch(e, s, id, d, w), TryBlock(e, s, id, d, w);
    var fd := if r.out.Returned? then r.out.driver else d;
    SequenceAdds(may, e, s.finallySteps, InFinally, 0, id, fd, r.w);
    QuietBefore(may, r.w, all.w);
    if t.out.Raised? {
      var w' := t.w.(ctx := t.w.ctx["error_message" := e.text(t.out.error)]);
      SequenceAdds(may, e, s.catchSteps, InCatch, 0, id, d, w');
      QuietBefore(may, w', r.w);
      assert Quiet(t.w);
    }
    SequenceSettles(e, s.trySteps, InTry, 0, id, d, w);
    SequenceSettles(e, s.finallySteps, InFinally, 0, id, fd, r.w);
    Chained(w.browsers, d, r.w.browsers, fd, all.w.browsers, all.out.driver,
            SequenceDrops(e, s.trySteps, InTry, 0, id, d, w),
            SequenceDrops(e, s.finallySteps, InFinally, 0, id, fd, r.w));
  }

  // ---------------------------------------------------------------- the whole run

  /** What a list of hooks has in hand at its end is accounted for; a list that returns
      leaves its driver in the context. */
  lemma {:induction false} HooksSettle(e: Env, steps: seq<Step>, part: Part, i: nat, d: Driver, w: World)
    requires i <= |steps| && Quiet(Hooks(e, steps, part, i, d, w).w)
    ensures var r, held := Hooks(e, steps, part, i, d, w), HooksHeld(e, steps, part, i, d, w);
            && Settles(w.browsers, d, r.w.browsers, held, HooksDrop(e, steps, part, i, d, w))
            && (r.out.Returned? ==> r.out.driver == held && (held.Some? ==> r.w.hookDriver == held))
    decreases |steps| - i
  {
    if i < |steps| {
      var may, s, id := May(true, true, true), steps[i], [Segment(part, i)];
      var go, all := Condition(e, s, w), Hooks(e, steps, part, i, d, w);
      if go == Some(false) {
        HooksSettle(e, steps, part, i + 1, d, Emit(w, id, Skipped, s.stype, None));
      } else if go == Some(true) {
        var r := ExecChild(e, s, id, d, w);
        if r.out.Returned? {
          HooksAdd(may, e, steps, part, i + 1, r.out.driver, r.w);
          QuietBefore(may, r.w, all.w);
        }
        ChildSettles(e, s, id, d, w);
        HooksSettle(e, steps, part, i + 1, r.out.driver, r.w);
        Chained(w.browsers, d, r.w.browsers, r.out.driver, all.w.browsers, HooksHeld(e, steps, part, i, d, w),
                ChildDrops(e, s, id, d, w),
                HooksDrop(e, steps, part, i + 1, r.out.driver, r.w));
      }
    }
  }

  /** A main step whose browser is launched, from there on. */
  lemma LaunchedSettles(e: Env, s: Step, id: StepId, d: Driver, w: World, got: Tried, w': World)
    requires got == EnsureDriver(e, s.stype, d, w) && got.out.Returned?
    requires w' == got.w.(swallowed := None) && Quiet(Close(s, id, ExecStep(e, s, id, got.held, w')).w)
    ensures var r := Close(s, id, ExecStep(e, s, id, got.held, w'));
            r.out.Returned? && Settles(w.browsers, d, r.w.browsers, r.out.driver, StepDrops(e, s, id, got.held, w'))
  {
    EnsureSettles(e, s.stype, d, w);
    var r, drops := ExecStep(e, s, id, got.held, w'), StepDrops(e, s, id, got.held, w');
    CloseQuiet(s, id, r);
    StepSettles(e, s, id, got.held, w');
    ChainedAfter(w.browsers, d, w'.browsers, got.held, r.w.browsers, r.out.driver, drops);
  }

  lemma StuckSettles(e: Env, t: StepType, d: Driver, w: World)
    requires EnsureDriver(e, t, d, w).out.Raised?
    ensures EnsureDriver(e, t, d, w).w.browsers == w.browsers && d.None?
  {
  }

  lemma MainStepSettles(e: Env, s: Step, i: nat, d: Driver, w: World)
    requires Quiet(MainStep(e, s, i, d, w).w)
    ensures var m := MainStep(e, s, i, d, w);
            Settles(w.browsers, d, m.w.browsers, Kept(m.out, m.held), MainStepDrops(e, s, i, d, w))
  {
    var id := [Segment(InSteps, i)];
    var w0 := Emit(w, id, Started, s.stype, None);
    var got := EnsureDriver(e, s.stype, d, w0);
    if got.out.Raised? {
      StuckSettles(e, s.stype, d, w0);
    } else {
      LaunchedSettles(e, s, id, d, w0, got, got.w.(swallowed := None));
    }
  }

  lemma {:induction false} MainSettles(e: Env, steps: seq<Step>, i: nat, d: Driver, w: World)
    requires i <= |steps| && Quiet(MainSteps(e, steps, i, d, w).w)
    ensures var m := MainSteps(e, steps, i, d, w);
            Settles(w.browsers, d, m.w.browsers, m.held, MainDrops(e, steps, i, d, w))
    decreases |steps| - i
  {
    if i < |steps| {
      var go := Condition(e, steps[i], w);
      if go == Some(false) {
        MainSkips(e, steps, i, d, w);
        MainSettles(e, steps, i + 1, d, Emit(w, [Segment(InSteps, i)], Skipped, steps[i].stype, None));
      } else if go == Some(true) {
        var m := MainStep(e, steps[i], i, d, w);
        if m.out.Raised? {
          MainEnds(e, steps, i, d, w, m);
          MainStepSettles(e, steps[i], i, d, w);
        } else {
          MainStepIsQuiet(e, steps, i, d, w, m);
          MainStepSettles(e, steps[i], i, d, w);
          MainSettles(e, steps, i + 1, m.out.driver, m.w);
          MainGoesOn(e, steps, i, d, w, m, MainSteps(e, steps, i + 1, m.out.driver, m.w));
        }
      }
    }
  }

  lemma MainSkips(e: Env, steps: seq<Step>, i: nat, d: Driver, w: World)
    requires i < |steps| && Condition(e, steps[i], w) == Some(false)
    ensures var w' := Emit(w, [Segment(InSteps, i)], Skipped, steps[i].stype, None);
            && MainSteps(e, steps, i, d, w) == MainSteps(e, steps, i + 1, d, w')
            && MainDrops(e, steps, i, d, w) == MainDrops(e, steps, i + 1, d, w')
  {
  }

  lemma MainEnds(e: Env, steps: seq<Step>, i: nat, d: Driver, w: World, m: MainEnd)
    requires i < |steps| && Condition(e, steps[i], w) == Some(true)
    requires m == MainStep(e, steps[i], i, d, w) && m.out.Raised?
    ensures MainSteps(e, steps, i, d, w) == m && MainDrops(e, steps, i, d, w) == MainStepDrops(e, steps[i], i, d, w)
  {
    assert MainDrops(e, steps, i, d, w) == MainStepDrops(e, steps[i], i, d, w) + {};
  }

  /** A main step of quiet main steps is quiet. */
  lemma MainStepIsQuiet(e: Env, steps: seq<Step>, i: nat, d: Driver, w: World, m: MainEnd)
    requires i < |steps| && Condition(e, steps[i], w) == Some(true) && m == MainStep(e, steps[i], i, d, w)
    requires m.out.Returned? && Quiet(MainSteps(e, steps, i, d, w).w)
    ensures Quiet(m.w)
  {
    MainAdds(May(true, true, true), e, steps, i + 1, m.out.driver, m.w);
    QuietBefore(May(true, true, true), m.w, MainSteps(e, steps, i, d, w).w);
  }

  lemma MainGoesOn(e: Env, steps: seq<Step>, i: nat, d: Driver, w: World, m: MainEnd, rest: MainEnd)
    requires i < |steps| && Condition(e, steps[i], w) == Some(true) && m == MainStep(e, steps[i], i, d, w)
    requires m.out.Returned? && rest == MainSteps(e, steps, i + 1, m.out.driver, m.w)
    requires Settles(w.browsers, d, m.w.browsers, m.out.driver, MainStepDrops(e, steps[i], i, d, w))
    requires Settles(m.w.browsers, m.out.driver, rest.w.browsers, rest.held,
                     MainDrops(e, steps, i + 1, m.out.driver, m.w))
    ensures MainSteps(e, steps, i, d, w) == rest
    ensures Settles(w.browsers, d, rest.w.browsers, rest.held, MainDrops(e, steps, i, d, w))
  {
    Chained(w.browsers, d, m.w.browsers, m.out.driver, rest.w.browsers, rest.held,
            MainStepDrops(e, steps[i], i, d, w), MainDrops(e, steps, i + 1, m.out.driver, m.w));
  }

  /** The driver `run_task` holds after a list of hooks. */
  function Claimed(r: Result, d: Driver): Driver {
    if r.out.Raised? then d else HookedDriver(r.w, d)
  }

  /** The live browsers `run_task` does not hold after a list of hooks, `lost` being those
      before: also what nested steps dropped, and what the list itself held, unless it
      is, or is again, the driver `run_task` holds. */
  function HooksForget(e: Env, steps: seq<Step>, part: Part, d: Driver, w: World, lost: set<nat>): set<nat> {
    var r, held := Hooks(e, steps, part, 0, d, w), HooksHeld(e, steps, part, 0, d, w);
    (lost + HooksDrop(e, steps, part, 0, d, w) + Held(held) * Live(r.w.browsers)) - Held(Claimed(r, d))
  }

  function ErrorForgets(e: Env, sc: Scenario, error: Error, d: Driver, at: string, w: World, lost: set<nat>): set<nat> {
    HooksForget(e, sc.onFailure, OnFailure, d, Note(Note(w, "current_step", at), "error_message", e.text(error)), lost)
  }

  function ReturnForgets(e: Env, sc: Scenario, m: MainEnd, lost: set<nat>): set<nat>
    requires m.out.Returned?
  {
    var at := StepLabel(e, sc.steps, m.reached);
    var w := Note(m.w, "current_step", at);
    var r := Hooks(e, sc.onSuccess, OnSuccess, 0, m.held, w);
    var lost' := HooksForget(e, sc.onSuccess, OnSuccess, m.held, w, lost);
    if r.out.Raised? then ErrorForgets(e, sc, r.out.error, m.held, at, r.w, lost') else lost'
  }

  function BodyForgets(e: Env, sc: Scenario, w: World): set<nat> {
    var b := Hooks(e, sc.before, BeforeSteps, 0, None, w);
    var lost := HooksForget(e, sc.before, BeforeSteps, None, w, {});
    if b.out.Raised? then ErrorForgets(e, sc, b.out.error, None, StepLabel(e, sc.steps, 0), b.w, lost)
    else
      var d := HookedDriver(b.w, None);
      var m := MainSteps(e, sc.steps, 0, d, b.w);
      var lost' := lost + MainDrops(e, sc.steps, 0, d, b.w);
      if m.out.Raised? then ErrorForgets(e, sc, m.out.error, m.held, StepLabel(e, sc.steps, m.reached), m.w, lost')
      else ReturnForgets(e, sc, m, lost')
  }

  /** What a run forgets. An exception out of the finally hooks passes by the last quit. */
  function Forgotten(e: Env, sc: Scenario, ctx: Ctx): set<nat> {
    var p := Body(e, sc, Fresh(ctx));
    var w := Note(p.w, "current_step", p.at);
    var r := Hooks(e, sc.finallySteps, FinallyHooks, 0, p.held, w);
    HooksForget(e, sc.finallySteps, FinallyHooks, p.held, w, BodyForgets(e, sc, Fresh(ctx)))
    + if r.out.Raised? then Held(p.held) * Live(r.w.browsers) else {}
  }

  lemma HooksForgetExactly(e: Env, steps: seq<Step>, part: Part, d: Driver, w: World, lost: set<nat>)
    requires Others(w.browsers, d) == lost && Quiet(Hooks(e, steps, part, 0, d, w).w)
    ensures var r := Hooks(e, steps, part, 0, d, w);
            Others(r.w.browsers, Claimed(r, d)) == HooksForget(e, steps, part, d, w, lost)
  {
    HooksSettle(e, steps, part, 0, d, w);
    var r, held := Hooks(e, steps, part, 0, d, w), HooksHeld(e, steps, part, 0, d, w);
    assert Live(r.w.browsers) == Others(r.w.browsers, held) + Held(held) * Live(r.w.browsers);
  }

  lemma ErrorForgetsExactly(e: Env, sc: Scenario, error: Error, d: Driver, at: string, w: World, lost: set<nat>)
    requires Others(w.browsers, d) == lost && Quiet(OnError(e, sc, error, d, at, w).w)
    ensures var p := OnError(e, sc, error, d, at, w);
            Others(p.w.browsers, p.held) == ErrorForgets(e, sc, error, d, at, w, lost)
  {
    HooksForgetExactly(e, sc.onFailure, OnFailure, d,
                       Note(Note(w, "current_step", at), "error_message", e.text(error)), lost);
  }

  lemma ReturnForgetsExactly(e: Env, sc: Scenario, m: MainEnd, lost: set<nat>)
    requires m.out.Returned? && Others(m.w.browsers, m.held) == lost && Quiet(OnReturn(e, sc, m).w)
    ensures var p := OnReturn(e, sc, m); Others(p.w.browsers, p.held) == ReturnForgets(e, sc, m, lost)
  {
    var may, at := May(true, true, true), StepLabel(e, sc.steps, m.reached);
    var w := Note(m.w, "current_step", at);
    var r := Hooks(e, sc.onSuccess, OnSuccess, 0, m.held, w);
    if r.out.Raised? {
      ErrorPhaseAdds(may, e, sc, r.out.error, m.held, at, r.w);
      QuietBefore(may, r.w, OnReturn(e, sc, m).w);
    }
    HooksForgetExactly(e, sc.onSuccess, OnSuccess, m.held, w, lost);
    if r.out.Raised? {
      ErrorForgetsExactly(e, sc, r.out.error, m.held, at, r.w,
                          HooksForget(e, sc.onSuccess, OnSuccess, m.held, w, lost));
    }
  }

  lemma BodyForgetsExactly(e: Env, sc: Scenario, w: World)
    requires Live(w.browsers) == {} && Quiet(Body(e, sc, w).w)
    ensures var p := Body(e, sc, w); Others(p.w.browsers, p.held) == BodyForgets(e, sc, w)
  {
    BodyPartsQuiet(e, sc, w);
    var b := Hooks(e, sc.before, BeforeSteps, 0, None, w);
    var lost := HooksForget(e, sc.before, BeforeSteps, None, w, {});
    HooksForgetExactly(e, sc.before, BeforeSteps, None, w, {});
    if b.out.Raised? {
      ErrorForgetsExactly(e, sc, b.out.error, None, StepLabel(e, sc.steps, 0), b.w, lost);
    } else {
      var d := HookedDriver(b.w, None);
      var m := MainSteps(e, sc.steps, 0, d, b.w);
      MainSettles(e, sc.steps, 0, d, b.w);
      var lost' := lost + MainDrops(e, sc.steps, 0, d, b.w);
      if m.out.Raised? {
        ErrorForgetsExactly(e, sc, m.out.error, m.held, StepLabel(e, sc.steps, m.reached), m.w, lost');
      } else {
        ReturnForgetsExactly(e, sc, m, lost');
      }
    }
  }

  /** The parts of a quiet body are quiet. */
  lemma BodyPartsQuiet(e: Env, sc: Scenario, w: World)
    requires Quiet(Body(e, sc, w).w)
    ensures var b := Hooks(e, sc.before, BeforeSteps, 0, None, w);
            Quiet(b.w) && (b.out.Returned? ==> Quiet(MainSteps(e, sc.steps, 0, HookedDriver(b.w, None), b.w).w))
  {
    var may, p := May(true, true, true), Body(e, sc, w);
    var b := Hooks(e, sc.before, BeforeSteps, 0, None, w);
    if b.out.Raised? {
      ErrorPhaseAdds(may, e, sc, b.out.error, None, StepLabel(e, sc.steps, 0), b.w);
      QuietBefore(may, b.w, p.w);
    } else {
      var d := HookedDriver(b.w, None);
      var m := MainSteps(e, sc.steps, 0, d, b.w);
      MainAdds(may, e, sc.steps, 0, d, b.w);
      if m.out.Raised? {
        ErrorPhaseAdds(may, e, sc, m.out.error, m.held, StepLabel(e, sc.steps, m.reached), m.w);
      } else {
        ReturnPhaseAdds(may, e, sc, m);
      }
      QuietBefore(may, m.w, p.w);
      QuietBefore(may, b.w, m.w);
    }
  }

  /** The browsers a run without an error-level failure leaves live are exactly those it
      forgets: the ones its nested steps were handed when they were skipped, and the ones
      a list of hooks held when it was left on a condition that cannot be evaluated, but
      for those that `run_task` holds, or reads back from the context, after the hooks. */
  lemma QuietRunsLeaveTheForgotten(e: Env, sc: Scenario, ctx: Ctx)
    requires Quiet(RunTask(e, sc, ctx).w)
    ensures Live(RunTask(e, sc, ctx).w.browsers) == Forgotten(e, sc, ctx)
  {
    var may, p, run := May(true, true, true), Body(e, sc, Fresh(ctx)), RunTask(e, sc, ctx);
    var w, lost := Note(p.w, "current_step", p.at), BodyForgets(e, sc, Fresh(ctx));
    FinallyAdds(may, e, sc, p);
    QuietBefore(may, p.w, run.w);
    BodyForgetsExactly(e, sc, Fresh(ctx));
    var r := Hooks(e, sc.finallySteps, FinallyHooks, 0, p.held, w);
    HooksForgetExactly(e, sc.finallySteps, FinallyHooks, p.held, w, lost);
    var d := Claimed(r, p.held);
    if r.out.Returned? && d.Some? {
      assert (r.w.browsers + [Quit(d.value)])[..|r.w.browsers|] == r.w.browsers;
      assert Live(run.w.browsers) == Live(r.w.browsers) - {d.value};
    } else if r.out.Raised? {
      assert Live(r.w.browsers) == Others(r.w.browsers, p.held) + Held(p.held) * Live(r.w.browsers);
    }
  }

  // ---------------------------------------------------------------- runs that keep all they hold

  /** A list of hooks that returns and drops nothing on the way. */
  ghost predicate HooksKeep(e: Env, steps: seq<Step>, part: Part, d: Driver, w: World) {
    Hooks(e, steps, part, 0, d, w).out.Returned? && HooksDrop(e, steps, part, 0, d, w) == {}
  }

  ghost predicate BodyKeeps(e: Env, sc: Scenario, w: World) {
    var b := Hooks(e, sc.before, BeforeSteps, 0, None, w);
    var d := HookedDriver(b.w, None);
    var m := MainSteps(e, sc.steps, 0, d, b.w);
    var w' := Note(m.w, "current_step", StepLabel(e, sc.steps, m.reached));
    && HooksKeep(e, sc.before, BeforeSteps, None, w)
    && MainDrops(e, sc.steps, 0, d, b.w) == {}
    && (m.out.Returned? ==> HooksKeep(e, sc.onSuccess, OnSuccess, m.held, w'))
    && (m.out.Raised? ==> HooksKeep(e, sc.onFailure, OnFailure, m.held, Note(w', "error_message", e.text(m.out.error))))
  }

  ghost predicate Keeps(e: Env, sc: Scenario, ctx: Ctx) {
    var p := Body(e, sc, Fresh(ctx));
    BodyKeeps(e, sc, Fresh(ctx)) && HooksKeep(e, sc.finallySteps, FinallyHooks, p.held, Note(p.w, "current_step", p.at))
  }

  /** Whoever holds `d` holds every live browser, and there never were two. */
  ghost predicate Owned(w: World, d: Driver) {
    Others(w.browsers, d) == {} && OneAtATime(w.browsers)
  }

  lemma HooksOwned(e: Env, steps: seq<Step>, part: Part, d: Driver, w: World)
    requires Owned(w, d) && HooksKeep(e, steps, part, d, w) && Quiet(Hooks(e, steps, part, 0, d, w).w)
    ensures var r := Hooks(e, steps, part, 0, d, w); Owned(r.w, HookedDriver(r.w, d))
  {
    HooksSettle(e, steps, part, 0, d, w);
  }

  lemma BodyOwned(e: Env, sc: Scenario, w: World)
    requires Owned(w, None) && BodyKeeps(e, sc, w) && Quiet(Body(e, sc, w).w)
    ensures var p := Body(e, sc, w); Owned(p.w, p.held)
  {
    BodyPartsQuiet(e, sc, w);
    HooksOwned(e, sc.before, BeforeSteps, None, w);
    var b := Hooks(e, sc.before, BeforeSteps, 0, None, w);
    var d := HookedDriver(b.w, None);
    MainSettles(e, sc.steps, 0, d, b.w);
    var m := MainSteps(e, sc.steps, 0, d, b.w);
    var w' := Note(m.w, "current_step", StepLabel(e, sc.steps, m.reached));
    if m.out.Returned? {
      HooksOwned(e, sc.onSuccess, OnSuccess, m.held, w');
    } else {
      HooksOwned(e, sc.onFailure, OnFailure, m.held, Note(w', "error_message", e.text(m.out.error)));
    }
  }

  /** A run without an error-level failure that keeps all it holds has at most one live
      browser at any moment, and has told every browser to quit by the end. */
  lemma KeepingRunsConserve(e: Env, sc: Scenario, ctx: Ctx)
    requires Keeps(e, sc, ctx) && Quiet(RunTask(e, sc, ctx).w)
    ensures var log := RunTask(e, sc, ctx).w.browsers;
            Live(log) == {} && forall k :: 0 <= k <= |log| ==> |Live(log[..k])| <= 1
  {
    var may, p, run := May(true, true, true), Body(e, sc, Fresh(ctx)), RunTask(e, sc, ctx);
    var w := Note(p.w, "current_step", p.at);
    FinallyAdds(may, e, sc, p);
    QuietBefore(may, p.w, run.w);
    BodyOwned(e, sc, Fresh(ctx));
    var r := Hooks(e, sc.finallySteps, FinallyHooks, 0, p.held, w);
    HooksOwned(e, sc.finallySteps, FinallyHooks, p.held, w);
    var d := HookedDriver(r.w, p.held);
    if d.Some? { QuitSettles(r.w.browsers, d.value, None); }
    var all := run.w.browsers;
    forall k | 0 <= k <= |all| ensures |Live(all[..k])| <= 1 {
      OneAtEveryMoment(all, k);
    }
  }

  /** No step inside a group, repeat or try block carries `when`. */
  ghost predicate Plain(s: Step) {
    && (s.stype.Group? || s.stype.Repeat? ==> AllPlain(s.steps))
    && (s.stype.Try? ==> AllPlain(s.trySteps) && AllPlain(s.catchSteps) && AllPlain(s.finallySteps))
  }

  ghost predicate AllPlain(steps: seq<Step>) {
    forall i :: 0 <= i < |steps| ==> steps[i].ctl.when.None? && Plain(steps[i])
  }

  ghost predicate PlainHooks(e: Env, steps: seq<Step>) {
    forall i :: 0 <= i < |steps| ==> Plain(steps[i]) && Evaluable(steps[i].ctl.when, e.search)
  }

  /** Conditions only on top-level steps, and those of hooks always evaluable. */
  ghost predicate PlainScenario(e: Env, sc: Scenario) {
    && PlainHooks(e, sc.before) && PlainHooks(e, sc.onSuccess) && PlainHooks(e, sc.onFailure)
    && PlainHooks(e, sc.finallySteps)
    && forall i :: 0 <= i < |sc.steps| ==> Plain(sc.steps[i])
  }

  lemma {:induction false} PlainAttemptsDropNothing(e: Env, s: Step, id: StepId, k: nat, d: Driver, w: World)
    requires Plain(s) && k < s.Attempts()
    ensures AttemptsDrop(e, s, id, k, d, w) == {}
    decreases s, 3, s.Attempts() - k
  {
    match s.stype {
      case Group => PlainSequenceDropsNothing(e, s.steps, InGroup, 0, id, d, w);
      case Repeat => PlainRepeatDropsNothing(e, s, s.times, id, d, w);
      case Try =>
        var t := Sequence(e, s.trySteps, InTry, 0, id, d, w);
        PlainSequenceDropsNothing(e, s.trySteps, InTry, 0, id, d, w);
        if t.out.Returned? { PlainSequenceDropsNothing(e, s.finallySteps, InFinally, 0, id, t.out.driver, t.w); }
      case _ =>
    }
    assert BlockDrops(e, s, id, d, w) == {};
    var a := Attempt(e, s, id, d, w);
    if a.out.Raised? && k + 1 < s.Attempts() {
      PlainAttemptsDropNothing(e, s, id, k + 1, a.held, Retry(s, id, k, a.out.error, a.w));
    }
  }

  lemma {:induction false} PlainSequenceDropsNothing(e: Env, steps: seq<Step>, part: Part, i: nat, id: StepId,
                                                     d: Driver, w: World)
    requires i <= |steps| && AllPlain(steps)
    ensures SequenceDrops(e, steps, part, i, id, d, w) == {}
    decreases steps, 0, |steps| - i
  {
    if i < |steps| {
      var s, cid := steps[i], ChildId(id, part, i);
      var r := ExecChild(e, s, cid, d, w);
      PlainAttemptsDropNothing(e, s, cid, 0, d, Start(w, cid, s.stype));
      assert Condition(e, s, Start(w, cid, s.stype)) == Some(true);
      assert ChildDrops(e, s, cid, d, w) == {};
      if r.out.Returned? { PlainSequenceDropsNothing(e, steps, part, i + 1, id, r.out.driver, r.w); }
    }
  }

  lemma {:induction false} PlainRepeatDropsNothing(e: Env, s: Step, times: int, id: StepId, d: Driver, w: World)
    requires AllPlain(s.steps)
    ensures RepeatDrops(e, s, times, id, d, w) == {}
    decreases s, 0, if times > 0 then times else 0
  {
    if times > 0 {
      var r := Sequence(e, s.steps, InRepeat, 0, id, d, w);
      PlainSequenceDropsNothing(e, s.steps, InRepeat, 0, id, d, w);
      if r.out.Returned? { PlainRepeatDropsNothing(e, s, times - 1, id, r.out.driver, r.w); }
    }
  }

  lemma {:induction false} PlainHooksKeep(e: Env, steps: seq<Step>, part: Part, i: nat, d: Driver, w: World)
    requires i <= |steps| && PlainHooks(e, steps) && Quiet(Hooks(e, steps, part, i, d, w).w)
    ensures Hooks(e, steps, part, i, d, w).out.Returned? && HooksDrop(e, steps, part, i, d, w) == {}
    decreases |steps| - i
  {
    if i < |steps| {
      var s, id := steps[i], [Segment(part, i)];
      var go := Condition(e, s, w);
      EvaluableNeverRaises(s.ctl.when, e.search);
      if go == Some(false) {
        PlainHooksKeep(e, steps, part, i + 1, d, Emit(w, id, Skipped, s.stype, None));
      } else {
        var w', r := Start(w, id, s.stype), ExecChild(e, s, id, d, w);
        PlainAttemptsDropNothing(e, s, id, 0, d, w');
        assert Condition(e, s, w') == Some(true);
        CloseQuiet(s, id, ExecStep(e, s, id, d, w'));
        assert ChildDrops(e, s, id, d, w) == {};
        if r.out.Returned? { PlainHooksKeep(e, steps, part, i + 1, r.out.driver, r.w); }
      }
    }
  }

  lemma {:induction false} PlainMainDropsNothing(e: Env, steps: seq<Step>, i: nat, d: Driver, w: World)
    requires i <= |steps| && forall j :: 0 <= j < |steps| ==> Plain(steps[j])
    ensures MainDrops(e, steps, i, d, w) == {}
    decreases |steps| - i
  {
    if i < |steps| {
      var s, id := steps[i], [Segment(InSteps, i)];
      var go := Condition(e, s, w);
      if go == Some(false) {
        PlainMainDropsNothing(e, steps, i + 1, d, Emit(w, id, Skipped, s.stype, None));
      } else if go == Some(true) {
        var m := MainStep(e, s, i, d, w);
        var got := EnsureDriver(e, s.stype, d, Emit(w, id, Started, s.stype, None));
        var w' := got.w.(swallowed := None);
        assert Condition(e, s, w') == Some(true);
        PlainAttemptsDropNothing(e, s, id, 0, got.held, w');
        if m.out.Returned? { PlainMainDropsNothing(e, steps, i + 1, m.out.driver, m.w); }
      }
    }
  }

  lemma PlainBodyKeeps(e: Env, sc: Scenario, w: World)
    requires PlainScenario(e, sc) && Quiet(Body(e, sc, w).w)
    ensures BodyKeeps(e, sc, w)
  {
    BodyPartsQuiet(e, sc, w);
    PlainHooksKeep(e, sc.before, BeforeSteps, 0, None, w);
    var b := Hooks(e, sc.before, BeforeSteps, 0, None, w);
    var d := HookedDriver(b.w, None);
    PlainMainDropsNothing(e, sc.steps, 0, d, b.w);
    var m := MainSteps(e, sc.steps, 0, d, b.w);
    var at := StepLabel(e, sc.steps, m.reached);
    var w' := Note(m.w, "current_step", at);
    if m.out.Raised? {
      PlainHooksKeep(e, sc.onFailure, OnFailure, 0, m.held, Note(w', "error_message", e.text(m.out.error)));
    } else {
      var r := Hooks(e, sc.onSuccess, OnSuccess, 0, m.held, w');
      if r.out.Raised? {
        ErrorPhaseAdds(May(true, true, true), e, sc, r.out.error, m.held, at, r.w);
        QuietBefore(May(true, true, true), r.w, Body(e, sc, w).w);
      }
      PlainHooksKeep(e, sc.onSuccess, OnSuccess, 0, m.held, w');
    }
  }

  /** So is every run without an error-level failure of a scenario with conditions only
      on top-level steps, those of hooks evaluable. */
  lemma BrowsersAreConserved(e: Env, sc: Scenario, ctx: Ctx)
    requires PlainScenario(e, sc) && Quiet(RunTask(e, sc, ctx).w)
    ensures var log := RunTask(e, sc, ctx).w.browsers;
            Live(log) == {} && forall k :: 0 <= k <= |log| ==> |Live(log[..k])| <= 1
  {
    var may, p := May(true, true, true), Body(e, sc, Fresh(ctx));
    FinallyAdds(may, e, sc, p);
    QuietBefore(may, p.w, RunTask(e, sc, ctx).w);
    PlainBodyKeeps(e, sc, Fresh(ctx));
    PlainHooksKeep(e, sc.finallySteps, FinallyHooks, 0, p.held, Note(p.w, "current_step", p.at));
    KeepingRunsConserve(e, sc, ctx);
  }
}
