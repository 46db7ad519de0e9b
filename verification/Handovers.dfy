/** How the context travels: what one handler leaves is what the next one, and every
    condition in between, reads, but for the keys the engine writes itself. */
module Handovers {
  import opened Wrappers
  import opened Steps
  import opened Conditions
  import opened Interpreter

  /** The keys the engine writes when it swallows an error. */
  const SWALLOW_NOTES: set<string> := {"error_message", "last_error_message", "last_error_step"}

  /** All keys the engine writes. */
  const NOTES: set<string> := SWALLOW_NOTES + {"current_step", "__driver__"}

  /** No parallel block in the tree, and the engine writes no other keys than these in it. */
  ghost predicate Serial(notes: set<string>, s: Step) {
    && !s.stype.Parallel?
    && (s.ctl.continueOnError ==> SWALLOW_NOTES <= notes)
    && (s.stype.Group? || s.stype.Repeat? ==> AllSerial(notes, s.steps))
    && (s.stype.Try? ==>
          && "error_message" in notes && AllSerial(notes, s.trySteps)
          && AllSerial(notes, s.catchSteps) && AllSerial(notes, s.finallySteps))
  }

  ghost predicate AllSerial(notes: set<string>, steps: seq<Step>) {
    forall i :: 0 <= i < |steps| ==> Serial(notes, steps[i])
  }

  ghost predicate ScenarioSerial(sc: Scenario) {
    && AllSerial(NOTES, sc.before) && AllSerial(NOTES, sc.steps) && AllSerial(NOTES, sc.onSuccess)
    && AllSerial(NOTES, sc.onFailure) && AllSerial(NOTES, sc.finallySteps)
  }

  /** Equal but for these keys. */
  predicate SameOff(notes: set<string>, a: Ctx, b: Ctx) {
    a - notes == b - notes
  }

  /** The context after these calls: what the last handler left, or the first context. */
  function Left(e: Env, first: Ctx, calls: seq<Call>): Ctx {
    if calls == [] then first else e.reply(calls).ctx
  }

  /** Every call was shown what the call before it left, and what the last one left is the
      context now. */
  ghost predicate HandedOn(e: Env, notes: set<string>, first: Ctx, w: World) {
    && SameOff(notes, w.ctx, Left(e, first, w.calls))
    && forall k :: 0 <= k < |w.calls| ==> SameOff(notes, w.calls[k].view, Left(e, first, w.calls[..k]))
  }

  /** A note changes nothing else. */
  lemma NoteHandsOn(e: Env, notes: set<string>, first: Ctx, w: World, key: string, value: string)
    requires HandedOn(e, notes, first, w) && key in notes
    ensures HandedOn(e, notes, first, Note(w, key, value))
  {
    assert w.ctx[key := value] - notes == w.ctx - notes;
  }

  lemma OneMoreCall(e: Env, notes: set<string>, first: Ctx, w: World, call: Call, w': World)
    requires HandedOn(e, notes, first, w) && SameOff(notes, call.view, w.ctx)
    requires w'.calls == w.calls + [call] && w'.ctx == e.reply(w'.calls).ctx
    ensures HandedOn(e, notes, first, w')
  {
    var n := |w.calls|;
    assert w'.calls[..n] == w.calls && w'.calls[n] == call;
    forall k | 0 <= k < |w'.calls| ensures SameOff(notes, w'.calls[k].view, Left(e, first, w'.calls[..k])) {
      if k < n { assert w'.calls[k] == w.calls[k] && w'.calls[..k] == w.calls[..k]; }
    }
  }

  lemma InvokeHandsOn(e: Env, notes: set<string>, first: Ctx, s: Step, d: Driver, w: World)
    requires HandedOn(e, notes, first, w) && "__driver__" in notes
    ensures HandedOn(e, notes, first, Invoke(e, s, d, w).w)
  {
    if HasHandler(s.stype) {
      var call := Call(s.stype, s.payload, d, View(e, w), e.dryRun, s.ctl.timeout);
      assert call.view - notes == w.ctx - notes;
      OneMoreCall(e, notes, first, w, call, Invoke(e, s, d, w).w);
    }
  }

  lemma AtomicHandsOn(e: Env, notes: set<string>, first: Ctx, s: Step, d: Driver, w: World)
    requires HandedOn(e, notes, first, w) && "__driver__" in notes
    ensures HandedOn(e, notes, first, AtomicAttempt(e, s, d, w).w)
  {
    var got := EnsureDriver(e, s.stype, d, w);
    if got.out.Returned? { InvokeHandsOn(e, notes, first, s, got.held, got.w); }
  }

  // ---------------------------------------------------------------- the step tree

  lemma {:induction false} StepHandsOn(e: Env, notes: set<string>, first: Ctx, s: Step, id: StepId, d: Driver, w: World)
    requires HandedOn(e, notes, first, w) && "__driver__" in notes && Serial(notes, s)
    ensures HandedOn(e, notes, first, ExecStep(e, s, id, d, w).w)
    decreases s, 4, 0
  {
    if Condition(e, s, w) == Some(true) { AttemptsHandOn(e, notes, first, s, id, 0, d, w); }
  }

  lemma {:induction false} AttemptsHandOn(e: Env, notes: set<string>, first: Ctx, s: Step, id: StepId, k: nat,
                                          d: Driver, w: World)
    requires HandedOn(e, notes, first, w) && "__driver__" in notes && Serial(notes, s) && k < s.Attempts()
    ensures HandedOn(e, notes, first, Attempts(e, s, id, k, d, w).w)
    decreases s, 3, s.Attempts() - k
  {
    var a := Attempt(e, s, id, d, w);
    if IsAtomic(s.stype) {
      AtomicHandsOn(e, notes, first, s, d, w);
    } else {
      BlockHandsOn(e, notes, first, s, id, d, w);
    }
    if a.out.Raised? {
      if k + 1 < s.Attempts() {
        AttemptsHandOn(e, notes, first, s, id, k + 1, a.held, Retry(s, id, k, a.out.error, a.w));
      } else {
        ExhaustedHandsOn(e, notes, first, s, id, a.out.error, a.held, a.w);
      }
    }
  }

  lemma ExhaustedHandsOn(e: Env, notes: set<string>, first: Ctx, s: Step, id: StepId, error: Error, d: Driver, w: World)
    requires HandedOn(e, notes, first, w) && Serial(notes, s)
    ensures HandedOn(e, notes, first, Exhausted(e, s, id, error, d, w).w)
  {
    if s.ctl.continueOnError {
      var text := e.text(error);
      var w1 := Note(w, "error_message", text);
      var w2 := Note(w1, "last_error_message", text);
      NoteHandsOn(e, notes, first, w, "error_message", text);
      NoteHandsOn(e, notes, first, w1, "last_error_message", text);
      NoteHandsOn(e, notes, first, w2, "last_error_step", Name(s.stype));
    }
  }

  lemma {:induction false} BlockHandsOn(e: Env, notes: set<string>, first: Ctx, s: Step, id: StepId, d: Driver,
                                        w: World)
    requires HandedOn(e, notes, first, w) && "__driver__" in notes && Serial(notes, s)
    ensures HandedOn(e, notes, first, ExecBlock(e, s, id, d, w).w)
    decreases s, 1, 0
  {
    match s.stype
    case Group => SequenceHandsOn(e, notes, first, s.steps, InGroup, 0, id, d, w);
    case Repeat => RepeatHandsOn(e, notes, first, s, s.times, id, d, w);
    case Try => TryHandsOn(e, notes, first, s, id, d, w);
    case _ =>
  }

  /** A sequence hands the context on unchanged but for the keys the engine writes in it: with
      no step in it that continues on error and no try block, for none but `__driver__`. */
  lemma {:induction false} SequenceHandsOn(e: Env, notes: set<string>, first: Ctx, steps: seq<Step>, part: Part, i: nat,
                                           id: StepId, d: Driver, w: World)
    requires HandedOn(e, notes, first, w) && "__driver__" in notes && i <= |steps| && AllSerial(notes, steps)
    ensures HandedOn(e, notes, first, Sequence(e, steps, part, i, id, d, w).w)
    decreases steps, 0, |steps| - i
  {
    if i < |steps| {
      var s, cid := steps[i], ChildId(id, part, i);
      StepHandsOn(e, notes, first, s, cid, d, Start(w, cid, s.stype));
      var r := ExecChild(e, s, cid, d, w);
      if r.out.Returned? { SequenceHandsOn(e, notes, first, steps, part, i + 1, id, r.out.driver, r.w); }
    }
  }

  lemma {:induction false} RepeatHandsOn(e: Env, notes: set<string>, first: Ctx, s: Step, times: int, id: StepId,
                                         d: Driver, w: World)
    requires HandedOn(e, notes, first, w) && "__driver__" in notes && AllSerial(notes, s.steps)
    ensures HandedOn(e, notes, first, RepeatBlock(e, s, times, id, d, w).w)
    decreases s, 0, if times > 0 then times else 0
  {
    if times > 0 {
      var r := Sequence(e, s.steps, InRepeat, 0, id, d, w);
      SequenceHandsOn(e, notes, first, s.steps, InRepeat, 0, id, d, w);
      if r.out.Returned? { RepeatHandsOn(e, notes, first, s, times - 1, id, r.out.driver, r.w); }
    }
  }

  lemma {:induction false} TryHandsOn(e: Env, notes: set<string>, first: Ctx, s: Step, id: StepId, d: Driver, w: World)
    requires HandedOn(e, notes, first, w) && "__driver__" in notes && Serial(notes, s) && s.stype.Try?
    ensures HandedOn(e, notes, first, TryBlock(e, s, id, d, w).w)
    decreases s, 0, 1
  {
    var t, r := Sequence(e, s.trySteps, InTry, 0, id, d, w), TryCatch(e, s, id, d, w);
    SequenceHandsOn(e, notes, first, s.trySteps, InTry, 0, id, d, w);
    if t.out.Raised? {
      var w' := Note(t.w, "error_message", e.text(t.out.error));
      NoteHandsOn(e, notes, first, t.w, "error_message", e.text(t.out.error));
      SequenceHandsOn(e, notes, first, s.catchSteps, InCatch, 0, id, d, w');
    }
    assert HandedOn(e, notes, first, r.w);
    var fd := if r.out.Returned? then r.out.driver else d;
    SequenceHandsOn(e, notes, first, s.finallySteps, InFinally, 0, id, fd, r.w);
  }

  // ---------------------------------------------------------------- main steps and hooks

  lemma ChildHandsOn(e: Env, notes: set<string>, first: Ctx, s: Step, id: StepId, d: Driver, w: World)
    requires HandedOn(e, notes, first, w) && "__driver__" in notes && Serial(notes, s)
    ensures HandedOn(e, notes, first, ExecChild(e, s, id, d, w).w)
  {
    StepHandsOn(e, notes, first, s, id, d, Start(w, id, s.stype));
  }

  lemma {:induction false} HooksHandOn(e: Env, first: Ctx, steps: seq<Step>, part: Part, i: nat, d: Driver, w: World)
    requires HandedOn(e, NOTES, first, w) && i <= |steps| && AllSerial(NOTES, steps)
    ensures HandedOn(e, NOTES, first, Hooks(e, steps, part, i, d, w).w)
    decreases |steps| - i
  {
    if i < |steps| {
      var s, id := steps[i], [Segment(part, i)];
      var go := Condition(e, s, w);
      if go == Some(false) {
        HooksHandOn(e, first, steps, part, i + 1, d, Emit(w, id, Skipped, s.stype, None));
      } else if go == Some(true) {
        ChildHandsOn(e, NOTES, first, s, id, d, w);
        var r := ExecChild(e, s, id, d, w);
        if r.out.Returned? { HooksHandOn(e, first, steps, part, i + 1, r.out.driver, r.w); }
      }
    }
  }

  lemma MainStepHandsOn(e: Env, first: Ctx, s: Step, i: nat, d: Driver, w: World)
    requires HandedOn(e, NOTES, first, w) && Serial(NOTES, s)
    ensures HandedOn(e, NOTES, first, MainStep(e, s, i, d, w).w)
  {
    var id := [Segment(InSteps, i)];
    var got := EnsureDriver(e, s.stype, d, Emit(w, id, Started, s.stype, None));
    if got.out.Returned? { StepHandsOn(e, NOTES, first, s, id, got.held, got.w.(swallowed := None)); }
  }

  lemma {:induction false} MainHandsOn(e: Env, first: Ctx, steps: seq<Step>, i: nat, d: Driver, w: World)
    requires HandedOn(e, NOTES, first, w) && i <= |steps| && AllSerial(NOTES, steps)
    ensures HandedOn(e, NOTES, first, MainSteps(e, steps, i, d, w).w)
    decreases |steps| - i
  {
    if i < |steps| {
      var s, id := steps[i], [Segment(InSteps, i)];
      var go := Condition(e, s, w);
      if go == Some(false) {
        MainHandsOn(e, first, steps, i + 1, d, Emit(w, id, Skipped, s.stype, None));
      } else if go == Some(true) {
        MainStepHandsOn(e, first, s, i, d, w);
        var m := MainStep(e, s, i, d, w);
        if m.out.Returned? { MainHandsOn(e, first, steps, i + 1, m.out.driver, m.w); }
      }
    }
  }
}
