/** Clean-up steps run in every case: those of a try block however its other parts end,
    and the finally hooks of a scenario however the run ends. */
module CleanUp {
  import opened Wrappers
  import opened Steps
  import opened Conditions
  import opened Interpreter
  import opened Footprint

  /** An event about this step was added to the trace after `w`. */
  ghost predicate Seen(w: World, w': World, id: StepId, kind: EventKind) {
    exists k :: |w.trace| <= k < |w'.trace| && w'.trace[k].id == id && w'.trace[k].kind == kind
  }

  lemma SeenLater(w: World, w': World, w'': World, id: StepId, kind: EventKind)
    requires Seen(w, w', id, kind) && w'.trace <= w''.trace
    ensures Seen(w, w'', id, kind)
  {
    var k :| |w.trace| <= k < |w'.trace| && w'.trace[k].id == id && w'.trace[k].kind == kind;
    assert w''.trace[k] == w'.trace[k];
  }

  lemma SeenSince(w0: World, w: World, w': World, id: StepId, kind: EventKind)
    requires Seen(w, w', id, kind) && w0.trace <= w.trace
    ensures Seen(w0, w', id, kind)
  {
    var k :| |w.trace| <= k < |w'.trace| && w'.trace[k].id == id && w'.trace[k].kind == kind;
  }

  /** A non-empty sequence starts its first child. */
  lemma SequenceStarts(e: Env, steps: seq<Step>, part: Part, id: StepId, d: Driver, w: World)
    requires steps != []
    ensures Seen(w, Sequence(e, steps, part, 0, id, d, w).w, ChildId(id, part, 0), EventKind.Started)
  {
    var may, s, cid := May(true, true, true), steps[0], ChildId(id, part, 0);
    var w' := Start(w, cid, s.stype);
    assert w'.trace[|w.trace|] == Event(cid, EventKind.Started, s.stype, None);
    assert Seen(w, w', cid, EventKind.Started);
    StepAdds(may, e, s, cid, d, w');
    var r := ExecChild(e, s, cid, d, w);
    CloseAdds(may, s, cid, ExecStep(e, s, cid, d, w'), w', w');
    if r.out.Returned? { SequenceAdds(may, e, steps, part, 1, id, r.out.driver, r.w); }
    SeenLater(w, w', Sequence(e, steps, part, 0, id, d, w).w, cid, EventKind.Started);
  }

  /** The finally part of a try block starts whether the try part returned, raised and
      was caught, or raised out of the block. */
  lemma FinallyAlwaysStarts(e: Env, s: Step, id: StepId, d: Driver, w: World)
    requires s.finallySteps != []
    ensures var r := TryBlock(e, s, id, d, w); Seen(w, r.w, ChildId(id, InFinally, 0), EventKind.Started)
  {
    var may, t, c := May(true, true, true), Sequence(e, s.trySteps, InTry, 0, id, d, w), TryCatch(e, s, id, d, w);
    SequenceAdds(may, e, s.trySteps, InTry, 0, id, d, w);
    if t.out.Raised? {
      var w' := Note(t.w, "error_message", e.text(t.out.error));
      SequenceAdds(may, e, s.catchSteps, InCatch, 0, id, d, w');
    }
    var fd := if c.out.Returned? then c.out.driver else d;
    SequenceStarts(e, s.finallySteps, InFinally, id, fd, c.w);
    SeenSince(w, c.w, TryBlock(e, s, id, d, w).w, ChildId(id, InFinally, 0), EventKind.Started);
  }

  /** A hook list whose first condition can be evaluated reports on its first step. */
  lemma HooksBegin(e: Env, steps: seq<Step>, part: Part, d: Driver, w: World)
    requires steps != [] && Evaluable(steps[0].ctl.when, e.search)
    ensures var w', id := Hooks(e, steps, part, 0, d, w).w, [Segment(part, 0)];
            Seen(w, w', id, EventKind.Started) || Seen(w, w', id, Skipped)
  {
    var may, s, id := May(true, true, true), steps[0], [Segment(part, 0)];
    var all := Hooks(e, steps, part, 0, d, w).w;
    EvaluableNeverRaises(s.ctl.when, e.search);
    if Condition(e, s, w) == Some(false) {
      var w' := Emit(w, id, Skipped, s.stype, None);
      assert w'.trace[|w.trace|] == Event(id, Skipped, s.stype, None);
      assert Seen(w, w', id, Skipped);
      HooksAdd(may, e, steps, part, 1, d, w');
      SeenLater(w, w', all, id, Skipped);
    } else {
      var w' := Start(w, id, s.stype);
      assert w'.trace[|w.trace|] == Event(id, EventKind.Started, s.stype, None);
      assert Seen(w, w', id, EventKind.Started);
      StepAdds(may, e, s, id, d, w');
      var r := ExecChild(e, s, id, d, w);
      CloseAdds(may, s, id, ExecStep(e, s, id, d, w'), w', w');
      if r.out.Returned? { HooksAdd(may, e, steps, part, 1, r.out.driver, r.w); }
      SeenLater(w, w', all, id, EventKind.Started);
    }
  }

  /** Every run comes to its finally hooks, however its main steps and the other hooks
      end, also when hooks of the except clause raise. */
  lemma FinallyHooksAlwaysBegin(e: Env, sc: Scenario, ctx: Ctx)
    requires sc.finallySteps != [] && Evaluable(sc.finallySteps[0].ctl.when, e.search)
    ensures var w, id := RunTask(e, sc, ctx).w, [Segment(FinallyHooks, 0)];
            Seen(Fresh(ctx), w, id, EventKind.Started) || Seen(Fresh(ctx), w, id, Skipped)
  {
    var p := Body(e, sc, Fresh(ctx));
    HooksBegin(e, sc.finallySteps, FinallyHooks, p.held, Note(p.w, "current_step", p.at));
  }
}
