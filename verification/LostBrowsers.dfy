/** Lost browsers: one that no driver names is never told to quit, whatever the rest of
    the run does. A skipped step inside a block loses the browser it is handed, a step
    that raises loses the browsers it launched, and a list of hooks loses the one it holds
    when a condition cannot be evaluated. */
module LostBrowsers {
  import opened Wrappers
  import opened Steps
  import opened Conditions
  import opened Interpreter
  import opened ParallelBlocks
  import opened BrowserLogs
  import opened Browsers

  /** A live browser that the driver passed on does not name. */
  ghost predicate Adrift(b: nat, d: Driver, w: World) {
    b in Live(w.browsers) && b < |w.browsers| && d != Some(b)
  }

  /** ... and the context does not name it either. */
  ghost predicate Lost(b: nat, d: Driver, w: World) {
    Adrift(b, d, w) && w.hookDriver != Some(b)
  }

  /** What a piece of a run does for a browser launched before it: it stays adrift, or
      dead, and the context names the browser it named. */
  ghost predicate Drifts(b: nat, d: Driver, w: World, d': Driver, w': World) {
    && w'.hookDriver == w.hookDriver && |w.browsers| <= |w'.browsers|
    && (Adrift(b, d, w) ==> Adrift(b, d', w'))
    && (b < |w.browsers| && b !in Live(w.browsers) ==> b !in Live(w'.browsers))
  }

  lemma LiveAfter(log: seq<BrowserEvent>, event: BrowserEvent)
    ensures Live(log + [event]) == if event.Launch? then Live(log) + {|log|} else Live(log) - {event.id}
  {
    assert (log + [event])[..|log|] == log;
  }

  lemma DriftsOn(b: nat, d0: Driver, w0: World, d1: Driver, w1: World, d2: Driver, w2: World)
    requires Drifts(b, d0, w0, d1, w1) && Drifts(b, d1, w1, d2, w2)
    ensures Drifts(b, d0, w0, d2, w2)
  {
  }

  lemma EnsureDrifts(b: nat, e: Env, t: StepType, d: Driver, w: World)
    ensures var got := EnsureDriver(e, t, d, w); Drifts(b, d, w, got.held, got.w)
  {
    LiveAfter(w.browsers, Launch);
  }

  lemma InvokeDrifts(b: nat, e: Env, s: Step, d: Driver, w: World)
    ensures var r := Invoke(e, s, d, w); Drifts(b, d, w, Kept(r.out, d), r.w)
  {
    if d.Some? { LiveAfter(w.browsers, Quit(d.value)); }
  }

  lemma AtomicDrifts(b: nat, e: Env, s: Step, d: Driver, w: World)
    ensures var a := AtomicAttempt(e, s, d, w);
            Drifts(b, d, w, a.held, a.w) && (a.out.Returned? ==> a.out.driver == a.held)
  {
    var got := EnsureDriver(e, s.stype, d, w);
    EnsureDrifts(b, e, s.stype, d, w);
    if got.out.Returned? {
      InvokeDrifts(b, e, s, got.held, got.w);
      var r := Invoke(e, s, got.held, got.w);
      DriftsOn(b, d, w, got.held, got.w, Kept(r.out, got.held), r.w);
    }
  }

  // ---------------------------------------------------------------- the step tree

  lemma {:induction false} StepDrifts(b: nat, e: Env, s: Step, id: StepId, d: Driver, w: World)
    ensures var r := ExecStep(e, s, id, d, w); Drifts(b, d, w, Kept(r.out, d), r.w)
    decreases s, 4, 0
  {
    if Condition(e, s, w) == Some(true) { AttemptsDrift(b, e, s, id, 0, d, w); }
  }

  lemma {:induction false} AttemptsDrift(b: nat, e: Env, s: Step, id: StepId, k: nat, d: Driver, w: World)
    requires k < s.Attempts()
    ensures var r := Attempts(e, s, id, k, d, w); Drifts(b, d, w, Kept(r.out, d), r.w)
    decreases s, 3, s.Attempts() - k
  {
    var a := Attempt(e, s, id, d, w);
    if IsAtomic(s.stype) { AtomicDrifts(b, e, s, d, w); } else { BlockDrifts(b, e, s, id, d, w); }
    if a.out.Raised? && k + 1 < s.Attempts() {
      var w' := Retry(s, id, k, a.out.error, a.w);
      assert w'.browsers == a.w.browsers && w'.hookDriver == a.w.hookDriver;
      assert Attempts(e, s, id, k, d, w) == Attempts(e, s, id, k + 1, a.held, w');
      AttemptsDrift(b, e, s, id, k + 1, a.held, w');
    }
  }

  lemma {:induction false} BlockDrifts(b: nat, e: Env, s: Step, id: StepId, d: Driver, w: World)
    ensures var r := ExecBlock(e, s, id, d, w); Drifts(b, d, w, Kept(r.out, d), r.w)
    decreases s, 1, 0
  {
    match s.stype
    case Group => SequenceDrifts(b, e, s.steps, InGroup, 0, id, d, w);
    case Repeat => RepeatDrifts(b, e, s, s.times, id, d, w);
    case Parallel =>
      if UnsafeTypes(s.steps, |s.steps|) == [] {
        ParallelIsScheduleIndependent(e, e, s.steps, id, d, w);
        ThreadsDecide(e, s.steps, id, d, w);
      }
    case Try => TryDrifts(b, e, s, id, d, w);
    case _ =>
  }

  lemma {:induction false} SequenceDrifts(b: nat, e: Env, steps: seq<Step>, part: Part, i: nat, id: StepId,
                                          d: Driver, w: World)
    requires i <= |steps|
    ensures var r := Sequence(e, steps, part, i, id, d, w); Drifts(b, d, w, Kept(r.out, d), r.w)
    decreases steps, 0, |steps| - i
  {
    if i < |steps| {
      var s, cid := steps[i], ChildId(id, part, i);
      StepDrifts(b, e, s, cid, d, Start(w, cid, s.stype));
      var r := ExecChild(e, s, cid, d, w);
      if r.out.Returned? { SequenceDrifts(b, e, steps, part, i + 1, id, r.out.driver, r.w); }
    }
  }

  lemma {:induction false} RepeatDrifts(b: nat, e: Env, s: Step, times: int, id: StepId, d: Driver, w: World)
    ensures var r := RepeatBlock(e, s, times, id, d, w); Drifts(b, d, w, Kept(r.out, d), r.w)
    decreases s, 0, if times > 0 then times else 0
  {
    if times > 0 {
      var r := Sequence(e, s.steps, InRepeat, 0, id, d, w);
      SequenceDrifts(b, e, s.steps, InRepeat, 0, id, d, w);
      if r.out.Returned? { RepeatDrifts(b, e, s, times - 1, id, r.out.driver, r.w); }
    }
  }

  lemma {:induction false} TryDrifts(b: nat, e: Env, s: Step, id: StepId, d: Driver, w: World)
    ensures var r := TryBlock(e, s, id, d, w); Drifts(b, d, w, Kept(r.out, d), r.w)
    decreases s, 0, 1
  {
    var t, r := Sequence(e, s.trySteps, InTry, 0, id, d, w), TryCatch(e, s, id, d, w);
    SequenceDrifts(b, e, s.trySteps, InTry, 0, id, d, w);
    if t.out.Raised? {
      var w' := t.w.(ctx := t.w.ctx["error_message" := e.text(t.out.error)]);
      SequenceDrifts(b, e, s.catchSteps, InCatch, 0, id, d, w');
    }
    SequenceDrifts(b, e, s.finallySteps, InFinally, 0, id, Kept(r.out, d), r.w);
  }

  // ---------------------------------------------------------------- the rest of a run

  lemma ChildLoses(b: nat, e: Env, s: Step, id: StepId, d: Driver, w: World)
    requires Lost(b, d, w)
    ensures var r := ExecChild(e, s, id, d, w); Lost(b, Kept(r.out, d), r.w)
  {
    StepDrifts(b, e, s, id, d, Start(w, id, s.stype));
  }

  lemma {:induction false} HooksLose(b: nat, e: Env, steps: seq<Step>, part: Part, i: nat, d: Driver, w: World)
    requires i <= |steps| && Lost(b, d, w)
    ensures var r := Hooks(e, steps, part, i, d, w); Lost(b, Kept(r.out, d), r.w)
    decreases |steps| - i
  {
    if i < |steps| {
      var s, id := steps[i], [Segment(part, i)];
      var go := Condition(e, s, w);
      if go == Some(false) {
        HooksLose(b, e, steps, part, i + 1, d, Emit(w, id, Skipped, s.stype, None));
      } else if go == Some(true) {
        ChildLoses(b, e, s, id, d, w);
        var r := ExecChild(e, s, id, d, w);
        if r.out.Returned? { HooksLose(b, e, steps, part, i + 1, r.out.driver, r.w); }
      }
    }
  }

  lemma MainStepDrifts(b: nat, e: Env, s: Step, i: nat, d: Driver, w: World)
    ensures var m := MainStep(e, s, i, d, w);
            Drifts(b, d, w, m.held, m.w) && (m.out.Returned? ==> Drifts(b, d, w, m.out.driver, m.w))
  {
    var id := [Segment(InSteps, i)];
    var w0 := Emit(w, id, Started, s.stype, None);
    var got := EnsureDriver(e, s.stype, d, w0);
    EnsureDrifts(b, e, s.stype, d, w0);
    if got.out.Returned? { LaunchedDrifts(b, e, s, id, d, w0, got.held, got.w.(swallowed := None)); }
  }

  lemma LaunchedDrifts(b: nat, e: Env, s: Step, id: StepId, d: Driver, w: World, held: Driver, w': World)
    requires Drifts(b, d, w, held, w')
    ensures var r := Close(s, id, ExecStep(e, s, id, held, w'));
            Drifts(b, d, w, held, r.w) && (r.out.Returned? ==> Drifts(b, d, w, r.out.driver, r.w))
  {
    var r := ExecStep(e, s, id, held, w');
    StepDrifts(b, e, s, id, held, w');
    DriftsOn(b, d, w, held, w', Kept(r.out, held), r.w);
  }

  lemma {:induction false} MainDrifts(b: nat, e: Env, steps: seq<Step>, i: nat, d: Driver, w: World)
    requires i <= |steps|
    ensures var m := MainSteps(e, steps, i, d, w); Drifts(b, d, w, m.held, m.w)
    decreases |steps| - i
  {
    if i < |steps| {
      var s, id := steps[i], [Segment(InSteps, i)];
      var go := Condition(e, s, w);
      if go == Some(false) {
        MainDrifts(b, e, steps, i + 1, d, Emit(w, id, Skipped, s.stype, None));
      } else if go == Some(true) {
        var m := MainStep(e, s, i, d, w);
        MainStepDrifts(b, e, s, i, d, w);
        if m.out.Returned? { MainDrifts(b, e, steps, i + 1, m.out.driver, m.w); }
      }
    }
  }

  /** A run from its main step `k` on. */
  function Rest(e: Env, sc: Scenario, k: nat, d: Driver, w: World): Run
    requires k <= |sc.steps|
  {
    Finally(e, sc, AfterMain(e, sc, MainSteps(e, sc.steps, k, d, w)))
  }

  function AfterMain(e: Env, sc: Scenario, m: MainEnd): Phase {
    if m.out.Raised? then OnError(e, sc, m.out.error, m.held, StepLabel(e, sc.steps, m.reached), m.w)
    else OnReturn(e, sc, m)
  }

  lemma PhaseLoses(b: nat, e: Env, sc: Scenario, m: MainEnd)
    requires Lost(b, m.held, m.w)
    ensures var p := AfterMain(e, sc, m); Lost(b, p.held, p.w)
  {
    var at := StepLabel(e, sc.steps, m.reached);
    var w := Note(m.w, "current_step", at);
    if m.out.Raised? {
      HooksLose(b, e, sc.onFailure, OnFailure, 0, m.held, Note(w, "error_message", e.text(m.out.error)));
    } else {
      var r := Hooks(e, sc.onSuccess, OnSuccess, 0, m.held, w);
      HooksLose(b, e, sc.onSuccess, OnSuccess, 0, m.held, w);
      if r.out.Raised? {
        HooksLose(b, e, sc.onFailure, OnFailure, 0, m.held,
                  Note(Note(r.w, "current_step", at), "error_message", e.text(r.out.error)));
      }
    }
  }

  lemma FinallyLoses(b: nat, e: Env, sc: Scenario, p: Phase)
    requires Lost(b, p.held, p.w)
    ensures b in Live(Finally(e, sc, p).w.browsers)
  {
    var w := Note(p.w, "current_step", p.at);
    HooksLose(b, e, sc.finallySteps, FinallyHooks, 0, p.held, w);
    var r := Hooks(e, sc.finallySteps, FinallyHooks, 0, p.held, w);
    var d := HookedDriver(r.w, p.held);
    if d.Some? { LiveAfter(r.w.browsers, Quit(d.value)); }
  }

  /** Once lost, a browser is still live when the run ends, whatever the remaining steps
      and hooks do. */
  lemma LostTillTheEnd(b: nat, e: Env, sc: Scenario, k: nat, d: Driver, w: World)
    requires k <= |sc.steps| && Lost(b, d, w)
    ensures b in Live(Rest(e, sc, k, d, w).w.browsers)
  {
    MainDrifts(b, e, sc.steps, k, d, w);
    LostAfterMain(b, e, sc, MainSteps(e, sc.steps, k, d, w));
  }

  lemma LostAfterMain(b: nat, e: Env, sc: Scenario, m: MainEnd)
    requires Lost(b, m.held, m.w)
    ensures b in Live(Finally(e, sc, AfterMain(e, sc, m)).w.browsers)
  {
    PhaseLoses(b, e, sc, m);
    FinallyLoses(b, e, sc, AfterMain(e, sc, m));
  }

  /** In a quiet run without hooks the browsers left live are exactly those that nested
      steps were handed when they were skipped. */
  lemma WithoutHooksTheDroppedAreLeft(e: Env, sc: Scenario, ctx: Ctx)
    requires sc.before == [] && sc.onSuccess == [] && sc.onFailure == [] && sc.finallySteps == []
    requires Quiet(RunTask(e, sc, ctx).w)
    ensures Live(RunTask(e, sc, ctx).w.browsers) == MainDrops(e, sc.steps, 0, None, Fresh(ctx))
  {
    var w0 := Fresh(ctx);
    var m, drops := MainSteps(e, sc.steps, 0, None, w0), MainDrops(e, sc.steps, 0, None, w0);
    assert Body(e, sc, w0) == AfterMain(e, sc, m);
    assert RunTask(e, sc, ctx).w.trace == m.w.trace;
    MainDrifts(0, e, sc.steps, 0, None, w0);
    MainSettles(e, sc.steps, 0, None, w0);
    assert Others(m.w.browsers, m.held) == drops;
    if m.held.Some? { LiveAfter(m.w.browsers, Quit(m.held.value)); }
  }

  // ---------------------------------------------------------------- skipping

  /** A skipped child gives back no driver, is closed as succeeded, and nothing else
      happens. */
  lemma SkippedReturnsNone(e: Env, s: Step, id: StepId, d: Driver, w: World)
    requires Condition(e, s, w) == Some(false)
    ensures var events := [Event(id, EventKind.Started, s.stype, None), Event(id, Succeeded, s.stype, None)];
            ExecChild(e, s, id, d, w) == Result(Returned(None), w.(trace := w.trace + events, swallowed := None))
  {
    var events := [Event(id, EventKind.Started, s.stype, None), Event(id, Succeeded, s.stype, None)];
    assert Condition(e, s, Start(w, id, s.stype)) == Some(false);
    assert w.trace + events == w.trace + [events[0]] + [events[1]];
  }

  /** A block that holds a browser and skips its child `i` loses the browser for good,
      unless it raises and its caller still holds it. */
  lemma SkippingLoses(e: Env, steps: seq<Step>, part: Part, i: nat, id: StepId, b: nat, w: World)
    requires i < |steps| && b in Live(w.browsers) && b < |w.browsers| && w.hookDriver != Some(b)
    requires Condition(e, steps[i], w) == Some(false)
    ensures var r := Sequence(e, steps, part, i, id, Some(b), w); Lost(b, Kept(r.out, None), r.w)
  {
    var cid := ChildId(id, part, i);
    var r := ExecChild(e, steps[i], cid, Some(b), w);
    SkippedReturnsNone(e, steps[i], cid, Some(b), w);
    SequenceDrifts(b, e, steps, part, i + 1, id, None, r.w);
  }

  // ---------------------------------------------------------------- raising

  /** The browsers launched since `w` that are live in `w'`. */
  function LaunchedSince(w: World, w': World): set<nat> {
    set b | b in Live(w'.browsers) && b >= |w.browsers|
  }

  /** A step that raises, block or not, gives back no driver: its caller goes on with the
      driver it passed, and what it does not hold then are the browsers it did not hold
      before and those launched in the step that are still live. So the step loses
      nothing exactly when all it launched have been told to quit. */
  lemma RaisingLosesTheLaunched(e: Env, s: Step, id: StepId, d: Driver, w: World)
    requires (d.Some? ==> d.value < |w.browsers|)
    requires ExecStep(e, s, id, d, w).out.Raised?
    ensures var w' := ExecStep(e, s, id, d, w).w;
            && Others(w'.browsers, d) == Others(w.browsers, d) + LaunchedSince(w, w')
            && (Others(w'.browsers, d) == Others(w.browsers, d) <==> LaunchedSince(w, w') == {})
  {
    var w' := ExecStep(e, s, id, d, w).w;
    LiveAreNumbered(w.browsers);
    forall b: nat ensures b in Others(w'.browsers, d) <==> b in Others(w.browsers, d) || b in LaunchedSince(w, w') {
      StepDrifts(b, e, s, id, d, w);
    }
    assert LaunchedSince(w, w') * Others(w.browsers, d) == {};
  }

  /** A main step that raises ends the main steps, and every live browser that neither
      `run_task` nor the context names is still live when the run ends. */
  lemma RaisingLosesTillTheEnd(b: nat, e: Env, sc: Scenario, k: nat, d: Driver, w: World)
    requires k < |sc.steps| && Condition(e, sc.steps[k], w) == Some(true)
    requires var m := MainStep(e, sc.steps[k], k, d, w); m.out.Raised? && Lost(b, m.held, m.w)
    ensures b in Live(Rest(e, sc, k, d, w).w.browsers)
  {
    var m := MainStep(e, sc.steps[k], k, d, w);
    assert MainSteps(e, sc.steps, k, d, w) == m;
    LostAfterMain(b, e, sc, m);
  }

  // ---------------------------------------------------------------- short runs

  const PLAIN := Control(None, 0, 0.0, 1.0, None, false)

  function Leaf(t: StepType, when: Option<string>): Step {
    Step(t, map[], 0, [], [], [], [], PLAIN.(when := when))
  }

  function GroupOf(steps: seq<Step>): Step {
    Step(Group, map[], 0, steps, [], [], [], PLAIN)
  }

  /** Handlers that leave the context empty; opening a page succeeds, and sleeping does if
      `obliging`. */
  ghost predicate Answers(e: Env, obliging: bool) {
    && !e.dryRun && e.launch([], [], 0).None?
    && forall calls: seq<Call> :: calls != [] ==>
         var fine := obliging || calls[|calls| - 1].stype.OpenUrl?;
         e.reply(calls) == Reply(map[], if fine then None else Some("failed"), false)
  }

  /** Before anything was called. */
  ghost predicate Untouched(w: World) {
    && w.ctx == map[] && w.hookDriver.None? && w.calls == [] && w.browsers == [] && w.failedLaunches == 0
    && w.swallowed == None
  }

  /** With one browser live and nothing that names it but a driver. */
  ghost predicate Opened(w: World) {
    && w.ctx == map[] && w.hookDriver.None? && |w.calls| == 1 && w.browsers == [Launch] && w.swallowed == None
  }

  lemma QuietEmit(w: World, id: StepId, kind: EventKind, t: StepType)
    requires Quiet(w) && !kind.Failed?
    ensures Quiet(Emit(w, id, kind, t, None))
  {
  }

  /** Opening a page as a child or a hook. */
  lemma Opening(e: Env, obliging: bool, id: StepId, w: World) returns (w': World)
    requires Answers(e, obliging) && Untouched(w) && Quiet(w)
    ensures ExecChild(e, Leaf(OpenUrl, None), id, None, w) == Result(Returned(Some(0)), w')
    ensures Opened(w') && Quiet(w')
  {
    var open, w2 := Leaf(OpenUrl, None), Start(w, id, OpenUrl);
    QuietEmit(w, id, EventKind.Started, OpenUrl);
    var w3 := w2.(browsers := [Launch], calls := [Call(OpenUrl, map[], Some(0), map[], false, None)]);
    assert AtomicAttempt(e, open, None, w2) == Tried(Returned(Some(0)), Some(0), w3);
    assert Attempt(e, open, id, None, w2) == Tried(Returned(Some(0)), Some(0), w3);
    assert ExecStep(e, open, id, None, w2) == Result(Returned(Some(0)), w3);
    w' := Emit(w3, id, Succeeded, OpenUrl, None);
    QuietEmit(w3, id, Succeeded, OpenUrl);
  }

  lemma OneLive()
    ensures Live([Launch]) == {0}
  {
    LiveAfter([], Launch);
    assert [] + [Launch] == [Launch];
  }

  /** The main steps of a scenario that is one group, as the group goes. */
  lemma GroupAsMainStep(e: Env, g: Step, w: World, r: Result)
    requires g == GroupOf(g.steps)
    requires var id := [Segment(InSteps, 0)]; r == Sequence(e, g.steps, InGroup, 0, id, None, Start(w, id, Group))
    ensures var c := Close(g, [Segment(InSteps, 0)], r);
            var d := if c.out.Returned? then c.out.driver else None;
            MainSteps(e, [g], 0, None, w) == MainEnd(c.out, d, 1, None, c.w)
  {
    var id := [Segment(InSteps, 0)];
    var w' := Start(w, id, Group);
    assert ExecBlock(e, g, id, None, w') == r;
    assert Attempt(e, g, id, None, w') == Tried(r.out, None, r.w);
    assert Attempts(e, g, id, 0, None, w') == r;
    assert ExecStep(e, g, id, None, w') == r;
    var c := Close(g, id, r);
    assert MainStep(e, g, 0, None, w) == MainEnd(c.out, None, 1, None, c.w);
    if c.out.Returned? {
      assert MainSteps(e, [g], 1, c.out.driver, c.w) == MainEnd(c.out, c.out.driver, 1, None, c.w);
    }
  }

  /** A skipped step inside a block gives back no driver, so the browser opened before
      it is never told to quit, although no step failed. */
  lemma NestedConditionLosesBrowser(e: Env, when: string)
    requires Answers(e, true) && ShouldExecute(Some(when), map[], e.search) == Some(false)
    ensures var sc := Scenario([], [GroupOf([Leaf(OpenUrl, None), Leaf(Sleep, Some(when))])], [], [], []);
            var w := RunTask(e, sc, map[]).w; Quiet(w) && Live(w.browsers) == {0}
  {
    var skipped := Leaf(Sleep, Some(when));
    var g, gid, w0 := GroupOf([Leaf(OpenUrl, None), skipped]), [Segment(InSteps, 0)], Fresh(map[]);
    var kid, w1 := ChildId(gid, InGroup, 1), Start(w0, gid, Group);
    QuietEmit(w0, gid, EventKind.Started, Group);
    var w2 := Opening(e, true, ChildId(gid, InGroup, 0), w1);
    var w3 := Start(w2, kid, Sleep);
    QuietEmit(w2, kid, EventKind.Started, Sleep);
    assert ExecStep(e, skipped, kid, Some(0), w3) == Result(Returned(None), w3);
    var w4 := Emit(w3, kid, Succeeded, Sleep, None);
    QuietEmit(w3, kid, Succeeded, Sleep);
    assert Sequence(e, g.steps, InGroup, 2, gid, None, w4) == Result(Returned(None), w4);
    assert Sequence(e, g.steps, InGroup, 1, gid, Some(0), w2) == Result(Returned(None), w4);
    assert Sequence(e, g.steps, InGroup, 0, gid, None, w1) == Result(Returned(None), w4);
    GroupAsMainStep(e, g, w0, Result(Returned(None), w4));
    QuietEmit(w4, gid, Succeeded, Group);
    OneLive();
  }

  /** A group that opens a page and then raises loses its browser. */
  lemma RaisingGroupLosesBrowser(e: Env)
    requires Answers(e, false)
    ensures var sc := Scenario([], [GroupOf([Leaf(OpenUrl, None), Leaf(Sleep, None)])], [], [], []);
            Live(RunTask(e, sc, map[]).w.browsers) == {0}
  {
    var g, gid, w0 := GroupOf([Leaf(OpenUrl, None), Leaf(Sleep, None)]), [Segment(InSteps, 0)], Fresh(map[]);
    var w1, error := Start(w0, gid, Group), HandlerError("failed");
    var w2 := Opening(e, false, ChildId(gid, InGroup, 0), w1);
    var w3 := Failing(e, ChildId(gid, InGroup, 1), w2);
    assert Sequence(e, g.steps, InGroup, 1, gid, Some(0), w2) == Result(Raised(error), w3);
    assert Sequence(e, g.steps, InGroup, 0, gid, None, w1) == Result(Raised(error), w3);
    GroupAsMainStep(e, g, w0, Result(Raised(error), w3));
    OneLive();
  }

  /** Sleeping fails as a child. */
  lemma Failing(e: Env, id: StepId, w: World) returns (w': World)
    requires Answers(e, false) && Opened(w)
    ensures ExecChild(e, Leaf(Sleep, None), id, Some(0), w) == Result(Raised(HandlerError("failed")), w')
    ensures w'.browsers == [Launch] && w'.hookDriver.None?
  {
    var fails, w1, error := Leaf(Sleep, None), Start(w, id, Sleep), HandlerError("failed");
    var w2 := w1.(calls := w1.calls + [Call(Sleep, map[], Some(0), map[], false, None)]);
    assert AtomicAttempt(e, fails, Some(0), w1) == Tried(Raised(error), Some(0), w2);
    assert Attempt(e, fails, id, Some(0), w1) == Tried(Raised(error), Some(0), w2);
    assert ExecStep(e, fails, id, Some(0), w1) == Result(Raised(error), w2);
    w' := Emit(w2, id, Failed, Sleep, Some(error));
  }

  /** A list of hooks that opens a page and then comes to a condition that cannot be
      evaluated loses its browser, although no step failed. */
  lemma HookConditionLosesBrowser(e: Env, when: string)
    requires Answers(e, true) && ShouldExecute(Some(when), map[], e.search).None?
    ensures var w := RunTask(e, Scenario([Leaf(OpenUrl, None), Leaf(Sleep, Some(when))], [], [], [], []), map[]).w;
            Quiet(w) && Live(w.browsers) == {0}
  {
    var hooks, w0 := [Leaf(OpenUrl, None), Leaf(Sleep, Some(when))], Fresh(map[]);
    var sc := Scenario(hooks, [], [], [], []);
    var w1 := Opening(e, true, [Segment(BeforeSteps, 0)], w0);
    assert Condition(e, hooks[1], w1).None?;
    assert Hooks(e, hooks, BeforeSteps, 1, Some(0), w1) == Result(Raised(BadCondition(when)), w1);
    assert Hooks(e, hooks, BeforeSteps, 0, None, w0) == Result(Raised(BadCondition(when)), w1);
    var p := OnError(e, sc, BadCondition(when), None, StepLabel(e, [], 0), w1);
    assert Body(e, sc, w0) == p && p.held.None? && p.w.trace == w1.trace && p.w.browsers == w1.browsers;
    OneLive();
  }

  /** A browser that fails to start once and then starts. */
  ghost predicate StartsSecond(e: Env) {
    && !e.dryRun && e.launch([], [], 0).Some? && e.launch([], [], 1).None?
    && forall calls: seq<Call> :: e.reply(calls) == Reply(map[], None, false)
  }

  /** A step that is retried gets its browser on the second try. */
  lemma RetryLaunchesAgain(e: Env, id: StepId, w: World)
    requires StartsSecond(e) && Untouched(w)
    ensures var s := Leaf(OpenUrl, None);
            var r := ExecStep(e, s.(ctl := PLAIN.(retry := 1)), id, None, w);
            r.out == Returned(Some(0)) && r.w.browsers == [Launch]
  {
    var s, error := Leaf(OpenUrl, None).(ctl := PLAIN.(retry := 1)), LaunchFailed(e.launch([], [], 0).value);
    var w1 := w.(failedLaunches := 1);
    assert Attempt(e, s, id, None, w) == Tried(Raised(error), None, w1);
    var w2 := Retry(s, id, 0, error, w1);
    var w3 := w2.(browsers := [Launch], calls := [Call(OpenUrl, map[], Some(0), map[], false, None)]);
    assert Attempt(e, s, id, None, w2) == Tried(Returned(Some(0)), Some(0), w3);
    assert Attempts(e, s, id, 1, None, w2) == Result(Returned(Some(0)), w3);
    assert Attempts(e, s, id, 0, None, w) == Result(Returned(Some(0)), w3);
  }
}
