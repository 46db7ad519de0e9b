/** What handlers are given: every call of a run carries the type, payload and time limit of
    one of its steps, the run's dry-run flag, and a browser of this run wherever its type
    needs one. */
module Calls {
  import opened Wrappers
  import opened Steps
  import opened Conditions
  import opened Interpreter
  import opened BrowserLogs
  import opened Footprint

  /** The steps of a tree that call handlers. */
  function Atoms(s: Step): set<Step>
    decreases s, 0
  {
    if IsAtomic(s.stype) then {s}
    else if s.stype.Try? then AllAtoms(s.trySteps) + AllAtoms(s.catchSteps) + AllAtoms(s.finallySteps)
    else if IsBlock(s.stype) then AllAtoms(s.steps)
    else {}
  }

  function AllAtoms(steps: seq<Step>): set<Step>
    decreases steps, 1
  {
    if steps == [] then {} else Atoms(steps[0]) + AllAtoms(steps[1..])
  }

  lemma {:induction false} AtomsOfOne(steps: seq<Step>, i: nat)
    requires i < |steps|
    ensures Atoms(steps[i]) <= AllAtoms(steps)
  {
    if i > 0 { AtomsOfOne(steps[1..], i - 1); }
  }

  /** A browser that was launched in this run, or none. */
  ghost predicate Named(w: World, d: Driver) {
    d.Some? ==> d.value < |w.browsers| && w.browsers[d.value].Launch?
  }

  predicate CallOf(s: Step, call: Call) {
    call.stype == s.stype && call.payload == s.payload && call.limit == s.ctl.timeout
  }

  ghost predicate Fits(e: Env, atoms: set<Step>, w: World, call: Call) {
    && (exists s :: s in atoms && CallOf(s, call))
    && call.dryRun == e.dryRun && Named(w, call.driver)
    && (RequiresDriver(call.stype) && !e.dryRun ==> call.driver.Some?)
  }

  ghost predicate AllFit(e: Env, atoms: set<Step>, w: World) {
    forall k :: 0 <= k < |w.calls| ==> Fits(e, atoms, w, w.calls[k])
  }

  /** A piece of a run goes on from `w` to `w'`. */
  ghost predicate Goes(e: Env, atoms: set<Step>, w: World, w': World) {
    AllFit(e, atoms, w') && w.browsers <= w'.browsers && w'.hookDriver == w.hookDriver
  }

  ghost predicate GoesTo(e: Env, atoms: set<Step>, w: World, r: Result) {
    Goes(e, atoms, w, r.w) && (r.out.Returned? ==> Named(r.w, r.out.driver))
  }

  lemma NothingGoes(e: Env, atoms: set<Step>, w: World, w': World)
    requires AllFit(e, atoms, w)
    requires w'.calls == w.calls && w.browsers <= w'.browsers && w'.hookDriver == w.hookDriver
    ensures Goes(e, atoms, w, w')
  {
    forall k | 0 <= k < |w'.calls| ensures Fits(e, atoms, w', w'.calls[k]) {
      assert Fits(e, atoms, w, w.calls[k]);
    }
  }

  lemma InvokeGoes(e: Env, atoms: set<Step>, s: Step, d: Driver, w: World)
    requires AllFit(e, atoms, w) && Named(w, d) && s in atoms
    requires RequiresDriver(s.stype) && !e.dryRun ==> d.Some?
    ensures GoesTo(e, atoms, w, Invoke(e, s, d, w))
  {
    if HasHandler(s.stype) {
      var w', call := Invoke(e, s, d, w).w, Call(s.stype, s.payload, d, View(e, w), e.dryRun, s.ctl.timeout);
      assert w'.calls == w.calls + [call] && CallOf(s, call);
      forall k | 0 <= k < |w'.calls| ensures Fits(e, atoms, w', w'.calls[k]) {
        if k < |w.calls| { assert w'.calls[k] == w.calls[k] && Fits(e, atoms, w, w.calls[k]); }
      }
    }
  }

  lemma AtomicGoes(e: Env, atoms: set<Step>, s: Step, d: Driver, w: World)
    requires AllFit(e, atoms, w) && Named(w, d) && s in atoms
    ensures var a := AtomicAttempt(e, s, d, w); GoesTo(e, atoms, w, Result(a.out, a.w)) && Named(a.w, a.held)
  {
    var got := EnsureDriver(e, s.stype, d, w);
    NothingGoes(e, atoms, w, got.w);
    if got.out.Returned? { InvokeGoes(e, atoms, s, got.held, got.w); }
  }

  /** What a visit of a step that calls a handler hands it, given `d` and with `b` browsers
      launched before: the browser it was given, or the one it launched if it needs one, or
      none. */
  ghost predicate Hands(e: Env, s: Step, d: Driver, b: nat, call: Call) {
    && CallOf(s, call) && call.dryRun == e.dryRun
    && if d.Some? then call.driver == d
       else if RequiresDriver(s.stype) && !e.dryRun then call.driver.Some? && call.driver.value >= b
       else call.driver.None?
  }

  ghost predicate HandsAll(e: Env, s: Step, d: Driver, w: World, w': World) {
    && w.calls <= w'.calls && |w.browsers| <= |w'.browsers|
    && forall j :: |w.calls| <= j < |w'.calls| ==> Hands(e, s, d, |w.browsers|, w'.calls[j])
  }

  /** The browser held after a failed attempt is the one given, or one launched in it. */
  ghost predicate Holds(e: Env, s: Step, d: Driver, b: nat, held: Driver) {
    if d.Some? then held == d
    else held.Some? ==> RequiresDriver(s.stype) && !e.dryRun && held.value >= b
  }

  lemma AttemptHands(e: Env, s: Step, d: Driver, w: World)
    requires IsAtomic(s.stype)
    ensures var a := AtomicAttempt(e, s, d, w);
            HandsAll(e, s, d, w, a.w) && (a.out.Raised? ==> Holds(e, s, d, |w.browsers|, a.held))
  {
    var got := EnsureDriver(e, s.stype, d, w);
    if got.out.Returned? {
      InvokeHands(e, s, got.held, got.w);
      assert Holds(e, s, d, |w.browsers|, got.held);
    }
  }

  lemma InvokeHands(e: Env, s: Step, d: Driver, w: World)
    requires IsAtomic(s.stype)
    ensures var r := Invoke(e, s, d, w);
            && r.w.calls == w.calls + [Call(s.stype, s.payload, d, View(e, w), e.dryRun, s.ctl.timeout)]
            && |w.browsers| <= |r.w.browsers|
  {
  }

  lemma HandsOnward(e: Env, s: Step, d: Driver, held: Driver, w: World, w': World, w'': World)
    requires HandsAll(e, s, d, w, w') && Holds(e, s, d, |w.browsers|, held) && HandsAll(e, s, held, w', w'')
    ensures HandsAll(e, s, d, w, w'')
  {
  }

  /** Exactly what the handler is given, in every attempt of a visit. */
  lemma {:induction false} VisitCalls(e: Env, s: Step, id: StepId, k: nat, d: Driver, w: World)
    requires IsAtomic(s.stype) && k < s.Attempts()
    ensures HandsAll(e, s, d, w, Attempts(e, s, id, k, d, w).w)
    decreases s.Attempts() - k
  {
    var a := Attempt(e, s, id, d, w);
    AttemptHands(e, s, d, w);
    if a.out.Raised? && k + 1 < s.Attempts() {
      var w' := Retry(s, id, k, a.out.error, a.w);
      VisitCalls(e, s, id, k + 1, a.held, w');
      HandsOnward(e, s, d, a.held, w, w', Attempts(e, s, id, k + 1, a.held, w').w);
    }
  }

  ghost predicate OnlyLaunches(w: World, w': World) {
    && w.browsers <= w'.browsers
    && forall j :: |w.browsers| <= j < |w'.browsers| ==> w'.browsers[j].Launch?
  }

  lemma AttemptOnlyLaunches(e: Env, s: Step, d: Driver, w: World)
    requires !s.stype.CloseBrowser? || e.dryRun
    ensures OnlyLaunches(w, AtomicAttempt(e, s, d, w).w)
  {
  }

  /** Browsers are told to quit by close_browser only: any other visit only launches. */
  lemma {:induction false} OthersDoNotClose(e: Env, s: Step, id: StepId, k: nat, d: Driver, w: World)
    requires IsAtomic(s.stype) && k < s.Attempts() && (!s.stype.CloseBrowser? || e.dryRun)
    ensures OnlyLaunches(w, Attempts(e, s, id, k, d, w).w)
    decreases s.Attempts() - k
  {
    var a := Attempt(e, s, id, d, w);
    AttemptOnlyLaunches(e, s, d, w);
    if a.out.Raised? && k + 1 < s.Attempts() {
      var w' := Retry(s, id, k, a.out.error, a.w);
      assert w'.browsers == a.w.browsers;
      OthersDoNotClose(e, s, id, k + 1, a.held, w');
    }
  }

  /** Outside a dry run a close_browser that neither raises nor swallows its error gives back
      no browser, and the one its handler was given is the last to be told to quit. */
  lemma {:induction false} CloseBrowserCloses(e: Env, s: Step, id: StepId, k: nat, d: Driver, w: World)
    requires s.stype.CloseBrowser? && k < s.Attempts() && !e.dryRun && w.swallowed.None?
    ensures var r := Attempts(e, s, id, k, d, w);
            r.out.Returned? && r.w.swallowed.None? ==>
              && r.out.driver.None? && r.w.calls != [] && r.w.calls[|r.w.calls| - 1].driver.Some?
              && r.w.browsers != [] && r.w.browsers[|r.w.browsers| - 1]
                                       == Quit(r.w.calls[|r.w.calls| - 1].driver.value)
    decreases s.Attempts() - k
  {
    var a := Attempt(e, s, id, d, w);
    assert a == AtomicAttempt(e, s, d, w);
    if a.out.Raised? && k + 1 < s.Attempts() {
      CloseBrowserCloses(e, s, id, k + 1, a.held, Retry(s, id, k, a.out.error, a.w));
    } else if a.out.Returned? {
      AttemptCloses(e, s, d, w);
    }
  }

  lemma AttemptCloses(e: Env, s: Step, d: Driver, w: World)
    requires s.stype.CloseBrowser? && !e.dryRun
    ensures var a := AtomicAttempt(e, s, d, w);
            a.out.Returned? ==>
              && a.out.driver.None? && a.w.calls != [] && a.w.calls[|a.w.calls| - 1].driver.Some?
              && a.w.browsers != [] && a.w.browsers[|a.w.browsers| - 1]
                                       == Quit(a.w.calls[|a.w.calls| - 1].driver.value)
              && a.w.swallowed == w.swallowed
  {
  }

  // ---------------------------------------------------------------- the step tree

  lemma {:induction false} InterleaveGoes(e: Env, atoms: set<Step>, steps: seq<Step>, id: StepId, cs: seq<Child>,
                                          w: World, n: nat)
    requires AllFit(e, atoms, w) && |cs| == |steps| && AllAtoms(steps) <= atoms
    requires forall i :: 0 <= i < |steps| ==> IsAtomic(steps[i].stype)
    ensures Goes(e, atoms, w, Interleave(e, steps, id, cs, w, n).1)
    decreases TotalMeasure(steps, cs, |cs|)
  {
    if Unfinished(cs, |cs|) == [] {
      NothingGoes(e, atoms, w, w);
    } else {
      var i := Scheduled(e, cs, w.calls, n);
      var cid := ChildId(id, InParallel, i);
      var m := ChildMove(e, steps[i], cid, cs[i], w);
      ChildMoveDecreases(e, steps[i], cid, cs[i], w);
      TotalMeasureUpdate(steps, cs, |cs|, i, m.0);
      AtomsOfOne(steps, i);
      MoveGoes(e, atoms, steps[i], cid, cs[i], w);
      InterleaveGoes(e, atoms, steps, id, cs[i := m.0], m.1, n + 1);
    }
  }

  lemma MoveGoes(e: Env, atoms: set<Step>, s: Step, id: StepId, c: Child, w: World)
    requires AllFit(e, atoms, w) && IsAtomic(s.stype) && Atoms(s) <= atoms
    ensures Goes(e, atoms, w, ChildMove(e, s, id, c, w).1)
  {
    var w' := ChildMove(e, s, id, c, w).1;
    if c.Trying? {
      var w0 := w.(ctx := c.ctx);
      NothingGoes(e, atoms, w, w0);
      AtomicGoes(e, atoms, s, None, w0);
      NothingGoes(e, atoms, AtomicAttempt(e, s, None, w0).w, w');
    } else {
      NothingGoes(e, atoms, w, w');
    }
  }

  lemma GoesOn(e: Env, atoms: set<Step>, w0: World, w1: World, r: Result)
    requires Goes(e, atoms, w0, w1) && GoesTo(e, atoms, w1, r)
    ensures GoesTo(e, atoms, w0, r)
  {
  }

  lemma StillNamed(w: World, w': World, d: Driver)
    requires Named(w, d) && w.browsers <= w'.browsers
    ensures Named(w', d)
  {
  }

  lemma {:induction false} StepGoes(e: Env, atoms: set<Step>, s: Step, id: StepId, d: Driver, w: World)
    returns (r: Result)
    requires AllFit(e, atoms, w) && Named(w, d) && Atoms(s) <= atoms
    ensures r == ExecStep(e, s, id, d, w) && GoesTo(e, atoms, w, r)
    decreases s, 4, 0
  {
    if Condition(e, s, w) == Some(true) {
      r := AttemptsGo(e, atoms, s, id, 0, d, w);
    } else {
      r := ExecStep(e, s, id, d, w);
      NothingGoes(e, atoms, w, w);
    }
  }

  lemma {:induction false} AttemptsGo(e: Env, atoms: set<Step>, s: Step, id: StepId, k: nat, d: Driver, w: World)
    returns (r: Result)
    requires AllFit(e, atoms, w) && Named(w, d) && Atoms(s) <= atoms && k < s.Attempts()
    ensures r == Attempts(e, s, id, k, d, w) && GoesTo(e, atoms, w, r)
    decreases s, 3, s.Attempts() - k
  {
    var a := AttemptGoes(e, atoms, s, id, d, w);
    if a.out.Raised? && k + 1 < s.Attempts() {
      var w' := Retry(s, id, k, a.out.error, a.w);
      NothingGoes(e, atoms, a.w, w');
      r := AttemptsGo(e, atoms, s, id, k + 1, a.held, w');
      GoesOn(e, atoms, w, w', r);
    } else {
      r := Attempts(e, s, id, k, d, w);
      NothingGoes(e, atoms, a.w, r.w);
    }
  }

  lemma {:induction false} AttemptGoes(e: Env, atoms: set<Step>, s: Step, id: StepId, d: Driver, w: World)
    returns (a: Tried)
    requires AllFit(e, atoms, w) && Named(w, d) && Atoms(s) <= atoms
    ensures a == Attempt(e, s, id, d, w)
    ensures GoesTo(e, atoms, w, Result(a.out, a.w)) && Named(a.w, a.held)
    decreases s, 2, 0
  {
    a := Attempt(e, s, id, d, w);
    if IsAtomic(s.stype) { AtomicGoes(e, atoms, s, d, w); } else { var r := BlockGoes(e, atoms, s, id, d, w); }
  }

  lemma {:induction false} BlockGoes(e: Env, atoms: set<Step>, s: Step, id: StepId, d: Driver, w: World)
    returns (r: Result)
    requires AllFit(e, atoms, w) && Named(w, d) && Atoms(s) <= atoms && !IsAtomic(s.stype)
    ensures r == ExecBlock(e, s, id, d, w) && GoesTo(e, atoms, w, r)
    decreases s, 1, 0
  {
    r := ExecBlock(e, s, id, d, w);
    match s.stype
    case Group => var _ := SequenceGoes(e, atoms, s.steps, InGroup, 0, id, d, w);
    case Repeat => var _ := RepeatGoes(e, atoms, s, s.times, id, d, w);
    case Parallel => ParallelGoes(e, atoms, s.steps, id, d, w);
    case Try => var _ := TryGoes(e, atoms, s, id, d, w);
    case _ => NothingGoes(e, atoms, w, w);
  }

  lemma ParallelGoes(e: Env, atoms: set<Step>, steps: seq<Step>, id: StepId, d: Driver, w: World)
    requires AllFit(e, atoms, w) && Named(w, d) && AllAtoms(steps) <= atoms
    ensures GoesTo(e, atoms, w, ParallelBlock(e, steps, id, d, w))
  {
    if UnsafeTypes(steps, |steps|) == [] {
      InterleaveGoes(e, atoms, steps, id, Threads(steps, w.ctx), w, 0);
      FirstRaiseGives(Interleave(e, steps, id, Threads(steps, w.ctx), w, 0).0, 0, d);
    } else {
      NothingGoes(e, atoms, w, w);
    }
  }

  lemma {:induction false} FirstRaiseGives(cs: seq<Child>, i: nat, d: Driver)
    requires i <= |cs|
    ensures var out := FirstRaise(cs, i, d); out.Returned? ==> out.driver == d
    decreases |cs| - i
  {
    if i < |cs| { FirstRaiseGives(cs, i + 1, d); }
  }

  lemma {:induction false} SequenceGoes(e: Env, atoms: set<Step>, steps: seq<Step>, part: Part, i: nat, id: StepId,
                                        d: Driver, w: World)
    returns (r: Result)
    requires AllFit(e, atoms, w) && Named(w, d) && i <= |steps| && AllAtoms(steps) <= atoms
    ensures r == Sequence(e, steps, part, i, id, d, w) && GoesTo(e, atoms, w, r)
    decreases steps, 0, |steps| - i
  {
    if i == |steps| {
      r := Sequence(e, steps, part, i, id, d, w);
      NothingGoes(e, atoms, w, w);
    } else {
      AtomsOfOne(steps, i);
      var c := ChildGoes(e, atoms, steps[i], ChildId(id, part, i), d, w);
      r := c;
      if c.out.Returned? {
        r := SequenceGoes(e, atoms, steps, part, i + 1, id, c.out.driver, c.w);
        GoesOn(e, atoms, w, c.w, r);
      }
    }
  }

  lemma {:induction false} ChildGoes(e: Env, atoms: set<Step>, s: Step, id: StepId, d: Driver, w: World)
    returns (r: Result)
    requires AllFit(e, atoms, w) && Named(w, d) && Atoms(s) <= atoms
    ensures r == ExecChild(e, s, id, d, w) && GoesTo(e, atoms, w, r)
    decreases s, 5, 0
  {
    var w' := Start(w, id, s.stype);
    NothingGoes(e, atoms, w, w');
    var r0 := StepGoes(e, atoms, s, id, d, w');
    r := Close(s, id, r0);
    NothingGoes(e, atoms, r0.w, r.w);
  }

  lemma {:induction false} RepeatGoes(e: Env, atoms: set<Step>, s: Step, times: int, id: StepId, d: Driver, w: World)
    returns (r: Result)
    requires AllFit(e, atoms, w) && Named(w, d) && AllAtoms(s.steps) <= atoms
    ensures r == RepeatBlock(e, s, times, id, d, w) && GoesTo(e, atoms, w, r)
    decreases s, 0, if times > 0 then times else 0
  {
    if times <= 0 {
      r := RepeatBlock(e, s, times, id, d, w);
      NothingGoes(e, atoms, w, w);
    } else {
      var c := SequenceGoes(e, atoms, s.steps, InRepeat, 0, id, d, w);
      r := c;
      if c.out.Returned? {
        r := RepeatGoes(e, atoms, s, times - 1, id, c.out.driver, c.w);
        GoesOn(e, atoms, w, c.w, r);
      }
    }
  }

  lemma {:induction false} TryCatchGoes(e: Env, atoms: set<Step>, s: Step, id: StepId, d: Driver, w: World)
    returns (r: Result)
    requires AllFit(e, atoms, w) && Named(w, d) && AllAtoms(s.trySteps) + AllAtoms(s.catchSteps) <= atoms
    ensures r == TryCatch(e, s, id, d, w) && GoesTo(e, atoms, w, r)
    decreases s, 0, 0
  {
    r := TryCatch(e, s, id, d, w);
    var t := SequenceGoes(e, atoms, s.trySteps, InTry, 0, id, d, w);
    if t.out.Raised? {
      var w' := Note(t.w, "error_message", e.text(t.out.error));
      NothingGoes(e, atoms, t.w, w');
      StillNamed(w, w', d);
      var c := SequenceGoes(e, atoms, s.catchSteps, InCatch, 0, id, d, w');
      GoesOn(e, atoms, w, w', c);
    }
  }

  lemma {:induction false} TryGoes(e: Env, atoms: set<Step>, s: Step, id: StepId, d: Driver, w: World)
    returns (r: Result)
    requires AllFit(e, atoms, w) && Named(w, d)
    requires AllAtoms(s.trySteps) + AllAtoms(s.catchSteps) + AllAtoms(s.finallySteps) <= atoms
    ensures r == TryBlock(e, s, id, d, w) && GoesTo(e, atoms, w, r)
    decreases s, 0, 1
  {
    r := TryBlock(e, s, id, d, w);
    var c := TryCatchGoes(e, atoms, s, id, d, w);
    var fd := if c.out.Returned? then c.out.driver else d;
    StillNamed(w, c.w, d);
    var f := SequenceGoes(e, atoms, s.finallySteps, InFinally, 0, id, fd, c.w);
    GoesOn(e, atoms, w, c.w, f);
  }

  // ---------------------------------------------------------------- the whole run

  /** Between the lists of a run: what `__driver__` names is a browser of this run too. */
  ghost predicate Stands(e: Env, atoms: set<Step>, w: World) {
    AllFit(e, atoms, w) && Named(w, w.hookDriver)
  }

  ghost predicate StandsWith(e: Env, atoms: set<Step>, w: World, r: Result) {
    && Stands(e, atoms, r.w) && w.browsers <= r.w.browsers
    && (r.out.Returned? ==> Named(r.w, r.out.driver))
  }

  lemma NothingStands(e: Env, atoms: set<Step>, w: World, w': World)
    requires Stands(e, atoms, w)
    requires w'.calls == w.calls && w.browsers <= w'.browsers && w'.hookDriver == w.hookDriver
    ensures Stands(e, atoms, w')
  {
    NothingGoes(e, atoms, w, w');
  }

  lemma StandsOn(e: Env, atoms: set<Step>, w: World, w': World, r: Result)
    requires w.browsers <= w'.browsers && StandsWith(e, atoms, w', r)
    ensures StandsWith(e, atoms, w, r)
  {
  }

  lemma {:induction false} HooksGo(e: Env, atoms: set<Step>, steps: seq<Step>, part: Part, i: nat, d: Driver, w: World)
    returns (r: Result)
    requires Stands(e, atoms, w) && Named(w, d) && i <= |steps| && AllAtoms(steps) <= atoms
    ensures r == Hooks(e, steps, part, i, d, w) && StandsWith(e, atoms, w, r)
    decreases |steps| - i
  {
    if i == |steps| {
      r := HooksOut(e, atoms, steps, part, d, w);
    } else {
      var s, id := steps[i], [Segment(part, i)];
      var go := Condition(e, s, w);
      if go.None? {
        r := Hooks(e, steps, part, i, d, w);
      } else if !go.value {
        var w' := Emit(w, id, Skipped, s.stype, None);
        NothingStands(e, atoms, w, w');
        r := HooksGo(e, atoms, steps, part, i + 1, d, w');
        StandsOn(e, atoms, w, w', r);
      } else {
        AtomsOfOne(steps, i);
        var c := ChildGoes(e, atoms, s, id, d, w);
        r := c;
        if c.out.Returned? {
          r := HooksGo(e, atoms, steps, part, i + 1, c.out.driver, c.w);
          StandsOn(e, atoms, w, c.w, r);
        }
      }
    }
  }

  /** Hooks that are through leave their driver in the context. */
  lemma HooksOut(e: Env, atoms: set<Step>, steps: seq<Step>, part: Part, d: Driver, w: World) returns (r: Result)
    requires Stands(e, atoms, w) && Named(w, d)
    ensures r == Hooks(e, steps, part, |steps|, d, w) && StandsWith(e, atoms, w, r)
  {
    r := Result(Returned(d), if d.Some? then w.(hookDriver := d) else w);
    NothingGoes(e, atoms, w, r.w.(hookDriver := w.hookDriver));
  }

  ghost predicate MainGone(e: Env, atoms: set<Step>, w: World, m: MainEnd) {
    StandsWith(e, atoms, w, Result(m.out, m.w)) && Named(m.w, m.held)
  }

  lemma MainStepGoes(e: Env, atoms: set<Step>, s: Step, i: nat, d: Driver, w: World) returns (m: MainEnd)
    requires Stands(e, atoms, w) && Named(w, d) && Atoms(s) <= atoms
    ensures m == MainStep(e, s, i, d, w) && MainGone(e, atoms, w, m)
  {
    m := MainStep(e, s, i, d, w);
    var id := [Segment(InSteps, i)];
    var got := EnsureDriver(e, s.stype, d, Emit(w, id, Started, s.stype, None));
    NothingStands(e, atoms, w, got.w);
    if got.out.Returned? {
      var w1 := got.w.(swallowed := None);
      NothingStands(e, atoms, w, w1);
      StillNamed(w, w1, d);
      var r := StepGoes(e, atoms, s, id, got.held, w1);
      var c := Close(s, id, r);
      NothingStands(e, atoms, r.w, c.w);
      StillNamed(w1, c.w, got.held);
    }
  }

  lemma {:induction false} MainGoes(e: Env, atoms: set<Step>, steps: seq<Step>, i: nat, d: Driver, w: World)
    returns (m: MainEnd)
    requires Stands(e, atoms, w) && Named(w, d) && i <= |steps| && AllAtoms(steps) <= atoms
    ensures m == MainSteps(e, steps, i, d, w) && MainGone(e, atoms, w, m)
    decreases |steps| - i
  {
    if i == |steps| {
      m := MainSteps(e, steps, i, d, w);
    } else {
      var s, id := steps[i], [Segment(InSteps, i)];
      var go := Condition(e, s, w);
      if go.None? {
        m := MainSteps(e, steps, i, d, w);
      } else if !go.value {
        var w' := Emit(w, id, Skipped, s.stype, None);
        NothingStands(e, atoms, w, w');
        m := MainGoes(e, atoms, steps, i + 1, d, w');
      } else {
        AtomsOfOne(steps, i);
        m := MainStepGoes(e, atoms, s, i, d, w);
        if m.out.Returned? { m := MainGoes(e, atoms, steps, i + 1, m.out.driver, m.w); }
      }
    }
  }

  /** All steps of a scenario that call handlers. */
  function ScenarioAtoms(sc: Scenario): set<Step> {
    AllAtoms(sc.before) + AllAtoms(sc.steps) + AllAtoms(sc.onSuccess) + AllAtoms(sc.onFailure)
    + AllAtoms(sc.finallySteps)
  }

  ghost predicate PhaseStands(e: Env, atoms: set<Step>, p: Phase) {
    Stands(e, atoms, p.w) && Named(p.w, p.held)
  }

  lemma ErrorGoes(e: Env, sc: Scenario, error: Error, d: Driver, at: string, w: World)
    requires Stands(e, ScenarioAtoms(sc), w) && Named(w, d)
    ensures PhaseStands(e, ScenarioAtoms(sc), OnError(e, sc, error, d, at, w))
  {
    var w' := Note(Note(w, "current_step", at), "error_message", e.text(error));
    NothingStands(e, ScenarioAtoms(sc), w, w');
    var r := HooksGo(e, ScenarioAtoms(sc), sc.onFailure, OnFailure, 0, d, w');
    StillNamed(w, r.w, d);
  }

  lemma ReturnGoes(e: Env, sc: Scenario, m: MainEnd)
    requires Stands(e, ScenarioAtoms(sc), m.w) && Named(m.w, m.held) && m.out.Returned?
    ensures PhaseStands(e, ScenarioAtoms(sc), OnReturn(e, sc, m))
  {
    var at := StepLabel(e, sc.steps, m.reached);
    var w := Note(m.w, "current_step", at);
    NothingStands(e, ScenarioAtoms(sc), m.w, w);
    var r := HooksGo(e, ScenarioAtoms(sc), sc.onSuccess, OnSuccess, 0, m.held, w);
    StillNamed(m.w, r.w, m.held);
    if r.out.Raised? { ErrorGoes(e, sc, r.out.error, m.held, at, r.w); }
  }

  lemma BodyGoes(e: Env, sc: Scenario, ctx: Ctx)
    ensures PhaseStands(e, ScenarioAtoms(sc), Body(e, sc, Fresh(ctx)))
  {
    var b := HooksGo(e, ScenarioAtoms(sc), sc.before, BeforeSteps, 0, None, Fresh(ctx));
    if b.out.Raised? {
      ErrorGoes(e, sc, b.out.error, None, StepLabel(e, sc.steps, 0), b.w);
    } else {
      var m := MainGoes(e, ScenarioAtoms(sc), sc.steps, 0, HookedDriver(b.w, None), b.w);
      if m.out.Raised? {
        ErrorGoes(e, sc, m.out.error, m.held, StepLabel(e, sc.steps, m.reached), m.w);
      } else {
        ReturnGoes(e, sc, m);
      }
    }
  }

  /** In every run each call carries the type, the payload and the time limit of one of the
      scenario's steps and the run's dry-run flag; its browser, if it has one, was launched in
      this run, and outside dry runs it has one wherever its type needs one. */
  lemma CallsAreTheSteps(e: Env, sc: Scenario, ctx: Ctx)
    ensures var w := RunTask(e, sc, ctx).w;
            forall k :: 0 <= k < |w.calls| ==> Fits(e, ScenarioAtoms(sc), w, w.calls[k])
  {
    var p := Body(e, sc, Fresh(ctx));
    var w := Note(p.w, "current_step", p.at);
    BodyGoes(e, sc, ctx);
    NothingStands(e, ScenarioAtoms(sc), p.w, w);
    var r := HooksGo(e, ScenarioAtoms(sc), sc.finallySteps, FinallyHooks, 0, p.held, w);
    NothingGoes(e, ScenarioAtoms(sc), r.w, Finally(e, sc, p).w);
  }

  // ---------------------------------------------------------------- the network flag

  lemma {:induction false} AtomOfSome(steps: seq<Step>, a: Step) returns (i: nat)
    requires a in AllAtoms(steps)
    ensures i < |steps| && a in Atoms(steps[i])
  {
    if a in Atoms(steps[0]) {
      i := 0;
    } else {
      var j := AtomOfSome(steps[1..], a);
      i := j + 1;
    }
  }

  /** A call of the network handler is among the steps. */
  ghost predicate CallsNetwork(atoms: set<Step>) {
    exists a :: a in atoms && a.stype.RequireEnterpriseNetwork?
  }

  lemma {:induction false} NeedIsAnAtom(s: Step)
    ensures NeedsNetwork(s) <==> CallsNetwork(Atoms(s))
    decreases s, 0
  {
    if IsAtomic(s.stype) {
      assert s in Atoms(s);
    } else {
      SomeNeedIsAnAtom(s.steps);
      SomeNeedIsAnAtom(s.trySteps);
      SomeNeedIsAnAtom(s.catchSteps);
      SomeNeedIsAnAtom(s.finallySteps);
    }
  }

  lemma {:induction false} SomeNeedIsAnAtom(steps: seq<Step>)
    ensures AnyNeedsNetwork(steps) <==> CallsNetwork(AllAtoms(steps))
    decreases steps, 1
  {
    forall i | 0 <= i < |steps| ensures NeedsNetwork(steps[i]) <==> CallsNetwork(Atoms(steps[i])) {
      NeedIsAnAtom(steps[i]);
    }
    if AnyNeedsNetwork(steps) {
      var i :| 0 <= i < |steps| && NeedsNetwork(steps[i]);
      AtomsOfOne(steps, i);
    }
    if CallsNetwork(AllAtoms(steps)) {
      var a :| a in AllAtoms(steps) && a.stype.RequireEnterpriseNetwork?;
      var i := AtomOfSome(steps, a);
      assert CallsNetwork(Atoms(steps[i]));
    }
  }

  /** The network flag of a scenario is up exactly when one of its steps, at any depth, calls
      the network handler. */
  lemma FlagIsExact(sc: Scenario)
    ensures ScenarioNeedsNetwork(sc) <==> exists a :: a in ScenarioAtoms(sc) && a.stype.RequireEnterpriseNetwork?
  {
    SomeNeedIsAnAtom(sc.before);
    SomeNeedIsAnAtom(sc.steps);
    SomeNeedIsAnAtom(sc.onSuccess);
    SomeNeedIsAnAtom(sc.onFailure);
    SomeNeedIsAnAtom(sc.finallySteps);
  }
}
