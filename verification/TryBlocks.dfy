/** Try blocks: when the catch part runs, what it is told, and when the block raises. */
module TryBlocks {
  import opened Wrappers
  import opened Steps
  import opened Conditions
  import opened Interpreter
  import opened Footprint
  import opened CleanUp
  import opened Events

  /** The part was left at child `n`, which failed with this error. */
  ghost predicate LeftFor(t: seq<Event>, b: nat, id: StepId, part: Part, n: nat, error: Error) {
    LeftAt(t, b, id, part, n) && FailedSince(t, b, ChildId(id, part, n), error)
  }

  ghost predicate LeftSomewhere(t: seq<Event>, b: nat, id: StepId, part: Part, size: nat, error: Error) {
    exists n: nat :: n < size && LeftFor(t, b, id, part, n, error)
  }

  /** How a part of a block went, told from the events since `b`. */
  ghost predicate PartTells(t: seq<Event>, b: nat, id: StepId, part: Part, size: nat, out: Outcome) {
    if out.Returned? then ClosedBefore(t, b, id, part, size) else LeftSomewhere(t, b, id, part, size, out.error)
  }

  lemma PartTold(e: Env, steps: seq<Step>, part: Part, id: StepId, d: Driver, w: World, b: nat)
    requires b <= |w.trace| && NoneFrom(w.trace, b, id, part, 0)
    ensures var r := Sequence(e, steps, part, 0, id, d, w);
            PartTells(r.w.trace, b, id, part, |steps|, r.out) && Grows(w, r.w, id, {part}, 0)
  {
    var r := Sequence(e, steps, part, 0, id, d, w);
    var n := SequenceThrough(e, steps, part, 0, id, d, w, b);
    SequenceEvents(e, steps, part, 0, id, d, w);
    if r.out.Raised? { assert LeftFor(r.w.trace, b, id, part, n, r.out.error); }
  }

  lemma StillTold(w: World, w': World, b: nat, id: StepId, part: Part, size: nat, out: Outcome, part': Part)
    requires PartTells(w.trace, b, id, part, size, out) && Grows(w, w', id, {part'}, 0) && part' != part
    ensures PartTells(w'.trace, b, id, part, size, out)
  {
    if out.Returned? {
      StillClosed(w.trace, w'.trace, b, id, part, size);
    } else {
      var n: nat :| n < size && LeftFor(w.trace, b, id, part, n, out.error);
      StillLeft(w, w', b, id, part, n, out.error, part');
    }
  }

  lemma StillLeft(w: World, w': World, b: nat, id: StepId, part: Part, n: nat, error: Error, part': Part)
    requires LeftFor(w.trace, b, id, part, n, error) && Grows(w, w', id, {part'}, 0) && part' != part
    ensures LeftFor(w'.trace, b, id, part, n, error)
  {
    var cid, t, t' := ChildId(id, part, n), w.trace, w'.trace;
    assert cid[|id|].part == part;
    StillClosed(t, t', b, id, part, n);
    StillNone(w, w', b, id, part, n + 1, {part'}, 0);
    StillUnclosed(w, w', b, id, part, n, {part'}, 0);
    var k :| b <= k < |t| && t[k].id == cid && t[k].kind.Failed?;
    assert t'[k] == t[k];
    forall k | b <= k < |t'| ensures t'[k].id == cid ==> k < |t| && t'[k] == t[k] {
    }
  }

  /** The try part is through, from event `b` on. */
  ghost predicate TryThrough(t: seq<Event>, b: nat, id: StepId, s: Step) {
    ClosedBefore(t, b, id, InTry, |s.trySteps|)
  }

  ghost predicate Caught(t: seq<Event>, b: nat, id: StepId, s: Step) {
    s.catchSteps != [] && ClosedBefore(t, b, id, InCatch, |s.catchSteps|)
  }

  ghost predicate CleanedUp(t: seq<Event>, b: nat, id: StepId, s: Step) {
    ClosedBefore(t, b, id, InFinally, |s.finallySteps|)
  }

  /** An error that a part was left with does not go with the part being through. */
  lemma LeftIsNotThrough(t: seq<Event>, b: nat, id: StepId, part: Part, size: nat, error: Error)
    requires LeftSomewhere(t, b, id, part, size, error)
    ensures !ClosedBefore(t, b, id, part, size)
  {
    var n: nat :| n < size && LeftFor(t, b, id, part, n, error);
    assert !ClosedSince(t, b, ChildId(id, part, n));
  }

  /** What try and catch parts tell. */
  ghost predicate TryCatchTells(t: seq<Event>, b: nat, id: StepId, s: Step, out: Outcome) {
    && (out.Returned? <==> TryThrough(t, b, id, s) || Caught(t, b, id, s))
    && (NoneFrom(t, b, id, InCatch, 0) <==> TryThrough(t, b, id, s) || s.catchSteps == [])
    && (out.Raised? ==>
          if s.catchSteps == [] then LeftSomewhere(t, b, id, InTry, |s.trySteps|, out.error)
          else LeftSomewhere(t, b, id, InCatch, |s.catchSteps|, out.error))
  }

  /** A part that ran begins with the start of its first child. */
  lemma BegunPart(e: Env, steps: seq<Step>, part: Part, id: StepId, d: Driver, w: World, b: nat)
    requires steps != [] && b <= |w.trace|
    ensures !NoneFrom(Sequence(e, steps, part, 0, id, d, w).w.trace, b, id, part, 0)
  {
    var w', cid := Sequence(e, steps, part, 0, id, d, w).w, ChildId(id, part, 0);
    SequenceStarts(e, steps, part, id, d, w);
    var k :| |w.trace| <= k < |w'.trace| && w'.trace[k].id == cid && w'.trace[k].kind == EventKind.Started;
    assert cid[..|id|] == id;
    assert Below(w'.trace[k], id, {part}, 0);
  }

  lemma TryCatchTold(e: Env, s: Step, id: StepId, d: Driver, w: World)
    ensures var r := TryCatch(e, s, id, d, w);
            && TryCatchTells(r.w.trace, |w.trace|, id, s, r.out)
            && NoneFrom(r.w.trace, |w.trace|, id, InFinally, 0) && w.trace <= r.w.trace
  {
    var b, t := |w.trace|, Sequence(e, s.trySteps, InTry, 0, id, d, w);
    PartTold(e, s.trySteps, InTry, id, d, w, b);
    if t.out.Raised? {
      LeftIsNotThrough(t.w.trace, b, id, InTry, |s.trySteps|, t.out.error);
      if s.catchSteps != [] { CatchTold(e, s, id, d, b, t.w, t.out); }
    }
  }

  lemma CatchTold(e: Env, s: Step, id: StepId, d: Driver, b: nat, w: World, out: Outcome)
    requires b <= |w.trace| && NoneFrom(w.trace, b, id, InCatch, 0) && NoneFrom(w.trace, b, id, InFinally, 0)
    requires s.catchSteps != [] && out.Raised? && PartTells(w.trace, b, id, InTry, |s.trySteps|, out)
    ensures var w' := Note(w, "error_message", e.text(out.error));
            var r := Sequence(e, s.catchSteps, InCatch, 0, id, d, w');
            && TryCatchTells(r.w.trace, b, id, s, r.out)
            && NoneFrom(r.w.trace, b, id, InFinally, 0) && w.trace <= r.w.trace
  {
    var w' := Note(w, "error_message", e.text(out.error));
    var r := Sequence(e, s.catchSteps, InCatch, 0, id, d, w');
    PartTold(e, s.catchSteps, InCatch, id, d, w', b);
    StillTold(w, r.w, b, id, InTry, |s.trySteps|, out, InCatch);
    LeftIsNotThrough(r.w.trace, b, id, InTry, |s.trySteps|, out.error);
    StillNone(w, r.w, b, id, InFinally, 0, {InCatch}, 0);
    BegunPart(e, s.catchSteps, InCatch, id, d, w', b);
    if r.out.Raised? { LeftIsNotThrough(r.w.trace, b, id, InCatch, |s.catchSteps|, r.out.error); }
  }

  /** What a whole block tells. */
  ghost predicate BlockTells(t: seq<Event>, b: nat, id: StepId, s: Step, out: Outcome) {
    && (out.Returned? <==> CleanedUp(t, b, id, s) && (TryThrough(t, b, id, s) || Caught(t, b, id, s)))
    && (NoneFrom(t, b, id, InCatch, 0) <==> TryThrough(t, b, id, s) || s.catchSteps == [])
    && (out.Raised? ==>
          if !CleanedUp(t, b, id, s) then LeftSomewhere(t, b, id, InFinally, |s.finallySteps|, out.error)
          else if s.catchSteps == [] then LeftSomewhere(t, b, id, InTry, |s.trySteps|, out.error)
          else LeftSomewhere(t, b, id, InCatch, |s.catchSteps|, out.error))
  }

  /** What the events since a try block's start tell of it: the catch part runs exactly when the
      try part is not through; the block returns exactly when its finally part and either
      its try part or a catch part are through; and the error it raises is that of the child
      at which the finally part, or else the catch part, or else, without a catch part, the
      try part was left. */
  lemma TryBlockTells(e: Env, s: Step, id: StepId, d: Driver, w: World)
    ensures var r := TryBlock(e, s, id, d, w); BlockTells(r.w.trace, |w.trace|, id, s, r.out)
  {
    var b, r := |w.trace|, TryCatch(e, s, id, d, w);
    TryCatchTold(e, s, id, d, w);
    if s.finallySteps != [] {
      var fd := if r.out.Returned? then r.out.driver else d;
      var f := Sequence(e, s.finallySteps, InFinally, 0, id, fd, r.w);
      PartTold(e, s.finallySteps, InFinally, id, fd, r.w, b);
      TryCatchStillTold(s, id, r, f.w, b);
      if f.out.Raised? { LeftIsNotThrough(f.w.trace, b, id, InFinally, |s.finallySteps|, f.out.error); }
    }
  }

  lemma TryCatchStillTold(s: Step, id: StepId, r: Result, w: World, b: nat)
    requires TryCatchTells(r.w.trace, b, id, s, r.out) && Grows(r.w, w, id, {InFinally}, 0)
    ensures TryCatchTells(w.trace, b, id, s, r.out)
  {
    SameThrough(r.w, w, b, id, InTry, |s.trySteps|);
    SameThrough(r.w, w, b, id, InCatch, |s.catchSteps|);
    SameNone(r.w, w, b, id);
    if r.out.Raised? {
      var part, size := if s.catchSteps == [] then InTry else InCatch,
                        if s.catchSteps == [] then |s.trySteps| else |s.catchSteps|;
      StillTold(r.w, w, b, id, part, size, r.out, InFinally);
    }
  }

  lemma SameThrough(w: World, w': World, b: nat, id: StepId, part: Part, size: nat)
    requires Grows(w, w', id, {InFinally}, 0) && part != InFinally
    ensures ClosedBefore(w'.trace, b, id, part, size) <==> ClosedBefore(w.trace, b, id, part, size)
  {
    if ClosedBefore(w.trace, b, id, part, size) { StillClosed(w.trace, w'.trace, b, id, part, size); }
    forall j | 0 <= j < size && !ClosedSince(w.trace, b, ChildId(id, part, j))
      ensures !ClosedSince(w'.trace, b, ChildId(id, part, j))
    {
      StillUnclosed(w, w', b, id, part, j, {InFinally}, 0);
    }
  }

  lemma SameNone(w: World, w': World, b: nat, id: StepId)
    requires Grows(w, w', id, {InFinally}, 0)
    ensures NoneFrom(w'.trace, b, id, InCatch, 0) <==> NoneFrom(w.trace, b, id, InCatch, 0)
  {
    if NoneFrom(w.trace, b, id, InCatch, 0) {
      StillNone(w, w', b, id, InCatch, 0, {InFinally}, 0);
    } else {
      var k :| b <= k < |w.trace| && Below(w.trace[k], id, {InCatch}, 0);
      assert w'.trace[k] == w.trace[k];
    }
  }

  /** If the try part raises and there is a catch part, its first child is started. */
  lemma CatchStarts(e: Env, s: Step, id: StepId, d: Driver, w: World)
    requires s.catchSteps != [] && Sequence(e, s.trySteps, InTry, 0, id, d, w).out.Raised?
    ensures var r := TryBlock(e, s, id, d, w); Seen(w, r.w, ChildId(id, InCatch, 0), EventKind.Started)
  {
    var may, t, c := May(true, true, true), Sequence(e, s.trySteps, InTry, 0, id, d, w), TryCatch(e, s, id, d, w);
    var w', cid := Note(t.w, "error_message", e.text(t.out.error)), ChildId(id, InCatch, 0);
    SequenceAdds(may, e, s.trySteps, InTry, 0, id, d, w);
    SequenceStarts(e, s.catchSteps, InCatch, id, d, w');
    SeenSince(w, w', c.w, cid, EventKind.Started);
    var fd := if c.out.Returned? then c.out.driver else d;
    SequenceAdds(may, e, s.finallySteps, InFinally, 0, id, fd, c.w);
    SeenLater(w, c.w, TryBlock(e, s, id, d, w).w, cid, EventKind.Started);
  }
}
