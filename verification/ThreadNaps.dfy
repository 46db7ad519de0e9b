/** What the threads of a parallel block sleep: exactly the waits that their retries ask for,
    in the order in which they are reported. */
module ThreadNaps {
  import opened Wrappers
  import opened Steps
  import opened Interpreter
  import opened ParallelBlocks

  /** How often thread `i` was retried, told from the block's own events. */
  function Retries(t: seq<Event>, i: nat): nat {
    if t == [] then 0
    else Retries(t[..|t| - 1], i) + if IsRetryOf(t[|t| - 1], i) then 1 else 0
  }

  predicate IsRetryOf(event: Event, i: nat) {
    event.kind.Retrying? && event.id != [] && event.id[|event.id| - 1].index == i
  }

  /** The sleep after an event that follows `before`. */
  function NapFor(steps: seq<Step>, before: seq<Event>, event: Event): seq<Nap> {
    if event.id == [] || event.id[|event.id| - 1].index >= |steps| then []
    else
      var i := event.id[|event.id| - 1].index;
      if event.kind.Retrying? && steps[i].ctl.delay > 0.0 then [NapAfter(steps[i], Retries(before, i))] else []
  }

  /** The n-th retry of a thread is followed by its step's n-th wait, if the step waits at all. */
  function NapsFor(steps: seq<Step>, t: seq<Event>): seq<Nap> {
    if t == [] then [] else NapsFor(steps, t[..|t| - 1]) + NapFor(steps, t[..|t| - 1], t[|t| - 1])
  }

  /** The thread is at the attempt that its retries have brought it to. */
  predicate IsAt(c: Child, retries: nat) {
    match c
    case Waiting(_) => retries == 0
    case Trying(k, _) => retries == k
    case Reporting(k, _, _) => retries == k
    case Done(_) => true
  }

  lemma OneEventMore(steps: seq<Step>, t: seq<Event>, event: Event, i: nat)
    ensures Retries(t + [event], i) == Retries(t, i) + if IsRetryOf(event, i) then 1 else 0
    ensures NapsFor(steps, t + [event]) == NapsFor(steps, t) + NapFor(steps, t, event)
  {
    assert (t + [event])[..|t|] == t;
  }

  lemma CallLeavesNoTrace(e: Env, s: Step, w: World)
    requires IsParallelSafe(s.stype)
    ensures var w' := AtomicAttempt(e, s, None, w).w; w'.trace == w.trace && w'.sleeps == w.sleeps
  {
    assert EnsureDriver(e, s.stype, None, w) == Tried(Returned(None), None, w);
  }

  /** The move of a thread adds at most one event, and the sleep it calls for. */
  lemma MoveNaps(e: Env, steps: seq<Step>, id: StepId, i: nat, c: Child, w: World, t: seq<Event>)
    returns (m: (Child, World), more: seq<Event>, gain: seq<Nap>)
    requires i < |steps| && IsParallelSafe(steps[i].stype) && IsAt(c, Retries(t, i))
    ensures m == ChildMove(e, steps[i], ChildId(id, InParallel, i), c, w)
    ensures m.1.trace == w.trace + more && IsAt(m.0, Retries(t + more, i))
    ensures m.1.sleeps == w.sleeps + gain && NapsFor(steps, t + more) == NapsFor(steps, t) + gain
    ensures forall j: nat :: j != i ==> Retries(t + more, j) == Retries(t, j)
  {
    var s, cid := steps[i], ChildId(id, InParallel, i);
    m, more, gain := ChildMove(e, s, cid, c, w), [], [];
    assert t + more == t;
    match c
    case Trying(_, ctx) => CallLeavesNoTrace(e, s, w.(ctx := ctx));
    case Reporting(k, _, error) =>
      if k + 1 < s.Attempts() {
        more, gain := NewEvent(steps, t, i, Event(cid, Retrying, s.stype, Some(error)));
      } else if s.ctl.continueOnError {
        more, gain := NewEvent(steps, t, i, Event(cid, Warned, s.stype, Some(error)));
      }
    case _ =>
  }

  /** Every event of a thread brings its sleep, and counts for no other thread. */
  lemma NewEvent(steps: seq<Step>, t: seq<Event>, i: nat, event: Event) returns (more: seq<Event>, gain: seq<Nap>)
    requires event.id != [] && event.id[|event.id| - 1].index == i
    ensures more == [event] && gain == NapFor(steps, t, event)
    ensures NapsFor(steps, t + more) == NapsFor(steps, t) + gain
    ensures Retries(t + more, i) == Retries(t, i) + if event.kind.Retrying? then 1 else 0
    ensures forall j: nat :: j != i ==> Retries(t + more, j) == Retries(t, j)
  {
    more, gain := [event], NapFor(steps, t, event);
    OneEventMore(steps, t, event, i);
    forall j: nat | j != i ensures Retries(t + more, j) == Retries(t, j) { OneEventMore(steps, t, event, j); }
  }

  lemma Regroup<T>(a: seq<T>, b: seq<T>, c: seq<T>)
    ensures a + b + c == a + (b + c)
  {
  }

  lemma NextNaps(e: Env, steps: seq<Step>, id: StepId, cs: seq<Child>, w: World, n: nat, t: seq<Event>)
    returns (cs': seq<Child>, w': World, more: seq<Event>, gain: seq<Nap>)
    requires |cs| == |steps| && AllParallelSafe(steps) && Unfinished(cs, |cs|) != []
    requires forall i :: 0 <= i < |cs| ==> IsAt(cs[i], Retries(t, i))
    ensures |cs'| == |cs| && Interleave(e, steps, id, cs, w, n) == Interleave(e, steps, id, cs', w', n + 1)
    ensures TotalMeasure(steps, cs', |cs'|) < TotalMeasure(steps, cs, |cs|)
    ensures w'.trace == w.trace + more && w'.sleeps == w.sleeps + gain
    ensures NapsFor(steps, t + more) == NapsFor(steps, t) + gain
    ensures forall i :: 0 <= i < |cs'| ==> IsAt(cs'[i], Retries(t + more, i))
  {
    var i := Scheduled(e, cs, w.calls, n);
    var m, event, nap := MoveNaps(e, steps, id, i, cs[i], w, t);
    ChildMoveDecreases(e, steps[i], ChildId(id, InParallel, i), cs[i], w);
    TotalMeasureUpdate(steps, cs, |cs|, i, m.0);
    cs', w', more, gain := cs[i := m.0], m.1, event, nap;
  }

  lemma {:induction false} InterleaveNaps(e: Env, steps: seq<Step>, id: StepId, cs: seq<Child>, w: World, n: nat,
                                          t: seq<Event>) returns (w': World, more: seq<Event>, gain: seq<Nap>)
    requires |cs| == |steps| && AllParallelSafe(steps)
    requires forall i :: 0 <= i < |cs| ==> IsAt(cs[i], Retries(t, i))
    ensures w' == Interleave(e, steps, id, cs, w, n).1 && w'.trace == w.trace + more
    ensures w'.sleeps == w.sleeps + gain && NapsFor(steps, t + more) == NapsFor(steps, t) + gain
    decreases TotalMeasure(steps, cs, |cs|)
  {
    if Unfinished(cs, |cs|) == [] {
      w', more, gain := w, [], [];
      assert t + more == t;
    } else {
      var cs', w1, event, nap := NextNaps(e, steps, id, cs, w, n, t);
      w', more, gain := InterleaveNaps(e, steps, id, cs', w1, n + 1, t + event);
      Regroup(t, event, more);
      Regroup(w.trace, event, more);
      Regroup(w.sleeps, nap, gain);
      Regroup(NapsFor(steps, t), nap, gain);
      more, gain := event + more, nap + gain;
    }
  }

  /** For any handlers and schedule, a parallel block sleeps exactly what its retries ask for:
      after the n-th retry of a step with a delay that step's n-th wait, and nothing else. */
  lemma ThreadsSleepBetweenRetries(e: Env, steps: seq<Step>, id: StepId, d: Driver, w: World)
    requires AllParallelSafe(steps)
    ensures var r := ParallelBlock(e, steps, id, d, w);
            && w.trace <= r.w.trace
            && r.w.sleeps == w.sleeps + NapsFor(steps, r.w.trace[|w.trace|..])
  {
    var w', more, gain := InterleaveNaps(e, steps, id, Threads(steps, w.ctx), w, 0, []);
    assert [] + more == more == w'.trace[|w.trace|..];
    assert [] + gain == gain;
    ThreadsDecide(e, steps, id, d, w);
  }
}
