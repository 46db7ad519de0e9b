/** The time slept between retries: `delay * backoff**attempt` seconds. */
module RetryWaits {
  import opened Steps
  import opened Interpreter
  import opened WorkBound
  import opened ClosingEvents
  import opened Wrappers

  function Pow(x: real, n: nat): real {
    if n == 0 then 1.0 else x * Pow(x, n - 1)
  }

  function Seconds(nap: Nap): real {
    nap.delay * Pow(nap.backoff, nap.attempt)
  }

  /** `p(0) + ... + p(n - 1)`. */
  function Series(p: nat -> real, n: nat): real {
    if n == 0 then 0.0 else Series(p, n - 1) + p(n - 1)
  }

  /** The loader's checks: no negative delay, no backoff below 1. */
  predicate ValidPace(s: Step) {
    s.ctl.delay >= 0.0 && s.ctl.backoff >= 1.0
  }

  lemma {:induction false} PowAtLeastOne(x: real, n: nat)
    requires x >= 1.0
    ensures Pow(x, n) >= 1.0
  {
    if n > 0 {
      PowAtLeastOne(x, n - 1);
      Scale(Pow(x, n - 1), 1.0, x);
    }
  }

  lemma Scale(a: real, x: real, y: real)
    requires a >= 0.0 && x <= y
    ensures x * a <= y * a && a * x <= a * y
  {
  }

  /** Waits are never negative and never get shorter from one retry to the next. */
  lemma WaitsGrow(s: Step, k: nat)
    requires ValidPace(s)
    ensures 0.0 <= Seconds(NapAfter(s, k)) <= Seconds(NapAfter(s, k + 1))
  {
    var p := Pow(s.ctl.backoff, k);
    PowAtLeastOne(s.ctl.backoff, k);
    Scale(p, 1.0, s.ctl.backoff);
    Scale(s.ctl.delay, p, Pow(s.ctl.backoff, k + 1));
    Scale(s.ctl.delay, 0.0, p);
  }

  lemma PacedIsTimed(s: Step)
    requires ValidPace(s)
    ensures Timed(s, Seconds)
  {
    forall k: nat ensures Seconds(NapAfter(s, k)) >= 0.0 {
      WaitsGrow(s, k);
    }
  }

  lemma MoveTerm(d: real, a: real, b: real, c: real, b': real, x: real, y: real)
    requires b' == b + c && x == d * c && y == d * (a - b')
    ensures x + y == d * (a - b)
  {
    assert y == d * (a - b - c) == d * (a - b) - d * c;
  }

  /** With waits of `d * p(k)`, those after attempts k, k+1, ... add up to `d` times the
      rest of the series. */
  lemma {:induction false} RetrySleepIsSeries(s: Step, f: Measure, d: real, p: nat -> real, k: nat)
    requires k < s.Attempts() && forall j: nat :: f(NapAfter(s, j)) == d * p(j)
    ensures RetrySleep(s, f, k) == d * (Series(p, s.Attempts() - 1) - Series(p, k))
    decreases s.Attempts() - k
  {
    if k + 1 < s.Attempts() {
      RetrySleepIsSeries(s, f, d, p, k + 1);
      SeriesNext(p, k);
      MoveTerm(d, Series(p, s.Attempts() - 1), Series(p, k), p(k), Series(p, k + 1),
               f(NapAfter(s, k)), RetrySleep(s, f, k + 1));
    }
  }

  lemma SeriesNext(p: nat -> real, k: nat)
    ensures Series(p, k + 1) == Series(p, k) + p(k)
  {
  }

  /** One visit of a step whose attempts all fail sleeps
      `delay * sum_{i<retry} backoff**i` in all. */
  lemma RetrySleepIsGeometric(s: Step)
    ensures RetrySleep(s, Seconds, 0) == s.ctl.delay * Series((i: nat) => Pow(s.ctl.backoff, i), s.Attempts() - 1)
  {
    RetrySleepIsSeries(s, Seconds, s.ctl.delay, (i: nat) => Pow(s.ctl.backoff, i), 0);
  }

  /** What the attempts k, k+1, ... of one visit sleep themselves, in blocks between the
      retries of their steps. */
  function SleptInside(e: Env, s: Step, f: Measure, id: StepId, k: nat, d: Driver, w: World): real
    requires k < s.Attempts()
    decreases s.Attempts() - k
  {
    var a := Attempt(e, s, id, d, w);
    Sum(a.w.sleeps, f) - Sum(w.sleeps, f)
    + if a.out.Raised? && k + 1 < s.Attempts() then
        SleptInside(e, s, f, id, k + 1, a.held, Retry(s, id, k, a.out.error, a.w))
      else 0.0
  }

  /** A visit whose attempts all fail sleeps, besides what they sleep themselves, exactly
      the waits between them. */
  lemma {:induction false} FailedVisitSleeps(e: Env, s: Step, f: Measure, id: StepId, k: nat, d: Driver, w: World)
    requires k < s.Attempts() && AllAttemptsRaise(e, s, id, k, d, w)
    requires s.ctl.delay <= 0.0 ==> forall j: nat :: f(NapAfter(s, j)) == 0.0
    ensures Sum(Attempts(e, s, id, k, d, w).w.sleeps, f)
         == Sum(w.sleeps, f) + SleptInside(e, s, f, id, k, d, w) + RetrySleep(s, f, k)
    decreases s.Attempts() - k
  {
    var a := Attempt(e, s, id, d, w);
    if k + 1 < s.Attempts() {
      var w' := Retry(s, id, k, a.out.error, a.w);
      NapTakes(s, f, k, Emit(a.w, id, Retrying, s.stype, Some(a.out.error)));
      FailedVisitSleeps(e, s, f, id, k + 1, a.held, w');
      FailedAttemptGoesOn(e, s, f, id, k, d, w, a, w');
    } else {
      assert Attempts(e, s, id, k, d, w) == Exhausted(e, s, id, a.out.error, a.held, a.w);
    }
  }

  lemma FailedAttemptGoesOn(e: Env, s: Step, f: Measure, id: StepId, k: nat, d: Driver, w: World, a: Tried, w': World)
    requires k + 1 < s.Attempts() && a == Attempt(e, s, id, d, w) && a.out.Raised?
    requires w' == Retry(s, id, k, a.out.error, a.w)
    ensures Attempts(e, s, id, k, d, w) == Attempts(e, s, id, k + 1, a.held, w')
    ensures SleptInside(e, s, f, id, k, d, w)
         == Sum(a.w.sleeps, f) - Sum(w.sleeps, f) + SleptInside(e, s, f, id, k + 1, a.held, w')
    ensures RetrySleep(s, f, k) == f(NapAfter(s, k)) + RetrySleep(s, f, k + 1)
  {
  }

  lemma NapTakes(s: Step, f: Measure, k: nat, w: World)
    requires s.ctl.delay <= 0.0 ==> f(NapAfter(s, k)) == 0.0
    ensures Sum(Pause(s, k, w).sleeps, f) == Sum(w.sleeps, f) + f(NapAfter(s, k))
  {
    var sleeps := w.sleeps + [NapAfter(s, k)];
    assert sleeps[..|sleeps| - 1] == w.sleeps;
  }

  lemma AtomicTakesNoNap(e: Env, s: Step, f: Measure, id: StepId, d: Driver, w: World)
    requires IsAtomic(s.stype)
    ensures Sum(Attempt(e, s, id, d, w).w.sleeps, f) == Sum(w.sleeps, f)
  {
    assert Attempt(e, s, id, d, w).w.sleeps == w.sleeps;
  }

  lemma {:induction false} AtomicSleepsNothing(e: Env, s: Step, f: Measure, id: StepId, k: nat, d: Driver, w: World)
    requires k < s.Attempts() && IsAtomic(s.stype)
    ensures SleptInside(e, s, f, id, k, d, w) == 0.0
    decreases s.Attempts() - k
  {
    var a := Attempt(e, s, id, d, w);
    if k + 1 < s.Attempts() && a.out.Raised? {
      AtomicSleepsNothing(e, s, f, id, k + 1, a.held, Retry(s, id, k, a.out.error, a.w));
    }
    AtomicSleepsOn(e, s, f, id, k, d, w, a);
  }

  lemma AtomicSleepsOn(e: Env, s: Step, f: Measure, id: StepId, k: nat, d: Driver, w: World, a: Tried)
    requires k < s.Attempts() && IsAtomic(s.stype) && a == Attempt(e, s, id, d, w)
    requires k + 1 < s.Attempts() && a.out.Raised? ==>
               SleptInside(e, s, f, id, k + 1, a.held, Retry(s, id, k, a.out.error, a.w)) == 0.0
    ensures SleptInside(e, s, f, id, k, d, w) == 0.0
  {
    AtomicTakesNoNap(e, s, f, id, d, w);
  }

  /** In a run, one visit of an atomic step whose attempts all fail sleeps exactly
      `delay * sum_{i<retry} backoff**i`. */
  lemma FailedVisitSleepsGeometric(e: Env, s: Step, id: StepId, d: Driver, w: World)
    requires ValidPace(s) && IsAtomic(s.stype)
    requires Condition(e, s, w) == Some(true) && AllAttemptsRaise(e, s, id, 0, d, w)
    ensures Sum(ExecStep(e, s, id, d, w).w.sleeps, Seconds) - Sum(w.sleeps, Seconds)
         == s.ctl.delay * Series((i: nat) => Pow(s.ctl.backoff, i), s.Attempts() - 1)
  {
    if s.ctl.delay <= 0.0 {
      forall j: nat ensures Seconds(NapAfter(s, j)) == 0.0 {}
    }
    FailedVisitSleeps(e, s, Seconds, id, 0, d, w);
    AtomicSleepsNothing(e, s, Seconds, id, 0, d, w);
    RetrySleepIsGeometric(s);
  }
}
