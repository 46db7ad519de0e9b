/** Logs of browsers launched and told to quit. */
module BrowserLogs {
  import opened Wrappers
  import opened Interpreter

  /** The browsers launched and not yet told to quit. */
  function Live(log: seq<BrowserEvent>): set<nat> {
    if log == [] then {}
    else
      var before, event := Live(log[..|log| - 1]), log[|log| - 1];
      match event
      case Launch => before + {|log| - 1}
      case Quit(id) => before - {id}
  }

  /** At every moment of the run at most one browser is live. */
  predicate OneAtATime(log: seq<BrowserEvent>) {
    |Live(log)| <= 1 && (log != [] ==> OneAtATime(log[..|log| - 1]))
  }

  lemma {:induction false} OneAtEveryMoment(log: seq<BrowserEvent>, k: nat)
    requires OneAtATime(log) && k <= |log|
    ensures |Live(log[..k])| <= 1
  {
    if k == |log| {
      assert log[..k] == log;
    } else {
      assert log[..|log| - 1][..k] == log[..k];
      OneAtEveryMoment(log[..|log| - 1], k);
    }
  }

  function Held(d: Driver): set<nat> {
    if d.Some? then {d.value} else {}
  }

  /** The live browsers that the holder of `d` does not hold. */
  function Others(log: seq<BrowserEvent>, d: Driver): set<nat> {
    Live(log) - Held(d)
  }

  lemma {:induction false} LiveAreNumbered(log: seq<BrowserEvent>)
    ensures forall b :: b in Live(log) ==> b < |log|
  {
    if log != [] { LiveAreNumbered(log[..|log| - 1]); }
  }

  /** The driver a caller that passed `d` holds afterwards. */
  function Kept(out: Outcome, d: Driver): Driver {
    if out.Returned? then out.driver else d
  }

  /** From `log`, holding `d`, to `log'`, holding `d'`: of the live browsers exactly those
      dropped are no longer held; and where none is, there never were two. */
  ghost predicate Settles(log: seq<BrowserEvent>, d: Driver, log': seq<BrowserEvent>, d': Driver, dropped: set<nat>) {
    && Others(log', d') == Others(log, d) + dropped
    && (OneAtATime(log) && Others(log, d) == {} && dropped == {} ==> OneAtATime(log'))
  }

  lemma Chained(log0: seq<BrowserEvent>, d0: Driver, log1: seq<BrowserEvent>, d1: Driver,
                log2: seq<BrowserEvent>, d2: Driver, x: set<nat>, y: set<nat>)
    requires Settles(log0, d0, log1, d1, x) && Settles(log1, d1, log2, d2, y)
    ensures Settles(log0, d0, log2, d2, x + y)
  {
  }

  /** ... when the first piece drops nothing. */
  lemma ChainedAfter(log0: seq<BrowserEvent>, d0: Driver, log1: seq<BrowserEvent>, d1: Driver,
                     log2: seq<BrowserEvent>, d2: Driver, x: set<nat>)
    requires Settles(log0, d0, log1, d1, {}) && Settles(log1, d1, log2, d2, x)
    ensures Settles(log0, d0, log2, d2, x)
  {
  }

  lemma NothingSettles(log: seq<BrowserEvent>, d: Driver)
    ensures Settles(log, d, log, d, {})
  {
  }

  lemma LaunchSettles(log: seq<BrowserEvent>)
    ensures Settles(log, None, log + [Launch], Some(|log|), {})
  {
    var log' := log + [Launch];
    LiveAreNumbered(log);
    assert log'[..|log|] == log;
    assert Live(log') == Live(log) + {|log|};
    assert Live(log') - {|log|} == Live(log);
  }

  lemma QuitSettles(log: seq<BrowserEvent>, b: nat, d: Driver)
    requires d.None? || d == Some(b)
    ensures Settles(log, Some(b), log + [Quit(b)], d, {})
  {
    var log' := log + [Quit(b)];
    assert log'[..|log|] == log;
    assert Live(log') == Live(log) - {b} == Live(log') - Held(d);
  }
}
