/** The Redis limiter when requests share milliseconds: they count once, so the limit
    holds only as far as few of them do. */
module RedisRepeats {
  import opened RateLimit

  /** The times without immediate repetitions. */
  function Distinct(times: seq<int>): seq<int> {
    if |times| <= 1 then times
    else
      var n := |times| - 1;
      Distinct(times[..n]) + if times[n] == times[n - 1] then [] else [times[n]]
  }

  lemma {:induction false} DistinctIsStrict(times: seq<int>)
    requires Sorted(times)
    ensures StrictlySorted(Distinct(times)) && forall x :: x in Distinct(times) <==> x in times
    ensures times != [] ==> Distinct(times) != [] && Distinct(times)[|Distinct(times)| - 1] == times[|times| - 1]
  {
    if |times| > 1 {
      var n := |times| - 1;
      DistinctIsStrict(times[..n]);
      assert times == times[..n] + [times[n]] && times[..n][n - 1] == times[n - 1];
    }
  }

  lemma DistinctAppend(times: seq<int>, x: int)
    ensures Distinct(times + [x]) == Distinct(times) + if times != [] && times[|times| - 1] == x then [] else [x]
  {
    assert (times + [x])[..|times|] == times;
  }

  /** A second request in one millisecond is answered as the first, and changes nothing. */
  lemma SameMillisecondSameAnswer(z: Zset, now: int, w: int, max: int)
    requires w >= 0
    ensures var z' := RedisAfter(z, now, w);
            RedisAfter(z', now, w) == z' && (RedisAdmits(z', now, w, max) <==> RedisAdmits(z, now, w, max))
  {
    var z' := RedisAfter(z, now, w);
    assert RedisAfter(z', now, w).members == z'.members;
  }

  /** The run over these requests, repeated milliseconds and all, is the one over their
      distinct milliseconds. */
  ghost predicate AnsweredOnce(requests: seq<int>, z: Zset, admitted: seq<int>, w: int, max: int) {
    && (z, Distinct(admitted)) == RedisRun(Distinct(requests), w, max)
    && Sorted(admitted) && (forall x :: x in admitted ==> x in requests)
    && (requests != [] ==> LastAnswered(z, admitted, requests[|requests| - 1], w, max))
  }

  ghost predicate LastAnswered(z: Zset, admitted: seq<int>, now: int, w: int, max: int) {
    && RedisAfter(z, now, w) == z
    && (RedisAdmits(z, now, w, max) <==> admitted != [] && admitted[|admitted| - 1] == now)
  }

  function RedisNext(z: Zset, admitted: seq<int>, now: int, w: int, max: int): (Zset, seq<int>) {
    (RedisAfter(z, now, w), if RedisAdmits(z, now, w, max) then admitted + [now] else admitted)
  }

  lemma RedisRunAppend(requests: seq<int>, now: int, w: int, max: int)
    ensures var (z, admitted) := RedisRun(requests, w, max);
            RedisRun(requests + [now], w, max) == RedisNext(z, admitted, now, w, max)
  {
    assert (requests + [now])[..|requests|] == requests;
    var admitted := RedisRun(requests, w, max).1;
    assert admitted + [] == admitted;
  }

  lemma StaysSorted(admitted: seq<int>, before: seq<int>, now: int)
    requires Sorted(admitted) && Sorted(before + [now]) && forall x :: x in admitted ==> x in before
    ensures Sorted(admitted + [now])
  {
    forall i | 0 <= i < |admitted| ensures admitted[i] <= now {
      assert admitted[i] in admitted;
      var j :| 0 <= j < |before| && before[j] == admitted[i];
      assert (before + [now])[j] == admitted[i] && (before + [now])[|before|] == now;
    }
  }

  lemma SameAgain(before: seq<int>, z: Zset, admitted: seq<int>, now: int, w: int, max: int)
    requires Sorted(before + [now]) && AnsweredOnce(before, z, admitted, w, max)
    requires before != [] && before[|before| - 1] == now
    ensures var (z', admitted') := RedisNext(z, admitted, now, w, max);
            AnsweredOnce(before + [now], z', admitted', w, max)
  {
    DistinctAppend(before, now);
    DistinctAppend(admitted, now);
    StaysSorted(admitted, before, now);
    assert Distinct(before) + [] == Distinct(before) && Distinct(admitted) + [] == Distinct(admitted);
  }

  lemma NewMillisecond(before: seq<int>, z: Zset, admitted: seq<int>, now: int, w: int, max: int)
    requires Sorted(before + [now]) && w >= 0 && AnsweredOnce(before, z, admitted, w, max)
    requires before != [] ==> before[|before| - 1] != now
    ensures var (z', admitted') := RedisNext(z, admitted, now, w, max);
            AnsweredOnce(before + [now], z', admitted', w, max)
  {
    NotYet(before, now);
    assert now !in admitted;
    StaysSorted(admitted, before, now);
    FirstInItsMillisecond(z, admitted, now, w, max);
    OneMoreRun(before, z, Distinct(admitted), now, w, max);
  }

  lemma OneMoreRun(before: seq<int>, z: Zset, admitted: seq<int>, now: int, w: int, max: int)
    requires (z, admitted) == RedisRun(Distinct(before), w, max) && (before != [] ==> before[|before| - 1] != now)
    ensures RedisRun(Distinct(before + [now]), w, max) == RedisNext(z, admitted, now, w, max)
  {
    DistinctAppend(before, now);
    RedisRunAppend(Distinct(before), now, w, max);
  }

  lemma FirstInItsMillisecond(z: Zset, admitted: seq<int>, now: int, w: int, max: int)
    requires w >= 0 && now !in admitted
    ensures var (z', admitted') := RedisNext(z, admitted, now, w, max);
            LastAnswered(z', admitted', now, w, max)
            && (z', Distinct(admitted')) == RedisNext(z, Distinct(admitted), now, w, max)
  {
    SameMillisecondSameAnswer(z, now, w, max);
    DistinctAppend(admitted, now);
  }

  lemma NotYet(before: seq<int>, now: int)
    requires Sorted(before + [now]) && (before != [] ==> before[|before| - 1] != now)
    ensures forall x :: x in before ==> x < now
  {
    forall i | 0 <= i < |before| ensures before[i] < now {
      assert (before + [now])[i] == before[i] && (before + [now])[|before|] == now;
      assert (before + [now])[|before| - 1] == before[|before| - 1];
    }
  }

  /** Requests at any milliseconds are answered as if each millisecond had one. */
  lemma {:induction false} RepeatsCountOnce(requests: seq<int>, w: int, max: int) returns (z: Zset, admitted: seq<int>)
    requires Sorted(requests) && w >= 0
    ensures (z, admitted) == RedisRun(requests, w, max) && AnsweredOnce(requests, z, admitted, w, max)
  {
    if requests == [] {
      z, admitted := Zset({}, -1), [];
    } else {
      var before, now := requests[..|requests| - 1], requests[|requests| - 1];
      assert before + [now] == requests && Sorted(before);
      z, admitted := RepeatsCountOnce(before, w, max);
      z, admitted := OneMoreAnswered(before, z, admitted, now, w, max);
    }
  }

  lemma OneMoreAnswered(before: seq<int>, z: Zset, admitted: seq<int>, now: int, w: int, max: int)
    returns (z': Zset, admitted': seq<int>)
    requires Sorted(before + [now]) && w >= 0
    requires (z, admitted) == RedisRun(before, w, max) && AnsweredOnce(before, z, admitted, w, max)
    ensures (z', admitted') == RedisRun(before + [now], w, max) && AnsweredOnce(before + [now], z', admitted', w, max)
  {
    RedisRunAppend(before, now, w, max);
    var next := RedisNext(z, admitted, now, w, max);
    z', admitted' := next.0, next.1;
    if before != [] && before[|before| - 1] == now {
      SameAgain(before, z, admitted, now, w, max);
    } else {
      NewMillisecond(before, z, admitted, now, w, max);
    }
  }

  /** Whatever the milliseconds: in any window Redis admits requests of at most `max`
      different ones. */
  lemma RedisLimitsMilliseconds(requests: seq<int>, w: int, max: int)
    requires Sorted(requests) && NoneBefore(requests, 0) && w >= 0
    ensures Limited(Distinct(RedisRun(requests, w, max).1), w, max)
  {
    var z, times := RepeatsCountOnce(requests, w, max);
    DistinctIsStrict(requests);
    forall i | 0 <= i < |Distinct(requests)| ensures Distinct(requests)[i] >= 0 {
      assert Distinct(requests)[i] in requests;
    }
    RedisIsSafe(Distinct(requests), w, max);
  }

  /** How often each time occurs. */
  ghost predicate AtMostEach(times: seq<int>, m: nat) {
    forall x :: Count(times, x, 1) <= m
  }

  /** `m * k`, as so many additions. */
  function Times(m: nat, k: nat): nat {
    if k == 0 then 0 else Times(m, k - 1) + m
  }

  lemma {:induction false} TimesIsProduct(m: nat, k: nat)
    ensures Times(m, k) == m * k
  {
    if k > 0 {
      TimesIsProduct(m, k - 1);
      assert m * k == m * (k - 1) + m;
    }
  }

  lemma {:induction false} TimesGrows(m: nat, k: nat, l: nat)
    requires k <= l
    ensures Times(m, k) <= Times(m, l)
    decreases l
  {
    if k < l { TimesGrows(m, k, l - 1); }
  }

  /** Times in a window are at most `m` for each distinct one; the last one counts as
      often as it has come up. */
  ghost predicate WithinRepeats(times: seq<int>, t: int, w: int, m: nat) {
    var count, distinct := Count(times, t, w), Count(Distinct(times), t, w);
    && count <= Times(m, distinct)
    && (times != [] && t - w < times[|times| - 1] <= t ==>
          count + m <= Times(m, distinct) + Count(times, times[|times| - 1], 1))
  }

  lemma {:induction false} CountByDistinct(times: seq<int>, t: int, w: int, m: nat)
    requires Sorted(times) && AtMostEach(times, m)
    ensures WithinRepeats(times, t, w, m)
  {
    if times != [] {
      var n := |times| - 1;
      var init, x := times[..n], times[n];
      assert times == init + [x];
      forall y ensures Count(init, y, 1) <= m { CountAppend(init, x, y, 1); assert Count(times, y, 1) <= m; }
      CountByDistinct(init, t, w, m);
      if init != [] && init[|init| - 1] == x {
        SameAgainRepeats(init, x, t, w, m);
      } else {
        NewOneRepeats(init, x, t, w, m);
      }
    }
  }

  lemma SameAgainRepeats(init: seq<int>, x: int, t: int, w: int, m: nat)
    requires WithinRepeats(init, t, w, m) && init != [] && init[|init| - 1] == x && Count(init + [x], x, 1) <= m
    ensures WithinRepeats(init + [x], t, w, m)
  {
    CountAppend(init, x, t, w);
    CountAppend(init, x, x, 1);
    SameAgainCounts(init, x, t, w);
  }

  lemma NewOneRepeats(init: seq<int>, x: int, t: int, w: int, m: nat)
    requires Count(init, t, w) <= Times(m, Count(Distinct(init), t, w))
    requires (init != [] ==> init[|init| - 1] != x) && Count(init + [x], x, 1) <= m
    ensures WithinRepeats(init + [x], t, w, m)
  {
    var times, k := init + [x], Count(Distinct(init), t, w);
    CountAppend(init, x, t, w);
    CountAppend(init, x, x, 1);
    NewOneCounts(init, x, t, w);
    assert times[|times| - 1] == x && 1 <= Count(times, x, 1) <= m;
    if t - w < x <= t {
      TimesNext(m, k);
      assert Count(Distinct(times), t, w) == k + 1 && Count(times, t, w) == Count(init, t, w) + 1;
    } else {
      assert Count(Distinct(times), t, w) == k && Count(times, t, w) == Count(init, t, w);
    }
  }

  lemma TimesNext(m: nat, k: nat)
    ensures Times(m, k + 1) == Times(m, k) + m
  {
  }

  lemma SameAgainCounts(init: seq<int>, x: int, t: int, w: int)
    requires init != [] && init[|init| - 1] == x
    ensures Count(Distinct(init + [x]), t, w) == Count(Distinct(init), t, w)
  {
    DistinctAppend(init, x);
    assert Distinct(init) + [] == Distinct(init);
  }

  lemma NewOneCounts(init: seq<int>, x: int, t: int, w: int)
    requires init != [] ==> init[|init| - 1] != x
    ensures Count(Distinct(init + [x]), t, w) == Count(Distinct(init), t, w) + if t - w < x <= t then 1 else 0
  {
    DistinctAppend(init, x);
    CountAppend(Distinct(init), x, t, w);
  }

  /** Distinct times in a window are no more than its milliseconds. */
  lemma {:induction false} CountWithinWidth(times: seq<int>, t: int, w: int)
    requires StrictlySorted(times) && w >= 0
    ensures Count(times, t, w) <= w
  {
    if times != [] {
      var n := |times| - 1;
      var init, x := times[..n], times[n];
      if t - w < x <= t {
        CountEndsEarlier(init, x - 1, t, w);
        CountWithinWidth(init, x - 1, w - (t - x) - 1);
      } else {
        CountWithinWidth(init, t, w);
      }
    }
  }

  lemma {:induction false} CountEndsEarlier(times: seq<int>, t': int, t: int, w: int)
    requires NoneAfter(times, t') && t' <= t
    ensures Count(times, t, w) == Count(times, t', w - (t - t'))
  {
    if times != [] { CountEndsEarlier(times[..|times| - 1], t', t, w); }
  }

  /** Fewer are admitted than asked for, in every window. */
  lemma {:induction false} AdmittedAreRequests(requests: seq<int>, w: int, max: int, t: int, v: int)
    returns (admitted: seq<int>)
    ensures admitted == RedisRun(requests, w, max).1 && Count(admitted, t, v) <= Count(requests, t, v)
  {
    admitted := [];
    if requests != [] {
      var n := |requests| - 1;
      admitted := AdmittedAreRequests(requests[..n], w, max, t, v);
      var z := RedisRun(requests[..n], w, max).0;
      RedisRunAppend(requests[..n], requests[n], w, max);
      assert requests[..n] + [requests[n]] == requests;
      CountAppend(admitted, requests[n], t, v);
      admitted := RedisNext(z, admitted, requests[n], w, max).1;
    }
  }

  function Min(a: nat, b: nat): nat {
    if a <= b then a else b
  }

  /** With at most `m` requests in a millisecond Redis admits, in any window, at most `m`
      for each of its milliseconds, and for at most `max` of these. */
  lemma RedisIsSafeUpToRepeats(requests: seq<int>, w: nat, max: nat, m: nat, t: int)
    requires Sorted(requests) && NoneBefore(requests, 0) && AtMostEach(requests, m)
    ensures Count(RedisRun(requests, w, max).1, t, w) <= m * Min(w, max)
  {
    var z, admitted := RepeatsCountOnce(requests, w, max);
    forall x ensures Count(admitted, x, 1) <= m {
      var admitted' := AdmittedAreRequests(requests, w, max, x, 1);
      assert Count(requests, x, 1) <= m;
    }
    RedisLimitsMilliseconds(requests, w, max);
    CountByDistinct(admitted, t, w, m);
    DistinctIsStrict(admitted);
    CountWithinWidth(Distinct(admitted), t, w);
    assert Count(Distinct(admitted), t, w) <= AtLeastZero(max);
    TimesGrows(m, Count(Distinct(admitted), t, w), Min(w, max));
    TimesIsProduct(m, Min(w, max));
  }

  // ---------------------------------------------------------------- the worst case

  function Same(x: int, m: nat): (times: seq<int>)
    ensures |times| == m && forall i :: 0 <= i < m ==> times[i] == x
  {
    if m == 0 then [] else Same(x, m - 1) + [x]
  }

  /** `m` requests in each of the milliseconds 0, ..., n - 1. */
  function Burst(m: nat, n: nat): (times: seq<int>)
    ensures forall i :: 0 <= i < |times| ==> 0 <= times[i] < n
  {
    if n == 0 then [] else Burst(m, n - 1) + Same(n - 1, m)
  }

  lemma {:induction false} BurstIsSorted(m: nat, n: nat)
    ensures Sorted(Burst(m, n))
  {
    if n > 0 { BurstIsSorted(m, n - 1); }
  }

  lemma {:induction false} CountSame(init: seq<int>, x: int, m: nat, t: int, w: int)
    ensures Count(init + Same(x, m), t, w) == Count(init, t, w) + if t - w < x <= t then m else 0
  {
    if m == 0 {
      assert init + Same(x, 0) == init;
    } else {
      CountSame(init, x, m - 1, t, w);
      assert init + Same(x, m) == (init + Same(x, m - 1)) + [x];
      CountAppend(init + Same(x, m - 1), x, t, w);
    }
  }

  lemma {:induction false} BurstHasAtMostEach(m: nat, n: nat, x: int)
    ensures Count(Burst(m, n), x, 1) <= if 0 <= x < n then m else 0
  {
    if n > 0 {
      BurstHasAtMostEach(m, n - 1, x);
      CountSame(Burst(m, n - 1), n - 1, m, x, 1);
    }
  }

  /** All of them lie in one window that is wide enough. */
  lemma {:induction false} BurstInOneWindow(m: nat, n: nat, t: int, w: int)
    requires n <= t + 1 && t - w < 0
    ensures Count(Burst(m, n), t, w) == Times(m, n)
  {
    if n > 0 {
      BurstInOneWindow(m, n - 1, t, w);
      assert Times(m, n) == Times(m, n - 1) + m;
      CountSame(Burst(m, n - 1), n - 1, m, t, w);
    }
  }

  ghost predicate Below(members: set<int>, n: nat) {
    forall x :: x in members ==> 0 <= x < n
  }

  lemma {:induction false} SmallSet(members: set<int>, n: nat)
    requires Below(members, n)
    ensures |members| <= n
  {
    if n == 0 {
      forall x: int ensures x !in members {}
    } else {
      SmallSet(members - {n - 1}, n - 1);
    }
  }

  lemma OneMoreBelow(z: Zset, now: int, n: nat, w: nat, max: nat)
    requires Below(z.members, n) && 0 <= now < n <= max
    ensures Below(RedisAfter(z, now, w).members, n) && RedisAdmits(z, now, w, max)
  {
    SmallSet(RedisAfter(z, now, w).members, n);
  }

  /** Requests at no more than `max` different milliseconds are all admitted. */
  lemma {:induction false} FewMillisecondsAreAdmitted(requests: seq<int>, n: nat, w: nat, max: nat) returns (z: Zset)
    requires n <= max && forall i :: 0 <= i < |requests| ==> 0 <= requests[i] < n
    ensures (z, requests) == RedisRun(requests, w, max) && Below(z.members, n)
  {
    z := Zset({}, -1);
    if requests != [] {
      var k := |requests| - 1;
      z := FewMillisecondsAreAdmitted(requests[..k], n, w, max);
      RedisRunAppend(requests[..k], requests[k], w, max);
      OneMoreBelow(z, requests[k], n, w, max);
      assert requests[..k] + [requests[k]] == requests;
      z := RedisAfter(z, requests[k], w);
    }
  }

  /** Redis keeps its limit on all requests with at most `m` in a millisecond. */
  ghost predicate KeepsLimit(w: nat, max: nat, m: nat) {
    forall requests | Sorted(requests) && NoneBefore(requests, 0) && AtMostEach(requests, m) ::
      Limited(RedisRun(requests, w, max).1, w, max)
  }

  /** It does if and only if `m` for each of the window's milliseconds, or of `max` of
      these if they are more, are within the limit. */
  lemma RedisIsSafeIffFewRepeat(w: nat, max: nat, m: nat)
    ensures KeepsLimit(w, max, m) <==> m * Min(w, max) <= max
  {
    var n := Min(w, max);
    if m * n <= max {
      forall requests | Sorted(requests) && NoneBefore(requests, 0) && AtMostEach(requests, m)
        ensures Limited(RedisRun(requests, w, max).1, w, max)
      {
        forall t ensures Count(RedisRun(requests, w, max).1, t, w) <= AtLeastZero(max) {
          RedisIsSafeUpToRepeats(requests, w, max, m, t);
        }
      }
    } else {
      var requests := Burst(m, n);
      BurstIsSorted(m, n);
      forall x ensures Count(requests, x, 1) <= m { BurstHasAtMostEach(m, n, x); }
      var z := FewMillisecondsAreAdmitted(requests, n, w, max);
      BurstInOneWindow(m, n, n - 1, w);
      TimesIsProduct(m, n);
      assert Count(RedisRun(requests, w, max).1, n - 1, w) > AtLeastZero(max);
      assert !Limited(RedisRun(requests, w, max).1, w, max);
    }
  }

  /** The least of these cases: any number of requests within one millisecond is
      admitted. */
  lemma SameMillisecondIsUndercounted(now: nat, n: nat, w: nat, max: nat)
    requires max >= 1
    ensures RedisRun(Same(now, n), w, max).1 == Same(now, n)
  {
    var once := SameInSet(now, n, w, max);
  }

  lemma {:induction false} SameInSet(now: nat, n: nat, w: nat, max: nat) returns (z: Zset)
    requires max >= 1
    ensures (z, Same(now, n)) == RedisRun(Same(now, n), w, max) && z.members <= {now}
  {
    z := Zset({}, -1);
    if n > 0 {
      z := SameInSet(now, n - 1, w, max);
      RedisRunAppend(Same(now, n - 1), now, w, max);
      assert RedisAfter(z, now, w).members == {now};
      z := RedisAfter(z, now, w);
    }
  }
}
