/** The two sliding windows of the rate limiter (foxrunner/rate_limit.py). Times are
    whole milliseconds. */
module RateLimit {

  // ---------------------------------------------------------------- one window

  /** How many of these times lie in the half-open window `(t - w, t]`. */
  function Count(times: seq<int>, t: int, w: int): nat {
    if times == [] then 0
    else Count(times[..|times| - 1], t, w) + if t - w < times[|times| - 1] <= t then 1 else 0
  }

  lemma CountAppend(times: seq<int>, x: int, t: int, w: int)
    ensures Count(times + [x], t, w) == Count(times, t, w) + if t - w < x <= t then 1 else 0
  {
    assert (times + [x])[..|times|] == times;
  }

  predicate NoneAfter(times: seq<int>, t: int) {
    forall i :: 0 <= i < |times| ==> times[i] <= t
  }

  predicate NoneBefore(times: seq<int>, t: int) {
    forall i :: 0 <= i < |times| ==> times[i] >= t
  }

  lemma {:induction false} CountOfGone(gone: seq<int>, kept: seq<int>, t: int, w: int)
    requires NoneAfter(gone, t - w)
    ensures Count(gone + kept, t, w) <= |kept|
  {
    if kept == [] {
      assert gone + kept == gone;
      if gone != [] {
        var init := gone[..|gone| - 1];
        CountOfGone(init, [], t, w);
        assert init + [] == init;
      }
    } else {
      var k := |kept| - 1;
      assert (gone + kept)[..|gone| + k] == gone + kept[..k];
      CountOfGone(gone, kept[..k], t, w);
    }
  }

  function AtLeastZero(n: int): nat {
    if n > 0 then n else 0
  }

  /** Never more than `max` of these times in any window, wherever it ends. */
  ghost predicate Limited(times: seq<int>, w: int, max: int) {
    forall t :: Count(times, t, w) <= AtLeastZero(max)
  }

  // ---------------------------------------------------------------- the deque

  /** `while bucket and bucket[0] <= cutoff: bucket.popleft()`. */
  function DropOld(bucket: seq<int>, cutoff: int): seq<int> {
    if bucket == [] || bucket[0] > cutoff then bucket else DropOld(bucket[1..], cutoff)
  }

  lemma {:induction false} DropOldSplits(bucket: seq<int>, cutoff: int) returns (gone: seq<int>)
    ensures bucket == gone + DropOld(bucket, cutoff)
    ensures NoneAfter(gone, cutoff)
  {
    if bucket == [] || bucket[0] > cutoff {
      gone := [];
    } else {
      var rest := DropOldSplits(bucket[1..], cutoff);
      gone := [bucket[0]] + rest;
    }
  }

  predicate DequeAdmits(bucket: seq<int>, now: int, w: int, max: int) {
    |DropOld(bucket, now - w)| < max
  }

  function DequeAfter(bucket: seq<int>, now: int, w: int, max: int): seq<int> {
    DropOld(bucket, now - w) + if DequeAdmits(bucket, now, w, max) then [now] else []
  }

  /** The bucket is a suffix of everything admitted; what left it is out of every
      window that ends at `last` or later. */
  ghost predicate DequeSafe(bucket: seq<int>, admitted: seq<int>, last: int, w: int, max: int) {
    && Limited(admitted, w, max)
    && |bucket| <= AtLeastZero(max)
    && exists gone :: GoneBefore(gone, bucket, admitted, last, w)
  }

  ghost predicate GoneBefore(gone: seq<int>, bucket: seq<int>, admitted: seq<int>, last: int, w: int) {
    admitted == gone + bucket && NoneAfter(gone, last - w)
  }

  /** One request keeps the deque safe, if the clock does not go back. */
  lemma DequeStaysSafe(bucket: seq<int>, admitted: seq<int>, last: int, now: int, w: int, max: int)
    requires DequeSafe(bucket, admitted, last, w, max) && last <= now
    ensures var ok := DequeAdmits(bucket, now, w, max);
            DequeSafe(DequeAfter(bucket, now, w, max), admitted + if ok then [now] else [], now, w, max)
  {
    var gone :| GoneBefore(gone, bucket, admitted, last, w);
    var dropped := DropOldSplits(bucket, now - w);
    var bucket' := DequeAfter(bucket, now, w, max);
    var admitted' := admitted + if DequeAdmits(bucket, now, w, max) then [now] else [];
    var gone' := gone + dropped;
    assert admitted' == gone' + bucket';
    forall t ensures Count(admitted', t, w) <= AtLeastZero(max) {
      if t < now {
        EarlierWindow(admitted, now, t, w, DequeAdmits(bucket, now, w, max));
      } else {
        CountOfGone(gone', bucket', t, w);
      }
    }
    assert GoneBefore(gone', bucket', admitted', now, w);
  }

  /** What is admitted now is in no window that ends before. */
  lemma EarlierWindow(admitted: seq<int>, now: int, t: int, w: int, ok: bool)
    requires t < now
    ensures Count(admitted + if ok then [now] else [], t, w) == Count(admitted, t, w)
  {
    CountAppend(admitted, now, t, w);
    assert admitted + [] == admitted;
  }

  /** The requests the deque admits out of these, in order, and its bucket after them. */
  function DequeRun(requests: seq<int>, w: int, max: int): (seq<int>, seq<int>) {
    if requests == [] then ([], [])
    else
      var (bucket, admitted) := DequeRun(requests[..|requests| - 1], w, max);
      var now := requests[|requests| - 1];
      (DequeAfter(bucket, now, w, max), admitted + if DequeAdmits(bucket, now, w, max) then [now] else [])
  }

  predicate Sorted(times: seq<int>) {
    forall i, j :: 0 <= i < j < |times| ==> times[i] <= times[j]
  }

  predicate StrictlySorted(times: seq<int>) {
    forall i, j :: 0 <= i < j < |times| ==> times[i] < times[j]
  }

  /** Whatever requests come, with a clock that does not go back the deque admits at
      most `max` in every half-open window, not just those that end at a request. */
  lemma {:induction false} DequeIsSafe(requests: seq<int>, w: int, max: int)
    requires Sorted(requests)
    ensures var (bucket, admitted) := DequeRun(requests, w, max);
            DequeSafe(bucket, admitted, if requests == [] then 0 else requests[|requests| - 1], w, max)
  {
    if requests == [] {
      assert GoneBefore([], [], [], 0, w);
    } else {
      var n := |requests| - 1;
      var before := requests[..n];
      DequeIsSafe(before, w, max);
      var (bucket, admitted) := DequeRun(before, w, max);
      var last := if before == [] then requests[n] else before[n - 1];
      if before == [] { assert GoneBefore([], [], [], last, w); }
      DequeStaysSafe(bucket, admitted, last, requests[n], w, max);
    }
  }

  // ---------------------------------------------------------------- Redis

  /** The sorted set of one key, each request's millisecond being both its member and
      its score, and the time of the last request, from which the key's time to live
      of `w + 1000` runs. */
  datatype Zset = Zset(members: set<int>, last: int)

  /** The members when a request arrives at `now`: none if the key has expired. */
  function Alive(z: Zset, now: int, w: int): set<int> {
    if now >= z.last + w + 1000 then {} else z.members
  }

  /** `zremrangebyscore`, `zadd`, `expire`. */
  function RedisAfter(z: Zset, now: int, w: int): Zset {
    Zset((set x | x in Alive(z, now, w) && !(0 <= x <= now - w)) + {now}, now)
  }

  /** `zcard` counts the request itself and rejected ones too. */
  predicate RedisAdmits(z: Zset, now: int, w: int, max: int) {
    |RedisAfter(z, now, w).members| <= max
  }

  /** The set holds all of these times after `t`. */
  ghost predicate Holds(members: set<int>, times: seq<int>, t: int) {
    forall i :: 0 <= i < |times| && times[i] > t ==> times[i] in members
  }

  /** Admitted requests still in a window that ends now or later are in the set. */
  ghost predicate RedisSafe(z: Zset, admitted: seq<int>, w: int, max: int) {
    && Limited(admitted, w, max)
    && StrictlySorted(admitted)
    && NoneBefore(admitted, 0) && NoneAfter(admitted, z.last)
    && Holds(z.members, admitted, z.last - w)
  }

  /** One request keeps the Redis window safe, if its millisecond is a new one. */
  lemma RedisStaysSafe(z: Zset, admitted: seq<int>, now: int, w: int, max: int)
    requires RedisSafe(z, admitted, w, max) && z.last < now && 0 <= now && w >= 0
    ensures var ok := RedisAdmits(z, now, w, max);
            RedisSafe(RedisAfter(z, now, w), admitted + if ok then [now] else [], w, max)
  {
    var z' := RedisAfter(z, now, w);
    if RedisAdmits(z, now, w, max) {
      var admitted' := admitted + [now];
      StillHeld(z, admitted, now, w);
      assert Holds(z'.members, admitted', now - w);
      forall t ensures Count(admitted', t, w) <= AtLeastZero(max) {
        CountAppend(admitted, now, t, w);
        if t >= now { CountInSet(admitted', t, w, z'.members); }
      }
    } else {
      StillHeld(z, admitted, now, w);
      assert admitted + [] == admitted;
    }
  }

  /** A request Redis recorded but did not answer. */
  lemma UnansweredStaysSafe(z: Zset, admitted: seq<int>, now: int, w: int, max: int)
    requires RedisSafe(z, admitted, w, max) && z.last < now && 0 <= now && w >= 0
    ensures RedisSafe(RedisAfter(z, now, w), admitted, w, max)
  {
    StillHeld(z, admitted, now, w);
  }

  /** What is removed, or lost with an expired key, is out of the window. */
  lemma StillHeld(z: Zset, times: seq<int>, now: int, w: int)
    requires NoneAfter(times, z.last) && Holds(z.members, times, z.last - w) && z.last < now && w >= 0
    ensures Holds(RedisAfter(z, now, w).members, times, now - w)
  {
    forall i | 0 <= i < |times| && times[i] > now - w ensures times[i] in RedisAfter(z, now, w).members {
      assert times[i] in z.members;
    }
  }

  /** Distinct times counted in a window are at most the members of a set that holds
      them all. */
  lemma {:induction false} CountInSet(times: seq<int>, t: int, w: int, members: set<int>)
    requires StrictlySorted(times)
    requires NoneAfter(times, t) && Holds(members, times, t - w)
    ensures Count(times, t, w) <= |members|
  {
    if times != [] {
      var n := |times| - 1;
      CountInSet(times[..n], t, w, if t - w < times[n] then members - {times[n]} else members);
    }
  }

  function RedisRun(requests: seq<int>, w: int, max: int): (Zset, seq<int>) {
    if requests == [] then (Zset({}, -1), [])
    else
      var (z, admitted) := RedisRun(requests[..|requests| - 1], w, max);
      var now := requests[|requests| - 1];
      (RedisAfter(z, now, w), admitted + if RedisAdmits(z, now, w, max) then [now] else [])
  }

  lemma {:induction false} RedisIsSafe(requests: seq<int>, w: int, max: int)
    requires StrictlySorted(requests) && NoneBefore(requests, 0) && w >= 0
    ensures var (z, admitted) := RedisRun(requests, w, max);
            RedisSafe(z, admitted, w, max) && z.last == if requests == [] then -1 else requests[|requests| - 1]
  {
    if requests == [] {
      assert Limited([], w, max);
    } else {
      var n := |requests| - 1;
      RedisIsSafe(requests[..n], w, max);
      var (z, admitted) := RedisRun(requests[..n], w, max);
      RedisStaysSafe(z, admitted, requests[n], w, max);
    }
  }

  // ---------------------------------------------------------------- refinement

  /** Every time the deque holds is in the set, unless it is about to leave both. */
  ghost predicate Refines(z: Zset, bucket: seq<int>, w: int) {
    StrictlySorted(bucket) && NoneAfter(bucket, z.last) && Holds(z.members, bucket, z.last - w)
  }

  lemma {:induction false} DropOldKeepsRecent(bucket: seq<int>, cutoff: int)
    requires StrictlySorted(bucket)
    ensures |DropOld(bucket, cutoff)| <= |bucket|
    ensures var kept := DropOld(bucket, cutoff);
            && StrictlySorted(kept) && NoneBefore(kept, cutoff + 1)
            && kept <= bucket[|bucket| - |kept|..]
  {
    if bucket != [] && bucket[0] <= cutoff { DropOldKeepsRecent(bucket[1..], cutoff); }
  }

  lemma {:induction false} DistinctInSet(times: seq<int>, members: set<int>)
    requires StrictlySorted(times) && forall i :: 0 <= i < |times| ==> times[i] in members
    ensures |times| <= |members|
  {
    if times != [] {
      var n := |times| - 1;
      DistinctInSet(times[..n], members - {times[n]});
    }
  }

  /** What the deque keeps is in the set beside the new request. */
  lemma KeptIsHeld(z: Zset, bucket: seq<int>, now: int, w: int)
    requires Refines(z, bucket, w) && z.last < now && w >= 0
    ensures var kept, z' := DropOld(bucket, now - w), RedisAfter(z, now, w);
            && StrictlySorted(kept) && NoneAfter(kept, now - 1)
            && (forall i :: 0 <= i < |kept| ==> kept[i] in z'.members)
            && |kept| < |z'.members|
  {
    var kept, z' := DropOld(bucket, now - w), RedisAfter(z, now, w);
    DropOldKeepsRecent(bucket, now - w);
    StillHeld(z, bucket, now, w);
    forall i | 0 <= i < |kept| ensures kept[i] in z'.members - {now} {
      assert kept[i] == bucket[|bucket| - |kept| + i];
    }
    DistinctInSet(kept, z'.members - {now});
  }

  lemma StepRefines(z: Zset, bucket: seq<int>, now: int, w: int, max: int)
    requires Refines(z, bucket, w) && z.last < now && w >= 0
    ensures RedisAdmits(z, now, w, max) ==> DequeAdmits(bucket, now, w, max)
    ensures Refines(RedisAfter(z, now, w), DequeAfter(bucket, now, w, max), w)
  {
    KeptIsHeld(z, bucket, now, w);
  }

  /** The Redis limiter refines the deque: on any requests at distinct, increasing
      milliseconds, each one Redis admits the deque admits too. */
  lemma {:induction false} RedisRefinesDeque(requests: seq<int>, w: int, max: int)
    requires StrictlySorted(requests) && NoneBefore(requests, 0) && w >= 0
    ensures var (z, byRedis) := RedisRun(requests, w, max);
            var (bucket, byDeque) := DequeRun(requests, w, max);
            && Refines(z, bucket, w)
            && z.last == (if requests == [] then -1 else requests[|requests| - 1])
            && forall x :: x in byRedis ==> x in byDeque
  {
    if requests != [] {
      var n := |requests| - 1;
      RedisRefinesDeque(requests[..n], w, max);
      var (z, byRedis) := RedisRun(requests[..n], w, max);
      var (bucket, byDeque) := DequeRun(requests[..n], w, max);
      StepRefines(z, bucket, requests[n], w, max);
    }
  }
}
