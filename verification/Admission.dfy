/** Exactly which requests the two windows admit: the deque as long as fewer than the limit
    were admitted in the window up to now, Redis as long as fewer came in it, rejected ones
    included. */
module Admission {
  import opened RateLimit

  /** All of these times lie in the window that ends at `t`. */
  predicate AllInside(times: seq<int>, t: int, w: int) {
    forall i :: 0 <= i < |times| ==> t - w < times[i] <= t
  }

  lemma {:induction false} CountSplit(gone: seq<int>, kept: seq<int>, t: int, w: int)
    requires NoneAfter(gone, t - w) && AllInside(kept, t, w)
    ensures Count(gone + kept, t, w) == |kept|
    decreases |gone| + |kept|
  {
    if kept != [] {
      var k := |kept| - 1;
      assert (gone + kept)[..|gone| + k] == gone + kept[..k];
      CountSplit(gone, kept[..k], t, w);
    } else if gone != [] {
      var k := |gone| - 1;
      assert (gone + kept)[..k] == gone[..k] + kept;
      CountSplit(gone[..k], kept, t, w);
    }
  }

  lemma {:induction false} DropOldKeepsInside(bucket: seq<int>, now: int, w: int)
    requires Sorted(bucket) && NoneAfter(bucket, now)
    ensures AllInside(DropOld(bucket, now - w), now, w)
  {
    if bucket != [] && bucket[0] <= now - w { DropOldKeepsInside(bucket[1..], now, w); }
  }

  lemma {:induction false} DropOldStaysSorted(bucket: seq<int>, cutoff: int)
    requires Sorted(bucket)
    ensures Sorted(DropOld(bucket, cutoff))
  {
    if bucket != [] && bucket[0] <= cutoff { DropOldStaysSorted(bucket[1..], cutoff); }
  }

  /** The bucket ends what was admitted, in order and up to `last`; what left it is out of
      every window that ends then or later. */
  ghost predicate Ends(gone: seq<int>, bucket: seq<int>, admitted: seq<int>, last: int, w: int) {
    admitted == gone + bucket && NoneAfter(gone, last - w) && Sorted(bucket) && NoneAfter(bucket, last)
  }

  lemma SortedMore(times: seq<int>, x: int)
    requires Sorted(times) && NoneAfter(times, x)
    ensures Sorted(times + [x]) && NoneAfter(times + [x], x)
  {
  }

  lemma NeitherAfter(a: seq<int>, b: seq<int>, t: int)
    requires NoneAfter(a, t) && NoneAfter(b, t)
    ensures NoneAfter(a + b, t)
  {
  }

  lemma NoneLater(times: seq<int>, t: int, u: int)
    requires NoneAfter(times, t) && t <= u
    ensures NoneAfter(times, u)
  {
  }

  lemma InsideIsNotAfter(times: seq<int>, t: int, w: int)
    requires AllInside(times, t, w)
    ensures NoneAfter(times, t)
  {
  }

  lemma Kept(bucket: seq<int>, now: int, w: int) returns (dropped: seq<int>)
    requires Sorted(bucket) && NoneAfter(bucket, now)
    ensures var kept := DropOld(bucket, now - w);
            && bucket == dropped + kept && NoneAfter(dropped, now - w)
            && AllInside(kept, now, w) && NoneAfter(kept, now) && Sorted(kept)
  {
    dropped := DropOldSplits(bucket, now - w);
    DropOldKeepsInside(bucket, now, w);
    DropOldStaysSorted(bucket, now - w);
    InsideIsNotAfter(DropOld(bucket, now - w), now, w);
  }

  lemma Regrouped(a: seq<int>, b: seq<int>, c: seq<int>)
    ensures a + (b + c) == a + b + c
  {
  }

  /** What a later request finds in the bucket are those admitted in its window. */
  lemma Recounted(gone: seq<int>, bucket: seq<int>, admitted: seq<int>, last: int, now: int, w: int)
    returns (gone': seq<int>, kept: seq<int>)
    requires Ends(gone, bucket, admitted, last, w) && last <= now
    ensures kept == DropOld(bucket, now - w) && Ends(gone', kept, admitted, now, w)
    ensures |kept| == Count(admitted, now, w)
  {
    NoneLater(bucket, last, now);
    NoneLater(gone, last - w, now - w);
    var dropped := Kept(bucket, now, w);
    kept := DropOld(bucket, now - w);
    gone' := gone + dropped;
    NeitherAfter(gone, dropped, now - w);
    Regrouped(gone, dropped, kept);
    CountSplit(gone', kept, now, w);
  }

  lemma {:induction false} DequeEnds(requests: seq<int>, now: int, w: int, max: int) returns (gone: seq<int>)
    requires Sorted(requests) && NoneAfter(requests, now)
    ensures var (bucket, admitted) := DequeRun(requests, w, max); Ends(gone, bucket, admitted, now, w)
  {
    gone := [];
    if requests != [] {
      var n := |requests| - 1;
      var (bucket, admitted) := DequeRun(requests[..n], w, max);
      gone := DequeEnds(requests[..n], requests[n], w, max);
      gone := NextEnds(gone, bucket, admitted, requests[n], now, w, max);
    }
  }

  lemma NextEnds(gone: seq<int>, bucket: seq<int>, admitted: seq<int>, now: int, later: int, w: int, max: int)
    returns (gone': seq<int>)
    requires Ends(gone, bucket, admitted, now, w) && now <= later
    ensures var admitted' := admitted + if DequeAdmits(bucket, now, w, max) then [now] else [];
            Ends(gone', DequeAfter(bucket, now, w, max), admitted', later, w)
  {
    var kept;
    gone', kept := Recounted(gone, bucket, admitted, now, now, w);
    NoneLater(gone', now - w, later - w);
    if DequeAdmits(bucket, now, w, max) {
      SortedMore(kept, now);
      NoneLater(kept + [now], now, later);
      assert admitted + [now] == gone' + (kept + [now]);
    } else {
      NoneLater(kept, now, later);
      assert kept + [] == kept && admitted + [] == admitted;
    }
  }

  /** With a clock that does not go back the deque admits a request exactly when it has
      admitted fewer than the limit in the window that ends with it. */
  lemma DequeAdmitsExactly(requests: seq<int>, now: int, w: int, max: int)
    requires Sorted(requests) && NoneAfter(requests, now)
    ensures var (bucket, admitted) := DequeRun(requests, w, max);
            DequeAdmits(bucket, now, w, max) <==> Count(admitted, now, w) < max
  {
    var (bucket, admitted) := DequeRun(requests, w, max);
    var gone := DequeEnds(requests, now, w, max);
    var _, kept := Recounted(gone, bucket, admitted, now, now, w);
  }

  // ---------------------------------------------------------------- Redis

  /** The set holds the requests of the window that ends at `last` and nothing later. */
  ghost predicate Mirrors(members: set<int>, requests: seq<int>, last: int, w: int) {
    && (forall x :: x in members ==> x in requests)
    && forall i :: 0 <= i < |requests| && requests[i] > last - w ==> requests[i] in members
  }

  lemma LastIsNew(requests: seq<int>)
    requires requests != [] && StrictlySorted(requests)
    ensures requests[|requests| - 1] !in requests[..|requests| - 1] && StrictlySorted(requests[..|requests| - 1])
  {
  }

  lemma {:induction false} CountOfMembers(requests: seq<int>, t: int, w: int, members: set<int>)
    requires StrictlySorted(requests) && NoneAfter(requests, t)
    requires forall x :: x in members <==> x in requests && x > t - w
    ensures |members| == Count(requests, t, w)
  {
    if requests == [] {
      assert forall x :: x !in members;
      assert members == {};
    } else {
      var n := |requests| - 1;
      var x, init := requests[n], requests[..n];
      LastIsNew(requests);
      assert requests == init + [x];
      CountOfMembers(init, t, w, members - {x});
    }
  }

  lemma RedisMembers(z: Zset, requests: seq<int>, now: int, w: int)
    requires NoneBefore(requests, 0) && NoneAfter(requests, z.last) && z.last < now && 0 <= now && w >= 0
    requires Mirrors(z.members, requests, z.last, w)
    ensures forall x :: x in RedisAfter(z, now, w).members <==> (x in requests && x > now - w) || x == now
  {
    forall x ensures x in RedisAfter(z, now, w).members <==> (x in requests && x > now - w) || x == now {
      if x in requests { assert 0 <= x <= z.last; }
    }
  }

  /** One request more. */
  lemma RedisCounts(z: Zset, requests: seq<int>, now: int, w: int)
    requires StrictlySorted(requests) && NoneBefore(requests, 0) && NoneAfter(requests, now - 1) && 0 <= now && w >= 0
    requires z.last == if requests == [] then -1 else requests[|requests| - 1]
    requires Mirrors(z.members, requests, z.last, w)
    ensures var z' := RedisAfter(z, now, w);
            && Mirrors(z'.members, requests + [now], now, w) && |z'.members| == Count(requests, now, w) + 1
  {
    RedisMembers(z, requests, now, w);
    var z' := RedisAfter(z, now, w);
    assert now in z'.members && now !in requests;
    CountOfMembers(requests, now, w, z'.members - {now});
  }

  lemma Earlier(requests: seq<int>) returns (init: seq<int>, last: int)
    requires requests != [] && StrictlySorted(requests) && NoneBefore(requests, 0)
    ensures init == requests[..|requests| - 1] && last == requests[|requests| - 1] && requests == init + [last]
    ensures StrictlySorted(init) && NoneBefore(init, 0) && NoneAfter(init, last - 1) && last >= 0
  {
    init, last := requests[..|requests| - 1], requests[|requests| - 1];
  }

  lemma {:induction false} RedisMirrors(requests: seq<int>, w: int, max: int)
    requires StrictlySorted(requests) && NoneBefore(requests, 0) && w >= 0
    ensures var (z, admitted) := RedisRun(requests, w, max);
            && z.last == (if requests == [] then -1 else requests[|requests| - 1])
            && Mirrors(z.members, requests, z.last, w)
  {
    if requests != [] {
      var init, last := Earlier(requests);
      var (z, admitted) := RedisRun(init, w, max);
      RedisMirrors(init, w, max);
      RedisCounts(z, init, last, w);
    }
  }

  /** At distinct, increasing milliseconds Redis admits a request exactly when fewer than the
      limit, rejected ones counting, came before it in the window that ends with it. */
  lemma RedisAdmitsExactly(requests: seq<int>, now: int, w: int, max: int)
    requires StrictlySorted(requests) && NoneBefore(requests, 0) && NoneAfter(requests, now - 1) && 0 <= now && w >= 0
    ensures var (z, admitted) := RedisRun(requests, w, max);
            RedisAdmits(z, now, w, max) <==> Count(requests, now, w) < max
  {
    var (z, admitted) := RedisRun(requests, w, max);
    RedisMirrors(requests, w, max);
    RedisCounts(z, requests, now, w);
  }
}
