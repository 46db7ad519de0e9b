/** The breaker of the rate limiter: after a failure Redis is left alone for half a minute,
    and no longer. */
module Breaker {
  import opened RateLimit
  import opened Middleware

  /** Redis fails the request, if it is asked: it cannot be reached, the call fails, or it lets
      the request through and the view raises. */
  predicate FailsIfAsked(m: Limiter, r: Request, w: int, max: int) {
    match r.side
    case NoConnection => true
    case CallFails(_) => true
    case Answers(raises) => raises && RedisAdmits(Of(m, r.key).zset, r.now, w, max)
  }

  /** When that is noticed. */
  function FailTime(r: Request): int {
    if r.side.NoConnection? then r.now else r.later
  }

  /** Request `j` comes less than thirty seconds after Redis failed an earlier one. */
  ghost predicate LeavesAlone(requests: seq<Request>, j: nat, w: int, max: int)
    requires j < |requests|
    decreases j, 0
  {
    exists i :: 0 <= i < j && Trips(requests, i, w, max) && requests[j].now < FailTime(requests[i]) + 30000
  }

  /** Redis was asked for request `i` and failed it. */
  ghost predicate Trips(requests: seq<Request>, i: nat, w: int, max: int)
    requires i < |requests|
    decreases i, 1
  {
    !LeavesAlone(requests, i, w, max) && FailsIfAsked(Serve(requests[..i], w, max), requests[i], w, max)
  }

  /** Time is not negative, and passes while a request is handled. */
  ghost predicate TimePasses(requests: seq<Request>) {
    forall i :: 0 <= i < |requests| ==> 0 <= requests[i].now <= requests[i].later
  }

  /** The breaker stands at the end of the last failure's half minute. */
  ghost predicate StandsAtLastTrip(requests: seq<Request>, n: nat, until: int, w: int, max: int)
    requires n <= |requests|
  {
    && (forall i :: 0 <= i < n && Trips(requests, i, w, max) ==> FailTime(requests[i]) + 30000 <= until)
    && (until == 0
        || exists i :: 0 <= i < n && Trips(requests, i, w, max) && until == FailTime(requests[i]) + 30000)
  }

  lemma OpenIffLeftAlone(requests: seq<Request>, n: nat, m: Limiter, w: int, max: int)
    requires n < |requests| && TimePasses(requests) && StandsAtLastTrip(requests, n, m.disabledUntil, w, max)
    ensures BreakerOpen(m, requests[n].now) <==> LeavesAlone(requests, n, w, max)
  {
    assert forall i :: 0 <= i < n ==> FailTime(requests[i]) >= 0;
  }

  lemma AskEachKeepsBreaker(m: Limiter, key: string, asks: seq<Ask>, w: int, max: int)
    ensures AskEach(m, key, asks, w, max).disabledUntil == m.disabledUntil
  {
    if asks != [] { AskEachKeepsBreaker(m, key, asks[..|asks| - 1], w, max); }
  }

  lemma ServeNext(requests: seq<Request>, n: nat, w: int, max: int) returns (m: Limiter, m': Limiter)
    requires n < |requests|
    ensures m == Serve(requests[..n], w, max) && m' == Serve(requests[..n + 1], w, max)
    ensures m' == Handled(m, requests[n], w, max) && m'.disabledUntil == BreakerAfter(m, requests[n], w, max)
  {
    m, m' := Serve(requests[..n], w, max), Serve(requests[..n + 1], w, max);
    var r := requests[n];
    assert requests[..n + 1][..n] == requests[..n];
    AskEachKeepsBreaker(m.(disabledUntil := BreakerAfter(m, r, w, max)), r.key, AsksFor(m, r, w, max), w, max);
  }

  lemma {:induction false} BreakerStands(requests: seq<Request>, n: nat, w: int, max: int) returns (m: Limiter)
    requires n <= |requests| && TimePasses(requests)
    ensures m == Serve(requests[..n], w, max) && StandsAtLastTrip(requests, n, m.disabledUntil, w, max)
  {
    if n == 0 {
      m := Serve(requests[..n], w, max);
    } else {
      var before := BreakerStands(requests, n - 1, w, max);
      var _, m' := ServeNext(requests, n - 1, w, max);
      NextStands(requests, n - 1, before, w, max);
      m := m';
    }
  }

  lemma NextStands(requests: seq<Request>, n: nat, m: Limiter, w: int, max: int)
    requires n < |requests| && TimePasses(requests) && m == Serve(requests[..n], w, max)
    requires StandsAtLastTrip(requests, n, m.disabledUntil, w, max)
    ensures StandsAtLastTrip(requests, n + 1, BreakerAfter(m, requests[n], w, max), w, max)
  {
    var until := BreakerAfter(m, requests[n], w, max);
    OpenIffLeftAlone(requests, n, m, w, max);
    assert until == if Trips(requests, n, w, max) then FailTime(requests[n]) + 30000 else m.disabledUntil;
  }

  /** What a request does to the windows: Redis is asked unless it is left alone, the deque
      when it is, or when Redis fails. */
  ghost predicate Touches(m: Limiter, r: Request, alone: bool, m': Limiter, w: int, max: int) {
    && (if alone then m'.zsets == m.zsets && m'.byRedis == m.byRedis
        else r.side.Answers? ==> Of(m', r.key).zset == RedisAfter(Of(m, r.key).zset, r.now, w))
    && Of(m', r.key).bucket == if alone || FailsIfAsked(m, r, w, max)
                               then DequeAfter(Of(m, r.key).bucket, r.later, w, max) else Of(m, r.key).bucket
  }

  lemma DequeAskTouchesNothing(m: Limiter, key: string, at: int, w: int, max: int)
    ensures var m' := AskFor(m, key, OfDeque(at), w, max); m'.zsets == m.zsets && m'.byRedis == m.byRedis
  {
  }

  lemma AskOne(m: Limiter, key: string, a: Ask, w: int, max: int)
    ensures AskEach(m, key, [a], w, max) == AskFor(m, key, a, w, max)
  {
    AskEachNext(m, key, [], a, w, max);
    assert [] + [a] == [a];
  }

  lemma AskTwo(m: Limiter, key: string, a: Ask, b: Ask, w: int, max: int)
    ensures AskEach(m, key, [a, b], w, max) == AskFor(AskFor(m, key, a, w, max), key, b, w, max)
  {
    AskOne(m, key, a, w, max);
    AskEachNext(m, key, [a], b, w, max);
    assert [a] + [b] == [a, b];
  }

  lemma HandledTouches(m: Limiter, r: Request, w: int, max: int)
    ensures Touches(m, r, BreakerOpen(m, r.now), Handled(m, r, w, max), w, max)
  {
    var m1 := m.(disabledUntil := BreakerAfter(m, r, w, max));
    assert Of(m1, r.key) == Of(m, r.key);
    if BreakerOpen(m, r.now) || r.side.NoConnection? || (r.side.CallFails? && !r.side.recorded) {
      DequeAskTouchesNothing(m1, r.key, r.later, w, max);
      AskForOf(m1, r.key, OfDeque(r.later), w, max, r.key);
      AskOne(m1, r.key, OfDeque(r.later), w, max);
    } else {
      var a := OfRedis(r.now, r.side.Answers?);
      var asked := AskFor(m1, r.key, a, w, max);
      AskForOf(m1, r.key, a, w, max, r.key);
      AskForOf(asked, r.key, OfDeque(r.later), w, max, r.key);
      AskOne(m1, r.key, a, w, max);
      AskTwo(m1, r.key, a, OfDeque(r.later), w, max);
    }
  }

  /** Over any requests of any clients: where Redis failed less than thirty seconds ago it is not
      touched, whoever asks, nothing is admitted by it, and the deque is asked; otherwise a
      request it can answer is put to it, also after earlier failures, and the deque is asked
      only if it fails. */
  lemma RedisIsLeftAlone(requests: seq<Request>, j: nat, w: int, max: int)
    requires j < |requests| && TimePasses(requests)
    ensures var m, m' := Serve(requests[..j], w, max), Serve(requests[..j + 1], w, max);
            Touches(m, requests[j], LeavesAlone(requests, j, w, max), m', w, max)
  {
    var m := BreakerStands(requests, j, w, max);
    var _, m' := ServeNext(requests, j, w, max);
    OpenIffLeftAlone(requests, j, m, w, max);
    HandledTouches(m, requests[j], w, max);
  }
}
