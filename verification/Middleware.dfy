/** The rate limiter (foxrunner/rate_limit.py): Redis, and the deques of the process when
    Redis is down. The breaker that sends requests to the deques is shared by all clients. */
module Middleware {
  import opened RateLimit

  // ---------------------------------------------------------------- one client and path

  /** What one client and path asks of its windows: of the deque, or of Redis, which may
      record the request and yet not answer. */
  datatype Ask = OfDeque(at: int) | OfRedis(at: int, answers: bool)

  /** The two windows, and the times of the requests each has admitted. */
  datatype Limits = Limits(bucket: seq<int>, zset: Zset, byDeque: seq<int>, byRedis: seq<int>)

  function Untouched(): Limits {
    Limits([], Zset({}, -1), [], [])
  }

  function Asked(l: Limits, a: Ask, w: int, max: int): Limits {
    match a
    case OfDeque(at) =>
      l.(bucket := DequeAfter(l.bucket, at, w, max),
         byDeque := if DequeAdmits(l.bucket, at, w, max) then l.byDeque + [at] else l.byDeque)
    case OfRedis(at, answers) =>
      l.(zset := RedisAfter(l.zset, at, w),
         byRedis := if answers && RedisAdmits(l.zset, at, w, max) then l.byRedis + [at] else l.byRedis)
  }

  function AskAll(asks: seq<Ask>, w: int, max: int): Limits {
    if asks == [] then Untouched()
    else Asked(AskAll(asks[..|asks| - 1], w, max), asks[|asks| - 1], w, max)
  }

  function DequeTimes(asks: seq<Ask>): seq<int> {
    if asks == [] then []
    else
      var a := asks[|asks| - 1];
      DequeTimes(asks[..|asks| - 1]) + if a.OfDeque? then [a.at] else []
  }

  function RedisTimes(asks: seq<Ask>): seq<int> {
    if asks == [] then []
    else
      var a := asks[|asks| - 1];
      RedisTimes(asks[..|asks| - 1]) + if a.OfRedis? then [a.at] else []
  }

  function LastOf(times: seq<int>, default: int): int {
    if times == [] then default else times[|times| - 1]
  }

  /** The deque is safe while its clock does not go back. */
  ghost predicate DequeHolds(times: seq<int>, l: Limits, w: int, max: int) {
    Sorted(times) ==>
      DequeSafe(l.bucket, l.byDeque, LastOf(times, 0), w, max) && (times == [] ==> l.byDeque == [])
  }

  /** The Redis window is safe while its milliseconds are distinct. */
  ghost predicate RedisHolds(times: seq<int>, l: Limits, w: int, max: int) {
    StrictlySorted(times) && NoneBefore(times, 0) ==>
      RedisSafe(l.zset, l.byRedis, w, max) && l.zset.last == LastOf(times, -1)
  }

  lemma DequeAsked(times: seq<int>, l: Limits, at: int, w: int, max: int)
    requires DequeHolds(times, l, w, max)
    ensures DequeHolds(times + [at], Asked(l, OfDeque(at), w, max), w, max)
  {
    var n, asked := |times|, times + [at];
    if Sorted(asked) {
      assert asked[..n] == times && (n > 0 ==> asked[n - 1] <= asked[n]);
      if times == [] { NothingGone(l.bucket, at, w, max); }
      DequeStaysSafe(l.bucket, l.byDeque, LastOf(times, at), at, w, max);
      assert l.byDeque + [] == l.byDeque;
    }
  }

  lemma NothingGone(bucket: seq<int>, now: int, w: int, max: int)
    requires DequeSafe(bucket, [], 0, w, max)
    ensures DequeSafe(bucket, [], now, w, max)
  {
    assert GoneBefore([], bucket, [], now, w);
  }

  lemma RedisAsked(times: seq<int>, l: Limits, at: int, answers: bool, w: int, max: int)
    requires RedisHolds(times, l, w, max) && w >= 0
    ensures RedisHolds(times + [at], Asked(l, OfRedis(at, answers), w, max), w, max)
  {
    var n, asked := |times|, times + [at];
    if StrictlySorted(asked) && NoneBefore(asked, 0) {
      assert asked[..n] == times && asked[n] == at && (n > 0 ==> asked[n - 1] < asked[n]);
      assert NoneBefore(times, 0) && StrictlySorted(times);
      RedisStaysSafe(l.zset, l.byRedis, at, w, max);
      UnansweredStaysSafe(l.zset, l.byRedis, at, w, max);
    }
  }

  lemma {:induction false} AskAllHolds(asks: seq<Ask>, w: int, max: int) returns (l: Limits)
    requires w >= 0
    ensures l == AskAll(asks, w, max)
    ensures DequeHolds(DequeTimes(asks), l, w, max) && RedisHolds(RedisTimes(asks), l, w, max)
  {
    l := Untouched();
    if asks == [] {
      assert GoneBefore([], [], [], 0, w);
    } else {
      var init, a := asks[..|asks| - 1], asks[|asks| - 1];
      l := AskAllHolds(init, w, max);
      AskedHolds(DequeTimes(init), RedisTimes(init), l, a, w, max);
      assert DequeTimes(init) + [] == DequeTimes(init) && RedisTimes(init) + [] == RedisTimes(init);
      l := Asked(l, a, w, max);
    }
  }

  /** One more ask, of either window, keeps both safe. */
  lemma AskedHolds(byDeque: seq<int>, byRedis: seq<int>, l: Limits, a: Ask, w: int, max: int)
    requires DequeHolds(byDeque, l, w, max) && RedisHolds(byRedis, l, w, max) && w >= 0
    ensures var l' := Asked(l, a, w, max);
            && DequeHolds(if a.OfDeque? then byDeque + [a.at] else byDeque, l', w, max)
            && RedisHolds(if a.OfRedis? then byRedis + [a.at] else byRedis, l', w, max)
  {
    match a
    case OfDeque(at) => DequeAsked(byDeque, l, at, w, max);
    case OfRedis(at, answers) => RedisAsked(byRedis, l, at, answers, w, max);
  }

  /** Whatever decides which window is asked, and whether Redis answers: with deque times
      that do not go back and distinct, increasing Redis milliseconds, both together admit
      at most twice the limit in any half-open window. */
  lemma TwiceTheLimit(asks: seq<Ask>, w: int, max: int, t: int)
    requires w >= 0
    requires Sorted(DequeTimes(asks)) && StrictlySorted(RedisTimes(asks)) && NoneBefore(RedisTimes(asks), 0)
    ensures var l := AskAll(asks, w, max); Count(l.byRedis, t, w) + Count(l.byDeque, t, w) <= 2 * AtLeastZero(max)
  {
    var l := AskAllHolds(asks, w, max);
  }

  // ---------------------------------------------------------------- all clients

  const RECOVERY := 30000

  /** What Redis does for one request: no connection, a failing call that was or was
      not recorded, or an answer, after which the view may raise. */
  datatype RedisSide = NoConnection | CallFails(recorded: bool) | Answers(viewRaises: bool)

  /** A request, `key` naming its client and path; a deque is asked a moment later. */
  datatype Request = Request(key: string, now: int, later: int, side: RedisSide)

  /** The shared breaker, the windows by key, and what they have admitted. */
  datatype Limiter = Limiter(
    disabledUntil: int, buckets: map<string, seq<int>>, zsets: map<string, Zset>,
    byDeque: map<string, seq<int>>, byRedis: map<string, seq<int>>)

  function Idle(): Limiter {
    Limiter(0, map[], map[], map[], map[])
  }

  function Get<T>(m: map<string, T>, key: string, default: T): T {
    if key in m then m[key] else default
  }

  /** What concerns one key. */
  function Of(m: Limiter, key: string): Limits {
    Limits(Get(m.buckets, key, []), Get(m.zsets, key, Zset({}, -1)), Get(m.byDeque, key, []), Get(m.byRedis, key, []))
  }

  function AskFor(m: Limiter, key: string, a: Ask, w: int, max: int): Limiter {
    var l := Asked(Of(m, key), a, w, max);
    match a
    case OfDeque(_) => m.(buckets := m.buckets[key := l.bucket], byDeque := m.byDeque[key := l.byDeque])
    case OfRedis(_, _) => m.(zsets := m.zsets[key := l.zset], byRedis := m.byRedis[key := l.byRedis])
  }

  predicate BreakerOpen(m: Limiter, now: int) {
    m.disabledUntil != 0 && now < m.disabledUntil
  }

  function AskEach(m: Limiter, key: string, asks: seq<Ask>, w: int, max: int): Limiter {
    if asks == [] then m
    else AskFor(AskEach(m, key, asks[..|asks| - 1], w, max), key, asks[|asks| - 1], w, max)
  }

  /** What a request asks of the windows of its key: Redis unless the breaker is open; the
      deque when Redis cannot be asked, fails, or the view it let through raises. */
  function AsksFor(m: Limiter, r: Request, w: int, max: int): seq<Ask> {
    var deque := OfDeque(r.later);
    if BreakerOpen(m, r.now) then [deque]
    else
      match r.side
      case NoConnection => [deque]
      case CallFails(recorded) => if recorded then [OfRedis(r.now, false), deque] else [deque]
      case Answers(raises) =>
        if raises && RedisAdmits(Of(m, r.key).zset, r.now, w, max) then [OfRedis(r.now, true), deque]
        else [OfRedis(r.now, true)]
  }

  /** The breaker opens when Redis cannot be reached, its call fails, or the view raises. */
  function BreakerAfter(m: Limiter, r: Request, w: int, max: int): int {
    if BreakerOpen(m, r.now) then m.disabledUntil
    else
      match r.side
      case NoConnection => r.now + RECOVERY
      case CallFails(_) => r.later + RECOVERY
      case Answers(raises) =>
        if raises && RedisAdmits(Of(m, r.key).zset, r.now, w, max) then r.later + RECOVERY else m.disabledUntil
  }

  function Handled(m: Limiter, r: Request, w: int, max: int): Limiter {
    AskEach(m.(disabledUntil := BreakerAfter(m, r, w, max)), r.key, AsksFor(m, r, w, max), w, max)
  }

  function Serve(requests: seq<Request>, w: int, max: int): Limiter {
    if requests == [] then Idle()
    else Handled(Serve(requests[..|requests| - 1], w, max), requests[|requests| - 1], w, max)
  }

  /** What the requests of one key ask, whatever other clients do to the breaker. */
  function AsksOf(requests: seq<Request>, key: string, w: int, max: int): seq<Ask> {
    if requests == [] then []
    else
      var init, r := requests[..|requests| - 1], requests[|requests| - 1];
      AsksOf(init, key, w, max) + if r.key == key then AsksFor(Serve(init, w, max), r, w, max) else []
  }

  lemma AskOneMore(asks: seq<Ask>, a: Ask, w: int, max: int)
    ensures AskAll(asks + [a], w, max) == Asked(AskAll(asks, w, max), a, w, max)
  {
    assert (asks + [a])[..|asks|] == asks;
  }

  lemma AskForIsAskAll(m: Limiter, key: string, before: seq<Ask>, a: Ask, w: int, max: int)
    requires Of(m, key) == AskAll(before, w, max)
    ensures Of(AskFor(m, key, a, w, max), key) == AskAll(before + [a], w, max)
  {
    AskForOf(m, key, a, w, max, key);
    AskOneMore(before, a, w, max);
  }

  lemma AskEachNext(m: Limiter, key: string, asks: seq<Ask>, a: Ask, w: int, max: int)
    ensures AskEach(m, key, asks + [a], w, max) == AskFor(AskEach(m, key, asks, w, max), key, a, w, max)
  {
    assert (asks + [a])[..|asks|] == asks;
  }

  /** Asks for one key do to it what they do. */
  lemma {:induction false} AskEachIsAskAll(m: Limiter, key: string, before: seq<Ask>, asks: seq<Ask>, w: int, max: int)
    requires Of(m, key) == AskAll(before, w, max)
    ensures Of(AskEach(m, key, asks, w, max), key) == AskAll(before + asks, w, max)
  {
    if asks == [] {
      assert before + asks == before;
    } else {
      var init, a := asks[..|asks| - 1], asks[|asks| - 1];
      assert asks == init + [a] && before + asks == (before + init) + [a];
      AskEachIsAskAll(m, key, before, init, w, max);
      AskEachNext(m, key, init, a, w, max);
      AskForIsAskAll(AskEach(m, key, init, w, max), key, before + init, a, w, max);
    }
  }

  /** ... and nothing to other keys. */
  lemma {:induction false} AskEachSparesOthers(m: Limiter, key: string, asks: seq<Ask>, w: int, max: int, other: string)
    requires other != key
    ensures Of(AskEach(m, key, asks, w, max), other) == Of(m, other)
  {
    if asks != [] {
      var init, a := asks[..|asks| - 1], asks[|asks| - 1];
      AskEachSparesOthers(m, key, init, w, max, other);
      AskForOf(AskEach(m, key, init, w, max), key, a, w, max, other);
    }
  }

  lemma AskForOf(m: Limiter, key: string, a: Ask, w: int, max: int, other: string)
    ensures Of(AskFor(m, key, a, w, max), key) == Asked(Of(m, key), a, w, max)
    ensures other != key ==> Of(AskFor(m, key, a, w, max), other) == Of(m, other)
  {
  }

  /** After any requests of any clients, the windows of a key are as its own asks left
      them. */
  lemma {:induction false} ServedAsAsked(requests: seq<Request>, key: string, w: int, max: int)
    ensures Of(Serve(requests, w, max), key) == AskAll(AsksOf(requests, key, w, max), w, max)
  {
    if requests != [] {
      var init, r := requests[..|requests| - 1], requests[|requests| - 1];
      var m, asks := Serve(init, w, max), AsksOf(init, key, w, max);
      ServedAsAsked(init, key, w, max);
      var m' := m.(disabledUntil := BreakerAfter(m, r, w, max));
      assert Of(m', key) == Of(m, key);
      if r.key == key {
        AskEachIsAskAll(m', key, asks, AsksFor(m, r, w, max), w, max);
      } else {
        AskEachSparesOthers(m', r.key, AsksFor(m, r, w, max), w, max, key);
        assert asks + [] == asks;
      }
    }
  }

  // ---------------------------------------------------------------- the clock

  /** For the requests of this key the millisecond at which Redis is asked increases, and
      the time at which the deque is asked does not go back. */
  ghost predicate ClockBehaves(requests: seq<Request>, key: string) {
    && (forall i :: 0 <= i < |requests| && requests[i].key == key ==> 0 <= requests[i].now)
    && (forall i, j :: 0 <= i < j < |requests| && requests[i].key == key && requests[j].key == key ==>
          requests[i].now < requests[j].now && requests[i].later <= requests[j].later)
  }

  /** The requests of this key come before a request at these times. */
  ghost predicate Before(requests: seq<Request>, key: string, now: int, later: int) {
    forall i :: 0 <= i < |requests| && requests[i].key == key ==> requests[i].now < now && requests[i].later <= later
  }

  ghost predicate InOrder(asks: seq<Ask>, now: int, later: int) {
    && Sorted(DequeTimes(asks)) && NoneAfter(DequeTimes(asks), later)
    && StrictlySorted(RedisTimes(asks)) && NoneBefore(RedisTimes(asks), 0) && NoneAfter(RedisTimes(asks), now - 1)
  }

  lemma DequeInOrder(asks: seq<Ask>, now: int, later: int)
    requires InOrder(asks, now, later)
    ensures InOrder(asks + [OfDeque(later)], now, later)
  {
    TimesOneMore(asks, OfDeque(later));
    SortedOneMore(DequeTimes(asks), later);
  }

  lemma TimesOneMore(asks: seq<Ask>, a: Ask)
    ensures DequeTimes(asks + [a]) == if a.OfDeque? then DequeTimes(asks) + [a.at] else DequeTimes(asks)
    ensures RedisTimes(asks + [a]) == if a.OfRedis? then RedisTimes(asks) + [a.at] else RedisTimes(asks)
  {
    assert (asks + [a])[..|asks|] == asks;
    assert DequeTimes(asks) + [] == DequeTimes(asks) && RedisTimes(asks) + [] == RedisTimes(asks);
  }

  lemma SortedOneMore(times: seq<int>, x: int)
    requires Sorted(times) && NoneAfter(times, x)
    ensures Sorted(times + [x]) && NoneAfter(times + [x], x)
  {
  }

  lemma StrictlySortedOneMore(times: seq<int>, x: int)
    requires StrictlySorted(times) && NoneAfter(times, x - 1)
    ensures StrictlySorted(times + [x]) && NoneAfter(times + [x], x)
  {
  }

  lemma RedisInOrder(asks: seq<Ask>, now: int, later: int, answers: bool)
    requires InOrder(asks, now, later) && 0 <= now
    ensures InOrder(asks + [OfRedis(now, answers)], now + 1, later)
  {
    TimesOneMore(asks, OfRedis(now, answers));
    StrictlySortedOneMore(RedisTimes(asks), now);
  }

  lemma AsksForInOrder(asks: seq<Ask>, m: Limiter, r: Request, w: int, max: int)
    requires InOrder(asks, r.now, r.later) && 0 <= r.now
    ensures InOrder(asks + AsksFor(m, r, w, max), r.now + 1, r.later)
  {
    var deque, redis := OfDeque(r.later), OfRedis(r.now, r.side.Answers?);
    var mine := AsksFor(m, r, w, max);
    AsksForIs(m, r, w, max);
    if mine == [deque] {
      DequeInOrder(asks, r.now, r.later);
    } else {
      RedisInOrder(asks, r.now, r.later, r.side.Answers?);
      if mine == [redis, deque] {
        DequeInOrder(asks + [redis], r.now + 1, r.later);
        assert asks + [redis, deque] == (asks + [redis]) + [deque];
      }
    }
  }

  /** A request asks the deque, Redis, or Redis and then the deque. */
  lemma AsksForIs(m: Limiter, r: Request, w: int, max: int)
    ensures var asks, deque, redis := AsksFor(m, r, w, max), OfDeque(r.later), OfRedis(r.now, r.side.Answers?);
            asks == [deque] || asks == [redis] || asks == [redis, deque]
  {
  }

  lemma {:induction false} AsksOfInOrder(requests: seq<Request>, key: string, w: int, max: int, now: int, later: int)
    requires ClockBehaves(requests, key) && Before(requests, key, now, later)
    ensures InOrder(AsksOf(requests, key, w, max), now, later)
  {
    if requests != [] {
      var init, r := requests[..|requests| - 1], requests[|requests| - 1];
      var asks := AsksOf(init, key, w, max);
      if r.key == key {
        AsksOfInOrder(init, key, w, max, r.now, r.later);
        AsksForInOrder(asks, Serve(init, w, max), r, w, max);
        assert InOrder(asks + AsksFor(Serve(init, w, max), r, w, max), now, later);
      } else {
        AsksOfInOrder(init, key, w, max, now, later);
        assert asks + [] == asks;
      }
    }
  }

  /** Over any requests of any clients, at most twice the limit is admitted for a key in
      any half-open window, if the clock behaves for its requests. */
  lemma EachKeyTwiceTheLimit(requests: seq<Request>, key: string, w: int, max: int, t: int)
    requires w >= 0 && ClockBehaves(requests, key)
    ensures var l := Of(Serve(requests, w, max), key);
            Count(l.byRedis, t, w) + Count(l.byDeque, t, w) <= 2 * AtLeastZero(max)
  {
    var now, later := Bounds(requests, key);
    AsksOfInOrder(requests, key, w, max, now, later);
    ServedAsAsked(requests, key, w, max);
    TwiceTheLimit(AsksOf(requests, key, w, max), w, max, t);
  }

  lemma {:induction false} Bounds(requests: seq<Request>, key: string) returns (now: int, later: int)
    ensures Before(requests, key, now, later)
  {
    now, later := 0, 0;
    if requests != [] {
      var r := requests[|requests| - 1];
      now, later := Bounds(requests[..|requests| - 1], key);
      if now <= r.now { now := r.now + 1; }
      if later < r.later { later := r.later; }
    }
  }

  // ---------------------------------------------------------------- the middleware

  /** Redis answered and the view, if it was reached, did not raise. */
  predicate Settled(m: Limiter, r: Request, w: int, max: int) {
    && !BreakerOpen(m, r.now) && r.side.Answers?
    && !(r.side.viewRaises && RedisAdmits(Of(m, r.key).zset, r.now, w, max))
  }

  /** Otherwise, the state in which the deque is asked. */
  function BeforeDeque(m: Limiter, r: Request, w: int, max: int): Limiter {
    var records := !BreakerOpen(m, r.now) && (r.side.Answers? || (r.side.CallFails? && r.side.recorded));
    var asked := if records then AskFor(m, r.key, OfRedis(r.now, r.side.Answers?), w, max) else m;
    asked.(disabledUntil := BreakerAfter(m, r, w, max))
  }

  /** A request step by step. */
  lemma HandledIs(m: Limiter, r: Request, w: int, max: int)
    ensures Handled(m, r, w, max) ==
            if Settled(m, r, w, max) then AskFor(m, r.key, OfRedis(r.now, true), w, max)
            else AskFor(BeforeDeque(m, r, w, max), r.key, OfDeque(r.later), w, max)
  {
    var deque, redis := OfDeque(r.later), OfRedis(r.now, r.side.Answers?);
    var m' := m.(disabledUntil := BreakerAfter(m, r, w, max));
    AskEachNext(m', r.key, [], deque, w, max);
    AskEachNext(m', r.key, [], redis, w, max);
    AskEachNext(m', r.key, [redis], deque, w, max);
    assert [] + [deque] == [deque] && [] + [redis] == [redis] && [redis] + [deque] == [redis, deque];
    assert AskFor(m', r.key, redis, w, max) == AskFor(m, r.key, redis, w, max).(disabledUntil := m'.disabledUntil);
  }

  /** The ghost fields are an observer's. */
  class RateLimiter {
    const window: nat
    const max: int
    var disabledUntil: int
    var buckets: map<string, seq<int>>
    var zsets: map<string, Zset>
    ghost var byDeque: map<string, seq<int>>
    ghost var byRedis: map<string, seq<int>>

    ghost function Now(): Limiter
      reads this
    {
      Limiter(disabledUntil, buckets, zsets, byDeque, byRedis)
    }

    constructor (window: nat, max: int)
      ensures Now() == Idle() && this.window == window && this.max == max
    {
      this.window, this.max := window, max;
      disabledUntil, buckets, zsets, byDeque, byRedis := 0, map[], map[], map[], map[];
    }

    /** The deque of the key. */
    method AllowDeque(key: string, now: int) returns (ok: bool)
      modifies this`buckets, this`byDeque
      ensures ok == DequeAdmits(Get(old(buckets), key, []), now, window, max)
      ensures Now() == AskFor(old(Now()), key, OfDeque(now), window, max)
      ensures |Get(byDeque, key, [])| == |Get(old(byDeque), key, [])| + if ok then 1 else 0
    {
      var bucket := if key in buckets then buckets[key] else [];
      ghost var all := bucket;
      while bucket != [] && bucket[0] <= now - window
        invariant DropOld(bucket, now - window) == DropOld(all, now - window)
        decreases |bucket|
      {
        bucket := bucket[1..];
      }
      ok := |bucket| < max;
      assert DropOld(bucket, now - window) == bucket && bucket + [] == bucket;
      if ok { bucket := bucket + [now]; }
      buckets := buckets[key := bucket];
      byDeque := byDeque[key := Get(byDeque, key, []) + if ok then [now] else []];
      assert Get(old(byDeque), key, []) + [] == Get(old(byDeque), key, []);
    }

    /** `_allow_redis`: the pipeline's commands on the sorted set of the key, one after the
        other. */
    method AllowRedis(key: string, now: int, answers: bool) returns (ok: bool)
      modifies this`zsets, this`byRedis
      ensures ok <==> answers && RedisAdmits(Get(old(zsets), key, Zset({}, -1)), now, window, max)
      ensures Now() == AskFor(old(Now()), key, OfRedis(now, answers), window, max)
      ensures |Get(byRedis, key, [])| == |Get(old(byRedis), key, [])| + if ok then 1 else 0
    {
      var zset := if key in zsets then zsets[key] else Zset({}, -1);
      var members := zset.members;
      if now >= zset.last + window + 1000 { members := {}; }           // the key has expired
      members := set x | x in members && !(0 <= x <= now - window);    // zremrangebyscore
      members := members + {now};                                     // zadd
      var count := |members|;                                         // zcard
      zsets := zsets[key := Zset(members, now)];                      // expire
      ok := answers && count <= max;
      byRedis := byRedis[key := Get(byRedis, key, []) + if ok then [now] else []];
      assert Get(old(byRedis), key, []) + [] == Get(old(byRedis), key, []);
    }

    /** Redis first, unless the breaker is open. Returns whether that settled the request,
        and how many times it was passed on. */
    method TryRedis(r: Request) returns (settled: bool, served: nat)
      modifies this`disabledUntil, this`zsets, this`byRedis
      ensures settled <==> Settled(old(Now()), r, window, max)
      ensures Now() == if settled then AskFor(old(Now()), r.key, OfRedis(r.now, true), window, max)
                       else BeforeDeque(old(Now()), r, window, max)
      ensures served == |Get(byRedis, r.key, [])| - |Get(old(byRedis), r.key, [])|
    {
      served := 0;
      if disabledUntil != 0 && r.now < disabledUntil { return false, 0; }
      if r.side.NoConnection? {
        disabledUntil := r.now + RECOVERY;
        return false, 0;
      }
      var ok := false;
      if r.side.Answers? || r.side.recorded { ok := AllowRedis(r.key, r.now, r.side.Answers?); }
      if ok { served := 1; }
      settled := r.side.Answers? && !(ok && r.side.viewRaises);
      if !settled { disabledUntil := r.later + RECOVERY; }
    }

    /** Returns how many times the request was passed on: a view that raises is called
        again when the deque admits the request too. */
    method Handle(r: Request) returns (served: nat)
      modifies this
      ensures Now() == Handled(old(Now()), r, window, max)
      ensures served == |Get(byRedis, r.key, [])| - |Get(old(byRedis), r.key, [])|
                        + |Get(byDeque, r.key, [])| - |Get(old(byDeque), r.key, [])|
    {
      HandledIs(Now(), r, window, max);
      var settled;
      settled, served := TryRedis(r);
      if !settled {
        var ok := AllowDeque(r.key, r.later);
        if ok { served := served + 1; }
      }
    }
  }

  method ServeAll(window: nat, max: int, requests: seq<Request>) returns (limiter: RateLimiter)
    ensures fresh(limiter) && limiter.window == window && limiter.max == max
    ensures limiter.Now() == Serve(requests, window, max)
  {
    limiter := new RateLimiter(window, max);
    for i := 0 to |requests|
      invariant fresh(limiter) && limiter.window == window && limiter.max == max
      invariant limiter.Now() == Serve(requests[..i], window, max)
    {
      assert requests[..i + 1][..i] == requests[..i];
      var served := limiter.Handle(requests[i]);
    }
    assert requests[..|requests|] == requests;
  }
}
