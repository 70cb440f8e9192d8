/** The token-bucket rate limiter. Times are seconds of a monotonic clock; tokens are reals. */
module RateLimit {

  datatype Route = Sensitive | Upload | General

  datatype Key = Key(ip: string, route: Route)

  datatype Bucket = Bucket(tokens: real, last: real)

  const DEFAULT_RATE: nat := 600
  const SENSITIVE_RATE: nat := 30
  const UPLOAD_RATE: nat := 60

  const SENSITIVE_PREFIXES := ["/auth/", "/admin/"]
  const UPLOAD_PREFIXES := ["/documents/upload", "/documents:upload"]

  predicate StartsWithAny(path: string, prefixes: seq<string>) {
    exists i :: 0 <= i < |prefixes| && prefixes[i] <= path
  }

  function RouteOf(path: string): Route {
    if StartsWithAny(path, SENSITIVE_PREFIXES) then Sensitive
    else if StartsWithAny(path, UPLOAD_PREFIXES) then Upload
    else General
  }

  /** Requests a minute. */
  function Rate(r: Route): real {
    match r
    case Sensitive => SENSITIVE_RATE as real
    case Upload => UPLOAD_RATE as real
    case General => DEFAULT_RATE as real
  }

  function Min(x: real, y: real): real { if x <= y then x else y }

  /** Tokens gained in `elapsed` seconds. */
  function Gain(r: Route, elapsed: real): real { elapsed * (Rate(r) / 60.0) }

  /** `created` is the clock when the bucket is made, just before `now`; a new bucket of any route
      holds the default rate. */
  datatype Request = Request(ip: string, path: string, created: real, now: real)

  function KeyOf(q: Request): Key { Key(q.ip, RouteOf(q.path)) }

  type Buckets = map<Key, Bucket>

  function BucketFor(bs: Buckets, q: Request): Bucket {
    if KeyOf(q) in bs then bs[KeyOf(q)] else Bucket(DEFAULT_RATE as real, q.created)
  }

  /** Tokens in the bucket once the time since the last request is credited. */
  function Refilled(bs: Buckets, q: Request): real {
    var b, r := BucketFor(bs, q), KeyOf(q).route;
    Min(Rate(r), b.tokens + Gain(r, q.now - b.last))
  }

  predicate Admits(bs: Buckets, q: Request) { Refilled(bs, q) >= 1.0 }

  function Served(bs: Buckets, q: Request): Buckets {
    bs[KeyOf(q) := Bucket(if Admits(bs, q) then Refilled(bs, q) - 1.0 else Refilled(bs, q), q.now)]
  }

  class RateLimiter {
    var buckets: Buckets

    constructor ()
      ensures buckets == map[]
    {
      buckets := map[];
    }

    /** One request, under the lock; answers whether it is let through. */
    method Dispatch(q: Request) returns (admitted: bool)
      modifies this
      ensures admitted == Admits(old(buckets), q) && buckets == Served(old(buckets), q)
    {
      var route := RouteOf(q.path);
      var rate := Rate(route);
      var key := Key(q.ip, route);
      if key !in buckets {
        buckets := buckets[key := Bucket(DEFAULT_RATE as real, q.created)];
      }
      var b := buckets[key];
      var elapsed := q.now - b.last;
      var tokens := Min(rate, b.tokens + Gain(route, elapsed));
      assert tokens == Refilled(old(buckets), q);
      buckets := buckets[key := Bucket(tokens, q.now)];
      if tokens < 1.0 {
        return false;
      }
      buckets := buckets[key := Bucket(tokens - 1.0, q.now)];
      return true;
    }
  }

  // ----- runs ------------------------------------------------------------------------------

  function Run(qs: seq<Request>): Buckets {
    if qs == [] then map[] else Served(Run(qs[..|qs|-1]), qs[|qs|-1])
  }

  /** The clock never goes back. */
  ghost predicate Ordered(qs: seq<Request>) {
    && (forall i :: 0 <= i < |qs| ==> qs[i].created <= qs[i].now)
    && (forall i, j :: 0 <= i < j < |qs| ==> qs[i].now <= qs[j].now)
  }

  ghost predicate BucketsOk(bs: Buckets, clock: real) {
    forall k :: k in bs ==> 0.0 <= bs[k].tokens <= Rate(k.route) && bs[k].last <= clock
  }

  lemma GainPositive(r: Route, elapsed: real)
    requires elapsed >= 0.0
    ensures Gain(r, elapsed) >= 0.0
  {
  }

  lemma ServedOk(bs: Buckets, q: Request, clock: real)
    requires BucketsOk(bs, clock) && clock <= q.now && q.created <= q.now
    ensures 0.0 <= Refilled(bs, q) <= Rate(KeyOf(q).route)
    ensures BucketsOk(Served(bs, q), q.now)
  {
    GainPositive(KeyOf(q).route, q.now - BucketFor(bs, q).last);
  }

  /** After every request each bucket holds between nothing and its own rate, although every new
      bucket starts with the default rate. */
  lemma {:induction false} TokensInRange(qs: seq<Request>)
    requires Ordered(qs)
    ensures forall k :: k in Run(qs) ==> 0.0 <= Run(qs)[k].tokens <= Rate(k.route)
    ensures qs != [] ==> BucketsOk(Run(qs), qs[|qs|-1].now)
  {
    if qs != [] {
      var init := qs[..|qs|-1];
      TokensInRange(init);
      if init != [] {
        ServedOk(Run(init), qs[|qs|-1], init[|init|-1].now);
      } else {
        ServedOk(Run(init), qs[|qs|-1], qs[|qs|-1].now);
      }
    }
  }

  /** How many of the requests after the first `n` were admitted for the key. */
  function Admitted(qs: seq<Request>, n: nat, k: Key): nat
    requires n <= |qs|
  {
    if |qs| == n then 0
    else
      Admitted(qs[..|qs|-1], n, k)
      + if KeyOf(qs[|qs|-1]) == k && Admits(Run(qs[..|qs|-1]), qs[|qs|-1]) then 1 else 0
  }

  lemma GainAdds(r: Route, x: real, y: real)
    ensures Gain(r, x) + Gain(r, y) == Gain(r, x + y)
  {
  }

  lemma GainGrows(r: Route, x: real, y: real)
    requires x <= y
    ensures Gain(r, x) <= Gain(r, y)
  {
  }

  /** What was let through and what is left together never exceed a full bucket and the refill. */
  predicate LevelOk(bs: Buckets, k: Key, admitted: int, start: real) {
    admitted > 0 ==>
      && k in bs && start <= bs[k].last
      && admitted as real + bs[k].tokens <= Rate(k.route) + Gain(k.route, bs[k].last - start)
  }

  lemma LevelStep(bs: Buckets, q: Request, admitted: nat, start: real)
    requires LevelOk(bs, KeyOf(q), admitted, start) && start <= q.now
    requires KeyOf(q) in bs ==> 0.0 <= bs[KeyOf(q)].tokens && bs[KeyOf(q)].last <= q.now
    ensures LevelOk(Served(bs, q), KeyOf(q), admitted + if Admits(bs, q) then 1 else 0, start)
  {
    var k := KeyOf(q);
    if admitted > 0 {
      GainAdds(k.route, bs[k].last - start, q.now - bs[k].last);
    } else {
      GainPositive(k.route, q.now - start);
    }
  }

  lemma LevelElsewhere(bs: Buckets, q: Request, k: Key, admitted: nat, start: real)
    requires LevelOk(bs, k, admitted, start) && k != KeyOf(q)
    ensures LevelOk(Served(bs, q), k, admitted, start)
  {
  }

  lemma {:induction false} WindowLevel(qs: seq<Request>, n: nat, k: Key, start: real)
    requires Ordered(qs) && n <= |qs| && forall i :: n <= i < |qs| ==> start <= qs[i].now
    ensures LevelOk(Run(qs), k, Admitted(qs, n, k), start)
    decreases |qs|
  {
    if |qs| > n {
      var init, q := qs[..|qs|-1], qs[|qs|-1];
      WindowLevel(init, n, k, start);
      if KeyOf(q) == k {
        TokensInRange(init);
        LevelStep(Run(init), q, Admitted(init, n, k), start);
      } else {
        LevelElsewhere(Run(init), q, k, Admitted(init, n, k), start);
      }
    }
  }

  lemma WindowGain(qs: seq<Request>, n: nat, k: Key, start: real, length: real)
    requires Ordered(qs) && n <= |qs| && length >= 0.0
    requires forall i :: n <= i < |qs| ==> start <= qs[i].now <= start + length
    ensures Admitted(qs, n, k) > 0 ==> Admitted(qs, n, k) as real <= Rate(k.route) + Gain(k.route, length)
  {
    if Admitted(qs, n, k) > 0 {
      WindowLevel(qs, n, k, start);
      TokensInRange(qs);
      LastInWindow(qs, k);
      GainGrows(k.route, Run(qs)[k].last - start, length);
    }
  }

  lemma RefillOf(r: Route, length: real)
    requires length >= 0.0
    ensures Gain(r, length) == length * Rate(r) / 60.0 && Rate(r) + length * Rate(r) / 60.0 >= 0.0
  {
    GainPositive(r, length);
  }

  /** For each key and every window of `length` seconds, at most the rate plus the refill of the
      window is admitted. */
  lemma WindowBound(qs: seq<Request>, n: nat, k: Key, start: real, length: real)
    requires Ordered(qs) && n <= |qs| && length >= 0.0
    requires forall i :: n <= i < |qs| ==> start <= qs[i].now <= start + length
    ensures Admitted(qs, n, k) as real <= Rate(k.route) + length * Rate(k.route) / 60.0
  {
    WindowGain(qs, n, k, start, length);
    RefillOf(k.route, length);
  }

  lemma LastInWindow(qs: seq<Request>, k: Key)
    requires Ordered(qs) && k in Run(qs)
    ensures qs != [] && Run(qs)[k].last <= qs[|qs|-1].now
  {
    TokensInRange(qs);
  }

  lemma OrderedInit(qs: seq<Request>, q: Request)
    requires Ordered(qs + [q])
    ensures Ordered(qs) && q.created <= q.now && (qs != [] ==> qs[|qs|-1].now <= q.now)
  {
    var all := qs + [q];
    assert all[|qs|] == q && forall i :: 0 <= i < |qs| ==> all[i] == qs[i];
  }

  lemma OneToken(r: Route, elapsed: real)
    requires elapsed >= 60.0 / Rate(r)
    ensures Gain(r, elapsed) >= 1.0
  {
    GainGrows(r, 60.0 / Rate(r), elapsed);
    assert Gain(r, 60.0 / Rate(r)) == 1.0;
  }

  /** A request is let through whenever at least 60/rate seconds have passed since the last one of
      its key, admitted or not, and so is the first one. */
  lemma SpacedIsAdmitted(qs: seq<Request>, q: Request)
    requires Ordered(qs + [q])
    requires KeyOf(q) in Run(qs) ==> q.now - Run(qs)[KeyOf(q)].last >= 60.0 / Rate(KeyOf(q).route)
    ensures Admits(Run(qs), q)
  {
    var r := KeyOf(q).route;
    OrderedInit(qs, q);
    TokensInRange(qs);
    if KeyOf(q) in Run(qs) {
      OneToken(r, q.now - Run(qs)[KeyOf(q)].last);
    } else {
      GainPositive(r, q.now - q.created);
    }
  }

  // ----- the burst ----------------------------------------------------------------------------

  /** `n` requests of one client and path at one instant, on a fresh limiter. */
  function Burst(q: Request, n: nat): (r: seq<Request>)
    ensures |r| == n && forall i :: 0 <= i < n ==> r[i] == q
  {
    seq(n, i => q)
  }

  function WholeRate(r: Route): nat {
    match r
    case Sensitive => SENSITIVE_RATE
    case Upload => UPLOAD_RATE
    case General => DEFAULT_RATE
  }

  function LeftAfter(q: Request, n: nat): real {
    var r := KeyOf(q).route;
    if n <= WholeRate(r) then Rate(r) - n as real else 0.0
  }

  /** The window bound is reached: of a burst exactly the rate is let through. */
  lemma {:induction false} BurstAdmitsTheRate(q: Request, n: nat)
    requires q.created <= q.now
    ensures Admitted(Burst(q, n), 0, KeyOf(q)) == if n <= WholeRate(KeyOf(q).route) then n else WholeRate(KeyOf(q).route)
    ensures n > 0 ==> KeyOf(q) in Run(Burst(q, n)) && Run(Burst(q, n))[KeyOf(q)] == Bucket(LeftAfter(q, n), q.now)
  {
    var r := KeyOf(q).route;
    if n > 0 {
      BurstAdmitsTheRate(q, n - 1);
      assert Burst(q, n)[..n-1] == Burst(q, n - 1);
      assert Gain(r, 0.0) == 0.0;
      GainPositive(r, q.now - q.created);
    }
  }

  // ----- routes and clients --------------------------------------------------------------------

  lemma SensitiveRoute(path: string)
    ensures RouteOf(path) == Sensitive <==> "/auth/" <= path || "/admin/" <= path
  {
    assert SENSITIVE_PREFIXES[0] == "/auth/" && SENSITIVE_PREFIXES[1] == "/admin/";
  }

  lemma UploadRoute(path: string)
    ensures RouteOf(path) == Upload <==>
              RouteOf(path) != Sensitive && ("/documents/upload" <= path || "/documents:upload" <= path)
  {
    assert UPLOAD_PREFIXES[0] == "/documents/upload" && UPLOAD_PREFIXES[1] == "/documents:upload";
  }

  /** Thirty requests a minute for sign-in and administration, sixty for uploads, six hundred otherwise. */
  lemma RoutesHaveRates(path: string)
    ensures RouteOf(path) == Sensitive ==> Rate(RouteOf(path)) == 30.0
    ensures RouteOf(path) == Upload ==> Rate(RouteOf(path)) == 60.0
    ensures RouteOf(path) == General ==> Rate(RouteOf(path)) == 600.0
  {
  }

  /** The requests of one client on one kind of route. */
  function Of(qs: seq<Request>, ip: string, route: Route): seq<Request> {
    if qs == [] then []
    else
      var q := qs[|qs|-1];
      Of(qs[..|qs|-1], ip, route) + if q.ip == ip && RouteOf(q.path) == route then [q] else []
  }

  /** The same bucket for the key, or none in both. */
  predicate Agree(bs: Buckets, cs: Buckets, k: Key) { (k in bs <==> k in cs) && (k in bs ==> bs[k] == cs[k]) }

  lemma ServedAlike(bs: Buckets, cs: Buckets, q: Request)
    requires Agree(bs, cs, KeyOf(q))
    ensures Agree(Served(bs, q), Served(cs, q), KeyOf(q)) && (Admits(bs, q) <==> Admits(cs, q))
  {
    assert BucketFor(bs, q) == BucketFor(cs, q);
    assert Refilled(bs, q) == Refilled(cs, q);
  }

  lemma ServedElsewhere(bs: Buckets, q: Request, k: Key)
    requires k != KeyOf(q)
    ensures Agree(Served(bs, q), bs, k)
  {
  }

  lemma RunSnoc(qs: seq<Request>, q: Request)
    ensures Run(qs + [q]) == Served(Run(qs), q)
  {
    assert (qs + [q])[..|qs|] == qs;
  }

  lemma {:induction false} OwnBucket(qs: seq<Request>, ip: string, route: Route)
    ensures Agree(Run(qs), Run(Of(qs, ip, route)), Key(ip, route))
  {
    if qs != [] {
      var init, q := qs[..|qs|-1], qs[|qs|-1];
      var mine := Of(init, ip, route);
      OwnBucket(init, ip, route);
      if KeyOf(q) == Key(ip, route) {
        ServedAlike(Run(init), Run(mine), q);
        RunSnoc(mine, q);
      } else {
        ServedElsewhere(Run(init), q, Key(ip, route));
        assert mine + [] == mine;
      }
    }
  }

  /** Whether a request is let through depends on the earlier requests of its own client on its own kind of
      route alone: nobody else uses up its tokens. */
  lemma OthersDoNotCount(qs: seq<Request>, q: Request)
    ensures Admits(Run(qs), q) <==> Admits(Run(Of(qs, q.ip, RouteOf(q.path))), q)
  {
    OwnBucket(qs, q.ip, RouteOf(q.path));
    ServedAlike(Run(qs), Run(Of(qs, q.ip, RouteOf(q.path))), q);
  }
}
