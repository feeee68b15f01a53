/**
 The fixed-window limiter (InMemoryRateLimiter in app/api/security.py) and what a whole
 history of requests may get through it. Times are clock readings in ticks; a request is a
 call of `allow` with the reading it takes.
 */
module RateLimiter {
  import opened Prelude

  datatype Bucket = Bucket(started: int, count: nat)

  datatype Policy = Policy(limit: nat, window: nat)

  datatype Request = Request(key: string, now: int)

  /** What the constructor demands. */
  predicate ValidPolicy(p: Policy) {
    p.limit > 0 && p.window > 0
  }

  /** The bucket `allow` counts in: the stored one, or a new one once its window has passed. */
  function Current(p: Policy, buckets: map<string, Bucket>, r: Request): Bucket {
    if r.key in buckets && r.now - buckets[r.key].started < p.window then buckets[r.key] else Bucket(r.now, 0)
  }

  predicate Admits(p: Policy, buckets: map<string, Bucket>, r: Request) {
    Current(p, buckets, r).count < p.limit
  }

  function Update(p: Policy, buckets: map<string, Bucket>, r: Request): map<string, Bucket> {
    var b := Current(p, buckets, r);
    buckets[r.key := if b.count < p.limit then Bucket(b.started, b.count + 1) else b]
  }

  // ----- histories -----

  function After(p: Policy, history: seq<Request>): map<string, Bucket> {
    if history == [] then map[]
    else Update(p, After(p, history[..|history| - 1]), history[|history| - 1])
  }

  /** Whether the i-th request of the history was allowed. */
  predicate Allowed(p: Policy, history: seq<Request>, i: nat)
    requires i < |history|
  {
    Admits(p, After(p, history[..i]), history[i])
  }

  /** `history` is every call so far; the dictionary is determined by it. */
  class InMemoryRateLimiter {
    const policy: Policy
    var buckets: map<string, Bucket>
    ghost var history: seq<Request>

    ghost predicate Valid()
      reads this
    {
      ValidPolicy(policy) && buckets == After(policy, history)
    }

    constructor (limit: nat, windowTicks: nat)
      requires limit > 0 && windowTicks > 0
      ensures Valid() && policy == Policy(limit, windowTicks) && history == []
    {
      policy, buckets, history := Policy(limit, windowTicks), map[], [];
    }

    method Allow(key: string, now: int) returns (allowed: bool)
      requires Valid()
      modifies this
      ensures Valid() && history == old(history) + [Request(key, now)]
      ensures allowed == Allowed(policy, history, |history| - 1)
      ensures buckets == Update(policy, old(buckets), Request(key, now))
    {
      assert (history + [Request(key, now)])[..|history|] == history;
      history := history + [Request(key, now)];
      var started, count := now, 0;
      if key in buckets {
        started, count := buckets[key].started, buckets[key].count;
      }
      if now - started >= policy.window {
        started, count := now, 0;
      }
      if count >= policy.limit {
        buckets := buckets[key := Bucket(started, count)];
        return false;
      }
      buckets := buckets[key := Bucket(started, count + 1)];
      return true;
    }
  }

  /** Allowed requests with the key among positions from..to. */
  function AllowedCount(p: Policy, history: seq<Request>, key: string, from: nat, to: nat): nat
    requires to <= |history|
  {
    if to <= from then 0
    else AllowedCount(p, history, key, from, to - 1)
         + if history[to - 1].key == key && Allowed(p, history, to - 1) then 1 else 0
  }

  /** The position of the request that opened the key's window as of position n. */
  function Opening(p: Policy, history: seq<Request>, key: string, n: nat): (o: Option<nat>)
    requires n <= |history|
    ensures o.Some? ==> o.value < n
  {
    if n == 0 then None
    else
      var earlier := Opening(p, history, key, n - 1);
      if history[n - 1].key == key && !StillOpen(p, history, earlier, history[n - 1].now) then Some(n - 1) else earlier
  }

  predicate StillOpen(p: Policy, history: seq<Request>, opening: Option<nat>, now: int) {
    opening.Some? && opening.value < |history| && now - history[opening.value].now < p.window
  }

  predicate NonDecreasing(history: seq<Request>) {
    forall i, j :: 0 <= i < j < |history| ==> history[i].now <= history[j].now
  }

  // ----- the bucket counts what was allowed since its window opened -----

  /** Bucket `b` of `key` stands for position `o`. */
  predicate Describes(p: Policy, history: seq<Request>, key: string, n: nat, o: nat, b: Bucket)
    requires n <= |history|
  {
    && o < n && history[o].key == key && b.started == history[o].now && Allowed(p, history, o)
    && b.count == AllowedCount(p, history, key, o, n) && 1 <= b.count <= p.limit
  }

  predicate BucketMeans(p: Policy, history: seq<Request>, key: string, n: nat)
    requires n <= |history|
  {
    var buckets := After(p, history[..n]);
    var o := Opening(p, history, key, n);
    && (key in buckets <==> o.Some?)
    && (key in buckets ==> Describes(p, history, key, n, o.value, buckets[key]))
  }

  lemma {:induction false} BucketCounts(p: Policy, history: seq<Request>, key: string, n: nat)
    requires ValidPolicy(p) && n <= |history|
    ensures BucketMeans(p, history, key, n)
  {
    if n == 0 {
      assert history[..0] == [];
    } else {
      BucketCounts(p, history, key, n - 1);
      assert history[..n][..n - 1] == history[..n - 1] && history[..n][n - 1] == history[n - 1];
      BucketStep(p, history, key, n);
    }
  }

  lemma {:induction false} BucketStep(p: Policy, history: seq<Request>, key: string, n: nat)
    requires ValidPolicy(p) && 0 < n <= |history| && BucketMeans(p, history, key, n - 1)
    requires After(p, history[..n]) == Update(p, After(p, history[..n - 1]), history[n - 1])
    ensures BucketMeans(p, history, key, n)
  {
    var before := After(p, history[..n - 1]);
    var r := history[n - 1];
    if r.key == key && !(key in before && r.now - before[key].started < p.window) {
      assert Opening(p, history, key, n) == Some(n - 1);
      assert AllowedCount(p, history, key, n - 1, n - 1) == 0;
    }
  }

  // ----- what a history may get through -----

  /** A denial: the key's window is still open and exactly `limit` requests were allowed in it. */
  lemma {:induction false} DeniedIff(p: Policy, history: seq<Request>, i: nat)
    requires ValidPolicy(p) && i < |history|
    ensures var o := Opening(p, history, history[i].key, i);
      !Allowed(p, history, i) <==>
        StillOpen(p, history, o, history[i].now) && AllowedCount(p, history, history[i].key, o.value, i) == p.limit
  {
    BucketCounts(p, history, history[i].key, i);
  }

  /** One full window after the window's start a request is allowed and opens the next window. */
  lemma {:induction false} FullWindowLater(p: Policy, history: seq<Request>, i: nat, o: nat)
    requires ValidPolicy(p) && i < |history| && Opening(p, history, history[i].key, i) == Some(o) && o < |history|
    requires history[i].now - history[o].now >= p.window
    ensures Allowed(p, history, i) && Opening(p, history, history[i].key, i + 1) == Some(i)
  {
    DeniedIff(p, history, i);
  }

  /** Within one window at most `limit` requests are allowed. */
  lemma {:induction false} WindowBound(p: Policy, history: seq<Request>, key: string, n: nat)
    requires ValidPolicy(p) && n <= |history|
    ensures var o := Opening(p, history, key, n);
      if o.Some? then o.value < n && 1 <= AllowedCount(p, history, key, o.value, n) <= p.limit
      else AllowedCount(p, history, key, 0, n) == 0
  {
    BucketCounts(p, history, key, n);
    if Opening(p, history, key, n).None? {
      NothingBeforeOpening(p, history, key, n);
    }
  }

  lemma {:induction false} NothingBeforeOpening(p: Policy, history: seq<Request>, key: string, n: nat)
    requires n <= |history| && Opening(p, history, key, n).None?
    ensures AllowedCount(p, history, key, 0, n) == 0
  {
    if n > 0 {
      NothingBeforeOpening(p, history, key, n - 1);
    }
  }

  lemma {:induction false} CountSplit(p: Policy, history: seq<Request>, key: string, a: nat, b: nat, c: nat)
    requires a <= b <= c <= |history|
    ensures AllowedCount(p, history, key, a, c) == AllowedCount(p, history, key, a, b) + AllowedCount(p, history, key, b, c)
  {
    if b < c {
      CountSplit(p, history, key, a, b, c - 1);
    }
  }

  /** The opening as of n was the opening request's own doing: the window before it had passed. */
  lemma {:induction false} OpeningFollows(p: Policy, history: seq<Request>, key: string, n: nat)
    requires n <= |history| && Opening(p, history, key, n).Some?
    ensures var s := Opening(p, history, key, n).value;
      && s < n && history[s].key == key
      && !StillOpen(p, history, Opening(p, history, key, s), history[s].now)
  {
    if Opening(p, history, key, n) == Opening(p, history, key, n - 1) && Opening(p, history, key, n) != Some(n - 1) {
      OpeningFollows(p, history, key, n - 1);
    }
  }

  /**
   Any stretch of time shorter than one window lets through at most 2 * limit - 1 requests
   of a key: it can straddle two windows, but never contains the opening of both.
   */
  lemma {:induction false} SlidingBound(p: Policy, history: seq<Request>, key: string, i: nat, j: nat)
    requires ValidPolicy(p) && NonDecreasing(history)
    requires i < j <= |history| && history[j - 1].now - history[i].now < p.window
    ensures AllowedCount(p, history, key, i, j) <= 2 * p.limit - 1
  {
    WindowBound(p, history, key, j);
    var o := Opening(p, history, key, j);
    if o.None? {
      CountSplit(p, history, key, 0, i, j);
    } else {
      var s := o.value;
      if s <= i {
        CountSplit(p, history, key, s, i, j);
      } else {
        CountSplit(p, history, key, i, s, j);
        EarlierWindow(p, history, key, i, s, j);
      }
    }
  }

  /** What the stretch takes from the window before the one open at its end. */
  lemma {:induction false} EarlierWindow(p: Policy, history: seq<Request>, key: string, i: nat, s: nat, j: nat)
    requires ValidPolicy(p) && NonDecreasing(history) && i < s < j <= |history|
    requires Opening(p, history, key, j) == Some(s) && history[j - 1].now - history[i].now < p.window
    ensures AllowedCount(p, history, key, i, s) <= p.limit - 1
  {
    OpeningFollows(p, history, key, j);
    WindowBound(p, history, key, s);
    var e := Opening(p, history, key, s);
    if e.None? {
      CountSplit(p, history, key, 0, i, s);
    } else {
      assert e.value < i;
      BucketCounts(p, history, key, s);
      CountSplit(p, history, key, e.value, i, s);
      OpeningCounts(p, history, key, e.value, i);
    }
  }

  lemma {:induction false} OpeningCounts(p: Policy, history: seq<Request>, key: string, o: nat, i: nat)
    requires o < i <= |history| && history[o].key == key && Allowed(p, history, o)
    ensures AllowedCount(p, history, key, o, i) >= 1
  {
    if o + 1 < i {
      OpeningCounts(p, history, key, o, i - 1);
    }
  }

  // ----- one whole window, and windows of one tick -----

  /** Between an opening and a later position it was still the key's opening. */
  lemma {:induction false} OpeningStable(p: Policy, history: seq<Request>, key: string, n: nat, k: nat)
    requires k <= n <= |history| && Opening(p, history, key, n).Some? && Opening(p, history, key, n).value < k
    ensures Opening(p, history, key, k) == Opening(p, history, key, n)
  {
    if k < n {
      OpeningStable(p, history, key, n - 1, k);
    }
  }

  /** Requests of the key at the very reading that opens a window come after the opening. */
  lemma {:induction false} NoneBesideOpening(p: Policy, history: seq<Request>, key: string, n: nat, s: nat, i: nat)
    requires ValidPolicy(p) && NonDecreasing(history) && i <= s < n <= |history|
    requires Opening(p, history, key, n) == Some(s) && history[i].now == history[s].now
    ensures AllowedCount(p, history, key, i, s) == 0
  {
    OpeningFollows(p, history, key, n);
    if Opening(p, history, key, s).None? {
      NothingBeforeOpening(p, history, key, s);
      CountSplit(p, history, key, 0, i, s);
    } else {
      NoneUpTo(p, history, key, n, s, i, s);
    }
  }

  lemma {:induction false} NoneUpTo(p: Policy, history: seq<Request>, key: string, n: nat, s: nat, i: nat, k: nat)
    requires ValidPolicy(p) && NonDecreasing(history) && i <= k <= s < n <= |history|
    requires Opening(p, history, key, n) == Some(s) && history[i].now == history[s].now
    requires Opening(p, history, key, s).Some?
    ensures AllowedCount(p, history, key, i, k) == 0
  {
    OpeningFollows(p, history, key, n);
    var o := Opening(p, history, key, s).value;
    assert o < i;
    if i < k {
      NoneUpTo(p, history, key, n, s, i, k - 1);
      OpeningStable(p, history, key, s, k);
      OpeningStable(p, history, key, s, k - 1);
      assert history[k - 1].now == history[s].now;
    }
  }

  /** Readings at most one whole window apart let through at most 2 * limit requests of a key. */
  lemma {:induction false} ClosedBound(p: Policy, history: seq<Request>, key: string, i: nat, j: nat)
    requires ValidPolicy(p) && NonDecreasing(history)
    requires i < j <= |history| && history[j - 1].now - history[i].now <= p.window
    ensures AllowedCount(p, history, key, i, j) <= 2 * p.limit
  {
    WindowBound(p, history, key, j);
    var o := Opening(p, history, key, j);
    if o.None? {
      CountSplit(p, history, key, 0, i, j);
    } else if o.value <= i {
      CountSplit(p, history, key, o.value, i, j);
    } else {
      CountSplit(p, history, key, i, o.value, j);
      ClosedEarlier(p, history, key, i, o.value, j);
    }
  }

  lemma {:induction false} ClosedEarlier(p: Policy, history: seq<Request>, key: string, i: nat, s: nat, j: nat)
    requires ValidPolicy(p) && NonDecreasing(history) && i < s < j <= |history|
    requires Opening(p, history, key, j) == Some(s) && history[j - 1].now - history[i].now <= p.window
    ensures AllowedCount(p, history, key, i, s) <= p.limit
  {
    OpeningFollows(p, history, key, j);
    WindowBound(p, history, key, s);
    var e := Opening(p, history, key, s);
    if e.None? {
      CountSplit(p, history, key, 0, i, s);
    } else if e.value <= i {
      CountSplit(p, history, key, e.value, i, s);
    } else {
      CountSplit(p, history, key, i, e.value, s);
      NoneBesideOpening(p, history, key, s, e.value, i);
    }
  }

  /** A single reading lets through at most `limit` requests of a key. */
  lemma {:induction false} SameReadingBound(p: Policy, history: seq<Request>, key: string, i: nat, j: nat)
    requires ValidPolicy(p) && NonDecreasing(history)
    requires i < j <= |history| && history[j - 1].now == history[i].now
    ensures AllowedCount(p, history, key, i, j) <= p.limit
  {
    WindowBound(p, history, key, j);
    var o := Opening(p, history, key, j);
    if o.None? {
      CountSplit(p, history, key, 0, i, j);
    } else if o.value <= i {
      CountSplit(p, history, key, o.value, i, j);
    } else {
      CountSplit(p, history, key, i, o.value, j);
      NoneBesideOpening(p, history, key, j, o.value, i);
    }
  }

  // ----- the bounds are reached -----

  /** One request opens a window; the rest of its quota comes at `middle`, a second quota when it has passed. */
  function Straddle(p: Policy, middle: nat): seq<Request>
    requires ValidPolicy(p) && middle < p.window
  {
    seq(2 * p.limit, i => Request("k", if i == 0 then 0 else if i < p.limit then middle else p.window))
  }

  lemma {:induction false} StraddleState(p: Policy, middle: nat, n: nat)
    requires ValidPolicy(p) && middle < p.window && 0 < n <= 2 * p.limit
    ensures After(p, Straddle(p, middle)[..n])
         == map["k" := if n <= p.limit then Bucket(0, n) else Bucket(p.window, n - p.limit)]
    ensures Allowed(p, Straddle(p, middle), n - 1)
  {
    var h := Straddle(p, middle);
    assert h[..n][..n - 1] == h[..n - 1] && h[..n][n - 1] == h[n - 1];
    if n == 1 {
      assert h[..0] == [];
    } else {
      StraddleState(p, middle, n - 1);
    }
  }

  lemma {:induction false} StraddleCount(p: Policy, middle: nat, from: nat, n: nat)
    requires ValidPolicy(p) && middle < p.window && from <= n <= 2 * p.limit
    ensures AllowedCount(p, Straddle(p, middle), "k", from, n) == n - from
  {
    if n > from {
      StraddleCount(p, middle, from, n - 1);
      StraddleState(p, middle, n);
    }
  }

  /** For every policy with a window of two ticks or more, a history with one tick between first and last. */
  lemma {:induction false} SlidingBoundReached(p: Policy)
    requires ValidPolicy(p) && p.window >= 2
    ensures var h := Straddle(p, p.window - 1);
      && NonDecreasing(h) && |h| == 2 * p.limit && h[|h| - 1].now - h[1].now < p.window
      && AllowedCount(p, h, "k", 1, |h|) == 2 * p.limit - 1
  {
    StraddleCount(p, p.window - 1, 1, 2 * p.limit);
  }

  /** For every policy, a history within one whole window. */
  lemma {:induction false} ClosedBoundReached(p: Policy)
    requires ValidPolicy(p)
    ensures var h := Straddle(p, 0);
      && NonDecreasing(h) && |h| == 2 * p.limit && h[|h| - 1].now - h[0].now == p.window
      && AllowedCount(p, h, "k", 0, |h|) == 2 * p.limit
  {
    StraddleCount(p, 0, 0, 2 * p.limit);
  }

  // ----- denials leave no trace, keys do not interfere -----

  function AllowedOnly(p: Policy, history: seq<Request>): seq<Request> {
    if history == [] then []
    else
      var n := |history| - 1;
      if Allowed(p, history, n) then AllowedOnly(p, history[..n]) + [history[n]] else AllowedOnly(p, history[..n])
  }

  /** A denied request changes nothing, so dropping the denied ones changes no later verdict. */
  lemma {:induction false} DenialsLeaveNoTrace(p: Policy, history: seq<Request>)
    requires ValidPolicy(p)
    ensures After(p, AllowedOnly(p, history)) == After(p, history)
    ensures forall i :: 0 <= i < |AllowedOnly(p, history)| ==> Allowed(p, AllowedOnly(p, history), i)
  {
    if history != [] {
      var n := |history| - 1;
      var front := AllowedOnly(p, history[..n]);
      DenialsLeaveNoTrace(p, history[..n]);
      if Allowed(p, history, n) {
        var all := front + [history[n]];
        assert all[..|front|] == front;
        forall i | 0 <= i < |front| ensures Allowed(p, all, i) {
          assert all[..i] == front[..i];
          assert Allowed(p, front, i);
        }
      } else {
        DeniedChangesNothing(p, After(p, history[..n]), history[n]);
      }
    }
  }

  lemma {:induction false} DeniedChangesNothing(p: Policy, buckets: map<string, Bucket>, r: Request)
    requires ValidPolicy(p) && !Admits(p, buckets, r)
    ensures Update(p, buckets, r) == buckets
  {
    assert r.key in buckets && Current(p, buckets, r) == buckets[r.key];
  }

  function OnlyKey(history: seq<Request>, key: string): seq<Request> {
    if history == [] then []
    else
      var n := |history| - 1;
      if history[n].key == key then OnlyKey(history[..n], key) + [history[n]] else OnlyKey(history[..n], key)
  }

  predicate SameBucket(a: map<string, Bucket>, b: map<string, Bucket>, key: string) {
    (key in a <==> key in b) && (key in a ==> a[key] == b[key])
  }

  lemma {:induction false} UpdateIsLocal(p: Policy, a: map<string, Bucket>, b: map<string, Bucket>, q: Request, key: string)
    requires SameBucket(a, b, key)
    ensures SameBucket(Update(p, a, q), if q.key == key then Update(p, b, q) else b, key)
    ensures q.key == key ==> Admits(p, a, q) == Admits(p, b, q)
  {
  }

  /** A key's bucket, hence its verdicts, depend on its own requests only. */
  lemma {:induction false} KeysDoNotInterfere(p: Policy, history: seq<Request>, r: Request)
    ensures SameBucket(After(p, history), After(p, OnlyKey(history, r.key)), r.key)
    ensures Admits(p, After(p, history), r) == Admits(p, After(p, OnlyKey(history, r.key)), r)
  {
    if history != [] {
      var n := |history| - 1;
      KeysDoNotInterfere(p, history[..n], r);
      var front := OnlyKey(history[..n], r.key);
      UpdateIsLocal(p, After(p, history[..n]), After(p, front), history[n], r.key);
      assert (front + [history[n]])[..|front|] == front;
    }
    UpdateIsLocal(p, After(p, history), After(p, OnlyKey(history, r.key)), r, r.key);
  }

  // ----- a client that keeps to the rate is never denied -----

  function RequestCount(history: seq<Request>, key: string, from: nat, to: nat): nat
    requires to <= |history|
  {
    if to <= from then 0
    else RequestCount(history, key, from, to - 1) + if history[to - 1].key == key then 1 else 0
  }

  lemma {:induction false} AllowedAreRequests(p: Policy, history: seq<Request>, key: string, from: nat, to: nat)
    requires to <= |history|
    ensures AllowedCount(p, history, key, from, to) <= RequestCount(history, key, from, to)
  {
    if from < to {
      AllowedAreRequests(p, history, key, from, to - 1);
    }
  }

  /** At most `limit` requests of the key, this one included, since any moment less than a window ago. */
  predicate KeepsRate(p: Policy, history: seq<Request>, i: nat)
    requires i < |history|
  {
    forall o :: 0 <= o <= i && history[i].now - history[o].now < p.window ==>
      RequestCount(history, history[i].key, o, i + 1) <= p.limit
  }

  lemma {:induction false} ModestClientNeverDenied(p: Policy, history: seq<Request>, i: nat)
    requires ValidPolicy(p) && i < |history| && KeepsRate(p, history, i)
    ensures Allowed(p, history, i)
  {
    DeniedIff(p, history, i);
    var o := Opening(p, history, history[i].key, i);
    if StillOpen(p, history, o, history[i].now) && o.value < i {
      AllowedAreRequests(p, history, history[i].key, o.value, i);
    }
  }
}
