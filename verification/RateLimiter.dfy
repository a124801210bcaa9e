// The token-bucket limiter. Times are seconds on the monotonic clock and tokens are reals.

module RateLimiter {
  /** Idle time after which a bucket is collected, and the least time between collections. */
  const CLEANUP := 300.0

  datatype Bucket = Bucket(tokens: real, lastRefill: real)

  /** Tokens earned in `elapsed` seconds at `rate` requests a minute. */
  function Gain(rate: nat, elapsed: real): real {
    elapsed * rate as real / 60.0
  }

  lemma GainAdds(rate: nat, a: real, b: real)
    ensures Gain(rate, a + b) == Gain(rate, a) + Gain(rate, b)
  {
    assert (a + b) * rate as real == a * rate as real + b * rate as real;
  }

  lemma GainGrows(rate: nat, a: real, b: real)
    requires a <= b
    ensures Gain(rate, a) <= Gain(rate, b)
  {
    assert (b - a) * rate as real >= 0.0;
    GainAdds(rate, a, b - a);
  }

  /** A bucket's tokens at `now`; the burst capacity equals the rate. */
  function Level(rate: nat, b: Bucket, now: real): real {
    var filled := b.tokens + Gain(rate, now - b.lastRefill);
    if filled > rate as real then rate as real else filled
  }

  function Available(rate: nat, buckets: map<string, Bucket>, key: string, now: real): real {
    if key in buckets then Level(rate, buckets[key], now) else rate as real
  }

  datatype Call = Call(key: string, at: real)

  /** The bucket a call leaves behind, given what was available to it. */
  function Spent(available: real, at: real): Bucket {
    Bucket(if available < 1.0 then available else available - 1.0, at)
  }

  function Charged(rate: nat, buckets: map<string, Bucket>, c: Call): map<string, Bucket> {
    buckets[c.key := Spent(Available(rate, buckets, c.key, c.at), c.at)]
  }

  // ----- the limiter that keeps every bucket, as reference -----

  function Forever(rate: nat, calls: seq<Call>): map<string, Bucket> {
    if calls == [] then map[] else Charged(rate, Forever(rate, calls[..|calls| - 1]), calls[|calls| - 1])
  }

  predicate Admitted(rate: nat, calls: seq<Call>, i: nat)
    requires i < |calls|
  {
    Available(rate, Forever(rate, calls[..i]), calls[i].key, calls[i].at) >= 1.0
  }

  // ----- the limiter that collects idle buckets -----

  datatype Limiter = Limiter(buckets: map<string, Bucket>, lastGC: real)

  function Idle(buckets: map<string, Bucket>, now: real): set<string> {
    set k | k in buckets && buckets[k].lastRefill < now - CLEANUP
  }

  function Cleaned(l: Limiter, now: real): Limiter {
    if now - l.lastGC < CLEANUP then l else Limiter(l.buckets - Idle(l.buckets, now), now)
  }

  function Served(rate: nat, l: Limiter, c: Call): Limiter {
    var cleaned := Cleaned(l, c.at);
    cleaned.(buckets := Charged(rate, cleaned.buckets, c))
  }

  /** State after a history of calls by a limiter made at time `start`. */
  function Collecting(rate: nat, start: real, calls: seq<Call>): Limiter {
    if calls == [] then Limiter(map[], start)
    else Served(rate, Collecting(rate, start, calls[..|calls| - 1]), calls[|calls| - 1])
  }

  /** The answer to call i of a history. */
  predicate Answer(rate: nat, start: real, calls: seq<Call>, i: nat)
    requires i < |calls|
  {
    Available(rate, Cleaned(Collecting(rate, start, calls[..i]), calls[i].at).buckets, calls[i].key, calls[i].at) >= 1.0
  }

  class TokenBuckets {
    const rate: nat
    var buckets: map<string, Bucket>
    var lastGC: real

    constructor (requestsPerMinute: nat, now: real)
      ensures rate == requestsPerMinute && State() == Collecting(rate, now, [])
    {
      rate, buckets, lastGC := requestsPerMinute, map[], now;
    }

    ghost function State(): Limiter
      reads this
    {
      Limiter(buckets, lastGC)
    }

    method CleanupStale(now: real)
      modifies this
      ensures State() == Cleaned(old(State()), now)
      ensures now - old(lastGC) < 300.0 ==> State() == old(State())
      ensures now - old(lastGC) >= 300.0 ==> lastGC == now
      ensures now - old(lastGC) >= 300.0 ==>
                forall k :: k in buckets <==> k in old(buckets) && now - old(buckets)[k].lastRefill <= 300.0
      ensures forall k :: k in buckets ==> buckets[k] == old(buckets)[k]
    {
      if now - lastGC < CLEANUP { return; }
      var cutoff := now - CLEANUP;
      var todo := buckets.Keys;
      while todo != {}
        invariant todo <= old(buckets).Keys
        invariant forall k ::
                    k in buckets <==> k in old(buckets) && (k in todo || !(old(buckets)[k].lastRefill < cutoff))
        invariant forall k :: k in buckets ==> buckets[k] == old(buckets)[k]
        decreases todo
      {
        var key :| key in todo;
        if buckets[key].lastRefill < cutoff { buckets := buckets - {key}; }
        todo := todo - {key};
      }
      lastGC := now;
      assert buckets == old(buckets) - Idle(old(buckets), now);
    }

    method Allow(key: string, now: real) returns (ok: bool)
      modifies this
      ensures State() == Served(rate, old(State()), Call(key, now))
      ensures var kept := Cleaned(old(State()), now).buckets;
              var level := if key in kept
                           then kept[key].tokens + (now - kept[key].lastRefill) * rate as real / 60.0
                           else rate as real;
              var capped := if level > rate as real then rate as real else level;
              && (ok <==> capped >= 1.0)
              && key in buckets && buckets[key] == Bucket(if ok then capped - 1.0 else capped, now)
      ensures forall start, past | old(State()) == Collecting(rate, start, past) ::
                var calls := past + [Call(key, now)];
                State() == Collecting(rate, start, calls) && ok == Answer(rate, start, calls, |past|)
    {
      CleanupStale(now);
      var b := if key in buckets then buckets[key] else Bucket(rate as real, now);
      var elapsed := now - b.lastRefill;
      var tokens := b.tokens + Gain(rate, elapsed);
      if tokens > rate as real { tokens := rate as real; }
      ok := !(tokens < 1.0);
      if ok { tokens := tokens - 1.0; }
      buckets := buckets[key := Bucket(tokens, now)];
      forall start, past: seq<Call> | old(State()) == Collecting(rate, start, past)
        ensures var calls := past + [Call(key, now)];
                State() == Collecting(rate, start, calls) && ok == Answer(rate, start, calls, |past|)
      {
        assert (past + [Call(key, now)])[..|past|] == past;
      }
    }
  }

  // ----- tokens stay in range -----

  predicate InRange(rate: nat, buckets: map<string, Bucket>, now: real) {
    forall k :: k in buckets ==> 0.0 <= buckets[k].tokens <= rate as real && buckets[k].lastRefill <= now
  }

  /** Calls arrive in clock order, from `start` on. */
  predicate Ordered(start: real, calls: seq<Call>) {
    && (forall i :: 0 <= i < |calls| ==> start <= calls[i].at)
    && (forall i, j :: 0 <= i < j < |calls| ==> calls[i].at <= calls[j].at)
  }

  function LastAt(start: real, calls: seq<Call>): real {
    if calls == [] then start else calls[|calls| - 1].at
  }

  lemma LevelInRange(rate: nat, b: Bucket, now: real)
    requires 0.0 <= b.tokens <= rate as real && b.lastRefill <= now
    ensures b.tokens <= Level(rate, b, now) <= rate as real
  {
    GainGrows(rate, 0.0, now - b.lastRefill);
  }

  lemma ChargedInRange(rate: nat, buckets: map<string, Bucket>, now: real, c: Call)
    requires InRange(rate, buckets, now) && now <= c.at
    ensures 0.0 <= Available(rate, buckets, c.key, c.at) <= rate as real
    ensures InRange(rate, Charged(rate, buckets, c), c.at)
  {
    if c.key in buckets { LevelInRange(rate, buckets[c.key], c.at); }
  }

  lemma {:induction false} ForeverInRange(rate: nat, start: real, calls: seq<Call>)
    requires Ordered(start, calls)
    ensures InRange(rate, Forever(rate, calls), LastAt(start, calls))
  {
    if calls != [] {
      var init := calls[..|calls| - 1];
      ForeverInRange(rate, start, init);
      ChargedInRange(rate, Forever(rate, init), LastAt(start, init), calls[|calls| - 1]);
    }
  }

  lemma AvailableInRange(rate: nat, start: real, calls: seq<Call>, key: string, at: real)
    requires Ordered(start, calls) && LastAt(start, calls) <= at
    ensures 0.0 <= Available(rate, Forever(rate, calls), key, at) <= rate as real
  {
    ForeverInRange(rate, start, calls);
    var all := Forever(rate, calls);
    if key in all { LevelInRange(rate, all[key], at); }
  }

  /** Every bucket holds between zero and the capacity. */
  lemma {:induction false} TokensInRange(rate: nat, start: real, calls: seq<Call>)
    requires Ordered(start, calls)
    ensures InRange(rate, Collecting(rate, start, calls).buckets, LastAt(start, calls))
  {
    if calls != [] {
      var init, c := calls[..|calls| - 1], calls[|calls| - 1];
      TokensInRange(rate, start, init);
      ChargedInRange(rate, Cleaned(Collecting(rate, start, init), c.at).buckets, LastAt(start, init), c);
    }
  }

  // ----- collection is invisible -----

  /** Buckets kept are equal; buckets collected have been idle long enough to be full again. */
  predicate Agree(gc: map<string, Bucket>, all: map<string, Bucket>, now: real) {
    && (forall k :: k in gc ==> k in all && gc[k] == all[k])
    && (forall k :: k in all && k !in gc ==> all[k].lastRefill + CLEANUP < now)
  }

  lemma IdleIsFull(rate: nat, b: Bucket, now: real)
    requires 0.0 <= b.tokens && b.lastRefill + CLEANUP <= now
    ensures Level(rate, b, now) == rate as real
  {
    GainGrows(rate, CLEANUP, now - b.lastRefill);
  }

  lemma AgreeAvailable(rate: nat, gc: map<string, Bucket>, all: map<string, Bucket>, now: real, key: string, at: real)
    requires Agree(gc, all, now) && InRange(rate, all, now) && now <= at
    ensures Available(rate, gc, key, at) == Available(rate, all, key, at)
  {
    if key in all && key !in gc { IdleIsFull(rate, all[key], at); }
  }

  lemma CleanedAgrees(l: Limiter, all: map<string, Bucket>, now: real, at: real)
    requires Agree(l.buckets, all, now) && now <= at
    ensures Agree(Cleaned(l, at).buckets, all, at)
  {}

  lemma {:induction false} SameBuckets(rate: nat, start: real, calls: seq<Call>)
    requires Ordered(start, calls)
    ensures Agree(Collecting(rate, start, calls).buckets, Forever(rate, calls), LastAt(start, calls))
  {
    if calls != [] {
      var init, c := calls[..|calls| - 1], calls[|calls| - 1];
      var l, all := Collecting(rate, start, init), Forever(rate, init);
      SameBuckets(rate, start, init);
      ForeverInRange(rate, start, init);
      CleanedAgrees(l, all, LastAt(start, init), c.at);
      AgreeAvailable(rate, Cleaned(l, c.at).buckets, all, c.at, c.key, c.at);
    }
  }

  /** Every call of every history gets the answer of a limiter that never collects. */
  lemma CollectionInvisible(rate: nat, start: real, calls: seq<Call>, i: nat)
    requires Ordered(start, calls) && i < |calls|
    ensures Answer(rate, start, calls, i) <==> Admitted(rate, calls, i)
  {
    var past, c := calls[..i], calls[i];
    var l, all := Collecting(rate, start, past), Forever(rate, past);
    SameBuckets(rate, start, past);
    ForeverInRange(rate, start, past);
    CleanedAgrees(l, all, LastAt(start, past), c.at);
    AgreeAvailable(rate, Cleaned(l, c.at).buckets, all, c.at, c.key, c.at);
  }

  // ----- how much a window admits -----

  /** Calls for `key` among i, …, j - 1 that were admitted. */
  function AdmittedIn(rate: nat, start: real, calls: seq<Call>, key: string, i: nat, j: nat): nat
    requires i <= j <= |calls|
    decreases j
  {
    if i == j then 0
    else AdmittedIn(rate, start, calls, key, i, j - 1)
         + (if calls[j - 1].key == key && Answer(rate, start, calls, j - 1) then 1 else 0)
  }

  lemma LevelLater(rate: nat, b: Bucket, now: real, later: real)
    requires now <= later
    ensures Level(rate, b, later) <= Level(rate, b, now) + Gain(rate, later - now)
  {
    GainAdds(rate, now - b.lastRefill, later - now);
    GainGrows(rate, 0.0, later - now);
  }

  lemma AvailableLater(rate: nat, buckets: map<string, Bucket>, key: string, now: real, later: real)
    requires now <= later
    ensures Available(rate, buckets, key, later) <= Available(rate, buckets, key, now) + Gain(rate, later - now)
  {
    GainGrows(rate, 0.0, later - now);
    if key in buckets { LevelLater(rate, buckets[key], now, later); }
  }

  /** What is left after a call, at the time of the call. */
  lemma LeftAfter(rate: nat, buckets: map<string, Bucket>, now: real, c: Call, key: string)
    requires InRange(rate, buckets, now) && now <= c.at
    ensures var before := Available(rate, buckets, key, c.at);
            Available(rate, Charged(rate, buckets, c), key, c.at)
            == if c.key == key && before >= 1.0 then before - 1.0 else before
  {
    ChargedInRange(rate, buckets, now, c);
    assert Gain(rate, c.at - c.at) == 0.0;
  }

  /** One call of the potential argument, `before` being the buckets it meets. */
  lemma CallPotential(rate: nat, start: real, calls: seq<Call>, key: string, i: nat, j: nat)
    requires Ordered(start, calls) && i < j <= |calls|
    ensures AdmittedIn(rate, start, calls, key, i, j) as real
            + Available(rate, Forever(rate, calls[..j]), key, calls[j - 1].at)
            == AdmittedIn(rate, start, calls, key, i, j - 1) as real
               + Available(rate, Forever(rate, calls[..j - 1]), key, calls[j - 1].at)
  {
    var past, c := calls[..j - 1], calls[j - 1];
    assert calls[..j][..j - 1] == past;
    CollectionInvisible(rate, start, calls, j - 1);
    ForeverInRange(rate, start, past);
    LeftAfter(rate, Forever(rate, past), LastAt(start, past), c, key);
  }

  /** Potential argument: admissions in the window plus tokens left never exceed capacity plus refill. */
  lemma {:induction false} WindowPotential(rate: nat, start: real, calls: seq<Call>, key: string, i: nat, j: nat)
    requires Ordered(start, calls) && i < j <= |calls|
    ensures AdmittedIn(rate, start, calls, key, i, j) as real
            + Available(rate, Forever(rate, calls[..j]), key, calls[j - 1].at)
            <= rate as real + Gain(rate, calls[j - 1].at - calls[i].at)
    decreases j
  {
    var before, at := Forever(rate, calls[..j - 1]), calls[j - 1].at;
    CallPotential(rate, start, calls, key, i, j);
    if j == i + 1 {
      AvailableInRange(rate, start, calls[..i], key, at);
      GainGrows(rate, 0.0, at - calls[i].at);
    } else {
      WindowPotential(rate, start, calls, key, i, j - 1);
      AvailableLater(rate, before, key, calls[j - 2].at, at);
      GainAdds(rate, calls[j - 2].at - calls[i].at, at - calls[j - 2].at);
      assert calls[j - 2].at - calls[i].at + (at - calls[j - 2].at) == at - calls[i].at;
    }
  }

  /** At most capacity + rate·d/60 calls of one key are admitted within any d seconds. */
  lemma WindowBound(rate: nat, start: real, calls: seq<Call>, key: string, i: nat, j: nat, d: real)
    requires Ordered(start, calls) && i < j <= |calls| && calls[j - 1].at - calls[i].at <= d
    ensures AdmittedIn(rate, start, calls, key, i, j) as real <= rate as real + rate as real * d / 60.0
  {
    WindowPotential(rate, start, calls, key, i, j);
    GainGrows(rate, calls[j - 1].at - calls[i].at, d);
    AvailableInRange(rate, start, calls[..j], key, calls[j - 1].at);
  }

  // ----- who is never refused -----

  /** Any two calls of the key are at least one token's worth of time apart. */
  predicate Spaced(rate: nat, calls: seq<Call>, key: string)
    requires rate >= 1
  {
    forall i, j :: 0 <= i < j < |calls| && calls[i].key == key && calls[j].key == key ==>
      calls[j].at - calls[i].at >= 60.0 / rate as real
  }

  lemma GapEarns(rate: nat, gap: real)
    requires rate >= 1 && gap >= 60.0 / rate as real
    ensures Gain(rate, gap) >= 1.0
  {
    GainGrows(rate, 60.0 / rate as real, gap);
    assert 60.0 / rate as real * rate as real == 60.0;
  }

  /** The key's bucket, if any, was last refilled by its last call. */
  lemma {:induction false} BucketOfLastCall(rate: nat, calls: seq<Call>, key: string)
    requires key in Forever(rate, calls)
    ensures exists i :: 0 <= i < |calls| && calls[i].key == key && Forever(rate, calls)[key].lastRefill == calls[i].at
  {
    var init := calls[..|calls| - 1];
    if calls[|calls| - 1].key != key {
      BucketOfLastCall(rate, init, key);
      var i :| 0 <= i < |init| && init[i].key == key && Forever(rate, init)[key].lastRefill == init[i].at;
      assert calls[i] == init[i];
    }
  }

  /** A key that calls no faster than once per 60/rate seconds is never refused. */
  lemma SpacedNeverRefused(rate: nat, start: real, calls: seq<Call>, key: string, n: nat)
    requires rate >= 1 && Ordered(start, calls) && Spaced(rate, calls, key)
    requires n < |calls| && calls[n].key == key
    ensures Answer(rate, start, calls, n)
  {
    CollectionInvisible(rate, start, calls, n);
    var all := Forever(rate, calls[..n]);
    ForeverInRange(rate, start, calls[..n]);
    if key in all {
      BucketOfLastCall(rate, calls[..n], key);
      var i :| 0 <= i < n && calls[..n][i].key == key && all[key].lastRefill == calls[..n][i].at;
      assert calls[i].key == key;
      GapEarns(rate, calls[n].at - calls[i].at);
    }
  }
}
