/** The per-key fixed-window rate limiter and the bounds it gives over every sequence of calls. */
module RateLimiter {
  import opened Domain

  datatype Bucket = Bucket(count: int, start: Time)

  datatype Call = Call(key: string, at: Time)

  datatype Limits = Limits(max: int, window: int)

  type Hits = map<string, Bucket>

  predicate Reopens(hits: Hits, l: Limits, c: Call) {
    c.key !in hits || c.at - hits[c.key].start >= l.window
  }

  predicate Admits(hits: Hits, l: Limits, c: Call) {
    Reopens(hits, l, c) || hits[c.key].count < l.max
  }

  function After(hits: Hits, l: Limits, c: Call): Hits {
    if Reopens(hits, l, c) then hits[c.key := Bucket(1, c.at)]
    else if hits[c.key].count >= l.max then hits
    else hits[c.key := hits[c.key].(count := hits[c.key].count + 1)]
  }

  class Limiter {
    var hits: Hits
    const limits: Limits

    constructor (max: int, window: int)
      ensures hits == map[] && limits == Limits(max, window)
    {
      hits := map[];
      limits := Limits(max, window);
    }

    method Allow(key: string, now: Time) returns (ok: bool)
      modifies this
      ensures ok == Admits(old(hits), limits, Call(key, now))
      ensures hits == After(old(hits), limits, Call(key, now))
    {
      if key !in hits || now - hits[key].start >= limits.window {
        hits := hits[key := Bucket(1, now)];
        return true;
      }
      var b := hits[key];
      if b.count >= limits.max {
        return false;
      }
      hits := hits[key := b.(count := b.count + 1)];
      return true;
    }
  }

  // ----- whole call sequences -----

  predicate ClockMonotone(calls: seq<Call>) {
    forall i, j :: 0 <= i < j < |calls| ==> calls[i].at <= calls[j].at
  }

  function HitsAfter(calls: seq<Call>, l: Limits): Hits {
    if calls == [] then map[]
    else After(HitsAfter(calls[..|calls| - 1], l), l, calls[|calls| - 1])
  }

  predicate Accepted(calls: seq<Call>, l: Limits, i: int)
    requires 0 <= i < |calls|
  {
    Admits(HitsAfter(calls[..i], l), l, calls[i])
  }

  /** Accepted calls for a key with lo <= time < hi. */
  function AcceptedIn(calls: seq<Call>, l: Limits, key: string, lo: Time, hi: Time): nat {
    if calls == [] then 0
    else
      var n := |calls| - 1;
      AcceptedIn(calls[..n], l, key, lo, hi)
      + if Admits(HitsAfter(calls[..n], l), l, calls[n]) && calls[n].key == key && lo <= calls[n].at < hi then 1 else 0
  }

  /** The source admits the first call of a bucket whatever the limit is. */
  function Cap(l: Limits): int {
    if l.max < 1 then 1 else l.max
  }

  /** What the current bucket of a key says about every earlier call for that key. */
  ghost predicate BucketSummary(calls: seq<Call>, l: Limits, key: string) {
    var hits := HitsAfter(calls, l);
    if key !in hits then
      forall lo, hi :: AcceptedIn(calls, l, key, lo, hi) == 0
    else
      var b := hits[key];
      && calls != [] && b.start <= calls[|calls| - 1].at
      && 1 <= b.count <= Cap(l)
      // the calls accepted since the bucket opened are exactly the ones it counts
      && (forall hi :: b.start + l.window <= hi ==> AcceptedIn(calls, l, key, b.start, hi) == b.count)
      // and what was accepted less than one window before it opened fits one bucket
      && (forall lo :: b.start < lo + l.window ==> AcceptedIn(calls, l, key, lo, b.start) <= Cap(l))
  }

  lemma {:induction false} AcceptedSplits(calls: seq<Call>, l: Limits, key: string, lo: Time, mid: Time, hi: Time)
    requires lo <= mid <= hi
    ensures AcceptedIn(calls, l, key, lo, hi) == AcceptedIn(calls, l, key, lo, mid) + AcceptedIn(calls, l, key, mid, hi)
  {
    if calls != [] {
      AcceptedSplits(calls[..|calls| - 1], l, key, lo, mid, hi);
    }
  }

  lemma {:induction false} AcceptedMonotone(calls: seq<Call>, l: Limits, key: string, lo: Time, hi: Time, lo': Time, hi': Time)
    requires lo <= lo' && hi' <= hi
    ensures AcceptedIn(calls, l, key, lo', hi') <= AcceptedIn(calls, l, key, lo, hi)
  {
    if calls != [] {
      AcceptedMonotone(calls[..|calls| - 1], l, key, lo, hi, lo', hi');
    }
  }

  lemma BucketReopens(calls: seq<Call>, l: Limits, key: string)
    requires l.window > 0 && calls != [] && calls[|calls| - 1].key == key
    requires BucketSummary(calls[..|calls| - 1], l, key)
    requires Reopens(HitsAfter(calls[..|calls| - 1], l), l, calls[|calls| - 1])
    ensures BucketSummary(calls, l, key)
  {
    var n := |calls| - 1;
    var past, c := calls[..n], calls[n];
    var before := HitsAfter(past, l);
    if key in before {
      var b := before[key];
      forall hi | c.at <= hi ensures AcceptedIn(past, l, key, c.at, hi) == 0 {
        AcceptedSplits(past, l, key, b.start, c.at, hi);
      }
      forall lo | c.at < lo + l.window ensures AcceptedIn(calls, l, key, lo, c.at) <= Cap(l) {
        AcceptedMonotone(past, l, key, b.start, c.at, lo, c.at);
      }
    } else {
      forall lo ensures AcceptedIn(calls, l, key, lo, c.at) <= Cap(l) {
      }
    }
  }

  lemma {:induction false} BucketsSummarise(calls: seq<Call>, l: Limits, key: string)
    requires l.window > 0 && ClockMonotone(calls)
    ensures BucketSummary(calls, l, key)
  {
    if calls != [] {
      var n := |calls| - 1;
      var past, c := calls[..n], calls[n];
      BucketsSummarise(past, l, key);
      if c.key == key && Reopens(HitsAfter(past, l), l, c) {
        BucketReopens(calls, l, key);
      } else if key in HitsAfter(past, l) {
        var b := HitsAfter(past, l)[key];
        forall lo | b.start < lo + l.window ensures AcceptedIn(calls, l, key, lo, b.start) <= Cap(l) {
        }
      }
    }
  }

  /** Any half-open interval one window long admits at most two buckets' worth of calls per key.
      A window that is not positive leaves no time in the interval at all. */
  lemma {:induction false} WindowBound(calls: seq<Call>, l: Limits, key: string, lo: Time)
    requires ClockMonotone(calls)
    ensures AcceptedIn(calls, l, key, lo, lo + l.window) <= 2 * Cap(l)
  {
    if calls != [] {
      var n := |calls| - 1;
      var past, c := calls[..n], calls[n];
      WindowBound(past, l, key, lo);
      if c.key == key && lo <= c.at < lo + l.window {
        LatestBucketBound(calls, l, key, lo);
      }
    }
  }

  /** The interval that holds the newest call meets only its bucket and the one before. */
  lemma LatestBucketBound(calls: seq<Call>, l: Limits, key: string, lo: Time)
    requires calls != [] && ClockMonotone(calls)
    requires calls[|calls| - 1].key == key && lo <= calls[|calls| - 1].at < lo + l.window
    ensures AcceptedIn(calls, l, key, lo, lo + l.window) <= 2 * Cap(l)
  {
    BucketsSummarise(calls, l, key);
    var b := HitsAfter(calls, l)[key];
    var far := lo + l.window + (if b.start > lo then b.start - lo else 0);
    if b.start <= lo {
      AcceptedMonotone(calls, l, key, b.start, far, lo, lo + l.window);
    } else {
      AcceptedSplits(calls, l, key, lo, b.start, lo + l.window);
      AcceptedMonotone(calls, l, key, b.start, far, b.start, lo + l.window);
    }
  }

  /** A refusal means the key's open bucket has already accepted the full limit. */
  lemma RefusedOnlyWhenFull(calls: seq<Call>, l: Limits, c: Call)
    requires l.window > 0 && l.max >= 1 && ClockMonotone(calls + [c])
    ensures var hits := HitsAfter(calls, l);
            !Admits(hits, l, c)
            <==> && c.key in hits
                 && hits[c.key].start <= c.at < hits[c.key].start + l.window
                 && AcceptedIn(calls, l, c.key, hits[c.key].start, hits[c.key].start + l.window) == l.max
  {
    assert calls == (calls + [c])[..|calls|];
    assert ClockMonotone(calls);
    BucketsSummarise(calls, l, c.key);
    var hits := HitsAfter(calls, l);
    if c.key in hits {
      var last := calls[|calls| - 1];
      assert (calls + [c])[|calls| - 1] == last && (calls + [c])[|calls|] == c;
    }
  }

  function CallsFor(calls: seq<Call>, key: string): seq<Call> {
    if calls == [] then []
    else
      var n := |calls| - 1;
      CallsFor(calls[..n], key) + if calls[n].key == key then [calls[n]] else []
  }

  /** A key's bucket, and so its verdicts, depend on that key's calls alone. */
  lemma {:induction false} KeysIndependent(calls: seq<Call>, l: Limits, key: string, now: Time)
    ensures key in HitsAfter(calls, l) <==> key in HitsAfter(CallsFor(calls, key), l)
    ensures key in HitsAfter(calls, l) ==> HitsAfter(calls, l)[key] == HitsAfter(CallsFor(calls, key), l)[key]
    ensures Admits(HitsAfter(calls, l), l, Call(key, now)) == Admits(HitsAfter(CallsFor(calls, key), l), l, Call(key, now))
  {
    if calls != [] {
      var n := |calls| - 1;
      KeysIndependent(calls[..n], l, key, now);
      var mine := CallsFor(calls[..n], key);
      if calls[n].key == key {
        assert (mine + [calls[n]])[..|mine|] == mine;
      } else {
        assert mine + [] == mine;
      }
    }
  }

  /** With a limit below one the limiter still admits one call per bucket, so the
      bound per bucket is the configured limit exactly when that limit is at least one. */
  lemma BucketBoundIsLimit(l: Limits)
    ensures l.max >= 1 <==>
              forall calls: seq<Call>, key ::
                ClockMonotone(calls) && key in HitsAfter(calls, l) ==> HitsAfter(calls, l)[key].count <= l.max
  {
    if l.max >= 1 {
      forall calls: seq<Call>, key | key in HitsAfter(calls, l)
        ensures HitsAfter(calls, l)[key].count <= l.max
      {
        CountWithinLimit(calls, l, key);
      }
    } else {
      var calls := [Call("k", 0)];
      assert calls[..0] == [];
      assert HitsAfter(calls[..0], l) == map[];
      assert HitsAfter(calls, l) == map["k" := Bucket(1, 0)];
      assert ClockMonotone(calls) && "k" in HitsAfter(calls, l);
    }
  }

  lemma {:induction false} CountWithinLimit(calls: seq<Call>, l: Limits, key: string)
    requires l.max >= 1 && key in HitsAfter(calls, l)
    ensures HitsAfter(calls, l)[key].count <= l.max
  {
    var n := |calls| - 1;
    if key in HitsAfter(calls[..n], l) {
      CountWithinLimit(calls[..n], l, key);
    }
  }
}
