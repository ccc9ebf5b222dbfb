/** The candidates a stable-latency decision considers: the reliable ones, or else the best that
    is left, and the cheapest among the fast ones. */
module StablePool {
  import opened Wrappers
  import opened GateFilter

  const TOLERANCE := 0.000000001

  predicate Sampled(c: Candidate, minSamples: nat) { c.eligible && c.stats.samples >= minSamples }

  /** The success rate that a candidate has to come close to. */
  ghost predicate IsBestSuccess(cands: seq<Candidate>, minSamples: nat, best: real) {
    && best >= 0.0
    && (forall i :: 0 <= i < |cands| && Sampled(cands[i], minSamples) ==> cands[i].stats.successRate <= best)
    && (best > 0.0 ==>
          exists i :: 0 <= i < |cands| && Sampled(cands[i], minSamples) && cands[i].stats.successRate == best)
  }

  predicate Reliable(c: Candidate, minSamples: nat, best: real) {
    Sampled(c, minSamples) && c.stats.successRate >= 0.9 && c.stats.successRate + 0.05 + TOLERANCE >= best
  }

  /** No usable candidate is better by more than rounding. */
  predicate Best(cands: seq<Candidate>, i: nat)
    requires i < |cands|
  {
    && cands[i].eligible
    && forall j :: 0 <= j < |cands| && cands[j].eligible ==>
         cands[j].stats.quality <= cands[i].stats.quality + TOLERANCE
  }

  /** Qualities are smoothed success rates, and so never negative. */
  predicate Plausible(cands: seq<Candidate>) { forall i :: 0 <= i < |cands| ==> cands[i].stats.quality >= 0.0 }

  method BestSuccess(cands: seq<Candidate>, minSamples: nat) returns (best: real)
    ensures IsBestSuccess(cands, minSamples, best)
  {
    best := 0.0;
    for i := 0 to |cands|
      invariant best >= 0.0
      invariant forall j :: 0 <= j < i && Sampled(cands[j], minSamples) ==> cands[j].stats.successRate <= best
      invariant best > 0.0 ==>
                  exists j :: 0 <= j < i && Sampled(cands[j], minSamples) && cands[j].stats.successRate == best
    {
      if Sampled(cands[i], minSamples) && cands[i].stats.successRate > best {
        best := cands[i].stats.successRate;
      }
    }
  }

  /** The pool: every reliable candidate, or, when there is none, the usable ones of the best
      quality. It is empty only when no candidate is usable. */
  method CandidatePool(cands: seq<Candidate>, minSamples: nat)
    returns (pool: seq<nat>, degraded: bool, reliable: seq<bool>, ghost best: real)
    requires Plausible(cands)
    ensures IsPool(cands, minSamples, reliable, degraded, pool, best)
    ensures pool != [] <==> exists i :: 0 <= i < |cands| && cands[i].eligible
  {
    var top := BestSuccess(cands, minSamples);
    best := top;
    pool, reliable := [], [];
    for i := 0 to |cands|
      invariant |reliable| == i && forall j :: 0 <= j < i ==> reliable[j] == Reliable(cands[j], minSamples, best)
      invariant forall k :: 0 <= k < |pool| ==> pool[k] < i
      invariant forall j: nat :: j in pool <==> j < i && reliable[j]
    {
      var ok := Reliable(cands[i], minSamples, top);
      reliable := reliable + [ok];
      if ok {
        pool := pool + [i];
      }
    }
    degraded := |pool| == 0;
    if degraded {
      forall i | 0 <= i < |cands| ensures !reliable[i] {
        assert i !in pool;
      }
      pool := BestQuality(cands);
    } else {
      assert pool[0] in pool && reliable[pool[0]];
    }
  }

  method BestQuality(cands: seq<Candidate>) returns (pool: seq<nat>)
    requires Plausible(cands)
    ensures forall k :: 0 <= k < |pool| ==> pool[k] < |cands|
    ensures forall i: nat :: i in pool <==> i < |cands| && Best(cands, i)
    ensures pool != [] <==> exists i :: 0 <= i < |cands| && cands[i].eligible
  {
    var best, at := -1.0, 0;
    for i := 0 to |cands|
      invariant (forall j :: 0 <= j < i ==> !cands[j].eligible)
                || (at < i && cands[at].eligible && cands[at].stats.quality == best)
      invariant (forall j :: 0 <= j < i ==> !cands[j].eligible) ==> best == -1.0
      invariant forall j :: 0 <= j < i && cands[j].eligible ==> cands[j].stats.quality <= best
    {
      if cands[i].eligible && cands[i].stats.quality > best {
        best, at := cands[i].stats.quality, i;
      }
    }
    pool := [];
    for i := 0 to |cands|
      invariant forall k :: 0 <= k < |pool| ==> pool[k] < i
      invariant forall j: nat :: j in pool <==> j < i && cands[j].eligible && cands[j].stats.quality + TOLERANCE >= best
    {
      if cands[i].eligible && cands[i].stats.quality + TOLERANCE >= best {
        pool := pool + [i];
      }
    }
    forall i: nat ensures i in pool <==> i < |cands| && Best(cands, i) {
      if i < |cands| && Best(cands, i) {
        assert cands[at].stats.quality <= cands[i].stats.quality + TOLERANCE;
      }
    }
    if exists i :: 0 <= i < |cands| && cands[i].eligible {
      assert at in pool;
    }
    if pool != [] {
      assert pool[0] in pool;
    }
  }

  /** The pool, and what it was chosen by. */
  ghost predicate IsPool(cands: seq<Candidate>, minSamples: nat, reliable: seq<bool>, degraded: bool, pool: seq<nat>,
                         success: real)
  {
    && IsBestSuccess(cands, minSamples, success) && |reliable| == |cands|
    && (forall i :: 0 <= i < |cands| ==> reliable[i] == Reliable(cands[i], minSamples, success))
    && (degraded <==> forall i :: 0 <= i < |cands| ==> !reliable[i])
    && (forall k :: 0 <= k < |pool| ==> pool[k] < |cands|)
    && (forall i: nat :: i in pool <==> i < |cands| && if degraded then Best(cands, i) else reliable[i])
  }

  // ------------------------------------------------------------ the fast and cheap one

  predicate Timed(c: Candidate, minSamples: nat) { c.stats.latencySamples >= minSamples }

  ghost predicate IsFastest(cands: seq<Candidate>, pool: seq<nat>, minSamples: nat, fastest: Option<int>)
    requires forall k :: 0 <= k < |pool| ==> pool[k] < |cands|
  {
    && (fastest.None? ==> forall i :: i in pool ==> !Timed(cands[i], minSamples))
    && (fastest.Some? ==>
          && (exists i :: i in pool && Timed(cands[i], minSamples) && cands[i].stats.ttft == fastest.value)
          && forall i :: i in pool && Timed(cands[i], minSamples) ==> fastest.value <= cands[i].stats.ttft)
  }

  /** Close to the fastest latency, when any latency is known. */
  predicate Fast(c: Candidate, minSamples: nat, fastest: Option<int>) {
    fastest.Some? ==>
      Timed(c, minSamples)
      && var gap := (c.stats.ttft - fastest.value) as real;
         gap <= 500.0 || gap <= fastest.value as real * 0.1
  }

  predicate Cheaper(a: Candidate, b: Candidate) {
    a.stats.cost < b.stats.cost || (a.stats.cost == b.stats.cost && a.keyId < b.keyId)
  }

  /** The cheapest of the fast members of the pool; there is one unless the pool is empty. */
  method FastestCandidate(cands: seq<Candidate>, pool: seq<nat>, minSamples: nat)
    returns (chosen: Option<nat>, ghost fastest: Option<int>)
    requires forall k :: 0 <= k < |pool| ==> pool[k] < |cands|
    ensures IsFastest(cands, pool, minSamples, fastest)
    ensures chosen.None? <==> pool == []
    ensures chosen.Some? ==> chosen.value in pool && Fast(cands[chosen.value], minSamples, fastest)
    ensures chosen.Some? ==> forall i :: i in pool && Fast(cands[i], minSamples, fastest) ==>
            !Cheaper(cands[i], cands[chosen.value])
  {
    var best: Option<int> := None;
    for k := 0 to |pool|
      invariant IsFastest(cands, pool[..k], minSamples, best)
    {
      assert pool[..k + 1] == pool[..k] + [pool[k]];
      var c := cands[pool[k]];
      if Timed(c, minSamples) && (best.None? || c.stats.ttft < best.value) {
        best := Some(c.stats.ttft);
      }
    }
    assert pool[..|pool|] == pool;
    fastest := best;
    chosen := None;
    for k := 0 to |pool|
      invariant chosen.None? ==> forall j :: 0 <= j < k ==> !Fast(cands[pool[j]], minSamples, best)
      invariant chosen.Some? ==> chosen.value in pool && Fast(cands[chosen.value], minSamples, best)
      invariant chosen.Some? ==> forall j :: 0 <= j < k && Fast(cands[pool[j]], minSamples, best) ==>
                !Cheaper(cands[pool[j]], cands[chosen.value])
    {
      var i := pool[k];
      if Fast(cands[i], minSamples, best) && (chosen.None? || Cheaper(cands[i], cands[chosen.value])) {
        chosen := Some(i);
      }
    }
    if pool != [] && best.Some? {
      var i :| i in pool && Timed(cands[i], minSamples) && cands[i].stats.ttft == best.value;
      var j :| 0 <= j < |pool| && pool[j] == i;
      assert Fast(cands[pool[j]], minSamples, best);
    } else if pool != [] {
      assert Fast(cands[pool[0]], minSamples, best);
    }
  }

  /** The choice is a fast member of the pool, and none of those is cheaper. */
  ghost predicate IsChoice(cands: seq<Candidate>, pool: seq<nat>, minSamples: nat, chosen: nat, fastest: Option<int>)
    requires forall k :: 0 <= k < |pool| ==> pool[k] < |cands|
  {
    && IsFastest(cands, pool, minSamples, fastest)
    && chosen in pool && Fast(cands[chosen], minSamples, fastest)
    && forall i :: i in pool && Fast(cands[i], minSamples, fastest) ==> !Cheaper(cands[i], cands[chosen])
  }
}
