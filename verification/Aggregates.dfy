/** Minute and day aggregates of the dashboard, and sums over ranges of them.

    Money is in units of 1e-8 USD, so the eight-decimal rounding of a sum is exact addition.
    A minute bucket is the number of minutes since the epoch, a day bucket the number of the
    Asia/Shanghai day (UTC+8). */
module Aggregates {
  const HIST_SIZE: nat := 16

  type Hist = h: seq<int> | |h| == HIST_SIZE witness seq(HIST_SIZE, _ => 0)

  datatype Agg = Agg(
    requestsStarted: int,
    requestsCompleted: int,
    requestsSuccess: int,
    requestsRetried: int,
    providerSuccess: int,
    providerFailure: int,
    inflightIntegral: real,
    inflightPeak: nat,
    hist: Hist,
    ttftSamples: int,
    knownRevenue: int,
    knownCost: int,
    consumption: int,
    reported: int,
    estimated: int,
    unknownConsumption: int,
    coveredRevenue: int,
    coveredCost: int,
    coveredCount: int,
    unbound: int,
    missingSale: int,
    missingPrice: int,
    missingUsage: int,
    interrupted: int)

  function EmptyHist(): Hist { seq(HIST_SIZE, _ => 0) }

  function AddHist(a: Hist, b: Hist): Hist { seq(HIST_SIZE, i requires 0 <= i < HIST_SIZE => a[i] + b[i]) }

  const HIST_BOUNDS_MS: seq<int> :=
    [100, 250, 500, 1000, 2000, 3000, 5000, 7500, 10000, 15000, 20000, 30000, 60000, 120000, 300000]

  /** The latencies that a slot counts: above the bound before it, and up to its own. */
  predicate InSlot(ms: int, i: nat)
    requires i <= |HIST_BOUNDS_MS|
  {
    (i > 0 ==> ms > HIST_BOUNDS_MS[i - 1]) && (i < |HIST_BOUNDS_MS| ==> (if ms < 0 then 0 else ms) <= HIST_BOUNDS_MS[i])
  }

  /** One observation, in the one slot whose bounds contain it. */
  method ObserveTTFT(ms: int) returns (h: Hist)
    ensures forall i :: 0 <= i < HIST_SIZE ==> h[i] == if InSlot(ms, i) then 1 else 0
    ensures h == Observation(ms)
  {
    BoundsGrow();
    var clipped := if ms < 0 then 0 else ms;
    for i := 0 to |HIST_BOUNDS_MS|
      invariant forall j :: 0 <= j < i ==> clipped > HIST_BOUNDS_MS[j]
    {
      if clipped <= HIST_BOUNDS_MS[i] {
        SlotIs(clipped, i, 0);
        return EmptyHist()[i := 1];
      }
    }
    SlotIs(clipped, |HIST_BOUNDS_MS|, 0);
    return EmptyHist()[|HIST_BOUNDS_MS| := 1];
  }

  lemma BoundsGrow()
    ensures forall i, j :: 0 <= i < j < |HIST_BOUNDS_MS| ==> HIST_BOUNDS_MS[i] < HIST_BOUNDS_MS[j]
  {
  }

  function HistSlot(ms: int, from: nat): (slot: nat)
    requires from <= |HIST_BOUNDS_MS|
    ensures from <= slot <= |HIST_BOUNDS_MS|
    decreases |HIST_BOUNDS_MS| - from
  {
    if from == |HIST_BOUNDS_MS| || ms <= HIST_BOUNDS_MS[from] then from else HistSlot(ms, from + 1)
  }

  function Observation(ms: int): Hist {
    EmptyHist()[HistSlot(if ms < 0 then 0 else ms, 0) := 1]
  }

  lemma {:induction false} SlotIs(ms: int, i: nat, from: nat)
    requires from <= i <= |HIST_BOUNDS_MS|
    requires forall j :: 0 <= j < i ==> ms > HIST_BOUNDS_MS[j]
    requires i < |HIST_BOUNDS_MS| ==> ms <= HIST_BOUNDS_MS[i]
    ensures HistSlot(ms, from) == i
    decreases i - from
  {
    if from < i {
      SlotIs(ms, i, from + 1);
    }
  }

  const ZERO: Agg :=
    Agg(0, 0, 0, 0, 0, 0, 0.0, 0, EmptyHist(), 0, 0, 0, 0, 0, 0, 0, 0, 0, 0, 0, 0, 0, 0, 0)

  function Peak(a: nat, b: nat): nat { if b > a then b else a }

  function Merge(a: Agg, b: Agg): Agg {
    Agg(a.requestsStarted + b.requestsStarted,
        a.requestsCompleted + b.requestsCompleted,
        a.requestsSuccess + b.requestsSuccess,
        a.requestsRetried + b.requestsRetried,
        a.providerSuccess + b.providerSuccess,
        a.providerFailure + b.providerFailure,
        a.inflightIntegral + b.inflightIntegral,
        Peak(a.inflightPeak, b.inflightPeak),
        AddHist(a.hist, b.hist),
        a.ttftSamples + b.ttftSamples,
        a.knownRevenue + b.knownRevenue,
        a.knownCost + b.knownCost,
        a.consumption + b.consumption,
        a.reported + b.reported,
        a.estimated + b.estimated,
        a.unknownConsumption + b.unknownConsumption,
        a.coveredRevenue + b.coveredRevenue,
        a.coveredCost + b.coveredCost,
        a.coveredCount + b.coveredCount,
        a.unbound + b.unbound,
        a.missingSale + b.missingSale,
        a.missingPrice + b.missingPrice,
        a.missingUsage + b.missingUsage,
        a.interrupted + b.interrupted)
  }

  lemma MergeZero(a: Agg)
    ensures Merge(a, ZERO) == a == Merge(ZERO, a)
  {
    assert AddHist(a.hist, EmptyHist()) == a.hist == AddHist(EmptyHist(), a.hist);
  }

  lemma MergeCommutes(a: Agg, b: Agg)
    ensures Merge(a, b) == Merge(b, a)
  {
    assert AddHist(a.hist, b.hist) == AddHist(b.hist, a.hist);
  }

  lemma MergeAssociates(a: Agg, b: Agg, c: Agg)
    ensures Merge(Merge(a, b), c) == Merge(a, Merge(b, c))
  {
    assert AddHist(AddHist(a.hist, b.hist), c.hist) == AddHist(a.hist, AddHist(b.hist, c.hist));
  }

  lemma MergeSwaps(a: Agg, b: Agg, c: Agg)
    ensures Merge(Merge(a, b), c) == Merge(Merge(a, c), b)
  {
    hide Merge;
    MergeAssociates(a, b, c);
    MergeCommutes(b, c);
    MergeAssociates(a, c, b);
  }

  // -------------------------------------------------------------------- tables

  datatype Family = RequestFamily | AttemptFamily

  datatype Series = Global(family: Family) | Group(family: Family, id: nat) | Provider(family: Family, id: nat)

  datatype Slot = Slot(bucket: int, series: Series)

  type Table = map<Slot, Agg>

  function At(t: Table, s: Slot): Agg { if s in t then t[s] else ZERO }

  /** What saving a row with `delta` added to it does to a table. */
  function AddTo(t: Table, s: Slot, delta: Agg): Table { t[s := Merge(At(t, s), delta)] }

  /** The plain merge of every bucket of a series from `lo` up to `hi`. */
  function SumRange(t: Table, series: Series, lo: int, hi: int): Agg
    decreases hi - lo
  {
    if lo >= hi then ZERO else Merge(SumRange(t, series, lo, hi - 1), At(t, Slot(hi - 1, series)))
  }

  lemma {:induction false} SumAddTo(t: Table, s: Slot, delta: Agg, series: Series, lo: int, hi: int)
    ensures SumRange(AddTo(t, s, delta), series, lo, hi)
         == if s.series == series && lo <= s.bucket < hi then Merge(SumRange(t, series, lo, hi), delta)
            else SumRange(t, series, lo, hi)
    decreases hi - lo
  {
    hide Merge;
    if lo < hi {
      SumAddTo(t, s, delta, series, lo, hi - 1);
      var before, last := SumRange(t, series, lo, hi - 1), At(t, Slot(hi - 1, series));
      MergeSwaps(before, delta, last);
      MergeAssociates(before, last, delta);
    }
  }

  lemma {:induction false} SumSplits(t: Table, series: Series, lo: int, mid: int, hi: int)
    requires lo <= mid <= hi
    ensures SumRange(t, series, lo, hi) == Merge(SumRange(t, series, lo, mid), SumRange(t, series, mid, hi))
    decreases hi - mid
  {
    hide Merge;
    if mid == hi {
      MergeZero(SumRange(t, series, lo, mid));
    } else {
      SumSplits(t, series, lo, mid, hi - 1);
      MergeAssociates(SumRange(t, series, lo, mid), SumRange(t, series, mid, hi - 1), At(t, Slot(hi - 1, series)));
    }
  }

  lemma {:induction false} SumDepends(t: Table, u: Table, series: Series, lo: int, hi: int)
    requires forall b :: lo <= b < hi ==> At(t, Slot(b, series)) == At(u, Slot(b, series))
    ensures SumRange(t, series, lo, hi) == SumRange(u, series, lo, hi)
    decreases hi - lo
  {
    hide Merge;
    if lo < hi {
      SumDepends(t, u, series, lo, hi - 1);
    }
  }

  // ---------------------------------------------------------------------- time

  const MINUTE_MS: int := 60000
  const MINUTES_PER_DAY: int := 1440
  const SHANGHAI_MINUTES: int := 480

  function MinuteOf(t: int): int { t / MINUTE_MS }

  function DayOfMinute(m: int): int { (m + SHANGHAI_MINUTES) / MINUTES_PER_DAY }

  function ShanghaiDay(t: int): int { (t + SHANGHAI_MINUTES * MINUTE_MS) / (MINUTES_PER_DAY * MINUTE_MS) }

  /** The first minute of a Shanghai day. */
  function DayStart(d: int): int { d * MINUTES_PER_DAY - SHANGHAI_MINUTES }

  /** Shanghai midnights fall on minute boundaries, so an instant and its bucket share the day. */
  lemma MinuteKeepsDay(t: int)
    ensures DayOfMinute(MinuteOf(t)) == ShanghaiDay(t)
    ensures DayStart(ShanghaiDay(t)) <= MinuteOf(t) < DayStart(ShanghaiDay(t) + 1)
  {
    var m, d := MinuteOf(t), ShanghaiDay(t);
    assert m * MINUTE_MS <= t < (m + 1) * MINUTE_MS;
    assert d * (MINUTES_PER_DAY * MINUTE_MS) <= t + SHANGHAI_MINUTES * MINUTE_MS
           < (d + 1) * (MINUTES_PER_DAY * MINUTE_MS);
  }

  // -------------------------------------------------- days against their minutes

  /** Every day row is the merge of all minute rows ever written for that day. */
  ghost predicate DaysMatch(days: Table, written: Table) {
    forall series, d :: At(days, Slot(d, series)) == SumRange(written, series, DayStart(d), DayStart(d + 1))
  }

  /** Adding one delta to a minute and to its Shanghai day keeps the two indexes in agreement. */
  lemma AddKeepsDays(days: Table, written: Table, m: int, d: int, series: Series, delta: Agg)
    requires DaysMatch(days, written) && DayStart(d) <= m < DayStart(d + 1)
    ensures DaysMatch(AddTo(days, Slot(d, series), delta), AddTo(written, Slot(m, series), delta))
  {
    hide Merge, SumRange;
    forall s, e
      ensures At(AddTo(days, Slot(d, series), delta), Slot(e, s))
           == SumRange(AddTo(written, Slot(m, series), delta), s, DayStart(e), DayStart(e + 1))
    {
      SumAddTo(written, Slot(m, series), delta, s, DayStart(e), DayStart(e + 1));
      assert At(days, Slot(e, s)) == SumRange(written, s, DayStart(e), DayStart(e + 1));
    }
  }

  /** The merge of the day rows from one midnight to another is the merge of all their minutes. */
  lemma {:induction false} DaysSumToMinutes(days: Table, written: Table, series: Series, first: int, last: int)
    requires DaysMatch(days, written) && first <= last
    ensures SumRange(days, series, first, last) == SumRange(written, series, DayStart(first), DayStart(last))
    decreases last - first
  {
    hide Merge;
    if first < last {
      DaysSumToMinutes(days, written, series, first, last - 1);
      assert At(days, Slot(last - 1, series)) == SumRange(written, series, DayStart(last - 1), DayStart(last));
      SumSplits(written, series, DayStart(first), DayStart(last - 1), DayStart(last));
    }
  }
}
