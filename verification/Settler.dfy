/** The settler: it applies each queued event in one transaction to the ledger, the facts and
    both indexes, and keeps events that are not ready yet in its queue. */
module Settler {
  import opened Wrappers
  import opened Aggregates
  import opened Settlement
  import opened RangeQueries

  const REPLAY_REJECT_MS: int := 30 * 24 * 3600 * 1000
  const QUEUE_LIMIT: nat := 10000

  datatype QueuedEvent = QueuedEvent(event: Event, attempts: nat, next: nat, at: int)

  predicate Expired(e: QueuedEvent, now: int) { now - e.at > REPLAY_REJECT_MS }

  // ------------------------------------------------- counting into a minute row

  /** The quality half of an attempt's delta: provider result and first-token latency. */
  function QualityDelta(a: AttemptFact): Agg {
    var measured := a.business && a.ttftMeasured && a.result == Success;
    ZERO.(providerSuccess := Flag(a.business && a.result == Success),
          providerFailure := Flag(a.business && a.result == UpstreamFailure),
          hist := if measured then Observation(a.ttftMs) else EmptyHist(), ttftSamples := Flag(measured))
  }

  method CountQuality(row: Agg, a: AttemptFact) returns (counted: Agg, delta: Agg)
    ensures delta == QualityDelta(a) && counted == Merge(row, delta)
  {
    hide Observation;
    counted, delta := row, ZERO;
    var quality := a.business && (a.result == Success || a.result == UpstreamFailure);
    if quality {
      if a.result == Success {
        counted := counted.(providerSuccess := counted.providerSuccess + 1);
        delta := delta.(providerSuccess := 1);
      } else {
        counted := counted.(providerFailure := counted.providerFailure + 1);
        delta := delta.(providerFailure := 1);
      }
    }
    if a.business && a.ttftMeasured && a.result == Success {
      var seen := ObserveTTFT(a.ttftMs);
      counted := counted.(hist := AddHist(counted.hist, seen), ttftSamples := counted.ttftSamples + 1);
      delta := delta.(hist := seen, ttftSamples := 1);
    }
    assert AddHist(row.hist, EmptyHist()) == row.hist;
  }

  /** The money half of an attempt's delta. */
  function SpendDelta(a: AttemptFact): Agg {
    ZERO.(knownCost := if a.business then Amount(a.estimatedCost) else 0,
          consumption := Amount(a.consumption),
          unknownConsumption := Flag(a.consumption.None? && a.httpSent),
          reported := Amount(a.reportedCost),
          estimated := if a.reportedCost.None? then Amount(a.estimatedCost) else 0)
  }

  method CountSpend(row: Agg, a: AttemptFact) returns (counted: Agg, delta: Agg)
    ensures delta == SpendDelta(a) && counted == Merge(row, delta)
  {
    counted, delta := row, ZERO;
    if a.business && a.estimatedCost.Some? {
      counted := counted.(knownCost := counted.knownCost + a.estimatedCost.value);
      delta := delta.(knownCost := a.estimatedCost.value);
    }
    if a.consumption.Some? {
      counted := counted.(consumption := counted.consumption + a.consumption.value);
      delta := delta.(consumption := a.consumption.value);
    } else if a.httpSent {
      counted := counted.(unknownConsumption := counted.unknownConsumption + 1);
      delta := delta.(unknownConsumption := 1);
    }
    if a.reportedCost.Some? {
      counted := counted.(reported := counted.reported + a.reportedCost.value);
      delta := delta.(reported := a.reportedCost.value);
    }
    if a.estimatedCost.Some? && a.reportedCost.None? {
      counted := counted.(estimated := counted.estimated + a.estimatedCost.value);
      delta := delta.(estimated := a.estimatedCost.value);
    }
    assert AddHist(row.hist, EmptyHist()) == row.hist;
  }

  lemma AttemptDeltaParts(a: AttemptFact)
    ensures AttemptDelta(a) == Merge(QualityDelta(a), SpendDelta(a))
  {
    hide Observation;
    assert AddHist(QualityDelta(a).hist, EmptyHist()) == QualityDelta(a).hist;
  }

  /** Counts one attempt into a row, and the same into a delta for its day. */
  method CountAttempt(row: Agg, a: AttemptFact) returns (counted: Agg, delta: Agg)
    ensures delta == AttemptDelta(a) && counted == Merge(row, delta)
  {
    hide AttemptDelta, QualityDelta, SpendDelta, Merge;
    var first, quality := CountQuality(row, a);
    var second, spend := CountSpend(first, a);
    MergeAssociates(row, quality, spend);
    AttemptDeltaParts(a);
    counted, delta := second, Merge(quality, spend);
  }

  function Count(reasons: seq<Reason>, r: Reason): nat {
    if reasons == [] then 0 else Count(reasons[..|reasons| - 1], r) + if reasons[|reasons| - 1] == r then 1 else 0
  }

  lemma {:induction false} CountOnce(reasons: seq<Reason>, r: Reason)
    requires Distinct(reasons)
    ensures Count(reasons, r) == Flag(r in reasons)
  {
    if reasons != [] {
      CountOnce(reasons[..|reasons| - 1], r);
      assert reasons == reasons[..|reasons| - 1] + [reasons[|reasons| - 1]];
    }
  }

  /** The five reason counters of a row. */
  datatype Tally = Tally(unbound: int, missingSale: int, missingPrice: int, missingUsage: int, interrupted: int)

  /** Increments the row for each reason listed, and sets the delta to one for each. */
  method CountReasons(reasons: seq<Reason>) returns (row: Tally, delta: Tally)
    requires Distinct(reasons)
    ensures row == delta
    ensures delta == Tally(Flag(Unbound in reasons), Flag(MissingSale in reasons), Flag(MissingPrice in reasons),
                           Flag(MissingUsage in reasons), Flag(Interrupted in reasons))
  {
    hide Count, Flag;
    row, delta := Tally(0, 0, 0, 0, 0), Tally(0, 0, 0, 0, 0);
    NoReasons();
    for i := 0 to |reasons|
      invariant row == Counts(reasons[..i]) && delta == Flags(reasons[..i])
    {
      assert reasons[..i + 1] == reasons[..i] + [reasons[i]];
      ReasonCounts(reasons[..i], reasons[i]);
      row, delta := CountReason(row, delta, reasons[i]);
    }
    assert reasons[..|reasons|] == reasons;
    CountOnce(reasons, Unbound);
    CountOnce(reasons, MissingSale);
    CountOnce(reasons, MissingPrice);
    CountOnce(reasons, MissingUsage);
    CountOnce(reasons, Interrupted);
  }

  function Counts(s: seq<Reason>): Tally {
    Tally(Count(s, Unbound), Count(s, MissingSale), Count(s, MissingPrice), Count(s, MissingUsage),
          Count(s, Interrupted))
  }

  function Flags(s: seq<Reason>): Tally {
    Tally(Flag(Unbound in s), Flag(MissingSale in s), Flag(MissingPrice in s), Flag(MissingUsage in s),
          Flag(Interrupted in s))
  }

  lemma NoReasons()
    ensures Counts([]) == Flags([]) == Tally(0, 0, 0, 0, 0)
  {
  }

  function Bump(t: Tally, r: Reason): Tally {
    match r
    case Unbound => t.(unbound := t.unbound + 1)
    case MissingSale => t.(missingSale := t.missingSale + 1)
    case MissingPrice => t.(missingPrice := t.missingPrice + 1)
    case MissingUsage => t.(missingUsage := t.missingUsage + 1)
    case Interrupted => t.(interrupted := t.interrupted + 1)
  }

  function Mark(t: Tally, r: Reason): Tally {
    match r
    case Unbound => t.(unbound := 1)
    case MissingSale => t.(missingSale := 1)
    case MissingPrice => t.(missingPrice := 1)
    case MissingUsage => t.(missingUsage := 1)
    case Interrupted => t.(interrupted := 1)
  }

  lemma ReasonCounts(s: seq<Reason>, r: Reason)
    ensures Counts(s + [r]) == Bump(Counts(s), r) && Flags(s + [r]) == Mark(Flags(s), r)
  {
    assert (s + [r])[..|s|] == s;
  }

  method CountReason(row: Tally, delta: Tally, r: Reason) returns (counted: Tally, marked: Tally)
    ensures counted == Bump(row, r) && marked == Mark(delta, r)
  {
    match r
    case Unbound =>
      counted, marked := row.(unbound := row.unbound + 1), delta.(unbound := 1);
    case MissingSale =>
      counted, marked := row.(missingSale := row.missingSale + 1), delta.(missingSale := 1);
    case MissingPrice =>
      counted, marked := row.(missingPrice := row.missingPrice + 1), delta.(missingPrice := 1);
    case MissingUsage =>
      counted, marked := row.(missingUsage := row.missingUsage + 1), delta.(missingUsage := 1);
    case Interrupted =>
      counted, marked := row.(interrupted := row.interrupted + 1), delta.(interrupted := 1);
  }

  function ResultDelta(f: RequestFact, c: Contribution): Agg {
    var measured := f.ttftMeasured && c.success;
    ZERO.(requestsCompleted := 1, requestsSuccess := Flag(c.success), requestsRetried := Flag(f.httpAttempts >= 2),
          hist := if measured then Observation(f.ttftMs) else EmptyHist(), ttftSamples := Flag(measured))
  }

  method CountResult(row: Agg, f: RequestFact, c: Contribution) returns (counted: Agg, delta: Agg)
    ensures delta == ResultDelta(f, c) && counted == Merge(row, delta)
  {
    hide Observation;
    counted := row.(requestsCompleted := row.requestsCompleted + 1);
    delta := ZERO.(requestsCompleted := 1);
    if c.success {
      counted := counted.(requestsSuccess := counted.requestsSuccess + 1);
      delta := delta.(requestsSuccess := 1);
    }
    if f.httpAttempts >= 2 {
      counted := counted.(requestsRetried := counted.requestsRetried + 1);
      delta := delta.(requestsRetried := 1);
    }
    if f.ttftMeasured && c.success {
      var seen := ObserveTTFT(f.ttftMs);
      counted := counted.(hist := AddHist(counted.hist, seen), ttftSamples := counted.ttftSamples + 1);
      delta := delta.(hist := seen, ttftSamples := 1);
    }
    assert AddHist(row.hist, EmptyHist()) == row.hist;
  }

  function FinanceDelta(f: RequestFact, c: Contribution): Agg {
    ZERO.(knownRevenue := Amount(c.revenue), knownCost := c.cost,
          coveredCount := Flag(f.covered), coveredRevenue := if f.covered then Amount(c.revenue) else 0,
          coveredCost := if f.covered then c.cost else 0)
  }

  method CountFinance(row: Agg, f: RequestFact, c: Contribution) returns (counted: Agg, delta: Agg)
    ensures delta == FinanceDelta(f, c) && counted == Merge(row, delta)
  {
    counted, delta := row, ZERO;
    if c.revenue.Some? {
      counted := counted.(knownRevenue := counted.knownRevenue + c.revenue.value);
      delta := delta.(knownRevenue := c.revenue.value);
    }
    if c.cost != 0 {
      counted := counted.(knownCost := counted.knownCost + c.cost);
      delta := delta.(knownCost := c.cost);
    }
    if f.covered {
      counted := counted.(coveredCount := counted.coveredCount + 1);
      delta := delta.(coveredCount := 1);
      if c.revenue.Some? {
        counted := counted.(coveredRevenue := counted.coveredRevenue + c.revenue.value);
        delta := delta.(coveredRevenue := c.revenue.value);
      }
      counted := counted.(coveredCost := counted.coveredCost + c.cost);
      delta := delta.(coveredCost := c.cost);
    }
    assert AddHist(row.hist, EmptyHist()) == row.hist;
  }

  function ReasonDelta(reasons: seq<Reason>): Agg {
    ZERO.(unbound := Flag(Unbound in reasons), missingSale := Flag(MissingSale in reasons),
          missingPrice := Flag(MissingPrice in reasons), missingUsage := Flag(MissingUsage in reasons),
          interrupted := Flag(Interrupted in reasons))
  }

  method CountReasonRow(row: Agg, reasons: seq<Reason>) returns (counted: Agg, delta: Agg)
    requires Distinct(reasons)
    ensures delta == ReasonDelta(reasons) && counted == Merge(row, delta)
  {
    var rowTally, deltaTally := CountReasons(reasons);
    counted := row.(unbound := row.unbound + rowTally.unbound,
                    missingSale := row.missingSale + rowTally.missingSale,
                    missingPrice := row.missingPrice + rowTally.missingPrice,
                    missingUsage := row.missingUsage + rowTally.missingUsage,
                    interrupted := row.interrupted + rowTally.interrupted);
    delta := ZERO.(unbound := deltaTally.unbound, missingSale := deltaTally.missingSale,
                   missingPrice := deltaTally.missingPrice, missingUsage := deltaTally.missingUsage,
                   interrupted := deltaTally.interrupted);
    assert AddHist(row.hist, EmptyHist()) == row.hist;
  }

  lemma EndDeltaParts(f: RequestFact, c: Contribution)
    ensures EndDelta(f, c) == Merge(Merge(ResultDelta(f, c), FinanceDelta(f, c)), ReasonDelta(f.reasons))
  {
    hide Observation;
    var h := ResultDelta(f, c).hist;
    assert AddHist(h, EmptyHist()) == h;
    assert AddHist(AddHist(h, EmptyHist()), EmptyHist()) == h;
  }

  /** Counts one completed request into a row, and the same into a delta for its day. */
  method CountEnd(row: Agg, f: RequestFact, c: Contribution) returns (counted: Agg, delta: Agg)
    requires Distinct(f.reasons)
    ensures delta == EndDelta(f, c) && counted == Merge(row, delta)
  {
    hide Distinct, EndDelta, ResultDelta, FinanceDelta, ReasonDelta, Merge;
    var first, result := CountResult(row, f, c);
    var second, finance := CountFinance(first, f, c);
    var third, reasons := CountReasonRow(second, f.reasons);
    MergeAssociates(row, result, finance);
    MergeAssociates(row, Merge(result, finance), reasons);
    EndDeltaParts(f, c);
    counted, delta := third, Merge(Merge(result, finance), reasons);
  }

  // ------------------------------------------------------------ the request fact

  method AllCostsKnown(attempts: set<AttemptFact>) returns (known: bool)
    ensures known == CostKnown(attempts)
  {
    known := true;
    var todo := attempts;
    while todo != {}
      invariant todo <= attempts
      invariant known == CostKnown(attempts - todo)
    {
      var a :| a in todo;
      if a.httpSent && a.estimatedCost.None? {
        known := false;
      }
      ghost var before := attempts - todo;
      todo := todo - {a};
      assert attempts - todo == before + {a};
    }
    assert attempts - todo == attempts;
  }

  method Append(reasons: seq<Reason>, applies: bool, reason: Reason) returns (more: seq<Reason>)
    ensures more == reasons + If(applies, reason)
  {
    more := reasons;
    if applies {
      more := more + [reason];
    }
  }

  method ListReasons(unbound: bool, noSale: bool, noPrice: bool, noUsage: bool, cut: bool, noCost: bool)
    returns (reasons: seq<Reason>)
    ensures reasons == Reasons(unbound, noSale, noPrice, noUsage, cut, noCost)
  {
    hide If;
    reasons := Append([], unbound, Unbound);
    assert reasons == If(unbound, Unbound);
    reasons := Append(reasons, noSale, MissingSale);
    reasons := Append(reasons, noPrice, MissingPrice);
    reasons := Append(reasons, noUsage, MissingUsage);
    reasons := Append(reasons, cut, Interrupted);
    reasons := Append(reasons, noCost, MissingUsage);
  }

  method UpdateRequestFact(fact: RequestFact, p: RequestEnd, attempts: set<AttemptFact>) returns (f: RequestFact)
    ensures f == UpdateFact(fact, p, attempts)
  {
    hide CostKnown, Reasons, Revenue;
    var base := fact.baseCost;
    var priceOK := p.inputPrice.Some? && p.outputPrice.Some?;
    if p.baseCost.Some? {
      base := p.baseCost;
    } else if priceOK {
      base := p.cardCost;
    }
    var revenue := fact.revenue;
    if p.success && fact.sale.Some? && base.Some? {
      revenue := Some(Revenue(base.value, fact.sale.value));
    } else if !p.success && !p.interrupted {
      revenue := Some(0);
    }
    var costKnown := AllCostsKnown(attempts);
    var reasons := ListReasons(fact.group.None?, fact.sale.None?, !priceOK, !p.usageKnown && !p.interrupted,
                               p.interrupted, !costKnown && p.usageKnown);
    var covered := fact.group.Some? && fact.sale.Some? && priceOK && (p.usageKnown || (!p.success && !p.interrupted))
                   && costKnown && !p.interrupted;
    if covered && revenue.None? && !p.success {
      revenue := Some(0);
    }
    f := fact.(success := p.success, interrupted := p.interrupted, completedAt := Some(p.completedAt),
               httpAttempts := p.httpAttempts, usageKnown := p.usageKnown, inputPrice := p.inputPrice,
               outputPrice := p.outputPrice, ttftMs := p.ttftMs, ttftMeasured := p.ttftMeasured,
               finalProvider := p.finalProvider, detail := Some(p.detail), baseCost := base, reasons := reasons,
               revenue := revenue, covered := covered);
  }

  // --------------------------------------------------------- the request's costs

  ghost predicate CostsFor(attempts: set<AttemptFact>, cost: int, byProvider: map<nat, int>) {
    && cost == SumCost(attempts)
    && forall id :: (id in byProvider <==> SentBy(attempts, id) != {})
                    && (id in byProvider ==> byProvider[id] == SumCost(SentBy(attempts, id)))
  }

  lemma CostsGrow(attempts: set<AttemptFact>, a: AttemptFact, cost: int, byProvider: map<nat, int>)
    requires CostsFor(attempts, cost, byProvider) && a !in attempts
    ensures CostsFor(attempts + {a}, cost + Cost(a),
                     if a.httpSent
                     then byProvider[a.providerId :=
                            Cost(a) + if a.providerId in byProvider then byProvider[a.providerId] else 0]
                     else byProvider)
  {
    SumCostAdd(attempts, a);
    var more := attempts + {a};
    forall id
      ensures SentBy(more, id)
           == if a.httpSent && a.providerId == id then SentBy(attempts, id) + {a} else SentBy(attempts, id)
    {
    }
    if a.httpSent {
      assert a in SentBy(more, a.providerId);
      SumCostAdd(SentBy(attempts, a.providerId), a);
    }
  }

  /** The total cost of a request and its cost by provider, over the attempts in any order. */
  method CollectCosts(attempts: set<AttemptFact>) returns (cost: int, byProvider: map<nat, int>)
    ensures CostsFor(attempts, cost, byProvider)
  {
    cost, byProvider := 0, map[];
    var todo := attempts;
    NoCosts();
    assert attempts - todo == {};
    while todo != {}
      invariant todo <= attempts
      invariant CostsFor(attempts - todo, cost, byProvider)
    {
      hide CostsFor;
      var a :| a in todo;
      CostsGrow(attempts - todo, a, cost, byProvider);
      assert attempts - (todo - {a}) == attempts - todo + {a};
      if a.httpSent && a.providerId !in byProvider {
        byProvider := byProvider[a.providerId := 0];
      }
      if a.estimatedCost.Some? {
        cost := cost + a.estimatedCost.value;
        if a.httpSent {
          byProvider := byProvider[a.providerId := byProvider[a.providerId] + a.estimatedCost.value];
        }
      }
      todo := todo - {a};
    }
    assert attempts - todo == attempts;
  }

  lemma NoCosts()
    ensures CostsFor({}, 0, map[])
  {
    assert forall id :: SentBy({}, id) == {};
  }

  /** The series a request counts for, each once; the providers come in no particular order. */
  method Dims(f: RequestFact, attempts: set<AttemptFact>) returns (dims: seq<(Series, Contribution)>)
    ensures forall i, j :: 0 <= i < j < |dims| ==> dims[i].0 != dims[j].0
    ensures forall i :: 0 <= i < |dims| ==> ContributionOf(f, attempts, dims[i].0) == Some(dims[i].1)
    ensures forall s :: ContributionOf(f, attempts, s).Some? ==> exists i :: 0 <= i < |dims| && dims[i].0 == s
  {
    var cost, byProvider := CollectCosts(attempts);
    hide SentBy, SumCost;
    dims := [(Global(RequestFamily), Contribution(cost, f.revenue, f.success))];
    if f.group.Some? {
      dims := dims + [(Group(RequestFamily, f.group.value), Contribution(cost, f.revenue, f.success))];
    }
    ghost var fixed := dims;
    var todo := byProvider.Keys;
    while todo != {}
      invariant todo <= byProvider.Keys && |fixed| <= |dims| && dims[..|fixed|] == fixed
      invariant forall i, j :: 0 <= i < j < |dims| ==> dims[i].0 != dims[j].0
      invariant forall i :: 0 <= i < |dims| ==> ContributionOf(f, attempts, dims[i].0) == Some(dims[i].1)
      invariant forall i :: |fixed| <= i < |dims| ==> dims[i].0.Provider? && dims[i].0.id !in todo
      invariant forall id :: id in byProvider && id !in todo ==>
                  exists i :: 0 <= i < |dims| && dims[i].0 == Provider(RequestFamily, id)
    {
      var id :| id in todo;
      var won := f.success && f.finalProvider == Some(id);
      var entry := (Provider(RequestFamily, id), Contribution(byProvider[id], if won then f.revenue else Some(0), won));
      ghost var before := dims;
      forall i | 0 <= i < |dims| ensures dims[i].0 != entry.0 {
        if i < |fixed| { assert dims[i] == fixed[i]; }
      }
      dims := dims + [entry];
      todo := todo - {id};
      forall j | j in byProvider && j !in todo
        ensures exists i :: 0 <= i < |dims| && dims[i].0 == Provider(RequestFamily, j)
      {
        if j == id {
          assert dims[|before|].0 == Provider(RequestFamily, j);
        } else {
          var i :| 0 <= i < |before| && before[i].0 == Provider(RequestFamily, j);
          assert dims[i] == before[i];
        }
      }
    }
    forall s | ContributionOf(f, attempts, s).Some? ensures exists i :: 0 <= i < |dims| && dims[i].0 == s {
      if s.Global? {
        assert dims[0] == fixed[0] && dims[0].0 == s;
      } else if s.Group? {
        assert dims[1] == fixed[1] && dims[1].0 == s;
      } else {
        assert s.id in byProvider;
      }
    }
  }

  method CountSample(row: Agg, p: Sample) returns (counted: Agg, delta: Agg)
    ensures delta == ZERO.(inflightIntegral := p.integral, inflightPeak := p.peak) && counted == Merge(row, delta)
  {
    counted := row.(inflightIntegral := row.inflightIntegral + p.integral);
    if p.peak > counted.inflightPeak {
      counted := counted.(inflightPeak := p.peak);
    }
    delta := ZERO.(inflightIntegral := p.integral, inflightPeak := p.peak);
    assert AddHist(row.hist, EmptyHist()) == row.hist;
  }

  // --------------------------------------------------------------- the database

  class Database {
    var ledger: set<EventKey>
    var requests: map<Uuid, RequestFact>
    var attempts: map<Uuid, AttemptFact>
    var minutes: Table
    var days: Table
    ghost var written: Table  // every minute row as written, purged or not
    ghost var cut: int        // minutes before this bucket may have been purged

    ghost predicate Valid()
      reads this
    {
      DaysMatch(days, written) && Retained(minutes, written, cut)
    }

    function Facts(): Settlement.Facts
      reads this
    {
      Settlement.Facts(ledger, requests, attempts)
    }

    constructor ()
      ensures Valid() && Facts() == Settlement.Facts({}, map[], map[]) && minutes == days == written == map[]
    {
      ledger, requests, attempts := {}, map[], map[];
      minutes, days, written, cut := map[], map[], map[], 0;
      NothingMatches();
    }

    /** Saves a minute row that grew by `delta` and adds the same delta to its day. */
    method Save(minute: int, day: int, series: Series, row: Agg, delta: Agg)
      requires Valid() && row == Merge(At(minutes, Slot(minute, series)), delta)
      requires DayStart(day) <= minute < DayStart(day + 1)
      modifies this`minutes, this`days, this`written
      ensures Valid()
      ensures minutes == AddTo(old(minutes), Slot(minute, series), delta)
      ensures days == AddTo(old(days), Slot(day, series), delta)
      ensures written == AddTo(old(written), Slot(minute, series), delta)
    {
      hide Merge, DaysMatch, DayStart;
      AddKeepsDays(days, written, minute, day, series, delta);
      minutes := minutes[Slot(minute, series) := row];
      days := AddTo(days, Slot(day, series), delta);
      written := AddTo(written, Slot(minute, series), delta);
    }

    /** Folds one attempt into the global row and the row of its provider. */
    method ApplyAttempt(a: AttemptFact)
      requires Valid()
      modifies this`minutes, this`days, this`written
      ensures Valid()
      ensures forall s :: At(written, s) == Merge(old(At(written, s)), AttemptEffect(a, s))
    {
      hide Merge, AttemptDelta, DaysMatch, Retained, DayStart, MinuteOf, ShanghaiDay;
      MinuteKeepsDay(a.completedAt);
      var bucket, day := MinuteOf(a.completedAt), ShanghaiDay(a.completedAt);
      var dims := [Global(AttemptFamily), Provider(AttemptFamily, a.providerId)];
      for i := 0 to 2
        invariant Valid()
        invariant forall s :: At(written, s) == if s.bucket == bucket && s.series in dims[..i]
                                                then Merge(old(At(written, s)), AttemptDelta(a))
                                                else old(At(written, s))
      {
        var slot := Slot(bucket, dims[i]);
        var row, delta := CountAttempt(At(minutes, slot), a);
        Save(bucket, day, dims[i], row, delta);
        assert dims[..i + 1] == dims[..i] + [dims[i]];
      }
      forall s ensures At(written, s) == Merge(old(At(written, s)), AttemptEffect(a, s)) {
        MergeZero(old(At(written, s)));
        assert s.series in dims[..2] <==> s.series == dims[0] || s.series == dims[1];
      }
    }

    /** Counts a completed request once: its start and its end, in one series. */
    method ApplyContribution(f: RequestFact, series: Series, c: Contribution)
      requires Valid() && f.completedAt.Some? && Distinct(f.reasons)
      modifies this`minutes, this`days, this`written
      ensures Valid()
      ensures forall s: Slot :: At(written, s)
                == if s.series == series then Merge(old(At(written, s)), Both(f, c, s.bucket)) else old(At(written, s))
    {
      hide Merge, EndDelta, DaysMatch, Retained, DayStart, MinuteOf, ShanghaiDay, Distinct;
      var completed := f.completedAt.value;
      MinuteKeepsDay(f.startedAt);
      MinuteKeepsDay(completed);
      var start, end := Slot(MinuteOf(f.startedAt), series), Slot(MinuteOf(completed), series);
      Save(start.bucket, ShanghaiDay(f.startedAt), series, Merge(At(minutes, start), START_DELTA), START_DELTA);
      var row, delta := CountEnd(At(minutes, end), f, c);
      Save(end.bucket, ShanghaiDay(completed), series, row, delta);
      forall s: Slot | s.series == series
        ensures At(written, s) == Merge(old(At(written, s)), Both(f, c, s.bucket))
      {
        TwoDeltas(old(At(written, s)), s.bucket == start.bucket, s.bucket == end.bucket, START_DELTA, delta);
      }
    }

    /** What a completed request adds to a bucket of a series: its start, its end, or both. */
    static function Both(f: RequestFact, c: Contribution, bucket: int): Agg {
      if f.completedAt.None? then ZERO
      else Merge(OnBucket(bucket == MinuteOf(f.startedAt), START_DELTA),
                 OnBucket(bucket == MinuteOf(f.completedAt.value), EndDelta(f, c)))
    }

    /** Folds one completed request into every series it counts for. */
    method ApplyRequest(f: RequestFact, attempts: set<AttemptFact>)
      requires Valid() && f.completedAt.Some? && Distinct(f.reasons)
      modifies this`minutes, this`days, this`written
      ensures Valid()
      ensures forall s :: At(written, s) == Merge(old(At(written, s)), RequestEffect(f, attempts, s))
    {
      hide Merge, EndDelta, DaysMatch, Retained, MinuteOf, ContributionOf, Distinct, OnBucket;
      var dims := Dims(f, attempts);
      for i := 0 to |dims|
        invariant Valid()
        invariant forall j, s: Slot :: 0 <= j < i && s.series == dims[j].0 ==>
                    At(written, s) == Merge(old(At(written, s)), RequestEffect(f, attempts, s))
        invariant forall s: Slot :: (forall j :: 0 <= j < i ==> s.series != dims[j].0) ==>
                  At(written, s) == old(At(written, s))
      {
        ApplyContribution(f, dims[i].0, dims[i].1);
      }
      forall s ensures At(written, s) == Merge(old(At(written, s)), RequestEffect(f, attempts, s)) {
        if ContributionOf(f, attempts, s.series).None? {
          MergeZero(old(At(written, s)));
        }
      }
    }

    static lemma TwoDeltas(row: Agg, first: bool, second: bool, a: Agg, b: Agg)
      ensures var once := if first then Merge(row, a) else row;
              (if second then Merge(once, b) else once) == Merge(row, Merge(OnBucket(first, a), OnBucket(second, b)))
    {
      hide Merge;
      MergeZero(row);
      MergeZero(a);
      MergeZero(b);
      MergeZero(ZERO);
      MergeAssociates(row, a, b);
    }

    method ApplySample(p: Sample)
      requires Valid()
      modifies this`minutes, this`days, this`written
      ensures Valid()
      ensures forall s :: At(written, s) == Merge(old(At(written, s)), SampleEffect(p, s))
    {
      hide Merge, DaysMatch, Retained, DayStart;
      var row, delta := CountSample(At(minutes, Slot(p.bucket, Global(p.family))), p);
      SampleDay(p.bucket);
      Save(p.bucket, DayOfMinute(p.bucket), Global(p.family), row, delta);
      forall s ensures At(written, s) == Merge(old(At(written, s)), SampleEffect(p, s)) {
        MergeZero(old(At(written, s)));
      }
    }

    static lemma SampleDay(m: int)
      ensures DayStart(DayOfMinute(m)) <= m < DayStart(DayOfMinute(m) + 1)
    {
    }

    /** Completes a request once its attempts are in, or asks for another try. */
    method SettleEnd(p: RequestEnd) returns (ok: bool)
      requires Valid() && EndKey(p.uuid) !in ledger
      modifies this`requests, this`minutes, this`days, this`written
      ensures Valid()
      ensures ok <==> Judge(old(Facts()), EndEv(p)) != Retry
      ensures if ok
              then && requests == Settle(old(Facts()), EndEv(p)).requests
                   && forall s :: At(written, s) == Merge(old(At(written, s)), Effect(old(Facts()), EndEv(p), s))
              else requests == old(requests) && minutes == old(minutes) && days == old(days) && written == old(written)
    {
      hide Merge, RequestEffect, UpdateFact, Distinct, DaysMatch, Retained;
      ok := true;
      if p.uuid !in requests {
        return false;
      }
      forall s ensures At(written, s) == Merge(At(written, s), ZERO) { MergeZero(At(written, s)); }
      if requests[p.uuid].completedAt.None? {
        var rows := AttemptsIn(Facts(), p.uuid);
        if !p.interrupted && p.httpAttempts > |Sent(rows)| {
          return false;
        }
        var fact := UpdateRequestFact(requests[p.uuid], p, rows);
        CompletedFact(requests[p.uuid], p, rows);
        requests := requests[p.uuid := fact];
        if fact.business {
          ApplyRequest(fact, rows);
        }
      }
    }

    /** Applies one event in a transaction: it settles, is known already, is too old, or has to
        wait; in the last three cases nothing changes. */
    method Process(e: QueuedEvent, now: int) returns (ok: bool)
      requires Valid()
      modifies this`ledger, this`requests, this`attempts, this`minutes, this`days, this`written
      ensures Valid()
      ensures ok <==> Expired(e, now) || Judge(old(Facts()), e.event) != Retry
      ensures if !Expired(e, now) && Judge(old(Facts()), e.event) == Settled
              then && Facts() == Settle(old(Facts()), e.event)
                   && forall s :: At(written, s) == Merge(old(At(written, s)), Effect(old(Facts()), e.event, s))
              else Facts() == old(Facts()) && minutes == old(minutes) && days == old(days) && written == old(written)
    {
      hide Merge, AttemptEffect, SampleEffect, RequestEffect, Completed, Completes, DaysMatch, Retained, AttemptsIn;
      ok := true;
      if now - e.at > REPLAY_REJECT_MS {
        return;
      }
      var key := KeyOf(e.event);
      if key in ledger {
        return;
      }
      match e.event {
        case StartEv(p) =>
          if p.uuid !in requests {
            requests := requests[p.uuid := FreshFact(p)];
          }
          forall s ensures At(written, s) == Merge(At(written, s), ZERO) { MergeZero(At(written, s)); }
        case AttemptEv(p) =>
          if p.uuid !in attempts {
            attempts := attempts[p.uuid := p];
          }
          ApplyAttempt(p);
        case EndEv(p) =>
          ok := SettleEnd(p);
          if !ok {
            return;
          }
        case SampleEv(p) =>
          ApplySample(p);
      }
      ledger := ledger + {key};
    }

    static lemma CompletedFact(f: RequestFact, p: RequestEnd, rows: set<AttemptFact>)
      ensures var fact := UpdateFact(f, p, rows);
              fact.completedAt == Some(p.completedAt) && fact.business == f.business && Distinct(fact.reasons)
    {
      ReasonsAreDistinct(f, p, rows);
      hide Reasons, CostKnown;
    }

    /** Deletes the minute rows that are past retention; the day rows stay. */
    method Purge(now: int)
      requires Valid()
      modifies this`minutes, this`cut
      ensures Valid() && cut >= old(cut) && cut >= CeilMinute(now - RETENTION_MS)
      ensures minutes == map s | s in old(minutes) && s.bucket >= CeilMinute(now - RETENTION_MS) :: old(minutes)[s]
    {
      hide DaysMatch, CeilMinute;
      var bound := CeilMinute(now - RETENTION_MS);
      minutes := map s | s in minutes && s.bucket >= bound :: minutes[s];
      if cut < bound {
        cut := bound;
      }
    }
  }
}
