/** Dashboard events, the facts they settle into, and what each adds to the aggregates. */
module Settlement {
  import opened Wrappers
  import opened Aggregates

  type Uuid = string

  datatype Reason = Unbound | MissingSale | MissingPrice | MissingUsage | Interrupted

  /** The fields an end event copies into the fact unchanged. */
  datatype Detail = Detail(
    model: string, protocol: string, inputTokens: int, outputTokens: int, cacheReadTokens: int, cacheWriteTokens: int,
    finalProviderName: string)

  datatype RequestStart = RequestStart(
    uuid: Uuid, group: Option<nat>, sale: Option<int>, business: bool, startedAt: int)

  datatype Outcome = Success | UpstreamFailure | OtherResult

  datatype AttemptFact = AttemptFact(
    uuid: Uuid, requestUuid: Uuid, providerId: nat, completedAt: int, result: Outcome, httpSent: bool,
    ttftMs: int, ttftMeasured: bool, business: bool,
    estimatedCost: Option<int>, reportedCost: Option<int>, consumption: Option<int>)

  /** `cardCost` is what the price card bills when the handler sent no base cost. */
  datatype RequestEnd = RequestEnd(
    uuid: Uuid, success: bool, interrupted: bool, completedAt: int, httpAttempts: int, usageKnown: bool,
    inputPrice: Option<int>, outputPrice: Option<int>, baseCost: Option<int>, cardCost: Option<int>,
    ttftMs: int, ttftMeasured: bool, finalProvider: Option<nat>, detail: Detail)

  datatype Sample = Sample(bucket: int, family: Family, integral: real, peak: nat)

  datatype RequestFact = RequestFact(
    uuid: Uuid, group: Option<nat>, sale: Option<int>, business: bool, startedAt: int,
    completedAt: Option<int>, success: bool, interrupted: bool, httpAttempts: int, usageKnown: bool,
    inputPrice: Option<int>, outputPrice: Option<int>, baseCost: Option<int>, revenue: Option<int>,
    covered: bool, reasons: seq<Reason>, finalProvider: Option<nat>, ttftMs: int, ttftMeasured: bool,
    detail: Option<Detail>)

  datatype Event =
    | StartEv(start: RequestStart) | AttemptEv(attempt: AttemptFact) | EndEv(end: RequestEnd) | SampleEv(sample: Sample)

  datatype EventKey =
    | StartKey(uuid: Uuid) | AttemptKey(uuid: Uuid) | EndKey(uuid: Uuid)
    | SampleKey(family: Family, bucket: int, peak: nat)

  function KeyOf(e: Event): EventKey {
    match e
    case StartEv(p) => StartKey(p.uuid)
    case AttemptEv(p) => AttemptKey(p.uuid)
    case EndEv(p) => EndKey(p.uuid)
    case SampleEv(p) => SampleKey(p.family, p.bucket, p.peak)
  }

  // --------------------------------------------------------------------- facts

  function FreshFact(p: RequestStart): RequestFact {
    RequestFact(p.uuid, p.group, p.sale, p.business, p.startedAt, None, false, false, 0, false,
                None, None, None, None, false, [], None, 0, false, None)
  }

  /** Rounds n / d to the nearest integer, halves away from zero. */
  function RoundDiv(n: int, d: int): int
    requires d > 0
  {
    if n >= 0 then (2 * n + d) / (2 * d) else -((2 * -n + d) / (2 * d))
  }

  const SALE_SCALE: int := 1000000

  /** Revenue of a base cost, with the sale multiplier in millionths. */
  function Revenue(base: int, sale: int): int { RoundDiv(base * sale, SALE_SCALE) }

  predicate CostKnown(attempts: set<AttemptFact>) {
    forall a :: a in attempts && a.httpSent ==> a.estimatedCost.Some?
  }

  function If<T>(c: bool, x: T): seq<T> { if c then [x] else [] }

  function UpdateFact(f: RequestFact, p: RequestEnd, attempts: set<AttemptFact>): RequestFact {
    var priceOK := p.inputPrice.Some? && p.outputPrice.Some?;
    var base := if p.baseCost.Some? then p.baseCost else if priceOK then p.cardCost else f.baseCost;
    var costKnown := CostKnown(attempts);
    var reasons := Reasons(f.group.None?, f.sale.None?, !priceOK, !p.usageKnown && !p.interrupted, p.interrupted,
                           !costKnown && p.usageKnown);
    var earned := if p.success && f.sale.Some? && base.Some? then Some(Revenue(base.value, f.sale.value))
                  else if !p.success && !p.interrupted then Some(0)
                  else f.revenue;
    var covered := f.group.Some? && f.sale.Some? && priceOK && (p.usageKnown || (!p.success && !p.interrupted))
                   && costKnown && !p.interrupted;
    f.(success := p.success, interrupted := p.interrupted, completedAt := Some(p.completedAt),
       httpAttempts := p.httpAttempts, usageKnown := p.usageKnown, inputPrice := p.inputPrice,
       outputPrice := p.outputPrice, ttftMs := p.ttftMs, ttftMeasured := p.ttftMeasured,
       finalProvider := p.finalProvider, detail := Some(p.detail), baseCost := base, reasons := reasons,
       revenue := if covered && earned.None? && !p.success then Some(0) else earned, covered := covered)
  }

  ghost predicate Distinct<T>(s: seq<T>) { forall i, j :: 0 <= i < j < |s| ==> s[i] != s[j] }

  lemma DistinctAppend(s: seq<Reason>, c: bool, x: Reason)
    requires Distinct(s) && (c ==> x !in s)
    ensures Distinct(s + If(c, x))
    ensures forall r :: r in s + If(c, x) ==> r in s || (c && r == x)
  {
  }

  function Reasons(unbound: bool, noSale: bool, noPrice: bool, noUsage: bool, cut: bool, noCost: bool): seq<Reason> {
    If(unbound, Unbound) + If(noSale, MissingSale) + If(noPrice, MissingPrice) + If(noUsage, MissingUsage)
    + If(cut, Interrupted) + If(noCost, MissingUsage)
  }

  lemma ReasonListDistinct(unbound: bool, noSale: bool, noPrice: bool, noUsage: bool, cut: bool, noCost: bool)
    requires !(noUsage && noCost)
    ensures Distinct(Reasons(unbound, noSale, noPrice, noUsage, cut, noCost))
  {
    hide Distinct, If;
    var s0: seq<Reason> := [];
    assert Distinct(s0) by { DistinctEmpty(); }
    DistinctAppend(s0, unbound, Unbound);
    assert s0 + If(unbound, Unbound) == If(unbound, Unbound);
    var s1 := If(unbound, Unbound);
    DistinctAppend(s1, noSale, MissingSale);
    var s2 := s1 + If(noSale, MissingSale);
    DistinctAppend(s2, noPrice, MissingPrice);
    var s3 := s2 + If(noPrice, MissingPrice);
    DistinctAppend(s3, noUsage, MissingUsage);
    var s4 := s3 + If(noUsage, MissingUsage);
    DistinctAppend(s4, cut, Interrupted);
    DistinctAppend(s4 + If(cut, Interrupted), noCost, MissingUsage);
  }

  lemma DistinctEmpty()
    ensures Distinct<Reason>([])
  {
  }

  /** No reason is ever listed twice, so counting each entry and setting each count to one agree. */
  lemma ReasonsAreDistinct(f: RequestFact, p: RequestEnd, attempts: set<AttemptFact>)
    ensures Distinct(UpdateFact(f, p, attempts).reasons)
  {
    hide Distinct, If, CostKnown, Reasons;
    var priceOK := p.inputPrice.Some? && p.outputPrice.Some?;
    ReasonListDistinct(f.group.None?, f.sale.None?, !priceOK, !p.usageKnown && !p.interrupted, p.interrupted,
                       !CostKnown(attempts) && p.usageKnown);
  }

  // --------------------------------------------------------------------- costs

  function Cost(a: AttemptFact): int { if a.estimatedCost.Some? then a.estimatedCost.value else 0 }

  ghost function SumCost(attempts: set<AttemptFact>): int {
    if attempts == {} then 0 else var a :| a in attempts; Cost(a) + SumCost(attempts - {a})
  }

  lemma {:induction false} SumCostRemove(attempts: set<AttemptFact>, a: AttemptFact)
    requires a in attempts
    ensures SumCost(attempts) == Cost(a) + SumCost(attempts - {a})
    decreases |attempts|
  {
    var b :| b in attempts && SumCost(attempts) == Cost(b) + SumCost(attempts - {b});
    if a != b {
      SumCostRemove(attempts - {b}, a);
      SumCostRemove(attempts - {a}, b);
      assert attempts - {a} - {b} == attempts - {b} - {a};
    }
  }

  lemma SumCostAdd(attempts: set<AttemptFact>, a: AttemptFact)
    requires a !in attempts
    ensures SumCost(attempts + {a}) == SumCost(attempts) + Cost(a)
  {
    SumCostRemove(attempts + {a}, a);
    assert attempts + {a} - {a} == attempts;
  }

  function Sent(attempts: set<AttemptFact>): set<AttemptFact> { set a | a in attempts && a.httpSent }

  function SentBy(attempts: set<AttemptFact>, id: nat): set<AttemptFact> {
    set a | a in attempts && a.httpSent && a.providerId == id
  }

  // -------------------------------------------------------------- contributions

  datatype Contribution = Contribution(cost: int, revenue: Option<int>, success: bool)

  /** What a completed request counts for in one series of the request family. */
  ghost function ContributionOf(f: RequestFact, attempts: set<AttemptFact>, series: Series): Option<Contribution> {
    match series
    case Global(RequestFamily) => Some(Contribution(SumCost(attempts), f.revenue, f.success))
    case Group(RequestFamily, id) =>
      if f.group == Some(id) then Some(Contribution(SumCost(attempts), f.revenue, f.success)) else None
    case Provider(RequestFamily, id) =>
      if SentBy(attempts, id) == {} then None
      else
        var won := f.success && f.finalProvider == Some(id);
        Some(Contribution(SumCost(SentBy(attempts, id)), if won then f.revenue else Some(0), won))
    case _ => None
  }

  function Flag(b: bool): int { if b then 1 else 0 }

  function Amount(o: Option<int>): int { if o.Some? then o.value else 0 }

  const START_DELTA: Agg := ZERO.(requestsStarted := 1)

  function EndDelta(f: RequestFact, c: Contribution): Agg {
    var measured := f.ttftMeasured && c.success;
    ZERO.(requestsCompleted := 1, requestsSuccess := Flag(c.success), requestsRetried := Flag(f.httpAttempts >= 2),
          hist := if measured then Observation(f.ttftMs) else EmptyHist(), ttftSamples := Flag(measured),
          knownRevenue := Amount(c.revenue), knownCost := c.cost,
          coveredCount := Flag(f.covered), coveredRevenue := if f.covered then Amount(c.revenue) else 0,
          coveredCost := if f.covered then c.cost else 0,
          unbound := Flag(Unbound in f.reasons), missingSale := Flag(MissingSale in f.reasons),
          missingPrice := Flag(MissingPrice in f.reasons), missingUsage := Flag(MissingUsage in f.reasons),
          interrupted := Flag(Interrupted in f.reasons))
  }

  function OnBucket(b: bool, delta: Agg): Agg { if b then delta else ZERO }

  ghost function RequestEffect(f: RequestFact, attempts: set<AttemptFact>, s: Slot): Agg {
    match ContributionOf(f, attempts, s.series)
    case None => ZERO
    case Some(c) =>
      if f.completedAt.None? then ZERO
      else Merge(OnBucket(s.bucket == MinuteOf(f.startedAt), START_DELTA),
                 OnBucket(s.bucket == MinuteOf(f.completedAt.value), EndDelta(f, c)))
  }

  function AttemptDelta(a: AttemptFact): Agg {
    var measured := a.business && a.ttftMeasured && a.result == Success;
    ZERO.(providerSuccess := Flag(a.business && a.result == Success),
          providerFailure := Flag(a.business && a.result == UpstreamFailure),
          hist := if measured then Observation(a.ttftMs) else EmptyHist(), ttftSamples := Flag(measured),
          knownCost := if a.business then Amount(a.estimatedCost) else 0,
          consumption := Amount(a.consumption),
          unknownConsumption := Flag(a.consumption.None? && a.httpSent),
          reported := Amount(a.reportedCost),
          estimated := if a.reportedCost.None? then Amount(a.estimatedCost) else 0)
  }

  function AttemptEffect(a: AttemptFact, s: Slot): Agg {
    OnBucket(s.bucket == MinuteOf(a.completedAt)
             && (s.series == Global(AttemptFamily) || s.series == Provider(AttemptFamily, a.providerId)),
             AttemptDelta(a))
  }

  function SampleEffect(p: Sample, s: Slot): Agg {
    OnBucket(s == Slot(p.bucket, Global(p.family)), ZERO.(inflightIntegral := p.integral, inflightPeak := p.peak))
  }

  // ------------------------------------------------------------------- settling

  datatype Facts = Facts(ledger: set<EventKey>, requests: map<Uuid, RequestFact>, attempts: map<Uuid, AttemptFact>)

  function AttemptsIn(f: Facts, u: Uuid): set<AttemptFact> {
    set k | k in f.attempts && f.attempts[k].requestUuid == u :: f.attempts[k]
  }

  datatype Verdict = Settled | Duplicate | Retry

  function Judge(f: Facts, e: Event): Verdict {
    if KeyOf(e) in f.ledger then Duplicate
    else if !e.EndEv? then Settled
    else if e.end.uuid !in f.requests then Retry
    else if f.requests[e.end.uuid].completedAt.Some? then Settled
    else if !e.end.interrupted && e.end.httpAttempts > |Sent(AttemptsIn(f, e.end.uuid))| then Retry
    else Settled
  }

  /** Whether settling the event also completes a request. */
  predicate Completes(f: Facts, e: Event) {
    e.EndEv? && e.end.uuid in f.requests && f.requests[e.end.uuid].completedAt.None?
  }

  function Completed(f: Facts, p: RequestEnd): RequestFact
    requires p.uuid in f.requests
  {
    UpdateFact(f.requests[p.uuid], p, AttemptsIn(f, p.uuid))
  }

  function Settle(f: Facts, e: Event): Facts {
    var known := f.(ledger := f.ledger + {KeyOf(e)});
    match e
    case StartEv(p) => if p.uuid in f.requests then known else known.(requests := f.requests[p.uuid := FreshFact(p)])
    case AttemptEv(p) => if p.uuid in f.attempts then known else known.(attempts := f.attempts[p.uuid := p])
    case EndEv(p) => if Completes(f, e) then known.(requests := f.requests[p.uuid := Completed(f, p)]) else known
    case SampleEv(p) => known
  }

  /** What settling the event adds to a minute slot. */
  ghost function Effect(f: Facts, e: Event, s: Slot): Agg {
    match e
    case StartEv(p) => ZERO
    case AttemptEv(p) => AttemptEffect(p, s)
    case EndEv(p) =>
      if Completes(f, e) && f.requests[p.uuid].business
      then RequestEffect(Completed(f, p), AttemptsIn(f, p.uuid), s) else ZERO
    case SampleEv(p) => SampleEffect(p, s)
  }
}
