/** What every column of the dashboard counts: after any deliveries, the settled events that it is
    about, one by one. The columns are told by the events and the facts they met. */
module SettlementCounts {
  import opened Wrappers
  import opened Aggregates
  import opened Settlement
  import opened SettlementRuns
  import opened SettlementBalance

  // --------------------------------------------------------------- what a request earns

  /** What completing a request does to its fact: what it earns, what it is worth, and whether its
      money is fully known. */
  lemma EarnsByRule(f: RequestFact, p: RequestEnd, attempts: set<AttemptFact>)
    ensures var r := UpdateFact(f, p, attempts);
            && r.baseCost == (if p.baseCost.Some? then p.baseCost
                              else if p.inputPrice.Some? && p.outputPrice.Some? then p.cardCost else f.baseCost)
            && (p.success && f.sale.Some? && r.baseCost.Some? ==>
                  r.revenue.Some? && WithinHalf(r.revenue.value * 1000000, r.baseCost.value * f.sale.value, 1000000))
            && (!p.success && !p.interrupted ==> r.revenue == Some(0))
            && (!p.success && p.interrupted ==> r.revenue == f.revenue)
            && (p.success && (f.sale.None? || r.baseCost.None?) ==> r.revenue == f.revenue)
            && (r.covered <==> IsCovered(f, p, attempts))
  {
    hide Reasons;
  }

  /** The two differ by no more than half a unit. */
  predicate WithinHalf(x: int, exact: int, unit: nat) { 2 * x - unit <= 2 * exact <= 2 * x + unit }

  /** The price, the multiplier, the group, the usage and the costs are all known. */
  predicate IsCovered(f: RequestFact, p: RequestEnd, attempts: set<AttemptFact>) {
    && f.group.Some? && f.sale.Some? && p.inputPrice.Some? && p.outputPrice.Some?
    && !p.interrupted && (p.usageKnown || !p.success)
    && forall a :: a in attempts && a.httpSent ==> a.estimatedCost.Some?
  }

  /** The reason why a request's money is not fully known. */
  predicate Lacks(f: RequestFact, p: RequestEnd, attempts: set<AttemptFact>, r: Reason) {
    match r
    case Unbound => f.group.None?
    case MissingSale => f.sale.None?
    case MissingPrice => p.inputPrice.None? || p.outputPrice.None?
    case MissingUsage =>
      if p.usageKnown then exists a :: a in attempts && a.httpSent && a.estimatedCost.None? else !p.interrupted
    case Interrupted => p.interrupted
  }

  lemma ReasonsByRule(f: RequestFact, p: RequestEnd, attempts: set<AttemptFact>, r: Reason)
    ensures r in UpdateFact(f, p, attempts).reasons <==> Lacks(f, p, attempts, r)
  {
    hide UpdateFact, CostKnown, Reasons;
    var priceOK := p.inputPrice.Some? && p.outputPrice.Some?;
    ReasonsOf(f, p, attempts);
    CostUnknown(attempts);
    ReasonIn(f.group.None?, f.sale.None?, !priceOK, !p.usageKnown && !p.interrupted, p.interrupted,
             !CostKnown(attempts) && p.usageKnown, r);
  }

  lemma ReasonsOf(f: RequestFact, p: RequestEnd, attempts: set<AttemptFact>)
    ensures UpdateFact(f, p, attempts).reasons
            == Reasons(f.group.None?, f.sale.None?, !(p.inputPrice.Some? && p.outputPrice.Some?),
                       !p.usageKnown && !p.interrupted, p.interrupted, !CostKnown(attempts) && p.usageKnown)
  {
    hide CostKnown, Reasons;
  }

  lemma CostUnknown(attempts: set<AttemptFact>)
    ensures !CostKnown(attempts) <==> exists a :: a in attempts && a.httpSent && a.estimatedCost.None?
  {
  }

  lemma ReasonIn(unbound: bool, noSale: bool, noPrice: bool, noUsage: bool, cut: bool, noCost: bool, r: Reason)
    ensures r in Reasons(unbound, noSale, noPrice, noUsage, cut, noCost)
            <==> (match r
                  case Unbound => unbound
                  case MissingSale => noSale
                  case MissingPrice => noPrice
                  case MissingUsage => noUsage || noCost
                  case Interrupted => cut)
  {
    hide If;
    IfHas(unbound, Unbound, r);
    IfHas(noSale, MissingSale, r);
    IfHas(noPrice, MissingPrice, r);
    IfHas(noUsage, MissingUsage, r);
    IfHas(cut, Interrupted, r);
    IfHas(noCost, MissingUsage, r);
  }

  lemma IfHas(c: bool, x: Reason, r: Reason)
    ensures r in If(c, x) <==> c && r == x
  {
  }

  // -------------------------------------------------------------------- which column

  /** The columns that count events. */
  datatype Column =
    | Started | Finished | Succeeded | Retried | TriedWell | TriedBadly | Measured | InHist(slot: nat)
    | Unmetered | CoveredOnes | Because(reason: Reason)

  predicate ValidColumn(t: Column) { t.InHist? ==> t.slot < HIST_SIZE }

  function Read(t: Column, a: Agg): int
    requires ValidColumn(t)
  {
    match t
    case Started => a.requestsStarted
    case Finished => a.requestsCompleted
    case Succeeded => a.requestsSuccess
    case Retried => a.requestsRetried
    case TriedWell => a.providerSuccess
    case TriedBadly => a.providerFailure
    case Measured => a.ttftSamples
    case InHist(i) => a.hist[i]
    case Unmetered => a.unknownConsumption
    case CoveredOnes => a.coveredCount
    case Because(Unbound) => a.unbound
    case Because(MissingSale) => a.missingSale
    case Because(MissingPrice) => a.missingPrice
    case Because(MissingUsage) => a.missingUsage
    case Because(Interrupted) => a.interrupted
  }

  lemma ReadMerge(t: Column, a: Agg, b: Agg)
    requires ValidColumn(t)
    ensures Read(t, Merge(a, b)) == Read(t, a) + Read(t, b)
  {
  }

  lemma ReadZero(t: Column)
    requires ValidColumn(t)
    ensures Read(t, ZERO) == 0
  {
  }

  /** The moment is in the minute. */
  predicate Lands(at: int, minute: int) { minute * 60000 <= at < (minute + 1) * 60000 }

  /** The attempt is in this series: the one of its provider, or the global one. */
  predicate AttemptIn(a: AttemptFact, series: Series) {
    series == Global(AttemptFamily) || series == Provider(AttemptFamily, a.providerId)
  }

  /** What the columns count about an attempt. Only business attempts count for quality. */
  predicate CountsAttempt(t: Column, a: AttemptFact)
    requires ValidColumn(t)
  {
    match t
    case TriedWell => a.business && a.result == Success
    case TriedBadly => a.business && a.result == UpstreamFailure
    case Measured => a.business && a.result == Success && a.ttftMeasured
    case InHist(i) => a.business && a.result == Success && a.ttftMeasured && InSlot(a.ttftMs, i)
    case Unmetered => a.httpSent && a.consumption.None?
    case _ => false
  }

  /** The event completes a business request. */
  predicate FinishesBusiness(f: Facts, e: Event) {
    e.EndEv? && e.end.uuid in f.requests && f.requests[e.end.uuid].completedAt.None?
    && f.requests[e.end.uuid].business
  }

  /** An attempt of the request was sent to the provider. */
  predicate WentTo(f: Facts, u: Uuid, id: nat) {
    exists k :: k in f.attempts && f.attempts[k].requestUuid == u && f.attempts[k].httpSent
                && f.attempts[k].providerId == id
  }

  /** The request is in this series: the global one, the one of its group, or the one of a provider that
      an attempt was sent to. */
  predicate RequestIn(f: Facts, u: Uuid, series: Series)
    requires u in f.requests
  {
    match series
    case Global(family) => family == RequestFamily
    case Group(family, id) => family == RequestFamily && f.requests[u].group == Some(id)
    case Provider(family, id) => family == RequestFamily && WentTo(f, u, id)
  }

  /** Its success counts there: for a provider only that of the request it finished. */
  predicate SucceedsIn(p: RequestEnd, series: Series) {
    p.success && (series.Provider? ==> p.finalProvider == Some(series.id))
  }

  /** What the columns count about a request that completes. */
  predicate CountsEnd(t: Column, f: Facts, p: RequestEnd, series: Series)
    requires ValidColumn(t) && p.uuid in f.requests
  {
    match t
    case Finished => true
    case Succeeded => SucceedsIn(p, series)
    case Retried => p.httpAttempts >= 2
    case Measured => SucceedsIn(p, series) && p.ttftMeasured
    case InHist(i) => SucceedsIn(p, series) && p.ttftMeasured && InSlot(p.ttftMs, i)
    case CoveredOnes => IsCovered(f.requests[p.uuid], p, AttemptsIn(f, p.uuid))
    case Because(r) => Lacks(f.requests[p.uuid], p, AttemptsIn(f, p.uuid), r)
    case _ => false
  }

  /** The event, settled on these facts, adds one to the column of the slot. */
  predicate CountsIn(t: Column, f: Facts, e: Event, s: Slot)
    requires ValidColumn(t)
  {
    match e
    case StartEv(_) => false
    case SampleEv(_) => false
    case AttemptEv(a) => Lands(a.completedAt, s.bucket) && AttemptIn(a, s.series) && CountsAttempt(t, a)
    case EndEv(p) =>
      && FinishesBusiness(f, e) && RequestIn(f, p.uuid, s.series)
      && if t.Started? then Lands(f.requests[p.uuid].startedAt, s.bucket)
         else Lands(p.completedAt, s.bucket) && CountsEnd(t, f, p, s.series)
  }

  // ------------------------------------------------------------- one event, one column

  lemma LandsInMinute(at: int, minute: int)
    ensures minute == MinuteOf(at) <==> Lands(at, minute)
  {
  }

  lemma {:induction false} SlotMeans(ms: int, i: nat, from: nat)
    requires i <= |HIST_BOUNDS_MS| && from <= |HIST_BOUNDS_MS| && ms >= 0
    requires forall j :: 0 <= j < from ==> ms > HIST_BOUNDS_MS[j]
    ensures HistSlot(ms, from) == i <==> InSlot(ms, i)
    decreases |HIST_BOUNDS_MS| - from
  {
    BoundsGrow();
    if from < |HIST_BOUNDS_MS| && ms > HIST_BOUNDS_MS[from] {
      SlotMeans(ms, i, from + 1);
    }
  }

  lemma ObservationCounts(ms: int, i: nat)
    requires i < HIST_SIZE
    ensures Observation(ms)[i] == if InSlot(ms, i) then 1 else 0
  {
    SlotMeans(if ms < 0 then 0 else ms, i, 0);
  }

  function One(b: bool): int { if b then 1 else 0 }

  lemma AttemptDeltaCounts(t: Column, a: AttemptFact)
    requires ValidColumn(t)
    ensures Read(t, AttemptDelta(a)) == One(CountsAttempt(t, a))
  {
    if t.InHist? {
      ObservationCounts(a.ttftMs, t.slot);
    }
    hide InSlot, Observation;
  }

  lemma EndDeltaCounts(t: Column, f: RequestFact, c: Contribution)
    requires ValidColumn(t)
    ensures Read(t, EndDelta(f, c))
            == (match t
                case Finished => 1
                case Succeeded => One(c.success)
                case Retried => One(f.httpAttempts >= 2)
                case Measured => One(f.ttftMeasured && c.success)
                case InHist(i) => One(f.ttftMeasured && c.success && InSlot(f.ttftMs, i))
                case CoveredOnes => One(f.covered)
                case Because(r) => One(r in f.reasons)
                case _ => 0)
  {
    if t.InHist? {
      ObservationCounts(f.ttftMs, t.slot);
    }
    hide InSlot, Observation;
  }

  lemma WentToMeans(f: Facts, u: Uuid, id: nat)
    ensures SentBy(AttemptsIn(f, u), id) != {} <==> WentTo(f, u, id)
  {
    if WentTo(f, u, id) {
      var k :| k in f.attempts && f.attempts[k].requestUuid == u && f.attempts[k].httpSent
               && f.attempts[k].providerId == id;
      assert f.attempts[k] in SentBy(AttemptsIn(f, u), id);
    }
    if SentBy(AttemptsIn(f, u), id) != {} {
      var a :| a in SentBy(AttemptsIn(f, u), id);
      assert a in AttemptsIn(f, u);
    }
  }

  lemma CompletedByRule(f: Facts, p: RequestEnd)
    requires p.uuid in f.requests
    ensures var r := Completed(f, p);
            && r.completedAt == Some(p.completedAt) && r.startedAt == f.requests[p.uuid].startedAt
            && r.success == p.success && r.finalProvider == p.finalProvider && r.httpAttempts == p.httpAttempts
            && r.ttftMs == p.ttftMs && r.ttftMeasured == p.ttftMeasured && r.group == f.requests[p.uuid].group
  {
    hide Reasons, CostKnown, AttemptsIn;
  }

  lemma ContributionByRule(f: Facts, p: RequestEnd, series: Series)
    requires p.uuid in f.requests
    ensures var c := ContributionOf(Completed(f, p), AttemptsIn(f, p.uuid), series);
            && (c.Some? <==> RequestIn(f, p.uuid, series))
            && (c.Some? ==> c.value.success == SucceedsIn(p, series))
            && (c.Some? ==> c.value.revenue == if series.Provider? && !SucceedsIn(p, series) then Some(0)
                                               else Completed(f, p).revenue)
            && (c.Some? ==> c.value.cost == if series.Provider? then SumCost(SentBy(AttemptsIn(f, p.uuid), series.id))
                                            else SumCost(AttemptsIn(f, p.uuid)))
  {
    CompletedByRule(f, p);
    if series.Provider? {
      WentToMeans(f, p.uuid, series.id);
    }
    hide Completed, AttemptsIn, WentTo, SentBy;
  }

  lemma EndCounts(t: Column, f: Facts, p: RequestEnd, c: Contribution, series: Series)
    requires ValidColumn(t) && p.uuid in f.requests && c.success == SucceedsIn(p, series)
    ensures !t.Started? ==> Read(t, EndDelta(Completed(f, p), c)) == One(CountsEnd(t, f, p, series))
    ensures t.Started? ==> Read(t, EndDelta(Completed(f, p), c)) == 0
  {
    CompletedByRule(f, p);
    EndDeltaCounts(t, Completed(f, p), c);
    var was, attempts := f.requests[p.uuid], AttemptsIn(f, p.uuid);
    EarnsByRule(was, p, attempts);
    if t.Because? {
      ReasonsByRule(was, p, attempts, t.reason);
    }
    hide UpdateFact, EndDelta, IsCovered, Lacks, AttemptsIn, InSlot, SucceedsIn, Read;
  }

  lemma StartCounts(t: Column)
    requires ValidColumn(t)
    ensures Read(t, START_DELTA) == One(t.Started?)
  {
  }

  /** Settling an event adds one to exactly the columns that it counts in. */
  lemma EffectCounts(t: Column, f: Facts, e: Event, s: Slot)
    requires ValidColumn(t)
    ensures Read(t, Effect(f, e, s)) == One(CountsIn(t, f, e, s))
  {
    ReadZero(t);
    match e {
      case StartEv(_) =>
      case SampleEv(p) => hide EmptyHist;
      case AttemptEv(a) =>
        AttemptDeltaCounts(t, a);
        LandsInMinute(a.completedAt, s.bucket);
        hide Read, AttemptDelta, CountsAttempt, Lands, MinuteOf;
      case EndEv(p) =>
        if FinishesBusiness(f, e) {
          RequestCounts(t, f, p, s);
        }
        hide Read, RequestEffect, RequestIn, CountsEnd, Lands;
    }
  }

  lemma RequestCounts(t: Column, f: Facts, p: RequestEnd, s: Slot)
    requires ValidColumn(t) && p.uuid in f.requests
    ensures Read(t, RequestEffect(Completed(f, p), AttemptsIn(f, p.uuid), s))
            == One(RequestIn(f, p.uuid, s.series)
                   && if t.Started? then Lands(f.requests[p.uuid].startedAt, s.bucket)
                      else Lands(p.completedAt, s.bucket) && CountsEnd(t, f, p, s.series))
  {
    hide CountsEnd, EndDelta, Merge, Read, ContributionOf, Completed, RequestIn, AttemptsIn, SucceedsIn, SentBy;
    ReadZero(t);
    CompletedByRule(f, p);
    ContributionByRule(f, p, s.series);
    LandsInMinute(f.requests[p.uuid].startedAt, s.bucket);
    LandsInMinute(p.completedAt, s.bucket);
    hide Lands, MinuteOf;
    var fact := Completed(f, p);
    var c := ContributionOf(fact, AttemptsIn(f, p.uuid), s.series);
    if c.Some? {
      StartCounts(t);
      EndCounts(t, f, p, c.value, s.series);
      ReadMerge(t, OnBucket(s.bucket == MinuteOf(fact.startedAt), START_DELTA),
                OnBucket(s.bucket == MinuteOf(fact.completedAt.value), EndDelta(fact, c.value)));
    }
  }

  // ------------------------------------------------------------------- all deliveries

  /** Delivery i settled its event: it was not a duplicate and did not have to wait. */
  predicate SettledAt(ds: seq<Event>, i: nat)
    requires i < |ds|
  {
    Judge(After(ds[..i]), ds[i]) == Settled
  }

  /** The deliveries that count in the column of the slot. */
  ghost function Counted(ds: seq<Event>, s: Slot, t: Column): set<nat>
    requires ValidColumn(t)
  {
    set i: nat | i < |ds| && SettledAt(ds, i) && CountsIn(t, After(ds[..i]), ds[i], s)
  }

  lemma CountedOneMore(ds: seq<Event>, e: Event, s: Slot, t: Column)
    requires ValidColumn(t)
    ensures Counted(ds + [e], s, t)
            == Counted(ds, s, t)
               + if Judge(After(ds), e) == Settled && CountsIn(t, After(ds), e, s) then {|ds|} else {}
  {
    hide CountsIn, Judge, After;
    var all := ds + [e];
    assert all[..|ds|] == ds;
    forall i: nat | i < |ds| ensures all[..i] == ds[..i] && all[i] == ds[i] {}
  }

  /** After any deliveries, in any order and with any repetitions, every counting column of every slot is
      the number of settled events that count there. */
  lemma {:induction false} ColumnsCount(ds: seq<Event>, s: Slot, t: Column)
    requires ValidColumn(t)
    ensures Read(t, Value(ds, s)) == |Counted(ds, s, t)|
  {
    if ds == [] {
      ReadZero(t);
    } else {
      hide CountsIn, Judge, After, Effect, Merge, Read;
      var init, e := ds[..|ds| - 1], ds[|ds| - 1];
      assert ds == init + [e];
      ColumnsCount(init, s, t);
      ValueSnoc(init, e, s);
      EffectCounts(t, After(init), e, s);
      ReadMerge(t, Value(init, s), Effect(After(init), e, s));
      CountedOneMore(init, e, s, t);
      assert |init| !in Counted(init, s, t);
    }
  }

  // -------------------------------------------------------------- what the facts tell

  /** The fact is that of the request that began so; while it is not completed, nothing was earned. */
  predicate Tells(f: RequestFact, p: RequestStart) {
    && f.uuid == p.uuid && f.group == p.group && f.sale == p.sale && f.business == p.business
    && f.startedAt == p.startedAt
    && (f.completedAt.None? ==> f.revenue.None? && f.baseCost.None? && !f.success && !f.covered)
  }

  ghost predicate BeganSo(ds: seq<Event>, f: RequestFact) {
    exists i :: 0 <= i < |ds| && ds[i].StartEv? && Tells(f, ds[i].start)
  }

  /** Over all deliveries: the facts that ends and attempts meet are those of the events delivered. A
      request is known by a start of it, with the group, multiplier, source and time of that start; and
      an attempt is known exactly as it was delivered. */
  lemma {:induction false} FactsTellEvents(ds: seq<Event>, u: Uuid)
    ensures u in After(ds).requests ==> After(ds).requests[u].uuid == u && BeganSo(ds, After(ds).requests[u])
    ensures u in After(ds).attempts ==> After(ds).attempts[u].uuid == u && AttemptEv(After(ds).attempts[u]) in ds
  {
    if ds != [] {
      var init, e := ds[..|ds| - 1], ds[|ds| - 1];
      assert ds == init + [e];
      FactsTellEvents(init, u);
      var f, g := After(init), After(ds);
      if u in f.requests {
        BeganEarlier(init, e, f.requests[u]);
      }
      hide After, Judge, BeganSo;
      if u in g.requests {
        if u in f.requests && g.requests[u] == f.requests[u] {
        } else if e.StartEv? {
          BeganHere(init, e);
        } else {
          UpdateTells(f.requests[u], e.end, AttemptsIn(f, u));
          StillBegan(ds, f.requests[u], g.requests[u]);
        }
      }
    }
  }

  /** And what was settled stays known. */
  lemma {:induction false} SettledIsKnown(ds: seq<Event>, i: nat)
    requires i < |ds| && SettledAt(ds, i)
    ensures ds[i].StartEv? ==> ds[i].start.uuid in After(ds).requests
    ensures ds[i].AttemptEv? ==> ds[i].attempt.uuid in After(ds).attempts
    decreases |ds|
  {
    var init, e := ds[..|ds| - 1], ds[|ds| - 1];
    if i < |init| {
      assert init[..i] == ds[..i];
      SettledIsKnown(init, i);
    }
    hide Judge, Completes, FreshFact;
  }

  lemma BeganEarlier(init: seq<Event>, e: Event, f: RequestFact)
    requires BeganSo(init, f)
    ensures BeganSo(init + [e], f)
  {
    hide Tells;
    var i :| 0 <= i < |init| && init[i].StartEv? && Tells(f, init[i].start);
    assert (init + [e])[i] == init[i];
  }

  lemma BeganHere(init: seq<Event>, e: Event)
    requires e.StartEv?
    ensures BeganSo(init + [e], FreshFact(e.start))
  {
    assert (init + [e])[|init|] == e;
  }

  lemma UpdateTells(f: RequestFact, p: RequestEnd, attempts: set<AttemptFact>)
    ensures var r := UpdateFact(f, p, attempts);
            r.uuid == f.uuid && r.group == f.group && r.sale == f.sale && r.business == f.business
            && r.startedAt == f.startedAt && r.completedAt.Some?
  {
    hide Reasons, CostKnown;
  }

  lemma StillBegan(ds: seq<Event>, f: RequestFact, r: RequestFact)
    requires BeganSo(ds, f) && r.completedAt.Some?
    requires r.uuid == f.uuid && r.group == f.group && r.sale == f.sale && r.business == f.business
             && r.startedAt == f.startedAt
    ensures BeganSo(ds, r)
  {
    var i :| 0 <= i < |ds| && ds[i].StartEv? && Tells(f, ds[i].start);
    assert Tells(r, ds[i].start);
  }

  // ------------------------------------------------------------------ the main columns

  /** Delivery i settled a business attempt of the provider in the minute, with this result. */
  predicate QualityOf(ds: seq<Event>, i: nat, minute: int, provider: nat, result: Outcome) {
    i < |ds| && SettledAt(ds, i) && ds[i].AttemptEv?
    && var a := ds[i].attempt;
       a.providerId == provider && a.business && a.result == result && Lands(a.completedAt, minute)
  }

  ghost function WithResult(ds: seq<Event>, minute: int, provider: nat, result: Outcome): set<nat> {
    set i: nat | i < |ds| && QualityOf(ds, i, minute, provider, result)
  }

  ghost function MeasuredWell(ds: seq<Event>, minute: int, provider: nat): set<nat> {
    set i: nat | i < |ds| && QualityOf(ds, i, minute, provider, Success) && ds[i].attempt.ttftMeasured
  }

  /** A provider's successes, failures and latency samples are its settled business attempts of that
      minute that succeeded, failed upstream, and succeeded with a measured latency. */
  lemma ProviderQuality(ds: seq<Event>, minute: int, provider: nat)
    ensures var row := Value(ds, Slot(minute, Provider(AttemptFamily, provider)));
            && row.providerSuccess == |WithResult(ds, minute, provider, Success)|
            && row.providerFailure == |WithResult(ds, minute, provider, UpstreamFailure)|
            && row.ttftSamples == |MeasuredWell(ds, minute, provider)|
  {
    var s := Slot(minute, Provider(AttemptFamily, provider));
    hide Value, WithResult, MeasuredWell, Counted;
    ColumnsCount(ds, s, TriedWell);
    ColumnsCount(ds, s, TriedBadly);
    ColumnsCount(ds, s, Measured);
    QualitySets(ds, minute, provider);
    MeasuredSet(ds, minute, provider);
  }

  lemma QualitySets(ds: seq<Event>, minute: int, provider: nat)
    ensures var s := Slot(minute, Provider(AttemptFamily, provider));
            && Counted(ds, s, TriedWell) == WithResult(ds, minute, provider, Success)
            && Counted(ds, s, TriedBadly) == WithResult(ds, minute, provider, UpstreamFailure)
  {
    hide CountsIn, SettledAt, After;
    var s := Slot(minute, Provider(AttemptFamily, provider));
    forall i: nat | i < |ds| && SettledAt(ds, i)
      ensures CountsIn(TriedWell, After(ds[..i]), ds[i], s) <==> QualityOf(ds, i, minute, provider, Success)
      ensures CountsIn(TriedBadly, After(ds[..i]), ds[i], s) <==> QualityOf(ds, i, minute, provider, UpstreamFailure)
    {
      QualityCounts(ds, i, minute, provider);
    }
  }

  lemma MeasuredSet(ds: seq<Event>, minute: int, provider: nat)
    ensures Counted(ds, Slot(minute, Provider(AttemptFamily, provider)), Measured) == MeasuredWell(ds, minute, provider)
  {
    hide CountsIn, SettledAt, After;
    forall i: nat | i < |ds| && SettledAt(ds, i)
      ensures CountsIn(Measured, After(ds[..i]), ds[i], Slot(minute, Provider(AttemptFamily, provider)))
              <==> QualityOf(ds, i, minute, provider, Success) && ds[i].attempt.ttftMeasured
    {
      QualityCounts(ds, i, minute, provider);
    }
  }

  lemma QualityCounts(ds: seq<Event>, i: nat, minute: int, provider: nat)
    requires i < |ds| && SettledAt(ds, i)
    ensures var f, s := After(ds[..i]), Slot(minute, Provider(AttemptFamily, provider));
            && (CountsIn(TriedWell, f, ds[i], s) <==> QualityOf(ds, i, minute, provider, Success))
            && (CountsIn(TriedBadly, f, ds[i], s) <==> QualityOf(ds, i, minute, provider, UpstreamFailure))
            && (CountsIn(Measured, f, ds[i], s)
                <==> QualityOf(ds, i, minute, provider, Success) && ds[i].attempt.ttftMeasured)
  {
    hide SettledAt, After, Lands, CountsEnd, FinishesBusiness;
  }

  /** Delivery i settled the end of a successful business request in the minute. */
  predicate Wins(ds: seq<Event>, i: nat, minute: int) {
    i < |ds| && SettledAt(ds, i) && FinishesBusiness(After(ds[..i]), ds[i])
    && ds[i].end.success && Lands(ds[i].end.completedAt, minute)
  }

  /** The winner is the provider, which an attempt of the request was sent to. */
  predicate WinsFor(ds: seq<Event>, i: nat, minute: int, provider: nat) {
    Wins(ds, i, minute) && ds[i].end.finalProvider == Some(provider)
    && WentTo(After(ds[..i]), ds[i].end.uuid, provider)
  }

  ghost function Winning(ds: seq<Event>, minute: int): set<nat> { set i: nat | i < |ds| && Wins(ds, i, minute) }

  ghost function WinningFor(ds: seq<Event>, minute: int, provider: nat): set<nat> {
    set i: nat | i < |ds| && WinsFor(ds, i, minute, provider)
  }

  ghost function MeasuredFor(ds: seq<Event>, minute: int, provider: nat): set<nat> {
    set i: nat | i < |ds| && WinsFor(ds, i, minute, provider) && ds[i].end.ttftMeasured
  }

  /** The global successes of a minute are all the settled successful business requests; a provider's are
      those it finished with an attempt sent, and so are its latency samples when measured. */
  lemma RequestSuccesses(ds: seq<Event>, minute: int, provider: nat)
    ensures Value(ds, Slot(minute, Global(RequestFamily))).requestsSuccess == |Winning(ds, minute)|
    ensures var row := Value(ds, Slot(minute, Provider(RequestFamily, provider)));
            && row.requestsSuccess == |WinningFor(ds, minute, provider)|
            && row.ttftSamples == |MeasuredFor(ds, minute, provider)|
  {
    var global, own := Slot(minute, Global(RequestFamily)), Slot(minute, Provider(RequestFamily, provider));
    hide Value, Counted, Winning, WinningFor, MeasuredFor;
    ColumnsCount(ds, global, Succeeded);
    ColumnsCount(ds, own, Succeeded);
    ColumnsCount(ds, own, Measured);
    WinningSets(ds, minute, provider);
  }

  lemma WinningSets(ds: seq<Event>, minute: int, provider: nat)
    ensures Counted(ds, Slot(minute, Global(RequestFamily)), Succeeded) == Winning(ds, minute)
    ensures var own := Slot(minute, Provider(RequestFamily, provider));
            && Counted(ds, own, Succeeded) == WinningFor(ds, minute, provider)
            && Counted(ds, own, Measured) == MeasuredFor(ds, minute, provider)
  {
    var global, own := Slot(minute, Global(RequestFamily)), Slot(minute, Provider(RequestFamily, provider));
    forall i: nat | i < |ds| && SettledAt(ds, i)
      ensures CountsIn(Succeeded, After(ds[..i]), ds[i], global) <==> Wins(ds, i, minute)
      ensures CountsIn(Succeeded, After(ds[..i]), ds[i], own) <==> WinsFor(ds, i, minute, provider)
      ensures CountsIn(Measured, After(ds[..i]), ds[i], own)
              <==> WinsFor(ds, i, minute, provider) && ds[i].end.ttftMeasured
    {
      hide SettledAt, After, WentTo, Lands;
    }
    hide CountsIn, Wins, SettledAt;
  }

  ghost function ProviderSuccesses(ds: seq<Event>, minute: int, ids: seq<nat>): int {
    if ids == [] then 0
    else ProviderSuccesses(ds, minute, ids[1..])
         + Value(ds, Slot(minute, Provider(RequestFamily, ids[0]))).requestsSuccess
  }

  ghost predicate WinsForAny(ds: seq<Event>, i: nat, minute: int, ids: seq<nat>) {
    exists j :: 0 <= j < |ids| && WinsFor(ds, i, minute, ids[j])
  }

  /** The successes of the listed providers, together. */
  ghost function WinningForAny(ds: seq<Event>, minute: int, ids: seq<nat>): set<nat> {
    set i: nat | i < |ds| && WinsForAny(ds, i, minute, ids)
  }

  lemma {:induction false} SuccessesAddUp(ds: seq<Event>, minute: int, ids: seq<nat>)
    requires NoRepeats(ids)
    ensures ProviderSuccesses(ds, minute, ids) == |WinningForAny(ds, minute, ids)|
  {
    if ids == [] {
      assert WinningForAny(ds, minute, ids) == {};
    } else {
      SuccessesAddUp(ds, minute, ids[1..]);
      RequestSuccesses(ds, minute, ids[0]);
      hide Value;
      SplitFirst(ds, minute, ids);
    }
  }

  lemma SplitFirst(ds: seq<Event>, minute: int, ids: seq<nat>)
    requires NoRepeats(ids) && ids != []
    ensures |WinningForAny(ds, minute, ids)|
            == |WinningForAny(ds, minute, ids[1..])| + |WinningFor(ds, minute, ids[0])|
  {
    var all, rest := WinningForAny(ds, minute, ids), WinningForAny(ds, minute, ids[1..]);
    var own := WinningFor(ds, minute, ids[0]);
    forall i: nat | i < |ds|
      ensures WinsForAny(ds, i, minute, ids) <==> WinsForAny(ds, i, minute, ids[1..]) || WinsFor(ds, i, minute, ids[0])
      ensures !(WinsForAny(ds, i, minute, ids[1..]) && WinsFor(ds, i, minute, ids[0]))
    {
      WinsForFirst(ds, i, minute, ids);
    }
    hide WinsForAny, WinsFor;
    assert all == rest + own && rest !! own;
  }

  lemma WinsForFirst(ds: seq<Event>, i: nat, minute: int, ids: seq<nat>)
    requires NoRepeats(ids) && ids != []
    ensures WinsForAny(ds, i, minute, ids) <==> WinsForAny(ds, i, minute, ids[1..]) || WinsFor(ds, i, minute, ids[0])
    ensures !(WinsForAny(ds, i, minute, ids[1..]) && WinsFor(ds, i, minute, ids[0]))
  {
    hide Wins, WentTo;
    if WinsForAny(ds, i, minute, ids[1..]) {
      var j :| 0 <= j < |ids[1..]| && WinsFor(ds, i, minute, ids[1..][j]);
      assert ids[1..][j] == ids[j + 1] != ids[0];
    }
    if WinsForAny(ds, i, minute, ids) && !WinsFor(ds, i, minute, ids[0]) {
      var j :| 0 <= j < |ids| && WinsFor(ds, i, minute, ids[j]);
      assert ids[1..][j - 1] == ids[j];
    }
  }

  /** When every settled success was finished by a listed provider that an attempt was sent to, the
      providers' successes add up to the global ones. */
  lemma ProviderSuccessesMakeGlobal(ds: seq<Event>, minute: int, ids: seq<nat>)
    requires NoRepeats(ids)
    requires forall i: nat :: i in Winning(ds, minute) ==> WinsForAny(ds, i, minute, ids)
    ensures ProviderSuccesses(ds, minute, ids) == Value(ds, Slot(minute, Global(RequestFamily))).requestsSuccess
  {
    hide Value, ProviderSuccesses, SettledAt, FinishesBusiness, After, WentTo;
    SuccessesAddUp(ds, minute, ids);
    RequestSuccesses(ds, minute, 0);
    assert WinningForAny(ds, minute, ids) == Winning(ds, minute);
  }

  // ----------------------------------------------------------------------------- money

  /** The columns that add up money. */
  datatype Purse = KnownRevenue | KnownCost | Consumption | Reported | Estimated | CoveredRevenue | CoveredCost

  function ReadMoney(t: Purse, a: Agg): int {
    match t
    case KnownRevenue => a.knownRevenue
    case KnownCost => a.knownCost
    case Consumption => a.consumption
    case Reported => a.reported
    case Estimated => a.estimated
    case CoveredRevenue => a.coveredRevenue
    case CoveredCost => a.coveredCost
  }

  function OrZero(o: Option<int>): int { match o case None => 0 case Some(x) => x }

  /** What an attempt is worth there: its cost if it is business, and what it consumed in any case. */
  function AttemptWorth(t: Purse, a: AttemptFact): int {
    match t
    case KnownCost => if a.business then OrZero(a.estimatedCost) else 0
    case Consumption => OrZero(a.consumption)
    case Reported => OrZero(a.reportedCost)
    case Estimated => if a.reportedCost.Some? then 0 else OrZero(a.estimatedCost)
    case _ => 0
  }

  /** What a request is worth there: the costs of its attempts, for a provider of those sent to it, and its
      revenue, for a provider only if it finished the request. */
  ghost function EndWorth(t: Purse, f: Facts, p: RequestEnd, series: Series): int
    requires p.uuid in f.requests
  {
    var attempts := AttemptsIn(f, p.uuid);
    var cost := if series.Provider? then SumCost(SentBy(attempts, series.id)) else SumCost(attempts);
    var revenue := if series.Provider? && !SucceedsIn(p, series) then 0
                   else OrZero(UpdateFact(f.requests[p.uuid], p, attempts).revenue);
    match t
    case KnownRevenue => revenue
    case KnownCost => cost
    case CoveredRevenue => if IsCovered(f.requests[p.uuid], p, attempts) then revenue else 0
    case CoveredCost => if IsCovered(f.requests[p.uuid], p, attempts) then cost else 0
    case _ => 0
  }

  ghost function WorthIn(t: Purse, f: Facts, e: Event, s: Slot): int {
    match e
    case StartEv(_) => 0
    case SampleEv(_) => 0
    case AttemptEv(a) => if Lands(a.completedAt, s.bucket) && AttemptIn(a, s.series) then AttemptWorth(t, a) else 0
    case EndEv(p) =>
      if FinishesBusiness(f, e) && RequestIn(f, p.uuid, s.series) && Lands(p.completedAt, s.bucket)
      then EndWorth(t, f, p, s.series) else 0
  }

  lemma MoneyMerge(t: Purse, a: Agg, b: Agg)
    ensures ReadMoney(t, Merge(a, b)) == ReadMoney(t, a) + ReadMoney(t, b)
    ensures ReadMoney(t, ZERO) == 0 == ReadMoney(t, START_DELTA)
  {
  }

  lemma EndMoney(t: Purse, f: Facts, p: RequestEnd, c: Contribution, series: Series)
    requires p.uuid in f.requests
             && ContributionOf(Completed(f, p), AttemptsIn(f, p.uuid), series) == Some(c)
    ensures ReadMoney(t, EndDelta(Completed(f, p), c)) == EndWorth(t, f, p, series)
  {
    hide UpdateFact, ContributionOf, IsCovered, SucceedsIn, SumCost, SentBy, AttemptsIn;
    ContributionByRule(f, p, series);
    EarnsByRule(f.requests[p.uuid], p, AttemptsIn(f, p.uuid));
  }

  lemma RequestMoney(t: Purse, f: Facts, p: RequestEnd, s: Slot)
    requires p.uuid in f.requests
    ensures ReadMoney(t, RequestEffect(Completed(f, p), AttemptsIn(f, p.uuid), s))
            == if RequestIn(f, p.uuid, s.series) && Lands(p.completedAt, s.bucket) then EndWorth(t, f, p, s.series)
               else 0
  {
    hide EndWorth, EndDelta, Merge, ReadMoney, ContributionOf, Completed, RequestIn, AttemptsIn, SucceedsIn, SentBy;
    CompletedByRule(f, p);
    ContributionByRule(f, p, s.series);
    LandsInMinute(p.completedAt, s.bucket);
    hide Lands, MinuteOf;
    MoneyMerge(t, ZERO, ZERO);
    var fact := Completed(f, p);
    var c := ContributionOf(fact, AttemptsIn(f, p.uuid), s.series);
    if c.Some? {
      EndMoney(t, f, p, c.value, s.series);
      MoneyMerge(t, OnBucket(s.bucket == MinuteOf(fact.startedAt), START_DELTA),
                 OnBucket(s.bucket == MinuteOf(fact.completedAt.value), EndDelta(fact, c.value)));
    }
  }

  lemma EffectMoneyIn(t: Purse, f: Facts, e: Event, s: Slot)
    ensures ReadMoney(t, Effect(f, e, s)) == WorthIn(t, f, e, s)
  {
    match e {
      case StartEv(_) =>
      case SampleEv(p) =>
      case AttemptEv(a) => LandsInMinute(a.completedAt, s.bucket);
      case EndEv(p) =>
        if FinishesBusiness(f, e) {
          RequestMoney(t, f, p, s);
        }
        hide RequestEffect, RequestIn, EndWorth, Lands;
    }
  }

  /** What the settled deliveries are worth together. */
  ghost function Sum(ds: seq<Event>, s: Slot, t: Purse): int {
    if ds == [] then 0
    else
      var n := |ds| - 1;
      Sum(ds[..n], s, t) + if SettledAt(ds, n) then WorthIn(t, After(ds[..n]), ds[n], s) else 0
  }

  /** After any deliveries every money column of every slot is what its settled events are worth. */
  lemma {:induction false} MoneyAddsUp(ds: seq<Event>, s: Slot, t: Purse)
    ensures ReadMoney(t, Value(ds, s)) == Sum(ds, s, t)
  {
    hide WorthIn, Judge, After, Effect, Merge, ReadMoney;
    MoneyMerge(t, ZERO, ZERO);
    if ds != [] {
      var init, e := ds[..|ds| - 1], ds[|ds| - 1];
      assert ds == init + [e];
      MoneyAddsUp(init, s, t);
      ValueSnoc(init, e, s);
      EffectMoneyIn(t, After(init), e, s);
      MoneyMerge(t, Value(init, s), Effect(After(init), e, s));
    }
  }

  // --------------------------------------------------------------------------- samples

  /** The in-flight samples of the slot that were settled. */
  predicate SampleOf(ds: seq<Event>, i: nat, s: Slot) {
    i < |ds| && SettledAt(ds, i) && ds[i].SampleEv? && s == Slot(ds[i].sample.bucket, Global(ds[i].sample.family))
  }

  ghost function SumIntegral(ds: seq<Event>, s: Slot): real {
    if ds == [] then 0.0
    else
      var n := |ds| - 1;
      SumIntegral(ds[..n], s) + if SampleOf(ds, n, s) then ds[n].sample.integral else 0.0
  }

  lemma SampleInflight(f: Facts, e: Event, s: Slot)
    ensures var a := Effect(f, e, s);
            if e.SampleEv? && s == Slot(e.sample.bucket, Global(e.sample.family))
            then a.inflightIntegral == e.sample.integral && a.inflightPeak == e.sample.peak
            else a.inflightIntegral == 0.0 && a.inflightPeak == 0
  {
    hide EndDelta, ContributionOf, Completed, AttemptsIn;
    match e
    case StartEv(_) =>
    case AttemptEv(a) =>
    case SampleEv(p) =>
    case EndEv(p) =>
      if Completes(f, e) {
        RequestInflight(Completed(f, p), AttemptsIn(f, p.uuid), s);
      }
  }

  lemma RequestInflight(fact: RequestFact, attempts: set<AttemptFact>, s: Slot)
    ensures var a := RequestEffect(fact, attempts, s); a.inflightIntegral == 0.0 && a.inflightPeak == 0
  {
    hide ContributionOf;
  }

  lemma InflightMerge(a: Agg, b: Agg)
    ensures Merge(a, b).inflightIntegral == a.inflightIntegral + b.inflightIntegral
    ensures Merge(a, b).inflightPeak == if b.inflightPeak > a.inflightPeak then b.inflightPeak else a.inflightPeak
  {
  }

  /** The in-flight time of a slot is that of its settled samples together, and its peak is the highest of
      theirs. */
  lemma {:induction false} SamplesAddUp(ds: seq<Event>, s: Slot)
    ensures var row := Value(ds, s);
            && row.inflightIntegral == SumIntegral(ds, s)
            && (forall i: nat :: SampleOf(ds, i, s) ==> ds[i].sample.peak <= row.inflightPeak)
            && (row.inflightPeak > 0 ==> exists i: nat :: SampleOf(ds, i, s) && ds[i].sample.peak == row.inflightPeak)
  {
    if ds != [] {
      hide Judge, After, Effect, Merge;
      var n := |ds| - 1;
      var init, e := ds[..n], ds[n];
      assert ds == init + [e];
      SamplesAddUp(init, s);
      ValueSnoc(init, e, s);
      SampleInflight(After(init), e, s);
      InflightMerge(Value(init, s), Effect(After(init), e, s));
      hide Value;
      forall i: nat | i < n ensures SampleOf(ds, i, s) == SampleOf(init, i, s) {
        assert ds[..i] == init[..i];
      }
      if Value(ds, s).inflightPeak > 0 && Value(ds, s).inflightPeak == Value(init, s).inflightPeak {
        var i: nat :| SampleOf(init, i, s) && init[i].sample.peak == Value(init, s).inflightPeak;
        assert SampleOf(ds, i, s) && ds[i] == init[i];
      }
    }
  }
}
