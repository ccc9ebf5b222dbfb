/** The provider rows against the global rows: in each bucket they tell the same story. */
module SettlementBalance {
  import opened Wrappers
  import opened Aggregates
  import opened Settlement
  import opened SettlementRuns

  ghost predicate NoRepeats(ids: seq<nat>) { forall i, j :: 0 <= i < j < |ids| ==> ids[i] != ids[j] }

  // ------------------------------------------------------------ attempt family

  /** The merge of the provider rows of a bucket. */
  ghost function ProviderRows(ds: seq<Event>, family: Family, bucket: int, ids: seq<nat>): Agg {
    if ids == [] then ZERO
    else Merge(ProviderRows(ds, family, bucket, ids[1..]), Value(ds, Slot(bucket, Provider(family, ids[0]))))
  }

  /** All but the in-flight samples, which are taken for the whole gateway only. */
  function WithoutInflight(a: Agg): Agg { a.(inflightIntegral := 0.0, inflightPeak := 0) }

  lemma {:induction false} NoDeliveries(family: Family, bucket: int, ids: seq<nat>)
    ensures ProviderRows([], family, bucket, ids) == ZERO
  {
    hide Merge;
    if ids != [] {
      NoDeliveries(family, bucket, ids[1..]);
      MergeZero(ZERO);
    }
  }

  /** A delivery that leaves the provider slots alone leaves their merge alone. */
  lemma {:induction false} RowsUnchanged(ds: seq<Event>, e: Event, family: Family, bucket: int, ids: seq<nat>)
    requires forall i :: 0 <= i < |ids| ==>
               Value(ds + [e], Slot(bucket, Provider(family, ids[i])))
               == Value(ds, Slot(bucket, Provider(family, ids[i])))
    ensures ProviderRows(ds + [e], family, bucket, ids) == ProviderRows(ds, family, bucket, ids)
  {
    hide Merge, Value;
    if ids != [] {
      RowsUnchanged(ds, e, family, bucket, ids[1..]);
    }
  }

  lemma {:induction false} OneRowGrows(ds: seq<Event>, e: Event, family: Family, bucket: int, ids: seq<nat>, id: nat,
                                       delta: Agg)
    requires NoRepeats(ids) && id in ids
    requires forall p :: Value(ds + [e], Slot(bucket, Provider(family, p)))
                         == if p == id then Merge(Value(ds, Slot(bucket, Provider(family, p))), delta)
                            else Value(ds, Slot(bucket, Provider(family, p)))
    ensures ProviderRows(ds + [e], family, bucket, ids) == Merge(ProviderRows(ds, family, bucket, ids), delta)
  {
    hide Merge, Value;
    var rest := ProviderRows(ds, family, bucket, ids[1..]);
    var head := Value(ds, Slot(bucket, Provider(family, ids[0])));
    if ids[0] == id {
      RowsUnchanged(ds, e, family, bucket, ids[1..]);
      MergeAssociates(rest, head, delta);
    } else {
      OneRowGrows(ds, e, family, bucket, ids[1..], id, delta);
      MergeSwaps(rest, delta, head);
    }
  }

  lemma ValueSnoc(ds: seq<Event>, e: Event, s: Slot)
    ensures Value(ds + [e], s)
         == if Judge(After(ds), e) == Settled then Merge(Value(ds, s), Effect(After(ds), e, s)) else Value(ds, s)
  {
    hide Merge, Effect, Judge;
    assert (ds + [e])[..|ds|] == ds;
  }

  predicate Covers(ids: seq<nat>, ds: seq<Event>) {
    forall i :: 0 <= i < |ds| && ds[i].AttemptEv? ==> ds[i].attempt.providerId in ids
  }

  lemma AttemptFamilyEffect(f: Facts, e: Event, s: Slot)
    requires s.series.family == AttemptFamily && !e.AttemptEv?
    ensures s.series.Provider? ==> Effect(f, e, s) == ZERO
    ensures s.series.Global? ==> WithoutInflight(Effect(f, e, s)) == ZERO
  {
    match e
    case StartEv(p) =>
    case EndEv(p) =>
      hide Completed, AttemptsIn, SampleEffect, RequestEffect;
      if Completes(f, e) {
        RequestsSkipAttempts(p, f, s);
      }
    case SampleEv(p) =>
      hide Completed, Completes, AttemptsIn, RequestEffect;
  }

  lemma RequestsSkipAttempts(p: RequestEnd, f: Facts, s: Slot)
    requires s.series.family == AttemptFamily && p.uuid in f.requests
    ensures RequestEffect(Completed(f, p), AttemptsIn(f, p.uuid), s) == ZERO
  {
    hide Completed, AttemptsIn, EndDelta, Merge;
  }

  lemma StripMerge(a: Agg, b: Agg)
    ensures WithoutInflight(Merge(a, b)) == Merge(WithoutInflight(a), WithoutInflight(b))
  {
  }

  /** In every attempt bucket, after any deliveries, the provider rows merge to the global row. */
  lemma {:induction false} ProvidersMakeGlobal(ds: seq<Event>, bucket: int, ids: seq<nat>)
    requires NoRepeats(ids) && Covers(ids, ds)
    ensures ProviderRows(ds, AttemptFamily, bucket, ids)
         == WithoutInflight(Value(ds, Slot(bucket, Global(AttemptFamily))))
  {
    hide Merge, Value, Effect, Judge, WithoutInflight;
    var global := Slot(bucket, Global(AttemptFamily));
    if ds == [] {
      NoDeliveries(AttemptFamily, bucket, ids);
      StripZero(global);
    } else {
      var init, e := ds[..|ds| - 1], ds[|ds| - 1];
      assert ds == init + [e];
      ProvidersMakeGlobal(init, bucket, ids);
      ValueSnoc(init, e, global);
      forall p: nat ensures Value(ds, Slot(bucket, Provider(AttemptFamily, p)))
          == if Judge(After(init), e) == Settled
             then Merge(Value(init, Slot(bucket, Provider(AttemptFamily, p))),
                        Effect(After(init), e, Slot(bucket, Provider(AttemptFamily, p))))
             else Value(init, Slot(bucket, Provider(AttemptFamily, p))) {
        ValueSnoc(init, e, Slot(bucket, Provider(AttemptFamily, p)));
      }
      if Judge(After(init), e) != Settled {
        RowsUnchanged(init, e, AttemptFamily, bucket, ids);
      } else {
        var delta := Effect(After(init), e, global);
        StripMerge(Value(init, global), delta);
        if e.AttemptEv? {
          AttemptCounts(init, e, bucket, ids);
        } else {
          OthersDoNot(init, e, bucket, ids);
        }
      }
    }
  }

  lemma StripZero(s: Slot)
    ensures WithoutInflight(Value([], s)) == ZERO
  {
  }

  lemma AttemptCounts(ds: seq<Event>, e: Event, bucket: int, ids: seq<nat>)
    requires NoRepeats(ids) && e.AttemptEv? && e.attempt.providerId in ids
    requires forall p: nat :: Value(ds + [e], Slot(bucket, Provider(AttemptFamily, p)))
                              == Merge(Value(ds, Slot(bucket, Provider(AttemptFamily, p))),
                                       Effect(After(ds), e, Slot(bucket, Provider(AttemptFamily, p))))
    ensures ProviderRows(ds + [e], AttemptFamily, bucket, ids)
         == Merge(ProviderRows(ds, AttemptFamily, bucket, ids),
                  WithoutInflight(Effect(After(ds), e, Slot(bucket, Global(AttemptFamily)))))
  {
    hide Merge, Value;
    var delta := Effect(After(ds), e, Slot(bucket, Global(AttemptFamily)));
    assert WithoutInflight(delta) == delta;
    forall p: nat ensures Value(ds + [e], Slot(bucket, Provider(AttemptFamily, p)))
        == if p == e.attempt.providerId then Merge(Value(ds, Slot(bucket, Provider(AttemptFamily, p))), delta)
           else Value(ds, Slot(bucket, Provider(AttemptFamily, p))) {
      MergeZero(Value(ds, Slot(bucket, Provider(AttemptFamily, p))));
    }
    OneRowGrows(ds, e, AttemptFamily, bucket, ids, e.attempt.providerId, delta);
  }

  lemma OthersDoNot(ds: seq<Event>, e: Event, bucket: int, ids: seq<nat>)
    requires !e.AttemptEv?
    requires forall p: nat :: Value(ds + [e], Slot(bucket, Provider(AttemptFamily, p)))
                              == Merge(Value(ds, Slot(bucket, Provider(AttemptFamily, p))),
                                       Effect(After(ds), e, Slot(bucket, Provider(AttemptFamily, p))))
    ensures ProviderRows(ds + [e], AttemptFamily, bucket, ids)
         == Merge(ProviderRows(ds, AttemptFamily, bucket, ids),
                  WithoutInflight(Effect(After(ds), e, Slot(bucket, Global(AttemptFamily)))))
  {
    hide Merge, Value, Effect, WithoutInflight;
    AttemptFamilyEffect(After(ds), e, Slot(bucket, Global(AttemptFamily)));
    forall p: nat ensures Value(ds + [e], Slot(bucket, Provider(AttemptFamily, p)))
        == Value(ds, Slot(bucket, Provider(AttemptFamily, p))) {
      AttemptFamilyEffect(After(ds), e, Slot(bucket, Provider(AttemptFamily, p)));
      MergeZero(Value(ds, Slot(bucket, Provider(AttemptFamily, p))));
    }
    RowsUnchanged(ds, e, AttemptFamily, bucket, ids);
    MergeZero(ProviderRows(ds, AttemptFamily, bucket, ids));
  }

  // ------------------------------------------------------------ request family

  /** How much of a total is split among the given providers, one cost each. */
  ghost function CostsBy(attempts: set<AttemptFact>, ids: seq<nat>): int {
    if ids == [] then 0 else CostsBy(attempts, ids[1..]) + SumCost(SentBy(attempts, ids[0]))
  }

  lemma {:induction false} CostsOfNothing(ids: seq<nat>)
    ensures CostsBy({}, ids) == 0
  {
    if ids != [] {
      CostsOfNothing(ids[1..]);
      assert SentBy({}, ids[0]) == {};
    }
  }

  lemma {:induction false} CostsWithout(attempts: set<AttemptFact>, a: AttemptFact, ids: seq<nat>)
    requires a in attempts && a.httpSent && NoRepeats(ids)
    ensures CostsBy(attempts, ids) == CostsBy(attempts - {a}, ids) + if a.providerId in ids then Cost(a) else 0
  {
    if ids != [] {
      CostsWithout(attempts, a, ids[1..]);
      if a.providerId == ids[0] {
        SumCostRemove(SentBy(attempts, ids[0]), a);
        assert SentBy(attempts - {a}, ids[0]) == SentBy(attempts, ids[0]) - {a};
        assert a.providerId !in ids[1..];
      } else {
        assert SentBy(attempts - {a}, ids[0]) == SentBy(attempts, ids[0]);
      }
    }
  }

  /** The costs of the sent attempts, provider by provider, add up to all of them. */
  lemma {:induction false} CostsSplit(attempts: set<AttemptFact>, ids: seq<nat>)
    requires NoRepeats(ids) && forall a :: a in attempts ==> a.httpSent && a.providerId in ids
    ensures CostsBy(attempts, ids) == SumCost(attempts)
    decreases |attempts|
  {
    if attempts == {} {
      CostsOfNothing(ids);
    } else {
      var a :| a in attempts;
      CostsWithout(attempts, a, ids);
      CostsSplit(attempts - {a}, ids);
      SumCostRemove(attempts, a);
    }
  }

  lemma {:induction false} CostsOfSent(attempts: set<AttemptFact>, ids: seq<nat>)
    ensures CostsBy(attempts, ids) == CostsBy(Sent(attempts), ids)
  {
    if ids != [] {
      CostsOfSent(attempts, ids[1..]);
      assert SentBy(attempts, ids[0]) == SentBy(Sent(attempts), ids[0]);
    }
  }

  ghost function ProviderCosts(ds: seq<Event>, bucket: int, ids: seq<nat>): int {
    if ids == [] then 0
    else ProviderCosts(ds, bucket, ids[1..]) + Value(ds, Slot(bucket, Provider(RequestFamily, ids[0]))).knownCost
  }

  ghost function ProviderRevenue(ds: seq<Event>, bucket: int, ids: seq<nat>): int {
    if ids == [] then 0
    else ProviderRevenue(ds, bucket, ids[1..]) + Value(ds, Slot(bucket, Provider(RequestFamily, ids[0]))).knownRevenue
  }

  ghost function EffectCosts(f: Facts, e: Event, bucket: int, ids: seq<nat>): int {
    if ids == [] then 0
    else EffectCosts(f, e, bucket, ids[1..]) + Effect(f, e, Slot(bucket, Provider(RequestFamily, ids[0]))).knownCost
  }

  ghost function EffectRevenue(f: Facts, e: Event, bucket: int, ids: seq<nat>): int {
    if ids == [] then 0
    else
      EffectRevenue(f, e, bucket, ids[1..]) + Effect(f, e, Slot(bucket, Provider(RequestFamily, ids[0]))).knownRevenue
  }

  lemma {:induction false} MoneySnoc(ds: seq<Event>, e: Event, bucket: int, ids: seq<nat>)
    ensures var settled := Judge(After(ds), e) == Settled;
            && ProviderCosts(ds + [e], bucket, ids)
               == ProviderCosts(ds, bucket, ids) + (if settled then EffectCosts(After(ds), e, bucket, ids) else 0)
            && ProviderRevenue(ds + [e], bucket, ids)
               == ProviderRevenue(ds, bucket, ids) + (if settled then EffectRevenue(After(ds), e, bucket, ids) else 0)
  {
    hide Value, Effect, Judge;
    if ids != [] {
      MoneySnoc(ds, e, bucket, ids[1..]);
      ValueSnoc(ds, e, Slot(bucket, Provider(RequestFamily, ids[0])));
    }
  }

  lemma {:induction false} NoMoney(bucket: int, ids: seq<nat>)
    ensures ProviderCosts([], bucket, ids) == 0 == ProviderRevenue([], bucket, ids)
  {
    if ids != [] {
      NoMoney(bucket, ids[1..]);
    }
  }

  /** An event that completes no business request moves no money in the request family. */
  predicate Pays(f: Facts, e: Event) { Completes(f, e) && f.requests[e.end.uuid].business }

  lemma NoPay(f: Facts, e: Event, s: Slot)
    requires !Pays(f, e) && s.series.family == RequestFamily
    ensures Effect(f, e, s).knownCost == 0 == Effect(f, e, s).knownRevenue
  {
  }

  lemma {:induction false} NoPayAtAll(f: Facts, e: Event, bucket: int, ids: seq<nat>)
    requires !Pays(f, e)
    ensures EffectCosts(f, e, bucket, ids) == 0 == EffectRevenue(f, e, bucket, ids)
  {
    hide Effect;
    if ids != [] {
      NoPay(f, e, Slot(bucket, Provider(RequestFamily, ids[0])));
      NoPayAtAll(f, e, bucket, ids[1..]);
    }
  }

  predicate OnTime(f: Facts, e: Event, bucket: int) {
    Pays(f, e) && bucket == MinuteOf(e.end.completedAt)
  }

  /** The final provider of a successful request, if it has a sent attempt. */
  predicate Winner(f: Facts, e: Event, id: nat) {
    && Pays(f, e) && e.end.success && e.end.finalProvider == Some(id)
    && SentBy(AttemptsIn(f, e.end.uuid), id) != {}
  }

  lemma EffectMoney(fact: RequestFact, attempts: set<AttemptFact>, s: Slot)
    requires fact.completedAt.Some?
    ensures var effect := RequestEffect(fact, attempts, s);
            match ContributionOf(fact, attempts, s.series)
            case None => effect.knownCost == 0 == effect.knownRevenue
            case Some(c) =>
              var now := s.bucket == MinuteOf(fact.completedAt.value);
              && effect.knownCost == (if now then c.cost else 0)
              && effect.knownRevenue == (if now then Amount(c.revenue) else 0)
  {
    hide ContributionOf, Merge, EndDelta;
    var c := ContributionOf(fact, attempts, s.series);
    if c.Some? {
      EndDeltaMoney(fact, c.value);
      MergeMoney(OnBucket(s.bucket == MinuteOf(fact.startedAt), START_DELTA),
                 OnBucket(s.bucket == MinuteOf(fact.completedAt.value), EndDelta(fact, c.value)));
    }
  }

  lemma MergeMoney(a: Agg, b: Agg)
    ensures Merge(a, b).knownCost == a.knownCost + b.knownCost
    ensures Merge(a, b).knownRevenue == a.knownRevenue + b.knownRevenue
  {
  }

  lemma EndDeltaMoney(f: RequestFact, c: Contribution)
    ensures EndDelta(f, c).knownCost == c.cost && EndDelta(f, c).knownRevenue == Amount(c.revenue)
  {
  }

  lemma CompletedFields(f: Facts, p: RequestEnd)
    requires p.uuid in f.requests
    ensures var fact := Completed(f, p);
            && fact.completedAt == Some(p.completedAt)
            && fact.success == p.success
            && fact.finalProvider == p.finalProvider
  {
    hide Reasons, CostKnown, AttemptsIn;
  }

  lemma PayOf(f: Facts, e: Event, bucket: int, id: nat)
    requires Pays(f, e)
    ensures var provider := Effect(f, e, Slot(bucket, Provider(RequestFamily, id)));
            var attempts := AttemptsIn(f, e.end.uuid);
            && provider.knownCost == (if OnTime(f, e, bucket) then SumCost(SentBy(attempts, id)) else 0)
            && provider.knownRevenue
               == (if OnTime(f, e, bucket) && Winner(f, e, id) then Amount(Completed(f, e.end).revenue) else 0)
    ensures var global := Effect(f, e, Slot(bucket, Global(RequestFamily)));
            var attempts := AttemptsIn(f, e.end.uuid);
            && global.knownCost == (if OnTime(f, e, bucket) then SumCost(attempts) else 0)
            && global.knownRevenue == (if OnTime(f, e, bucket) then Amount(Completed(f, e.end).revenue) else 0)
  {
    hide Completed, AttemptsIn, RequestEffect, SentBy;
    var fact, attempts := Completed(f, e.end), AttemptsIn(f, e.end.uuid);
    CompletedFields(f, e.end);
    EffectMoney(fact, attempts, Slot(bucket, Provider(RequestFamily, id)));
    EffectMoney(fact, attempts, Slot(bucket, Global(RequestFamily)));
  }

  lemma {:induction false} PaysProviders(f: Facts, e: Event, bucket: int, ids: seq<nat>)
    requires Pays(f, e) && NoRepeats(ids)
    ensures EffectCosts(f, e, bucket, ids)
         == if OnTime(f, e, bucket) then CostsBy(AttemptsIn(f, e.end.uuid), ids) else 0
    ensures EffectRevenue(f, e, bucket, ids)
         == if OnTime(f, e, bucket) && (exists i :: 0 <= i < |ids| && Winner(f, e, ids[i]))
            then Amount(Completed(f, e.end).revenue) else 0
  {
    hide Effect, Completed, Pays;
    if ids != [] {
      PaysProviders(f, e, bucket, ids[1..]);
      PayOf(f, e, bucket, ids[0]);
      assert forall i :: 0 <= i < |ids[1..]| ==> ids[1..][i] == ids[i + 1];
      assert Winner(f, e, ids[0]) ==> forall i :: 0 < i < |ids| ==> !Winner(f, e, ids[i]);
      if i :| 0 < i < |ids| && Winner(f, e, ids[i]) {
        assert ids[1..][i - 1] == ids[i];
      }
    }
  }

  /** The attempts stored for a request cost nothing unless they were sent. */
  ghost predicate FreeUnlessSent(ds: seq<Event>) {
    forall i :: 0 <= i < |ds| && ds[i].AttemptEv? && !ds[i].attempt.httpSent ==> ds[i].attempt.estimatedCost == Some(0)
  }

  ghost predicate Stored(ds: seq<Event>, a: AttemptFact) { AttemptEv(a) in ds }

  lemma {:induction false} AttemptsWereDelivered(ds: seq<Event>, u: Uuid)
    ensures u in After(ds).attempts ==> Stored(ds, After(ds).attempts[u])
  {
    if ds != [] {
      AttemptsWereDelivered(ds[..|ds| - 1], u);
    }
  }

  lemma StoredAttempts(ds: seq<Event>, u: Uuid, ids: seq<nat>)
    requires FreeUnlessSent(ds) && Covers(ids, ds)
    ensures UnsentAreFree(AttemptsIn(After(ds), u))
    ensures forall a :: a in AttemptsIn(After(ds), u) ==> a.providerId in ids
  {
    hide After;
    forall a | a in AttemptsIn(After(ds), u)
      ensures (!a.httpSent ==> a.estimatedCost == Some(0)) && a.providerId in ids
    {
      var k :| k in After(ds).attempts && After(ds).attempts[k] == a;
      AttemptsWereDelivered(ds, k);
    }
  }

  /** In every request bucket the provider costs add up to the global cost. */
  lemma {:induction false} ProviderCostsMakeGlobal(ds: seq<Event>, bucket: int, ids: seq<nat>)
    requires NoRepeats(ids) && Covers(ids, ds) && FreeUnlessSent(ds)
    ensures ProviderCosts(ds, bucket, ids) == Value(ds, Slot(bucket, Global(RequestFamily))).knownCost
  {
    hide Value, Effect, Judge, Pays, Completed, OnTime;
    if ds == [] {
      NoMoney(bucket, ids);
      NoValue(Slot(bucket, Global(RequestFamily)));
    } else {
      var init, e := ds[..|ds| - 1], ds[|ds| - 1];
      assert ds == init + [e];
      var f := After(init);
      ProviderCostsMakeGlobal(init, bucket, ids);
      MoneySnoc(init, e, bucket, ids);
      ValueSnoc(init, e, Slot(bucket, Global(RequestFamily)));
      if Pays(f, e) {
        PayIsEnd(f, e);
        PaysProviders(f, e, bucket, ids);
        PayOf(f, e, bucket, 0);
        var attempts := AttemptsIn(f, e.end.uuid);
        StoredAttempts(init, e.end.uuid, ids);
        UnsentAddNothing(attempts);
        CostsOfSent(attempts, ids);
        CostsSplit(Sent(attempts), ids);
      } else {
        NoPayAtAll(f, e, bucket, ids);
        NoPay(f, e, Slot(bucket, Global(RequestFamily)));
      }
    }
  }

  lemma PayIsEnd(f: Facts, e: Event)
    requires Pays(f, e)
    ensures e.EndEv?
  {
  }

  lemma NoValue(s: Slot)
    ensures Value([], s).knownCost == 0 == Value([], s).knownRevenue
  {
  }

  /** Every revenue that was booked went to a final provider with a sent attempt. */
  ghost predicate RevenueHasWinner(ds: seq<Event>, ids: seq<nat>) {
    forall i :: 0 <= i < |ds| && Judge(After(ds[..i]), ds[i]) == Settled && Pays(After(ds[..i]), ds[i])
                && Amount(Completed(After(ds[..i]), ds[i].end).revenue) != 0 ==>
      exists j :: 0 <= j < |ids| && Winner(After(ds[..i]), ds[i], ids[j])
  }

  lemma WinnersOfPrefix(ds: seq<Event>, ids: seq<nat>)
    requires ds != [] && RevenueHasWinner(ds, ids)
    ensures RevenueHasWinner(ds[..|ds| - 1], ids)
  {
    hide After, Judge, Pays, Completed, Winner;
    var init := ds[..|ds| - 1];
    forall i | 0 <= i < |init| ensures init[..i] == ds[..i] {}
  }

  /** Provider revenue adds up to the global revenue when every winner has a sent attempt. */
  lemma {:induction false} ProviderRevenueMakesGlobal(ds: seq<Event>, bucket: int, ids: seq<nat>)
    requires NoRepeats(ids) && RevenueHasWinner(ds, ids)
    ensures ProviderRevenue(ds, bucket, ids) == Value(ds, Slot(bucket, Global(RequestFamily))).knownRevenue
  {
    hide Value, Effect, Judge, Pays, Completed, OnTime, Winner;
    if ds == [] {
      NoMoney(bucket, ids);
      NoValue(Slot(bucket, Global(RequestFamily)));
    } else {
      var init, e := ds[..|ds| - 1], ds[|ds| - 1];
      assert ds == init + [e];
      var f := After(init);
      WinnersOfPrefix(ds, ids);
      ProviderRevenueMakesGlobal(init, bucket, ids);
      MoneySnoc(init, e, bucket, ids);
      ValueSnoc(init, e, Slot(bucket, Global(RequestFamily)));
      if Pays(f, e) {
        PayIsEnd(f, e);
        PaysProviders(f, e, bucket, ids);
        PayOf(f, e, bucket, 0);
      } else {
        NoPayAtAll(f, e, bucket, ids);
        NoPay(f, e, Slot(bucket, Global(RequestFamily)));
      }
    }
  }
}
