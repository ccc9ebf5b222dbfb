/** Exactly-once settlement: whatever the order, duplication and retries of deliveries, the
    facts and aggregates depend only on which events were settled. */
module SettlementRuns {
  import opened Wrappers
  import opened Aggregates
  import opened Settlement

  const NO_FACTS := Facts({}, map[], map[])

  function Deliver(f: Facts, e: Event): Facts { if Judge(f, e) == Settled then Settle(f, e) else f }

  /** The facts after a sequence of deliveries, in which an event may occur any number of times. */
  function After(ds: seq<Event>): Facts {
    if ds == [] then NO_FACTS else Deliver(After(ds[..|ds| - 1]), ds[|ds| - 1])
  }

  /** What those deliveries add up to in a minute slot. */
  ghost function Value(ds: seq<Event>, s: Slot): Agg {
    if ds == [] then ZERO
    else
      var f, e := After(ds[..|ds| - 1]), ds[|ds| - 1];
      var before := Value(ds[..|ds| - 1], s);
      if Judge(f, e) == Settled then Merge(before, Effect(f, e, s)) else before
  }

  // ----------------------------------------------------------------- the events

  type Universe = map<EventKey, Event>

  function AttemptsOf(E: Universe, u: Uuid): set<AttemptFact> {
    set k | k in E && E[k].AttemptEv? && E[k].attempt.requestUuid == u :: E[k].attempt
  }

  predicate UnsentAreFree(attempts: set<AttemptFact>) {
    forall a :: a in attempts && !a.httpSent ==> a.estimatedCost == Some(0)
  }

  /** What the gateway promises about the events it emits: a key names one event, an attempt
      that was never sent costs nothing, and an end counts the attempts that were sent. */
  ghost predicate WellFormed(E: Universe) {
    && (forall k :: k in E ==> KeyOf(E[k]) == k)
    && (forall k :: k in E && E[k].AttemptEv? && !E[k].attempt.httpSent ==> E[k].attempt.estimatedCost == Some(0))
    && (forall k :: k in E && E[k].EndEv? ==>
          !E[k].end.interrupted && E[k].end.httpAttempts == |Sent(AttemptsOf(E, E[k].end.uuid))|)
  }

  predicate From(E: Universe, ds: seq<Event>) {
    forall i :: 0 <= i < |ds| ==> KeyOf(ds[i]) in E && E[KeyOf(ds[i])] == ds[i]
  }

  function FinalFact(E: Universe, u: Uuid): RequestFact
    requires StartKey(u) in E && EndKey(u) in E && E[StartKey(u)].StartEv? && E[EndKey(u)].EndEv?
  {
    UpdateFact(FreshFact(E[StartKey(u)].start), E[EndKey(u)].end, AttemptsOf(E, u))
  }

  /** What the facts of one uuid are, given which of its events have settled. */
  ghost predicate ClosedAt(E: Universe, f: Facts, u: Uuid)
    requires WellFormed(E) && f.ledger <= E.Keys
  {
    && (u in f.attempts <==> AttemptKey(u) in f.ledger)
    && (u in f.attempts ==> KeyOf(E[AttemptKey(u)]) == AttemptKey(u) && f.attempts[u] == E[AttemptKey(u)].attempt)
    && (u in f.requests <==> StartKey(u) in f.ledger)
    && (EndKey(u) in f.ledger ==> StartKey(u) in f.ledger)
    && (u in f.requests ==>
          && KeyOf(E[StartKey(u)]) == StartKey(u)
          && (EndKey(u) in f.ledger ==> KeyOf(E[EndKey(u)]) == EndKey(u))
          && f.requests[u] == if EndKey(u) in f.ledger then FinalFact(E, u) else FreshFact(E[StartKey(u)].start))
  }

  /** The facts as a function of the set of settled events. */
  ghost predicate Closed(E: Universe, f: Facts)
    requires WellFormed(E)
  {
    f.ledger <= E.Keys && forall u :: ClosedAt(E, f, u)
  }

  // ------------------------------------------------- an end sees its attempts

  lemma SameSizeSubset<T>(a: set<T>, b: set<T>)
    requires a <= b && |a| >= |b|
    ensures a == b
  {
    if b <= a {
    } else {
      var x :| x in b && x !in a;
      SameSizeSubset(a, b - {x});
      assert false;
    }
  }

  lemma {:induction false} UnsentAddNothing(attempts: set<AttemptFact>)
    requires UnsentAreFree(attempts)
    ensures SumCost(attempts) == SumCost(Sent(attempts))
    decreases |attempts|
  {
    if attempts == {} {
      assert Sent(attempts) == {};
    } else {
      var a :| a in attempts;
      SumCostRemove(attempts, a);
      UnsentAddNothing(attempts - {a});
      if a.httpSent {
        assert Sent(attempts - {a}) == Sent(attempts) - {a};
        SumCostRemove(Sent(attempts), a);
      } else {
        assert Sent(attempts - {a}) == Sent(attempts);
      }
    }
  }

  /** Everything settlement reads from attempts is decided by those that were sent. */
  lemma SentDecides(f: RequestFact, p: RequestEnd, a: set<AttemptFact>, b: set<AttemptFact>, series: Series)
    requires UnsentAreFree(a) && UnsentAreFree(b) && Sent(a) == Sent(b)
    ensures UpdateFact(f, p, a) == UpdateFact(f, p, b)
    ensures ContributionOf(f, a, series) == ContributionOf(f, b, series)
  {
    UnsentAddNothing(a);
    UnsentAddNothing(b);
    forall x ensures x in a && x.httpSent <==> x in b && x.httpSent {
      assert x in Sent(a) <==> x in Sent(b);
    }
    assert CostKnown(a) == CostKnown(b);
    if series.Provider? {
      assert SentBy(a, series.id) == SentBy(b, series.id);
    }
  }

  lemma AttemptsAreOfUniverse(E: Universe, f: Facts, u: Uuid)
    requires WellFormed(E) && Closed(E, f)
    ensures AttemptsIn(f, u) <= AttemptsOf(E, u)
    ensures UnsentAreFree(AttemptsIn(f, u)) && UnsentAreFree(AttemptsOf(E, u))
  {
    forall a | a in AttemptsIn(f, u) ensures a in AttemptsOf(E, u) {
      var k :| k in f.attempts && f.attempts[k].requestUuid == u && f.attempts[k] == a;
      assert ClosedAt(E, f, k);
      assert E[AttemptKey(k)].AttemptEv? && E[AttemptKey(k)].attempt == a;
    }
  }

  /** When an end settles, every attempt it counts has settled before it. */
  lemma EndSeesItsAttempts(E: Universe, f: Facts, e: Event)
    requires WellFormed(E) && Closed(E, f) && e.EndEv? && KeyOf(e) in E && E[KeyOf(e)] == e
    requires Judge(f, e) == Settled && Completes(f, e)
    ensures Sent(AttemptsIn(f, e.end.uuid)) == Sent(AttemptsOf(E, e.end.uuid))
  {
    var u := e.end.uuid;
    AttemptsAreOfUniverse(E, f, u);
    SameSizeSubset(Sent(AttemptsIn(f, u)), Sent(AttemptsOf(E, u)));
  }

  /** The effect of an event, read off the universe alone. */
  ghost function EffectOf(E: Universe, k: EventKey, s: Slot): Agg
    requires k in E
  {
    match E[k]
    case StartEv(p) => ZERO
    case AttemptEv(p) => AttemptEffect(p, s)
    case EndEv(p) =>
      if StartKey(p.uuid) in E && E[StartKey(p.uuid)].StartEv? && EndKey(p.uuid) in E && E[EndKey(p.uuid)].EndEv?
         && E[StartKey(p.uuid)].start.business
      then RequestEffect(FinalFact(E, p.uuid), AttemptsOf(E, p.uuid), s) else ZERO
    case SampleEv(p) => SampleEffect(p, s)
  }

  lemma SettleKeepsClosed(E: Universe, f: Facts, e: Event)
    requires WellFormed(E) && Closed(E, f) && KeyOf(e) in E && E[KeyOf(e)] == e && Judge(f, e) == Settled
    ensures Closed(E, Settle(f, e)) && KeyOf(e) !in f.ledger && Settle(f, e).ledger == f.ledger + {KeyOf(e)}
  {
    if e.EndEv? {
      EndKeepsClosed(E, f, e);
    } else {
      OthersKeepClosed(E, f, e);
    }
  }

  lemma OthersKeepClosed(E: Universe, f: Facts, e: Event)
    requires WellFormed(E) && Closed(E, f) && KeyOf(e) in E && E[KeyOf(e)] == e && Judge(f, e) == Settled && !e.EndEv?
    ensures Closed(E, Settle(f, e))
  {
    hide UpdateFact, FinalFact, FreshFact, AttemptsOf, AttemptsIn, Sent, WellFormed;
    assert KeyOf(E[KeyOf(e)]) == KeyOf(e);
    forall u ensures ClosedAt(E, Settle(f, e), u) {
      assert ClosedAt(E, f, u);
    }
  }

  lemma EndWritesFinalFact(E: Universe, f: Facts, e: Event)
    requires WellFormed(E) && Closed(E, f) && KeyOf(e) in E && E[KeyOf(e)] == e && Judge(f, e) == Settled && e.EndEv?
    ensures var u := e.end.uuid;
            && StartKey(u) in E && E[StartKey(u)].StartEv?
            && Settle(f, e) == f.(ledger := f.ledger + {KeyOf(e)}, requests := f.requests[u := FinalFact(E, u)])
  {
    var u := e.end.uuid;
    NotYetComplete(E, f, e);
    EndSeesItsAttempts(E, f, e);
    AttemptsAreOfUniverse(E, f, u);
    assert ClosedAt(E, f, u);
    assert f.requests[u] == FreshFact(E[StartKey(u)].start);
    hide Closed;
    SentDecides(f.requests[u], e.end, AttemptsIn(f, u), AttemptsOf(E, u), Global(RequestFamily));
    hide UpdateFact;
  }

  lemma EndKeepsClosed(E: Universe, f: Facts, e: Event)
    requires WellFormed(E) && Closed(E, f) && KeyOf(e) in E && E[KeyOf(e)] == e && Judge(f, e) == Settled && e.EndEv?
    ensures Closed(E, Settle(f, e))
  {
    EndWritesFinalFact(E, f, e);
    NotYetComplete(E, f, e);
    hide FinalFact, Settle, FreshFact, Judge, AttemptsOf, AttemptsIn, Sent, WellFormed;
    forall u ensures ClosedAt(E, Settle(f, e), u) {
      assert ClosedAt(E, f, u);
    }
  }

  lemma NotYetComplete(E: Universe, f: Facts, e: Event)
    requires WellFormed(E) && Closed(E, f) && KeyOf(e) in E && E[KeyOf(e)] == e && Judge(f, e) == Settled && e.EndEv?
    ensures Completes(f, e)
  {
    assert ClosedAt(E, f, e.end.uuid);
  }

  lemma SettleHasEffect(E: Universe, f: Facts, e: Event, s: Slot)
    requires WellFormed(E) && Closed(E, f) && KeyOf(e) in E && E[KeyOf(e)] == e && Judge(f, e) == Settled
    ensures Effect(f, e, s) == EffectOf(E, KeyOf(e), s)
  {
    hide UpdateFact, Merge, EndDelta, AttemptDelta;
    if e.EndEv? {
      var u := e.end.uuid;
      NotYetComplete(E, f, e);
      EndSeesItsAttempts(E, f, e);
      AttemptsAreOfUniverse(E, f, u);
      assert ClosedAt(E, f, u);
      SentDecides(f.requests[u], e.end, AttemptsIn(f, u), AttemptsOf(E, u), s.series);
      SentDecides(FinalFact(E, u), e.end, AttemptsIn(f, u), AttemptsOf(E, u), s.series);
      FreshSource(E[StartKey(u)].start);
    }
  }

  lemma FreshSource(p: RequestStart)
    ensures FreshFact(p).business == p.business
  {
  }

  // ------------------------------------------------------------------- totals

  ghost function Total(E: Universe, keys: set<EventKey>, s: Slot): Agg
    requires keys <= E.Keys
  {
    if keys == {} then ZERO else var k :| k in keys; Merge(Total(E, keys - {k}, s), EffectOf(E, k, s))
  }

  lemma {:induction false} TotalRemove(E: Universe, keys: set<EventKey>, k: EventKey, s: Slot)
    requires keys <= E.Keys && k in keys
    ensures Total(E, keys, s) == Merge(Total(E, keys - {k}, s), EffectOf(E, k, s))
    decreases |keys|
  {
    hide Merge, EffectOf;
    var j :| j in keys && Total(E, keys, s) == Merge(Total(E, keys - {j}, s), EffectOf(E, j, s));
    if j != k {
      TotalRemove(E, keys - {j}, k, s);
      TotalRemove(E, keys - {k}, j, s);
      assert keys - {j} - {k} == keys - {k} - {j};
      MergeSwaps(Total(E, keys - {j} - {k}, s), EffectOf(E, k, s), EffectOf(E, j, s));
    }
  }

  /** The facts and the value of every slot are functions of the settled set alone. */
  lemma {:induction false} DeliveriesClose(E: Universe, ds: seq<Event>, s: Slot)
    requires WellFormed(E) && From(E, ds)
    ensures Closed(E, After(ds)) && Value(ds, s) == Total(E, After(ds).ledger, s)
  {
    hide Merge, Effect, EffectOf, Judge, Settle;
    if ds != [] {
      var f, e := After(ds[..|ds| - 1]), ds[|ds| - 1];
      DeliveriesClose(E, ds[..|ds| - 1], s);
      if Judge(f, e) == Settled {
        SettleKeepsClosed(E, f, e);
        SettleHasEffect(E, f, e, s);
        var keys := Settle(f, e).ledger;
        TotalRemove(E, keys, KeyOf(e), s);
        assert keys - {KeyOf(e)} == f.ledger;
      }
      hide Closed;
    } else {
      hide Total, From;
      NothingClosed(E);
      NothingTotals(E, s);
    }
  }

  lemma NothingClosed(E: Universe)
    requires WellFormed(E)
    ensures Closed(E, NO_FACTS)
  {
  }

  lemma NothingTotals(E: Universe, s: Slot)
    ensures Total(E, {}, s) == ZERO
  {
  }

  lemma ClosedIsUnique(E: Universe, f: Facts, g: Facts)
    requires WellFormed(E) && Closed(E, f) && Closed(E, g) && f.ledger == g.ledger
    ensures f == g
  {
    hide FinalFact, FreshFact, WellFormed;
    forall u ensures (u in f.attempts <==> u in g.attempts) && (u in f.requests <==> u in g.requests)
      ensures (u in f.attempts ==> f.attempts[u] == g.attempts[u])
              && (u in f.requests ==> f.requests[u] == g.requests[u])
    {
      assert ClosedAt(E, f, u) && ClosedAt(E, g, u);
    }
    assert f.attempts == g.attempts;
    assert f.requests == g.requests;
  }

  /** Two delivery sequences that settle the same events end in the same facts and aggregates. */
  lemma OrderDoesNotMatter(E: Universe, ds: seq<Event>, es: seq<Event>, s: Slot)
    requires WellFormed(E) && From(E, ds) && From(E, es) && After(ds).ledger == After(es).ledger
    ensures After(ds) == After(es) && Value(ds, s) == Value(es, s)
  {
    hide Closed, Value, Total;
    DeliveriesClose(E, ds, s);
    DeliveriesClose(E, es, s);
    ClosedIsUnique(E, After(ds), After(es));
  }

  // --------------------------------------------------------- the canonical order

  /** Each distinct event once, requests' ends after everything else. */
  ghost predicate Canonical(E: Universe, es: seq<Event>) {
    && From(E, es)
    && (forall k :: k in E ==> exists i :: 0 <= i < |es| && KeyOf(es[i]) == k)
    && (forall i, j :: 0 <= i < j < |es| ==> KeyOf(es[i]) != KeyOf(es[j]))
    && (forall i, j :: 0 <= i < j < |es| && es[i].EndEv? ==> es[j].EndEv?)
  }

  ghost predicate EndsHaveStarts(E: Universe) {
    forall k :: k in E && E[k].EndEv? ==> StartKey(E[k].end.uuid) in E
  }

  /** Once everything it depends on has settled, an end settles. */
  lemma EndIsReady(E: Universe, f: Facts, e: Event)
    requires WellFormed(E) && EndsHaveStarts(E) && Closed(E, f)
    requires e.EndEv? && KeyOf(e) in E && E[KeyOf(e)] == e && KeyOf(e) !in f.ledger
    requires forall k :: k in E && !E[k].EndEv? ==> k in f.ledger
    ensures Judge(f, e) == Settled
  {
    var u := e.end.uuid;
    assert KeyOf(E[StartKey(u)]) == StartKey(u);
    assert ClosedAt(E, f, u);
    forall a | a in AttemptsOf(E, u) ensures a in AttemptsIn(f, u) {
      var k :| k in E && E[k].AttemptEv? && E[k].attempt.requestUuid == u && E[k].attempt == a;
      assert KeyOf(E[k]) == k;
      assert ClosedAt(E, f, a.uuid);
    }
    AttemptsAreOfUniverse(E, f, u);
    assert AttemptsIn(f, u) == AttemptsOf(E, u);
  }

  lemma CanonicalStep(E: Universe, es: seq<Event>, n: nat, f: Facts)
    requires WellFormed(E) && EndsHaveStarts(E) && Canonical(E, es) && n < |es|
    requires Closed(E, f) && f.ledger == set i | 0 <= i < n :: KeyOf(es[i])
    ensures Judge(f, es[n]) == Settled
  {
    var e := es[n];
    assert KeyOf(e) !in f.ledger;
    if e.EndEv? {
      forall k | k in E && !E[k].EndEv? ensures k in f.ledger {
        var i :| 0 <= i < |es| && KeyOf(es[i]) == k;
        assert i < n;
      }
      hide Closed, WellFormed;
      EndIsReady(E, f, e);
    }
  }

  lemma {:induction false} CanonicalSettlesPrefix(E: Universe, es: seq<Event>, n: nat)
    requires WellFormed(E) && EndsHaveStarts(E) && Canonical(E, es) && n <= |es|
    ensures After(es[..n]).ledger == set i | 0 <= i < n :: KeyOf(es[i])
  {
    hide Closed, WellFormed, Canonical, EndsHaveStarts, Judge, Value, Total;
    if n > 0 {
      CanonicalSettlesPrefix(E, es, n - 1);
      assert es[..n][..n - 1] == es[..n - 1];
      CanonicalIsFrom(E, es);
      DeliveriesClose(E, es[..n - 1], Slot(0, Global(RequestFamily)));
      CanonicalStep(E, es, n - 1, After(es[..n - 1]));
    }
  }

  lemma CanonicalSettlesAll(E: Universe, es: seq<Event>)
    requires WellFormed(E) && EndsHaveStarts(E) && Canonical(E, es)
    ensures After(es).ledger == E.Keys
  {
    CanonicalSettlesPrefix(E, es, |es|);
    assert es[..|es|] == es;
    forall k | k in E.Keys ensures k in After(es).ledger {
      var i :| 0 <= i < |es| && KeyOf(es[i]) == k;
    }
  }

  /** Any arrival order with duplicates and retries, once it has settled everything, leaves what
      applying each distinct event once in the canonical order leaves. */
  lemma ExactlyOnce(E: Universe, ds: seq<Event>, es: seq<Event>, s: Slot)
    requires WellFormed(E) && EndsHaveStarts(E) && From(E, ds) && Canonical(E, es)
    requires After(ds).ledger == E.Keys
    ensures After(ds) == After(es) && Value(ds, s) == Value(es, s)
  {
    hide Value, Canonical;
    CanonicalSettlesAll(E, es);
    assert From(E, es) by { CanonicalIsFrom(E, es); }
    OrderDoesNotMatter(E, ds, es, s);
  }

  lemma CanonicalIsFrom(E: Universe, es: seq<Event>)
    requires Canonical(E, es)
    ensures From(E, es)
  {
  }
}
