/** Old ledger rows are deleted, and old events refused: as the ledger outlives the replay age, the
    deletion can never be seen. */
module LedgerPurges {
  import opened Settlement
  import opened SettlementRuns
  import opened Aggregates
  import opened Settler

  const LEDGER_RETENTION_MS: int := 31 * 24 * 3600 * 1000

  datatype Step = Delivery(entry: QueuedEvent, now: int) | Purge(now: int)

  /** The facts, and when each event in the ledger was processed. */
  datatype Books = Books(facts: Facts, processed: map<EventKey, int>)

  const NO_BOOKS := Books(NO_FACTS, map[])

  function Deliver(b: Books, e: QueuedEvent, now: int): Books {
    if Expired(e, now) || Judge(b.facts, e.event) != Settled then b
    else Books(Settle(b.facts, e.event), b.processed[KeyOf(e.event) := now])
  }

  /** Deletes the ledger rows that are past retention. */
  function Purged(b: Books, now: int): Books {
    var kept := map k | k in b.processed && b.processed[k] >= now - LEDGER_RETENTION_MS :: b.processed[k];
    Books(b.facts.(ledger := kept.Keys), kept)
  }

  function Next(b: Books, step: Step): Books {
    match step
    case Delivery(e, now) => Deliver(b, e, now)
    case Purge(now) => Purged(b, now)
  }

  function After(steps: seq<Step>): Books {
    if steps == [] then NO_BOOKS else Next(After(steps[..|steps| - 1]), steps[|steps| - 1])
  }

  /** What the deliveries of a run with purges add to a minute slot. */
  ghost function Written(steps: seq<Step>, s: Slot): Agg {
    if steps == [] then ZERO
    else
      var n := |steps| - 1;
      Merge(Written(steps[..n], s), Added(After(steps[..n]), steps[n], s))
  }

  ghost function Added(b: Books, step: Step, s: Slot): Agg {
    if Settles(b, step) then Effect(b.facts, step.entry.event, s) else ZERO
  }

  predicate Settles(b: Books, step: Step) {
    step.Delivery? && !Expired(step.entry, step.now) && Judge(b.facts, step.entry.event) == Settled
  }

  /** The events that were not refused for their age. */
  function Offered(steps: seq<Step>): seq<Event> {
    if steps == [] then []
    else
      var n := |steps| - 1;
      Offered(steps[..n])
      + if steps[n].Delivery? && !Expired(steps[n].entry, steps[n].now) then [steps[n].entry.event] else []
  }

  /** The same run as if nothing were ever deleted. */
  function Unpurged(steps: seq<Step>): Books {
    if steps == [] then NO_BOOKS
    else
      var b, step := Unpurged(steps[..|steps| - 1]), steps[|steps| - 1];
      if step.Delivery? then Deliver(b, step.entry, step.now) else b
  }

  /** The clock never goes back; and every entry of an event carries the event's own time, which
      has come when it is processed. */
  ghost predicate Timely(steps: seq<Step>, stamp: EventKey -> int) {
    && (forall i, j :: 0 <= i < j < |steps| ==> steps[i].now <= steps[j].now)
    && (forall i :: 0 <= i < |steps| && steps[i].Delivery? ==> IsStamped(steps[i], stamp))
  }

  predicate IsStamped(step: Step, stamp: EventKey -> int) {
    step.Delivery? ==> step.entry.at == stamp(KeyOf(step.entry.event)) <= step.now
  }

  // ------------------------------------------------------------------- the simulation

  /** What the purged books lack was processed more than the retention ago. */
  ghost predicate Simulates(b: Books, full: Books, now: int, stamp: EventKey -> int) {
    && b.facts.ledger == b.processed.Keys && full.facts.ledger == full.processed.Keys
    && b.facts.requests == full.facts.requests && b.facts.attempts == full.facts.attempts
    && b.processed.Keys <= full.processed.Keys
    && (forall k :: k in full.processed ==> Covered(b, full, now, stamp, k))
  }

  predicate Covered(b: Books, full: Books, now: int, stamp: EventKey -> int, k: EventKey)
    requires k in full.processed
  {
    && stamp(k) <= full.processed[k] <= now
    && (k in b.processed ==> b.processed[k] == full.processed[k])
    && (k !in b.processed ==> full.processed[k] < now - LEDGER_RETENTION_MS)
  }

  lemma SimulatesLater(b: Books, full: Books, now: int, later: int, stamp: EventKey -> int)
    requires Simulates(b, full, now, stamp) && now <= later
    ensures Simulates(b, full, later, stamp)
  {
    forall k | k in full.processed ensures Covered(b, full, later, stamp, k) {
      assert Covered(b, full, now, stamp, k);
    }
  }

  /** An event that is still accepted is in both ledgers or in neither. */
  lemma SameLedgerFor(b: Books, full: Books, step: Step, stamp: EventKey -> int)
    requires Simulates(b, full, step.now, stamp) && step.Delivery? && IsStamped(step, stamp)
    requires !Expired(step.entry, step.now)
    ensures KeyOf(step.entry.event) in b.facts.ledger <==> KeyOf(step.entry.event) in full.facts.ledger
  {
    var k := KeyOf(step.entry.event);
    if k in full.processed {
      assert Covered(b, full, step.now, stamp, k);
    }
  }

  /** Verdict, effect and facts depend on the ledger only by the event's own key. */
  lemma SameVerdict(f: Facts, g: Facts, e: Event, s: Slot)
    requires f.requests == g.requests && f.attempts == g.attempts && (KeyOf(e) in f.ledger <==> KeyOf(e) in g.ledger)
    ensures Judge(f, e) == Judge(g, e) && Effect(f, e, s) == Effect(g, e, s)
    ensures Settle(f, e).requests == Settle(g, e).requests && Settle(f, e).attempts == Settle(g, e).attempts
    ensures Settle(f, e).ledger == f.ledger + {KeyOf(e)}
  {
    hide UpdateFact, Sent, FreshFact, RequestEffect, AttemptEffect, SampleEffect;
    if e.EndEv? {
      assert AttemptsIn(f, e.end.uuid) == AttemptsIn(g, e.end.uuid);
    }
  }

  lemma DeliveryKeeps(b: Books, full: Books, step: Step, stamp: EventKey -> int, s: Slot)
    requires Simulates(b, full, step.now, stamp) && step.Delivery? && IsStamped(step, stamp)
    ensures Simulates(Deliver(b, step.entry, step.now), Deliver(full, step.entry, step.now), step.now, stamp)
    ensures Settles(b, step) == Settles(full, step) && Added(b, step, s) == Added(full, step, s)
  {
    hide Judge, Effect, Settle, KeyOf;
    var e, k := step.entry.event, KeyOf(step.entry.event);
    if !Expired(step.entry, step.now) {
      SameLedgerFor(b, full, step, stamp);
      SameVerdict(b.facts, full.facts, e, s);
      SameVerdict(full.facts, full.facts, e, s);
      if Settles(b, step) {
        var c, d := Deliver(b, step.entry, step.now), Deliver(full, step.entry, step.now);
        forall j | j in d.processed ensures Covered(c, d, step.now, stamp, j) {
          assert j != k ==> Covered(b, full, step.now, stamp, j);
        }
      }
    }
  }

  lemma PurgeKeeps(b: Books, full: Books, now: int, stamp: EventKey -> int)
    requires Simulates(b, full, now, stamp)
    ensures Simulates(Purged(b, now), full, now, stamp)
  {
    var c := Purged(b, now);
    forall k | k in full.processed ensures Covered(c, full, now, stamp, k) {
      assert Covered(b, full, now, stamp, k);
    }
  }

  lemma {:induction false} RunSimulates(steps: seq<Step>, stamp: EventKey -> int, now: int, s: Slot)
    requires Timely(steps, stamp) && (steps != [] ==> steps[|steps| - 1].now <= now)
    ensures Simulates(After(steps), Unpurged(steps), now, stamp)
    ensures Written(steps, s) == Value(Offered(steps), s)
  {
    hide Simulates, Judge, Effect, Settle, Deliver, Purged, Merge;
    if steps == [] {
      NothingSimulates(now, stamp);
    } else {
      var n := |steps| - 1;
      var prefix, step := steps[..n], steps[n];
      RunSimulates(prefix, stamp, step.now, s);
      assert IsStamped(step, stamp);
      if step.Delivery? {
        DeliveryKeeps(After(prefix), Unpurged(prefix), step, stamp, s);
      } else {
        PurgeKeeps(After(prefix), Unpurged(prefix), step.now, stamp);
      }
      SimulatesLater(After(steps), Unpurged(steps), step.now, now, stamp);
      WrittenGrows(steps, s);
    }
  }

  lemma NothingSimulates(now: int, stamp: EventKey -> int)
    ensures Simulates(NO_BOOKS, NO_BOOKS, now, stamp)
  {
  }

  lemma {:induction false} UnpurgedIsAfter(steps: seq<Step>)
    ensures Unpurged(steps).facts == SettlementRuns.After(Offered(steps))
  {
    hide Judge, Settle;
    if steps != [] {
      var n := |steps| - 1;
      UnpurgedIsAfter(steps[..n]);
      var before, all := Offered(steps[..n]), Offered(steps);
      if |all| > |before| {
        assert all[..|before|] == before;
      } else {
        assert all == before;
      }
    }
  }

  /** The slot grows by what the last step adds without purges, too. */
  lemma WrittenGrows(steps: seq<Step>, s: Slot)
    requires steps != [] && Written(steps[..|steps| - 1], s) == Value(Offered(steps[..|steps| - 1]), s)
    requires var n := |steps| - 1; Added(After(steps[..n]), steps[n], s) == Added(Unpurged(steps[..n]), steps[n], s)
    ensures Written(steps, s) == Value(Offered(steps), s)
  {
    hide Added, Merge, Expired, After, Unpurged, Offered, Value, SettlementRuns.After;
    var prefix, step := steps[..|steps| - 1], steps[|steps| - 1];
    UnpurgedIsAfter(prefix);
    OfferedOneMore(steps);
    AddsToValue(Unpurged(prefix), Offered(prefix), step, s);
  }

  lemma OfferedOneMore(steps: seq<Step>)
    requires steps != []
    ensures var before, step := Offered(steps[..|steps| - 1]), steps[|steps| - 1];
            Offered(steps)
            == if step.Delivery? && !Expired(step.entry, step.now) then before + [step.entry.event] else before
  {
    hide Expired;
  }

  lemma AddsToValue(b: Books, ds: seq<Event>, step: Step, s: Slot)
    requires b.facts == SettlementRuns.After(ds)
    ensures var offered := step.Delivery? && !Expired(step.entry, step.now);
            Merge(Value(ds, s), Added(b, step, s))
            == if offered then Value(ds + [step.entry.event], s) else Value(ds, s)
  {
    hide Judge, Effect, Merge, Expired, Value, SettlementRuns.After;
    MergeZero(Value(ds, s));
    if step.Delivery? {
      ValueOneMore(ds, step.entry.event, s);
    }
  }

  lemma ValueOneMore(ds: seq<Event>, e: Event, s: Slot)
    ensures var f := SettlementRuns.After(ds);
            Value(ds + [e], s) == if Judge(f, e) == Settled then Merge(Value(ds, s), Effect(f, e, s)) else Value(ds, s)
  {
    hide Judge, Effect, Merge, SettlementRuns.After;
    assert (ds + [e])[..|ds|] == ds;
  }

  // --------------------------------------------------------------------- the results

  /** A run with purges leaves the facts and the aggregates that it leaves without them. */
  lemma PurgesAreInvisible(steps: seq<Step>, stamp: EventKey -> int, s: Slot)
    requires Timely(steps, stamp)
    ensures var facts := SettlementRuns.After(Offered(steps));
            After(steps).facts.requests == facts.requests && After(steps).facts.attempts == facts.attempts
    ensures Written(steps, s) == Value(Offered(steps), s)
  {
    hide Written, Value;
    RunSimulates(steps, stamp, if steps == [] then 0 else steps[|steps| - 1].now, s);
    UnpurgedIsAfter(steps);
  }

  /** No event settles twice, however often it comes back and whatever was deleted in between. */
  lemma SettlesOnce(steps: seq<Step>, stamp: EventKey -> int, i: nat, j: nat)
    requires Timely(steps, stamp) && i < j < |steps|
    requires Settles(After(steps[..i]), steps[i]) && steps[j].Delivery?
    requires KeyOf(steps[i].entry.event) == KeyOf(steps[j].entry.event)
    ensures !Settles(After(steps[..j]), steps[j])
  {
    hide Written, Value;
    SettlesUnpurged(steps, stamp, i);
    SettlesUnpurged(steps, stamp, j);
    hide After, Settle, Effect;
    StaysSettled(steps, i, j);
  }

  lemma SettlesUnpurged(steps: seq<Step>, stamp: EventKey -> int, i: nat)
    requires Timely(steps, stamp) && i < |steps| && steps[i].Delivery?
    ensures Settles(After(steps[..i]), steps[i]) == Settles(Unpurged(steps[..i]), steps[i])
  {
    hide Written, Value, Simulates, Judge, After, Unpurged;
    var anywhere := Slot(0, Global(RequestFamily));
    RunSimulates(steps[..i], stamp, steps[i].now, anywhere);
    DeliveryKeeps(After(steps[..i]), Unpurged(steps[..i]), steps[i], stamp, anywhere);
  }

  /** Without purges, what has settled stays in the ledger. */
  lemma {:induction false} StaysSettled(steps: seq<Step>, i: nat, j: nat)
    requires i < j <= |steps| && steps[i].Delivery? && Settles(Unpurged(steps[..i]), steps[i])
    ensures KeyOf(steps[i].entry.event) in Unpurged(steps[..j]).facts.ledger
    decreases j
  {
    hide Judge, Effect;
    assert steps[..j][..j - 1] == steps[..j - 1];
    if i < j - 1 {
      StaysSettled(steps, i, j - 1);
    }
    SettledIsKnown(Unpurged(steps[..j - 1]).facts, steps[j - 1]);
  }

  lemma SettledIsKnown(f: Facts, step: Step)
    ensures step.Delivery? ==>
              Settle(f, step.entry.event).ledger == f.ledger + {KeyOf(step.entry.event)}
  {
    hide Completes, Completed, FreshFact;
  }
}
