/** The settler's queue: events wait until they are due, a pass applies the due ones, and those
    that cannot be applied yet come back with a longer wait. */
module SettlerQueue {
  import opened Settlement
  import opened SettlementRuns
  import opened Aggregates
  import opened Settler

  function Power(n: nat): nat { if n == 0 then 1 else 2 * Power(n - 1) }

  function Backoff(attempts: nat): nat {
    var wait := 1000 * Power(if attempts < 5 then attempts else 5);
    if wait > 30000 then 30000 else wait
  }

  function Again(e: QueuedEvent, now: nat): QueuedEvent {
    e.(attempts := e.attempts + 1, next := now + Backoff(e.attempts + 1))
  }

  function DueAt(q: seq<QueuedEvent>, now: nat): seq<QueuedEvent> {
    if q == [] then [] else DueAt(q[..|q| - 1], now) + if q[|q| - 1].next <= now then [q[|q| - 1]] else []
  }

  function WaitingAt(q: seq<QueuedEvent>, now: nat): seq<QueuedEvent> {
    if q == [] then [] else WaitingAt(q[..|q| - 1], now) + if q[|q| - 1].next <= now then [] else [q[|q| - 1]]
  }

  /** What a pass meets from outside: the clock and the failures of the storage, per event. */
  datatype Weather = Weather(clock: nat -> nat, fault: nat -> bool)

  datatype Pass = Pass(facts: Facts, delivered: seq<Event>, back: seq<QueuedEvent>)

  /** A pass over the first `n` due events. */
  function PassOf(f: Facts, due: seq<QueuedEvent>, w: Weather, n: nat): (p: Pass)
    requires n <= |due|
  {
    if n == 0 then Pass(f, [], [])
    else
      var p, e, now := PassOf(f, due, w, n - 1), due[n - 1], w.clock(n - 1);
      if Expired(e, now) then p
      else if w.fault(n - 1) then p.(back := p.back + [Again(e, now)])
      else
        Pass(Deliver(p.facts, e.event), p.delivered + [e.event],
             if Judge(p.facts, e.event) == Retry then p.back + [Again(e, now)] else p.back)
  }

  predicate SameEvent(a: QueuedEvent, b: QueuedEvent) { a.event == b.event && a.at == b.at }

  predicate Holds(q: seq<QueuedEvent>, e: QueuedEvent) { exists i :: 0 <= i < |q| && SameEvent(q[i], e) }

  /** An event is still queued, or settled, or past the replay age. */
  predicate Accounted(q: seq<QueuedEvent>, ledger: set<EventKey>, e: QueuedEvent, now: nat) {
    Holds(q, e) || KeyOf(e.event) in ledger || Expired(e, now)
  }

  // -------------------------------------------------------------- what a pass does

  lemma DeliverSettles(f: Facts, e: Event)
    ensures f.ledger <= Deliver(f, e).ledger
    ensures Judge(f, e) != Retry ==> KeyOf(e) in Deliver(f, e).ledger
    ensures Judge(f, e) == Retry ==> Deliver(f, e) == f
  {
    hide Completes, Completed, AttemptsIn, Sent, FreshFact;
  }

  /** No event of a pass is lost: each is queued again, settled, or past the replay age. */
  lemma {:induction false} PassLosesNothing(f: Facts, due: seq<QueuedEvent>, w: Weather, n: nat, end: nat)
    requires n <= |due| && forall i :: 0 <= i < n ==> w.clock(i) <= end
    ensures f.ledger <= PassOf(f, due, w, n).facts.ledger
    ensures forall i :: 0 <= i < n ==>
              Accounted(PassOf(f, due, w, n).back, PassOf(f, due, w, n).facts.ledger, due[i], end)
  {
    if n > 0 {
      hide Deliver, Judge;
      PassLosesNothing(f, due, w, n - 1, end);
      var p, r, e := PassOf(f, due, w, n - 1), PassOf(f, due, w, n), due[n - 1];
      DeliverSettles(p.facts, e.event);
      forall i | 0 <= i < n ensures Accounted(r.back, r.facts.ledger, due[i], end) {
        if i < n - 1 {
          forall j | 0 <= j < |p.back| ensures Holds(r.back, p.back[j]) {
            assert SameEvent(r.back[j], p.back[j]);
          }
          StaysAccounted(p.back, r.back, p.facts.ledger, r.facts.ledger, due[i], end, end);
        } else if !Expired(e, w.clock(n - 1)) && |r.back| > |p.back| {
          assert SameEvent(r.back[|p.back|], e);
        }
      }
    }
  }

  lemma StaysAccounted(q: seq<QueuedEvent>, r: seq<QueuedEvent>, k: set<EventKey>, l: set<EventKey>, e: QueuedEvent,
                       now: nat, later: nat)
    requires Accounted(q, k, e, now) && k <= l && now <= later
    requires forall i :: 0 <= i < |q| ==> Holds(r, q[i])
    ensures Accounted(r, l, e, later)
  {
  }

  /** A pass that shortens nothing changed nothing: every event either met a storage failure or
      still waits for events it depends on. */
  lemma {:induction false} StalledPass(f: Facts, due: seq<QueuedEvent>, w: Weather, n: nat)
    requires n <= |due|
    ensures |PassOf(f, due, w, n).back| <= n
    ensures |PassOf(f, due, w, n).back| == n ==>
              && PassOf(f, due, w, n).facts == f
              && forall i :: 0 <= i < n ==>
                   && SameEvent(PassOf(f, due, w, n).back[i], due[i])
                   && (w.fault(i) || Judge(f, due[i].event) == Retry)
  {
    if n > 0 {
      hide Deliver, Judge;
      StalledPass(f, due, w, n - 1);
      DeliverSettles(PassOf(f, due, w, n - 1).facts, due[n - 1].event);
    }
  }

  /** Every event of a queue is either due or waiting. */
  lemma SplitKeeps(q: seq<QueuedEvent>, now: nat)
    ensures forall i :: 0 <= i < |q| ==> q[i] in DueAt(q, now) || q[i] in WaitingAt(q, now)
    ensures |DueAt(q, now)| + |WaitingAt(q, now)| == |q|
    ensures (forall i :: 0 <= i < |q| ==> q[i].next <= now) ==> DueAt(q, now) == q
  {
    hide DueAt, WaitingAt;
    SplitSizes(q, now);
    forall i | 0 <= i < |q| ensures q[i] in DueAt(q, now) || q[i] in WaitingAt(q, now) {
      SplitHas(q, now, i);
    }
    if forall i :: 0 <= i < |q| ==> q[i].next <= now {
      AllAreDue(q, now);
    }
  }

  lemma {:induction false} SplitSizes(q: seq<QueuedEvent>, now: nat)
    ensures |DueAt(q, now)| + |WaitingAt(q, now)| == |q|
  {
    if q != [] {
      SplitSizes(q[..|q| - 1], now);
    }
  }

  lemma {:induction false} SplitHas(q: seq<QueuedEvent>, now: nat, i: nat)
    requires i < |q|
    ensures q[i] in DueAt(q, now) || q[i] in WaitingAt(q, now)
  {
    if i < |q| - 1 {
      SplitHas(q[..|q| - 1], now, i);
    }
  }

  lemma {:induction false} AllAreDue(q: seq<QueuedEvent>, now: nat)
    requires forall i :: 0 <= i < |q| ==> q[i].next <= now
    ensures DueAt(q, now) == q
  {
    if q != [] {
      AllAreDue(q[..|q| - 1], now);
      assert q == q[..|q| - 1] + [q[|q| - 1]];
    }
  }

  /** The waits between tries are 2, 4, 8 and 16 seconds, and then 30 for ever. */
  lemma WaitsDouble(e: QueuedEvent, now: nat)
    ensures var n := e.attempts + 1;
            Again(e, now).next
            == now + if n == 1 then 2000 else if n == 2 then 4000 else if n == 3 then 8000 else if n == 4 then 16000
                     else 30000
  {
    assert Power(1) == 2 && Power(2) == 4 && Power(3) == 8 && Power(4) == 16 && Power(5) == 32;
  }

  /** A drain takes the entries whose time has come, in order, and leaves the others. */
  lemma {:induction false} SplitIsByTime(q: seq<QueuedEvent>, now: nat, e: QueuedEvent)
    ensures e in DueAt(q, now) <==> e in q && e.next <= now
    ensures e in WaitingAt(q, now) <==> e in q && e.next > now
    ensures multiset(DueAt(q, now)) + multiset(WaitingAt(q, now)) == multiset(q)
  {
    if q != [] {
      var n := |q| - 1;
      SplitIsByTime(q[..n], now, e);
      assert q == q[..n] + [q[n]];
    }
  }

  /** A drain step accounts for every event of the queue. */
  lemma DrainLosesNothing(q: seq<QueuedEvent>, f: Facts, w: Weather, now: nat, end: nat, e: QueuedEvent)
    requires now <= end && forall i :: 0 <= i < |q| ==> w.clock(i) <= end
    requires Accounted(q, f.ledger, e, now)
    ensures var due := DueAt(q, now); var p := PassOf(f, due, w, |due|);
            Accounted(WaitingAt(q, now) + p.back, p.facts.ledger, e, end)
  {
    hide PassOf, DueAt, WaitingAt, KeyOf;
    SplitKeeps(q, now);
    var due, rest := DueAt(q, now), WaitingAt(q, now);
    PassLosesNothing(f, due, w, |due|, end);
    var p := PassOf(f, due, w, |due|);
    if Holds(q, e) {
      var i :| 0 <= i < |q| && SameEvent(q[i], e);
      if q[i] in due {
        var j :| 0 <= j < |due| && due[j] == q[i];
        SameAccount(p.back, p.facts.ledger, due[j], e, end);
      } else {
        assert Holds(rest, e);
      }
    }
    if Holds(rest, e) || Holds(p.back, e) {
      HoldsEither(rest, p.back, e);
    }
  }

  lemma HoldsEither(a: seq<QueuedEvent>, b: seq<QueuedEvent>, e: QueuedEvent)
    requires Holds(a, e) || Holds(b, e)
    ensures Holds(a + b, e)
  {
    if Holds(a, e) {
      var i :| 0 <= i < |a| && SameEvent(a[i], e);
      assert SameEvent((a + b)[i], e);
    } else {
      var i :| 0 <= i < |b| && SameEvent(b[i], e);
      assert SameEvent((a + b)[|a| + i], e);
    }
  }

  lemma SameAccount(q: seq<QueuedEvent>, ledger: set<EventKey>, e: QueuedEvent, f: QueuedEvent, now: nat)
    requires Accounted(q, ledger, e, now) && SameEvent(e, f)
    ensures Accounted(q, ledger, f, now)
  {
    if Holds(q, e) {
      var i :| 0 <= i < |q| && SameEvent(q[i], e);
      assert SameEvent(q[i], f);
    }
  }

  // ------------------------------------------------------------ where events come from

  /** The event of some accepted entry. */
  ghost predicate Known(accepted: set<QueuedEvent>, e: Event) { exists a :: a in accepted && a.event == e }

  ghost predicate AllKnown(accepted: set<QueuedEvent>, q: seq<QueuedEvent>) {
    forall i :: 0 <= i < |q| ==> Known(accepted, q[i].event)
  }

  ghost predicate AllApplied(accepted: set<QueuedEvent>, ds: seq<Event>) {
    forall i :: 0 <= i < |ds| ==> Known(accepted, ds[i])
  }

  /** Splitting a queue brings in nothing new. */
  lemma {:induction false} SplitIsKnown(accepted: set<QueuedEvent>, q: seq<QueuedEvent>, now: nat)
    requires AllKnown(accepted, q)
    ensures AllKnown(accepted, DueAt(q, now)) && AllKnown(accepted, WaitingAt(q, now))
  {
    hide Known;
    if q != [] {
      SplitIsKnown(accepted, q[..|q| - 1], now);
      assert Known(accepted, q[|q| - 1].event);
    }
  }

  /** Nor does a pass: what it applies and what it puts back is what it was given. */
  lemma {:induction false} PassIsKnown(accepted: set<QueuedEvent>, f: Facts, due: seq<QueuedEvent>, w: Weather, n: nat)
    requires AllKnown(accepted, due) && n <= |due|
    ensures AllKnown(accepted, PassOf(f, due, w, n).back) && AllApplied(accepted, PassOf(f, due, w, n).delivered)
  {
    hide Known, Deliver, Judge, Expired;
    if n > 0 {
      PassIsKnown(accepted, f, due, w, n - 1);
      assert Known(accepted, due[n - 1].event);
    }
  }

  lemma DrainIsKnown(accepted: set<QueuedEvent>, f: Facts, q: seq<QueuedEvent>, ds: seq<Event>, w: Weather, now: nat)
    requires AllKnown(accepted, q) && AllApplied(accepted, ds)
    ensures var due := DueAt(q, now); var p := PassOf(f, due, w, |due|);
            AllKnown(accepted, WaitingAt(q, now) + p.back) && AllApplied(accepted, ds + p.delivered)
  {
    hide Known, DueAt, WaitingAt, PassOf;
    SplitIsKnown(accepted, q, now);
    PassIsKnown(accepted, f, DueAt(q, now), w, |DueAt(q, now)|);
  }

  // ------------------------------------------------------------------- the settler

  ghost predicate Sums(written: Table, delivered: seq<Event>) {
    forall s :: At(written, s) == Value(delivered, s)
  }

  /** Nothing in the queue can be applied, apart from what the storage refuses. */
  predicate Stuck(q: seq<QueuedEvent>, f: Facts, w: Weather) {
    forall i :: 0 <= i < |q| ==> w.fault(i) || Judge(f, q[i].event) == Retry
  }

  /** A pass over a queue of due events that shortens nothing leaves it stuck. */
  lemma StalledIsStuck(q: seq<QueuedEvent>, f: Facts, w: Weather, now: nat)
    requires forall i :: 0 <= i < |q| ==> q[i].next <= now
    ensures q == [] ==> Stuck(q, f, w)
    ensures var due := DueAt(q, now); var p := PassOf(f, due, w, |due|); var after := WaitingAt(q, now) + p.back;
            |after| >= |q| ==> Stuck(after, p.facts, w)
  {
    hide PassOf, DueAt, WaitingAt, Judge;
    SplitKeeps(q, now);
    StalledPass(f, q, w, |q|);
    assert WaitingAt(q, now) == [];
    var p := PassOf(f, q, w, |q|);
    assert [] + p.back == p.back;
  }

  /** A queue that is stuck on sound storage, and that has lost none of the events of its
      requests, has settled them all. */
  lemma StuckMeansSettled(E: Universe, ds: seq<Event>, q: seq<QueuedEvent>, w: Weather)
    requires WellFormed(E) && EndsHaveStarts(E) && From(E, ds)
    requires Stuck(q, After(ds), w) && forall i :: 0 <= i < |q| ==> !w.fault(i)
    requires forall k :: k in E && k !in After(ds).ledger ==> exists i :: 0 <= i < |q| && q[i].event == E[k]
    ensures After(ds).ledger == E.Keys
  {
    var f := After(ds);
    DeliveriesClose(E, ds, Slot(0, Global(RequestFamily)));
    hide After, Sent, AttemptsIn, ClosedAt, Value, Total;
    forall k | k in E && k !in f.ledger ensures Judge(f, E[k]) == Retry {
      var i :| 0 <= i < |q| && q[i].event == E[k];
      assert Judge(f, q[i].event) == Retry;
    }
    assert forall k :: k in E ==> KeyOf(E[k]) == k;
    forall k | k in E ensures k in f.ledger {
      if k !in f.ledger {
        EndIsReady(E, f, E[k]);
      }
    }
  }

  class Worker {
    const db: Database
    var q: seq<QueuedEvent>
    var overflow: bool
    ghost var accepted: set<QueuedEvent>  // every event ever taken into the queue
    ghost var delivered: seq<Event>       // every event ever applied, in order, with repeats
    ghost var clock: nat

    /** The database is what the deliveries so far leave. */
    ghost predicate Faithful()
      reads this`delivered, db
    {
      db.Facts() == After(delivered) && Sums(db.written, delivered)
    }

    /** Every accepted event is still queued, or settled, or past the replay age. */
    ghost predicate NoneLost()
      reads this, db
    {
      forall e :: e in accepted ==> Accounted(q, db.ledger, e, clock)
    }

    /** Only accepted events are queued or have been applied. */
    ghost predicate NoneInvented()
      reads this`q, this`accepted, this`delivered
    {
      AllKnown(accepted, q) && AllApplied(accepted, delivered)
    }

    ghost predicate Valid()
      reads this, db
    {
      db.Valid() && Faithful() && NoneLost() && NoneInvented()
    }

    constructor (db: Database)
      requires db.Valid() && db.Facts() == NO_FACTS && db.written == map[]
      ensures Valid() && this.db == db && q == [] && accepted == {} && delivered == [] && !overflow
    {
      this.db := db;
      q, overflow := [], false;
      accepted, delivered, clock := {}, [], 0;
    }

    /** Takes an event unless it is past the replay age or the queue is full; a zero time
        stands for the present. */
    method Enqueue(event: Event, at: int, now: nat)
      requires Valid() && clock <= now
      modifies this`q, this`overflow, this`accepted, this`clock
      ensures Valid() && clock == now
      ensures var e := QueuedEvent(event, 0, now, if at == 0 then now else at);
              if Expired(e, now)
              then q == old(q) && overflow == old(overflow) && accepted == old(accepted)
              else if |old(q)| >= QUEUE_LIMIT
              then q == old(q) && overflow && accepted == old(accepted)
              else q == old(q) + [e] && overflow == old(overflow) && accepted == old(accepted) + {e}
    {
      hide After, Sums, Database.Valid;
      var stamp := at;
      if stamp == 0 {
        stamp := now;
      }
      clock := now;
      if now - stamp > REPLAY_REJECT_MS {
        return;
      }
      if |q| >= QUEUE_LIMIT {
        overflow := true;
        return;
      }
      var e := QueuedEvent(event, 0, now, stamp);
      q := q + [e];
      accepted := accepted + {e};
      assert SameEvent(q[|q| - 1], e);
      forall a | a in accepted ensures Accounted(q, db.ledger, a, now) {
        if a != e {
          forall i | 0 <= i < |old(q)| ensures Holds(q, old(q)[i]) {
            assert SameEvent(q[i], old(q)[i]);
          }
          StaysAccounted(old(q), q, db.ledger, db.ledger, a, old(clock), now);
        }
      }
      AcceptsOneMore(old(accepted), e, old(q), delivered);
    }

    static lemma AcceptsOneMore(accepted: set<QueuedEvent>, e: QueuedEvent, q: seq<QueuedEvent>, ds: seq<Event>)
      requires AllKnown(accepted, q) && AllApplied(accepted, ds)
      ensures AllKnown(accepted + {e}, q + [e]) && AllApplied(accepted + {e}, ds)
    {
      var more := accepted + {e};
      assert e in more;
      forall x | Known(accepted, x) ensures Known(more, x) {
        var a :| a in accepted && a.event == x;
        assert a in more;
      }
    }

    /** Applies one due event, as far as the storage lets it. */
    method Apply(e: QueuedEvent, now: nat, fault: bool) returns (ok: bool)
      requires db.Valid() && Faithful()
      modifies this`delivered, db
      ensures db.Valid() && Faithful()
      ensures var applied := !Expired(e, now) && !fault;
              && delivered == old(delivered) + (if applied then [e.event] else [])
              && db.Facts() == (if applied then Deliver(old(db.Facts()), e.event) else old(db.Facts()))
              && ok == (Expired(e, now) || (!fault && Judge(old(db.Facts()), e.event) != Retry))
    {
      hide Merge, Effect, Settle, Judge, Database.Valid;
      if !Expired(e, now) && fault {
        return false;
      }
      ok := db.Process(e, now);
      if !Expired(e, now) {
        delivered := delivered + [e.event];
        assert delivered[..|delivered| - 1] == old(delivered);
      }
    }

    /** One pass: the due events leave the queue, and those that fail come back. */
    method DrainOnce(now: nat, w: Weather, end: nat)
      requires Valid() && clock <= now <= end
      requires forall i: nat :: now <= w.clock(i) <= end
      modifies this`q, this`delivered, this`clock, db
      ensures Valid() && clock == end
      ensures var due := DueAt(old(q), now);
              var p := PassOf(old(db.Facts()), due, w, |due|);
              && q == WaitingAt(old(q), now) + p.back
              && db.Facts() == p.facts
              && delivered == old(delivered) + p.delivered
    {
      hide Faithful, Database.Valid, AllKnown, AllApplied, Accounted, PassOf, DueAt, WaitingAt;
      DrainIsKnown(accepted, db.Facts(), q, delivered, w, now);
      var due, rest := Partition(now);
      q := rest;
      RunPass(due, w);
      clock := end;
      forall e | e in accepted ensures Accounted(q, db.ledger, e, end) {
        StillAccounted(old(q), old(db.ledger), e, old(clock), now);
        DrainLosesNothing(old(q), old(db.Facts()), w, now, end, e);
      }
    }

    /** The events that are due, and those that still wait. */
    method Partition(now: nat) returns (due: seq<QueuedEvent>, rest: seq<QueuedEvent>)
      ensures due == DueAt(q, now) && rest == WaitingAt(q, now)
    {
      due, rest := [], [];
      for i := 0 to |q|
        invariant due == DueAt(q[..i], now) && rest == WaitingAt(q[..i], now)
      {
        assert q[..i + 1][..i] == q[..i];
        if q[i].next <= now {
          due := due + [q[i]];
        } else {
          rest := rest + [q[i]];
        }
      }
      assert q[..|q|] == q;
    }

    /** Applies the due events in order, and puts back those that fail. */
    method RunPass(due: seq<QueuedEvent>, w: Weather)
      requires db.Valid() && Faithful()
      modifies this`q, this`delivered, db
      ensures db.Valid() && Faithful()
      ensures var p := PassOf(old(db.Facts()), due, w, |due|);
              q == old(q) + p.back && db.Facts() == p.facts && delivered == old(delivered) + p.delivered
    {
      hide Faithful, Deliver, Judge, Backoff, Again, Database.Valid, Expired;
      for i := 0 to |due|
        invariant db.Valid() && Faithful()
        invariant q == old(q) + PassOf(old(db.Facts()), due, w, i).back
        invariant db.Facts() == PassOf(old(db.Facts()), due, w, i).facts
        invariant delivered == old(delivered) + PassOf(old(db.Facts()), due, w, i).delivered
      {
        var ok := Apply(due[i], w.clock(i), w.fault(i));
        if !ok {
          q := q + [Again(due[i], w.clock(i))];
        }
      }
    }

    /** Shutdown: passes that ignore the waits, until the queue is empty or a pass makes no
        progress. What is left met a storage failure in the last pass, or waits for an event it
        depends on. */
    method DrainFinal(clocks: nat -> nat, ws: nat -> Weather) returns (ghost last: nat)
      requires Valid() && clock <= clocks(0)
      requires forall k: nat :: clocks(k) <= clocks(k + 1)
      requires forall k: nat, i: nat :: clocks(k) <= ws(k).clock(i) <= clocks(k + 1)
      modifies this`q, this`delivered, this`clock, db
      ensures Valid() && old(delivered) <= delivered
      ensures Stuck(q, db.Facts(), ws(last)) && (q == [] || clock == clocks(last + 1)) && clock <= clocks(last + 1)
    {
      hide Valid, Stuck, DueAt, WaitingAt, PassOf;
      var pass := 0;
      while true
        invariant Valid() && clock <= clocks(pass) && old(delivered) <= delivered
        decreases |q|
      {
        var before := q;
        Rush();
        StalledIsStuck(q, db.Facts(), ws(pass), clocks(pass));
        last := pass;
        if |before| == 0 {
          return;
        }
        DrainOnce(clocks(pass), ws(pass), clocks(pass + 1));
        if |q| >= |before| {
          return;
        }
        pass := pass + 1;
      }
    }

    /** Makes every queued event due at once. */
    method Rush()
      requires Valid()
      modifies this`q
      ensures Valid() && |q| == |old(q)|
      ensures forall i :: 0 <= i < |q| ==> q[i] == old(q)[i].(next := 0)
    {
      hide Faithful, Database.Valid, Expired, Known;
      for i := 0 to |q|
        invariant |q| == |old(q)|
        invariant forall j :: 0 <= j < |q| ==> q[j] == if j < i then old(q)[j].(next := 0) else old(q)[j]
      {
        q := q[i := q[i].(next := 0)];
      }
      forall e | e in accepted ensures Accounted(q, db.ledger, e, clock) {
        if Holds(old(q), e) {
          var i :| 0 <= i < |old(q)| && SameEvent(old(q)[i], e);
          assert SameEvent(q[i], e);
        }
      }
    }

    static lemma StillAccounted(q: seq<QueuedEvent>, k: set<EventKey>, e: QueuedEvent, now: nat, later: nat)
      requires Accounted(q, k, e, now) && now <= later
      ensures Accounted(q, k, e, later)
    {
    }
  }

  predicate StuckSoundly(q: seq<QueuedEvent>, f: Facts, w: Weather) {
    Stuck(q, f, w) && forall i :: 0 <= i < |q| ==> !w.fault(i)
  }

  /** Every event of the requests was taken into the queue, and is still within the replay age. */
  ghost predicate InTime(E: Universe, accepted: set<QueuedEvent>, now: nat) {
    forall k :: k in E ==> exists e :: e in accepted && e.event == E[k] && !Expired(e, now)
  }

  lemma UnsettledIsQueued(E: Universe, worker: Worker)
    requires worker.NoneLost() && InTime(E, worker.accepted, worker.clock) && forall k :: k in E ==> KeyOf(E[k]) == k
    ensures forall k :: k in E && k !in worker.db.ledger ==>
              exists i :: 0 <= i < |worker.q| && worker.q[i].event == E[k]
  {
    forall k | k in E && k !in worker.db.ledger ensures exists i :: 0 <= i < |worker.q| && worker.q[i].event == E[k] {
      var e :| e in worker.accepted && e.event == E[k] && !Expired(e, worker.clock);
      assert Accounted(worker.q, worker.db.ledger, e, worker.clock);
      var i :| 0 <= i < |worker.q| && SameEvent(worker.q[i], e);
    }
  }

  /** What was taken into the queue are events of the requests. */
  ghost predicate AcceptedFrom(E: Universe, accepted: set<QueuedEvent>) {
    forall a :: a in accepted ==> KeyOf(a.event) in E && E[KeyOf(a.event)] == a.event
  }

  lemma DeliveredFrom(E: Universe, accepted: set<QueuedEvent>, ds: seq<Event>)
    requires AcceptedFrom(E, accepted) && AllApplied(accepted, ds)
    ensures From(E, ds)
  {
    hide KeyOf;
    forall i | 0 <= i < |ds| ensures KeyOf(ds[i]) in E && E[KeyOf(ds[i])] == ds[i] {
      assert Known(accepted, ds[i]);
    }
  }

  /** The events, and the requests they belong to, as the gateway emits them. */
  ghost predicate Emitted(E: Universe, es: seq<Event>) { WellFormed(E) && EndsHaveStarts(E) && Canonical(E, es) }

  /** End to end: when a shutdown on sound storage leaves its queue stuck, and every event of the
      requests was accepted in time, the database holds exactly what applying each event once in
      the canonical order gives. */
  lemma ShutdownSettlesEverything(worker: Worker, E: Universe, es: seq<Event>, w: Weather, s: Slot)
    requires Emitted(E, es) && AcceptedFrom(E, worker.accepted) && InTime(E, worker.accepted, worker.clock)
    requires worker.Valid() && StuckSoundly(worker.q, worker.db.Facts(), w)
    ensures worker.db.Facts() == After(es)
    ensures At(worker.db.written, s) == Value(es, s)
  {
    hide Judge, Value, Canonical, Database.Valid, Stuck, EndsHaveStarts, After, InTime, Accounted;
    assert worker.db.Facts() == After(worker.delivered) && Sums(worker.db.written, worker.delivered);
    DeliveredFrom(E, worker.accepted, worker.delivered);
    UnsettledIsQueued(E, worker);
    StuckMeansSettled(E, worker.delivered, worker.q, w);
    ExactlyOnce(E, worker.delivered, es, s);
  }

  /** A shutdown on sound storage, all within the replay age of what was accepted, leaves exactly
      what the canonical order gives. */
  method ShutDown(worker: Worker, clocks: nat -> nat, ws: nat -> Weather, ghost E: Universe, ghost es: seq<Event>,
                  ghost horizon: nat)
    requires worker.Valid() && worker.clock <= clocks(0)
    requires forall k: nat :: clocks(k) <= clocks(k + 1)
    requires forall k: nat :: clocks(k) <= horizon
    requires forall k: nat, i: nat :: clocks(k) <= ws(k).clock(i) <= clocks(k + 1)
    requires forall k: nat, i: nat :: !ws(k).fault(i)
    requires Emitted(E, es) && AcceptedFrom(E, worker.accepted) && InTime(E, worker.accepted, horizon)
    modifies worker, worker.db
    ensures worker.Valid() && worker.accepted == old(worker.accepted)
    ensures worker.db.Facts() == After(es)
    ensures Sums(worker.db.written, es)
  {
    hide Emitted, AcceptedFrom, InTime, Worker.Valid, Stuck, After, Value;
    ghost var last := worker.DrainFinal(clocks, ws);
    TimeLeft(E, worker.accepted, worker.clock, horizon);
    ShutdownSettlesAll(worker, E, es, ws(last));
  }

  lemma ShutdownSettlesAll(worker: Worker, E: Universe, es: seq<Event>, w: Weather)
    requires Emitted(E, es) && AcceptedFrom(E, worker.accepted) && InTime(E, worker.accepted, worker.clock)
    requires worker.Valid() && StuckSoundly(worker.q, worker.db.Facts(), w)
    ensures worker.db.Facts() == After(es) && Sums(worker.db.written, es)
  {
    hide Emitted, AcceptedFrom, InTime, Worker.Valid, StuckSoundly, After, Value;
    ShutdownSettlesEverything(worker, E, es, w, Slot(0, Global(RequestFamily)));
    forall s ensures At(worker.db.written, s) == Value(es, s) {
      ShutdownSettlesEverything(worker, E, es, w, s);
    }
  }

  lemma TimeLeft(E: Universe, accepted: set<QueuedEvent>, now: nat, horizon: nat)
    requires InTime(E, accepted, horizon) && now <= horizon
    ensures InTime(E, accepted, now)
  {
    forall k | k in E ensures exists e :: e in accepted && e.event == E[k] && !Expired(e, now) {
      var e :| e in accepted && e.event == E[k] && !Expired(e, horizon);
      assert !Expired(e, now);
    }
  }
}
