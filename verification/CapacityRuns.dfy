/** When the rate check of a key counts its reservations, and when it counts one of them twice. */
module CapacityRuns {
  import opened Wrappers
  import opened Capacity

  predicate Ordered(w: seq<int>) { forall i, j :: 0 <= i < j < |w| ==> w[i] <= w[j] }

  /** The window of a key is in order, and its last minute is that of the reservations that were
      not refunded. */
  ghost predicate Exact(b: Books, clock: int, k: Id) {
    InOrder(WindowOf(b.rpm, k), clock) && Counted(b, clock, k)
  }

  predicate InOrder(w: seq<int>, clock: int) { Ordered(w) && forall i :: 0 <= i < |w| ==> w[i] <= clock }

  ghost predicate Counted(b: Books, clock: int, k: Id) {
    multiset(Keep(WindowOf(b.rpm, k), clock - MINUTE)) == Times(b.tickets, k, clock - MINUTE)
  }

  // --------------------------------------------------------------------- windows

  lemma {:induction false} KeptIsLater(w: seq<int>, cut: int, a: int)
    requires a in Keep(w, cut)
    ensures a in w && a > cut
  {
    if w != [] && a in Keep(w[..|w| - 1], cut) {
      KeptIsLater(w[..|w| - 1], cut, a);
    }
  }

  lemma {:induction false} KeepOrders(w: seq<int>, cut: int)
    requires Ordered(w)
    ensures Ordered(Keep(w, cut))
  {
    if w != [] {
      var n := |w| - 1;
      var kept := Keep(w[..n], cut);
      KeepOrders(w[..n], cut);
      forall i | 0 <= i < |kept| ensures kept[i] <= w[n] {
        KeptIsLater(w[..n], cut, kept[i]);
      }
    }
  }

  lemma {:induction false} KeepAll(w: seq<int>, cut: int)
    requires |Keep(w, cut)| == |w|
    ensures Keep(w, cut) == w
  {
    if w != [] {
      KeepAll(w[..|w| - 1], cut);
    }
  }

  /** A window that loses part of its entries keeps the latest one. */
  lemma LatestIsKept(w: seq<int>, cut: int)
    requires Ordered(w) && Keep(w, cut) != []
    ensures w != [] && w[|w| - 1] > cut
  {
    KeptIsLater(w, cut, Keep(w, cut)[0]);
  }

  lemma KeepAgain(w: seq<int>, cut: int)
    ensures multiset(Keep(Keep(w, cut), cut)) == multiset(Keep(w, cut))
  {
    hide Keep;
    forall a ensures multiset(Keep(Keep(w, cut), cut))[a] == multiset(Keep(w, cut))[a] {
      KeepCounts(Keep(w, cut), cut, a);
      KeepCounts(w, cut, a);
    }
  }

  /** A window that holds no more than the reservations after `cut` still does when older
      entries go. */
  lemma KeepStaysWithin(ts: seq<Ticket>, k: Id, w: seq<int>, cut: int, later: int)
    requires multiset(Keep(w, cut)) <= Times(ts, k, cut) && cut <= later
    ensures multiset(Keep(w, later)) <= Times(ts, k, later)
  {
    hide Keep, Times;
    forall a ensures multiset(Keep(w, later))[a] <= Times(ts, k, later)[a] {
      TimesCut(ts, k, cut, later, a);
      KeepCounts(w, later, a);
      KeepCounts(w, cut, a);
      assert multiset(Keep(w, cut))[a] <= Times(ts, k, cut)[a];
    }
  }

  lemma {:induction false} KeepAppends(v: seq<int>, w: seq<int>, cut: int)
    ensures Keep(v + w, cut) == Keep(v, cut) + Keep(w, cut)
  {
    if w == [] {
      assert v + w == v;
    } else {
      assert (v + w)[..|v + w| - 1] == v + w[..|w| - 1];
      KeepAppends(v, w[..|w| - 1], cut);
    }
  }

  // ----------------------------------------------------------------- one key, one step

  /** Time alone keeps a window exact. */
  lemma ExactLater(b: Books, clock: int, now: int, k: Id)
    requires Exact(b, clock, k) && clock <= now
    ensures Exact(b, now, k)
  {
    hide Keep, Times;
    var w, ts := WindowOf(b.rpm, k), b.tickets;
    KeepIsPart(w, clock - MINUTE);
    KeepCovers(ts, k, w, clock - MINUTE, now - MINUTE);
    KeepStaysWithin(ts, k, w, clock - MINUTE, now - MINUTE);
  }

  /** A counter refusal that drops some entries and keeps others. */
  predicate CutsWindow(l: Limits, b: Books, key: Id, provider: Id, now: int) {
    var cause, w := CauseOf(l, b, key, provider, now), WindowOf(b.rpm, key);
    (cause == Some(KeyBusy) || cause == Some(ProviderBusy)) && 0 < |Keep(w, now - MINUTE)| < |w|
  }

  /** The window of another key is not touched by a try. */
  lemma TryLeavesOthers(l: Limits, b: Books, clock: int, key: Id, provider: Id, now: int, k: Id)
    requires Exact(b, clock, k) && clock <= now && k != key
    ensures Exact(Tried(l, b, key, provider, now), now, k)
  {
    hide Keep, Times, OfKey, OfProvider;
    ExactLater(b, clock, now, k);
    AddCounts(b.tickets, Ticket(now, key, provider, Outstanding), k, 0, 0, now - MINUTE);
  }

  /** Storing the compacted window keeps it exact. */
  lemma LookKeepsExact(b: Books, clock: int, key: Id, now: int)
    requires Exact(b, clock, key) && clock <= now
    ensures Exact(Looked(b, key, now), now, key)
  {
    hide Keep, Times, InOrder;
    ExactLater(b, clock, now, key);
    KeepsOrder(WindowOf(b.rpm, key), now - MINUTE, now);
    KeepAgain(WindowOf(b.rpm, key), now - MINUTE);
  }

  lemma KeepsOrder(w: seq<int>, cut: int, now: int)
    requires InOrder(w, now)
    ensures InOrder(Keep(w, cut), now)
  {
    hide Keep;
    KeepOrders(w, cut);
    var kept := Keep(w, cut);
    forall i | 0 <= i < |kept| ensures kept[i] <= now {
      KeptIsLater(w, cut, kept[i]);
    }
  }

  lemma AppendsInOrder(w: seq<int>, now: int)
    requires InOrder(w, now)
    ensures InOrder(w + [now], now)
  {
  }

  lemma ReserveKeepsExact(b: Books, key: Id, provider: Id, now: int)
    requires Exact(b, now, key)
    ensures Exact(Reserve(b, key, provider, now), now, key)
  {
    hide Keep, Times, OfKey, OfProvider, InMinute, InOrder;
    var w := WindowOf(b.rpm, key);
    AppendsInOrder(w, now);
    AddCounts(b.tickets, Ticket(now, key, provider, Outstanding), key, 0, 0, now - MINUTE);
    KeepAppends(w, [now], now - MINUTE);
    KeepOne(now, now - MINUTE);
  }

  lemma KeepOne(a: int, cut: int)
    requires a > cut
    ensures Keep([a], cut) == [a]
  {
    assert [a][..0] == [];
  }

  /** A counter refusal keeps the window exact exactly when its compaction drops nothing or
      everything. */
  lemma RefusalKeepsExact(b: Books, clock: int, key: Id, now: int)
    requires Exact(b, clock, key) && clock <= now
    ensures var w := WindowOf(b.rpm, key);
            var keep := Keep(w, now - MINUTE);
            Exact(b.(rpm := b.rpm[key := keep + w[|keep|..]]), now, key) <==> !(0 < |keep| < |w|)
  {
    hide Times, Keep, InOrder;
    var w, cut := WindowOf(b.rpm, key), now - MINUTE;
    var keep := Keep(w, cut);
    ExactLater(b, clock, now, key);
    if |keep| == |w| {
      KeepAll(w, cut);
      assert keep + w[|keep|..] == w;
    } else if keep == [] {
      assert keep + w[0..] == w;
    } else {
      CutCountsTwice(w, cut, now);
    }
  }

  /** Writing the kept entries over the front of a longer window leaves the latest one twice. */
  lemma CutCountsTwice(w: seq<int>, cut: int, now: int)
    requires InOrder(w, now) && 0 < |Keep(w, cut)| < |w|
    ensures var keep := Keep(w, cut); multiset(Keep(keep + w[|keep|..], cut)) != multiset(keep)
  {
    var keep := Keep(w, cut);
    var rest := w[|keep|..];
    LatestIsKept(w, cut);
    assert rest[|rest| - 1] == w[|w| - 1];
    assert |Keep(rest, cut)| > 0;
    hide Keep;
    KeepAppends(keep, rest, cut);
    KeepAgain(w, cut);
    assert |multiset(Keep(keep, cut))| == |multiset(keep)|;
  }

  /** A try keeps a window exact exactly when it is not a counter refusal that cuts it. */
  lemma TryKeepsExact(l: Limits, b: Books, clock: int, key: Id, provider: Id, now: int, k: Id)
    requires Exact(b, clock, k) && clock <= now
    ensures Exact(Tried(l, b, key, provider, now), now, k) <==> !(k == key && CutsWindow(l, b, key, provider, now))
  {
    hide Exact, Keep, OfKey, OfProvider;
    if k != key {
      TryLeavesOthers(l, b, clock, key, provider, now, k);
    } else {
      LookKeepsExact(b, clock, key, now);
      RefusalKeepsExact(b, clock, key, now);
      if CauseOf(l, b, key, provider, now).None? {
        ReserveKeepsExact(Looked(b, key, now), key, provider, now);
      }
    }
  }

  lemma {:induction false} RemovedIsThere(w: seq<int>, a: int, x: int)
    requires x in RemoveFirst(w, a)
    ensures x in w
  {
    if w != [] && w[0] != a && x != w[0] {
      RemovedIsThere(w[1..], a, x);
    }
  }

  lemma {:induction false} RemovalKeepsOrder(w: seq<int>, a: int)
    requires Ordered(w)
    ensures Ordered(RemoveFirst(w, a))
  {
    if w != [] && w[0] != a {
      RemovalKeepsOrder(w[1..], a);
      var rest := RemoveFirst(w[1..], a);
      forall i | 0 <= i < |rest| ensures w[0] <= rest[i] {
        RemovedIsThere(w[1..], a, rest[i]);
      }
    }
  }

  lemma RemovalInOrder(w: seq<int>, a: int, clock: int)
    requires InOrder(w, clock)
    ensures InOrder(RemoveFirst(w, a), clock)
  {
    hide RemoveFirst;
    RemovalKeepsOrder(w, a);
    var rest := RemoveFirst(w, a);
    forall i | 0 <= i < |rest| ensures rest[i] <= clock {
      RemovedIsThere(w, a, rest[i]);
    }
  }

  /** Giving a reservation back keeps every window exact: a refund takes out just its own entry. */
  lemma ReleaseKeepsExact(b: Books, i: nat, sent: bool, clock: int, k: Id)
    requires i < |b.tickets| && b.tickets[i].status.Outstanding? && Exact(b, clock, k)
    ensures Exact(Release(b, i, sent), clock, k)
  {
    hide Keep, Times, RemoveFirst, InOrder, Settle;
    var c, t, cut := Release(b, i, sent), b.tickets[i], clock - MINUTE;
    RemovalInOrder(WindowOf(b.rpm, k), t.at, clock);
    forall a ensures multiset(Keep(WindowOf(c.rpm, k), cut))[a] == Times(c.tickets, k, cut)[a] {
      ReleaseCounts(b, i, sent, clock, k, a);
    }
  }

  lemma ReleaseCounts(b: Books, i: nat, sent: bool, clock: int, k: Id, a: int)
    requires i < |b.tickets| && b.tickets[i].status.Outstanding? && Counted(b, clock, k)
    ensures var c := Release(b, i, sent);
            multiset(Keep(WindowOf(c.rpm, k), clock - MINUTE))[a] == Times(c.tickets, k, clock - MINUTE)[a]
  {
    hide Keep, Times, RemoveFirst, Settle;
    var c, t, cut := Release(b, i, sent), b.tickets[i], clock - MINUTE;
    var w := WindowOf(b.rpm, k);
    SettleTimes(b.tickets, i, sent, k, cut, a);
    KeepCounts(WindowOf(c.rpm, k), cut, a);
    KeepCounts(w, cut, a);
    RemoveFirstCounts(w, t.at, a);
    assert multiset(Keep(w, cut))[a] == Times(b.tickets, k, cut)[a];
  }

  // --------------------------------------------------------------- the rate check

  lemma {:induction false} MinuteIsTimes(ts: seq<Ticket>, k: Id, now: int)
    requires forall i :: 0 <= i < |ts| ==> ts[i].at <= now
    ensures InMinute(ts, k, now) == |Times(ts, k, now - MINUTE)|
  {
    if ts != [] {
      MinuteIsTimes(ts[..|ts| - 1], k, now);
    }
  }

  /** The rate check never lets too much through; and where the window is exact, it refuses just
      when the reservations of the last minute have reached the limit. */
  lemma RateCheckIsRight(l: Limits, b: Books, clock: int, key: Id, provider: Id, now: int)
    requires Sound(l, b, clock) && clock <= now && l.rpm(key) > 0
    ensures InMinute(b.tickets, key, now) >= l.rpm(key) ==> CauseOf(l, b, key, provider, now) == Some(RateReached)
    ensures Exact(b, clock, key) ==>
              && |WindowOf(Looked(b, key, now).rpm, key)| == InMinute(b.tickets, key, now)
              && (CauseOf(l, b, key, provider, now) == Some(RateReached)
                  <==> InMinute(b.tickets, key, now) >= l.rpm(key))
  {
    assert KeySound(l, b, clock, key);
    MinuteIsTimes(b.tickets, key, now);
    hide Sound, Keep, Times, InMinute, OfKey, OfProvider, WithinRate;
    var w := WindowOf(b.rpm, key);
    KeepCovers(b.tickets, key, w, clock - MINUTE, now - MINUTE);
    SubsetIsSmaller(Times(b.tickets, key, now - MINUTE), multiset(Keep(w, now - MINUTE)));
    if Exact(b, clock, key) {
      ExactLater(b, clock, now, key);
      assert |multiset(Keep(w, now - MINUTE))| == |Keep(w, now - MINUTE)|;
    }
  }

  /** A limit of the key's rate would be applied to the reservations of its last minute. */
  predicate RightFor(b: Books, clock: int, k: Id, limit: int) {
    |Keep(WindowOf(b.rpm, k), clock - MINUTE)| >= limit <==> InMinute(b.tickets, k, clock) >= limit
  }

  /** The rate check is right for every limit exactly when the last minute of the window is that of
      the unrefunded reservations; otherwise it refuses too early for some limit. */
  lemma RightExactlyWhenCounted(l: Limits, b: Books, clock: int, k: Id)
    requires Sound(l, b, clock)
    ensures (forall limit | limit > 0 :: RightFor(b, clock, k, limit)) <==> Counted(b, clock, k)
    ensures |Keep(WindowOf(b.rpm, k), clock - MINUTE)| == InMinute(b.tickets, k, clock) <==> Counted(b, clock, k)
  {
    assert KeySound(l, b, clock, k);
    MinuteIsTimes(b.tickets, k, clock);
    hide Sound, KeySound, Keep, Times, InMinute;
    var w, cut := WindowOf(b.rpm, k), clock - MINUTE;
    var kept, times := multiset(Keep(w, cut)), Times(b.tickets, k, cut);
    assert |kept| == |Keep(w, cut)|;
    KeepCovers(b.tickets, k, w, cut, cut);
    SubsetIsSmaller(times, kept);
    if |kept| == |times| {
      SameSizeIsSame(times, kept);
    } else {
      assert !RightFor(b, clock, k, |kept|);
    }
  }

  lemma SameSizeIsSame(a: multiset<int>, b: multiset<int>)
    requires a <= b && |a| == |b|
    ensures a == b
  {
    assert b == a + (b - a);
    assert |b - a| == 0;
  }

  // -------------------------------------------------------------------- whole runs

  datatype Op = Try(key: Id, provider: Id, now: int) | Finish(ticket: nat, sent: bool) | Look(key: Id, now: int)

  datatype Sys = Sys(books: Books, clock: int)

  const EMPTY_BOOKS := Books(map[], map[], map[], [])

  function Later(clock: int, now: int): int { if now < clock then clock else now }

  /** One call; the clock never goes back, and only the first finish of a ticket has an effect. */
  function Next(l: Limits, y: Sys, op: Op): Sys {
    match op
    case Try(key, provider, now) =>
      var t := Later(y.clock, now);
      Sys(Tried(l, y.books, key, provider, t), t)
    case Finish(i, sent) =>
      if i < |y.books.tickets| && y.books.tickets[i].status.Outstanding? then y.(books := Release(y.books, i, sent))
      else y
    case Look(key, now) =>
      var t := Later(y.clock, now);
      Sys(Looked(y.books, key, t), t)
  }

  function After(l: Limits, ops: seq<Op>): Sys {
    if ops == [] then Sys(EMPTY_BOOKS, 0) else Next(l, After(l, ops[..|ops| - 1]), ops[|ops| - 1])
  }

  /** Over every run the counters are the outstanding reservations, within the limits, and no
      minute has more unrefunded reservations than allowed. */
  lemma {:induction false} RunIsSound(l: Limits, ops: seq<Op>)
    ensures Sound(l, After(l, ops).books, After(l, ops).clock)
  {
    if ops != [] {
      var y, op := After(l, ops[..|ops| - 1]), ops[|ops| - 1];
      RunIsSound(l, ops[..|ops| - 1]);
      StepIsSound(l, y, op);
    }
  }

  lemma StepIsSound(l: Limits, y: Sys, op: Op)
    requires Sound(l, y.books, y.clock)
    ensures Sound(l, Next(l, y, op).books, Next(l, y, op).clock)
  {
    hide Sound, Keep, Tried, Release;
    match op
    case Try(key, provider, now) => TriedIsSound(l, y.books, y.clock, key, provider, Later(y.clock, now));
    case Finish(i, sent) =>
      if i < |y.books.tickets| && y.books.tickets[i].status.Outstanding? {
        Releases(l, y.books, y.clock, i, sent);
      }
    case Look(key, now) =>
      var t := Later(y.clock, now);
      Compacts(l, y.books, y.clock, t, key, Keep(WindowOf(y.books.rpm, key), t - MINUTE));
  }

  /** The call is a counter refusal that cuts this key's window. */
  predicate Cuts(l: Limits, y: Sys, op: Op, k: Id) {
    op.Try? && op.key == k && CutsWindow(l, y.books, k, op.provider, Later(y.clock, op.now))
  }

  lemma StepKeepsExact(l: Limits, y: Sys, op: Op, k: Id)
    requires Exact(y.books, y.clock, k)
    ensures Exact(Next(l, y, op).books, Next(l, y, op).clock, k) <==> !Cuts(l, y, op, k)
  {
    hide Tried, Release, CutsWindow;
    match op
    case Try(key, provider, now) =>
      hide Exact;
      TryKeepsExact(l, y.books, y.clock, key, provider, Later(y.clock, now), k);
    case Finish(i, sent) =>
      hide Exact;
      if i < |y.books.tickets| && y.books.tickets[i].status.Outstanding? {
        ReleaseKeepsExact(y.books, i, sent, y.clock, k);
      }
    case Look(key, now) =>
      var t := Later(y.clock, now);
      if key == k {
        LookKeepsExact(y.books, y.clock, k, t);
      } else {
        ExactLater(y.books, y.clock, t, k);
      }
  }

  /** A window is exact as long as no counter refusal has cut it, and no longer when one does. */
  lemma {:induction false} ExactUntilCut(l: Limits, ops: seq<Op>, k: Id)
    requires forall i :: 0 <= i < |ops| - 1 ==> !Cuts(l, After(l, ops[..i]), ops[i], k)
    ensures Exact(After(l, ops).books, After(l, ops).clock, k)
            <==> ops == [] || !Cuts(l, After(l, ops[..|ops| - 1]), ops[|ops| - 1], k)
  {
    hide Next, Cuts;
    if ops != [] {
      var n := |ops| - 1;
      var prefix := ops[..n];
      forall i | 0 <= i < n ensures !Cuts(l, After(l, prefix[..i]), prefix[i], k) {
        assert prefix[..i] == ops[..i] && prefix[i] == ops[i];
      }
      ExactUntilCut(l, prefix, k);
      hide Exact;
      StepKeepsExact(l, After(l, prefix), ops[n], k);
    }
  }

  /** Over every run in which no counter refusal has cut a key's window, the rate check of that
      key counts its reservations. */
  lemma RateCheckCounts(l: Limits, ops: seq<Op>, key: Id, provider: Id, now: int)
    requires l.rpm(key) > 0 && After(l, ops).clock <= now
    requires forall i :: 0 <= i < |ops| ==> !Cuts(l, After(l, ops[..i]), ops[i], key)
    ensures var b := After(l, ops).books;
            CauseOf(l, b, key, provider, now) == Some(RateReached) <==> InMinute(b.tickets, key, now) >= l.rpm(key)
  {
    hide After, Cuts, Exact, Sound, CauseOf, InMinute;
    ExactUntilCut(l, ops, key);
    RunIsSound(l, ops);
    RateCheckIsRight(l, After(l, ops).books, After(l, ops).clock, key, provider, now);
  }

  // ------------------------------------------------------- a reservation counted twice

  const TWO_PER_MINUTE := Limits(_ => 2, _ => 1, _ => 0)

  /** One reservation at a time: the first is sent, the second is refused a companion a minute
      after the first, and is sent too. */
  const OVERLAP: seq<Op> :=
    [Try(1, 1, 0), Finish(0, true), Try(1, 1, 59500), Try(1, 1, 60500), Finish(1, true)]

  lemma KeepTwo(a: int, b: int, cut: int)
    ensures Keep([], cut) == []
    ensures Keep([a], cut) == if a > cut then [a] else []
    ensures Keep([a, b], cut) == (if a > cut then [a] else []) + if b > cut then [b] else []
  {
    assert [a][..0] == [] && [a, b][..1] == [a];
  }

  lemma OneTicket(t: Ticket, now: int)
    ensures OfKey([t], 1) == if t.key == 1 && t.status.Outstanding? then 1 else 0
    ensures InMinute([t], 1, now) == if t.key == 1 && !Refunded(t) && now - MINUTE < t.at <= now then 1 else 0
  {
    assert [t][..0] == [];
  }

  lemma TwoTickets(t: Ticket, u: Ticket, now: int)
    ensures OfKey([t, u], 1) == OfKey([t], 1) + if u.key == 1 && u.status.Outstanding? then 1 else 0
    ensures InMinute([t, u], 1, now)
         == InMinute([t], 1, now) + if u.key == 1 && !Refunded(u) && now - MINUTE < u.at <= now then 1 else 0
  {
    assert [t, u][..1] == [t];
  }

  lemma FirstIsReserved()
    ensures var y := After(TWO_PER_MINUTE, OVERLAP[..1]);
            && y.clock == 0 && WindowOf(y.books.rpm, 1) == [0] && y.books.tickets == [Ticket(0, 1, 1, Outstanding)]
  {
    var l := TWO_PER_MINUTE;
    assert OVERLAP[..0] == [];
    assert After(l, OVERLAP[..0]) == Sys(EMPTY_BOOKS, 0);
    FollowsAt(l, OVERLAP, 0);
    hide After;
    KeepTwo(0, 0, 0 - MINUTE);
    assert OfKey([], 1) == 0;
    assert CauseOf(l, EMPTY_BOOKS, 1, 1, 0) == None;
  }

  /** The books of that run: what is in the window of the key, and its reservations. */
  lemma FirstIsSent()
    ensures var y := After(TWO_PER_MINUTE, OVERLAP[..2]);
            && y.clock == 0 && WindowOf(y.books.rpm, 1) == [0]
            && y.books.tickets == [Ticket(0, 1, 1, Finished(true))]
  {
    FirstIsReserved();
    hide After;
    FollowsAt(TWO_PER_MINUTE, OVERLAP, 1);
  }

  lemma SecondIsReserved()
    ensures var y := After(TWO_PER_MINUTE, OVERLAP[..3]);
            && y.clock == 59500 && WindowOf(y.books.rpm, 1) == [0, 59500]
            && y.books.tickets == [Ticket(0, 1, 1, Finished(true)), Ticket(59500, 1, 1, Outstanding)]
  {
    FirstIsSent();
    hide After;
    var l, y := TWO_PER_MINUTE, After(TWO_PER_MINUTE, OVERLAP[..2]);
    FollowsAt(l, OVERLAP, 2);
    KeepTwo(0, 0, 59500 - MINUTE);
    OneTicket(y.books.tickets[0], 59500);
    assert CauseOf(l, y.books, 1, 1, 59500) == None;
  }

  lemma FollowsAt(l: Limits, ops: seq<Op>, i: nat)
    requires i < |ops|
    ensures After(l, ops[..i + 1]) == Next(l, After(l, ops[..i]), ops[i])
  {
    hide Next;
    assert ops[..i + 1][..i] == ops[..i];
  }

  lemma ThirdIsRefused()
    ensures var y := After(TWO_PER_MINUTE, OVERLAP[..4]);
            && y.clock == 60500 && WindowOf(y.books.rpm, 1) == [59500, 59500]
            && y.books.tickets == [Ticket(0, 1, 1, Finished(true)), Ticket(59500, 1, 1, Outstanding)]
  {
    SecondIsReserved();
    hide After;
    var l, y := TWO_PER_MINUTE, After(TWO_PER_MINUTE, OVERLAP[..3]);
    FollowsAt(l, OVERLAP, 3);
    KeepTwo(0, 59500, 60500 - MINUTE);
    OneTicket(y.books.tickets[0], 60500);
    TwoTickets(y.books.tickets[0], y.books.tickets[1], 60500);
    assert CauseOf(l, y.books, 1, 1, 60500) == Some(KeyBusy);
  }

  /** The rate check then refuses a request with one reservation in the minute and a limit of two. */
  lemma OneReservationCountsTwice()
    ensures var y := After(TWO_PER_MINUTE, OVERLAP);
            && y.clock == 60500 && WindowOf(y.books.rpm, 1) == [59500, 59500]
            && InMinute(y.books.tickets, 1, 62000) == 1 && TWO_PER_MINUTE.rpm(1) == 2
            && CauseOf(TWO_PER_MINUTE, y.books, 1, 1, 62000) == Some(RateReached)
  {
    ThirdIsRefused();
    hide After;
    var l, y := TWO_PER_MINUTE, After(TWO_PER_MINUTE, OVERLAP[..4]);
    FollowsAt(l, OVERLAP, 4);
    assert OVERLAP[..5] == OVERLAP;
    var z := After(l, OVERLAP);
    KeepTwo(59500, 59500, 62000 - MINUTE);
    OneTicket(z.books.tickets[0], 62000);
    TwoTickets(z.books.tickets[0], z.books.tickets[1], 62000);
  }

  // -------------------------------------------------------------- when a try succeeds

  /** The reservations of a key, and of a provider, that were not given back. */
  ghost function HeldByKey(ts: seq<Ticket>, k: Id): set<nat> {
    set i: nat | i < |ts| && ts[i].key == k && ts[i].status.Outstanding?
  }

  ghost function HeldByProvider(ts: seq<Ticket>, p: Id): set<nat> {
    set i: nat | i < |ts| && ts[i].provider == p && ts[i].status.Outstanding?
  }

  /** The entries of a window that are less than a minute old. */
  ghost function Recent(w: seq<int>, now: int): set<nat> { set i: nat | i < |w| && now - w[i] < 60000 }

  /** One reservation more is one element more, if it counts. */
  lemma HeldOneMore(ts: seq<Ticket>, k: Id)
    requires ts != []
    ensures var n := |ts| - 1;
            var mine := if ts[n].key == k && ts[n].status.Outstanding? then {n} else {};
            HeldByKey(ts, k) == HeldByKey(ts[..n], k) + mine && HeldByKey(ts[..n], k) !! mine
  {
  }

  lemma HeldOneMoreThere(ts: seq<Ticket>, p: Id)
    requires ts != []
    ensures var n := |ts| - 1;
            var mine := if ts[n].provider == p && ts[n].status.Outstanding? then {n} else {};
            HeldByProvider(ts, p) == HeldByProvider(ts[..n], p) + mine && HeldByProvider(ts[..n], p) !! mine
  {
  }

  lemma RecentOneMore(w: seq<int>, now: int)
    requires w != []
    ensures var n := |w| - 1;
            var mine := if now - w[n] < 60000 then {n} else {};
            Recent(w, now) == Recent(w[..n], now) + mine && Recent(w[..n], now) !! mine
  {
  }

  lemma {:induction false} KeyCountIsHeld(ts: seq<Ticket>, k: Id)
    ensures OfKey(ts, k) == |HeldByKey(ts, k)|
  {
    if ts != [] {
      HeldOneMore(ts, k);
      hide HeldByKey;
      KeyCountIsHeld(ts[..|ts| - 1], k);
    }
  }

  lemma {:induction false} ProviderCountIsHeld(ts: seq<Ticket>, p: Id)
    ensures OfProvider(ts, p) == |HeldByProvider(ts, p)|
  {
    if ts != [] {
      HeldOneMoreThere(ts, p);
      hide HeldByProvider;
      ProviderCountIsHeld(ts[..|ts| - 1], p);
    }
  }

  lemma {:induction false} KeptAreRecent(w: seq<int>, now: int)
    ensures |Keep(w, now - MINUTE)| == |Recent(w, now)|
  {
    if w != [] {
      RecentOneMore(w, now);
      hide Recent;
      KeptAreRecent(w[..|w| - 1], now);
    }
  }

  predicate Allows(limit: int, used: nat) { limit <= 0 || used < limit }

  /** Capacity is reserved exactly when no limit that is set is reached: the key's rate over the entries of
      its window, its reservations held, and the provider's. A refusal is the provider's exactly when
      the key has room. Then, and only then, there is one more reservation, of this key and provider. */
  lemma AcquiresExactlyWhen(l: Limits, b: Books, key: Id, provider: Id, now: int)
    ensures var keyRoom := && Allows(l.rpm(key), |Recent(WindowOf(b.rpm, key), now)|)
                           && Allows(l.keyConcurrency(key), |HeldByKey(b.tickets, key)|);
            var room := Allows(l.providerConcurrency(provider), |HeldByProvider(b.tickets, provider)|);
            var refusal := ScopeOf(CauseOf(l, b, key, provider, now));
            && (refusal.None? <==> keyRoom && room)
            && (refusal == Some(ByProvider) <==> keyRoom && !room)
            && Tried(l, b, key, provider, now).tickets
               == if keyRoom && room then b.tickets + [Ticket(now, key, provider, Outstanding)] else b.tickets
  {
    hide Keep, OfKey, OfProvider, Recent, HeldByKey, HeldByProvider;
    KeptAreRecent(WindowOf(b.rpm, key), now);
    KeyCountIsHeld(b.tickets, key);
    ProviderCountIsHeld(b.tickets, provider);
  }
}
