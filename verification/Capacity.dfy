/** Capacity reservations: in-flight counters per key and per provider, and a sliding minute of
    reservations per key, with refunds for attempts that were never sent. Times are in ms. */
module Capacity {
  import opened Wrappers

  const MINUTE: nat := 60 * 1000

  type Id = nat

  /** Limits that are zero or negative mean no limit. */
  datatype Limits = Limits(rpm: Id -> int, keyConcurrency: Id -> int, providerConcurrency: Id -> int)

  datatype Status = Outstanding | Finished(sent: bool)

  /** A reservation as its release callback holds it. */
  datatype Ticket = Ticket(at: int, key: Id, provider: Id, status: Status)

  predicate Refunded(t: Ticket) { t.status == Finished(false) }

  datatype Refusal = ByKey | ByProvider

  datatype Cause = RateReached | KeyBusy | ProviderBusy

  function Get(m: map<Id, nat>, k: Id): nat { if k in m then m[k] else 0 }

  function WindowOf(m: map<Id, seq<int>>, k: Id): seq<int> { if k in m then m[k] else [] }

  /** The entries of a window after `cut`, in order. */
  function Keep(w: seq<int>, cut: int): (kept: seq<int>)
    ensures |kept| <= |w|
  {
    if w == [] then [] else Keep(w[..|w| - 1], cut) + if w[|w| - 1] > cut then [w[|w| - 1]] else []
  }

  // ---------------------------------------------------------- counting reservations

  function OfKey(ts: seq<Ticket>, k: Id): nat {
    if ts == [] then 0
    else OfKey(ts[..|ts| - 1], k) + if ts[|ts| - 1].key == k && ts[|ts| - 1].status.Outstanding? then 1 else 0
  }

  function OfProvider(ts: seq<Ticket>, p: Id): nat {
    if ts == [] then 0
    else OfProvider(ts[..|ts| - 1], p) + if ts[|ts| - 1].provider == p && ts[|ts| - 1].status.Outstanding? then 1 else 0
  }

  /** The reservations of a key in the minute up to `t` that were not refunded. */
  function InMinute(ts: seq<Ticket>, k: Id, t: int): nat {
    if ts == [] then 0
    else
      var last := ts[|ts| - 1];
      InMinute(ts[..|ts| - 1], k, t) + if last.key == k && !Refunded(last) && t - MINUTE < last.at <= t then 1 else 0
  }

  /** When the reservations of a key after `cut` that were not refunded were made. */
  ghost function Times(ts: seq<Ticket>, k: Id, cut: int): multiset<int> {
    if ts == [] then multiset{}
    else
      var last := ts[|ts| - 1];
      Times(ts[..|ts| - 1], k, cut)
      + if last.key == k && !Refunded(last) && last.at > cut then multiset{last.at} else multiset{}
  }

  // -------------------------------------------------------------- small lemmas

  lemma KeepLast(w: seq<int>, x: int, cut: int)
    ensures Keep(w + [x], cut) == if x > cut then Keep(w, cut) + [x] else Keep(w, cut)
  {
    assert (w + [x])[..|w|] == w;
  }

  lemma CountsOneMore(w: seq<int>, x: int, a: int)
    ensures multiset(w + [x])[a] == multiset(w)[a] + if a == x then 1 else 0
  {
  }

  lemma KeepCountsLast(w: seq<int>, x: int, cut: int, a: int)
    requires multiset(Keep(w, cut))[a] == if a > cut then multiset(w)[a] else 0
    ensures multiset(Keep(w + [x], cut))[a] == if a > cut then multiset(w + [x])[a] else 0
  {
    hide Keep;
    KeepLast(w, x, cut);
    CountsOneMore(w, x, a);
    CountsOneMore(Keep(w, cut), x, a);
  }

  lemma {:induction false} KeepCounts(w: seq<int>, cut: int, a: int)
    ensures multiset(Keep(w, cut))[a] == if a > cut then multiset(w)[a] else 0
    decreases |w|
  {
    if w == [] {
      assert Keep(w, cut) == w;
    } else {
      hide Keep;
      var init, x := LastOf(w);
      KeepCounts(init, cut, a);
      KeepCountsLast(init, x, cut, a);
    }
  }

  lemma LastOf(w: seq<int>) returns (init: seq<int>, x: int)
    requires w != []
    ensures w == init + [x] && |init| < |w|
  {
    init, x := w[..|w| - 1], w[|w| - 1];
  }

  lemma {:induction false} TimesCut(ts: seq<Ticket>, k: Id, cut: int, later: int, a: int)
    requires cut <= later
    ensures Times(ts, k, later)[a] == if a > later then Times(ts, k, cut)[a] else 0
  {
    if ts != [] {
      TimesCut(ts[..|ts| - 1], k, cut, later, a);
    }
  }

  lemma SubsetIsSmaller(a: multiset<int>, b: multiset<int>)
    requires a <= b
    ensures |a| <= |b|
  {
    assert b == a + (b - a);
  }

  lemma {:induction false} MinuteFits(ts: seq<Ticket>, k: Id, cut: int, t: int)
    requires cut <= t - MINUTE
    ensures InMinute(ts, k, t) <= |Times(ts, k, cut)|
  {
    if ts != [] {
      MinuteFits(ts[..|ts| - 1], k, cut, t);
    }
  }

  /** A window that covers the reservations after `cut` still does when older entries go. */
  lemma KeepCovers(ts: seq<Ticket>, k: Id, w: seq<int>, cut: int, later: int)
    requires Times(ts, k, cut) <= multiset(w) && cut <= later
    ensures Times(ts, k, later) <= multiset(Keep(w, later))
  {
    forall a ensures Times(ts, k, later)[a] <= multiset(Keep(w, later))[a] {
      TimesCut(ts, k, cut, later, a);
      KeepCounts(w, later, a);
    }
  }

  // ------------------------------------------------------------ changing one ticket

  function Settle(ts: seq<Ticket>, i: nat, sent: bool): seq<Ticket>
    requires i < |ts|
  {
    ts[i := ts[i].(status := Finished(sent))]
  }

  /** Settling one reservation takes it out of the counters. */
  lemma {:induction false} SettleCounts(ts: seq<Ticket>, i: nat, sent: bool, k: Id, p: Id, t: int)
    requires i < |ts| && ts[i].status.Outstanding?
    ensures OfKey(Settle(ts, i, sent), k) == OfKey(ts, k) - if ts[i].key == k then 1 else 0
    ensures OfProvider(Settle(ts, i, sent), p) == OfProvider(ts, p) - if ts[i].provider == p then 1 else 0
    ensures InMinute(Settle(ts, i, sent), k, t) <= InMinute(ts, k, t)
  {
    var ss, n := Settle(ts, i, sent), |ts| - 1;
    if i == n {
      assert ss[..n] == ts[..n];
    } else {
      assert ss[..n] == Settle(ts[..n], i, sent);
      SettleCounts(ts[..n], i, sent, k, p, t);
    }
  }

  predicate Counts(t: Ticket, k: Id, cut: int) { t.key == k && !Refunded(t) && t.at > cut }

  lemma TimesLast(ts: seq<Ticket>, k: Id, cut: int, a: int)
    requires ts != []
    ensures Times(ts, k, cut)[a] == Times(ts[..|ts| - 1], k, cut)[a]
                                  + if Counts(ts[|ts| - 1], k, cut) && a == ts[|ts| - 1].at then 1 else 0
  {
  }

  lemma SettledCounts(t: Ticket, sent: bool, k: Id, cut: int)
    requires t.status.Outstanding?
    ensures Counts(t, k, cut) <==> t.key == k && t.at > cut
    ensures Counts(t.(status := Finished(sent)), k, cut) <==> sent && t.key == k && t.at > cut
  {
  }

  /** A reservation that was never sent no longer counts for the minute. */
  lemma {:induction false} SettleTimes(ts: seq<Ticket>, i: nat, sent: bool, k: Id, cut: int, a: int)
    requires i < |ts| && ts[i].status.Outstanding?
    ensures Times(ts, k, cut)[a]
         == Times(Settle(ts, i, sent), k, cut)[a]
            + if !sent && ts[i].key == k && ts[i].at > cut && a == ts[i].at then 1 else 0
  {
    hide Times, Counts;
    var ss, n := Settle(ts, i, sent), |ts| - 1;
    TimesLast(ts, k, cut, a);
    TimesLast(ss, k, cut, a);
    if i == n {
      assert ss[..n] == ts[..n];
      SettledCounts(ts[n], sent, k, cut);
    } else {
      assert ss[..n] == Settle(ts[..n], i, sent) && ss[n] == ts[n];
      SettleTimes(ts[..n], i, sent, k, cut, a);
    }
  }

  lemma AddCounts(ts: seq<Ticket>, n: Ticket, k: Id, p: Id, t: int, cut: int)
    requires n.status.Outstanding?
    ensures OfKey(ts + [n], k) == OfKey(ts, k) + if n.key == k then 1 else 0
    ensures OfProvider(ts + [n], p) == OfProvider(ts, p) + if n.provider == p then 1 else 0
    ensures InMinute(ts + [n], k, t) == InMinute(ts, k, t) + if n.key == k && t - MINUTE < n.at <= t then 1 else 0
    ensures Times(ts + [n], k, cut)
         == Times(ts, k, cut) + if n.key == k && n.at > cut then multiset{n.at} else multiset{}
  {
    assert (ts + [n])[..|ts|] == ts;
  }

  // ---------------------------------------------------------------------- the books

  datatype Books = Books(
    rpm: map<Id, seq<int>>, keyInflight: map<Id, nat>, providerInflight: map<Id, nat>, tickets: seq<Ticket>)

  /** A key's counter is the number of its outstanding reservations, within its limit; no minute
      has more unrefunded reservations than allowed; and its window covers the last minute. */
  ghost predicate KeySound(l: Limits, b: Books, clock: int, k: Id) {
    && Get(b.keyInflight, k) == OfKey(b.tickets, k)
    && (l.keyConcurrency(k) > 0 ==> OfKey(b.tickets, k) <= l.keyConcurrency(k))
    && (l.rpm(k) > 0 ==> WithinRate(b.tickets, k, l.rpm(k)))
    && Covers(b, clock, k)
  }

  ghost predicate WithinRate(ts: seq<Ticket>, k: Id, limit: int) { forall t :: InMinute(ts, k, t) <= limit }

  ghost predicate Covers(b: Books, clock: int, k: Id) {
    Times(b.tickets, k, clock - MINUTE) <= multiset(WindowOf(b.rpm, k))
  }

  ghost predicate ProviderSound(l: Limits, b: Books, p: Id) {
    && Get(b.providerInflight, p) == OfProvider(b.tickets, p)
    && (l.providerConcurrency(p) > 0 ==> OfProvider(b.tickets, p) <= l.providerConcurrency(p))
  }

  ghost predicate Sound(l: Limits, b: Books, clock: int) {
    && (forall k :: KeySound(l, b, clock, k))
    && (forall p :: ProviderSound(l, b, p))
    && (forall i :: 0 <= i < |b.tickets| ==> b.tickets[i].at <= clock)
  }

  /** Time passes, and the window of one key is replaced by one that still holds its last minute. */
  lemma Compacts(l: Limits, b: Books, clock: int, now: int, key: Id, w: seq<int>)
    requires Sound(l, b, clock) && clock <= now
    requires multiset(Keep(WindowOf(b.rpm, key), now - MINUTE)) <= multiset(w)
    ensures Sound(l, b.(rpm := b.rpm[key := w]), now)
  {
    var c := b.(rpm := b.rpm[key := w]);
    forall k ensures KeySound(l, c, now, k) {
      assert KeySound(l, b, clock, k);
      KeepCovers(b.tickets, k, WindowOf(b.rpm, k), clock - MINUTE, now - MINUTE);
      KeepIsPart(WindowOf(b.rpm, k), now - MINUTE);
    }
    forall p ensures ProviderSound(l, c, p) {
      assert ProviderSound(l, b, p);
    }
  }

  lemma KeepIsPart(w: seq<int>, cut: int)
    ensures multiset(Keep(w, cut)) <= multiset(w)
  {
    forall a ensures multiset(Keep(w, cut))[a] <= multiset(w)[a] {
      KeepCounts(w, cut, a);
    }
  }

  function Reserve(b: Books, key: Id, provider: Id, now: int): Books {
    Books(b.rpm[key := WindowOf(b.rpm, key) + [now]], b.keyInflight[key := Get(b.keyInflight, key) + 1],
          b.providerInflight[provider := Get(b.providerInflight, provider) + 1],
          b.tickets + [Ticket(now, key, provider, Outstanding)])
  }

  /** A reservation that the limits allow keeps the books sound; the window is compacted. */
  lemma Reserves(l: Limits, b: Books, now: int, key: Id, provider: Id)
    requires Sound(l, b, now)
    requires l.rpm(key) > 0 ==> |WindowOf(b.rpm, key)| < l.rpm(key)
    requires l.keyConcurrency(key) > 0 ==> Get(b.keyInflight, key) < l.keyConcurrency(key)
    requires l.providerConcurrency(provider) > 0 ==> Get(b.providerInflight, provider) < l.providerConcurrency(provider)
    ensures Sound(l, Reserve(b, key, provider, now), now)
  {
    var c := Reserve(b, key, provider, now);
    hide KeySound, ProviderSound;
    forall k ensures KeySound(l, c, now, k) {
      assert KeySound(l, b, now, k);
      ReserveKeepsKey(l, b, now, key, provider, k);
    }
    forall p ensures ProviderSound(l, c, p) {
      assert ProviderSound(l, b, p);
      ReserveKeepsProvider(l, b, now, key, provider, p);
    }
  }

  lemma ReserveKeepsKey(l: Limits, b: Books, now: int, key: Id, provider: Id, k: Id)
    requires KeySound(l, b, now, k)
    requires k == key ==>
               && (l.rpm(key) > 0 ==> |WindowOf(b.rpm, key)| < l.rpm(key))
               && (l.keyConcurrency(key) > 0 ==> Get(b.keyInflight, key) < l.keyConcurrency(key))
    ensures KeySound(l, Reserve(b, key, provider, now), now, k)
  {
    hide Times, InMinute, OfKey, OfProvider, WithinRate;
    var n := Ticket(now, key, provider, Outstanding);
    AddCounts(b.tickets, n, k, 0, 0, now - MINUTE);
    if l.rpm(k) > 0 {
      AddKeepsRate(l, b, now, k, n);
    }
  }

  lemma ReserveKeepsProvider(l: Limits, b: Books, now: int, key: Id, provider: Id, p: Id)
    requires ProviderSound(l, b, p)
    requires p == provider && l.providerConcurrency(p) > 0 ==> Get(b.providerInflight, p) < l.providerConcurrency(p)
    ensures ProviderSound(l, Reserve(b, key, provider, now), p)
  {
    hide Times, InMinute, OfKey, OfProvider;
    AddCounts(b.tickets, Ticket(now, key, provider, Outstanding), 0, p, 0, 0);
  }

  lemma AddKeepsRate(l: Limits, b: Books, now: int, k: Id, n: Ticket)
    requires KeySound(l, b, now, k) && l.rpm(k) > 0 && n.status.Outstanding? && n.at == now
    requires n.key == k ==> |WindowOf(b.rpm, k)| < l.rpm(k)
    ensures WithinRate(b.tickets + [n], k, l.rpm(k))
  {
    hide InMinute, Times, OfKey, OfProvider;
    forall t ensures InMinute(b.tickets + [n], k, t) <= l.rpm(k) {
      AddCounts(b.tickets, n, k, 0, t, 0);
      if t >= now {
        MinuteFits(b.tickets, k, now - MINUTE, t);
        SubsetIsSmaller(Times(b.tickets, k, now - MINUTE), multiset(WindowOf(b.rpm, k)));
      }
    }
  }

  /** What refuses a reservation, if anything does: the first limit that is reached. */
  function CauseOf(l: Limits, b: Books, key: Id, provider: Id, now: int): Option<Cause> {
    if l.rpm(key) > 0 && |Keep(WindowOf(b.rpm, key), now - MINUTE)| >= l.rpm(key) then Some(RateReached)
    else if l.keyConcurrency(key) > 0 && OfKey(b.tickets, key) >= l.keyConcurrency(key) then Some(KeyBusy)
    else if l.providerConcurrency(provider) > 0
            && OfProvider(b.tickets, provider) >= l.providerConcurrency(provider) then Some(ProviderBusy)
    else None
  }

  function ScopeOf(c: Option<Cause>): Option<Refusal> {
    if c.None? then None else if c.value.ProviderBusy? then Some(ByProvider) else Some(ByKey)
  }

  /** The window of a key after a try. A refusal by a counter leaves the compacted entries in
      front of what they overwrote. */
  function WindowAfter(w: seq<int>, cause: Option<Cause>, now: int): seq<int> {
    var keep := Keep(w, now - MINUTE);
    match cause
    case None => keep + [now]
    case Some(RateReached) => keep
    case Some(_) => keep + w[|keep|..]
  }

  /** The books after a try. */
  function Tried(l: Limits, b: Books, key: Id, provider: Id, now: int): Books {
    var cause := CauseOf(l, b, key, provider, now);
    var w := WindowOf(b.rpm, key);
    if cause.Some? then b.(rpm := b.rpm[key := WindowAfter(w, cause, now)])
    else Reserve(b.(rpm := b.rpm[key := Keep(w, now - MINUTE)]), key, provider, now)
  }

  /** The books after the picker has looked at a key. */
  function Looked(b: Books, key: Id, now: int): Books {
    b.(rpm := b.rpm[key := Keep(WindowOf(b.rpm, key), now - MINUTE)])
  }

  lemma CountersAgree(l: Limits, b: Books, clock: int, key: Id, provider: Id)
    requires Sound(l, b, clock)
    ensures Get(b.keyInflight, key) == OfKey(b.tickets, key)
    ensures Get(b.providerInflight, provider) == OfProvider(b.tickets, provider)
  {
    assert KeySound(l, b, clock, key) && ProviderSound(l, b, provider);
  }

  lemma TriedIsSound(l: Limits, b: Books, clock: int, key: Id, provider: Id, now: int)
    requires Sound(l, b, clock) && clock <= now
    ensures Sound(l, Tried(l, b, key, provider, now), now)
  {
    hide Sound, Keep, OfKey, OfProvider;
    CountersAgree(l, b, clock, key, provider);
    var w := WindowOf(b.rpm, key);
    var keep := Keep(w, now - MINUTE);
    Compacts(l, b, clock, now, key, keep);
    Compacts(l, b, clock, now, key, keep + w[|keep|..]);
    if CauseOf(l, b, key, provider, now).None? {
      Reserves(l, b.(rpm := b.rpm[key := keep]), now, key, provider);
    }
  }

  function Less(m: map<Id, nat>, k: Id): map<Id, nat> {
    if Get(m, k) - 1 > 0 then m[k := Get(m, k) - 1] else m - {k}
  }

  function RemoveFirst(w: seq<int>, a: int): seq<int> {
    if w == [] then [] else if w[0] == a then w[1..] else [w[0]] + RemoveFirst(w[1..], a)
  }

  lemma {:induction false} RemoveFirstCounts(w: seq<int>, a: int, x: int)
    ensures multiset(RemoveFirst(w, a))[x] == if x == a && a in w then multiset(w)[x] - 1 else multiset(w)[x]
  {
    if w != [] {
      assert w == [w[0]] + w[1..];
      if w[0] != a {
        RemoveFirstCounts(w[1..], a, x);
      }
    }
  }

  lemma {:induction false} RemoveFirstAt(w: seq<int>, a: int, i: nat)
    requires i <= |w| && a !in w[..i] && (i < |w| ==> w[i] == a)
    ensures RemoveFirst(w, a) == if i < |w| then w[..i] + w[i + 1..] else w
  {
    if i > 0 {
      assert w[0] == w[..i][0] != a && w[1..][..i - 1] == w[..i][1..];
      RemoveFirstAt(w[1..], a, i - 1);
      assert RemoveFirst(w, a) == [w[0]] + RemoveFirst(w[1..], a);
      if i < |w| {
        assert w[..i] == [w[0]] + w[1..][..i - 1] && w[i + 1..] == w[1..][i..];
      } else {
        assert w == [w[0]] + w[1..];
      }
    }
  }

  function Release(b: Books, i: nat, sent: bool): Books
    requires i < |b.tickets|
  {
    var t := b.tickets[i];
    Books(if sent then b.rpm else b.rpm[t.key := RemoveFirst(WindowOf(b.rpm, t.key), t.at)],
          Less(b.keyInflight, t.key), Less(b.providerInflight, t.provider), Settle(b.tickets, i, sent))
  }

  lemma ReleaseCovers(b: Books, i: nat, sent: bool, clock: int, k: Id)
    requires i < |b.tickets| && b.tickets[i].status.Outstanding? && Covers(b, clock, k)
    ensures Covers(Release(b, i, sent), clock, k)
  {
    var c, t, cut := Release(b, i, sent), b.tickets[i], clock - MINUTE;
    forall a ensures Times(c.tickets, k, cut)[a] <= multiset(WindowOf(c.rpm, k))[a] {
      SettleTimes(b.tickets, i, sent, k, cut, a);
      TimesCut(c.tickets, k, cut, cut, a);
      RemoveFirstCounts(WindowOf(b.rpm, t.key), t.at, a);
      hide Times, Settle, RemoveFirst;
      assert Times(b.tickets, k, cut)[a] <= multiset(WindowOf(b.rpm, k))[a];
    }
  }

  /** Giving a reservation back keeps the books sound. */
  lemma Releases(l: Limits, b: Books, clock: int, i: nat, sent: bool)
    requires Sound(l, b, clock) && i < |b.tickets| && b.tickets[i].status.Outstanding?
    ensures Sound(l, Release(b, i, sent), clock)
  {
    var c := Release(b, i, sent);
    forall k ensures KeySound(l, c, clock, k) {
      assert KeySound(l, b, clock, k);
      hide Covers, OfKey, OfProvider, InMinute, Times, RemoveFirst;
      ReleaseCovers(b, i, sent, clock, k);
      SettleCounts(b.tickets, i, sent, k, 0, 0);
      forall t ensures InMinute(c.tickets, k, t) <= InMinute(b.tickets, k, t) {
        SettleCounts(b.tickets, i, sent, k, 0, t);
      }
    }
    forall p ensures ProviderSound(l, c, p) {
      assert ProviderSound(l, b, p);
      hide OfKey, OfProvider, InMinute, RemoveFirst;
      SettleCounts(b.tickets, i, sent, 0, p, 0);
    }
  }

  // ------------------------------------------------------------------- the runtime

  class Runtime {
    const limits: Limits
    var rpm: map<Id, seq<int>>
    var keyInflight: map<Id, nat>
    var providerInflight: map<Id, nat>
    var tickets: seq<Ticket>    // what the release callbacks hold
    ghost var clock: int

    function State(): Books
      reads this
    {
      Books(rpm, keyInflight, providerInflight, tickets)
    }

    ghost predicate Valid()
      reads this
    {
      Sound(limits, State(), clock)
    }

    constructor (limits: Limits)
      ensures Valid() && this.limits == limits && tickets == []
    {
      this.limits := limits;
      rpm, keyInflight, providerInflight, tickets, clock := map[], map[], map[], [], 0;
    }

    /** Drops the entries of a window that are a minute old. */
    method Compact(w: seq<int>, now: int) returns (keep: seq<int>)
      ensures keep == Keep(w, now - MINUTE) && |keep| <= |w|
    {
      keep := [];
      for i := 0 to |w|
        invariant keep == Keep(w[..i], now - MINUTE) && |keep| <= i
      {
        assert w[..i + 1][..i] == w[..i];
        if w[i] > now - MINUTE {
          keep := keep + [w[i]];
        }
      }
      assert w[..|w|] == w;
    }

    /** Reserves capacity, or says what refused it; the books afterwards are the specified ones. */
    method TryAcquire(key: Id, provider: Id, now: int) returns (ticket: Option<nat>, refusal: Option<Refusal>)
      requires Valid() && clock <= now
      modifies this
      ensures Valid() && clock == now && State() == Tried(limits, old(State()), key, provider, now)
      ensures refusal == ScopeOf(CauseOf(limits, old(State()), key, provider, now))
      ensures ticket == if refusal.None? then Some(|old(tickets)|) else None
    {
      TriedIsSound(limits, State(), clock, key, provider, now);
      CountersAgree(limits, State(), clock, key, provider);
      hide Sound, Tried, CauseOf, OfKey, OfProvider;
      clock := now;
      ticket, refusal := TryLocked(key, provider, now);
    }

    /** The part of a try under the lock, where the counters are the outstanding reservations. */
    method TryLocked(key: Id, provider: Id, now: int) returns (ticket: Option<nat>, refusal: Option<Refusal>)
      requires Get(keyInflight, key) == OfKey(tickets, key)
               && Get(providerInflight, provider) == OfProvider(tickets, provider)
      modifies this`rpm, this`keyInflight, this`providerInflight, this`tickets
      ensures State() == Tried(limits, old(State()), key, provider, now)
      ensures refusal == ScopeOf(CauseOf(limits, old(State()), key, provider, now))
      ensures ticket == if refusal.None? then Some(|old(tickets)|) else None
    {
      hide Keep, OfKey, OfProvider;
      var window := WindowOf(rpm, key);
      var keep := Compact(window, now);
      if limits.rpm(key) > 0 && |keep| >= limits.rpm(key) {
        rpm := rpm[key := keep];
        return None, Some(ByKey);
      }
      if limits.keyConcurrency(key) > 0 && Get(keyInflight, key) >= limits.keyConcurrency(key) {
        rpm := rpm[key := keep + window[|keep|..]];
        return None, Some(ByKey);
      }
      if limits.providerConcurrency(provider) > 0
         && Get(providerInflight, provider) >= limits.providerConcurrency(provider) {
        rpm := rpm[key := keep + window[|keep|..]];
        return None, Some(ByProvider);
      }
      ticket, refusal := Some(|tickets|), None;
      rpm := rpm[key := keep];
      Book(key, provider, now);
    }

    method Book(key: Id, provider: Id, now: int)
      modifies this`rpm, this`keyInflight, this`providerInflight, this`tickets
      ensures State() == Reserve(old(State()), key, provider, now)
    {
      rpm := rpm[key := WindowOf(rpm, key) + [now]];
      keyInflight := keyInflight[key := Get(keyInflight, key) + 1];
      providerInflight := providerInflight[provider := Get(providerInflight, provider) + 1];
      tickets := tickets + [Ticket(now, key, provider, Outstanding)];
    }

    /** How many reservations of the last minute and in flight the picker sees. */
    method ResourceSnapshot(key: Id, provider: Id, now: int) returns (minute: nat, ofKey: nat, ofProvider: nat)
      requires Valid() && clock <= now
      modifies this
      ensures Valid() && clock == now && State() == Looked(old(State()), key, now)
      ensures minute == |WindowOf(rpm, key)| >= InMinute(tickets, key, now)
      ensures ofKey == OfKey(tickets, key) && ofProvider == OfProvider(tickets, provider)
    {
      hide Keep, OfKey, OfProvider, Times, InMinute;
      assert KeySound(limits, State(), clock, key) && ProviderSound(limits, State(), provider);
      var keep := Compact(WindowOf(rpm, key), now);
      Compacts(limits, State(), clock, now, key, keep);
      rpm := rpm[key := keep];
      clock := now;
      assert KeySound(limits, State(), now, key);
      MinuteFits(tickets, key, now - MINUTE, now);
      SubsetIsSmaller(Times(tickets, key, now - MINUTE), multiset(keep));
      return |keep|, Get(keyInflight, key), Get(providerInflight, provider);
    }

    /** The release callback of a reservation. Only its first call has an effect; an attempt that
        was never sent gives its place in the minute back. */
    method ReleaseAttempt(i: nat, sent: bool)
      requires Valid() && i < |tickets|
      modifies this`rpm, this`keyInflight, this`providerInflight, this`tickets
      ensures Valid()
      ensures State() == if old(tickets)[i].status.Outstanding? then Release(old(State()), i, sent) else old(State())
    {
      hide Sound, Keep, OfKey, OfProvider, Times, InMinute, RemoveFirst;
      var t := tickets[i];
      if t.status.Finished? {
        return;
      }
      Releases(limits, State(), clock, i, sent);
      if !sent {
        var window := Without(WindowOf(rpm, t.key), t.at);
        rpm := rpm[t.key := window];
      }
      keyInflight := Less(keyInflight, t.key);
      providerInflight := Less(providerInflight, t.provider);
      tickets := tickets[i := t.(status := Finished(sent))];
    }

    /** Takes the first matching entry out of a window. */
    method Without(window: seq<int>, at: int) returns (w: seq<int>)
      ensures w == RemoveFirst(window, at)
    {
      hide RemoveFirst;
      for i := 0 to |window|
        invariant at !in window[..i]
      {
        if window[i] == at {
          RemoveFirstAt(window, at, i);
          return window[..i] + window[i + 1..];
        }
      }
      RemoveFirstAt(window, at, |window|);
      w := window;
    }
  }
}
