/** Gate filtering: candidates whose key or request dimension has an open circuit are put aside,
    and at most one of them is offered as a recovery validation. */
module GateFilter {
  import opened Wrappers
  import opened Circuits

  datatype SkipReason =
    | Usable | Rejected(why: string)
    | BusinessCooldown | RecoveryPending | CheckInFlight | CheckBackoff | RecoveryInFlight

  datatype Status =
    | NoStatus | Cooldown | WaitingCheck | CheckFailed | WaitingRequest | Checking | Validating
    | WaitingSession | WaitingBudget

  datatype Stats = Stats(
    samples: nat, latencySamples: nat, successRate: real, quality: real, ttft: int, cost: real, lastSampleAt: int)

  datatype Candidate = Candidate(
    keyId: nat, allowsProbe: bool, eligible: bool, recovery: bool, skip: SkipReason, status: Status,
    gateUntil: Time, lastRecovery: Option<Time>, stats: Stats)

  // --------------------------------------------------------------- one candidate

  predicate SupportsCheck(path: string) { path in ["/v1/responses", "/v1/chat/completions", "/v1/messages"] }

  function Priority(r: Circuit, now: Time): nat {
    if LeaseLive(r, now) then 5
    else if CheckLive(r, now) then 4
    else if r.until > now then 3
    else if !r.checkOK && After(r.nextCheckAt, now) then 3
    else if !r.checkOK && r.target.path != "" then 2
    else 1
  }

  function OpenAt(rows: Rows, s: Scope): Option<Circuit> { if s in rows && rows[s].open then Some(rows[s]) else None }

  /** Of two gates the more pressing one, and of equals the one that stays closed longer. */
  function Prefer(gate: Option<Circuit>, other: Option<Circuit>, now: Time): Option<Circuit> {
    if gate.None? then other
    else if other.None? then gate
    else
      var p, q := Priority(gate.value, now), Priority(other.value, now);
      if q > p || (q == p && other.value.until > gate.value.until) then other else gate
  }

  function MostPressing(gate: Circuit, busy: seq<Circuit>, now: Time): Circuit {
    if busy == [] then gate
    else
      var g := MostPressing(gate, busy[..|busy| - 1], now);
      if Priority(busy[|busy| - 1], now) > Priority(g, now) then busy[|busy| - 1] else g
  }

  /** The gate that decides about a candidate: its dimension's, its key's, or a held row of a
      key whose key-wide gate is open. */
  function GateFor(rows: Rows, d: Dimension, busy: seq<Circuit>, now: Time): Option<Circuit> {
    match Prefer(OpenAt(rows, DimScope(d)), OpenAt(rows, KeyScope(d.keyId)), now)
    case None => None
    case Some(g) => Some(MostPressing(g, busy, now))
  }

  predicate InBackoff(g: Circuit, now: Time) { !g.checkOK && g.checkAt.Some? && After(g.nextCheckAt, now) }

  function ReasonOf(g: Circuit, now: Time): SkipReason {
    if LeaseLive(g, now) then RecoveryInFlight
    else if InBackoff(g, now) then CheckBackoff
    else if CheckLive(g, now) then CheckInFlight
    else if g.until > now then BusinessCooldown
    else RecoveryPending
  }

  function StatusOf(g: Circuit, allowsProbe: bool, now: Time): Status {
    if LeaseLive(g, now) then Validating
    else if InBackoff(g, now) then CheckFailed
    else if CheckLive(g, now) then Checking
    else if g.until > now then Cooldown
    else if !allowsProbe || g.target.path == "" || !SupportsCheck(g.target.path) then WaitingRequest
    else if g.checkAt.Some? && !g.checkOK then CheckFailed
    else WaitingCheck
  }

  /** The candidate as its gate leaves it. */
  function Assess(c: Candidate, gate: Option<Circuit>, now: Time): Candidate {
    match gate
    case None => c
    case Some(g) =>
      var shown := c.(lastRecovery := g.recoveryAt, status := StatusOf(g, c.allowsProbe, now),
                      gateUntil := if LeaseLive(g, now) then g.leaseUntil else g.until);
      if c.eligible then shown.(eligible := false, skip := ReasonOf(g, now)) else shown
  }

  datatype Offer = NotOffered | ToRequests | ToAny

  /** Whether a gated candidate may be validated by a request: one that no check can test, or
      as a last resort one that is left to synthetic checks. */
  function OfferOf(c: Candidate, gate: Option<Circuit>, now: Time): Offer {
    if !c.eligible || gate.None? then NotOffered
    else
      var reason := ReasonOf(gate.value, now);
      if reason == RecoveryPending && StatusOf(gate.value, c.allowsProbe, now) == WaitingRequest then ToRequests
      else if reason == RecoveryPending || reason == CheckBackoff then ToAny
      else NotOffered
  }

  // ------------------------------------------------------- which one comes first

  predicate RecoveryBefore(a: Candidate, b: Candidate) {
    if a.lastRecovery.None? && b.lastRecovery.Some? then true
    else if a.lastRecovery.Some? && b.lastRecovery.None? then false
    else if a.lastRecovery.Some? && a.lastRecovery != b.lastRecovery then a.lastRecovery.value < b.lastRecovery.value
    else if a.gateUntil != b.gateUntil then a.gateUntil < b.gateUntil
    else a.keyId < b.keyId
  }

  /** The order is strict and total on distinct keys. */
  lemma RecoveryOrder(a: Candidate, b: Candidate, c: Candidate)
    ensures !RecoveryBefore(a, a)
    ensures a.keyId != b.keyId ==> (RecoveryBefore(a, b) <==> !RecoveryBefore(b, a))
    ensures !RecoveryBefore(b, a) && !RecoveryBefore(c, b) ==> !RecoveryBefore(c, a)
  {
  }

  // ----------------------------------------------------------------- all of them

  /** What the filter reads: the circuit rows, the held rows of each key, and the clock. */
  datatype Snapshot = Snapshot(rows: Rows, dims: nat -> Dimension, busy: nat -> seq<Circuit>, now: Time)

  function DecidingGate(v: Snapshot, c: Candidate): Option<Circuit> {
    GateFor(v.rows, v.dims(c.keyId), v.busy(c.keyId), v.now)
  }

  function Filtered(v: Snapshot, c: Candidate): Candidate { Assess(c, DecidingGate(v, c), v.now) }

  function OfferedAs(v: Snapshot, c: Candidate): Offer { OfferOf(c, DecidingGate(v, c), v.now) }

  /** `best` is the first of the candidates offered in this way, if any is. */
  ghost predicate IsFirst(v: Snapshot, cands: seq<Candidate>, n: nat, offer: Offer, best: Option<nat>)
    requires n <= |cands|
  {
    && (best.None? ==> forall j :: 0 <= j < n ==> OfferedAs(v, cands[j]) != offer)
    && (best.Some? ==>
          && best.value < n && OfferedAs(v, cands[best.value]) == offer
          && forall j :: 0 <= j < n && OfferedAs(v, cands[j]) == offer ==>
               !RecoveryBefore(Filtered(v, cands[j]), Filtered(v, cands[best.value])))
  }

  function Normal(v: Snapshot, cands: seq<Candidate>): nat {
    if cands == [] then 0
    else
      var c := cands[|cands| - 1];
      Normal(v, cands[..|cands| - 1]) + if c.eligible && DecidingGate(v, c).None? then 1 else 0
  }

  predicate Bound(v: Snapshot, cands: seq<Candidate>, boundKey: nat) {
    exists i :: 0 <= i < |cands| && cands[i].keyId == boundKey && Filtered(v, cands[i]).eligible
  }

  /** Whether gate filtering offers some candidate for validation: without a normal candidate
      any offered one; otherwise one that only requests can validate, for a request without a
      usable binding and within the budget. */
  predicate Validates(v: Snapshot, cands: seq<Candidate>, boundKey: nat, slot: bool) {
    if Normal(v, cands) == 0
    then exists i :: 0 <= i < |cands| && OfferedAs(v, cands[i]) != NotOffered
    else !Bound(v, cands, boundKey) && slot && exists i :: 0 <= i < |cands| && OfferedAs(v, cands[i]) == ToRequests
  }

  /** Finds the gate that decides about a candidate. */
  method FindGate(v: Snapshot, c: Candidate) returns (gate: Option<Circuit>)
    ensures gate == DecidingGate(v, c)
  {
    hide Priority;
    gate := None;
    var d := v.dims(c.keyId);
    var scopes := [DimScope(d), KeyScope(d.keyId)];
    for i := 0 to 2
      invariant i == 0 ==> gate.None?
      invariant i == 1 ==> gate == OpenAt(v.rows, DimScope(d))
      invariant i == 2 ==> gate == Prefer(OpenAt(v.rows, DimScope(d)), OpenAt(v.rows, KeyScope(d.keyId)), v.now)
    {
      var r := OpenAt(v.rows, scopes[i]);
      if r.Some? {
        if gate.None? || Priority(r.value, v.now) > Priority(gate.value, v.now)
           || (Priority(r.value, v.now) == Priority(gate.value, v.now) && r.value.until > gate.value.until) {
          gate := r;
        }
      }
    }
    if gate.Some? {
      var busy, g := v.busy(c.keyId), gate.value;
      for i := 0 to |busy|
        invariant g == MostPressing(gate.value, busy[..i], v.now)
      {
        assert busy[..i + 1][..i] == busy[..i];
        if Priority(busy[i], v.now) > Priority(g, v.now) {
          g := busy[i];
        }
      }
      assert busy[..|busy|] == busy;
      gate := Some(g);
    }
  }

  /** Shows a gate on its candidate, takes the candidate out, and says whether it is offered. */
  method AssessOne(c: Candidate, gate: Option<Circuit>, now: Time) returns (shown: Candidate, offer: Offer)
    ensures shown == Assess(c, gate, now) && offer == OfferOf(c, gate, now)
  {
    hide SupportsCheck;
    shown, offer := c, NotOffered;
    if gate.None? {
      return;
    }
    var g := gate.value;
    shown := shown.(lastRecovery := g.recoveryAt, status := Cooldown, gateUntil := g.until);
    var reason := BusinessCooldown;
    if g.until <= now {
      reason := RecoveryPending;
      shown := shown.(status := WaitingCheck);
      if g.checkAt.Some? && !g.checkOK {
        shown := shown.(status := CheckFailed);
      }
      if !c.allowsProbe || g.target.path == "" || !SupportsCheck(g.target.path) {
        shown := shown.(status := WaitingRequest);
      }
    }
    if After(g.checkUntil, now) {
      reason := CheckInFlight;
      shown := shown.(status := Checking);
    }
    if !g.checkOK && g.checkAt.Some? && After(g.nextCheckAt, now) {
      reason := CheckBackoff;
      shown := shown.(status := CheckFailed);
    }
    if g.leaseUntil > now {
      reason := RecoveryInFlight;
      shown := shown.(gateUntil := g.leaseUntil, status := Validating);
    }
    if c.eligible {
      shown := shown.(eligible := false, skip := reason);
      if reason == RecoveryPending && shown.status == WaitingRequest {
        offer := ToRequests;
      } else if reason == RecoveryPending || reason == CheckBackoff {
        offer := ToAny;
      }
    }
  }

  /** The candidates are assessed one by one, and the first of each kind of offer is kept. */
  method AssessAll(v: Snapshot, cands: seq<Candidate>)
    returns (out: seq<Candidate>, normal: nat, byRequest: Option<nat>, byAny: Option<nat>)
    ensures |out| == |cands| && forall i :: 0 <= i < |out| ==> out[i] == Filtered(v, cands[i])
    ensures normal == Normal(v, cands)
    ensures IsFirst(v, cands, |cands|, ToRequests, byRequest) && IsFirst(v, cands, |cands|, ToAny, byAny)
  {
    hide DecidingGate, ReasonOf, StatusOf, RecoveryBefore;
    out, normal, byRequest, byAny := [], 0, None, None;
    for i := 0 to |cands|
      invariant |out| == i && forall j :: 0 <= j < i ==> out[j] == Filtered(v, cands[j])
      invariant normal == Normal(v, cands[..i])
      invariant IsFirst(v, cands, i, ToRequests, byRequest) && IsFirst(v, cands, i, ToAny, byAny)
    {
      var c := cands[i];
      var gate := FindGate(v, c);
      assert cands[..i + 1][..i] == cands[..i];
      var shown, offer := AssessOne(c, gate, v.now);
      out := out + [shown];
      if gate.None? && c.eligible {
        normal := normal + 1;
      }
      byRequest := First(v, cands, i, ToRequests, byRequest, offer, out);
      byAny := First(v, cands, i, ToAny, byAny, offer, out);
    }
    assert cands[..|cands|] == cands;
  }

  /** Takes the next candidate into account for one kind of offer. */
  method First(v: Snapshot, cands: seq<Candidate>, i: nat, kind: Offer, best: Option<nat>, offer: Offer,
               out: seq<Candidate>)
    returns (first: Option<nat>)
    requires i < |cands| && IsFirst(v, cands, i, kind, best) && offer == OfferedAs(v, cands[i])
    requires |out| == i + 1 && forall j :: 0 <= j <= i ==> out[j] == Filtered(v, cands[j])
    ensures IsFirst(v, cands, i + 1, kind, first)
  {
    hide OfferedAs, Filtered;
    first := best;
    if offer == kind && (best.None? || RecoveryBefore(out[i], out[best.value])) {
      first := Some(i);
    }
    forall j | 0 <= j < i + 1 && first.Some? && OfferedAs(v, cands[j]) == kind
      ensures !RecoveryBefore(Filtered(v, cands[j]), Filtered(v, cands[first.value]))
    {
      if first == Some(i) && best.Some? {
        RecoveryOrder(out[i], out[best.value], out[j]);
      } else if first == Some(i) {
        RecoveryOrder(out[i], out[i], out[i]);
      }
    }
  }

  /** The offers that count for a request: with a normal candidate, only those to requests. */
  predicate Counts(v: Snapshot, cands: seq<Candidate>, i: nat)
    requires i < |cands|
  {
    OfferedAs(v, cands[i]) != NotOffered && (Normal(v, cands) > 0 ==> OfferedAs(v, cands[i]) == ToRequests)
  }

  /** The first of the offers that count. */
  ghost predicate Chosen(v: Snapshot, cands: seq<Candidate>, i: nat)
    requires i < |cands|
  {
    && Counts(v, cands, i)
    && forall j :: 0 <= j < |cands| && Counts(v, cands, j) ==>
         !RecoveryBefore(Filtered(v, cands[j]), Filtered(v, cands[i]))
  }

  /** Filters the candidates. An open gate takes its candidate out, except that at most one of
      them comes back, marked as a recovery validation; the others keep what they were. */
  method ApplyRoutingHealth(v: Snapshot, cands: seq<Candidate>, boundKey: nat, slot: bool) returns (out: seq<Candidate>)
    requires forall i :: 0 <= i < |cands| ==> !cands[i].recovery
    ensures |out| == |cands|
    ensures forall i :: 0 <= i < |out| ==> out[i].keyId == cands[i].keyId && out[i].stats == cands[i].stats
    ensures forall i :: 0 <= i < |out| && DecidingGate(v, cands[i]).None? ==>
              out[i].eligible == cands[i].eligible && !out[i].recovery
    ensures forall i :: 0 <= i < |out| && DecidingGate(v, cands[i]).Some? ==> out[i].eligible == out[i].recovery
    ensures forall i :: 0 <= i < |out| && out[i].recovery ==> Chosen(v, cands, i)
    ensures forall i, j :: 0 <= i < |out| && 0 <= j < |out| && out[i].recovery && out[j].recovery ==> i == j
    ensures (exists i :: 0 <= i < |out| && out[i].recovery) <==> Validates(v, cands, boundKey, slot)
  {
    hide DecidingGate, Chosen, Validates, OfferedAs;
    var recovery;
    out, recovery := Screen(v, cands, boundKey, slot);
    if recovery.Some? {
      AssessedAway(v, cands[recovery.value]);
      out := out[recovery.value := out[recovery.value].(eligible := true, recovery := true, skip := Usable)];
      assert out[recovery.value].recovery;
    }
  }

  /** Takes every gated candidate out, and names the one that may come back. */
  method Screen(v: Snapshot, cands: seq<Candidate>, boundKey: nat, slot: bool)
    returns (out: seq<Candidate>, recovery: Option<nat>)
    ensures |out| == |cands| && forall i :: 0 <= i < |out| ==> Kept(cands[i], out[i], DecidingGate(v, cands[i]))
    ensures recovery.Some? <==> Validates(v, cands, boundKey, slot)
    ensures recovery.Some? ==> recovery.value < |cands| && Chosen(v, cands, recovery.value)
    ensures recovery.Some? ==> OfferedAs(v, cands[recovery.value]) != NotOffered
  {
    hide DecidingGate, OfferedAs, Filtered, IsFirst, Normal, Validates, Bound;
    var normal, byRequest, byAny;
    out, normal, byRequest, byAny := AssessAll(v, cands);
    recovery := FirstOffer(v, cands, out, normal, byRequest, byAny);
    AllowsExactly(v, cands, boundKey, slot, recovery);
    var bound := HasBound(v, cands, out, boundKey);
    var allowed := recovery.Some? && normal == 0;
    if recovery.Some? && normal > 0 && !bound {
      allowed := slot;
    }
    out := ShowWaiting(out, normal, bound, allowed);
    forall i | 0 <= i < |out| ensures Kept(cands[i], out[i], DecidingGate(v, cands[i])) {
      Assessed(v, cands[i]);
    }
    if !allowed {
      recovery := None;
    }
  }

  lemma AllowsExactly(v: Snapshot, cands: seq<Candidate>, boundKey: nat, slot: bool, recovery: Option<nat>)
    requires recovery.Some? ==> recovery.value < |cands| && Chosen(v, cands, recovery.value)
    requires recovery.None? ==>
               forall i :: 0 <= i < |cands| ==>
                 && OfferedAs(v, cands[i]) != ToRequests
                 && (Normal(v, cands) == 0 ==> OfferedAs(v, cands[i]) == NotOffered)
    ensures Validates(v, cands, boundKey, slot) <==>
              recovery.Some? && (Normal(v, cands) == 0 || (!Bound(v, cands, boundKey) && slot))
  {
    hide OfferedAs, Normal, Bound, RecoveryBefore, Filtered;
  }

  /** Without a gate a candidate stays as usable as it was; with one it is out. */
  predicate Kept(before: Candidate, after: Candidate, gate: Option<Circuit>) {
    && after.keyId == before.keyId && after.stats == before.stats && after.recovery == before.recovery
    && after.eligible == (before.eligible && gate.None?)
  }

  /** Prefers a candidate that only requests can validate; without a normal candidate the first
      of all offered ones. */
  method FirstOffer(v: Snapshot, cands: seq<Candidate>, out: seq<Candidate>, normal: nat, byRequest: Option<nat>,
                    byAny: Option<nat>)
    returns (recovery: Option<nat>)
    requires |out| == |cands| && normal == Normal(v, cands)
    requires forall i :: 0 <= i < |out| ==> out[i] == Filtered(v, cands[i])
    requires IsFirst(v, cands, |cands|, ToRequests, byRequest) && IsFirst(v, cands, |cands|, ToAny, byAny)
    ensures recovery.Some? ==> recovery.value < |cands| && Chosen(v, cands, recovery.value)
    ensures recovery.None? ==>
              forall i :: 0 <= i < |cands| ==>
                && OfferedAs(v, cands[i]) != ToRequests
                && (normal == 0 ==> OfferedAs(v, cands[i]) == NotOffered)
  {
    hide Normal, OfferedAs, Filtered;
    recovery := byRequest;
    if normal == 0 && byAny.Some? && (recovery.None? || RecoveryBefore(out[byAny.value], out[recovery.value])) {
      recovery := byAny;
    }
    forall j | 0 <= j < |cands| && recovery.Some? && Counts(v, cands, j)
      ensures !RecoveryBefore(Filtered(v, cands[j]), Filtered(v, cands[recovery.value]))
    {
      if byRequest.Some? && byAny.Some? {
        RecoveryOrder(out[byAny.value], out[byRequest.value], out[j]);
        RecoveryOrder(out[byRequest.value], out[byAny.value], out[j]);
      }
    }
  }

  method HasBound(v: Snapshot, cands: seq<Candidate>, out: seq<Candidate>, boundKey: nat) returns (bound: bool)
    requires |out| == |cands| && forall i :: 0 <= i < |out| ==> out[i] == Filtered(v, cands[i])
    ensures bound == Bound(v, cands, boundKey)
  {
    bound := false;
    for i := 0 to |out|
      invariant bound == exists j :: 0 <= j < i && cands[j].keyId == boundKey && Filtered(v, cands[j]).eligible
    {
      Assessed(v, cands[i]);
      if out[i].keyId == boundKey && out[i].eligible {
        bound := true;
      }
    }
  }

  /** Says what a candidate that waits for a request is waiting for. */
  method ShowWaiting(cands: seq<Candidate>, normal: nat, bound: bool, allowed: bool) returns (out: seq<Candidate>)
    ensures |out| == |cands|
    ensures forall i :: 0 <= i < |out| ==>
              out[i] == cands[i].(status := Waiting(cands[i].status, normal, bound, allowed))
  {
    out := cands;
    for i := 0 to |out|
      invariant |out| == |cands|
      invariant forall j :: 0 <= j < |out| ==>
                  out[j]
                  == if j < i then cands[j].(status := Waiting(cands[j].status, normal, bound, allowed)) else cands[j]
    {
      if out[i].status == WaitingRequest && normal > 0 {
        if bound {
          out := out[i := out[i].(status := WaitingSession)];
        } else if !allowed {
          out := out[i := out[i].(status := WaitingBudget)];
        }
      }
    }
  }

  function Waiting(s: Status, normal: nat, bound: bool, allowed: bool): Status {
    if s != WaitingRequest || normal == 0 then s
    else if bound then WaitingSession else if !allowed then WaitingBudget else s
  }

  lemma Assessed(v: Snapshot, c: Candidate)
    ensures Filtered(v, c).recovery == c.recovery && Filtered(v, c).keyId == c.keyId && Filtered(v, c).stats == c.stats
    ensures Filtered(v, c).eligible == (c.eligible && DecidingGate(v, c).None?)
  {
  }

  lemma AssessedAway(v: Snapshot, c: Candidate)
    requires OfferedAs(v, c) != NotOffered
    ensures c.eligible && DecidingGate(v, c).Some?
  {
  }
}
