/** What the gate filter tells about a gated candidate, for the rows that runs of the protocol reach:
    the reason is the one thing that stands in its way, and who comes first is a simple order. */
module GateLaws {
  import opened Wrappers
  import opened Circuits
  import opened CircuitRuns
  import opened GateFilter
  import opened GateAdmission

  /** The deciding gate of a reachable state holds at most one of: a live check, a cooldown, and the
      delay after a failed check. */
  lemma OneObstacle(r: Circuit, now: Time)
    requires Disciplined(r, now)
    ensures !(r.until > now && CheckLive(r, now))
    ensures !(r.until > now && After(r.nextCheckAt, now))
    ensures !(CheckLive(r, now) && After(r.nextCheckAt, now))
  {
  }

  /** A usable candidate with a gate is taken out for the one reason that applies: a request is validating
      the gate, or else a check is, or its cooldown lasts, or a failed check delays it, or none of
      these, and then it only waits. */
  lemma ReasonMeans(c: Candidate, g: Circuit, now: Time)
    requires c.eligible && Disciplined(g, now)
    ensures var shown := Assess(c, Some(g), now);
            && !shown.eligible && shown.lastRecovery == g.recoveryAt
            && (shown.skip == RecoveryInFlight <==> g.leaseUntil > now)
            && (shown.skip == CheckInFlight <==> g.leaseUntil <= now && CheckLive(g, now))
            && (shown.skip == BusinessCooldown <==> g.leaseUntil <= now && g.until > now)
            && (shown.skip == CheckBackoff <==> g.leaseUntil <= now && After(g.nextCheckAt, now))
            && (shown.skip == RecoveryPending <==>
                  g.leaseUntil <= now && g.until <= now && !CheckLive(g, now) && !After(g.nextCheckAt, now))
            && shown.gateUntil == if g.leaseUntil > now then g.leaseUntil else g.until
  {
    OneObstacle(g, now);
  }

  /** Over every run: so for the deciding gate of any state it reaches. */
  lemma ReasonsInRuns(cfg: Config, states: seq<World>, steps: seq<Step>, k: nat, s: Scope, c: Candidate, now: Time)
    requires Run(cfg, states, steps) && k <= |steps| && (k > 0 ==> steps[k - 1].now <= now)
    requires s in states[k].rows && c.eligible
    ensures var g := states[k].rows[s];
            var skip := Assess(c, Some(g), now).skip;
            && (skip == RecoveryInFlight <==> g.leaseUntil > now)
            && (skip == BusinessCooldown <==> g.leaseUntil <= now && g.until > now)
            && (skip == CheckInFlight || skip == CheckBackoff ==> g.until <= now)
  {
    RunIsDisciplined(cfg, states, steps, k, now);
    hide Run, Assess;
    ReasonMeans(c, states[k].rows[s], now);
  }

  /** A synthetic check can test the gate: the key allows it, and the path has one. */
  predicate Checkable(c: Candidate, g: Circuit) {
    c.allowsProbe && g.target.path in ["/v1/responses", "/v1/chat/completions", "/v1/messages"]
  }

  /** A candidate is offered to requests exactly when its gate only waits and no check can test it, and as
      a last resort when a check could, or has failed and is delayed. */
  lemma OfferMeans(c: Candidate, g: Circuit, now: Time)
    requires Disciplined(g, now)
    ensures var waits := g.leaseUntil <= now && g.until <= now && !CheckLive(g, now);
            && (OfferOf(c, Some(g), now) == ToRequests <==>
                  c.eligible && waits && !After(g.nextCheckAt, now) && !Checkable(c, g))
            && (OfferOf(c, Some(g), now) == ToAny <==>
                  c.eligible && waits && (After(g.nextCheckAt, now) || Checkable(c, g)))
  {
    OneObstacle(g, now);
    assert |""| == 0 && |"/v1/responses"| == 13;
  }

  /** When a candidate was last recovered; never comes before any time. */
  function LastTime(c: Candidate): int { if c.lastRecovery.None? then -1 else c.lastRecovery.value }

  /** The one recovered longest ago comes first, or never; of equals the one whose gate ended first, and
      then the lower key. */
  lemma OrderMeans(a: Candidate, b: Candidate)
    ensures RecoveryBefore(a, b) <==>
              || LastTime(a) < LastTime(b)
              || (LastTime(a) == LastTime(b) && a.gateUntil < b.gateUntil)
              || (LastTime(a) == LastTime(b) && a.gateUntil == b.gateUntil && a.keyId < b.keyId)
  {
  }
}
