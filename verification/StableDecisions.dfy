/** Stable-latency decisions: sessions stay with the key they are bound to, a faster key has to
    prove itself before it takes over, and a success commits the decision it followed. */
module StableDecisions {
  import opened Wrappers
  import opened GateFilter
  import opened StablePool

  datatype Binding = Binding(key: nat, expires: int, challenger: nat, since: int)

  datatype Response = Response(session: string, expires: int)

  datatype State = State(
    bindings: map<string, Binding>, responses: map<string, Response>, explored: map<nat, int>, expires: int)

  const BLANK := State(map[], map[], map[], 0)

  datatype Config = Config(
    minSamples: nat, switchMs: int, switchRatio: real, confirmSec: nat, explorationRatio: real, stickySec: nat,
    digest: string -> string)

  const SESSIONLESS_SEC: nat := 900
  const EXPLORE_PAUSE_MS: nat := 60000
  const FRESH_SAMPLES: nat := 3

  datatype Request = Request(session: string, excluding: bool, slot: bool)

  datatype Sample = Sample(success: bool, ttft: int, completedAt: int)

  /** What a decision sees of the candidates. */
  datatype View = View(cands: seq<Candidate>, reliable: seq<bool>, degraded: bool, best: nat, rows: nat -> seq<Sample>)

  predicate ValidView(v: View) {
    && |v.reliable| == |v.cands| && v.best < |v.cands| && v.cands[v.best].eligible
    && (forall i :: 0 <= i < |v.cands| ==> v.cands[i].keyId > 0 && (v.reliable[i] ==> v.cands[i].eligible))
  }

  datatype Reason =
    | InitialSelection | Reuse | LatencyImproved | ReliabilityDropped | BindingUnavailable | Skipped(why: SkipReason)
    | Failover | ChallengerTrial | Explored | RecoveryValidation

  /** A decision, with what it found out about the session's binding. */
  datatype Decision = Decision(
    session: string, previous: nat, key: nat, reason: Reason, exploration: bool,
    inPlay: bool, better: Option<nat>, since: int, samples: nat, at: int)

  // ---------------------------------------------------------------------- the state

  /** The state without what has expired. */
  function Prepared(s: State, now: int): State {
    if s.expires <= now then BLANK
    else s.(bindings := map k | k in s.bindings && s.bindings[k].expires > now :: s.bindings[k],
            responses := map k | k in s.responses && s.responses[k].expires > now :: s.responses[k])
  }

  function Max(a: int, b: int): int { if a < b then b else a }

  function Stored(cfg: Config, s: State, now: int): State {
    s.(expires := now + Max(cfg.stickySec, SESSIONLESS_SEC) * 1000)
  }

  function BindingOf(s: State, session: string): Option<Binding> {
    if session in s.bindings then Some(s.bindings[session]) else None
  }

  // ----------------------------------------------------------- weighing the binding

  function IndexFrom(cands: seq<Candidate>, key: nat, i: nat): (r: Option<nat>)
    requires i <= |cands|
    ensures r.Some? ==> i <= r.value < |cands| && cands[r.value].keyId == key
    ensures r.None? ==> forall j :: i <= j < |cands| ==> cands[j].keyId != key
    decreases |cands| - i
  {
    if i == |cands| then None else if cands[i].keyId == key then Some(i) else IndexFrom(cands, key, i + 1)
  }

  function Current(v: View, b: Option<Binding>): Option<nat> {
    if b.None? then None else IndexFrom(v.cands, b.value.key, 0)
  }

  /** The bound key is usable and reliable, so that the binding stands unless it is beaten. */
  predicate InPlay(v: View, b: Option<Binding>)
    requires ValidView(v)
  {
    var i := Current(v, b);
    i.Some? && v.cands[i.value].eligible
    && (v.reliable[i.value]
        || (v.degraded && v.cands[i.value].stats.quality + TOLERANCE >= v.cands[v.best].stats.quality))
  }

  /** The best candidate is clearly faster than the bound one, and no less successful. */
  predicate Improved(cfg: Config, v: View, i: nat)
    requires ValidView(v) && i < |v.cands|
  {
    var c, b := v.cands[i].stats, v.cands[v.best].stats;
    var gap := c.ttft - b.ttft;
    && v.best != i && b.latencySamples >= cfg.minSamples && c.latencySamples >= cfg.minSamples
    && b.successRate >= c.successRate
    && gap > 0 && (gap >= cfg.switchMs || gap as real >= c.ttft as real * cfg.switchRatio)
  }

  function Challenged(b: Binding, challenger: nat, now: int): Binding {
    if b.challenger != challenger then b.(challenger := challenger, since := now) else b
  }

  function Fresh(rows: seq<Sample>, since: int): nat {
    if rows == [] then 0
    else
      var r := rows[|rows| - 1];
      Fresh(rows[..|rows| - 1], since) + if r.success && r.ttft > 0 && r.completedAt > since then 1 else 0
  }

  predicate Confirmed(cfg: Config, v: View, b: Binding, now: int)
    requires ValidView(v)
  {
    now - b.since >= cfg.confirmSec * 1000 && Fresh(v.rows(v.cands[v.best].keyId), b.since) >= FRESH_SAMPLES
  }

  /** The binding as a decision that keeps it in play leaves it. */
  function Rebound(cfg: Config, v: View, b: Binding, i: nat, now: int): Binding
    requires ValidView(v) && i < |v.cands|
  {
    if Improved(cfg, v, i) then Challenged(b, v.cands[v.best].keyId, now) else b.(challenger := 0, since := 0)
  }

  datatype Verdict = Verdict(chosen: nat, reason: Reason, binding: Option<Binding>)

  /** What the binding says about the choice. */
  function Weigh(cfg: Config, v: View, b: Option<Binding>, now: int): Verdict
    requires ValidView(v)
  {
    if InPlay(v, b) then
      var i := Current(v, b).value;
      var bound := Rebound(cfg, v, b.value, i, now);
      if Improved(cfg, v, i) && Confirmed(cfg, v, bound, now) then Verdict(v.best, LatencyImproved, Some(bound))
      else Verdict(i, Reuse, Some(bound))
    else if b.None? then Verdict(v.best, InitialSelection, None)
    else if Current(v, b).None? then Verdict(v.best, BindingUnavailable, None)
    else if v.cands[Current(v, b).value].eligible then Verdict(v.best, ReliabilityDropped, None)
    else Verdict(v.best, Skipped(v.cands[Current(v, b).value].skip), None)
  }

  // --------------------------------------------------------------------- exploring

  function ExploredAt(s: State, key: nat): int { if key in s.explored then s.explored[key] else 0 }

  predicate Explorable(v: View, s: State, chosen: nat, now: int, i: nat)
    requires i < |v.cands|
  {
    var c := v.cands[i];
    c.eligible && i != chosen && now - ExploredAt(s, c.keyId) >= EXPLORE_PAUSE_MS
    && !(c.stats.samples >= 3 && c.stats.successRate < 0.8)
  }

  predicate Colder(a: Candidate, b: Candidate) {
    a.stats.lastSampleAt < b.stats.lastSampleAt || (a.stats.lastSampleAt == b.stats.lastSampleAt && a.keyId < b.keyId)
  }

  /** The coldest of the first `n` candidates that may be explored. */
  function Coldest(v: View, s: State, chosen: nat, now: int, n: nat): (r: Option<nat>)
    requires n <= |v.cands|
    ensures r.Some? ==> r.value < n && Explorable(v, s, chosen, now, r.value)
    ensures r.None? ==> forall i :: 0 <= i < n ==> !Explorable(v, s, chosen, now, i)
    ensures r.Some? ==> forall i :: 0 <= i < n && Explorable(v, s, chosen, now, i) ==>
            !Colder(v.cands[i], v.cands[r.value])
  {
    if n == 0 then None
    else
      var r := Coldest(v, s, chosen, now, n - 1);
      if Explorable(v, s, chosen, now, n - 1) && (r.None? || Colder(v.cands[n - 1], v.cands[r.value]))
      then Some(n - 1) else r
  }

  /** A bound session lends its slot to a faster challenger, so that it gets samples at all. */
  predicate Trial(cfg: Config, s: State, req: Request, v: View, i: Option<nat>, verdict: Verdict, now: int)
    requires ValidView(v) && (i.Some? ==> i.value < |v.cands|)
  {
    && req.session != "" && verdict.reason == Reuse && i.Some? && verdict.chosen == i.value && v.best != i.value
    && req.slot && cfg.explorationRatio > 0.0
    && var c, b := v.cands[i.value].stats, v.cands[v.best].stats;
       && (b.latencySamples < cfg.minSamples || (c.latencySamples >= cfg.minSamples && b.ttft < c.ttft))
       && now - ExploredAt(s, v.cands[v.best].keyId) >= EXPLORE_PAUSE_MS
  }

  /** Requests that no binding holds may try the coldest candidate. */
  function Exploration(cfg: Config, s: State, req: Request, v: View, b: Option<Binding>, chosen: nat, now: int)
    : Option<nat>
  {
    if (req.session == "" || b.None?) && cfg.explorationRatio > 0.0 && req.slot
    then Coldest(v, s, chosen, now, |v.cands|) else None
  }

  // -------------------------------------------------------------------- a decision

  /** The state that a decision stores, and the decision. */
  function Decide(cfg: Config, s: State, req: Request, v: View, now: int): (State, Decision)
    requires ValidView(v)
  {
    var b := BindingOf(s, req.session);
    var verdict := Weigh(cfg, v, b, now);
    var bound := if verdict.binding.Some? then s.(bindings := s.bindings[req.session := verdict.binding.value]) else s;
    var i := Current(v, b);
    var better := if InPlay(v, b) && Improved(cfg, v, i.value) then Some(v.cands[v.best].keyId) else None;
    var since := if verdict.binding.Some? then verdict.binding.value.since else 0;
    var previous := if b.Some? then b.value.key else 0;
    var decided := Decision(req.session, previous, v.cands[verdict.chosen].keyId, verdict.reason, false,
                            InPlay(v, b), better, since, Fresh(v.rows(v.cands[v.best].keyId), since), now);
    if req.excluding then (bound, decided.(reason := Failover))
    else if Trial(cfg, s, req, v, i, verdict, now)
    then (bound.(explored := s.explored[v.cands[v.best].keyId := now]),
          decided.(key := v.cands[v.best].keyId, reason := ChallengerTrial, exploration := true))
    else
      match Exploration(cfg, s, req, v, b, verdict.chosen, now)
      case None => (bound, decided)
      case Some(e) =>
        (bound.(explored := s.explored[v.cands[e].keyId := now]),
         decided.(key := v.cands[e].keyId, reason := Explored, exploration := true))
  }

  // ---------------------------------------------------------------------- a commit

  predicate Rebinds(s: State, d: Decision) {
    && d.reason != ChallengerTrial && (!d.exploration || d.session != "")
    && var was := BindingOf(s, d.session);
       was.None? || was.value.key == d.key || was.value.key == d.previous
  }

  function Bind(cfg: Config, s: State, d: Decision, now: int): State {
    if !Rebinds(s, d) then s
    else
      var ttl := if d.session != "" then cfg.stickySec else SESSIONLESS_SEC;
      var was := BindingOf(s, d.session);
      var kept := if was.Some? && was.value.key == d.key then was.value else Binding(d.key, 0, 0, 0);
      s.(bindings := s.bindings[d.session := kept.(expires := now + ttl * 1000)])
  }

  /** The session that a response is remembered under. */
  function ResponseSession(cfg: Config, d: Decision, id: string): string {
    if d.session == "" then cfg.digest("response:" + id) else d.session
  }

  function Remember(cfg: Config, s: State, d: Decision, id: string, now: int): State {
    var session, expires := ResponseSession(cfg, d, id), now + cfg.stickySec * 1000;
    var bound := if d.session == "" then s.(bindings := s.bindings[session := Binding(d.key, expires, 0, 0)]) else s;
    bound.(responses := bound.responses[cfg.digest(id) := Response(session, expires)])
  }

  /** A successful request commits its decision; `id` is the response id, if there is one. */
  function Commit(cfg: Config, s: State, d: Decision, id: string, now: int): State {
    if d.reason == RecoveryValidation then s
    else
      var bound := Bind(cfg, s, d, now);
      if id == "" then bound else Remember(cfg, bound, d, id, now)
  }
}
