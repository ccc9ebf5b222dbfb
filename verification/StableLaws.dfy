/** What stable-latency decisions mean, said of the candidates' numbers, the stored binding and the
    steps of the run. */
module StableLaws {
  import opened Wrappers
  import opened GateFilter
  import opened StablePool
  import opened StableDecisions
  import opened StableRuns

  // ------------------------------------------------------------------- the numbers

  /** The challenger's latency is below the incumbent's, by the configured milliseconds or share; both
      are known from enough samples, and it succeeds no less often. */
  predicate Outpaces(cfg: Config, challenger: Stats, incumbent: Stats) {
    && challenger.latencySamples >= cfg.minSamples && incumbent.latencySamples >= cfg.minSamples
    && challenger.successRate >= incumbent.successRate
    && challenger.ttft < incumbent.ttft
    && (|| challenger.ttft + cfg.switchMs <= incumbent.ttft
        || challenger.ttft as real + incumbent.ttft as real * cfg.switchRatio <= incumbent.ttft as real)
  }

  /** The i-th candidate is the one a binding to this key means. */
  predicate IsBound(v: View, key: nat, i: nat) {
    i < |v.cands| && v.cands[i].keyId == key && forall j :: 0 <= j < i ==> v.cands[j].keyId != key
  }

  /** The candidate is usable, and reliable or, when none is, as good as the best. */
  predicate Holds(v: View, i: nat)
    requires ValidView(v) && i < |v.cands|
  {
    && v.cands[i].eligible
    && (v.reliable[i] || (v.degraded && v.cands[i].stats.quality + TOLERANCE >= v.cands[v.best].stats.quality))
  }

  /** In this view a binding to the key stands: its candidate i is usable and reliable. */
  predicate StandsAt(v: View, key: nat, i: nat)
    requires ValidView(v)
  {
    IsBound(v, key, i) && Holds(v, i)
  }

  /** In this view the challenger is the best candidate and outpaces the bound key. */
  ghost predicate BeatenBy(cfg: Config, v: View, key: nat, challenger: nat)
    requires ValidView(v)
  {
    && v.cands[v.best].keyId == challenger
    && exists i: nat :: StandsAt(v, key, i) && Outpaces(cfg, v.cands[v.best].stats, v.cands[i].stats)
  }

  /** The successes of a key that were measured after a moment. */
  ghost function Measured(rows: seq<Sample>, since: int): set<nat> {
    set i: nat | i < |rows| && rows[i].success && rows[i].ttft > 0 && rows[i].completedAt > since
  }

  lemma {:induction false} FreshAreMeasured(rows: seq<Sample>, since: int)
    ensures Fresh(rows, since) == |Measured(rows, since)|
  {
    if rows == [] {
      assert Measured(rows, since) == {};
    } else {
      var n := |rows| - 1;
      FreshAreMeasured(rows[..n], since);
      var before, all := Measured(rows[..n], since), Measured(rows, since);
      if rows[n].success && rows[n].ttft > 0 && rows[n].completedAt > since {
        assert all == before + {n};
      } else {
        assert all == before;
      }
    }
  }

  lemma MeasuredEarlier(rows: seq<Sample>, since: int, later: int)
    requires since <= later
    ensures |Measured(rows, later)| <= |Measured(rows, since)|
  {
    FewerIsLess(Measured(rows, later), Measured(rows, since));
  }

  lemma {:induction false} FewerIsLess<T>(a: set<T>, b: set<T>)
    requires a <= b
    ensures |a| <= |b|
    decreases |a|
  {
    if a != {} {
      var x :| x in a;
      FewerIsLess(a - {x}, b - {x});
    }
  }

  lemma BoundIsCurrent(v: View, b: Binding)
    ensures forall i: nat :: IsBound(v, b.key, i) <==> Current(v, Some(b)) == Some(i)
  {
    FirstIsIndex(v, b.key, 0);
  }

  lemma {:induction false} FirstIsIndex(v: View, key: nat, from: nat)
    requires from <= |v.cands| && forall j :: 0 <= j < from ==> v.cands[j].keyId != key
    ensures forall i: nat :: IsBound(v, key, i) <==> IndexFrom(v.cands, key, from) == Some(i)
    decreases |v.cands| - from
  {
    if from < |v.cands| && v.cands[from].keyId != key {
      FirstIsIndex(v, key, from + 1);
    }
  }

  lemma OutpacesIsImproved(cfg: Config, v: View, i: nat)
    requires ValidView(v) && i < |v.cands|
    ensures Improved(cfg, v, i) <==> Outpaces(cfg, v.cands[v.best].stats, v.cands[i].stats)
  {
  }

  // ----------------------------------------------------------------- one decision

  /** The session's binding stands in this view, with candidate i. */
  predicate Standing(s: State, session: string, v: View, i: nat)
    requires ValidView(v)
  {
    session in s.bindings && StandsAt(v, s.bindings[session].key, i)
  }

  /** The best candidate outpaces the bound one, was already the challenger, and has proved itself for
      the confirmation time and by three successes measured since. */
  ghost predicate Ripe(cfg: Config, s: State, session: string, v: View, i: nat, now: int)
    requires ValidView(v) && Standing(s, session, v, i)
  {
    var b, key := s.bindings[session], v.cands[v.best].keyId;
    var since := if b.challenger == key then b.since else now;
    && Outpaces(cfg, v.cands[v.best].stats, v.cands[i].stats)
    && now - since >= cfg.confirmSec * 1000 && |Measured(v.rows(key), since)| >= 3
  }

  /** A request without a bound session may explore. */
  predicate Explores(cfg: Config, s: State, req: Request) {
    !req.excluding && req.slot && cfg.explorationRatio > 0.0 && (req.session == "" || req.session !in s.bindings)
  }

  /** A bound session may lend its slot to the best candidate, which is not yet known to be slower. */
  predicate Lends(cfg: Config, s: State, req: Request, v: View, i: nat, now: int)
    requires ValidView(v) && i < |v.cands|
  {
    var best, bound := v.cands[v.best].stats, v.cands[i].stats;
    && !req.excluding && req.slot && cfg.explorationRatio > 0.0 && req.session != "" && v.best != i
    && (best.latencySamples < cfg.minSamples || (bound.latencySamples >= cfg.minSamples && best.ttft < bound.ttft))
    && Rested(s, v.cands[v.best].keyId, now)
  }

  /** The key was not explored in the last minute. */
  predicate Rested(s: State, key: nat, now: int) { (if key in s.explored then s.explored[key] else 0) + 60000 <= now }

  /** What the binding leads to, before anything is tried out: a standing binding is left for the best
      candidate exactly when that is ripe; without one the best is taken. */
  lemma WeighLaw(cfg: Config, s: State, session: string, v: View, now: int)
    requires ValidView(v)
    ensures var w := Weigh(cfg, v, BindingOf(s, session), now);
            && (forall i: nat :: Standing(s, session, v, i) ==>
                  && InPlay(v, BindingOf(s, session)) && Current(v, BindingOf(s, session)) == Some(i)
                  && (if Ripe(cfg, s, session, v, i, now) then w.chosen == v.best && w.reason == LatencyImproved
                      else w.chosen == i && w.reason == Reuse))
            && ((forall i: nat :: !Standing(s, session, v, i)) ==>
                  !InPlay(v, BindingOf(s, session)) && w.chosen == v.best && w.reason != Reuse
                  && w.reason != LatencyImproved)
  {
    if session in s.bindings {
      var b := s.bindings[session];
      BoundIsCurrent(v, b);
      var i := Current(v, Some(b));
      if i.Some? {
        OutpacesIsImproved(cfg, v, i.value);
        var since := Rebound(cfg, v, b, i.value, now).since;
        FreshAreMeasured(v.rows(v.cands[v.best].keyId), since);
        hide Fresh, Improved, Measured, Outpaces;
        assert forall k: nat :: Standing(s, session, v, k) ==> k == i.value;
      }
    }
  }

  /** A candidate that may be tried out: usable, not the chosen one, rested, and without a bad record. */
  predicate MayExplore(s: State, v: View, chosen: nat, now: int, k: nat) {
    && k < |v.cands| && v.cands[k].eligible && k != chosen && Rested(s, v.cands[k].keyId, now)
    && (v.cands[k].stats.samples < 3 || v.cands[k].stats.successRate >= 0.8)
  }

  /** Of those that may be tried out, it was sampled longest ago. */
  ghost predicate IsColdest(s: State, v: View, chosen: nat, now: int, k: nat) {
    && MayExplore(s, v, chosen, now, k)
    && forall j: nat :: MayExplore(s, v, chosen, now, j) ==>
         v.cands[k].stats.lastSampleAt <= v.cands[j].stats.lastSampleAt
  }

  /** What a request with a standing binding gets, for every session with a name: the bound key, unless
      the best candidate is ripe, or is to be tried out. */
  lemma BoundDecisionLaw(cfg: Config, s: State, req: Request, v: View, now: int, i: nat)
    requires ValidView(v) && Standing(s, req.session, v, i) && req.session != ""
    ensures var (t, d) := Decide(cfg, s, req, v, now);
            var best := v.cands[v.best].keyId;
            && d.previous == s.bindings[req.session].key && d.inPlay
            && if Ripe(cfg, s, req.session, v, i, now) then
                 d.key == best && !d.exploration && d.reason == if req.excluding then Failover else LatencyImproved
               else if Lends(cfg, s, req, v, i, now) then
                 d.key == best && d.exploration && d.reason == ChallengerTrial && t.explored == s.explored[best := now]
               else
                 d.key == d.previous && !d.exploration && d.reason == (if req.excluding then Failover else Reuse)
                 && t.explored == s.explored
  {
    WeighLaw(cfg, s, req.session, v, now);
    hide Improved, Weigh, InPlay, StableDecisions.Current, Coldest, Fresh, Ripe, StandsAt;
    assert v.cands[i].keyId == s.bindings[req.session].key by { BoundKey(s, req.session, v, i); }
  }

  /** Reuse means the bound key, whatever the session. */
  lemma ReuseReturnsTheBoundKey(cfg: Config, s: State, req: Request, v: View, now: int)
    requires ValidView(v) && Decide(cfg, s, req, v, now).1.reason == Reuse
    ensures var d := Decide(cfg, s, req, v, now).1;
            && req.session in s.bindings && d.key == d.previous == s.bindings[req.session].key && !d.exploration
            && exists i: nat :: Standing(s, req.session, v, i) && !Ripe(cfg, s, req.session, v, i, now)
  {
    WeighLaw(cfg, s, req.session, v, now);
    hide Improved, Weigh, InPlay, StableDecisions.Current, Coldest, Fresh, Ripe, Standing, Trial;
    var i: nat :| Standing(s, req.session, v, i);
    BoundKey(s, req.session, v, i);
  }

  /** Requests without a session share one binding, and explore in spite of it. */
  lemma NamelessDecisionLaw(cfg: Config, s: State, req: Request, v: View, now: int, i: nat)
    requires ValidView(v) && Standing(s, req.session, v, i) && req.session == ""
    ensures var (t, d) := Decide(cfg, s, req, v, now);
            var chosen := if Ripe(cfg, s, "", v, i, now) then v.best else i;
            if Explores(cfg, s, req) && exists k: nat :: MayExplore(s, v, chosen, now, k) then
              && d.exploration && d.reason == Explored && t.explored == s.explored[d.key := now]
              && exists k: nat :: IsColdest(s, v, chosen, now, k) && v.cands[k].keyId == d.key
            else !d.exploration && d.key == v.cands[chosen].keyId && t.explored == s.explored
  {
    WeighLaw(cfg, s, req.session, v, now);
    var chosen := if Ripe(cfg, s, "", v, i, now) then v.best else i;
    var found := Coldest(v, s, chosen, now, |v.cands|);
    assert forall k: nat :: k < |v.cands| ==>
        (Explorable(v, s, chosen, now, k) <==> MayExplore(s, v, chosen, now, k));
    assert found.Some? ==> IsColdest(s, v, chosen, now, found.value);
    hide Improved, Weigh, InPlay, StableDecisions.Current, Coldest, Fresh, Ripe, Standing, Explorable, MayExplore,
         IsColdest;
  }

  lemma BoundKey(s: State, session: string, v: View, i: nat)
    requires ValidView(v) && Standing(s, session, v, i)
    ensures i < |v.cands| && v.cands[i].keyId == s.bindings[session].key
  {
  }

  /** What a request without a standing binding gets: the coldest candidate when it may explore and
      there is one, and the best candidate otherwise. */
  lemma UnboundDecisionLaw(cfg: Config, s: State, req: Request, v: View, now: int)
    requires ValidView(v) && forall i: nat :: !Standing(s, req.session, v, i)
    ensures var (t, d) := Decide(cfg, s, req, v, now);
            && !d.inPlay && t.bindings == s.bindings
            && if Explores(cfg, s, req) && exists k: nat :: MayExplore(s, v, v.best, now, k) then
                 && d.exploration && d.reason == Explored && t.explored == s.explored[d.key := now]
                 && exists k: nat :: IsColdest(s, v, v.best, now, k) && v.cands[k].keyId == d.key
               else
                 && !d.exploration && d.key == v.cands[v.best].keyId && t.explored == s.explored
                 && (req.excluding <==> d.reason == Failover)
  {
    WeighLaw(cfg, s, req.session, v, now);
    var b := BindingOf(s, req.session);
    WeighKeeps(cfg, v, b, now);
    var found := Coldest(v, s, v.best, now, |v.cands|);
    assert forall k: nat :: k < |v.cands| ==>
        (Explorable(v, s, v.best, now, k) <==> MayExplore(s, v, v.best, now, k));
    assert found.Some? ==> IsColdest(s, v, v.best, now, found.value);
    WeighNeverTries(cfg, v, b, now);
    hide Improved, Weigh, InPlay, StableDecisions.Current, Coldest, Fresh, Ripe, Standing, Explorable, MayExplore,
         IsColdest;
  }

  lemma WeighNeverTries(cfg: Config, v: View, b: Option<Binding>, now: int)
    requires ValidView(v)
    ensures var reason := Weigh(cfg, v, b, now).reason;
            reason != Failover && reason != Explored && reason != ChallengerTrial
  {
    hide Improved, InPlay, Fresh;
  }

  /** Why a request without a standing binding does not reuse one. */
  lemma UnboundReasonLaw(cfg: Config, s: State, req: Request, v: View, now: int)
    requires ValidView(v) && forall i: nat :: !Standing(s, req.session, v, i)
    requires !req.excluding && !Explores(cfg, s, req)
    ensures var d := Decide(cfg, s, req, v, now).1;
            && (req.session !in s.bindings <==> d.reason == InitialSelection)
            && (req.session in s.bindings ==>
                  var key := s.bindings[req.session].key;
                  && ((forall i: nat :: !IsBound(v, key, i)) <==> d.reason == BindingUnavailable)
                  && forall i: nat :: IsBound(v, key, i) ==>
                       d.reason == if v.cands[i].eligible then ReliabilityDropped else Skipped(v.cands[i].skip))
  {
    WeighLaw(cfg, s, req.session, v, now);
    if req.session in s.bindings {
      BoundIsCurrent(v, s.bindings[req.session]);
    }
    hide Improved, InPlay, Coldest, Fresh, Ripe, Standing, Explorable;
  }

  /** What a decision stores: a standing binding is challenged by the best candidate while that outpaces
      it, from the first time on, and is rid of its challenger otherwise. Nothing else is stored. */
  lemma BindingLaw(cfg: Config, s: State, req: Request, v: View, now: int, i: nat)
    requires ValidView(v) && Standing(s, req.session, v, i)
    ensures var t, b, best := Decide(cfg, s, req, v, now).0, s.bindings[req.session], v.cands[v.best].keyId;
            t.bindings == s.bindings[req.session :=
              if !Outpaces(cfg, v.cands[v.best].stats, v.cands[i].stats) then Binding(b.key, b.expires, 0, 0)
              else if b.challenger == best then b
              else Binding(b.key, b.expires, best, now)]
  {
    WeighLaw(cfg, s, req.session, v, now);
    OutpacesIsImproved(cfg, v, i);
    WeighKeeps(cfg, v, BindingOf(s, req.session), now);
    hide Improved, InPlay, StableDecisions.Current, Weigh, Coldest, Fresh, Ripe, Outpaces, Standing;
  }

  // -------------------------------------------------------------------- every run

  /** The state that step k finds. */
  function Found(cfg: Config, steps: seq<Step>, k: nat): State
    requires k < |steps| && ValidSteps(steps)
  {
    Prepared(After(cfg, steps[..k]).state, steps[k].now)
  }

  /** The decision that step k makes. */
  function MadeAt(cfg: Config, steps: seq<Step>, k: nat): Decision
    requires k < |steps| && ValidSteps(steps) && steps[k].Decided?
  {
    Decide(cfg, Found(cfg, steps, k), steps[k].req, steps[k].view, steps[k].now).1
  }

  /** Step k decides for the session, whose binding stands there. */
  ghost predicate StandsIn(cfg: Config, steps: seq<Step>, k: nat, session: string)
    requires k < |steps| && ValidSteps(steps)
  {
    && steps[k].Decided? && steps[k].req.session == session
    && exists i: nat :: Standing(Found(cfg, steps, k), session, steps[k].view, i)
  }

  /** Step k finds the session bound to the key, and the challenger outpaces that key there. */
  ghost predicate FindsBeaten(cfg: Config, steps: seq<Step>, k: nat, session: string, key: nat, challenger: nat)
    requires k < |steps| && ValidSteps(steps)
  {
    && steps[k].Decided?
    && KeyBound(Found(cfg, steps, k), session) == key
    && BeatenBy(cfg, steps[k].view, key, challenger)
  }

  /** From step j to step n, every decision for the session that found its binding standing found it on
      this key, and found the challenger outpacing it. */
  ghost predicate BeatenSince(cfg: Config, steps: seq<Step>, j: nat, n: nat, session: string, key: nat,
                              challenger: nat)
    requires n <= |steps| && ValidSteps(steps)
  {
    && j < n && StandsIn(cfg, steps, j, session)
    && forall m :: j <= m < n && StandsIn(cfg, steps, m, session) ==>
         FindsBeaten(cfg, steps, m, session, key, challenger)
  }

  /** The challenger of a stored binding has been one since a decision of the run. */
  ghost predicate Founded(cfg: Config, steps: seq<Step>, n: nat, session: string, b: Binding)
    requires n <= |steps| && ValidSteps(steps)
  {
    b.challenger != 0 ==>
      exists j: nat :: BeatenSince(cfg, steps, j, n, session, b.key, b.challenger) && steps[j].now == b.since
  }

  lemma NextFound(cfg: Config, steps: seq<Step>, k: nat)
    requires k < |steps| && ValidSteps(steps)
    ensures After(cfg, steps[..k + 1]) == Next(cfg, After(cfg, steps[..k]), steps[k])
  {
    hide Next;
    assert steps[..k + 1][..k] == steps[..k];
  }

  /** A commit leaves the challenger of a session's binding alone, or leaves it without one. */
  lemma CommitFounds(cfg: Config, s: State, d: Decision, id: string, now: int, session: string)
    ensures var t := Commit(cfg, s, d, id, now);
            session in t.bindings ==>
              var b := t.bindings[session];
              || b.challenger == 0
              || (session in s.bindings
                  && b == s.bindings[session].(expires := b.expires))
  {
  }

  /** What a step makes of a session's binding, when it is no decision that finds it standing. */
  lemma OtherStepKeeps(cfg: Config, steps: seq<Step>, n: nat, session: string)
    requires n < |steps| && ValidSteps(steps) && !StandsIn(cfg, steps, n, session)
    ensures var s, t := Found(cfg, steps, n), After(cfg, steps[..n + 1]).state;
            session in t.bindings ==>
              var b := t.bindings[session];
              b.challenger == 0
              || (session in After(cfg, steps[..n]).state.bindings
                  && b == After(cfg, steps[..n]).state.bindings[session].(expires := b.expires))
  {
    NextFound(cfg, steps, n);
    var y, step, s := After(cfg, steps[..n]), steps[n], Found(cfg, steps, n);
    hide After, ValidSteps;
    if step.Decided? {
      DecisionKeepsKeys(cfg, s, step.req, step.view, step.now, session);
      if step.req.session == session {
        UnboundDecisionLaw(cfg, s, step.req, step.view, step.now);
      }
      hide Decide;
    } else if step.decision < |y.made| {
      CommitFounds(cfg, s, y.made[step.decision], step.id, step.now, session);
      hide Commit;
    }
  }

  lemma StillFounded(cfg: Config, steps: seq<Step>, n: nat, session: string, b: Binding)
    requires n < |steps| && ValidSteps(steps) && Founded(cfg, steps, n, session, b)
    requires StandsIn(cfg, steps, n, session) ==> FindsBeaten(cfg, steps, n, session, b.key, b.challenger)
    ensures Founded(cfg, steps, n + 1, session, b)
  {
    hide StandsIn, FindsBeaten;
    if b.challenger != 0 {
      var j: nat :| BeatenSince(cfg, steps, j, n, session, b.key, b.challenger) && steps[j].now == b.since;
      assert BeatenSince(cfg, steps, j, n + 1, session, b.key, b.challenger);
    }
  }

  /** What a decision that finds the binding standing makes of it. */
  lemma StandingStep(cfg: Config, steps: seq<Step>, n: nat, session: string) returns (i: nat)
    requires n < |steps| && ValidSteps(steps) && StandsIn(cfg, steps, n, session)
    ensures Standing(Found(cfg, steps, n), session, steps[n].view, i)
    ensures var s, t, v := Found(cfg, steps, n), After(cfg, steps[..n + 1]).state, steps[n].view;
            var b, best := s.bindings[session], v.cands[v.best].keyId;
            && session in t.bindings && best > 0
            && t.bindings[session] == if !Outpaces(cfg, v.cands[v.best].stats, v.cands[i].stats)
                                      then Binding(b.key, b.expires, 0, 0)
                                      else if b.challenger == best then b
                                      else Binding(b.key, b.expires, best, steps[n].now)
    ensures var s, v := Found(cfg, steps, n), steps[n].view;
            Outpaces(cfg, v.cands[v.best].stats, v.cands[i].stats) ==>
              FindsBeaten(cfg, steps, n, session, s.bindings[session].key, v.cands[v.best].keyId)
    ensures session in After(cfg, steps[..n]).state.bindings
            && After(cfg, steps[..n]).state.bindings[session] == Found(cfg, steps, n).bindings[session]
  {
    var s, step := Found(cfg, steps, n), steps[n];
    i :| Standing(s, session, step.view, i);
    NextFound(cfg, steps, n);
    BindingLaw(cfg, s, step.req, step.view, step.now, i);
    hide Decide, Outpaces, After, ValidSteps;
  }

  ghost predicate FoundedAt(cfg: Config, steps: seq<Step>, n: nat, session: string)
    requires n <= |steps| && ValidSteps(steps)
  {
    var t := After(cfg, steps[..n]).state;
    session in t.bindings ==> Founded(cfg, steps, n, session, t.bindings[session])
  }

  /** In every run each challenger in the state has been one since some decision, without a break. */
  lemma {:induction false} ChallengersAreFounded(cfg: Config, steps: seq<Step>, n: nat, session: string)
    requires n <= |steps| && ValidSteps(steps)
    ensures FoundedAt(cfg, steps, n, session)
  {
    hide FoundedAt, StandsIn;
    if n == 0 {
      NoneIsFounded(cfg, steps, session);
    } else {
      ChallengersAreFounded(cfg, steps, n - 1, session);
      if StandsIn(cfg, steps, n - 1, session) {
        StandingStepFounds(cfg, steps, n - 1, session);
      } else {
        OtherStepFounds(cfg, steps, n - 1, session);
      }
    }
  }

  lemma NoneIsFounded(cfg: Config, steps: seq<Step>, session: string)
    requires ValidSteps(steps)
    ensures FoundedAt(cfg, steps, 0, session)
  {
    assert steps[..0] == [];
  }

  lemma StandingStepFounds(cfg: Config, steps: seq<Step>, n: nat, session: string)
    requires n < |steps| && ValidSteps(steps) && StandsIn(cfg, steps, n, session)
    requires FoundedAt(cfg, steps, n, session)
    ensures FoundedAt(cfg, steps, n + 1, session)
  {
    hide Founded, FindsBeaten, Outpaces, Standing, StandsIn, Found, After;
    var i := StandingStep(cfg, steps, n, session);
    StandingIsFounded(cfg, steps, n, session, After(cfg, steps[..n + 1]).state.bindings[session], i);
  }

  lemma OtherStepFounds(cfg: Config, steps: seq<Step>, n: nat, session: string)
    requires n < |steps| && ValidSteps(steps) && !StandsIn(cfg, steps, n, session)
    requires FoundedAt(cfg, steps, n, session)
    ensures FoundedAt(cfg, steps, n + 1, session)
  {
    hide Founded, StandsIn, Found, After;
    var t := After(cfg, steps[..n + 1]).state;
    if session in t.bindings {
      OtherStepKeeps(cfg, steps, n, session);
      OtherIsFounded(cfg, steps, n, session, t.bindings[session]);
    }
  }

  lemma OtherIsFounded(cfg: Config, steps: seq<Step>, n: nat, session: string, b: Binding)
    requires n < |steps| && ValidSteps(steps) && !StandsIn(cfg, steps, n, session)
    requires var t := After(cfg, steps[..n]).state;
             || b.challenger == 0
             || (session in t.bindings && b == t.bindings[session].(expires := b.expires)
                 && Founded(cfg, steps, n, session, t.bindings[session]))
    ensures Founded(cfg, steps, n + 1, session, b)
  {
    hide StandsIn, After;
    if b.challenger != 0 {
      StillFounded(cfg, steps, n, session, b);
    }
  }

  lemma StandingIsFounded(cfg: Config, steps: seq<Step>, n: nat, session: string, b: Binding, i: nat)
    requires n < |steps| && ValidSteps(steps) && StandsIn(cfg, steps, n, session)
    requires Standing(Found(cfg, steps, n), session, steps[n].view, i)
    requires var was, v := Found(cfg, steps, n).bindings[session], steps[n].view;
             && v.cands[v.best].keyId > 0
             && b == (if !Outpaces(cfg, v.cands[v.best].stats, v.cands[i].stats)
                      then Binding(was.key, was.expires, 0, 0)
                      else if was.challenger == v.cands[v.best].keyId then was
                      else Binding(was.key, was.expires, v.cands[v.best].keyId, steps[n].now))
             && (Outpaces(cfg, v.cands[v.best].stats, v.cands[i].stats) ==>
                   FindsBeaten(cfg, steps, n, session, was.key, v.cands[v.best].keyId))
             && Founded(cfg, steps, n, session, was)
    ensures Founded(cfg, steps, n + 1, session, b)
  {
    var was := Found(cfg, steps, n).bindings[session];
    hide StandsIn, FindsBeaten, Outpaces, Standing, Found;
    if b.challenger != 0 {
      if b == was {
        StillFounded(cfg, steps, n, session, b);
      } else {
        assert BeatenSince(cfg, steps, n, n + 1, session, b.key, b.challenger);
      }
    }
  }

  /** Over every run: a decision that leaves a standing binding without trying anything out goes to a key
      that outpaces the bound one, there and at every decision since some step j that found the
      binding standing; the confirmation time has passed since that step, and three successes of the
      key were measured after it. */
  lemma SwitchesAreFaster(cfg: Config, steps: seq<Step>, k: nat, session: string) returns (j: nat)
    requires k < |steps| && ValidSteps(steps) && StandsIn(cfg, steps, k, session)
    requires MadeAt(cfg, steps, k).key != KeyBound(Found(cfg, steps, k), session)
    requires !MadeAt(cfg, steps, k).exploration
    ensures var d, key := MadeAt(cfg, steps, k), KeyBound(Found(cfg, steps, k), session);
            && BeatenSince(cfg, steps, j, k + 1, session, key, d.key)
            && FindsBeaten(cfg, steps, k, session, key, d.key)
            && steps[k].now - steps[j].now >= cfg.confirmSec * 1000
            && |Measured(steps[k].view.rows(d.key), steps[j].now)| >= 3
  {
    var s, step, d := Found(cfg, steps, k), steps[k], MadeAt(cfg, steps, k);
    var i := StandingStep(cfg, steps, k, session);
    LeavesOnlyRipe(cfg, s, step.req, step.view, step.now, i);
    ChallengersAreFounded(cfg, steps, k, session);
    hide After, Found, MadeAt, StandsIn, FindsBeaten, Outpaces, Standing, Measured;
    var b := s.bindings[session];
    if b.challenger == d.key {
      StillFounded(cfg, steps, k, session, b);
      j :| BeatenSince(cfg, steps, j, k + 1, session, b.key, b.challenger) && steps[j].now == b.since;
    } else {
      j := k;
    }
  }

  lemma LeavesOnlyRipe(cfg: Config, s: State, req: Request, v: View, now: int, i: nat)
    requires ValidView(v) && Standing(s, req.session, v, i)
    requires var d := Decide(cfg, s, req, v, now).1; d.key != s.bindings[req.session].key && !d.exploration
    ensures Ripe(cfg, s, req.session, v, i, now) && Decide(cfg, s, req, v, now).1.key == v.cands[v.best].keyId
  {
    WeighLaw(cfg, s, req.session, v, now);
    BoundKey(s, req.session, v, i);
    hide Improved, Weigh, InPlay, StableDecisions.Current, Coldest, Fresh, Ripe, Standing, Trial;
  }

  // ------------------------------------------------------- a confirmed challenger wins

  /** Step m finds the session bound to the key. If it decides for the session, the challenger outpaces
      the key there; if it commits, it does not take the session's name for a response. */
  ghost predicate Challenging(cfg: Config, steps: seq<Step>, m: nat, session: string, key: nat, challenger: nat)
    requires m < |steps| && ValidSteps(steps)
  {
    var made := After(cfg, steps[..m]).made;
    && session in Found(cfg, steps, m).bindings && Found(cfg, steps, m).bindings[session].key == key
    && (steps[m].Decided? && steps[m].req.session == session ==> BeatenBy(cfg, steps[m].view, key, challenger))
    && (steps[m].Committed? && steps[m].decision < |made| ==>
          !ClaimsResponse(cfg, made[steps[m].decision], steps[m].id, session))
  }

  ghost predicate ClockRuns(steps: seq<Step>, k: nat)
    requires k < |steps|
  {
    forall a, b :: 0 <= a <= b <= k ==> steps[a].now <= steps[b].now
  }

  /** The binding found by step m is challenged since step j or earlier. */
  ghost predicate ChallengedSince(cfg: Config, steps: seq<Step>, m: nat, session: string, challenger: nat, since: int)
    requires m < |steps| && ValidSteps(steps)
  {
    session in Found(cfg, steps, m).bindings
    && var b := Found(cfg, steps, m).bindings[session];
       b.challenger == challenger && b.since <= since
  }

  lemma FoundBefore(cfg: Config, steps: seq<Step>, m: nat, session: string)
    requires m < |steps| && ValidSteps(steps) && session in Found(cfg, steps, m).bindings
    ensures session in After(cfg, steps[..m]).state.bindings
    ensures Found(cfg, steps, m).bindings[session] == After(cfg, steps[..m]).state.bindings[session]
  {
    hide After;
  }

  /** A challenger already in the state was found earlier. */
  lemma ChallengedEarlier(cfg: Config, steps: seq<Step>, j: nat, session: string)
    requires j < |steps| && ValidSteps(steps) && ClockRuns(steps, j) && session in Found(cfg, steps, j).bindings
    ensures var b := Found(cfg, steps, j).bindings[session]; b.challenger != 0 ==> b.since <= steps[j].now
  {
    ChallengersAreFounded(cfg, steps, j, session);
    FoundBefore(cfg, steps, j, session);
    hide After, Found, StandsIn, FindsBeaten;
  }

  lemma BeatenStands(cfg: Config, s: State, session: string, v: View, challenger: nat) returns (i: nat)
    requires ValidView(v) && session in s.bindings && BeatenBy(cfg, v, s.bindings[session].key, challenger)
    ensures Standing(s, session, v, i) && Outpaces(cfg, v.cands[v.best].stats, v.cands[i].stats)
    ensures v.cands[v.best].keyId == challenger > 0
  {
    i :| StandsAt(v, s.bindings[session].key, i) && Outpaces(cfg, v.cands[v.best].stats, v.cands[i].stats);
  }

  /** A commit that leaves the session on its key, and does not take its name, leaves its challenger. */
  lemma CommitKeepsChallenger(cfg: Config, s: State, d: Decision, id: string, now: int, session: string)
    requires session in s.bindings && session != "" && !ClaimsResponse(cfg, d, id, session)
    ensures var t := Commit(cfg, s, d, id, now);
            session in t.bindings
            && (t.bindings[session].key == s.bindings[session].key ==>
                  t.bindings[session].challenger == s.bindings[session].challenger
                  && t.bindings[session].since == s.bindings[session].since)
  {
  }

  /** One step on, the challenger is the same. */
  lemma StaysChallenged(cfg: Config, steps: seq<Step>, m: nat, session: string, key: nat, challenger: nat, since: int)
    requires m + 1 < |steps| && ValidSteps(steps) && session != ""
    requires Challenging(cfg, steps, m, session, key, challenger)
    requires Challenging(cfg, steps, m + 1, session, key, challenger)
    requires || ChallengedSince(cfg, steps, m, session, challenger, since)
             || (steps[m].Decided? && steps[m].req.session == session && steps[m].now <= since
                 && Found(cfg, steps, m).bindings[session].challenger != challenger)
    ensures ChallengedSince(cfg, steps, m + 1, session, challenger, since)
  {
    NextFound(cfg, steps, m);
    FoundBefore(cfg, steps, m + 1, session);
    var y, s, step := After(cfg, steps[..m]), Found(cfg, steps, m), steps[m];
    hide After, ValidSteps, BeatenBy, Outpaces;
    if step.Decided? {
      if step.req.session == session {
        var i := BeatenStands(cfg, s, session, step.view, challenger);
        BindingLaw(cfg, s, step.req, step.view, step.now, i);
        hide Standing, Decide;
      } else {
        DecisionKeepsKeys(cfg, s, step.req, step.view, step.now, session);
        hide Decide;
      }
    } else if step.decision < |y.made| {
      CommitKeepsChallenger(cfg, s, y.made[step.decision], step.id, step.now, session);
      hide Commit;
    }
  }

  lemma {:induction false} KeepsChallenging(cfg: Config, steps: seq<Step>, j: nat, m: nat, session: string, key: nat,
                                            challenger: nat)
    requires j < m < |steps| && ValidSteps(steps) && session != "" && ClockRuns(steps, m)
    requires steps[j].Decided? && steps[j].req.session == session
    requires forall a: nat :: j <= a <= m ==> Challenging(cfg, steps, a, session, key, challenger)
    ensures ChallengedSince(cfg, steps, m, session, challenger, steps[j].now)
    decreases m
  {
    assert Challenging(cfg, steps, m - 1, session, key, challenger);
    if m == j + 1 {
      ChallengedEarlier(cfg, steps, j, session);
      assert challenger > 0 by {
        var _ := BeatenStands(cfg, Found(cfg, steps, j), session, steps[j].view, challenger);
      }
    } else {
      KeepsChallenging(cfg, steps, j, m - 1, session, key, challenger);
    }
    hide ChallengedSince, Challenging;
    StaysChallenged(cfg, steps, m - 1, session, key, challenger, steps[j].now);
  }

  /** Over every run: when from a decision at step j on the session stays bound to its key, every
      decision for it finds the challenger outpacing that key, the confirmation time has passed and
      three successes of the challenger were measured, then step k decides for the challenger. */
  lemma ConfirmedChallengerWins(cfg: Config, steps: seq<Step>, j: nat, k: nat, session: string, key: nat,
                                challenger: nat)
    requires j <= k < |steps| && ValidSteps(steps) && session != "" && ClockRuns(steps, k)
    requires steps[j].Decided? && steps[j].req.session == session
    requires steps[k].Decided? && steps[k].req.session == session
    requires forall m: nat :: j <= m <= k ==> Challenging(cfg, steps, m, session, key, challenger)
    requires steps[k].now - steps[j].now >= cfg.confirmSec * 1000
    requires |Measured(steps[k].view.rows(challenger), steps[j].now)| >= 3
    ensures var d := MadeAt(cfg, steps, k);
            && d.key == challenger && !d.exploration
            && d.reason == if steps[k].req.excluding then Failover else LatencyImproved
  {
    var s, v, now := Found(cfg, steps, k), steps[k].view, steps[k].now;
    assert Challenging(cfg, steps, k, session, key, challenger);
    var i := BeatenStands(cfg, s, session, v, challenger);
    var b := s.bindings[session];
    var since := if b.challenger == challenger then b.since else now;
    if j < k {
      KeepsChallenging(cfg, steps, j, k, session, key, challenger);
    } else {
      ChallengedEarlier(cfg, steps, k, session);
    }
    assert since <= steps[j].now;
    MeasuredEarlier(v.rows(challenger), since, steps[j].now);
    assert Ripe(cfg, s, session, v, i, now);
    BoundDecisionLaw(cfg, s, steps[k].req, v, now, i);
  }

  // ------------------------------------------------------------------------ commits

  /** The commit takes its session: it is no trial, and no newer success has bound the session to a key
      that its decision did not see. */
  predicate Takes(s: State, d: Decision) {
    && d.reason != ChallengerTrial && (d.exploration ==> d.session != "")
    && (d.session in s.bindings ==> s.bindings[d.session].key in {d.key, d.previous})
  }

  /** What a success of a named session commits: its key for the sticky time, with its challenger if the
      session stays on that key, and its response under the session's name. */
  lemma CommitLaw(cfg: Config, s: State, d: Decision, id: string, now: int)
    requires d.reason != RecoveryValidation && d.session != ""
    ensures var t, until := Commit(cfg, s, d, id, now), now + cfg.stickySec * 1000;
            && t.explored == s.explored
            && t.bindings == (if Takes(s, d)
                              then s.bindings[d.session :=
                                     if d.session in s.bindings && s.bindings[d.session].key == d.key
                                     then s.bindings[d.session].(expires := until) else Binding(d.key, until, 0, 0)]
                              else s.bindings)
            && t.responses == if id != "" then s.responses[cfg.digest(id) := Response(d.session, until)]
                              else s.responses
  {
  }

  /** Without a session the shared binding lasts fifteen minutes, and a response makes a session of its
      own, bound to the key that answered. */
  lemma NamelessCommitLaw(cfg: Config, s: State, d: Decision, id: string, now: int)
    requires d.reason != RecoveryValidation && d.session == ""
    ensures var t, until := Commit(cfg, s, d, id, now), now + cfg.stickySec * 1000;
            var own := cfg.digest("response:" + id);
            && t.explored == s.explored
            && (id == "" || own != "" ==>
                  ("" in t.bindings <==> "" in s.bindings || Takes(s, d))
                  && (Takes(s, d) ==> t.bindings[""].key == d.key && t.bindings[""].expires == now + 900000))
            && (id != "" ==> own in t.bindings && t.bindings[own] == Binding(d.key, until, 0, 0)
                             && t.responses == s.responses[cfg.digest(id) := Response(own, until)])
  {
  }

  // ------------------------------------------------------------------------- expiry

  /** Nothing in the state outlasts it, and every key explored has a quarter of an hour there. */
  ghost predicate Lasting(cfg: Config, s: State, at: int) {
    && (forall k :: k in s.bindings ==> s.bindings[k].expires <= s.expires)
    && (forall k :: k in s.responses ==> s.responses[k].expires <= s.expires)
    && (forall q :: q in s.explored ==> 0 <= s.explored[q] && s.explored[q] + 900000 <= s.expires)
    && s.expires <= at + Max(cfg.stickySec, 900) * 1000
  }

  /** Dropping the whole state when it expires drops nothing that is still alive: what a step finds are
      exactly the bindings and responses that have not expired themselves, and no key that was explored
      in the last minute is forgotten. */
  lemma ExpiryLosesNothing(cfg: Config, s: State, at: int, now: int, key: nat)
    requires Lasting(cfg, s, at) && 0 <= at <= now
    ensures var t := Prepared(s, now);
            && (forall k :: k in t.bindings <==> k in s.bindings && s.bindings[k].expires > now)
            && (forall k :: k in t.bindings ==> t.bindings[k] == s.bindings[k])
            && (forall k :: k in t.responses <==> k in s.responses && s.responses[k].expires > now)
            && (forall k :: k in t.responses ==> t.responses[k] == s.responses[k])
            && (Rested(t, key, now) <==> Rested(s, key, now))
  {
  }

  lemma StepLasts(cfg: Config, y: Sys, step: Step, at: int)
    requires ValidStep(step) && Lasting(cfg, y.state, at) && 0 <= at <= step.now
    ensures Lasting(cfg, Next(cfg, y, step).state, step.now)
  {
    var s := Prepared(y.state, step.now);
    assert Lasting(cfg, s, step.now);
    hide Prepared;
    if step.Decided? {
      DecideLasts(cfg, s, step.req, step.view, step.now);
      hide Decide;
    } else if step.decision < |y.made| {
      CommitLasts(cfg, s, y.made[step.decision], step.id, step.now);
      hide Commit;
    }
  }

  lemma DecideLasts(cfg: Config, s: State, req: Request, v: View, now: int)
    requires ValidView(v) && Lasting(cfg, s, now) && now >= 0
    ensures Lasting(cfg, Stored(cfg, Decide(cfg, s, req, v, now).0, now), now)
  {
    WeighKeepsKey(cfg, v, BindingOf(s, req.session), now);
    hide Improved, Weigh, InPlay, StableDecisions.Current, Coldest, Fresh, Trial;
  }

  lemma CommitLasts(cfg: Config, s: State, d: Decision, id: string, now: int)
    requires Lasting(cfg, s, now)
    ensures Lasting(cfg, Stored(cfg, Commit(cfg, s, d, id, now), now), now)
  {
    BindLasts(cfg, s, d, now);
    if d.reason != RecoveryValidation && id != "" {
      RememberLasts(cfg, Bind(cfg, s, d, now), d, id, now);
    }
    hide Bind, Remember;
  }

  /** What a commit at this moment writes lasts no longer than the state it stores. */
  ghost predicate Storable(cfg: Config, s: State, now: int) { Lasting(cfg, Stored(cfg, s, now), now) }

  lemma BindLasts(cfg: Config, s: State, d: Decision, now: int)
    requires Lasting(cfg, s, now)
    ensures Storable(cfg, s, now) && Storable(cfg, Bind(cfg, s, d, now), now)
  {
  }

  lemma RememberLasts(cfg: Config, s: State, d: Decision, id: string, now: int)
    requires Storable(cfg, s, now)
    ensures Storable(cfg, Remember(cfg, s, d, id, now), now)
  {
  }

  ghost predicate LastsAt(cfg: Config, steps: seq<Step>, n: nat)
    requires n <= |steps| && ValidSteps(steps)
  {
    Lasting(cfg, After(cfg, steps[..n]).state, if n == 0 then 0 else steps[n - 1].now)
  }

  /** Over every run with a clock that does not go back. */
  lemma {:induction false} RunsLast(cfg: Config, steps: seq<Step>, n: nat)
    requires n <= |steps| && ValidSteps(steps) && (n > 0 ==> ClockRuns(steps, n - 1) && steps[0].now >= 0)
    ensures LastsAt(cfg, steps, n)
  {
    hide LastsAt;
    if n == 0 {
      BlankLasts(cfg, steps);
    } else {
      RunsLast(cfg, steps, n - 1);
      NextLasts(cfg, steps, n - 1);
    }
  }

  lemma BlankLasts(cfg: Config, steps: seq<Step>)
    requires ValidSteps(steps)
    ensures LastsAt(cfg, steps, 0)
  {
    assert steps[..0] == [];
  }

  lemma NextLasts(cfg: Config, steps: seq<Step>, n: nat)
    requires n < |steps| && ValidSteps(steps) && LastsAt(cfg, steps, n)
    requires ClockRuns(steps, n) && steps[0].now >= 0
    ensures LastsAt(cfg, steps, n + 1)
  {
    NextFound(cfg, steps, n);
    hide After, Lasting, Next;
    StepLasts(cfg, After(cfg, steps[..n]), steps[n], if n == 0 then 0 else steps[n - 1].now);
  }
}
