/** The stable-latency picker as the gateway runs it: loops over the candidates, and a state that
    decisions and commits update in place. */
module StablePicker {
  import opened Wrappers
  import opened GateFilter
  import opened StablePool
  import opened StableDecisions
  import opened StableRuns

  method CurrentIndex(v: View, b: Option<Binding>) returns (i: Option<nat>)
    ensures i == Current(v, b) && (i.Some? ==> i.value < |v.cands|)
  {
    i := None;
    if b.None? {
      return;
    }
    for k := 0 to |v.cands|
      invariant IndexFrom(v.cands, b.value.key, 0) == IndexFrom(v.cands, b.value.key, k)
    {
      if v.cands[k].keyId == b.value.key {
        return Some(k);
      }
    }
  }

  method CountFresh(rows: seq<Sample>, since: int) returns (n: nat)
    ensures n == Fresh(rows, since)
  {
    n := 0;
    for i := 0 to |rows|
      invariant n == Fresh(rows[..i], since)
    {
      assert rows[..i + 1][..i] == rows[..i];
      if rows[i].success && rows[i].ttft > 0 && rows[i].completedAt > since {
        n := n + 1;
      }
    }
    assert rows[..|rows|] == rows;
  }

  method FindColdest(v: View, s: State, chosen: nat, now: int) returns (explore: Option<nat>)
    ensures explore == Coldest(v, s, chosen, now, |v.cands|)
  {
    explore := None;
    for i := 0 to |v.cands|
      invariant explore == Coldest(v, s, chosen, now, i)
    {
      var c := v.cands[i];
      if c.eligible && i != chosen && now - ExploredAt(s, c.keyId) >= EXPLORE_PAUSE_MS
         && !(c.stats.samples >= 3 && c.stats.successRate < 0.8)
         && (explore.None? || Colder(c, v.cands[explore.value])) {
        explore := Some(i);
      }
    }
  }

  /** Weighs the session's binding against the best candidate. */
  method WeighBinding(cfg: Config, v: View, b: Option<Binding>, i: Option<nat>, now: int)
    returns (w: Verdict, improved: bool, samples: nat)
    requires ValidView(v) && i == Current(v, b)
    ensures w == Weigh(cfg, v, b, now)
    ensures improved == (InPlay(v, b) && Improved(cfg, v, i.value))
    ensures samples == Fresh(v.rows(v.cands[v.best].keyId), if w.binding.Some? then w.binding.value.since else 0)
  {
    hide Fresh;
    improved := false;
    w := Verdict(v.best, InitialSelection, None);
    if i.Some? && v.cands[i.value].eligible {
      var c, best := v.cands[i.value].stats, v.cands[v.best].stats;
      if v.reliable[i.value] || (v.degraded && c.quality + TOLERANCE >= best.quality) {
        var binding := b.value;
        w := Verdict(i.value, Reuse, None);
        var gap := c.ttft - best.ttft;
        improved := v.best != i.value && best.latencySamples >= cfg.minSamples && c.latencySamples >= cfg.minSamples
                    && best.successRate >= c.successRate && gap > 0
                    && (gap >= cfg.switchMs || gap as real >= c.ttft as real * cfg.switchRatio);
        if improved {
          if binding.challenger != v.cands[v.best].keyId {
            binding := binding.(challenger := v.cands[v.best].keyId, since := now);
          }
        } else {
          binding := binding.(challenger := 0, since := 0);
        }
        samples := CountFresh(v.rows(v.cands[v.best].keyId), binding.since);
        if improved && now - binding.since >= cfg.confirmSec * 1000 && samples >= FRESH_SAMPLES {
          w := Verdict(v.best, LatencyImproved, None);
        }
        w := w.(binding := Some(binding));
        return;
      }
      w := w.(reason := ReliabilityDropped);
    } else if b.Some? {
      w := w.(reason := if i.Some? then Skipped(v.cands[i.value].skip) else BindingUnavailable);
    }
    samples := CountFresh(v.rows(v.cands[v.best].keyId), 0);
  }

  predicate UsableKey(cands: seq<Candidate>, key: nat) {
    exists i :: 0 <= i < |cands| && cands[i].eligible && cands[i].keyId == key
  }

  predicate RecoveryKey(cands: seq<Candidate>, key: nat) {
    exists i :: 0 <= i < |cands| && cands[i].eligible && cands[i].recovery && cands[i].keyId == key
  }

  /** The view that the pool and the fastest candidate give. */
  ghost predicate IsView(v: View, minSamples: nat) {
    exists pool, success, fastest :: IsViewBy(v, minSamples, pool, success, fastest)
  }

  ghost predicate IsViewBy(v: View, minSamples: nat, pool: seq<nat>, success: real, fastest: Option<int>) {
    && IsPool(v.cands, minSamples, v.reliable, v.degraded, pool, success)
    && IsChoice(v.cands, pool, minSamples, v.best, fastest)
  }

  /** Binding reuse, challenger trial, exploration and initial choice all take a usable key. */
  lemma DecisionsAreUsable(cfg: Config, s: State, req: Request, v: View, now: int)
    requires ValidView(v)
    ensures UsableKey(v.cands, Decide(cfg, s, req, v, now).1.key)
  {
    hide Improved, Fresh, Prepared;
    var w := Weigh(cfg, v, BindingOf(s, req.session), now);
    assert v.cands[w.chosen].eligible;
    assert v.cands[v.best].eligible;
  }

  /** The picker of one route scope. */
  class Picker {
    const cfg: Config
    var bindings: map<string, Binding>
    var responses: map<string, Response>
    var explored: map<nat, int>
    var expires: int
    ghost var steps: seq<Step>  // the decisions and commits so far

    constructor (cfg: Config)
      ensures Valid() && this.cfg == cfg && Current() == BLANK && steps == []
    {
      this.cfg := cfg;
      bindings, responses, explored, expires := map[], map[], map[], 0;
      steps := [];
    }

    /** The calls so far are a run of decisions and commits, and have led to the present state. */
    ghost predicate Valid()
      reads this
    {
      ValidSteps(steps) && After(cfg, steps).state == Current()
    }

    function Current(): State
      reads this`bindings, this`responses, this`explored, this`expires
    {
      State(bindings, responses, explored, expires)
    }

    /** Drops what has expired: everything, or single bindings and responses. */
    method Prepare(now: int)
      modifies this`bindings, this`responses, this`explored, this`expires
      ensures Current() == Prepared(old(Current()), now)
    {
      if expires <= now {
        bindings, responses, explored, expires := map[], map[], map[], 0;
        return;
      }
      bindings := Live(bindings, (b: Binding) => b.expires, now);
      responses := Live(responses, (r: Response) => r.expires, now);
    }

    /** Deletes the entries that have expired. */
    method Live<T>(all: map<string, T>, expiry: T -> int, now: int) returns (live: map<string, T>)
      ensures live == map k | k in all && expiry(all[k]) > now :: all[k]
    {
      live := all;
      var todo := all.Keys;
      while todo != {}
        invariant todo <= all.Keys
        invariant live == map k | k in all && (k in todo || expiry(all[k]) > now) :: all[k]
      {
        var k :| k in todo;
        if expiry(all[k]) <= now {
          live := live - {k};
        }
        todo := todo - {k};
      }
    }

    /** Decides for a request and stores what the decision learnt about its binding. */
    method MakeDecision(req: Request, v: View, now: int) returns (d: Decision)
      requires ValidView(v)
      modifies this`bindings, this`responses, this`explored, this`expires
      ensures var (t, made) := Decide(cfg, Prepared(old(Current()), now), req, v, now);
              Current() == Stored(cfg, t, now) && d == made
    {
      hide Prepared, Decide;
      Prepare(now);
      d := DecidePrepared(req, v, now);
      expires := now + Max(cfg.stickySec, SESSIONLESS_SEC) * 1000;
    }

    method DecidePrepared(req: Request, v: View, now: int) returns (d: Decision)
      requires ValidView(v)
      modifies this`bindings, this`explored
      ensures (Current(), d) == Decide(cfg, old(Current()), req, v, now)
    {
      hide Improved, InPlay, Fresh, Weigh, StableDecisions.Current, Coldest, Trial;
      var s := Current();
      var b := if req.session in bindings then Some(bindings[req.session]) else None;
      var i := CurrentIndex(v, b);
      var w, improved, samples := WeighBinding(cfg, v, b, i, now);
      var since := 0;
      InPlayOnly(cfg, v, b, now);
      if w.binding.Some? {
        bindings := bindings[req.session := w.binding.value];
        since := w.binding.value.since;
      }
      d := Decision(req.session, if b.Some? then b.value.key else 0, v.cands[w.chosen].keyId, w.reason, false,
                    w.binding.Some?, if improved then Some(v.cands[v.best].keyId) else None, since, samples, now);
      if req.excluding {
        d := d.(reason := Failover);
      } else {
        d := TryOut(s, req, v, b, i, w, d, now);
      }
    }

    /** Tries out the challenger of a bound session, or the coldest candidate. */
    method TryOut(s: State, req: Request, v: View, b: Option<Binding>, i: Option<nat>, w: Verdict, decided: Decision,
                  now: int)
      returns (d: Decision)
      requires ValidView(v) && (i.Some? ==> i.value < |v.cands|) && explored == s.explored
      modifies this`explored
      ensures if Trial(cfg, s, req, v, i, w, now) then
                && explored == s.explored[v.cands[v.best].keyId := now]
                && d == decided.(key := v.cands[v.best].keyId, reason := ChallengerTrial, exploration := true)
              else
                match Exploration(cfg, s, req, v, b, w.chosen, now)
                case None => explored == s.explored && d == decided
                case Some(e) =>
                  && explored == s.explored[v.cands[e].keyId := now]
                  && d == decided.(key := v.cands[e].keyId, reason := Explored, exploration := true)
    {
      hide Coldest, Trial;
      d := decided;
      var explore: Option<nat> := None;
      var trial := TriesChallenger(s, req, v, i, w, now);
      if trial {
        explore := Some(v.best);
        d := d.(reason := ChallengerTrial);
      } else if (req.session == "" || b.None?) && cfg.explorationRatio > 0.0 && req.slot {
        explore := FindColdest(v, s, w.chosen, now);
        if explore.Some? {
          d := d.(reason := Explored);
        }
      }
      if explore.Some? {
        d := d.(key := v.cands[explore.value].keyId, exploration := true);
        explored := explored[v.cands[explore.value].keyId := now];
      }
    }

    /** Whether a bound session lends its slot to a faster challenger. */
    method TriesChallenger(s: State, req: Request, v: View, i: Option<nat>, w: Verdict, now: int) returns (trial: bool)
      requires ValidView(v) && (i.Some? ==> i.value < |v.cands|)
      ensures trial == Trial(cfg, s, req, v, i, w, now)
    {
      trial := false;
      if req.session == "" || i.None? || w.reason != Reuse || w.chosen != i.value || v.best == i.value {
        return;
      }
      if !req.slot || cfg.explorationRatio <= 0.0 {
        return;
      }
      var c, b := v.cands[i.value].stats, v.cands[v.best].stats;
      var faster := b.latencySamples < cfg.minSamples || (c.latencySamples >= cfg.minSamples && b.ttft < c.ttft);
      trial := faster && now - ExploredAt(s, v.cands[v.best].keyId) >= EXPLORE_PAUSE_MS;
    }

    /** Commits a successful request's decision, which was the m-th one made. */
    method CommitSuccess(d: Decision, id: string, now: int, ghost m: nat)
      requires Valid()
      requires d.reason != RecoveryValidation ==> m < |After(cfg, steps).made| && After(cfg, steps).made[m] == d
      modifies this
      ensures Valid()
      ensures steps == if d.reason == RecoveryValidation then old(steps) else old(steps) + [Committed(m, id, now)]
      ensures Current() == if d.reason == RecoveryValidation then old(Current())
                           else Stored(cfg, Commit(cfg, Prepared(old(Current()), now), d, id, now), now)
    {
      if d.reason == RecoveryValidation {
        return;
      }
      hide After, ValidSteps, Prepared, Commit;
      AfterOneMore(cfg, steps, Committed(m, id, now));
      CommitTx(d, id, now);
      steps := steps + [Committed(m, id, now)];
    }

    method CommitTx(d: Decision, id: string, now: int)
      requires d.reason != RecoveryValidation
      modifies this`bindings, this`responses, this`explored, this`expires
      ensures Current() == Stored(cfg, Commit(cfg, Prepared(old(Current()), now), d, id, now), now)
    {
      Prepare(now);
      hide Prepared, Bind, Remember;
      BindSession(d, now);
      if id != "" {
        RememberResponse(d, id, now);
      }
      expires := now + Max(cfg.stickySec, SESSIONLESS_SEC) * 1000;
    }

    /** Binds the session, unless a newer decision has bound it to another key meanwhile. */
    method BindSession(d: Decision, now: int)
      modifies this`bindings
      ensures Current() == Bind(cfg, old(Current()), d, now)
    {
      var ttl := SESSIONLESS_SEC;
      if d.session != "" {
        ttl := cfg.stickySec;
      }
      if d.reason != ChallengerTrial && (!d.exploration || d.session != "") {
        var was := if d.session in bindings then Some(bindings[d.session]) else None;
        if was.None? || was.value.key == d.key || was.value.key == d.previous {
          var kept := Binding(d.key, 0, 0, 0);
          if was.Some? && was.value.key == d.key {
            kept := was.value;
          }
          bindings := bindings[d.session := kept.(expires := now + ttl * 1000)];
        }
      }
    }

    method RememberResponse(d: Decision, id: string, now: int)
      modifies this`bindings, this`responses
      ensures Current() == Remember(cfg, old(Current()), d, id, now)
    {
      var session := d.session;
      if session == "" {
        session := cfg.digest("response:" + id);
        bindings := bindings[session := Binding(d.key, now + cfg.stickySec * 1000, 0, 0)];
      }
      responses := responses[cfg.digest(id) := Response(session, now + cfg.stickySec * 1000)];
    }

    /** Picks a key for a request out of the filtered candidates: there is one exactly when some
        candidate is usable, and it is a usable one on every path. A recovery candidate is taken
        as such, and leaves the state alone; any other decision is the next step of the run. */
    method StableDecision(cands: seq<Candidate>, req: Request, rows: nat -> seq<Sample>, now: int)
      returns (d: Option<Decision>, ghost view: View)
      requires Valid() && Plausible(cands) && forall i :: 0 <= i < |cands| ==> cands[i].keyId > 0
      modifies this
      ensures Valid()
      ensures d.Some? <==> exists i :: 0 <= i < |cands| && cands[i].eligible
      ensures d.Some? ==> UsableKey(cands, d.value.key)
      ensures d.Some? && d.value.reason == RecoveryValidation <==>
                exists i :: 0 <= i < |cands| && cands[i].eligible && cands[i].recovery
      ensures d.Some? && d.value.reason == RecoveryValidation ==> RecoveryKey(cands, d.value.key)
      ensures d.None? || d.value.reason == RecoveryValidation ==> Current() == old(Current()) && steps == old(steps)
      ensures d.Some? && d.value.reason != RecoveryValidation ==>
                && ValidView(view) && IsView(view, cfg.minSamples) && view.cands == cands && view.rows == rows
                && steps == old(steps) + [Decided(req, view, now)]
                && After(cfg, steps).made == After(cfg, old(steps)).made + [d.value]
    {
      hide After, ValidSteps, Prepared, IsPool, IsChoice, Fast, Cheaper, Best, Plausible;
      d := None;
      view := View(cands, [], false, 0, rows);
      for i := 0 to |cands|
        invariant forall j :: 0 <= j < i ==> !(cands[j].eligible && cands[j].recovery)
      {
        if cands[i].eligible && cands[i].recovery {
          d := Some(Decision(req.session, 0, cands[i].keyId, RecoveryValidation, false, false, None, 0, 0, now));
          return;
        }
      }
      var v := ViewOf(cands, rows);
      if v.None? {
        return;
      }
      view := v.value;
      DecisionsAreUsable(cfg, Prepared(Current(), now), req, view, now);
      NeverRecovery(cfg, Prepared(Current(), now), req, view, now);
      AfterOneMore(cfg, steps, Decided(req, view, now));
      hide Decide, ValidView, IsView;
      var made := MakeDecision(req, v.value, now);
      steps := steps + [Decided(req, view, now)];
      d := Some(made);
    }

    /** What a decision sees: the pool and the candidate it favours, unless none is usable. */
    method ViewOf(cands: seq<Candidate>, rows: nat -> seq<Sample>) returns (v: Option<View>)
      requires Plausible(cands) && forall i :: 0 <= i < |cands| ==> cands[i].keyId > 0
      ensures v.Some? <==> exists i :: 0 <= i < |cands| && cands[i].eligible
      ensures v.Some? ==>
                && ValidView(v.value) && IsView(v.value, cfg.minSamples)
                && v.value.cands == cands && v.value.rows == rows
    {
      hide IsFastest, Fast, Cheaper, IsBestSuccess, Plausible;
      var pool, degraded, reliable, success := CandidatePool(cands, cfg.minSamples);
      var best, fastest := FastestCandidate(cands, pool, cfg.minSamples);
      if best.None? {
        return None;
      }
      assert best.value in pool;
      v := Some(View(cands, reliable, degraded, best.value, rows));
      assert IsViewBy(v.value, cfg.minSamples, pool, success, fastest);
    }

    static lemma NeverRecovery(cfg: Config, s: State, req: Request, v: View, now: int)
      requires ValidView(v)
      ensures Decide(cfg, s, req, v, now).1.reason != RecoveryValidation
    {
      DecideKeeps(cfg, s, req, v, now);
    }

    static lemma InPlayOnly(cfg: Config, v: View, b: Option<Binding>, now: int)
      requires ValidView(v)
      ensures var w := Weigh(cfg, v, b, now); w.chosen < |v.cands| && (w.binding.Some? <==> InPlay(v, b))
    {
    }
  }
}
