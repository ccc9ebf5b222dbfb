/** Every interleaving of decisions and late commits over one scope's stable state. */
module StableRuns {
  import opened Wrappers
  import opened GateFilter
  import opened StablePool
  import opened StableDecisions

  datatype Step = Decided(req: Request, view: View, now: int) | Committed(decision: nat, id: string, now: int)

  /** The stored state, and every decision made so far: a commit may come at any later time. */
  datatype Sys = Sys(state: State, made: seq<Decision>)

  predicate ValidStep(step: Step) { step.Decided? ==> ValidView(step.view) }

  function Next(cfg: Config, y: Sys, step: Step): Sys
    requires ValidStep(step)
  {
    var s := Prepared(y.state, step.now);
    match step
    case Decided(req, v, now) =>
      var (t, d) := Decide(cfg, s, req, v, now);
      Sys(Stored(cfg, t, now), y.made + [d])
    case Committed(m, id, now) =>
      if m < |y.made| then y.(state := Stored(cfg, Commit(cfg, s, y.made[m], id, now), now)) else y
  }

  predicate ValidSteps(steps: seq<Step>) { forall i :: 0 <= i < |steps| ==> ValidStep(steps[i]) }

  function After(cfg: Config, steps: seq<Step>): Sys
    requires ValidSteps(steps)
  {
    if steps == [] then Sys(BLANK, []) else Next(cfg, After(cfg, steps[..|steps| - 1]), steps[|steps| - 1])
  }

  lemma AfterOneMore(cfg: Config, steps: seq<Step>, step: Step)
    requires ValidSteps(steps) && ValidStep(step)
    ensures ValidSteps(steps + [step]) && After(cfg, steps + [step]) == Next(cfg, After(cfg, steps), step)
  {
    hide Next;
    assert (steps + [step])[..|steps|] == steps;
  }

  // ----------------------------------------------------------- how a binding moves

  /** A commit that the decision's own session follows. */
  predicate MovesSession(d: Decision, session: string, from: nat) {
    d.session == session && d.previous == from && d.reason != ChallengerTrial && (!d.exploration || session != "")
  }

  /** A commit without a session that remembers a response under this session's name. */
  predicate ClaimsResponse(cfg: Config, d: Decision, id: string, session: string) {
    d.session == "" && id != "" && cfg.digest("response:" + id) == session
  }

  function KeyBound(s: State, session: string): nat { if session in s.bindings then s.bindings[session].key else 0 }

  /** A live binding changes its key exactly when a commit for another key either follows a
      decision of this session that saw the old key bound, or remembers a response id whose
      digest is this session's name. */
  lemma MovesExactlyWhen(cfg: Config, y: Sys, step: Step, session: string)
    requires ValidStep(step) && session in Prepared(y.state, step.now).bindings
    requires forall i :: 0 <= i < |y.made| ==> y.made[i].reason != RecoveryValidation
    ensures var from := KeyBound(Prepared(y.state, step.now), session);
            KeyBound(Next(cfg, y, step).state, session) != from <==>
              && step.Committed? && step.decision < |y.made|
              && var d := y.made[step.decision];
                 d.key != from && (MovesSession(d, session, from) || ClaimsResponse(cfg, d, step.id, session))
    ensures KeyBound(Next(cfg, y, step).state, session) != KeyBound(Prepared(y.state, step.now), session) ==>
              KeyBound(Next(cfg, y, step).state, session) == y.made[step.decision].key
    ensures KeyBound(Prepared(y.state, step.now), session) == KeyBound(y.state, session)
  {
    var s := Prepared(y.state, step.now);
    assert session in y.state.bindings && s.bindings[session] == y.state.bindings[session];
    hide Prepared;
    if step.Decided? {
      DecisionKeepsKeys(cfg, s, step.req, step.view, step.now, session);
      hide Decide;
    } else if step.decision < |y.made| {
      CommitMoves(cfg, s, y.made[step.decision], step.id, step.now, session);
      hide Commit;
    }
  }

  lemma CommitMoves(cfg: Config, s: State, d: Decision, id: string, now: int, session: string)
    requires session in s.bindings && d.reason != RecoveryValidation
    ensures var from := KeyBound(s, session);
            KeyBound(Commit(cfg, s, d, id, now), session) != from <==>
              d.key != from && (MovesSession(d, session, from) || ClaimsResponse(cfg, d, id, session))
    ensures KeyBound(Commit(cfg, s, d, id, now), session) in {KeyBound(s, session), d.key}
  {
  }

  lemma DecisionKeepsKeys(cfg: Config, s: State, req: Request, v: View, now: int, session: string)
    requires ValidView(v)
    ensures KeyBound(Decide(cfg, s, req, v, now).0, session) == KeyBound(s, session)
    ensures session in Decide(cfg, s, req, v, now).0.bindings <==> session in s.bindings
    ensures session != req.session && session in s.bindings ==>
            Decide(cfg, s, req, v, now).0.bindings[session] == s.bindings[session]
  {
    hide Improved, InPlay, Trial, Coldest, Fresh, ValidView;
    WeighKeepsKey(cfg, v, BindingOf(s, req.session), now);
    hide Weigh;
  }

  lemma WeighKeepsKey(cfg: Config, v: View, b: Option<Binding>, now: int)
    requires ValidView(v)
    ensures var w := Weigh(cfg, v, b, now).binding;
            && (w.Some? <==> InPlay(v, b))
            && (w.Some? ==> b.Some? && w.value.key == b.value.key && w.value.expires == b.value.expires)
  {
    hide Improved, Fresh;
  }

  // ------------------------------------------------------------ how a switch ripens

  /** From the i-th decision on, every decision that kept this binding in play found the same
      challenger better. */
  predicate Ripens(made: seq<Decision>, session: string, key: nat, challenger: nat, since: int, i: nat) {
    && i < |made| && made[i].session == session && made[i].inPlay && made[i].at == since
    && forall j :: i <= j < |made| && made[j].session == session && made[j].inPlay ==>
         made[j].better == Some(challenger) && made[j].previous == key
  }

  ghost predicate Supported(made: seq<Decision>, session: string, b: Binding) {
    b.challenger != 0 ==> exists i :: Ripens(made, session, b.key, b.challenger, b.since, i)
  }

  /** Keys are numbered from one, and every challenger in the state has its history. */
  ghost predicate Sound(y: Sys) {
    && (forall s :: s in y.state.bindings ==> y.state.bindings[s].key > 0 && Supported(y.made, s, y.state.bindings[s]))
    && (forall i :: 0 <= i < |y.made| ==> y.made[i].key > 0 && y.made[i].reason != RecoveryValidation)
  }

  lemma StillSupported(made: seq<Decision>, d: Decision, session: string, b: Binding)
    requires Supported(made, session, b) && (d.session != session || !d.inPlay)
    ensures Supported(made + [d], session, b)
  {
    if b.challenger != 0 {
      var i :| Ripens(made, session, b.key, b.challenger, b.since, i);
      assert Ripens(made + [d], session, b.key, b.challenger, b.since, i);
    }
  }

  /** A decision that kept the binding in play: what it found, and the binding it stored. */
  predicate Kept(before: Binding, after: Binding, d: Decision) {
    && d.inPlay && d.previous == before.key == after.key && d.since == after.since
    && after.challenger == (if d.better.Some? then d.better.value else 0)
    && (d.better.Some? ==> d.better.value > 0)
    && (d.better.Some? && after.since != d.at ==> after.challenger == before.challenger && after.since == before.since)
  }

  lemma KeptSupports(made: seq<Decision>, d: Decision, session: string, before: Binding, after: Binding)
    requires Supported(made, session, before) && d.session == session && Kept(before, after, d)
    ensures Supported(made + [d], session, after)
  {
    if after.challenger != 0 {
      if after.since == d.at {
        assert Ripens(made + [d], session, after.key, after.challenger, after.since, |made|);
      } else {
        var i :| Ripens(made, session, before.key, before.challenger, before.since, i);
        assert Ripens(made + [d], session, after.key, after.challenger, after.since, i);
      }
    }
  }

  /** What a decision does to its session's binding. */
  lemma DecideKeeps(cfg: Config, s: State, req: Request, v: View, now: int)
    requires ValidView(v)
    ensures var (t, d) := Decide(cfg, s, req, v, now);
            && d.key > 0 && d.reason != RecoveryValidation && d.session == req.session && d.at == now
            && d.previous == KeyBound(s, req.session)
            && (d.inPlay ==>
                  && req.session in s.bindings && req.session in t.bindings
                  && Kept(s.bindings[req.session], t.bindings[req.session], d))
            && (!d.inPlay ==> t.bindings == s.bindings)
  {
    var b := BindingOf(s, req.session);
    WeighKeeps(cfg, v, b, now);
    hide Improved, InPlay, Trial, Coldest, Fresh, Weigh;
  }

  lemma WeighKeeps(cfg: Config, v: View, b: Option<Binding>, now: int)
    requires ValidView(v)
    ensures var w := Weigh(cfg, v, b, now);
            && w.chosen < |v.cands| && v.cands[w.chosen].keyId > 0 && w.reason != RecoveryValidation
            && (w.binding.Some? <==> InPlay(v, b))
            && (InPlay(v, b) ==>
                  Current(v, b).Some? && w.binding.value == Rebound(cfg, v, b.value, Current(v, b).value, now))
  {
    hide Improved, Fresh;
  }

  lemma StepKeepsSound(cfg: Config, y: Sys, step: Step)
    requires Sound(y) && ValidStep(step)
    ensures Sound(Next(cfg, y, step))
  {
    var s, z := Prepared(y.state, step.now), Next(cfg, y, step);
    if step.Decided? {
      var d := Decide(cfg, s, step.req, step.view, step.now).1;
      DecideKeeps(cfg, s, step.req, step.view, step.now);
      forall k | k in z.state.bindings
        ensures z.state.bindings[k].key > 0 && Supported(z.made, k, z.state.bindings[k])
      {
        DecisionKeepsKeys(cfg, s, step.req, step.view, step.now, k);
        hide Decide, Supported, Kept;
        if k == step.req.session && d.inPlay {
          KeptSupports(y.made, d, k, s.bindings[k], z.state.bindings[k]);
        } else {
          StillSupported(y.made, d, k, s.bindings[k]);
        }
      }
    } else if step.decision < |y.made| {
      CommitKeepsSound(cfg, y, s, y.made[step.decision], step.id, step.now);
    }
  }

  lemma CommitKeepsSound(cfg: Config, y: Sys, s: State, d: Decision, id: string, now: int)
    requires d.key > 0 && forall k :: k in s.bindings ==> s.bindings[k].key > 0 && Supported(y.made, k, s.bindings[k])
    ensures var t := Commit(cfg, s, d, id, now);
            forall k :: k in t.bindings ==> t.bindings[k].key > 0 && Supported(y.made, k, t.bindings[k])
  {
    var t := Bind(cfg, s, d, now);
    forall k | k in t.bindings ensures t.bindings[k].key > 0 && Supported(y.made, k, t.bindings[k]) {
      if k in s.bindings && t.bindings[k].challenger != 0 {
        assert Supported(y.made, k, s.bindings[k]);
      }
    }
  }

  lemma {:induction false} RunIsSound(cfg: Config, steps: seq<Step>)
    requires ValidSteps(steps)
    ensures Sound(After(cfg, steps))
  {
    if steps != [] {
      RunIsSound(cfg, steps[..|steps| - 1]);
      StepKeepsSound(cfg, After(cfg, steps[..|steps| - 1]), steps[|steps| - 1]);
    }
  }

  // ------------------------------------------------------------------ whole runs

  /** A decision that leaves a bound key although it is usable and reliable. */
  predicate Switches(d: Decision) {
    d.inPlay && d.key != d.previous && d.reason != ChallengerTrial && !d.exploration
  }

  /** The challenger was found better by every decision that kept the binding in play, for the
      confirmation time, and has three fresh successes since. */
  ghost predicate IsConfirmed(cfg: Config, made: seq<Decision>, d: Decision) {
    && (exists i :: Ripens(made, d.session, d.previous, d.key, d.since, i))
    && d.at - d.since >= cfg.confirmSec * 1000 && d.samples >= FRESH_SAMPLES
  }

  lemma SwitchNeedsConfirmation(cfg: Config, s: State, req: Request, v: View, now: int)
    requires ValidView(v)
    ensures var (t, d) := Decide(cfg, s, req, v, now);
            Switches(d) ==>
              && d.better == Some(d.key) && d.at - d.since >= cfg.confirmSec * 1000 && d.samples >= FRESH_SAMPLES
  {
    hide Improved, Trial, Coldest, Fresh;
    var b := BindingOf(s, req.session);
    var w := Weigh(cfg, v, b, now);
    if InPlay(v, b) && v.cands[w.chosen].keyId != b.value.key {
      assert w.reason == LatencyImproved;
    }
  }

  lemma DecisionIsConfirmed(cfg: Config, y: Sys, step: Step)
    requires Sound(y) && ValidStep(step) && step.Decided?
    ensures var z := Next(cfg, y, step); var d := z.made[|y.made|]; Switches(d) ==> IsConfirmed(cfg, z.made, d)
  {
    var s, z := Prepared(y.state, step.now), Next(cfg, y, step);
    var d := Decide(cfg, s, step.req, step.view, step.now).1;
    DecideKeeps(cfg, s, step.req, step.view, step.now);
    SwitchNeedsConfirmation(cfg, s, step.req, step.view, step.now);
    hide Decide, Prepared;
    if Switches(d) {
      StepKeepsSound(cfg, y, step);
      var b := z.state.bindings[step.req.session];
      assert Supported(z.made, step.req.session, b) && b.challenger == d.key && b.since == d.since;
    }
  }

  /** Over every run: a decision leaves a usable and reliable bound key only for a confirmed
      challenger. */
  lemma {:induction false} SwitchesAreConfirmed(cfg: Config, steps: seq<Step>, n: nat)
    requires ValidSteps(steps) && n < |After(cfg, steps).made| && Switches(After(cfg, steps).made[n])
    ensures IsConfirmed(cfg, After(cfg, steps).made[..n + 1], After(cfg, steps).made[n])
  {
    if steps != [] {
      var prefix, step := steps[..|steps| - 1], steps[|steps| - 1];
      var y, z := After(cfg, prefix), After(cfg, steps);
      RunIsSound(cfg, prefix);
      if n < |y.made| {
        assert z.made[n] == y.made[n] && z.made[..n + 1] == y.made[..n + 1];
        SwitchesAreConfirmed(cfg, prefix, n);
      } else {
        assert z.made[..n + 1] == z.made;
        DecisionIsConfirmed(cfg, y, step);
      }
    }
  }

  /** Over every run: when a commit of this session's own decision moves a live binding, that
      decision saw the old key bound, and either the old key was no longer usable and reliable
      for it, or the new key was a confirmed challenger. */
  lemma MovesAreJustified(cfg: Config, steps: seq<Step>, step: Step, session: string)
    requires ValidSteps(steps) && ValidStep(step)
    requires var y := After(cfg, steps); var s := Prepared(y.state, step.now);
             session in s.bindings && KeyBound(Next(cfg, y, step).state, session) != KeyBound(s, session)
    ensures var y := After(cfg, steps);
            && step.Committed? && step.decision < |y.made|
            && var d := y.made[step.decision];
               && d.key == KeyBound(Next(cfg, y, step).state, session)
               && (|| ClaimsResponse(cfg, d, step.id, session)
                   || (&& d.session == session && d.previous == KeyBound(Prepared(y.state, step.now), session)
                       && (!d.inPlay || IsConfirmed(cfg, y.made[..step.decision + 1], d))))
  {
    hide After, Next, Prepared, IsConfirmed;
    var y := After(cfg, steps);
    RunIsSound(cfg, steps);
    MovesExactlyWhen(cfg, y, step, session);
    var d := y.made[step.decision];
    if !ClaimsResponse(cfg, d, step.id, session) && d.inPlay {
      ExploringIsUnbound(cfg, steps, step.decision);
      SwitchesAreConfirmed(cfg, steps, step.decision);
    }
  }

  /** A session with a binding in play explores only as a challenger trial, unless it is empty. */
  lemma {:induction false} ExploringIsUnbound(cfg: Config, steps: seq<Step>, n: nat)
    requires ValidSteps(steps) && n < |After(cfg, steps).made|
    ensures var d := After(cfg, steps).made[n];
            d.exploration && d.inPlay && d.session != "" ==> d.reason == ChallengerTrial
  {
    if steps != [] {
      var prefix, step := steps[..|steps| - 1], steps[|steps| - 1];
      var y := After(cfg, prefix);
      if n < |y.made| {
        ExploringIsUnbound(cfg, prefix, n);
      } else {
        hide Improved, Trial, Coldest, Fresh, Prepared;
        WeighKeeps(cfg, step.view, BindingOf(Prepared(y.state, step.now), step.req.session), step.now);
      }
    }
  }

  // ----------------------------------------------- a binding that a response id moves

  const PLAIN := Config(3, 500, 0.2, 60, 0.0, 3600, s => s)

  const SESSIONLESS := Request("", false, false)

  function OnlyKey(key: nat): View {
    var stats := Stats(10, 10, 1.0, 0.9, 500, 1.0, 0);
    View([Candidate(key, true, true, false, Usable, NoStatus, 0, None, stats)], [true], false, 0, _ => [])
  }

  /** Two requests without a session are decided for different keys, and both end with the same
      response id. */
  const SHARED_RESPONSE: seq<Step> :=
    [Decided(SESSIONLESS, OnlyKey(1), 1), Decided(SESSIONLESS, OnlyKey(2), 2),
     Committed(0, "r", 3), Committed(1, "r", 4)]

  lemma FirstChoice(s: State, key: nat, now: int)
    requires key > 0 && "" !in s.bindings
    ensures ValidView(OnlyKey(key))
    ensures Decide(PLAIN, s, SESSIONLESS, OnlyKey(key), now)
         == (s, Decision("", 0, key, InitialSelection, false, false, None, 0, 0, now))
  {
    hide Coldest;
    assert Fresh([], 0) == 0;
  }

  lemma BothDecided()
    ensures ValidSteps(SHARED_RESPONSE)
    ensures var y := After(PLAIN, SHARED_RESPONSE[..2]);
            && y.state == BLANK.(expires := 3600002)
            && y.made == [Decision("", 0, 1, InitialSelection, false, false, None, 0, 0, 1),
                          Decision("", 0, 2, InitialSelection, false, false, None, 0, 0, 2)]
  {
    FirstChoice(BLANK, 1, 1);
    FirstChoice(BLANK.(expires := 3600001), 2, 2);
    hide Decide, ValidView, OnlyKey;
    assert SHARED_RESPONSE[..2][..1] == SHARED_RESPONSE[..1] && SHARED_RESPONSE[..1][..0] == [];
    assert Prepared(BLANK, 1) == BLANK;
    assert After(PLAIN, SHARED_RESPONSE[..1]).state == BLANK.(expires := 3600001);
    assert Prepared(BLANK.(expires := 3600001), 2) == BLANK.(expires := 3600001);
  }

  /** The first commit binds the name of the response to key 1, and the second moves that live
      binding to key 2, although its decision saw no binding at all. */
  lemma ResponseIdMovesBinding()
    ensures ValidSteps(SHARED_RESPONSE)
    ensures var y, last := After(PLAIN, SHARED_RESPONSE[..3]), SHARED_RESPONSE[3];
            var session := PLAIN.digest("response:" + "r");
            && KeyBound(Prepared(y.state, last.now), session) == 1
            && KeyBound(After(PLAIN, SHARED_RESPONSE).state, session) == 2
            && !MovesSession(y.made[last.decision], session, 1)
            && ClaimsResponse(PLAIN, y.made[last.decision], last.id, session)
  {
    BothDecided();
    hide Decide, ValidView, OnlyKey;
    var y := After(PLAIN, SHARED_RESPONSE[..2]);
    assert SHARED_RESPONSE[..3][..2] == SHARED_RESPONSE[..2];
    assert SHARED_RESPONSE[..4] == SHARED_RESPONSE && SHARED_RESPONSE[..4][..3] == SHARED_RESPONSE[..3];
    assert Prepared(y.state, 3) == y.state;
    CommitClaims(y.state, y.made[0], "r", 3);
    var z := After(PLAIN, SHARED_RESPONSE[..3]);
    assert z == Next(PLAIN, y, SHARED_RESPONSE[2]);
    hide Commit;
    CommitClaims(Prepared(z.state, 4), y.made[1], "r", 4);
  }

  /** A commit without a session binds the name of its response to its key, for the sticky time. */
  lemma CommitClaims(s: State, d: Decision, id: string, now: int)
    requires d.session == "" && id != "" && d.reason == InitialSelection
    ensures var session, t := "response:" + id, Commit(PLAIN, s, d, id, now);
            session in t.bindings && t.bindings[session] == Binding(d.key, now + 3600000, 0, 0)
  {
  }
}
