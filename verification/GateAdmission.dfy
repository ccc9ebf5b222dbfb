/** The picker's gate filter and the circuit store agree: on the same rows, a candidate is offered
    for validation exactly when an admission would take it. */
module GateAdmission {
  import opened Wrappers
  import opened Circuits
  import opened CircuitRuns
  import opened GateFilter

  // ------------------------------------------------------- what rows of a run are like

  /** A gate is only under check, or waiting for its next check, once its cooldown is over. */
  predicate Disciplined(r: Circuit, now: Time) {
    && (r.nextCheckAt.Some? ==> r.checkAt.Some? && !r.checkOK && r.until <= now)
    && (CheckLive(r, now) ==> r.until <= now && !After(r.nextCheckAt, now))
  }

  ghost predicate AllDisciplined(rows: Rows, now: Time) { forall s :: s in rows ==> Disciplined(rows[s], now) }

  lemma ObserveKeepsDiscipline(r: Circuit, s: Scope, d: Dimension, token: Token, o: Outcome, now: Time, cfg: Settings)
    requires Disciplined(r, now)
    ensures Disciplined(ObserveRow(r, s, d, token, o, now, cfg), now)
  {
    hide Track, Above, Threshold, Sustained, CooldownSeconds;
  }

  lemma ClaimNeedsCooled(c: Config, w: World, step: Step)
    requires step.ClaimStep? && step.scope in w.rows && step.scope in Next(c, w, step).rows
    requires Next(c, w, step).rows[step.scope] != w.rows[step.scope]
    ensures w.rows[step.scope].until <= step.now && !CheckDelayed(w.rows[step.scope], step.now)
  {
  }

  lemma StepKeepsDiscipline(c: Config, w: World, step: Step, s: Scope)
    requires AllDisciplined(w.rows, step.now) && s in Next(c, w, step).rows
    ensures Disciplined(Next(c, w, step).rows[s], step.now)
  {
    StepChangesRow(c, w, step, s);
    hide Next;
    var before, after := RowBefore(w, step, s), Next(c, w, step).rows[s];
    assert Disciplined(before, step.now);
    if after != before {
      match step
      case ObserveStep(d, token, o, now) =>
        hide ObserveRow;
        ObserveKeepsDiscipline(before, s, d, token, o, now, c.settings);
      case ClaimStep(scope, d, expected, now) =>
        if s in w.rows {
          ClaimNeedsCooled(c, w, step);
        }
      case AdmitStep(_, _, _) =>
      case OutputStep(_, _, _) =>
      case FinishStep(_, _, _, _, _, _, _) =>
      case BalanceStep(_, _, _) =>
    }
  }

  lemma {:induction false} RunIsDisciplined(c: Config, states: seq<World>, steps: seq<Step>, k: nat, at: Time)
    requires Run(c, states, steps) && k <= |steps|
    requires k > 0 ==> steps[k - 1].now <= at
    ensures AllDisciplined(states[k].rows, at)
  {
    if k > 0 {
      var w, step := states[k - 1], steps[k - 1];
      RunIsDisciplined(c, states, steps, k - 1, step.now);
      forall s | s in states[k].rows ensures Disciplined(states[k].rows[s], at) {
        StepKeepsDiscipline(c, w, step, s);
      }
    }
  }

  // ------------------------------------------------------------- one candidate's gate

  /** The held rows of a key are listed when its key-wide gate is open, and only then. */
  ghost predicate Lists(v: Snapshot, key: nat) {
    if OpenAt(v.rows, KeyScope(key)).Some?
    then (forall s :: s in v.rows && v.rows[s].keyId == key && Holding(v.rows[s], v.now) ==> v.rows[s] in v.busy(key))
         && (forall r :: r in v.busy(key) ==>
               exists s :: s in v.rows && v.rows[s] == r && r.keyId == key && Holding(r, v.now))
    else v.busy(key) == []
  }

  lemma {:induction false} PressingIsTop(gate: Circuit, busy: seq<Circuit>, now: Time)
    ensures var g := MostPressing(gate, busy, now);
            && (g == gate || g in busy)
            && (g != gate ==> Priority(g, now) > Priority(gate, now))
            && Priority(g, now) >= Priority(gate, now)
            && forall r :: r in busy ==> Priority(g, now) >= Priority(r, now)
  {
    hide Priority;
    if busy != [] {
      PressingIsTop(gate, busy[..|busy| - 1], now);
      assert busy == busy[..|busy| - 1] + [busy[|busy| - 1]];
    }
  }

  /** What an admission for recovery asks of the rows. */
  ghost predicate Free(v: Snapshot, d: Dimension) {
    var key, dim := OpenAt(v.rows, KeyScope(d.keyId)), OpenAt(v.rows, DimScope(d));
    && (key.Some? ==>
          && key.value.until <= v.now && !Holding(key.value, v.now)
          && !OtherHolds(v.rows, d.keyId, KeyScope(d.keyId), v.now))
    && (dim.Some? ==> dim.value.until <= v.now && !Holding(dim.value, v.now))
  }

  lemma AdmitsWhenFree(v: Snapshot, d: Dimension, token: Token)
    ensures Admit(v.rows, d, true, v.now, token).Some? <==> Free(v, d)
  {
    var key := KeyScope(d.keyId);
    var locked := Lock(v.rows, d, key);
    forall s | s in locked && s != key ensures s in v.rows && locked[s] == v.rows[s] {}
    assert OtherHolds(locked, d.keyId, key, v.now) <==> OtherHolds(v.rows, d.keyId, key, v.now);
  }

  /** The gate that decides is offered for validation exactly when nothing holds any gate of the
      candidate and every cooldown is over. */
  lemma OfferedWhenFree(v: Snapshot, c: Candidate)
    requires c.eligible && DecidingGate(v, c).Some? && v.dims(c.keyId).keyId == c.keyId
    requires AllDisciplined(v.rows, v.now) && RowsOfTheirKey(v.rows) && Lists(v, c.keyId)
    ensures OfferedAs(v, c) != NotOffered <==> Free(v, v.dims(c.keyId))
  {
    var d, now := v.dims(c.keyId), v.now;
    var key, dim := OpenAt(v.rows, KeyScope(c.keyId)), OpenAt(v.rows, DimScope(d));
    var g := Prefer(dim, key, now).value;
    var top := DecidingGate(v, c).value;
    PressingIsTop(g, v.busy(c.keyId), now);
    hide StatusOf;
    assert dim.Some? ==> Disciplined(dim.value, now);
    assert key.Some? ==> Disciplined(key.value, now);
    if top != g {
      HeldGate(v, c, top);
    }
  }

  lemma HeldGate(v: Snapshot, c: Candidate, r: Circuit)
    requires r in v.busy(c.keyId) && Lists(v, c.keyId) && v.dims(c.keyId).keyId == c.keyId
    ensures !Free(v, v.dims(c.keyId))
  {
    var s :| s in v.rows && v.rows[s] == r && r.keyId == c.keyId && Holding(r, v.now);
  }

  /** What the filter reads at some moment of a run. */
  ghost predicate Reads(v: Snapshot, c: Config, states: seq<World>, steps: seq<Step>, k: nat)
    requires k < |states| == |steps| + 1
  {
    && v.rows == states[k].rows && (k > 0 ==> steps[k - 1].now <= v.now)
    && forall key :: Lists(v, key) && v.dims(key).keyId == key
  }

  /** In every reachable state, a usable candidate with an open gate is offered for validation
      exactly when the admission of a recovery request would succeed; and one without an open
      gate is admitted as a normal request. */
  lemma OffersAreAdmitted(cfg: Config, states: seq<World>, steps: seq<Step>, k: nat, v: Snapshot, c: Candidate,
                          token: Token)
    requires Run(cfg, states, steps) && k <= |steps| && Reads(v, cfg, states, steps, k) && c.eligible
    ensures DecidingGate(v, c).Some? ==>
              (OfferedAs(v, c) != NotOffered <==> Admit(v.rows, v.dims(c.keyId), true, v.now, token).Some?)
    ensures DecidingGate(v, c).None? ==> Admit(v.rows, v.dims(c.keyId), false, v.now, token).Some?
  {
    RunIsSafe(cfg, states, steps, k, v.now);
    RunIsDisciplined(cfg, states, steps, k, v.now);
    hide Run;
    assert Lists(v, c.keyId) && v.dims(c.keyId).keyId == c.keyId;
    if DecidingGate(v, c).Some? {
      hide DecidingGate, OfferedAs, Admit, Free, Lists;
      OfferedWhenFree(v, c);
      AdmitsWhenFree(v, v.dims(c.keyId), token);
    } else {
      UngatedIsAdmitted(v, v.dims(c.keyId), token);
    }
  }

  lemma UngatedIsAdmitted(v: Snapshot, d: Dimension, token: Token)
    requires OpenAt(v.rows, KeyScope(d.keyId)).None? && OpenAt(v.rows, DimScope(d)).None?
    ensures Admit(v.rows, d, false, v.now, token).Some?
  {
  }
}
