/** What every transaction does to every row, said of the stored fields and the flags of the
    call alone.  The laws name none of the functions that compute the rows. */
module CircuitLaws {
  import opened Wrappers
  import opened Circuits
  import opened CircuitRuns
  import opened CircuitWindows

  /** Settings out of range fall back: to the defaults of 60 s, 3 failures, 30 s and 300 s, or to the
      nearest bound. */
  lemma SettingsFallBack(s: Settings)
    ensures var r := Normalize(s);
            && r.windowSec == (if 1 <= s.windowSec <= 3600 then s.windowSec else 60)
            && r.failureThreshold == (if 1 <= s.failureThreshold <= 100 then s.failureThreshold else 3)
            && r.cooldownSec == (if 1 <= s.cooldownSec <= 600 then s.cooldownSec else 30)
            && (r.cooldownSec <= s.maxCooldownSec <= 3600 ==> r.maxCooldownSec == s.maxCooldownSec)
            && (s.maxCooldownSec > 3600 && r.cooldownSec <= 300 ==> r.maxCooldownSec == 300)
  {
  }

  // --------------------------------------------------------- openings and closings

  /** The row carries the live business lease of this token. */
  predicate HoldsLease(r: Circuit, token: Token, now: Time) {
    token != 0 && r.lease == token && r.leaseUntil > now
  }

  predicate Unheld(r: Circuit) {
    r.lease == 0 && r.leaseUntil == 0 && r.checkLease == 0 && r.checkUntil == None
  }

  /** The gate was opened, or opened again: a new generation, nobody holding it, and a cooldown
      that honours the hint of the upstream or else starts from the configured length and
      doubles up to its maximum. */
  predicate OpenedFrom(r: Circuit, after: Circuit, o: Outcome, now: Time, cfg: Settings) {
    && after.open && after.generation == r.generation + 1 && after.keyId == r.keyId
    && after.openedAt == now && after.reason == o.reason && Unheld(after)
    && !after.checkOK && after.nextCheckAt == None && after.checkBackoff == 0
    && (if o.retryAfter > 0 then now + o.retryAfter <= after.until < now + o.retryAfter + 1000
        else after.until == now + after.backoffSec * 1000)
    && after.backoffSec <= cfg.maxCooldownSec
    && (after.backoffSec < cfg.maxCooldownSec ==> after.until == now + after.backoffSec * 1000)
    && (o.retryAfter <= 0 && !r.open ==> after.backoffSec == cfg.cooldownSec)
    && (o.retryAfter <= 0 && r.open && r.backoffSec > 0 ==>
          Min(2 * r.backoffSec, cfg.maxCooldownSec) <= after.backoffSec <= cfg.maxCooldownSec)
  }

  /** The gate was closed: a new generation without holds, failures, cooldown or pending check. */
  predicate ClosedFrom(r: Circuit, after: Circuit, now: Time) {
    && !after.open && after.generation == r.generation + 1 && after.keyId == r.keyId && after.target == r.target
    && after.openedAt == now && after.until == 0 && after.backoffSec == 0 && after.reason == "" && Unheld(after)
    && after.failures == 0 && after.failureTimes == [] && after.recoveryAt == r.recoveryAt
    && after.nextCheckAt == None && after.checkBackoff == 0
  }

  /** Neither opened nor closed: generation, cooldown and reason are as they were. */
  predicate SameGate(r: Circuit, after: Circuit) {
    && after.open == r.open && after.generation == r.generation && after.keyId == r.keyId
    && after.openedAt == r.openedAt && after.until == r.until && after.recoveryAt == r.recoveryAt
    && after.target == r.target
  }

  predicate SameHolds(r: Circuit, after: Circuit) {
    && after.lease == r.lease && after.leaseUntil == r.leaseUntil
    && after.checkLease == r.checkLease && after.checkUntil == r.checkUntil
  }

  // ---------------------------------------------------------------------- outcomes

  /** The outcome is of the generation the gate is in: its admission saw that generation, or,
      without one, its request began no earlier than the gate last opened or closed. */
  predicate SameGeneration(r: Circuit, s: Scope, o: Outcome) {
    if o.admission.Some? then s in o.admission.value.generations && o.admission.value.generations[s] == r.generation
    else o.startedAt >= r.openedAt
  }

  /** The outcome is about this gate as it is now.  One that holds the gate's lease always is, if
      it has no admission of another generation.  Any other is heard by a closed gate, and by
      an open one only when it has no admission and nobody ever leased the gate. */
  predicate Concerns(r: Circuit, s: Scope, token: Token, o: Outcome, now: Time) {
    if HoldsLease(r, token, now) then o.admission.Some? ==> SameGeneration(r, s, o)
    else SameGeneration(r, s, o) && (r.open ==> o.admission.None? && r.lease == 0)
  }

  predicate Failed(o: Outcome) { !o.neutral && !o.success }

  /** A failed attempt; a first output that never came weighs more than other failures. */
  function FailureEntries(o: Outcome, now: Time, cfg: Settings): seq<Entry> {
    [Attempt(now),
     Failure(now, if o.reason == "first_token_timeout" && cfg.fttWeight > 1 then cfg.fttWeight else 1)]
  }

  /** The failures of the recent history, this one counted, reach the threshold of its traffic, or
      they are two in five of at least eight attempts. */
  predicate TooMany(log: seq<Entry>, o: Outcome, now: Time, cfg: Settings) {
    var more := log + FailureEntries(o, now, cfg);
    var attempts := |Recent(Attempts(more), WindowMs(cfg), 120)|;
    var failures := |Recent(Failures(more), WindowMs(cfg), 64)|;
    failures >= Threshold(attempts, cfg) || (attempts >= 8 && 5 * failures >= 2 * attempts)
  }

  lemma AppliesConcerns(r: Circuit, s: Scope, token: Token, o: Outcome, now: Time)
    ensures Applies(r, s, token, o, now) <==> Concerns(r, s, token, o, now)
    ensures Owned(r, token, now) <==> HoldsLease(r, token, now)
  {
  }

  lemma OpenMeans(r: Circuit, after: Circuit, o: Outcome, now: Time, cfg: Settings)
    requires Normalized(cfg) && after == Open(r, now, o.reason, o.retryAfter, cfg)
    ensures OpenedFrom(r, after, o, now, cfg)
    ensures after.target == r.target && after.recoveryAt == r.recoveryAt
    ensures after.attemptTimes == r.attemptTimes && after.failureTimes == r.failureTimes
            && after.failures == r.failures
  {
  }

  lemma CloseMeans(r: Circuit, now: Time)
    ensures ClosedFrom(r, Close(r, now), now) && Close(r, now).attemptTimes == []
    ensures Close(r, now).checkOK == r.checkOK
  {
  }

  /** An outcome that is not about the gate, and one that says nothing, change no more than the
      holds of the request that reports it. */
  lemma StrangersChangeNothing(r: Circuit, s: Scope, d: Dimension, token: Token, o: Outcome, now: Time, cfg: Settings)
    ensures var after := ObserveRow(r, s, d, token, o, now, cfg);
            && (!Concerns(r, s, token, o, now) ==> after == r)
            && (Concerns(r, s, token, o, now) && o.neutral ==>
                  if HoldsLease(r, token, now) then Unheld(after) && SameGate(r, after) && SameWindowsOf(r, after)
                  else after == r)
  {
    hide Succeed, Fail;
    AppliesConcerns(r, s, token, o, now);
  }

  predicate SameWindowsOf(r: Circuit, after: Circuit) {
    && after.attemptTimes == r.attemptTimes && after.failureTimes == r.failureTimes && after.failures == r.failures
    && after.backoffSec == r.backoffSec && after.reason == r.reason
  }

  /** A success closes an open gate exactly when it holds the gate's lease; at a closed gate it
      forgives the failures; at an open gate of nobody it is only counted as traffic. */
  lemma SuccessLaw(r: Circuit, s: Scope, d: Dimension, token: Token, o: Outcome, now: Time, cfg: Settings)
    requires o.success && !o.neutral && Concerns(r, s, token, o, now)
    ensures var after := ObserveRow(r, s, d, token, o, now, cfg);
            && (r.open ==> (!after.open <==> HoldsLease(r, token, now)))
            && (r.open && HoldsLease(r, token, now) ==> ClosedFrom(r, after, now) && after.attemptTimes == [])
            && (r.open && !HoldsLease(r, token, now) ==>
                  SameGate(r, after) && SameHolds(r, after) && after.failureTimes == r.failureTimes)
            && (!r.open ==> SameGate(r, after) && Unheld(after) && after.failures == 0 && after.failureTimes == [])
            && (s.KeyScope? && !HoldsLease(r, token, now) ==> after.attemptTimes == r.attemptTimes)
  {
    hide Track, Fail;
    AppliesConcerns(r, s, token, o, now);
  }

  /** A failure opens the key-wide gate exactly when it is one of the credentials or the
      outcome's own live lease is on the gate; any other leaves the row as it is. */
  lemma KeyFailureLaw(r: Circuit, key: nat, d: Dimension, token: Token, o: Outcome, now: Time, cfg: Settings)
    requires Normalized(cfg) && Failed(o) && Concerns(r, KeyScope(key), token, o, now)
    ensures var after := ObserveRow(r, KeyScope(key), d, token, o, now, cfg);
            && (o.authFailure || HoldsLease(r, token, now) <==> after.generation == r.generation + 1)
            && if o.authFailure || HoldsLease(r, token, now) then
                 OpenedFrom(r, after, o, now, cfg) && after.target == d && after.failureTimes == r.failureTimes
               else after == r
  {
    hide Open, Succeed, RecordFailure, Applies, Owned, Threshold, Sustained;
    AppliesConcerns(r, KeyScope(key), token, o, now);
    var retargeted := r.(target := d);
    OpenMeans(retargeted, Open(retargeted, now, o.reason, o.retryAfter, cfg), o, now, cfg);
  }

  /** A failure opens a dimension's gate exactly when it holds the gate's lease, or when it is no
      failure of the credentials and is a rate limit, an immediate one, or one too many of the
      recent history.  An unowned failure of the credentials leaves the row as it is. */
  lemma DimensionFailureLaw(r: Circuit, d: Dimension, token: Token, o: Outcome, log: seq<Entry>, now: Time,
                            cfg: Settings)
    requires Normalized(cfg) && now > 0 && Refines(r, log, cfg) && LogUpTo(log, now)
    requires Failed(o) && Concerns(r, DimScope(d), token, o, now)
    ensures var after := ObserveRow(r, DimScope(d), d, token, o, now, cfg);
            var opens := || HoldsLease(r, token, now)
                         || (!o.authFailure && (o.limited || o.immediate || TooMany(log, o, now, cfg)));
            && (opens <==> after.generation == r.generation + 1)
            && (opens ==> OpenedFrom(r, after, o, now, cfg) && after.target == r.target)
            && (!opens ==> SameGate(r, after) && SameHolds(r, after) && after.backoffSec == r.backoffSec)
            && if o.authFailure && !HoldsLease(r, token, now) then after == r
               else Refines(after, log + FailureEntries(o, now, cfg), cfg)
  {
    hide Open, Succeed, Applies, Owned, Threshold, Refines, LogUpTo, Recent, Concerns;
    AppliesConcerns(r, DimScope(d), token, o, now);
    FailureRefines(r, o, log, now, cfg);
    TooManyMeans(r, log, o, now, cfg);
    var recorded := RecordFailure(r, o, now, cfg);
    assert SameGate(r, recorded) && SameHolds(r, recorded) && recorded.backoffSec == r.backoffSec;
    hide RecordFailure;
    var reopened := Open(recorded, now, o.reason, o.retryAfter, cfg);
    OpenMeans(recorded, reopened, o, now, cfg);
    SameWindows(recorded, reopened, log + FailureEntries(o, now, cfg), cfg);
  }

  lemma TooManyMeans(r: Circuit, log: seq<Entry>, o: Outcome, now: Time, cfg: Settings)
    requires Normalized(cfg)
    requires var more := log + [Attempt(now), Failure(now, Weight(o, cfg))];
             Refines(RecordFailure(r, o, now, cfg), more, cfg)
    ensures var recorded := RecordFailure(r, o, now, cfg);
            TooMany(log, o, now, cfg)
            <==> recorded.failures >= Threshold(|recorded.attemptTimes|, cfg)
                 || Sustained(|recorded.attemptTimes|, recorded.failures)
  {
    hide RecordFailure, Recent, Threshold;
  }

  /** A success at a dimension's gate that it does not close adds to the traffic of its history. */
  lemma SuccessIsTraffic(r: Circuit, d: Dimension, token: Token, o: Outcome, log: seq<Entry>, now: Time, cfg: Settings)
    requires Normalized(cfg) && now > 0 && Refines(r, log, cfg) && LogUpTo(log, now)
    requires o.success && !o.neutral && Concerns(r, DimScope(d), token, o, now)
    requires !(r.open && HoldsLease(r, token, now))
    ensures var after := ObserveRow(r, DimScope(d), d, token, o, now, cfg);
            after.attemptTimes == Recent(Attempts(log + [Attempt(now)]), WindowMs(cfg), 120)
  {
    hide Track, Fail, Recent;
    AppliesConcerns(r, DimScope(d), token, o, now);
    TracksAttempt(r.attemptTimes, log, now, cfg);
  }

  // -------------------------------------------------------------- outcomes of a run

  /** An earlier outcome of the run was of the same request and dimension. */
  ghost predicate Repeats(steps: seq<Step>, j: nat)
    requires j < |steps| && steps[j].ObserveStep?
  {
    exists i :: 0 <= i < j && SameReport(steps[i], steps[j])
  }

  predicate SameReport(a: Step, b: Step)
    requires b.ObserveStep?
  {
    a.ObserveStep? && a.d == b.d && a.outcome.requestId == b.outcome.requestId != ""
  }

  lemma {:induction false} ObservedMeans(c: Config, states: seq<World>, steps: seq<Step>, k: nat, d: Dimension,
                                         id: string)
    requires Run(c, states, steps) && k <= |steps| && id != ""
    ensures (DimScope(d), id) in states[k].observed
            <==> exists i :: 0 <= i < k && steps[i].ObserveStep? && steps[i].d == d && steps[i].outcome.requestId == id
  {
    hide Admit, Claim, Finish, ReleaseOnOutput, BalanceRelease, ObserveRow, ObserveLocked;
    if k > 0 {
      ObservedMeans(c, states, steps, k - 1, d, id);
      var step := steps[k - 1];
      assert states[k] == Next(c, states[k - 1], step);
      if step.ObserveStep? && step.d == d && step.outcome.requestId == id {
        assert (DimScope(d), id) in states[k].observed;
      }
    }
  }

  /** The row of the gate that step j finds, inserted if need be, and the one it leaves. */
  ghost predicate Rewrites(states: seq<World>, steps: seq<Step>, j: nat, s: Scope, before: Circuit, after: Circuit)
    requires j < |steps| < |states|
  {
    && (s in states[j].rows || Locks(steps[j])) && before == RowBefore(states[j], steps[j], s)
    && s in states[j + 1].rows && after == states[j + 1].rows[s]
  }

  /** The reported outcome is about the gate as the step finds it. */
  predicate Heard(before: Circuit, s: Scope, step: Step) {
    step.ObserveStep? && Concerns(before, s, step.token, step.outcome, step.now)
  }

  /** In every run the outcome of a request reaches both of its gates, the first time it is
      reported; a second report changes no row. */
  lemma OutcomeReachesItsGates(c: Config, states: seq<World>, steps: seq<Step>, j: nat, s: Scope)
    requires Run(c, states, steps) && j < |steps| && steps[j].ObserveStep? && Touches(steps[j].d, s)
    ensures s in states[j + 1].rows
    ensures states[j + 1].rows[s]
            == if Repeats(steps, j) then RowBefore(states[j], steps[j], s)
               else ObserveRow(RowBefore(states[j], steps[j], s), s, steps[j].d, steps[j].token, steps[j].outcome,
                               steps[j].now, c.settings)
  {
    hide ObserveRow;
    var w, step := states[j], steps[j];
    if step.outcome.requestId != "" {
      ObservedMeans(c, states, steps, j, step.d, step.outcome.requestId);
    }
    assert AlreadySeen(w.observed, step.d, step.outcome) <==> Repeats(steps, j);
    assert states[j + 1] == Next(c, w, step);
    assert ObserveLocked(w.rows, step.d)[s] == RowBefore(w, step, s);
  }

  /** Over every run: a failure that is about the key-wide gate, reported for the first time,
      opens it exactly when it is a failure of the credentials or comes from the gate's holder. */
  lemma CredentialsTakeOutTheKey(c: Config, states: seq<World>, steps: seq<Step>, j: nat, before: Circuit,
                                 after: Circuit)
    requires Run(c, states, steps) && j < |steps| && steps[j].ObserveStep? && !Repeats(steps, j)
    requires Rewrites(states, steps, j, KeyScope(steps[j].d.keyId), before, after)
    requires Failed(steps[j].outcome) && Heard(before, KeyScope(steps[j].d.keyId), steps[j])
    ensures if steps[j].outcome.authFailure || HoldsLease(before, steps[j].token, steps[j].now)
            then OpenedFrom(before, after, steps[j].outcome, steps[j].now, c.settings) && after.target == steps[j].d
            else after == before
  {
    var step := steps[j];
    hide ObserveRow, Next, OpenedFrom, HoldsLease, Concerns;
    OutcomeReachesItsGates(c, states, steps, j, KeyScope(step.d.keyId));
    KeyFailureLaw(before, step.d.keyId, step.d, step.token, step.outcome, step.now, c.settings);
  }

  /** Over every run: what a first-reported failure does to the gate of its dimension, by the
      outcomes recorded there so far. */
  lemma FailuresTakeOutTheDimension(c: Config, states: seq<World>, steps: seq<Step>, j: nat, before: Circuit,
                                    after: Circuit)
    requires Run(c, states, steps) && j < |steps| && steps[j].ObserveStep? && !Repeats(steps, j)
    requires Rewrites(states, steps, j, DimScope(steps[j].d), before, after)
    requires Failed(steps[j].outcome) && Heard(before, DimScope(steps[j].d), steps[j])
    ensures var step, o := steps[j], steps[j].outcome;
            var log := History(c, states, steps, DimScope(step.d), j);
            if HoldsLease(before, step.token, step.now)
               || (!o.authFailure && (o.limited || o.immediate || TooMany(log, o, step.now, c.settings)))
            then OpenedFrom(before, after, o, step.now, c.settings)
            else SameGate(before, after) && SameHolds(before, after)
  {
    var step := steps[j];
    var s := DimScope(step.d);
    var log := History(c, states, steps, s, j);
    hide ObserveRow, Next, OpenedFrom, HoldsLease, Concerns, TooMany, SameGate, SameHolds, Refines, History;
    OutcomeReachesItsGates(c, states, steps, j, s);
    WindowsRefineHistory(c, states, steps, j, s);
    LaterUpTo(log, if j == 0 then 0 else steps[j - 1].now, step.now);
    hide LogUpTo;
    BeforeRefines(states[j], step, s, log, c.settings);
    DimensionFailureLaw(before, step.d, step.token, step.outcome, log, step.now, c.settings);
  }

  /** Over every run: a first-reported success that is about an open gate closes it exactly when
      its own live lease is on the gate. */
  lemma HoldersSuccessCloses(c: Config, states: seq<World>, steps: seq<Step>, j: nat, s: Scope, before: Circuit,
                             after: Circuit)
    requires Run(c, states, steps) && j < |steps| && steps[j].ObserveStep? && !Repeats(steps, j)
    requires Touches(steps[j].d, s) && Rewrites(states, steps, j, s, before, after) && before.open
    requires steps[j].outcome.success && !steps[j].outcome.neutral && Heard(before, s, steps[j])
    ensures if HoldsLease(before, steps[j].token, steps[j].now) then ClosedFrom(before, after, steps[j].now)
            else SameGate(before, after) && SameHolds(before, after)
  {
    var step := steps[j];
    hide ObserveRow, Next, ClosedFrom, HoldsLease, Concerns;
    OutcomeReachesItsGates(c, states, steps, j, s);
    SuccessLaw(before, s, step.d, step.token, step.outcome, step.now, c.settings);
  }

  // -------------------------------------------------------------------- admissions

  predicate Idle(r: Circuit, now: Time) {
    r.leaseUntil <= now && (r.checkUntil.Some? ==> r.checkUntil.value <= now)
  }

  /** A gate lets a request through when it is closed, or when the request comes to recover it,
      the cooldown is over and nobody holds it; the key-wide one also only while no other row
      of the key is held. */
  ghost predicate Passes(rows: Rows, key: nat, s: Scope, recovery: bool, now: Time) {
    s in rows && rows[s].open ==>
      && recovery && rows[s].until <= now && Idle(rows[s], now)
      && (s == KeyScope(key) ==> forall t :: t in rows && t != s && rows[t].keyId == key ==> Idle(rows[t], now))
  }

  /** An admission rewrites a row only to lease it, when it is one of its open gates. */
  predicate Leases(rows: Rows, after: Rows, d: Dimension, s: Scope, now: Time, token: Token)
    requires s in after
  {
    if s in rows && rows[s].open && Touches(d, s) then
      after[s] == rows[s].(lease := token, leaseUntil := now + 330000, recoveryAt := Some(now))
    else if s in rows then after[s] == rows[s]
    else Touches(d, s) && after[s] == FreshRow(d)
  }

  lemma GateAdmitsExactlyWhen(rows: Rows, d: Dimension, s: Scope, recovery: bool, now: Time, token: Token)
    ensures var out := AdmitGate(rows, d, s, recovery, now, token);
            && (out.Some? <==> Passes(rows, d.keyId, s, recovery, now))
            && (out.Some? ==>
                  && s in out.value && out.value.Keys == rows.Keys + {s}
                  && (forall t :: t in rows && t != s ==> out.value[t] == rows[t])
                  && (Touches(d, s) ==> Leases(rows, out.value, d, s, now, token)))
  {
  }

  /** A request is admitted exactly when both of its gates let it through, and then it leases the
      open ones and nothing else.  In particular no open gate admits a normal request. */
  lemma AdmitsExactlyWhen(rows: Rows, d: Dimension, recovery: bool, now: Time, token: Token)
    ensures var out := Admit(rows, d, recovery, now, token);
            && (out.Some? <==> && Passes(rows, d.keyId, KeyScope(d.keyId), recovery, now)
                               && Passes(rows, d.keyId, DimScope(d), recovery, now))
            && (out.Some? ==> rows.Keys <= out.value.0.Keys)
            && (out.Some? ==> forall s :: s in out.value.0 ==> Leases(rows, out.value.0, d, s, now, token))
  {
    hide AdmitGate, Passes, Leases;
    var key, dim := KeyScope(d.keyId), DimScope(d);
    GateAdmitsExactlyWhen(rows, d, key, recovery, now, token);
    var first := AdmitGate(rows, d, key, recovery, now, token);
    if first.Some? {
      GateAdmitsExactlyWhen(first.value, d, dim, recovery, now, token);
      SecondGate(rows, first.value, d, recovery, now);
      var second := AdmitGate(first.value, d, dim, recovery, now, token);
      if second.Some? {
        forall s | s in second.value ensures Leases(rows, second.value, d, s, now, token) {
          BothLeases(rows, first.value, second.value, d, s, now, token);
        }
      }
    }
  }

  /** What the first gate leaves behind does not matter to the second. */
  lemma SecondGate(rows: Rows, first: Rows, d: Dimension, recovery: bool, now: Time)
    requires first.Keys == rows.Keys + {KeyScope(d.keyId)}
    requires forall t :: t in rows && t != KeyScope(d.keyId) ==> first[t] == rows[t]
    ensures Passes(first, d.keyId, DimScope(d), recovery, now) <==> Passes(rows, d.keyId, DimScope(d), recovery, now)
  {
  }

  lemma BothLeases(rows: Rows, first: Rows, second: Rows, d: Dimension, s: Scope, now: Time, token: Token)
    requires first.Keys == rows.Keys + {KeyScope(d.keyId)} && second.Keys == first.Keys + {DimScope(d)}
    requires forall t :: t in rows && t != KeyScope(d.keyId) ==> first[t] == rows[t]
    requires forall t :: t in first && t != DimScope(d) ==> second[t] == first[t]
    requires Leases(rows, first, d, KeyScope(d.keyId), now, token)
    requires Leases(first, second, d, DimScope(d), now, token)
    requires s in second
    ensures Leases(rows, second, d, s, now, token)
  {
    hide FreshRow;
  }

  /** Over every run: once the credentials of a key were refused, no normal request of any of its
      dimensions is admitted, and no recovery before the cooldown is over, as long as the gate has
      not been opened or closed again. */
  lemma RefusedKeyStaysOut(c: Config, states: seq<World>, steps: seq<Step>, j: nat, k: nat, before: Circuit,
                           after: Circuit)
    requires Run(c, states, steps) && j < k < |steps| && steps[j].ObserveStep? && !Repeats(steps, j)
    requires Rewrites(states, steps, j, KeyScope(steps[j].d.keyId), before, after)
    requires Failed(steps[j].outcome) && steps[j].outcome.authFailure
             && Heard(before, KeyScope(steps[j].d.keyId), steps[j])
    requires steps[k].AdmitStep? && steps[k].d.keyId == steps[j].d.keyId
    requires KeyScope(steps[j].d.keyId) in states[k].rows
             && states[k].rows[KeyScope(steps[j].d.keyId)].generation == after.generation
    ensures AdmittedAt(states[k], steps[k]).Some? ==> steps[k].recovery && steps[k].now >= after.until
  {
    var s := KeyScope(steps[j].d.keyId);
    CredentialsTakeOutTheKey(c, states, steps, j, before, after);
    hide Next, Admit;
    RunAdvances(c, states, steps, j + 1, k, s);
    AdmitsExactlyWhen(states[k].rows, steps[k].d, steps[k].recovery, steps[k].now, states[k].issued + 1);
  }

  // ---------------------------------------------------------- first output, checks

  /** A first output closes exactly the gates whose live lease its admission still holds in the
      generation it was admitted to, and takes over their new generations. */
  lemma OutputClosesOwnedGates(rows: Rows, d: Dimension, a: Admission, now: Time, s: Scope)
    requires s in rows
    ensures var (after, b) := ReleaseOnOutput(rows, d, a, now);
            var owns := && HoldsLease(rows[s], a.token, now) && rows[s].open && Touches(d, s)
                        && s in a.generations && a.generations[s] == rows[s].generation;
            && s in after && b.token == a.token
            && (owns ==> ClosedFrom(rows[s], after[s], now) && after[s].attemptTimes == []
                         && s in b.generations && b.generations[s] == rows[s].generation + 1)
            && (!owns ==> after[s] == rows[s] && (s in b.generations <==> s in a.generations)
                          && (s in a.generations ==> b.generations[s] == a.generations[s]))
  {
    CloseMeans(rows[s], now);
    hide Close, ClosedFrom;
  }

  /** The row is under the check of this token, and the check has not expired. */
  predicate UnderCheck(r: Circuit, token: Token, now: Time) {
    r.open && token != 0 && r.checkLease == token && r.checkUntil.Some? && r.checkUntil.value > now
  }

  /** A check decides about a gate exactly while its claim is the current one: success closes the
      gate; a failure, or a check that decided nothing, leaves it open with the next check no
      earlier than the upstream asks for.  No other row is touched. */
  lemma CheckDecidesItsGate(rows: Rows, s: Scope, token: Token, success: bool, neutral: bool, message: string,
                            retryAfter: int, now: Time)
    ensures var out := Finish(rows, s, token, success, neutral, message, retryAfter, now);
            && (out.Err? <==> s !in rows)
            && (out.Ok? ==> out.value.Keys == rows.Keys
                            && forall t :: t in rows && t != s ==> out.value[t] == rows[t])
            && (out.Ok? && !UnderCheck(rows[s], token, now) ==> out.value == rows)
            && (out.Ok? && UnderCheck(rows[s], token, now) ==>
                  var r, after := rows[s], out.value[s];
                  && after.checkAt == Some(now) && after.checkError == message
                  && (after.checkOK <==> success && !neutral) && (!after.open <==> success && !neutral)
                  && if success && !neutral then ClosedFrom(r, after, now) && after.attemptTimes == []
                     else
                       && SameGate(r, after) && SameWindowsOf(r, after)
                       && after.lease == r.lease && after.leaseUntil == r.leaseUntil
                       && after.checkLease == 0 && after.checkUntil == None
                       && after.nextCheckAt.Some? && after.nextCheckAt.value >= now + retryAfter
                       && (neutral ==> after.nextCheckAt.value >= now + 60000 && after.checkBackoff == r.checkBackoff)
                       && (!neutral ==> after.nextCheckAt.value >= now + after.checkBackoff * 1000))
  {
    if s in rows {
      CloseMeans(rows[s], now);
    }
  }

  /** A check may start exactly when fewer than the limit are running, its gate is an open one
      past its cooldown and its last check's delay, of the expected generation, nothing that
      excludes it is held, and the key-wide gate does not stand in its way; then only the claim
      is written. */
  lemma ClaimsExactlyWhen(rows: Rows, limit: nat, s: Scope, d: Dimension, expected: Option<nat>, now: Time,
                          token: Token)
    requires KeyOf(s) == d.keyId && RowsOfTheirKey(rows)
    ensures var out := Claim(rows, limit, s, d, expected, now, token);
            var key := KeyScope(d.keyId);
            && (out.Ok? <==>
                  && |LiveChecks(rows, now)| < limit
                  && s in rows && rows[s].open && Due(rows[s], now) && Idle(rows[s], now)
                  && (expected.Some? ==> rows[s].generation == expected.value)
                  && (key in rows ==> (rows[key].open ==> Due(rows[key], now)) && Idle(rows[key], now))
                  && (s == key ==> forall t :: t in rows && rows[t].keyId == d.keyId ==> Idle(rows[t], now)))
            && (out.Ok? ==>
                  && s in out.value
                  && out.value[s] == rows[s].(checkLease := token, checkUntil := Some(now + 45000), checkOK := false,
                                              target := d)
                  && forall t :: t in rows && t != s ==> t in out.value && out.value[t] == rows[t])
  {
    hide LiveChecks;
    var key := KeyScope(d.keyId);
    var locked := Lock(rows, d, key);
    assert ClaimConflicts(locked, d, s, now)
      <==> exists t :: t in locked && locked[t].keyId == d.keyId && Holding(locked[t], now)
                       && (s == key || t == s || t == key);
  }

  /** The cooldown is over, and so is the delay that the last failed check imposed. */
  predicate Due(r: Circuit, now: Time) {
    r.until <= now && (r.checkOK || r.nextCheckAt.None? || r.nextCheckAt.value <= now)
  }

  /** New balances close exactly the gates of their keys that exhausted quota opened, no later than
      the balances were read; every other row stays as it is. */
  lemma BalancesCloseQuotaGates(rows: Rows, ids: set<nat>, checkedAfter: Time, now: Time, s: Scope)
    requires s in rows
    ensures var after := BalanceRelease(rows, ids, checkedAfter, now);
            var r := rows[s];
            s in after
            && if r.open && r.reason == "key_quota_exhausted" && r.keyId in ids && r.openedAt <= checkedAfter
               then ClosedFrom(r, after[s], now) && after[s].attemptTimes == r.attemptTimes && !after[s].checkOK
                    && after[s].checkAt == None && after[s].checkError == ""
               else after[s] == r
  {
  }
}
