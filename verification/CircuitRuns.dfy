/** Every interleaving of the circuit protocol: admissions, first outputs, outcomes,
    synthetic checks and balance releases by any number of gateways and workers. */
module CircuitRuns {
  import opened Wrappers
  import opened Circuits

  datatype World = World(rows: Rows, observed: set<(Scope, string)>, issued: nat)

  datatype Step =
    | AdmitStep(d: Dimension, recovery: bool, now: Time)
    | OutputStep(d: Dimension, admission: Admission, now: Time)
    | ObserveStep(d: Dimension, token: Token, outcome: Outcome, now: Time)
    | ClaimStep(scope: Scope, d: Dimension, expected: Option<nat>, now: Time)
    | FinishStep(scope: Scope, token: Token, success: bool, neutral: bool, message: string, retryAfter: int, now: Time)
    | BalanceStep(ids: set<nat>, checkedAfter: Time, now: Time)

  datatype Config = Config(settings: Settings, limit: nat)

  predicate ValidConfig(c: Config) { Normalized(c.settings) && c.limit >= 1 }

  /** A worker resolves the dimension it checks from the row itself, so it is of the same key. */
  predicate ValidStep(step: Step) {
    step.now > 0 && (step.ClaimStep? ==> KeyOf(step.scope) == step.d.keyId)
  }

  const START := World(map[], {}, 0)

  function Next(c: Config, w: World, step: Step): World {
    match step
    case AdmitStep(d, recovery, now) =>
      var token := w.issued + 1;
      (match Admit(w.rows, d, recovery, now, token)
       case None => w.(issued := token)
       case Some(out) => w.(rows := out.0, issued := token))
    case OutputStep(d, a, now) => w.(rows := ReleaseOnOutput(w.rows, d, a, now).0)
    case ObserveStep(d, token, o, now) =>
      var out := Observe(w.rows, w.observed, d, token, o, now, c.settings);
      w.(rows := out.0, observed := out.1)
    case ClaimStep(s, d, expected, now) =>
      var token := w.issued + 1;
      (match Claim(w.rows, c.limit, s, d, expected, now, token)
       case Err(_) => w.(issued := token)
       case Ok(rows) => w.(rows := rows, issued := token))
    case FinishStep(s, token, success, neutral, message, retryAfter, now) =>
      (match Finish(w.rows, s, token, success, neutral, message, retryAfter, now)
       case Err(_) => w
       case Ok(rows) => w.(rows := rows))
    case BalanceStep(ids, checkedAfter, now) => w.(rows := BalanceRelease(w.rows, ids, checkedAfter, now))
  }

  /** A run: every state follows from the one before it, and the clock never goes back. */
  ghost predicate Run(c: Config, states: seq<World>, steps: seq<Step>) {
    && ValidConfig(c)
    && |states| == |steps| + 1
    && states[0] == START
    && (forall k :: 0 <= k < |steps| ==> ValidStep(steps[k]) && states[k + 1] == Next(c, states[k], steps[k]))
    && (forall i, k :: 0 <= i <= k < |steps| ==> steps[i].now <= steps[k].now)
  }

  // ------------------------------------------------------------ mutual exclusion

  ghost predicate RowsOfTheirKey(rows: Rows) {
    forall s :: s in rows ==> rows[s].keyId == KeyOf(s)
  }

  ghost predicate HoldsOnlyOpenGates(rows: Rows, now: Time) {
    forall s :: s in rows && Holding(rows[s], now) ==> rows[s].open
  }

  /** No row has a live business lease and a live check at once. */
  ghost predicate NeverBoth(rows: Rows, now: Time) {
    forall s :: s in rows ==> !(LeaseLive(rows[s], now) && CheckLive(rows[s], now))
  }

  /** While a key-wide row is held, no other row of the key is under check, and a lease on
      one belongs to the admission that holds the key. */
  ghost predicate KeyWideExcludes(rows: Rows, now: Time) {
    forall s :: s in rows && s.DimScope? && KeyScope(KeyOf(s)) in rows && Holding(rows[KeyScope(KeyOf(s))], now) ==>
      var key := rows[KeyScope(KeyOf(s))];
      && !CheckLive(rows[s], now)
      && (LeaseLive(rows[s], now) ==> LeaseLive(key, now) && rows[s].lease == key.lease)
  }

  ghost predicate Safe(rows: Rows, now: Time) {
    && RowsOfTheirKey(rows)
    && HoldsOnlyOpenGates(rows, now)
    && NeverBoth(rows, now)
    && KeyWideExcludes(rows, now)
  }

  lemma TimePasses(rows: Rows, now: Time, later: Time)
    requires Safe(rows, now) && now <= later
    ensures Safe(rows, later)
  {
    forall s | s in rows && Holding(rows[s], later) ensures Holding(rows[s], now) {}
  }

  /** A row rewrite that takes no hold of its own and never leaves a hold on a closed row. */
  predicate TakesNoHold(before: Circuit, after: Circuit, now: Time) {
    && after.keyId == before.keyId
    && (Holding(after, now) ==> after.open == before.open)
    && (LeaseLive(after, now) ==> LeaseLive(before, now) && after.lease == before.lease)
    && (CheckLive(after, now) ==> CheckLive(before, now))
  }

  lemma RewriteKeepsSafe(rows: Rows, s: Scope, r: Circuit, now: Time)
    requires Safe(rows, now) && s in rows && TakesNoHold(rows[s], r, now)
    ensures Safe(rows[s := r], now)
  {
  }

  lemma LockKeepsSafe(rows: Rows, d: Dimension, s: Scope, now: Time)
    requires Safe(rows, now) && KeyOf(s) == d.keyId
    ensures Safe(Lock(rows, d, s), now)
  {
  }

  lemma AdmitGateKeepsSafe(rows: Rows, d: Dimension, s: Scope, recovery: bool, now: Time, token: Token)
    requires Safe(rows, now) && KeyOf(s) == d.keyId
    requires s.DimScope? && KeyScope(d.keyId) in rows && rows[KeyScope(d.keyId)].open ==>
               LeaseLive(rows[KeyScope(d.keyId)], now) && rows[KeyScope(d.keyId)].lease == token
    ensures var out := AdmitGate(rows, d, s, recovery, now, token); out.Some? ==> Safe(out.value, now)
  {
    LockKeepsSafe(rows, d, s, now);
    var out := AdmitGate(rows, d, s, recovery, now, token);
    if out.Some? && Lock(rows, d, s)[s].open {
      var locked := Lock(rows, d, s);
      forall t | t in locked && t != s && KeyOf(t) == d.keyId && s.KeyScope? ensures !Holding(locked[t], now) {}
    }
  }

  lemma AdmitKeepsSafe(rows: Rows, d: Dimension, recovery: bool, now: Time, token: Token)
    requires Safe(rows, now)
    ensures var out := Admit(rows, d, recovery, now, token); out.Some? ==> Safe(out.value.0, now)
  {
    AdmitGateKeepsSafe(rows, d, KeyScope(d.keyId), recovery, now, token);
    var first := AdmitGate(rows, d, KeyScope(d.keyId), recovery, now, token);
    if first.Some? {
      AdmitGateKeepsSafe(first.value, d, DimScope(d), recovery, now, token);
    }
  }

  lemma OutputKeepsSafe(rows: Rows, d: Dimension, a: Admission, now: Time)
    requires Safe(rows, now)
    ensures Safe(ReleaseOnOutput(rows, d, a, now).0, now)
  {
    ReleaseGateKeepsSafe(rows, d, KeyScope(d.keyId), a, now);
    ReleaseGateKeepsSafe(ReleaseGate(rows, d, KeyScope(d.keyId), a, now), d, DimScope(d), a, now);
  }

  lemma ReleaseGateKeepsSafe(rows: Rows, d: Dimension, s: Scope, a: Admission, now: Time)
    requires Safe(rows, now) && KeyOf(s) == d.keyId
    ensures Safe(ReleaseGate(rows, d, s, a, now), now)
  {
    LockKeepsSafe(rows, d, s, now);
    var locked := Lock(rows, d, s);
    RewriteKeepsSafe(locked, s, Close(locked[s], now), now);
  }

  lemma ObserveRowTakesNoHold(r: Circuit, s: Scope, d: Dimension, token: Token, o: Outcome, now: Time, cfg: Settings)
    ensures TakesNoHold(r, ObserveRow(r, s, d, token, o, now, cfg), now)
  {
  }

  lemma ObserveKeepsSafe(rows: Rows, observed: set<(Scope, string)>, d: Dimension, token: Token, o: Outcome, now: Time,
                         cfg: Settings)
    requires Safe(rows, now)
    ensures Safe(Observe(rows, observed, d, token, o, now, cfg).0, now)
  {
    var key, dim := KeyScope(d.keyId), DimScope(d);
    LockKeepsSafe(rows, d, key, now);
    LockKeepsSafe(Lock(rows, d, key), d, dim, now);
    var locked := ObserveLocked(rows, d);
    ObserveRowTakesNoHold(locked[key], key, d, token, o, now, cfg);
    ObserveRowTakesNoHold(locked[dim], dim, d, token, o, now, cfg);
    var first := locked[key := ObserveRow(locked[key], key, d, token, o, now, cfg)];
    RewriteKeepsSafe(locked, key, first[key], now);
    RewriteKeepsSafe(first, dim, ObserveRow(locked[dim], dim, d, token, o, now, cfg), now);
  }

  lemma ClaimKeepsSafe(rows: Rows, limit: nat, s: Scope, d: Dimension, expected: Option<nat>, now: Time, token: Token)
    requires Safe(rows, now) && KeyOf(s) == d.keyId
    ensures var out := Claim(rows, limit, s, d, expected, now, token); out.Ok? ==> Safe(out.value, now)
  {
    LockKeepsSafe(rows, d, KeyScope(d.keyId), now);
    var out := Claim(rows, limit, s, d, expected, now, token);
    if out.Ok? {
      var locked := Lock(rows, d, KeyScope(d.keyId));
      assert !Holding(locked[KeyScope(d.keyId)], now);
      forall t | t in locked && KeyOf(t) == d.keyId && s.KeyScope? ensures !Holding(locked[t], now) {}
    }
  }

  lemma BalanceKeepsSafe(rows: Rows, ids: set<nat>, checkedAfter: Time, now: Time)
    requires Safe(rows, now)
    ensures Safe(BalanceRelease(rows, ids, checkedAfter, now), now)
  {
  }

  lemma FinishKeepsSafe(rows: Rows, s: Scope, token: Token, success: bool, neutral: bool, message: string,
                        retryAfter: int, now: Time)
    requires Safe(rows, now)
    ensures var out := Finish(rows, s, token, success, neutral, message, retryAfter, now);
            out.Ok? ==> Safe(out.value, now)
  {
    if s in rows && CurrentCheck(rows[s], token, now) {
      RewriteKeepsSafe(rows, s, FinishRow(rows[s], success, neutral, message, retryAfter, now), now);
    }
  }

  lemma StepKeepsSafe(c: Config, w: World, step: Step)
    requires Safe(w.rows, step.now) && ValidStep(step)
    ensures Safe(Next(c, w, step).rows, step.now)
  {
    hide Safe;
    match step
    case AdmitStep(d, recovery, now) => AdmitKeepsSafe(w.rows, d, recovery, now, w.issued + 1);
    case OutputStep(d, a, now) => OutputKeepsSafe(w.rows, d, a, now);
    case ObserveStep(d, token, o, now) => ObserveKeepsSafe(w.rows, w.observed, d, token, o, now, c.settings);
    case ClaimStep(s, d, expected, now) => ClaimKeepsSafe(w.rows, c.limit, s, d, expected, now, w.issued + 1);
    case FinishStep(s, token, success, neutral, message, retryAfter, now) =>
      FinishKeepsSafe(w.rows, s, token, success, neutral, message, retryAfter, now);
    case BalanceStep(ids, checkedAfter, now) => BalanceKeepsSafe(w.rows, ids, checkedAfter, now);
  }

  /** Business validation and synthetic checks stay apart in every reachable state. */
  lemma {:induction false} RunIsSafe(c: Config, states: seq<World>, steps: seq<Step>, k: nat, at: Time)
    requires Run(c, states, steps) && k <= |steps|
    requires k > 0 ==> steps[k - 1].now <= at
    ensures Safe(states[k].rows, at)
  {
    if k > 0 {
      RunIsSafe(c, states, steps, k - 1, steps[k - 1].now);
      StepKeepsSafe(c, states[k - 1], steps[k - 1]);
      TimePasses(states[k].rows, steps[k - 1].now, at);
    }
  }

  // -------------------------------------------------------- one row of one step

  predicate Locks(step: Step) { !step.FinishStep? && !step.BalanceStep? }

  /** The row a step starts from: the stored one, or the one its lock inserts. */
  function RowBefore(w: World, step: Step, s: Scope): Circuit
    requires s in w.rows || Locks(step)
  {
    if s in w.rows then w.rows[s] else FreshRow(step.d)
  }

  predicate Touches(d: Dimension, s: Scope) { s == KeyScope(d.keyId) || s == DimScope(d) }

  predicate RowChange(c: Config, w: World, step: Step, s: Scope, before: Circuit, after: Circuit) {
    after == before ||
    match step
    case AdmitStep(d, recovery, now) =>
      && Touches(d, s)
      && after == before.(lease := w.issued + 1, leaseUntil := now + BUSINESS_LEASE_MS, recoveryAt := Some(now))
    case OutputStep(d, a, now) => Touches(d, s) && OwnsOpenGate(before, s, a, now) && after == Close(before, now)
    case ObserveStep(d, token, o, now) =>
      Touches(d, s) && !AlreadySeen(w.observed, d, o) && after == ObserveRow(before, s, d, token, o, now, c.settings)
    case ClaimStep(scope, d, expected, now) =>
      && s == scope
      && after == before.(checkLease := w.issued + 1, checkUntil := Some(now + CHECK_LEASE_MS), checkOK := false,
                          target := d)
    case FinishStep(scope, token, success, neutral, message, retryAfter, now) =>
      && s == scope
      && CurrentCheck(before, token, now)
      && after == FinishRow(before, success, neutral, message, retryAfter, now)
    case BalanceStep(ids, checkedAfter, now) =>
      QuotaGate(before, ids, checkedAfter) && after == BalanceReleaseRow(before, now)
  }

  lemma StepKeepsRows(c: Config, w: World, step: Step)
    ensures w.rows.Keys <= Next(c, w, step).rows.Keys
  {
  }

  predicate ChangesRow(c: Config, w: World, step: Step, s: Scope) {
    var after := Next(c, w, step).rows;
    s in after ==> (s in w.rows || Locks(step)) && RowChange(c, w, step, s, RowBefore(w, step, s), after[s])
  }

  lemma AdmitChangesRow(c: Config, w: World, step: Step, s: Scope)
    requires step.AdmitStep?
    ensures ChangesRow(c, w, step, s)
  {
    hide AdmitGate, Lock, FreshRow;
    var key, dim := KeyScope(step.d.keyId), DimScope(step.d);
    var token := w.issued + 1;
    var first := AdmitGate(w.rows, step.d, key, step.recovery, step.now, token);
    AdmitGateChanges(w.rows, step.d, key, step.recovery, step.now, token, s);
    if first.Some? {
      AdmitGateChanges(first.value, step.d, dim, step.recovery, step.now, token, s);
    }
  }

  lemma AdmitGateChanges(rows: Rows, d: Dimension, gate: Scope, recovery: bool, now: Time, token: Token, s: Scope)
    ensures var out := AdmitGate(rows, d, gate, recovery, now, token);
            && (out.Some? && s in rows ==> s in out.value)
            && (out.Some? && s in out.value ==>
              && (s in rows || s == gate)
              && var before := if s in rows then rows[s] else FreshRow(d);
                 out.value[s] == before
                 || (s == gate
                     && out.value[s]
                        == before.(lease := token, leaseUntil := now + BUSINESS_LEASE_MS, recoveryAt := Some(now))))
  {
    hide OtherHolds;
  }

  lemma OutputChangesRow(c: Config, w: World, step: Step, s: Scope)
    requires step.OutputStep?
    ensures ChangesRow(c, w, step, s)
  {
    hide Close;
  }

  lemma ObserveChangesRow(c: Config, w: World, step: Step, s: Scope)
    requires step.ObserveStep?
    ensures ChangesRow(c, w, step, s)
  {
    hide ObserveRow;
    var after := Next(c, w, step).rows;
    if s in after {
      assert ObserveLocked(w.rows, step.d)[s] == RowBefore(w, step, s);
    }
  }

  /** Every step rewrites a row in one of the ways above. */
  lemma StepChangesRow(c: Config, w: World, step: Step, s: Scope)
    ensures ChangesRow(c, w, step, s)
  {
    hide FinishRow;
    match step
    case AdmitStep(d, recovery, now) => AdmitChangesRow(c, w, step, s);
    case OutputStep(d, a, now) => OutputChangesRow(c, w, step, s);
    case ObserveStep(d, token, o, now) => ObserveChangesRow(c, w, step, s);
    case ClaimStep(scope, d, expected, now) =>
    case FinishStep(scope, token, success, neutral, message, retryAfter, now) =>
    case BalanceStep(ids, checkedAfter, now) =>
  }

  // --------------------------------------------------------------- generations

  /** What an opening or closing of a gate decides: the part guarded by the generation. */
  datatype Gate = Gate(open: bool, openedAt: Time, until: Time, backoffSec: int, reason: string)

  function GateOf(r: Circuit): Gate {
    if r.open then Gate(true, r.openedAt, r.until, r.backoffSec, r.reason) else Gate(false, r.openedAt, r.until, 0, "")
  }

  /** Nothing from before this moment can touch the gate again: no lease or check holds it, and
      no admission of an earlier generation reports, releases or finishes anything on it. */
  ghost predicate FencesOff(before: Circuit, after: Circuit, s: Scope) {
    && after.generation == before.generation + 1
    && (forall t :: !Holding(after, t))
    && (forall token, t :: !CurrentCheck(after, token, t))
    && (forall a: Admission, t | s in a.generations && a.generations[s] <= before.generation ::
          !OwnsOpenGate(after, s, a, t))
    && (forall o: Outcome, token, t | o.admission.Some? && s in o.admission.value.generations
                                      && o.admission.value.generations[s] <= before.generation ::
          !Applies(after, s, token, o, t))
  }

  /** Closing a gate forgets its failures and fences off everything that was under way on it. */
  lemma ClosingFencesOff(r: Circuit, s: Scope, now: Time)
    ensures FencesOff(r, Close(r, now), s)
    ensures !Close(r, now).open && Close(r, now).attemptTimes == Close(r, now).failureTimes == []
  {
  }

  /** So does opening one; and it is open for the whole cooldown. */
  lemma OpeningFencesOff(r: Circuit, s: Scope, now: Time, reason: string, retryAfter: int, cfg: Settings)
    requires Normalized(cfg)
    ensures FencesOff(r, Open(r, now, reason, retryAfter, cfg), s)
    ensures Open(r, now, reason, retryAfter, cfg).open && Open(r, now, reason, retryAfter, cfg).until >= now + 1000
  {
  }

  /** A rewrite that either keeps the gate as it is, or starts a new generation. */
  predicate Advances(before: Circuit, after: Circuit) {
    && before.generation <= after.generation
    && (after.generation == before.generation ==> GateOf(after) == GateOf(before))
  }

  lemma StepAdvances(c: Config, w: World, step: Step, s: Scope)
    requires s in w.rows
    ensures s in Next(c, w, step).rows && Advances(w.rows[s], Next(c, w, step).rows[s])
  {
    StepKeepsRows(c, w, step);
    StepChangesRow(c, w, step, s);
    hide Next, ObserveRow, FinishRow, OwnsOpenGate;
    var r := w.rows[s];
    match step
    case ObserveStep(d, token, o, now) => ObserveAdvances(r, s, d, token, o, now, c.settings);
    case FinishStep(_, _, success, neutral, message, retryAfter, now) =>
      FinishAdvances(r, success, neutral, message, retryAfter, now);
    case AdmitStep(_, _, _) =>
    case OutputStep(_, _, _) =>
    case ClaimStep(_, _, _, _) =>
    case BalanceStep(_, _, _) =>
  }

  lemma ObserveAdvances(r: Circuit, s: Scope, d: Dimension, token: Token, o: Outcome, now: Time, cfg: Settings)
    ensures Advances(r, ObserveRow(r, s, d, token, o, now, cfg))
  {
    hide Track, Above, Threshold, Sustained, CooldownSeconds, Owned, Applies;
  }

  lemma FinishAdvances(r: Circuit, success: bool, neutral: bool, message: string, retryAfter: int, now: Time)
    ensures Advances(r, FinishRow(r, success, neutral, message, retryAfter, now))
  {
    hide NextBackoff;
  }

  lemma {:induction false} RunAdvances(c: Config, states: seq<World>, steps: seq<Step>, i: nat, k: nat, s: Scope)
    requires Run(c, states, steps) && i <= k <= |steps| && s in states[i].rows
    ensures s in states[k].rows && Advances(states[i].rows[s], states[k].rows[s])
  {
    if i < k {
      RunAdvances(c, states, steps, i, k - 1, s);
      StepAdvances(c, states[k - 1], steps[k - 1], s);
    }
  }

  /** Admission records the generations that its own transaction leaves behind. */
  lemma AdmitCaptures(rows: Rows, d: Dimension, recovery: bool, now: Time, token: Token)
    ensures var out := Admit(rows, d, recovery, now, token);
            out.Some? ==>
              var a := out.value.1;
              && a.token == token
              && a.generations.Keys == {KeyScope(d.keyId), DimScope(d)}
              && forall s :: s in a.generations ==>
                   s in out.value.0 && out.value.0[s].generation == a.generations[s]
  {
  }

  /** After a first output the admission carries the new generation of every gate it closed. */
  lemma OutputCaptures(rows: Rows, d: Dimension, a: Admission, now: Time, s: Scope)
    requires s in rows
    ensures var (after, b) := ReleaseOnOutput(rows, d, a, now);
            && b.token == a.token
            && s in after
            && (after[s].generation != rows[s].generation ==>
                  s in b.generations && b.generations[s] == after[s].generation && !after[s].open)
            && (after[s].generation == rows[s].generation ==>
                  && (s in b.generations <==> s in a.generations)
                  && (s in a.generations ==> b.generations[s] == a.generations[s]))
  {
  }

  /** From state i to state j the gate has neither opened nor closed: it is of the generation
      that the admission carries. */
  ghost predicate Stands(states: seq<World>, i: nat, j: nat, s: Scope, generation: nat)
    requires i <= j < |states|
  {
    && s in states[j].rows
    && forall k :: i <= k <= j ==>
         && s in states[k].rows && states[k].rows[s].generation == generation
         && GateOf(states[k].rows[s]) == GateOf(states[j].rows[s])
  }

  lemma SameGenerationStands(c: Config, states: seq<World>, steps: seq<Step>, i: nat, j: nat, s: Scope)
    requires Run(c, states, steps) && i <= j <= |steps| && s in states[i].rows && s in states[j].rows
    requires states[i].rows[s].generation == states[j].rows[s].generation
    ensures Stands(states, i, j, s, states[i].rows[s].generation)
  {
    forall k | i <= k <= j
      ensures && s in states[k].rows && states[k].rows[s].generation == states[i].rows[s].generation
              && GateOf(states[k].rows[s]) == GateOf(states[j].rows[s])
    {
      RunAdvances(c, states, steps, i, k, s);
      RunAdvances(c, states, steps, k, j, s);
    }
  }

  /** The step is an outcome of this admission, reported under its token. */
  predicate Reports(step: Step, a: Admission) {
    step.ObserveStep? && step.outcome.admission == Some(a) && step.token == a.token
  }

  /** What step i admitted. */
  function AdmittedAt(w: World, step: Step): Option<(Rows, Admission)>
    requires step.AdmitStep?
  {
    Admit(w.rows, step.d, step.recovery, step.now, w.issued + 1)
  }

  /** An outcome changes a row only if the gate has neither opened nor closed since its admission,
      and an open row only while that admission's own lease on it is live. */
  lemma LateOutcomeIsHarmless(c: Config, states: seq<World>, steps: seq<Step>, i: nat, j: nat, a: Admission, s: Scope)
    requires Run(c, states, steps) && i < j < |steps| && steps[i].AdmitStep? && Reports(steps[j], a)
    requires AdmittedAt(states[i], steps[i]).Some? && AdmittedAt(states[i], steps[i]).value.1 == a
    requires s in states[j].rows && s in states[j + 1].rows && states[j + 1].rows[s] != states[j].rows[s]
    ensures s in a.generations && Stands(states, i + 1, j, s, a.generations[s])
    ensures states[j].rows[s].open ==> Owned(states[j].rows[s], a.token, steps[j].now)
  {
    hide Run, Next, AdmittedAt, Stands;
    OutcomeNeedsItsGate(c, states, steps, j, a, s);
    AdmissionCaptured(c, states, steps, i, a, s);
    SameGenerationStands(c, states, steps, i + 1, j, s);
  }

  lemma OutcomeNeedsItsGate(c: Config, states: seq<World>, steps: seq<Step>, j: nat, a: Admission, s: Scope)
    requires Run(c, states, steps) && j < |steps| && Reports(steps[j], a)
    requires s in states[j].rows && s in states[j + 1].rows && states[j + 1].rows[s] != states[j].rows[s]
    ensures s in a.generations && states[j].rows[s].generation == a.generations[s]
    ensures states[j].rows[s].open ==> Owned(states[j].rows[s], a.token, steps[j].now)
  {
    hide Next;
    ObserveChangesOnlyItsGate(states[j], c, steps[j], s);
  }

  lemma AdmissionCaptured(c: Config, states: seq<World>, steps: seq<Step>, i: nat, a: Admission, s: Scope)
    requires Run(c, states, steps) && i < |steps| && steps[i].AdmitStep? && s in a.generations
    requires AdmittedAt(states[i], steps[i]).Some? && AdmittedAt(states[i], steps[i]).value.1 == a
    ensures s in states[i + 1].rows && states[i + 1].rows[s].generation == a.generations[s]
  {
    hide Admit;
    AdmitCaptures(states[i].rows, steps[i].d, steps[i].recovery, steps[i].now, states[i].issued + 1);
  }

  lemma OutputCaptured(c: Config, states: seq<World>, steps: seq<Step>, m: nat, s: Scope)
    requires Run(c, states, steps) && m < |steps| && steps[m].OutputStep? && s in states[m].rows
             && s in states[m + 1].rows
    ensures var a, before, after := steps[m].admission, states[m].rows[s].generation, states[m + 1].rows[s].generation;
            var b := ReleaseOnOutput(states[m].rows, steps[m].d, a, steps[m].now).1;
            && (after != before ==> s in b.generations && b.generations[s] == after)
            && (after == before && s in a.generations ==> s in b.generations && b.generations[s] == a.generations[s])
  {
    hide ReleaseOnOutput;
    OutputCaptures(states[m].rows, steps[m].d, steps[m].admission, steps[m].now, s);
  }

  /** The same after the admission's first output: the gates it closed then have not opened or
      closed since that output, and the others not since the admission. */
  lemma LateOutcomeAfterOutput(c: Config, states: seq<World>, steps: seq<Step>, i: nat, m: nat, j: nat,
                               a: Admission, b: Admission, s: Scope)
    requires Run(c, states, steps) && i < m < j < |steps| && steps[i].AdmitStep? && Reports(steps[j], b)
    requires AdmittedAt(states[i], steps[i]).Some? && AdmittedAt(states[i], steps[i]).value.1 == a
    requires steps[m].OutputStep? && steps[m].admission == a
    requires ReleaseOnOutput(states[m].rows, steps[m].d, a, steps[m].now).1 == b
    requires s in states[j].rows && s in states[j + 1].rows && states[j + 1].rows[s] != states[j].rows[s]
    ensures s in a.generations && s in b.generations && Stands(states, m + 1, j, s, b.generations[s])
    ensures b.generations[s] == a.generations[s] ==> Stands(states, i + 1, j, s, a.generations[s])
    ensures states[j].rows[s].open ==> Owned(states[j].rows[s], b.token, steps[j].now)
  {
    assert |states| == |steps| + 1;
    hide Run, Next, AdmittedAt, ReleaseOnOutput, GateOf;
    OutputKeepsScopes(states[m].rows, steps[m].d, a, steps[m].now);
    OutcomeNeedsItsGate(c, states, steps, j, b, s);
    AdmissionCaptured(c, states, steps, i, a, s);
    RunAdvances(c, states, steps, i + 1, m, s);
    RunAdvances(c, states, steps, m, m + 1, s);
    OutputCaptured(c, states, steps, m, s);
    if b.generations[s] == a.generations[s] {
      SameGenerationStands(c, states, steps, i + 1, j, s);
    } else {
      SameGenerationStands(c, states, steps, m + 1, j, s);
    }
  }

  lemma OutputKeepsScopes(rows: Rows, d: Dimension, a: Admission, now: Time)
    ensures ReleaseOnOutput(rows, d, a, now).1.generations.Keys == a.generations.Keys
  {
    hide Close;
  }

  lemma ObserveChangesOnlyItsGate(w: World, c: Config, step: Step, s: Scope)
    requires step.ObserveStep? && step.outcome.admission.Some? && s in w.rows
    requires s in Next(c, w, step).rows && Next(c, w, step).rows[s] != w.rows[s]
    ensures s == KeyScope(step.d.keyId) || s == DimScope(step.d)
    ensures s in step.outcome.admission.value.generations
    ensures step.outcome.admission.value.generations[s] == w.rows[s].generation
    ensures w.rows[s].open ==> Owned(w.rows[s], step.token, step.now)
  {
    var locked := ObserveLocked(w.rows, step.d);
    assert locked[s] == w.rows[s];
    assert Applies(w.rows[s], s, step.token, step.outcome, step.now);
  }

  // ----------------------------------------------------------- synthetic checks

  lemma SubsetIsNoLarger<T>(a: set<T>, b: set<T>)
    requires a <= b
    ensures |a| <= |b|
  {
    if a != {} {
      var x :| x in a;
      SubsetIsNoLarger(a - {x}, b - {x});
    }
  }

  lemma CheckWasClaimed(c: Config, w: World, step: Step, s: Scope)
    requires s in Next(c, w, step).rows && CheckLive(Next(c, w, step).rows[s], step.now)
    ensures (s in w.rows && CheckLive(w.rows[s], step.now)) || (step.ClaimStep? && s == step.scope)
  {
    StepChangesRow(c, w, step, s);
    hide Next;
  }

  lemma OnlyClaimsAddChecks(c: Config, w: World, step: Step)
    ensures LiveChecks(Next(c, w, step).rows, step.now)
            <= LiveChecks(w.rows, step.now) + if step.ClaimStep? then {step.scope} else {}
  {
    hide Next;
    forall s | s in LiveChecks(Next(c, w, step).rows, step.now)
      ensures s in LiveChecks(w.rows, step.now) || (step.ClaimStep? && s == step.scope)
    {
      CheckWasClaimed(c, w, step, s);
    }
  }

  /** The workers of all processes together never run more checks than the limit allows. */
  lemma {:induction false} ChecksStayWithinLimit(c: Config, states: seq<World>, steps: seq<Step>, k: nat, at: Time)
    requires Run(c, states, steps) && k <= |steps|
    requires k > 0 ==> steps[k - 1].now <= at
    ensures |LiveChecks(states[k].rows, at)| <= c.limit
  {
    hide Next, Claim;
    if k > 0 {
      var w, step := states[k - 1], steps[k - 1];
      ChecksStayWithinLimit(c, states, steps, k - 1, step.now);
      OnlyClaimsAddChecks(c, w, step);
      SubsetIsNoLarger(LiveChecks(states[k].rows, at), LiveChecks(states[k].rows, step.now));
      SubsetIsNoLarger(LiveChecks(states[k].rows, step.now),
                       LiveChecks(w.rows, step.now) + if step.ClaimStep? then {step.scope} else {});
      if step.ClaimStep? && |LiveChecks(w.rows, step.now)| == c.limit {
        ClaimNeedsRoom(c, w, step);
      }
    }
  }

  lemma ClaimNeedsRoom(c: Config, w: World, step: Step)
    requires step.ClaimStep? && |LiveChecks(w.rows, step.now)| >= c.limit
    ensures Next(c, w, step).rows == w.rows
  {
  }

  /** A check token, once given to a row, marks one claim for ever. */
  predicate Marks(rows: Rows, s: Scope, token: Token, generation: nat, until: Option<Time>) {
    s in rows && (rows[s].checkLease == token ==> rows[s].generation == generation && rows[s].checkUntil == until)
  }

  lemma StepKeepsMark(c: Config, w: World, step: Step, s: Scope, token: Token, generation: nat, until: Option<Time>)
    requires 0 < token <= w.issued && Marks(w.rows, s, token, generation, until)
    ensures var after := Next(c, w, step);
            && Marks(after.rows, s, token, generation, until)
            && (after.rows[s].checkLease == token ==> w.rows[s].checkLease == token)
            && token <= after.issued
  {
    StepKeepsRows(c, w, step);
    StepChangesRow(c, w, step, s);
    TokensGrow(c, w, step);
    hide Next, ObserveRow, FinishRow, OwnsOpenGate;
    var r := w.rows[s];
    match step
    case ObserveStep(d, t, o, now) => ObserveKeepsMark(r, s, d, t, o, now, c.settings);
    case FinishStep(_, _, success, neutral, message, retryAfter, now) =>
      FinishEndsMark(r, success, neutral, message, retryAfter, now);
    case AdmitStep(_, _, _) =>
    case OutputStep(_, _, _) =>
    case ClaimStep(_, _, _, _) =>
    case BalanceStep(_, _, _) =>
  }

  lemma TokensGrow(c: Config, w: World, step: Step)
    ensures w.issued <= Next(c, w, step).issued
  {
    hide Admit, Observe, Claim, Finish, ReleaseOnOutput, BalanceRelease;
  }

  lemma ObserveKeepsMark(r: Circuit, s: Scope, d: Dimension, token: Token, o: Outcome, now: Time, cfg: Settings)
    ensures var after := ObserveRow(r, s, d, token, o, now, cfg);
            after.checkLease == 0
            || (after.checkLease == r.checkLease && after.generation == r.generation
                && after.checkUntil == r.checkUntil)
  {
    hide Track, Above, Threshold, Sustained, CooldownSeconds, Owned, Applies;
  }

  lemma FinishEndsMark(r: Circuit, success: bool, neutral: bool, message: string, retryAfter: int, now: Time)
    ensures FinishRow(r, success, neutral, message, retryAfter, now).checkLease == 0
  {
    hide NextBackoff;
  }

  lemma {:induction false} RunKeepsMark(c: Config, states: seq<World>, steps: seq<Step>, i: nat, k: nat, s: Scope,
                                        token: Token, generation: nat, until: Option<Time>)
    requires Run(c, states, steps) && i <= k <= |steps|
    requires 0 < token <= states[i].issued && Marks(states[i].rows, s, token, generation, until)
    ensures Marks(states[k].rows, s, token, generation, until) && token <= states[k].issued
    ensures states[k].rows[s].checkLease == token ==>
              forall m :: i <= m <= k ==> s in states[m].rows && states[m].rows[s].checkLease == token
  {
    hide Next;
    if i < k {
      RunKeepsMark(c, states, steps, i, k - 1, s, token, generation, until);
      StepKeepsMark(c, states[k - 1], steps[k - 1], s, token, generation, until);
    }
  }

  /** A finish takes effect only while its own claim is the current, unexpired one: from the
      claim to the finish the row was neither reclaimed, nor opened, nor closed. */
  lemma FinishSettlesOnlyItsClaim(c: Config, states: seq<World>, steps: seq<Step>, i: nat, j: nat)
    requires Run(c, states, steps) && i < j < |steps|
    requires steps[i].ClaimStep? && steps[j].FinishStep? && steps[i].scope == steps[j].scope
    requires Claim(states[i].rows, c.limit, steps[i].scope, steps[i].d, steps[i].expected, steps[i].now,
                   steps[j].token).Ok?
    requires steps[j].token == states[i].issued + 1
    requires states[j + 1] != states[j]
    ensures var s := steps[i].scope;
            && s in states[i].rows
            && steps[j].now < steps[i].now + CHECK_LEASE_MS
            && forall k :: i < k <= j ==>
                 && s in states[k].rows
                 && states[k].rows[s].checkLease == steps[j].token
                 && GateOf(states[k].rows[s]) == GateOf(states[i].rows[s])
  {
    var s, token := steps[i].scope, steps[j].token;
    ClaimMarks(c, states[i], steps[i]);
    var r := states[i + 1].rows[s];
    RunKeepsMark(c, states, steps, i + 1, j, s, token, r.generation, r.checkUntil);
    assert CurrentCheck(states[j].rows[s], token, steps[j].now);
    forall k | i < k <= j ensures s in states[k].rows && GateOf(states[k].rows[s]) == GateOf(states[i].rows[s]) {
      RunAdvances(c, states, steps, i + 1, k, s);
      RunAdvances(c, states, steps, k, j, s);
    }
  }

  lemma ClaimMarks(c: Config, w: World, step: Step)
    requires step.ClaimStep?
    requires Claim(w.rows, c.limit, step.scope, step.d, step.expected, step.now, w.issued + 1).Ok?
    ensures var after := Next(c, w, step);
            && step.scope in w.rows && step.scope in after.rows
            && after.issued == w.issued + 1
            && after.rows[step.scope].checkLease == w.issued + 1
            && after.rows[step.scope].checkUntil == Some(step.now + CHECK_LEASE_MS)
            && GateOf(after.rows[step.scope]) == GateOf(w.rows[step.scope])
            && after.rows[step.scope].generation == w.rows[step.scope].generation
  {
  }
}
