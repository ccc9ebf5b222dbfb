/** The store of routing circuits: its transactions update the rows in place and either
    commit a whole step of the protocol or leave the store as it was. */
module CircuitStore {
  import opened Wrappers
  import opened Circuits
  import opened CircuitRuns

  class Store {
    var rows: Rows
    var observed: set<(Scope, string)>
    var issued: nat
    const settings: Settings
    const checkConcurrency: int
    ghost var states: seq<World>  // every state of the store, from the empty one to the present
    ghost var steps: seq<Step>    // what led from each of them to the next
    ghost var clock: Time

    function Options(): Config { Config(Normalize(settings), CheckLimit(checkConcurrency)) }

    function Current(): World
      reads this`rows, this`observed, this`issued
    {
      World(rows, observed, issued)
    }

    ghost predicate Recorded()
      reads this`states, this`steps, this`clock
    {
      Run(Options(), states, steps) && forall k :: 0 <= k < |steps| ==> steps[k].now <= clock
    }

    /** The calls so far are a run of the protocol, and have led to the present state. */
    ghost predicate Valid()
      reads this
    {
      Recorded() && |states| == |steps| + 1 && states[|steps|] == Current()
    }

    constructor (settings: Settings, checkConcurrency: int)
      ensures Valid() && rows == map[] && observed == {} && issued == 0 && clock == 0
      ensures this.settings == settings && this.checkConcurrency == checkConcurrency
    {
      this.settings := settings;
      this.checkConcurrency := checkConcurrency;
      rows, observed, issued := map[], {}, 0;
      states, steps, clock := [START], [], 0;
    }

    /** So the present rows are safe, and within the limit of checks. */
    lemma StaysSafe()
      requires Valid()
      ensures Safe(rows, clock) && |LiveChecks(rows, clock)| <= CheckLimit(checkConcurrency)
    {
      hide Run, Safe;
      RunIsSafe(Options(), states, steps, |steps|, clock);
      ChecksStayWithinLimit(Options(), states, steps, |steps|, clock);
    }

    /** Writes down the step that a call is about to make. */
    ghost method Begin(step: Step)
      requires Valid() && ValidStep(step) && clock <= step.now
      modifies this`states, this`steps, this`clock
      ensures Recorded() && clock == step.now && |states| == |steps| + 1
      ensures states[|steps|] == Next(Options(), Current(), step)
    {
      hide Next;
      var was := steps;
      states, steps, clock := states + [Next(Options(), Current(), step)], steps + [step], step.now;
      assert forall k :: 0 <= k < |was| ==> steps[k] == was[k];
    }

    method NewToken() returns (token: Token)
      modifies this`issued
      ensures issued == old(issued) + 1 == token
    {
      issued := issued + 1;
      token := issued;
    }

    /** Admits a request to both of its gates, or to neither. */
    method AdmitRequest(d: Dimension, recovery: bool, now: Time) returns (admission: Option<Admission>)
      requires Valid() && clock <= now && now > 0
      modifies this
      ensures Valid() && clock == now && observed == old(observed) && issued == old(issued) + 1
      ensures match Admit(old(rows), d, recovery, now, issued)
              case None => rows == old(rows) && admission == None
              case Some(out) => rows == out.0 && admission == Some(out.1)
    {
      hide Recorded, Admit;
      Begin(AdmitStep(d, recovery, now));
      admission := AdmitTx(d, recovery, now);
    }

    method AdmitTx(d: Dimension, recovery: bool, now: Time) returns (admission: Option<Admission>)
      modifies this`rows, this`issued
      ensures issued == old(issued) + 1
      ensures match Admit(old(rows), d, recovery, now, issued)
              case None => rows == old(rows) && admission == None
              case Some(out) => rows == out.0 && admission == Some(out.1)
    {
      var token := NewToken();
      var tx := rows;
      var generations: map<Scope, nat> := map[];
      var scopes := [KeyScope(d.keyId), DimScope(d)];
      for i := 0 to 2
        invariant i == 0 ==> tx == rows && generations == map[]
        invariant i >= 1 ==> AdmitGate(rows, d, scopes[0], recovery, now, token).Some?
        invariant i == 1 ==>
                    && tx == AdmitGate(rows, d, scopes[0], recovery, now, token).value
                    && generations == map[scopes[0] := Lock(rows, d, scopes[0])[scopes[0]].generation]
        invariant i == 2 ==> Admit(rows, d, recovery, now, token) == Some((tx, Admission(token, generations)))
      {
        var scope := scopes[i];
        tx := Lock(tx, d, scope);
        var r := tx[scope];
        generations := generations[scope := r.generation];
        if r.open {
          if !recovery || r.until > now || r.leaseUntil > now || After(r.checkUntil, now) {
            return None;
          }
          if scope == KeyScope(d.keyId) && OtherHolds(tx, d.keyId, scope, now) {
            return None;
          }
          r := r.(lease := token);
          r := r.(leaseUntil := now + BUSINESS_LEASE_MS);
          r := r.(recoveryAt := Some(now));
          tx := tx[scope := r];
        }
      }
      rows := tx;
      admission := Some(Admission(token, generations));
    }

    /** Closes the recovery gates this admission still owns and updates its generations. */
    method ReleaseRecovery(d: Dimension, a: Admission, now: Time) returns (b: Admission, changed: bool)
      requires Valid() && clock <= now && now > 0
      modifies this
      ensures Valid() && clock == now && observed == old(observed) && issued == old(issued)
      ensures (rows, b) == ReleaseOnOutput(old(rows), d, a, now)
      ensures changed <==> b != a
    {
      hide Recorded, ReleaseOnOutput;
      Begin(OutputStep(d, a, now));
      b, changed := ReleaseTx(d, a, now);
    }

    method ReleaseTx(d: Dimension, a: Admission, now: Time) returns (b: Admission, changed: bool)
      modifies this`rows
      ensures (rows, b) == ReleaseOnOutput(old(rows), d, a, now)
      ensures changed <==> b != a
    {
      b, changed := a, false;
      if a.token == 0 {
        return;
      }
      var scopes := [KeyScope(d.keyId), DimScope(d)];
      for i := 0 to 2
        invariant i == 0 ==> rows == old(rows) && b == a && !changed
        invariant i == 1 ==>
                    && rows == ReleaseGate(old(rows), d, scopes[0], a, now)
                    && b == (if OwnsOpenGate(Lock(old(rows), d, scopes[0])[scopes[0]], scopes[0], a, now)
                             then a.(generations := a.generations[scopes[0] := rows[scopes[0]].generation]) else a)
        invariant i == 2 ==> (rows, b) == ReleaseOnOutput(old(rows), d, a, now)
        invariant changed <==> b != a
      {
        var scope := scopes[i];
        rows := Lock(rows, d, scope);
        var r := rows[scope];
        if scope in a.generations && r.generation == a.generations[scope] && r.open && r.lease == a.token
           && r.leaseUntil > now {
          r := CloseCircuit(r, now);
          rows := rows[scope := r];
          b := b.(generations := b.generations[scope := rows[scope].generation]);
          changed := true;
          assert b.generations[scope] != a.generations[scope];
        }
      }
    }

    /** Takes the outcome of a request into account, once for each request and dimension. */
    method ObserveOutcome(d: Dimension, token: Token, o: Outcome, now: Time)
      requires Valid() && clock <= now && now > 0
      modifies this
      ensures Valid() && clock == now && issued == old(issued)
      ensures (rows, observed) == Observe(old(rows), old(observed), d, token, o, now, Normalize(settings))
    {
      hide Recorded, Observe;
      Begin(ObserveStep(d, token, o, now));
      ObserveTx(d, token, o, now);
    }

    method ObserveTx(d: Dimension, token: Token, o: Outcome, now: Time)
      modifies this`rows, this`observed
      ensures (rows, observed) == Observe(old(rows), old(observed), d, token, o, now, Normalize(settings))
    {
      var cfg := Normalize(settings);
      var key, dim := KeyScope(d.keyId), DimScope(d);
      rows := Lock(rows, d, key);
      rows := Lock(rows, d, dim);
      if o.requestId != "" {
        if (dim, o.requestId) in observed {
          return;
        }
        observed := observed + {(dim, o.requestId)};
      }
      ghost var locked, seen := rows, observed;
      assert locked == ObserveLocked(old(rows), d);
      hide ObserveRow;
      var scopes := [key, dim];
      for i := 0 to 2
        invariant observed == seen
        invariant i == 0 ==> rows == locked
        invariant i == 1 ==> rows == locked[key := ObserveRow(locked[key], key, d, token, o, now, cfg)]
        invariant i == 2 ==> rows == locked[key := ObserveRow(locked[key], key, d, token, o, now, cfg)]
                                           [dim := ObserveRow(locked[dim], dim, d, token, o, now, cfg)]
      {
        var r := ObserveGate(rows[scopes[i]], scopes[i], d, token, o, now, cfg);
        rows := rows[scopes[i] := r];
      }
    }

    /** The body of the loop over the two gates. */
    static method ObserveGate(row: Circuit, scope: Scope, d: Dimension, token: Token, o: Outcome, now: Time,
                              cfg: Settings)
      returns (r: Circuit)
      ensures r == ObserveRow(row, scope, d, token, o, now, cfg)
    {
      hide Track, Threshold, Sustained, Open, Close, RecordFailure;
      r := row;
      var owned := r.lease != 0 && r.lease == token && r.leaseUntil > now;
      if o.admission.Some? {
        var generations := o.admission.value.generations;
        if scope !in generations || generations[scope] != r.generation || (r.open && !owned) {
          return;
        }
      } else if !owned && o.startedAt < r.openedAt {
        return;
      }
      if r.open && !owned && r.lease != 0 {
        return;
      }
      var cut := Cut(now, cfg);
      if o.neutral {
        if owned {
          r := DropHolds(r);
        }
      } else if o.success {
        if scope.DimScope? {
          var times := TrackTimestamp(r.attemptTimes, now, cut, MAX_TRACKED_ATTEMPTS);
          r := r.(attemptTimes := times);
        }
        if !r.open || owned {
          if r.open {
            r := CloseCircuit(r, now);
          }
          r := r.(failures := 0, failureTimes := []);
          r := r.(backoffSec := 0, reason := "");
          r := DropHolds(r);
        }
      } else if scope.KeyScope? {
        if o.authFailure || owned {
          r := OpenCircuit(r.(target := d), now, o.reason, o.retryAfter, cfg);
        }
      } else if owned || !o.authFailure {
        r := RecordDimensionFailure(r, o, now, cfg);
        if owned || o.limited || o.immediate || r.failures >= Threshold(|r.attemptTimes|, cfg)
           || Sustained(|r.attemptTimes|, r.failures) {
          r := OpenCircuit(r, now, o.reason, o.retryAfter, cfg);
        }
      }
    }

    /** Invalidates older observations without inventing a sample. */
    static method CloseCircuit(row: Circuit, now: Time) returns (r: Circuit)
      ensures r == Close(row, now)
      ensures !r.open && r.generation == row.generation + 1 && forall t :: !Holding(r, t)
      ensures r.attemptTimes == r.failureTimes == []
    {
      r := row.(generation := row.generation + 1, open := false);
      r := r.(openedAt := now, until := 0);
      r := r.(failures := 0, backoffSec := 0, failureTimes := [], attemptTimes := []);
      r := r.(reason := "", lease := 0, checkLease := 0, leaseUntil := 0);
      r := r.(checkUntil := None, nextCheckAt := None, checkBackoff := 0);
    }

    /** Opens a gate, or opens it again for longer. */
    static method OpenCircuit(row: Circuit, now: Time, reason: string, retryAfter: int, cfg: Settings)
      returns (r: Circuit)
      ensures r == Open(row, now, reason, retryAfter, cfg)
    {
      var seconds := cfg.cooldownSec;
      if row.open && row.backoffSec > 0 {
        seconds := Min(Max(row.backoffSec, cfg.cooldownSec) * 2, cfg.maxCooldownSec);
        if seconds > cfg.maxCooldownSec / 2 {
          seconds := cfg.maxCooldownSec;
        }
      }
      if retryAfter > 0 {
        seconds := Max(1, (retryAfter + 999) / 1000);
      }
      r := row.(open := true, generation := row.generation + 1);
      r := r.(backoffSec := Min(seconds, cfg.maxCooldownSec), openedAt := now);
      r := r.(until := if seconds > 0 then now + seconds * 1000 else now, reason := reason);
      r := r.(lease := 0, leaseUntil := 0, checkOK := false);
      r := r.(checkLease := 0, checkUntil := None, nextCheckAt := None, checkBackoff := 0);
    }

    static method RecordDimensionFailure(row: Circuit, o: Outcome, now: Time, cfg: Settings) returns (r: Circuit)
      ensures r == RecordFailure(row, o, now, cfg)
    {
      hide Above;
      var cut := Cut(now, cfg);
      var attempts := TrackTimestamp(row.attemptTimes, now, cut, MAX_TRACKED_ATTEMPTS);
      var kept := TrackTimestamp(row.failureTimes, 0, cut, |row.failureTimes|);
      AboveIsShorter(row.failureTimes, cut);
      for i := 0 to Weight(o, cfg)
        invariant kept == Above(row.failureTimes, cut) + Copies(now, i)
      {
        kept := kept + [now];
      }
      kept := TrackTimestamp(kept, 0, cut, MAX_TRACKED_FAILURES);
      r := row.(attemptTimes := attempts);
      r := r.(failureTimes := kept);
      r := r.(failures := |kept|);
    }

    static lemma {:induction false} AboveIsShorter(times: seq<Time>, cut: int)
      ensures |Above(times, cut)| <= |times|
    {
      if times != [] {
        AboveIsShorter(times[1..], cut);
      }
    }

    static lemma {:induction false} AboveSnoc(times: seq<Time>, t: Time, cut: int)
      ensures Above(times + [t], cut) == Above(times, cut) + if t > cut then [t] else []
    {
      if times == [] {
        assert [] + [t] == [t] && [t][1..] == [];
      } else {
        assert (times + [t])[1..] == times[1..] + [t];
        AboveSnoc(times[1..], t, cut);
      }
    }

    static method TrackTimestamp(times: seq<Time>, at: Time, cut: int, cap: nat) returns (kept: seq<Time>)
      ensures kept == Track(times, at, cut, cap)
    {
      kept := [];
      for i := 0 to |times|
        invariant kept == Above(times[..i], cut)
      {
        assert times[..i + 1] == times[..i] + [times[i]];
        AboveSnoc(times[..i], times[i], cut);
        if times[i] > cut {
          kept := kept + [times[i]];
        }
      }
      assert times[..|times|] == times;
      if at != 0 {
        kept := kept + [at];
      }
      var overflow := |kept| - cap;
      if overflow > 0 {
        kept := kept[overflow..];
      }
    }

    /** Claims the check of a gate whose dimension the worker has resolved. */
    method ClaimCheck(s: Scope, d: Dimension, expected: Option<nat>, now: Time) returns (result: Result<Token, Fault>)
      requires Valid() && clock <= now && now > 0 && KeyOf(s) == d.keyId
      modifies this
      ensures Valid() && clock == now && observed == old(observed) && issued == old(issued) + 1
      ensures match Claim(old(rows), CheckLimit(checkConcurrency), s, d, expected, now, issued)
              case Err(e) => rows == old(rows) && result == Err(e)
              case Ok(after) => rows == after && result == Ok(issued)
    {
      hide Recorded, Claim;
      Begin(ClaimStep(s, d, expected, now));
      result := ClaimTx(s, d, expected, now);
    }

    method ClaimTx(s: Scope, d: Dimension, expected: Option<nat>, now: Time) returns (result: Result<Token, Fault>)
      modifies this`rows, this`issued
      ensures issued == old(issued) + 1
      ensures match Claim(old(rows), CheckLimit(checkConcurrency), s, d, expected, now, issued)
              case Err(e) => rows == old(rows) && result == Err(e)
              case Ok(after) => rows == after && result == Ok(issued)
    {
      hide LiveChecks, ClaimConflicts;
      var token := NewToken();
      if |LiveChecks(rows, now)| >= CheckLimit(checkConcurrency) {
        return Err(CheckCapacity);
      }
      var key := KeyScope(d.keyId);
      var tx := Lock(rows, d, key);
      var gate := tx[key];
      if s != key && gate.open && (gate.until > now || (!gate.checkOK && After(gate.nextCheckAt, now))) {
        return Err(Unavailable);
      }
      if ClaimConflicts(tx, d, s, now) {
        return Err(Unavailable);
      }
      if s !in tx {
        return Err(NotFound);
      }
      var r := tx[s];
      if expected.Some? && r.generation != expected.value {
        return Err(Unavailable);
      }
      if !r.open || r.until > now || r.leaseUntil > now || After(r.checkUntil, now)
         || (!r.checkOK && After(r.nextCheckAt, now)) {
        return Err(Unavailable);
      }
      r := r.(checkLease := token, checkUntil := Some(now + CHECK_LEASE_MS), checkOK := false);
      r := r.(target := d);
      rows := tx[s := r];
      result := Ok(token);
    }

    /** Settles a claimed check, if the claim is still the current one. */
    method FinishCheck(s: Scope, token: Token, success: bool, neutral: bool, message: string, retryAfter: int,
                       now: Time)
      returns (result: Result<(), Fault>)
      requires Valid() && clock <= now && now > 0
      modifies this
      ensures Valid() && clock == now && observed == old(observed) && issued == old(issued)
      ensures match Finish(old(rows), s, token, success, neutral, message, retryAfter, now)
              case Err(e) => rows == old(rows) && result == Err(e)
              case Ok(after) => rows == after && result == Ok(())
    {
      hide Recorded, Finish;
      Begin(FinishStep(s, token, success, neutral, message, retryAfter, now));
      result := FinishTx(s, token, success, neutral, message, retryAfter, now);
    }

    method FinishTx(s: Scope, token: Token, success: bool, neutral: bool, message: string, retryAfter: int, now: Time)
      returns (result: Result<(), Fault>)
      modifies this`rows
      ensures match Finish(old(rows), s, token, success, neutral, message, retryAfter, now)
              case Err(e) => rows == old(rows) && result == Err(e)
              case Ok(after) => rows == after && result == Ok(())
    {
      if s !in rows {
        return Err(NotFound);
      }
      var r := rows[s];
      result := Ok(());
      if !r.open || r.checkLease != token || token == 0 {
        return;
      }
      if !After(r.checkUntil, now) {
        return;
      }
      r := r.(checkLease := 0, checkUntil := None);
      var ok := success && !neutral;
      r := r.(checkAt := Some(now), checkOK := ok, checkError := message);
      var delay := 60000;
      if ok {
        r := CloseCircuit(r, now);
        rows := rows[s := r];
        return;
      } else if !neutral {
        if r.checkBackoff == 0 {
          r := r.(checkBackoff := 1);
        } else if r.checkBackoff < CHECK_BACKOFF_BASE_SEC {
          r := r.(checkBackoff := CHECK_BACKOFF_BASE_SEC);
        } else {
          r := r.(checkBackoff := Min(r.checkBackoff * 2, CHECK_BACKOFF_MAX_SEC));
        }
        delay := r.checkBackoff * 1000;
      }
      delay := Max(delay, retryAfter);
      r := r.(nextCheckAt := Some(if delay > 0 then now + delay else now));
      rows := rows[s := r];
    }

    static function Members(ids: seq<nat>): set<nat> { set id | id in ids }

    /** Clears the quota gates of every key of a provider that predate its balance check. */
    method ReleaseBalanceCooldowns(ids: seq<nat>, checkedAfter: Time, now: Time)
      requires Valid() && clock <= now && now > 0
      modifies this
      ensures Valid() && clock == now && observed == old(observed) && issued == old(issued)
      ensures rows == BalanceRelease(old(rows), Members(ids), checkedAfter, now)
    {
      hide Recorded, BalanceRelease;
      Begin(BalanceStep(Members(ids), checkedAfter, now));
      BalanceTx(ids, checkedAfter, now);
    }

    method BalanceTx(ids: seq<nat>, checkedAfter: Time, now: Time)
      modifies this`rows
      ensures rows == BalanceRelease(old(rows), Members(ids), checkedAfter, now)
    {
      hide BalanceRelease;
      EmptyRelease(rows, checkedAfter, now);
      assert Members(ids[..0]) == {};
      for i := 0 to |ids|
        invariant rows == BalanceRelease(old(rows), Members(ids[..i]), checkedAfter, now)
      {
        ReleaseKeyGates(ids[i], checkedAfter, now);
        BalanceReleaseTwice(old(rows), Members(ids[..i]), ids[i], checkedAfter, now);
        assert Members(ids[..i + 1]) == Members(ids[..i]) + {ids[i]};
      }
      assert ids[..|ids|] == ids;
    }

    method ReleaseKeyGates(id: nat, checkedAfter: Time, now: Time)
      modifies this`rows
      ensures rows == BalanceRelease(old(rows), {id}, checkedAfter, now)
    {
      var gates := set s | s in rows && QuotaGate(rows[s], {id}, checkedAfter);
      ghost var todo := gates;
      hide BalanceReleaseRow;
      while gates != {}
        invariant gates <= todo && rows.Keys == old(rows).Keys
        invariant forall s :: s in rows ==>
                    rows[s] == if s in todo && s !in gates then BalanceReleaseRow(old(rows)[s], now) else old(rows)[s]
      {
        var s :| s in gates;
        rows := rows[s := BalanceReleaseRow(rows[s], now)];
        gates := gates - {s};
      }
    }

    static lemma EmptyRelease(rows: Rows, checkedAfter: Time, now: Time)
      ensures BalanceRelease(rows, {}, checkedAfter, now) == rows
    {
    }

    static lemma BalanceReleaseTwice(rows: Rows, ids: set<nat>, id: nat, checkedAfter: Time, now: Time)
      ensures BalanceRelease(BalanceRelease(rows, ids, checkedAfter, now), {id}, checkedAfter, now)
           == BalanceRelease(rows, ids + {id}, checkedAfter, now)
    {
    }
  }
}
