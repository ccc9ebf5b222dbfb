/** The sliding windows of a dimension row against the full history of its outcomes. */
module CircuitWindows {
  import opened Circuits
  import opened CircuitRuns

  // ------------------------------------------------------- windows of sequences

  ghost predicate Sorted(times: seq<Time>) {
    forall i, j :: 0 <= i <= j < |times| ==> times[i] <= times[j]
  }

  /** The last `cap` entries of a history, limited to the window that ends at its last entry. */
  function Recent(history: seq<Time>, window: nat, cap: nat): seq<Time> {
    if history == [] then [] else LastN(Above(history, history[|history| - 1] - window), cap)
  }

  /** Where the entries above the cut begin. */
  ghost predicate Splits(times: seq<Time>, cut: int, m: nat) {
    m <= |times| && forall i :: 0 <= i < |times| ==> (i >= m <==> times[i] > cut)
  }

  lemma {:induction false} SplitPoint(times: seq<Time>, cut: int, from: nat) returns (m: nat)
    requires Sorted(times) && from <= |times|
    requires forall i :: 0 <= i < from ==> times[i] <= cut
    ensures Splits(times, cut, m)
    decreases |times| - from
  {
    if from == |times| || times[from] > cut {
      m := from;
    } else {
      m := SplitPoint(times, cut, from + 1);
    }
  }

  /** In a sorted history the entries above a cut are a suffix. */
  lemma {:induction false} AboveIsSuffix(times: seq<Time>, cut: int, start: nat, m: nat)
    requires start <= |times| && Splits(times, cut, m)
    ensures Above(times[start..], cut) == if m >= start then times[m..] else times[start..]
    decreases |times| - start
  {
    if start < |times| {
      assert times[start..][1..] == times[start + 1..];
      AboveIsSuffix(times, cut, start + 1, m);
    }
  }

  lemma {:induction false} AboveConcat(a: seq<Time>, b: seq<Time>, cut: int)
    ensures Above(a + b, cut) == Above(a, cut) + Above(b, cut)
  {
    if a == [] {
      assert a + b == b;
    } else {
      assert (a + b)[1..] == a[1..] + b;
      AboveConcat(a[1..], b, cut);
    }
  }

  lemma {:induction false} AboveAll(times: seq<Time>, cut: int)
    requires forall i :: 0 <= i < |times| ==> times[i] > cut
    ensures Above(times, cut) == times
  {
    if times != [] {
      AboveAll(times[1..], cut);
    }
  }

  lemma SameTail(times: seq<Time>, m: nat, q: nat, extra: seq<Time>, cap: nat)
    requires m <= q <= |times| && (q == m || |times| - q >= cap)
    ensures LastN(times[q..] + extra, cap) == LastN(times[m..] + extra, cap)
  {
    if q > m {
      assert times[m..] == times[m..q] + times[q..];
      TailOfLonger(times[m..q], times[q..] + extra, cap);
      assert times[m..] + extra == times[m..q] + (times[q..] + extra);
    }
  }

  /** What is put in front of a long enough list does not show in its last entries. */
  lemma TailOfLonger(front: seq<Time>, back: seq<Time>, cap: nat)
    requires |back| >= cap
    ensures LastN(front + back, cap) == LastN(back, cap)
  {
  }

  /** Trimming a window at a later cut loses nothing that the full history would keep. */
  lemma TrimAgain(times: seq<Time>, early: int, cut: int, extra: seq<Time>, cap: nat)
    requires Sorted(times) && early <= cut
    ensures LastN(Above(LastN(Above(times, early), cap), cut) + extra, cap) == LastN(Above(times, cut) + extra, cap)
  {
    var k := SplitPoint(times, early, 0);
    var m := SplitPoint(times, cut, 0);
    assert m == |times| || times[m] > cut;
    TrimSuffix(times, early, cut, k, m, extra, cap);
  }

  lemma TrimSuffix(times: seq<Time>, early: int, cut: int, k: nat, m: nat, extra: seq<Time>, cap: nat)
    requires Splits(times, early, k) && Splits(times, cut, m) && k <= m
    ensures LastN(Above(LastN(Above(times, early), cap), cut) + extra, cap) == LastN(Above(times, cut) + extra, cap)
  {
    assert times[0..] == times;
    AboveIsSuffix(times, early, 0, k);
    AboveIsSuffix(times, cut, 0, m);
    hide Above;
    hide Splits;
    var start := if |times| - k > cap then |times| - cap else k;
    assert LastN(times[k..], cap) == times[start..];
    AboveIsSuffix(times, cut, start, m);
    SameTail(times, m, if m >= start then m else start, extra, cap);
  }

  lemma AboveAppend(history: seq<Time>, added: seq<Time>, cut: int)
    requires forall i :: 0 <= i < |added| ==> added[i] > cut
    ensures Above(history + added, cut) == Above(history, cut) + added
  {
    AboveConcat(history, added, cut);
    AboveAll(added, cut);
  }

  lemma RecentAt(history: seq<Time>, at: Time, window: nat, cap: nat)
    requires history != [] && history[|history| - 1] == at
    ensures Recent(history, window, cap) == LastN(Above(history, at - window), cap)
  {
    hide Above, LastN;
  }

  /** Recording new entries at `at` in the window gives the window of the longer history. */
  lemma RecentExtends(history: seq<Time>, added: seq<Time>, at: Time, window: nat, cap: nat)
    requires Sorted(history) && window > 0
    requires history != [] ==> history[|history| - 1] <= at
    requires added != [] && forall i :: 0 <= i < |added| ==> added[i] == at
    ensures Recent(history + added, window, cap)
            == LastN(Above(Recent(history, window, cap), at - window) + added, cap)
  {
    hide Above, LastN, Sorted;
    RecentAt(history + added, at, window, cap);
    AboveAppend(history, added, at - window);
    if history != [] {
      var last := history[|history| - 1];
      RecentAt(history, last, window, cap);
      TrimAgain(history, last - window, at - window, added, cap);
    }
  }

  // ----------------------------------------------------- the history of a gate

  datatype Entry =
    | Attempt(at: Time)               // a non-neutral outcome was recorded
    | Failure(at: Time, weight: nat)  // that outcome was a failure, counted `weight` times
    | Clear                           // a recorded success or a balance release forgave the failures
    | Shut                            // the gate closed and forgot everything

  function AddAttempt(times: seq<Time>, e: Entry): seq<Time> {
    match e
    case Attempt(at) => times + [at]
    case Shut => []
    case _ => times
  }

  function AddFailure(times: seq<Time>, e: Entry): seq<Time> {
    match e
    case Failure(at, weight) => times + Copies(at, weight)
    case Shut => []
    case Clear => []
    case _ => times
  }

  /** The recorded outcomes since the gate last closed. */
  function Attempts(log: seq<Entry>): seq<Time> {
    if log == [] then [] else AddAttempt(Attempts(log[..|log| - 1]), log[|log| - 1])
  }

  /** The weighted failures since the last success, closing or balance release. */
  function Failures(log: seq<Entry>): seq<Time> {
    if log == [] then [] else AddFailure(Failures(log[..|log| - 1]), log[|log| - 1])
  }

  /** What one outcome adds to the history of its dimension, decided by the gate alone. */
  function OutcomeEntries(r: Circuit, s: Scope, token: Token, o: Outcome, now: Time, cfg: Settings): seq<Entry> {
    if !Applies(r, s, token, o, now) || o.neutral then []
    else if o.success then
      [Attempt(now)] + (if !r.open then [Clear] else if Owned(r, token, now) then [Shut] else [])
    else if Owned(r, token, now) || !o.authFailure then [Attempt(now), Failure(now, Weight(o, cfg))]
    else []
  }

  /** What one step of a run adds to the history of a dimension. */
  function StepEntries(c: Config, w: World, step: Step, s: Scope): seq<Entry> {
    var after := Next(c, w, step).rows;
    match step
    case ObserveStep(d, token, o, now) =>
      if s == DimScope(d) && !AlreadySeen(w.observed, d, o)
      then OutcomeEntries(RowBefore(w, step, s), s, token, o, now, c.settings)
      else []
    case BalanceStep(_, _, _) => if s in w.rows && w.rows[s].open && s in after && !after[s].open then [Clear] else []
    case _ => if s in w.rows && w.rows[s].open && s in after && !after[s].open then [Shut] else []
  }

  ghost function History(c: Config, states: seq<World>, steps: seq<Step>, s: Scope, k: nat): seq<Entry>
    requires k <= |steps| < |states|
  {
    if k == 0 then []
    else History(c, states, steps, s, k - 1) + StepEntries(c, states[k - 1], steps[k - 1], s)
  }

  function WindowMs(cfg: Settings): nat { if cfg.windowSec > 0 then cfg.windowSec * 1000 else 0 }

  /** The stored windows are exactly the recent part of the full history. */
  ghost predicate Refines(r: Circuit, log: seq<Entry>, cfg: Settings) {
    && r.attemptTimes == Recent(Attempts(log), WindowMs(cfg), MAX_TRACKED_ATTEMPTS)
    && r.failureTimes == Recent(Failures(log), WindowMs(cfg), MAX_TRACKED_FAILURES)
    && r.failures == |r.failureTimes|
  }

  ghost predicate UpTo(times: seq<Time>, now: Time) {
    Sorted(times) && (times != [] ==> times[|times| - 1] <= now)
  }

  ghost predicate LogUpTo(log: seq<Entry>, now: Time) {
    UpTo(Attempts(log), now) && UpTo(Failures(log), now)
  }

  lemma {:induction false} AboveIsAbove(times: seq<Time>, cut: int)
    ensures forall i :: 0 <= i < |Above(times, cut)| ==> Above(times, cut)[i] > cut
  {
    if times != [] {
      AboveIsAbove(times[1..], cut);
    }
  }

  lemma AboveTwice(times: seq<Time>, added: seq<Time>, cut: int)
    requires forall i :: 0 <= i < |added| ==> added[i] > cut
    ensures Above(Above(times, cut) + added, cut) == Above(times, cut) + added
  {
    AboveIsAbove(times, cut);
    AboveAll(Above(times, cut) + added, cut);
  }

  lemma AppendUpTo(times: seq<Time>, added: seq<Time>, now: Time)
    requires UpTo(times, now) && forall i :: 0 <= i < |added| ==> added[i] == now
    ensures UpTo(times + added, now)
  {
  }

  lemma LogAdds(log: seq<Entry>, e: Entry)
    ensures Attempts(log + [e]) == AddAttempt(Attempts(log), e)
    ensures Failures(log + [e]) == AddFailure(Failures(log), e)
  {
    assert (log + [e])[..|log|] == log;
  }

  lemma TracksAttempt(times: seq<Time>, log: seq<Entry>, now: Time, cfg: Settings)
    requires Normalized(cfg) && now > 0 && UpTo(Attempts(log), now)
    requires times == Recent(Attempts(log), WindowMs(cfg), MAX_TRACKED_ATTEMPTS)
    ensures Track(times, now, Cut(now, cfg), MAX_TRACKED_ATTEMPTS)
         == Recent(Attempts(log + [Attempt(now)]), WindowMs(cfg), MAX_TRACKED_ATTEMPTS)
    ensures UpTo(Attempts(log + [Attempt(now)]), now)
  {
    hide Recent, Above, LastN;
    LogAdds(log, Attempt(now));
    RecentExtends(Attempts(log), [now], now, WindowMs(cfg), MAX_TRACKED_ATTEMPTS);
    AppendUpTo(Attempts(log), [now], now);
  }

  lemma TracksFailure(times: seq<Time>, log: seq<Entry>, weight: nat, now: Time, cfg: Settings)
    requires Normalized(cfg) && now > 0 && weight > 0 && UpTo(Failures(log), now)
    requires times == Recent(Failures(log), WindowMs(cfg), MAX_TRACKED_FAILURES)
    ensures Track(Above(times, Cut(now, cfg)) + Copies(now, weight), 0, Cut(now, cfg), MAX_TRACKED_FAILURES)
         == Recent(Failures(log + [Failure(now, weight)]), WindowMs(cfg), MAX_TRACKED_FAILURES)
    ensures UpTo(Failures(log + [Failure(now, weight)]), now)
  {
    hide Recent, Above, LastN;
    var added, cut := Copies(now, weight), Cut(now, cfg);
    LogAdds(log, Failure(now, weight));
    RecentExtends(Failures(log), added, now, WindowMs(cfg), MAX_TRACKED_FAILURES);
    AboveTwice(times, added, cut);
    assert Above(times, cut) + added + [] == Above(times, cut) + added;
    AppendUpTo(Failures(log), added, now);
  }

  lemma ShutRefines(r: Circuit, log: seq<Entry>, cfg: Settings, now: Time)
    requires r.attemptTimes == [] && r.failureTimes == [] && r.failures == 0
    ensures Refines(r, log + [Shut], cfg) && LogUpTo(log + [Shut], now)
  {
    LogAdds(log, Shut);
  }

  lemma ClearRefines(r: Circuit, after: Circuit, log: seq<Entry>, cfg: Settings, now: Time)
    requires Refines(r, log, cfg) && LogUpTo(log, now)
    requires after.attemptTimes == r.attemptTimes && after.failureTimes == [] && after.failures == 0
    ensures Refines(after, log + [Clear], cfg) && LogUpTo(log + [Clear], now)
  {
    LogAdds(log, Clear);
  }

  lemma AttemptRefines(r: Circuit, after: Circuit, log: seq<Entry>, now: Time, cfg: Settings)
    requires Normalized(cfg) && now > 0 && Refines(r, log, cfg) && LogUpTo(log, now)
    requires after == r.(attemptTimes := Track(r.attemptTimes, now, Cut(now, cfg), MAX_TRACKED_ATTEMPTS))
    ensures Refines(after, log + [Attempt(now)], cfg) && LogUpTo(log + [Attempt(now)], now)
  {
    hide Recent, Track;
    TracksAttempt(r.attemptTimes, log, now, cfg);
    LogAdds(log, Attempt(now));
  }

  lemma FailureRefines(r: Circuit, o: Outcome, log: seq<Entry>, now: Time, cfg: Settings)
    requires Normalized(cfg) && now > 0 && Refines(r, log, cfg) && LogUpTo(log, now)
    ensures var more := log + [Attempt(now), Failure(now, Weight(o, cfg))];
            Refines(RecordFailure(r, o, now, cfg), more, cfg) && LogUpTo(more, now)
  {
    hide Recent, Track, Above;
    var weight := Weight(o, cfg);
    TracksAttempt(r.attemptTimes, log, now, cfg);
    LogAdds(log, Attempt(now));
    var mid := log + [Attempt(now)];
    TracksFailure(r.failureTimes, mid, weight, now, cfg);
    LogAdds(mid, Failure(now, weight));
    assert log + [Attempt(now), Failure(now, weight)] == mid + [Failure(now, weight)];
  }

  /** One outcome keeps the stored windows in step with the history it extends. */
  lemma ObserveRefines(r: Circuit, d: Dimension, token: Token, o: Outcome, log: seq<Entry>, now: Time, cfg: Settings)
    requires Normalized(cfg) && now > 0 && Refines(r, log, cfg) && LogUpTo(log, now)
    ensures var s := DimScope(d);
            var more := log + OutcomeEntries(r, s, token, o, now, cfg);
            Refines(ObserveRow(r, s, d, token, o, now, cfg), more, cfg) && LogUpTo(more, now)
  {
    hide Refines, LogUpTo, Track, RecordFailure, Threshold, Sustained, CooldownSeconds;
    var s := DimScope(d);
    var entries := OutcomeEntries(r, s, token, o, now, cfg);
    var after := ObserveRow(r, s, d, token, o, now, cfg);
    if entries == [] {
      assert log + entries == log;
      SameWindows(r, after, log, cfg);
    } else if o.success {
      var tracked := r.(attemptTimes := Track(r.attemptTimes, now, Cut(now, cfg), MAX_TRACKED_ATTEMPTS));
      AttemptRefines(r, tracked, log, now, cfg);
      var mid := log + [Attempt(now)];
      if !r.open {
        assert log + entries == mid + [Clear];
        ClearRefines(tracked, after, mid, cfg, now);
      } else if Owned(r, token, now) {
        assert log + entries == mid + [Shut];
        ShutRefines(after, mid, cfg, now);
      } else {
        assert log + entries == mid;
      }
    } else {
      FailureRefines(r, o, log, now, cfg);
      SameWindows(RecordFailure(r, o, now, cfg), after, log + entries, cfg);
    }
  }

  lemma SameWindows(r: Circuit, after: Circuit, log: seq<Entry>, cfg: Settings)
    requires Refines(r, log, cfg)
    requires after.attemptTimes == r.attemptTimes && after.failureTimes == r.failureTimes
             && after.failures == r.failures
    ensures Refines(after, log, cfg)
  {
  }

  ghost predicate RowRefines(rows: Rows, s: Scope, log: seq<Entry>, cfg: Settings) {
    if s in rows then Refines(rows[s], log, cfg) else log == []
  }

  lemma ObserveInserts(c: Config, w: World, step: Step)
    ensures step.ObserveStep? ==> DimScope(step.d) in Next(c, w, step).rows
  {
    hide ObserveRow;
  }

  lemma StepRefines(c: Config, w: World, step: Step, s: Scope, log: seq<Entry>)
    requires ValidConfig(c) && ValidStep(step) && s.DimScope?
    requires RowRefines(w.rows, s, log, c.settings) && LogUpTo(log, step.now)
    ensures var more := log + StepEntries(c, w, step, s);
            RowRefines(Next(c, w, step).rows, s, more, c.settings) && LogUpTo(more, step.now)
  {
    ObserveInserts(c, w, step);
    hide Next, LogUpTo, Refines, StepEntries, AlreadySeen;
    var after := Next(c, w, step).rows;
    var entries := StepEntries(c, w, step, s);
    if s in after {
      StepChangesRow(c, w, step, s);
      var before := RowBefore(w, step, s);
      assert Refines(before, log, c.settings) by { BeforeRefines(w, step, s, log, c.settings); }
      if step.ObserveStep? && s == DimScope(step.d) && !AlreadySeen(w.observed, step.d, step.outcome) {
        ObserveStepRefines(c, w, step, s, log);
      } else {
        OtherStepsKeepWindows(c, w, step, s);
        hide RowChange;
        if entries == [] {
          assert log + entries == log;
          SameWindows(before, after[s], log, c.settings);
        } else if entries == [Shut] {
          ShutRefines(after[s], log, c.settings, step.now);
        } else {
          ClearRefines(before, after[s], log, c.settings, step.now);
        }
      }
    } else {
      StepKeepsRows(c, w, step);
      EntriesNeedRow(c, w, step, s);
      assert log + entries == [];
    }
  }

  lemma EntriesNeedRow(c: Config, w: World, step: Step, s: Scope)
    requires s.DimScope? && s !in Next(c, w, step).rows
    ensures StepEntries(c, w, step, s) == []
  {
    ObserveInserts(c, w, step);
    hide Next;
  }

  lemma BeforeRefines(w: World, step: Step, s: Scope, log: seq<Entry>, cfg: Settings)
    requires RowRefines(w.rows, s, log, cfg) && (s in w.rows || Locks(step))
    ensures Refines(RowBefore(w, step, s), log, cfg)
  {
  }

  /** Steps other than a counted outcome leave both windows alone, empty them, or clear the
      failures, as their entries in the history say. */
  lemma OtherStepsKeepWindows(c: Config, w: World, step: Step, s: Scope)
    requires s.DimScope? && s in Next(c, w, step).rows && ChangesRow(c, w, step, s)
    requires !(step.ObserveStep? && s == DimScope(step.d) && !AlreadySeen(w.observed, step.d, step.outcome))
    ensures var before, after, entries := RowBefore(w, step, s), Next(c, w, step).rows[s], StepEntries(c, w, step, s);
            || (entries == [] && after.attemptTimes == before.attemptTimes && after.failureTimes == before.failureTimes
                && after.failures == before.failures)
            || (entries == [Shut] && after.attemptTimes == [] && after.failureTimes == [] && after.failures == 0)
            || (entries == [Clear] && after.attemptTimes == before.attemptTimes && after.failureTimes == []
                && after.failures == 0)
  {
    hide Next, ObserveRow, AlreadySeen, OutcomeEntries, NextBackoff;
  }

  lemma ObserveStepRefines(c: Config, w: World, step: Step, s: Scope, log: seq<Entry>)
    requires ValidConfig(c) && ValidStep(step) && step.ObserveStep? && s == DimScope(step.d)
    requires !AlreadySeen(w.observed, step.d, step.outcome)
    requires Refines(RowBefore(w, step, s), log, c.settings) && LogUpTo(log, step.now)
    ensures var more := log + StepEntries(c, w, step, s);
            s in Next(c, w, step).rows
            && Refines(Next(c, w, step).rows[s], more, c.settings) && LogUpTo(more, step.now)
  {
    hide Refines, LogUpTo, ObserveRow, OutcomeEntries;
    assert ObserveLocked(w.rows, step.d)[s] == RowBefore(w, step, s);
    ObserveRefines(RowBefore(w, step, s), step.d, step.token, step.outcome, log, step.now, c.settings);
  }

  lemma LaterUpTo(log: seq<Entry>, now: Time, later: Time)
    requires LogUpTo(log, now) && now <= later
    ensures LogUpTo(log, later)
  {
  }

  /** In every reachable state the windows of a dimension refine its full outcome history. */
  lemma {:induction false} WindowsRefineHistory(c: Config, states: seq<World>, steps: seq<Step>, k: nat, s: Scope)
    requires Run(c, states, steps) && k <= |steps| && s.DimScope?
    ensures RowRefines(states[k].rows, s, History(c, states, steps, s, k), c.settings)
    ensures LogUpTo(History(c, states, steps, s, k), if k == 0 then 0 else steps[k - 1].now)
  {
    hide Next, StepEntries;
    if k > 0 {
      hide RowRefines;
      WindowsRefineHistory(c, states, steps, k - 1, s);
      var log := History(c, states, steps, s, k - 1);
      LaterUpTo(log, if k == 1 then 0 else steps[k - 2].now, steps[k - 1].now);
      hide LogUpTo;
      StepRefines(c, states[k - 1], steps[k - 1], s, log);
    }
  }

  /** A request contributes to a dimension at most once: its second outcome changes nothing. */
  lemma OncePerRequest(c: Config, states: seq<World>, steps: seq<Step>, i: nat, j: nat)
    requires Run(c, states, steps) && i < j < |steps|
    requires steps[i].ObserveStep? && steps[j].ObserveStep? && steps[i].d == steps[j].d
    requires steps[i].outcome.requestId == steps[j].outcome.requestId != ""
    ensures states[j + 1] == states[j] && StepEntries(c, states[j], steps[j], DimScope(steps[j].d)) == []
  {
    var d := steps[j].d;
    var seen := (DimScope(d), steps[j].outcome.requestId);
    assert seen in states[i + 1].observed && {KeyScope(d.keyId), DimScope(d)} <= states[i + 1].rows.Keys;
    StaysKnown(c, states, steps, i + 1, j, seen, {KeyScope(d.keyId), DimScope(d)});
    assert AlreadySeen(states[j].observed, d, steps[j].outcome);
    assert ObserveLocked(states[j].rows, d) == states[j].rows;
  }

  lemma {:induction false} StaysKnown(c: Config, states: seq<World>, steps: seq<Step>, i: nat, k: nat,
                                      seen: (Scope, string), known: set<Scope>)
    requires Run(c, states, steps) && i <= k <= |steps|
    requires seen in states[i].observed && known <= states[i].rows.Keys
    ensures seen in states[k].observed && known <= states[k].rows.Keys
  {
    if i < k {
      StaysKnown(c, states, steps, i, k - 1, seen, known);
      StepKeepsRows(c, states[k - 1], steps[k - 1]);
      assert states[k - 1].observed <= states[k].observed;
    }
  }

  // ------------------------------------------------------------ when a gate opens

  /** A plain failure opens a closed gate exactly when the failures of the recent history reach
      the threshold for its traffic, or make up the sustained share of it. */
  lemma OpensExactlyWhen(r: Circuit, d: Dimension, token: Token, o: Outcome, log: seq<Entry>, now: Time, cfg: Settings)
    requires Normalized(cfg) && now > 0 && Refines(r, log, cfg) && LogUpTo(log, now)
    requires !r.open && Applies(r, DimScope(d), token, o, now) && !Owned(r, token, now)
    requires !o.neutral && !o.success && !o.authFailure && !o.limited && !o.immediate
    ensures var more := log + [Attempt(now), Failure(now, Weight(o, cfg))];
            var attempts := |Recent(Attempts(more), WindowMs(cfg), MAX_TRACKED_ATTEMPTS)|;
            var failures := |Recent(Failures(more), WindowMs(cfg), MAX_TRACKED_FAILURES)|;
            ObserveRow(r, DimScope(d), d, token, o, now, cfg).open
            <==> failures >= Threshold(attempts, cfg) || Sustained(attempts, failures)
  {
    hide Recent, Track, Threshold, Sustained, CooldownSeconds, LogUpTo;
    FailureRefines(r, o, log, now, cfg);
  }

  /** The documented threshold: the base, raised with traffic up to eight. */
  function DocumentedThreshold(attempts: nat, cfg: Settings): int {
    Max(cfg.failureThreshold, Min(MAX_FAILURE_THRESHOLD, Ceil(attempts as real * cfg.rateFactor)))
  }

  /** The code keeps the documented threshold exactly when it does not cap a base above eight. */
  lemma ThresholdMatchesDocument(attempts: nat, cfg: Settings)
    requires Normalized(cfg)
    ensures Threshold(attempts, cfg) == DocumentedThreshold(attempts, cfg)
       <==> cfg.failureThreshold <= MAX_FAILURE_THRESHOLD || attempts == 0 || cfg.rateFactor == 0.0
    ensures Threshold(attempts, cfg) >= 1
  {
    var scaled := attempts as real * cfg.rateFactor;
    assert attempts == 0 || cfg.rateFactor == 0.0 ==> scaled == 0.0;
    assert (-scaled).Floor as real <= -scaled < (-scaled).Floor as real + 1.0;
  }

  lemma ThresholdCapsLargeBase()
    ensures var cfg := Settings(60, 20, 30, 300, 0.15, 2);
            Normalized(cfg) && Threshold(1, cfg) == 8 && DocumentedThreshold(1, cfg) == 20
  {
  }
}
