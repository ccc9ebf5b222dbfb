/** The attempt loop of the proxy: it picks a key, is admitted, tries the key a few times and
    fails over, and some rounds give their attempt back. */
module ProxyLoop {
  import opened Wrappers

  const OVERALL_MS: nat := 300 * 1000
  const LAST_RESORT_MARGIN_MS: nat := 15 * 1000
  const RESELECT_MS: nat := 10

  datatype Action = FirstTokenTimeout | TransportFailure | UpstreamTimeout | ProbeDisabled | Other(name: string)

  predicate Transient(a: Action) { a.FirstTokenTimeout? || a.TransportFailure? || a.UpstreamTimeout? }

  datatype Scope = NoScope | KeyScope | KeyModelScope | ProviderScope

  datatype Outcome = Outcome(ok: bool, sent: bool, failOver: bool, retrySame: bool, scope: Scope, action: Action)

  datatype Exclusions = Exclusions(keys: seq<nat>, providers: seq<nat>, keyModels: seq<nat>)

  const NO_EXCLUSIONS := Exclusions([], [], [])

  datatype Pick = Picked(key: nat, provider: nat, recovery: bool) | NoUpstream | PickFailed(cancelled: bool)

  datatype Admission = Admitted | Unavailable | Broken

  /** What the loop meets from outside, in each of its rounds. */
  datatype Env = Env(
    pick: (nat, Exclusions, Option<set<nat>>) -> Pick,
    admit: nat -> Admission,
    clock: nat -> nat,
    waitOver: nat -> bool,
    goneWhileReselecting: nat -> bool,
    forward: (nat, nat) -> Outcome,
    goneWhileRetrying: (nat, nat) -> bool)

  predicate Barred(x: Exclusions, key: nat, provider: nat) {
    key in x.keys || provider in x.providers || key in x.keyModels
  }

  /** A pick honours the allow set and the exclusions. */
  ghost predicate PicksHonestly(env: Env) {
    forall t: nat, x, allow ::
      var p := env.pick(t, x, allow);
      p.Picked? ==> !Barred(x, p.key, p.provider) && (allow.Some? ==> p.key in allow.value)
  }

  /** The clock runs, and advances by the pause after a refused admission. */
  ghost predicate TimePasses(env: Env) {
    && (forall t: nat :: env.clock(t) <= env.clock(t + 1))
    && (forall t: nat :: env.admit(t) == Unavailable ==> env.clock(t) + RESELECT_MS <= env.clock(t + 1))
  }

  /** A local skip happens to diagnostic requests only, before anything is sent. */
  ghost predicate SkipsLocally(env: Env, probe: bool) {
    forall t: nat, r: nat ::
      var o := env.forward(t, r);
      o.action == ProbeDisabled ==> probe && !o.ok && !o.sent && o.failOver && !o.retrySame && o.scope == KeyScope
  }

  datatype End =
    | Served | Interrupted | Cancelled | NoRoute | RecoveryPending | RoutingBroken | PickerError
    | AllProbesDisabled | Refused | GaveUp

  /** One round that tried a key. */
  datatype Try = Try(key: nat, provider: nat, scope: Scope, skipped: bool, ok: bool, resorted: bool)

  /** What an earlier try forbids a later one, as long as its exclusion stands. */
  predicate Bars(a: Try, b: Try) {
    match a.scope
    case NoScope => false
    case KeyScope => a.key == b.key
    case KeyModelScope => a.key == b.key
    case ProviderScope => a.provider == b.provider
  }

  function Exclude(x: Exclusions, a: Try): Exclusions {
    match a.scope
    case NoScope => x
    case KeyScope => x.(keys := x.keys + [a.key])
    case KeyModelScope => x.(keyModels := x.keyModels + [a.key])
    case ProviderScope => x.(providers := x.providers + [a.provider])
  }

  /** How many rounds used up an attempt. */
  function Spent(tries: seq<Try>): nat {
    if tries == [] then 0 else Spent(tries[..|tries| - 1]) + if tries[|tries| - 1].skipped then 0 else 1
  }

  /** Every exclusion made since the last clean start still stands. */
  predicate Covered(tries: seq<Try>, x: Exclusions, resorted: bool) {
    forall i :: 0 <= i < |tries| && tries[i].resorted == resorted ==>
      match tries[i].scope
      case NoScope => true
      case KeyScope => tries[i].key in x.keys
      case KeyModelScope => tries[i].key in x.keyModels
      case ProviderScope => tries[i].provider in x.providers
  }

  /** No try repeats what an earlier one ruled out, except after the one last resort. */
  predicate NoRepeats(tries: seq<Try>) {
    forall i, j :: 0 <= i < j < |tries| && Bars(tries[i], tries[j]) ==> !tries[i].resorted && tries[j].resorted
  }

  lemma TryOnce(tries: seq<Try>, x: Exclusions, a: Try)
    requires NoRepeats(tries) && Covered(tries, x, a.resorted) && !Barred(x, a.key, a.provider)
    requires forall i :: 0 <= i < |tries| ==> (tries[i].resorted ==> a.resorted)
    ensures NoRepeats(tries + [a]) && Covered(tries + [a], Exclude(x, a), a.resorted)
    ensures Spent(tries + [a]) == Spent(tries) + if a.skipped then 0 else 1
  {
    assert (tries + [a])[..|tries|] == tries;
    TryIsNew(tries, x, a);
    TryIsCovered(tries, x, a);
    hide NoRepeats, Covered, Exclude, Barred;
  }

  lemma TryIsNew(tries: seq<Try>, x: Exclusions, a: Try)
    requires NoRepeats(tries) && Covered(tries, x, a.resorted) && !Barred(x, a.key, a.provider)
    requires forall i :: 0 <= i < |tries| ==> (tries[i].resorted ==> a.resorted)
    ensures NoRepeats(tries + [a])
  {
    var all := tries + [a];
    forall i, j | 0 <= i < j < |all| && Bars(all[i], all[j]) ensures !all[i].resorted && all[j].resorted {
      if j == |tries| {
        assert all[i] == tries[i] && all[j] == a;
      } else {
        assert all[i] == tries[i] && all[j] == tries[j];
      }
    }
  }

  lemma TryIsCovered(tries: seq<Try>, x: Exclusions, a: Try)
    requires Covered(tries, x, a.resorted)
    ensures Covered(tries + [a], Exclude(x, a), a.resorted)
  {
  }

  /** What trying a key ends with, what it sent, and whether the client left meanwhile. */
  datatype KeyResult = KeyResult(outcome: Outcome, sends: nat, gone: bool)

  /** Trying a key from its r-th try on. */
  function TryFrom(env: Env, t: nat, retries: nat, recovery: bool, r: nat): KeyResult
    requires r <= retries
    decreases retries - r
  {
    var made := env.forward(t, r);
    var o := if recovery then made.(retrySame := false) else made;
    var n := if made.sent then 1 else 0;
    if o.ok || !o.retrySame || r == retries then KeyResult(o, n, false)
    else if env.goneWhileRetrying(t, r) then KeyResult(o, n, true)
    else
      var later := TryFrom(env, t, retries, recovery, r + 1);
      later.(sends := n + later.sends)
  }

  /** Tries one key, again and again while it says so and retries are left. */
  method TryKey(env: Env, t: nat, retries: nat, recovery: bool, ghost probe: bool)
    returns (outcome: Outcome, sends: nat, gone: bool)
    requires SkipsLocally(env, probe)
    ensures sends <= retries + 1
    ensures outcome.action == ProbeDisabled ==>
              probe && !gone && !outcome.ok && outcome.failOver && outcome.scope == KeyScope && sends <= retries
    ensures recovery ==> sends <= 1
    ensures gone ==> !outcome.ok
    ensures KeyResult(outcome, sends, gone) == TryFrom(env, t, retries, recovery, 0)
  {
    sends, gone := 0, false;
    var r := 0;
    outcome := env.forward(t, 0);
    while r <= retries
      invariant 0 <= r <= retries && sends <= r && (recovery ==> r == 0)
      invariant var rest := TryFrom(env, t, retries, recovery, r);
                TryFrom(env, t, retries, recovery, 0) == rest.(sends := sends + rest.sends)
      decreases retries - r
    {
      outcome := env.forward(t, r);
      if outcome.sent {
        sends := sends + 1;
      }
      if recovery {
        outcome := outcome.(retrySame := false);
      }
      if outcome.ok {
        return;
      }
      if outcome.retrySame && r < retries {
        if env.goneWhileRetrying(t, r) {
          gone := true;
          return;
        }
        r := r + 1;
      } else {
        return;
      }
    }
  }

  /** The sends that `attempt` attempts and `skips` skipped keys may take. */
  function Budget(attempt: nat, retries: nat, skips: nat): nat { attempt * (retries + 1) + skips * retries }

  lemma Spend(attempt: nat, retries: nat, skips: nat, sends: nat, more: nat, skipped: bool)
    requires sends <= Budget(attempt, retries, skips)
    requires more <= if skipped then retries else retries + 1
    ensures sends + more <= if skipped then Budget(attempt, retries, skips + 1) else Budget(attempt + 1, retries, skips)
  {
  }

  lemma WithinBudget(attempt: nat, attempts: nat, retries: nat, skips: nat, total: nat)
    requires attempt <= attempts && skips <= total
    ensures Budget(attempt, retries, skips) <= Budget(attempts, retries, total)
  {
    assert attempt * (retries + 1) <= attempts * (retries + 1);
    assert skips * retries <= total * retries;
  }

  function Size(allow: Option<set<nat>>): nat { if allow.Some? then |allow.value| else 0 }

  function TimeLeft(env: Env, t: nat): nat { if env.clock(t) < OVERALL_MS then OVERALL_MS - env.clock(t) else 0 }

  /** What a run of the loop has done so far. */
  ghost predicate Progress(tries: seq<Try>, attempt: nat, x: Exclusions, resorted: bool, allowed: Option<set<nat>>) {
    && Orderly(tries, allowed) && Covered(tries, x, resorted) && Spent(tries) == attempt
    && (forall i :: 0 <= i < |tries| ==> (tries[i].resorted ==> resorted) && !tries[i].ok)
  }

  /** No round repeats what was ruled out or leaves the allow set, and a success is the last. */
  ghost predicate Orderly(tries: seq<Try>, allowed: Option<set<nat>>) {
    && NoRepeats(tries)
    && (allowed.Some? ==> forall i :: 0 <= i < |tries| ==> tries[i].key in allowed.value)
    && (forall i :: 0 <= i < |tries| - 1 ==> !tries[i].ok)
  }

  /** What a round adds. */
  lemma RoundIsOrderly(tries: seq<Try>, attempt: nat, x: Exclusions, resorted: bool, allowed: Option<set<nat>>, a: Try)
    requires Progress(tries, attempt, x, resorted, allowed) && a.resorted == resorted && !Barred(x, a.key, a.provider)
    requires allowed.Some? ==> a.key in allowed.value
    ensures Orderly(tries + [a], allowed) && Spent(tries + [a]) == attempt + if a.skipped then 0 else 1
    ensures !a.ok ==> Progress(tries + [a], attempt + (if a.skipped then 0 else 1), Exclude(x, a), resorted, allowed)
  {
    hide NoRepeats, Covered, Spent, Barred, Exclude;
    TryOnce(tries, x, a);
  }

  lemma ProgressIsOrderly(tries: seq<Try>, attempt: nat, x: Exclusions, resorted: bool, allowed: Option<set<nat>>)
    requires Progress(tries, attempt, x, resorted, allowed)
    ensures Orderly(tries, allowed) && Spent(tries) == attempt && (tries != [] ==> !tries[|tries| - 1].ok)
  {
  }

  /** The keys left, and the sends so far: each key taken out has paid for the retries made on it. */
  ghost predicate Affords(allow: Option<set<nat>>, allowed: Option<set<nat>>, probe: bool, attempt: nat, retries: nat,
                          sends: nat)
  {
    && (allow.Some? <==> allowed.Some?) && (allow.Some? ==> allow.value <= allowed.value)
    && (!probe ==> allow == allowed)
    && Size(allow) <= Size(allowed) && sends <= Budget(attempt, retries, Size(allowed) - Size(allow))
  }

  lemma StaysWithin(allow: Option<set<nat>>, allowed: Option<set<nat>>, probe: bool, attempt: nat, attempts: nat,
                    retries: nat, sends: nat)
    requires Affords(allow, allowed, probe, attempt, retries, sends) && attempt <= attempts
    ensures sends <= Budget(attempts, retries, if probe then Size(allowed) else 0)
    ensures allow.Some? <==> allowed.Some?
    ensures allow.Some? ==> allow.value <= allowed.value
  {
    hide Budget;
    WithinBudget(attempt, attempts, retries, Size(allowed) - Size(allow), if probe then Size(allowed) else 0);
  }

  /** A round keeps within the budget: a skipped one pays with its key, any other with an attempt. */
  lemma SpendRound(allow: Option<set<nat>>, allowed: Option<set<nat>>, probe: bool, attempt: nat, attempts: nat,
                   retries: nat, sends: nat, more: nat, skipped: bool, key: nat)
    requires Affords(allow, allowed, probe, attempt, retries, sends) && attempt < attempts
    requires more <= if skipped then retries else retries + 1
    requires skipped ==> probe && allow.Some? && key in allow.value
    ensures sends + more <= Budget(attempts, retries, if probe then Size(allowed) else 0)
    ensures !skipped ==> Affords(allow, allowed, probe, attempt + 1, retries, sends + more)
    ensures skipped ==> Affords(Some(allow.value - {key}), allowed, probe, attempt, retries, sends + more)
    ensures skipped ==> |allow.value - {key}| < |allow.value|
  {
    hide Budget;
    var skips := Size(allowed) - Size(allow);
    Spend(attempt, retries, skips, sends, more, skipped);
    if skipped {
      assert |allow.value - {key}| == |allow.value| - 1;
      WithinBudget(attempt, attempts, retries, skips + 1, Size(allowed));
    } else {
      WithinBudget(attempt + 1, attempts, retries, skips, if probe then Size(allowed) else 0);
    }
  }

  // -------------------------------------------------------------- one round of the loop

  /** What the loop carries from round to round. */
  datatype Loop = Loop(x: Exclusions, allow: Option<set<nat>>, resorted: bool, attempt: nat, lastAction: Action)

  /** A round ends the request or goes on, and may have tried a key. */
  datatype Turn = Stop(end: End, tried: Option<Try>) | Go(next: Loop, tried: Option<Try>)

  /** A transient failure has emptied the candidates, and there is time for one clean start. */
  predicate LastResort(env: Env, s: Loop, t: nat) {
    s.attempt > 0 && !s.resorted && Transient(s.lastAction) && s.x != NO_EXCLUSIONS
    && env.clock(t) + LAST_RESORT_MARGIN_MS < OVERALL_MS
  }

  function Without(allow: Option<set<nat>>, key: nat): Option<set<nat>> {
    if allow.None? then None else Some(allow.value - {key})
  }

  /** What follows from the result of trying a key. */
  function Conclude(s: Loop, key: nat, provider: nat, o: Outcome, gone: bool): Turn {
    var skipped := o.action == ProbeDisabled;
    var a := Try(key, provider, o.scope, skipped, o.ok, s.resorted);
    var next := s.(x := Exclude(s.x, a), lastAction := o.action);
    if o.ok then Stop(Served, Some(a))
    else if gone then Stop(Interrupted, Some(a))
    else if skipped then
      if Without(s.allow, key) == Some({}) then Stop(AllProbesDisabled, Some(a))
      else Go(next.(allow := Without(s.allow, key)), Some(a))
    else if !o.failOver then Stop(Refused, Some(a))
    else Go(next.(attempt := s.attempt + 1), Some(a))
  }

  function Round(env: Env, retries: nat, s: Loop, t: nat): Turn {
    match env.pick(t, s.x, s.allow)
    case NoUpstream =>
      if LastResort(env, s, t) then Go(s.(resorted := true, x := NO_EXCLUSIONS), None) else Stop(NoRoute, None)
    case PickFailed(cancelled) => Stop(if cancelled then Cancelled else PickerError, None)
    case Picked(key, provider, recovery) =>
      match env.admit(t)
      case Broken => Stop(RoutingBroken, None)
      case Unavailable =>
        if env.clock(t) >= OVERALL_MS || env.waitOver(t) then Stop(RecoveryPending, None)
        else if env.goneWhileReselecting(t) then Stop(Interrupted, None)
        else Go(s, None)
      case Admitted =>
        var result := TryFrom(env, t, retries, recovery, 0);
        Conclude(s, key, provider, result.outcome, result.gone)
  }

  /** What a round sends upstream. */
  function RoundSends(env: Env, retries: nat, s: Loop, t: nat): nat {
    var pick := env.pick(t, s.x, s.allow);
    if pick.Picked? && env.admit(t).Admitted? then TryFrom(env, t, retries, pick.recovery, 0).sends else 0
  }

  /** One round, as the loop makes it. */
  method PlayRound(env: Env, retries: nat, s: Loop, t: nat, ghost probe: bool) returns (turn: Turn, sends: nat)
    requires PicksHonestly(env) && SkipsLocally(env, probe) && (probe ==> s.allow.Some?)
    ensures turn == Round(env, retries, s, t) && sends == RoundSends(env, retries, s, t)
    ensures turn.tried.None? ==> sends == 0
    ensures turn.tried.Some? ==> sends <= if turn.tried.value.skipped then retries else retries + 1
    ensures turn.tried.Some? ==> IsFair(s, turn.tried.value, probe)
  {
    hide PicksHonestly, SkipsLocally, TryFrom, Exclude, Barred;
    sends := 0;
    var pick := env.pick(t, s.x, s.allow);
    if pick.NoUpstream? {
      if s.attempt > 0 && !s.resorted && Transient(s.lastAction) && s.x != NO_EXCLUSIONS
         && env.clock(t) + LAST_RESORT_MARGIN_MS < OVERALL_MS {
        return Go(s.(resorted := true, x := NO_EXCLUSIONS), None), 0;
      }
      return Stop(NoRoute, None), 0;
    }
    if pick.PickFailed? {
      return Stop(if pick.cancelled then Cancelled else PickerError, None), 0;
    }
    if env.admit(t).Broken? {
      return Stop(RoutingBroken, None), 0;
    }
    if env.admit(t).Unavailable? {
      if env.clock(t) >= OVERALL_MS || env.waitOver(t) {
        return Stop(RecoveryPending, None), 0;
      }
      if env.goneWhileReselecting(t) {
        return Stop(Interrupted, None), 0;
      }
      return Go(s, None), 0;
    }
    HonestPick(env, t, s.x, s.allow);
    var outcome, more, gone := TryKey(env, t, retries, pick.recovery, probe);
    turn := ConcludeRound(s, pick.key, pick.provider, outcome, gone);
    sends := more;
  }

  method ConcludeRound(s: Loop, key: nat, provider: nat, o: Outcome, gone: bool) returns (turn: Turn)
    ensures turn == Conclude(s, key, provider, o, gone)
  {
    var a := Try(key, provider, o.scope, o.action == ProbeDisabled, o.ok, s.resorted);
    if o.ok {
      return Stop(Served, Some(a));
    }
    if gone {
      return Stop(Interrupted, Some(a));
    }
    var next := s.(lastAction := o.action);
    match o.scope {
      case ProviderScope => next := next.(x := next.x.(providers := next.x.providers + [provider]));
      case KeyModelScope => next := next.(x := next.x.(keyModels := next.x.keyModels + [key]));
      case KeyScope => next := next.(x := next.x.(keys := next.x.keys + [key]));
      case NoScope =>
    }
    if o.action == ProbeDisabled {
      var left := Without(s.allow, key);
      if left == Some({}) {
        return Stop(AllProbesDisabled, Some(a));
      }
      return Go(next.(allow := left), Some(a));
    }
    if !o.failOver {
      return Stop(Refused, Some(a));
    }
    turn := Go(next.(attempt := next.attempt + 1), Some(a));
  }

  /** A round tries a key that is allowed and not ruled out, and skips only for diagnostics. */
  predicate IsFair(s: Loop, a: Try, probe: bool) {
    && !Barred(s.x, a.key, a.provider) && (s.allow.Some? ==> a.key in s.allow.value) && a.resorted == s.resorted
    && (a.skipped ==> probe && !a.ok && s.allow.Some?)
  }

  lemma HonestPick(env: Env, t: nat, x: Exclusions, allow: Option<set<nat>>)
    requires PicksHonestly(env) && env.pick(t, x, allow).Picked?
    ensures var p := env.pick(t, x, allow); !Barred(x, p.key, p.provider) && (allow.Some? ==> p.key in allow.value)
  {
  }

  /** What a round that tried nothing, and one that tried a key, leave behind. */
  lemma RoundShape(env: Env, retries: nat, s: Loop, t: nat)
    ensures var turn := Round(env, retries, s, t);
            && (turn.Stop? ==> !turn.end.GaveUp?)
            && (turn.tried.None? && turn.Stop? ==> !turn.end.Served?)
            && (turn.tried.None? && turn.Go? ==>
                  || (turn.next == s && env.admit(t) == Unavailable && env.clock(t) < OVERALL_MS)
                  || (turn.next == s.(resorted := true, x := NO_EXCLUSIONS) && !s.resorted))
            && (turn.tried.Some? && turn.Stop? ==> (turn.end.Served? <==> turn.tried.value.ok))
            && (turn.tried.Some? && turn.Go? ==> TriedShape(s, turn.next, turn.tried.value))
  {
    hide TryFrom, Exclude;
  }

  predicate TriedShape(s: Loop, next: Loop, a: Try) {
    && !a.ok && next.x == Exclude(s.x, a) && next.resorted == s.resorted
    && (if a.skipped then next.allow == Without(s.allow, a.key) && next.attempt == s.attempt
        else next.allow == s.allow && next.attempt == s.attempt + 1)
  }

  /** What the loop maintains. */
  ghost predicate Sound(s: Loop, tries: seq<Try>, sends: nat, attempts: nat, retries: nat, probe: bool,
                        allowed: Option<set<nat>>)
  {
    && s.attempt <= attempts
    && Progress(tries, s.attempt, s.x, s.resorted, allowed)
    && Affords(s.allow, allowed, probe, s.attempt, retries, sends)
  }

  /** What it promises in the end. */
  ghost predicate WithinLimits(tries: seq<Try>, sends: nat, attempts: nat, retries: nat, probe: bool,
                               allowed: Option<set<nat>>)
  {
    && Orderly(tries, allowed) && Spent(tries) <= attempts
    && sends <= Budget(attempts, retries, if probe then Size(allowed) else 0)
  }

  lemma SoundIsWithin(s: Loop, tries: seq<Try>, sends: nat, attempts: nat, retries: nat, probe: bool,
                      allowed: Option<set<nat>>)
    requires Sound(s, tries, sends, attempts, retries, probe, allowed)
    ensures WithinLimits(tries, sends, attempts, retries, probe, allowed)
    ensures tries != [] ==> !tries[|tries| - 1].ok
    ensures s.allow.Some? <==> allowed.Some?
  {
    hide Progress, Affords, Orderly, Spent, Budget;
    ProgressIsOrderly(tries, s.attempt, s.x, s.resorted, allowed);
    StaysWithin(s.allow, allowed, probe, s.attempt, attempts, retries, sends);
  }

  /** A round that tried a key keeps within the limits, and if the loop goes on, it is sound. */
  lemma TryKeepsSound(s: Loop, turn: Turn, tries: seq<Try>, sends: nat, more: nat, attempts: nat, retries: nat,
                      probe: bool, allowed: Option<set<nat>>)
    requires Sound(s, tries, sends, attempts, retries, probe, allowed) && s.attempt < attempts
    requires turn.tried.Some? && IsFair(s, turn.tried.value, probe)
    requires more <= if turn.tried.value.skipped then retries else retries + 1
    requires turn.Go? ==> TriedShape(s, turn.next, turn.tried.value)
    ensures WithinLimits(tries + [turn.tried.value], sends + more, attempts, retries, probe, allowed)
    ensures turn.Go? ==>
              Sound(turn.next, tries + [turn.tried.value], sends + more, attempts, retries, probe, allowed)
  {
    hide Progress, Affords, Orderly, Spent, Budget, Barred, Exclude;
    var a := turn.tried.value;
    StaysWithin(s.allow, allowed, probe, s.attempt, attempts, retries, sends);
    RoundIsOrderly(tries, s.attempt, s.x, s.resorted, allowed, a);
    SpendRound(s.allow, allowed, probe, s.attempt, attempts, retries, sends, more, a.skipped, a.key);
  }

  lemma IdleKeepsSound(s: Loop, next: Loop, tries: seq<Try>, sends: nat, attempts: nat, retries: nat, probe: bool,
                       allowed: Option<set<nat>>)
    requires Sound(s, tries, sends, attempts, retries, probe, allowed)
    requires next == s || (next == s.(resorted := true, x := NO_EXCLUSIONS) && !s.resorted)
    ensures Sound(next, tries, sends, attempts, retries, probe, allowed)
  {
    hide Progress, Affords;
    if next != s {
      CleanStart(tries, s.attempt, s.x, allowed);
    }
  }

  /** One of: an attempt is used up, the last resort is taken, a key is gone, the clock has moved. */
  predicate ComesCloser(env: Env, s: Loop, next: Loop, t: nat) {
    || s.attempt < next.attempt
    || (s.attempt == next.attempt && !s.resorted && next.resorted)
    || (s.attempt == next.attempt && s.resorted == next.resorted
        && (Size(next.allow) < Size(s.allow)
            || (Size(next.allow) == Size(s.allow) && TimeLeft(env, t + 1) < TimeLeft(env, t))))
  }

  lemma RoundComesCloser(env: Env, retries: nat, s: Loop, t: nat, probe: bool)
    requires TimePasses(env) && Round(env, retries, s, t).Go?
    requires var tried := Round(env, retries, s, t).tried; tried.Some? ==> IsFair(s, tried.value, probe)
    ensures ComesCloser(env, s, Round(env, retries, s, t).next, t)
  {
    RoundShape(env, retries, s, t);
    hide Round, TimeLeft, Barred, Exclude;
    var turn := Round(env, retries, s, t);
    if turn.tried.None? {
      if turn.next == s {
        ClockMoves(env, t);
      }
    } else if turn.tried.value.skipped {
      var key := turn.tried.value.key;
      assert |s.allow.value - {key}| == |s.allow.value| - 1;
    }
  }

  // -------------------------------------------------------------------- the whole loop

  /** The states of the loop, one before each round, each from the one before it. */
  ghost predicate IsRun(env: Env, attempts: nat, retries: nat, allowed: Option<set<nat>>, states: seq<Loop>) {
    && states != [] && states[0] == Loop(NO_EXCLUSIONS, allowed, false, 0, Other(""))
    && forall i :: 0 <= i < |states| - 1 ==> LeadsTo(env, attempts, retries, states, i)
  }

  ghost predicate LeadsTo(env: Env, attempts: nat, retries: nat, states: seq<Loop>, i: nat)
    requires i < |states| - 1
  {
    states[i].attempt < attempts
    && var turn := Round(env, retries, states[i], i);
       turn.Go? && turn.next == states[i + 1]
  }

  function Opt<T>(o: Option<T>): seq<T> { if o.Some? then [o.value] else [] }

  /** The keys tried in the first `n` rounds. */
  ghost function TriedIn(env: Env, retries: nat, states: seq<Loop>, n: nat): seq<Try>
    requires n <= |states|
  {
    if n == 0 then [] else TriedIn(env, retries, states, n - 1) + Opt(Round(env, retries, states[n - 1], n - 1).tried)
  }

  /** What the first `n` rounds sent upstream. */
  ghost function SendsIn(env: Env, retries: nat, states: seq<Loop>, n: nat): nat
    requires n <= |states|
  {
    if n == 0 then 0 else SendsIn(env, retries, states, n - 1) + RoundSends(env, retries, states[n - 1], n - 1)
  }

  /** The rounds played: all, or all but the one that found the attempts used up. */
  ghost function Played(attempts: nat, states: seq<Loop>): (n: nat)
    requires states != []
    ensures n <= |states|
  {
    if states[|states| - 1].attempt >= attempts then |states| - 1 else |states|
  }

  /** How the run ends: with the verdict of its last round, or with its attempts used up. */
  ghost predicate EndsAs(env: Env, attempts: nat, retries: nat, states: seq<Loop>, tries: seq<Try>, end: End)
    requires states != []
  {
    var n := |states| - 1;
    if states[n].attempt >= attempts then end == GaveUp && tries == TriedIn(env, retries, states, n)
    else
      && tries == TriedIn(env, retries, states, n + 1)
      && Round(env, retries, states[n], n).Stop? && Round(env, retries, states[n], n).end == end
  }

  /** Runs a request, round by round. It ends: a round either uses up an attempt, or is the one
      last resort, or takes a key out of the allow set, or moves the clock. */
  method Proxy(env: Env, attempts: nat, retries: nat, probe: bool, allowed: Option<set<nat>>)
    returns (end: End, sends: nat, ghost tries: seq<Try>, ghost states: seq<Loop>)
    requires PicksHonestly(env) && TimePasses(env) && SkipsLocally(env, probe)
    requires probe ==> allowed.Some?
    ensures IsRun(env, attempts, retries, allowed, states) && EndsAs(env, attempts, retries, states, tries, end)
    ensures sends == SendsIn(env, retries, states, Played(attempts, states))
    ensures sends <= Budget(attempts, retries, if probe then Size(allowed) else 0)
    ensures Orderly(tries, allowed) && Spent(tries) <= attempts
    ensures end.Served? <==> tries != [] && tries[|tries| - 1].ok
    ensures end.GaveUp? ==> Spent(tries) == attempts
  {
    hide PicksHonestly, TimePasses, SkipsLocally, Sound, TimeLeft, IsFair, Round, TriedShape, Spent, Orderly, Budget,
         RoundSends;
    var s, t := Loop(NO_EXCLUSIONS, allowed, false, 0, Other("")), 0;
    sends, tries, states := 0, [], [s];
    NothingYet(attempts, retries, probe, allowed);
    while s.attempt < attempts
      invariant |states| == t + 1 && states[t] == s
      invariant IsRun(env, attempts, retries, allowed, states) && tries == TriedIn(env, retries, states, t)
      invariant Sound(s, tries, sends, attempts, retries, probe, allowed)
      invariant sends == SendsIn(env, retries, states, t)
      decreases attempts - s.attempt, !s.resorted, Size(s.allow), TimeLeft(env, t)
    {
      SoundIsWithin(s, tries, sends, attempts, retries, probe, allowed);
      var turn, more := PlayRound(env, retries, s, t, probe);
      TurnKeepsSound(env, s, t, tries, sends, more, attempts, retries, probe, allowed);
      tries, sends := tries + Opt(turn.tried), sends + more;
      if turn.Stop? {
        end := turn.end;
        return;
      }
      RunGoesOn(env, attempts, retries, allowed, states, turn.next);
      s, t, states := turn.next, t + 1, states + [turn.next];
    }
    SoundIsWithin(s, tries, sends, attempts, retries, probe, allowed);
    SoundAttempts(s, tries, sends, attempts, retries, probe, allowed);
    end := GaveUp;
  }

  /** What a round adds to a sound run. */
  lemma TurnKeepsSound(env: Env, s: Loop, t: nat, tries: seq<Try>, sends: nat, more: nat, attempts: nat, retries: nat,
                       probe: bool, allowed: Option<set<nat>>)
    requires TimePasses(env) && Sound(s, tries, sends, attempts, retries, probe, allowed) && s.attempt < attempts
    requires var tried := Round(env, retries, s, t).tried;
             if tried.None? then more == 0
             else IsFair(s, tried.value, probe) && more <= if tried.value.skipped then retries else retries + 1
    ensures var turn := Round(env, retries, s, t);
            var all := tries + Opt(turn.tried);
            && WithinLimits(all, sends + more, attempts, retries, probe, allowed)
            && (turn.Go? ==> Sound(turn.next, all, sends + more, attempts, retries, probe, allowed))
            && (turn.Go? ==> ComesCloser(env, s, turn.next, t))
            && (turn.Stop? ==> !turn.end.GaveUp? && (turn.end.Served? <==> all != [] && all[|all| - 1].ok))
  {
    hide TimePasses, Sound, TimeLeft, IsFair, Round, TriedShape, WithinLimits;
    var turn := Round(env, retries, s, t);
    SoundIsWithin(s, tries, sends, attempts, retries, probe, allowed);
    RoundShape(env, retries, s, t);
    if turn.tried.Some? {
      TryKeepsSound(s, turn, tries, sends, more, attempts, retries, probe, allowed);
    } else {
      assert tries + [] == tries;
      if turn.Go? {
        IdleKeepsSound(s, turn.next, tries, sends, attempts, retries, probe, allowed);
      }
    }
    if turn.Go? {
      RoundComesCloser(env, retries, s, t, probe);
    }
  }

  lemma SoundAttempts(s: Loop, tries: seq<Try>, sends: nat, attempts: nat, retries: nat, probe: bool,
                      allowed: Option<set<nat>>)
    requires Sound(s, tries, sends, attempts, retries, probe, allowed)
    ensures Spent(tries) == s.attempt <= attempts
  {
  }

  lemma NothingYet(attempts: nat, retries: nat, probe: bool, allowed: Option<set<nat>>)
    ensures Sound(Loop(NO_EXCLUSIONS, allowed, false, 0, Other("")), [], 0, attempts, retries, probe, allowed)
  {
  }

  /** A run continues with what its last round leads to, and its rounds stay what they were. */
  lemma RunGoesOn(env: Env, attempts: nat, retries: nat, allowed: Option<set<nat>>, states: seq<Loop>, next: Loop)
    requires IsRun(env, attempts, retries, allowed, states) && states[|states| - 1].attempt < attempts
    requires Round(env, retries, states[|states| - 1], |states| - 1).Go?
    requires Round(env, retries, states[|states| - 1], |states| - 1).next == next
    ensures IsRun(env, attempts, retries, allowed, states + [next])
    ensures TriedIn(env, retries, states + [next], |states|) == TriedIn(env, retries, states, |states|)
    ensures SendsIn(env, retries, states + [next], |states|) == SendsIn(env, retries, states, |states|)
  {
    hide Round, RoundSends;
    var more := states + [next];
    forall i | 0 <= i < |more| - 1 ensures LeadsTo(env, attempts, retries, more, i) {
      if i < |states| - 1 {
        assert LeadsTo(env, attempts, retries, states, i);
      }
    }
    TriedSame(env, retries, states, more, |states|);
  }

  lemma {:induction false} TriedSame(env: Env, retries: nat, a: seq<Loop>, b: seq<Loop>, n: nat)
    requires n <= |a| <= |b| && a == b[..|a|]
    ensures TriedIn(env, retries, a, n) == TriedIn(env, retries, b, n)
    ensures SendsIn(env, retries, a, n) == SendsIn(env, retries, b, n)
  {
    hide Round, RoundSends;
    if n > 0 {
      TriedSame(env, retries, a, b, n - 1);
      assert a[n - 1] == b[n - 1];
    }
  }

  /** The last resort forgets the exclusions, so from here on earlier rounds bar nothing. */
  lemma CleanStart(tries: seq<Try>, attempt: nat, x: Exclusions, allowed: Option<set<nat>>)
    requires Progress(tries, attempt, x, false, allowed)
    ensures Progress(tries, attempt, NO_EXCLUSIONS, true, allowed)
  {
    hide NoRepeats, Spent;
  }

  lemma ClockMoves(env: Env, t: nat)
    requires TimePasses(env) && env.admit(t) == Unavailable && env.clock(t) < OVERALL_MS
    ensures TimeLeft(env, t + 1) < TimeLeft(env, t)
  {
  }

  // ------------------------------------------------------------- what the ends mean

  /** The keys that were skipped. */
  function Skipped(tries: seq<Try>): set<nat> { set i | 0 <= i < |tries| && tries[i].skipped :: tries[i].key }

  lemma SkippedOneMore(tries: seq<Try>, a: Try)
    ensures Skipped(tries + [a]) == if a.skipped then Skipped(tries) + {a.key} else Skipped(tries)
  {
    var all := tries + [a];
    forall k ensures k in Skipped(all) <==> k in Skipped(tries) || (a.skipped && k == a.key) {
      if k in Skipped(tries) {
        var i :| 0 <= i < |tries| && tries[i].skipped && tries[i].key == k;
        assert all[i] == tries[i];
      }
      if a.skipped && k == a.key {
        assert all[|tries|] == a;
      }
    }
  }

  lemma RoundLeaves(env: Env, retries: nat, s: Loop, t: nat)
    requires Round(env, retries, s, t).Go?
    ensures var turn := Round(env, retries, s, t);
            turn.next.allow
            == if turn.tried.Some? && turn.tried.value.skipped then Without(s.allow, turn.tried.value.key) else s.allow
  {
    hide Round;
    RoundShape(env, retries, s, t);
  }

  lemma TakenOneByOne(all: set<nat>, gone: set<nat>, key: nat)
    ensures all - gone - {key} == all - (gone + {key})
  {
  }

  /** The keys left are those allowed and not skipped. */
  lemma {:induction false} LeftIsUnskipped(env: Env, attempts: nat, retries: nat, allowed: Option<set<nat>>,
                                           states: seq<Loop>, n: nat)
    requires IsRun(env, attempts, retries, allowed, states) && n < |states|
    ensures states[n].allow
         == if allowed.None? then None else Some(allowed.value - Skipped(TriedIn(env, retries, states, n)))
  {
    if n == 0 {
      assert Skipped([]) == {};
      assert allowed.Some? ==> allowed.value - {} == allowed.value;
    } else {
      LeftIsUnskipped(env, attempts, retries, allowed, states, n - 1);
      assert LeadsTo(env, attempts, retries, states, n - 1);
      RoundLeaves(env, retries, states[n - 1], n - 1);
      hide Round, Skipped;
      var tried, before := Round(env, retries, states[n - 1], n - 1).tried, TriedIn(env, retries, states, n - 1);
      if tried.Some? {
        SkippedOneMore(before, tried.value);
        if allowed.Some? {
          TakenOneByOne(allowed.value, Skipped(before), tried.value.key);
        }
      } else {
        assert before + [] == before;
      }
    }
  }

  /** A try that failed and must not be repeated elsewhere. */
  predicate Forbids(env: Env, t: nat, r: nat) { !env.forward(t, r).ok && !env.forward(t, r).failOver }

  /** A request ends for disabled probes only after every allowed key was skipped; for lack of a
      route only when nothing can be picked with the keys and exclusions left, and no last resort
      is open; by refusal only after an outcome that forbids a failover. */
  lemma EndsMean(env: Env, attempts: nat, retries: nat, allowed: Option<set<nat>>, states: seq<Loop>,
                 tries: seq<Try>, end: End)
    requires IsRun(env, attempts, retries, allowed, states) && EndsAs(env, attempts, retries, states, tries, end)
    ensures end.AllProbesDisabled? ==> allowed.Some? && allowed.value <= Skipped(tries)
    ensures var n := |states| - 1; var s := states[n];
            && (end.NoRoute? ==> env.pick(n, s.x, s.allow) == NoUpstream && !LastResort(env, s, n))
            && (end.RecoveryPending? ==>
                  env.admit(n) == Unavailable && (env.clock(n) >= OVERALL_MS || env.waitOver(n)))
            && (end.Refused? ==> exists r :: 0 <= r <= retries && Forbids(env, n, r))
  {
    var n := |states| - 1;
    var s := states[n];
    LeftIsUnskipped(env, attempts, retries, allowed, states, n);
    if end.AllProbesDisabled? {
      var a := Round(env, retries, s, n).tried.value;
      hide TryFrom, Skipped;
      SkippedOneMore(TriedIn(env, retries, states, n), a);
    } else if end.Refused? {
      var pick := env.pick(n, s.x, s.allow);
      var r := OutcomeIsForwarded(env, n, retries, pick.recovery, 0);
      hide TryFrom;
      assert Forbids(env, n, r);
    }
  }

  /** The outcome of trying a key is that of one of its tries. */
  predicate IsForwarded(env: Env, t: nat, r: nat, o: Outcome) {
    env.forward(t, r).ok == o.ok && env.forward(t, r).failOver == o.failOver
  }

  lemma {:induction false} OutcomeIsForwarded(env: Env, t: nat, retries: nat, recovery: bool, r: nat) returns (q: nat)
    requires r <= retries
    ensures r <= q <= retries && IsForwarded(env, t, q, TryFrom(env, t, retries, recovery, r).outcome)
    decreases retries - r
  {
    var made := env.forward(t, r);
    if made.ok || recovery || !made.retrySame || r == retries || env.goneWhileRetrying(t, r) {
      q := r;
    } else {
      q := OutcomeIsForwarded(env, t, retries, recovery, r + 1);
    }
  }
}
