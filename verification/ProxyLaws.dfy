/** What every run of the attempt loop does in every round, said of the environment alone: when
    a key is tried again, when the next key is tried, and what each end of a request means. */
module ProxyLaws {
  import opened Wrappers
  import opened ProxyLoop

  // --------------------------------------------------------------- trying one key

  /** The q-th try of the key failed and is to be repeated: it says so, retries are left, and the
      round is not there to recover the key. */
  predicate WantsAnother(env: Env, t: nat, retries: nat, recovery: bool, q: nat) {
    !env.forward(t, q).ok && env.forward(t, q).retrySame && q < retries && !recovery
  }

  /** The client left before the q-th try could be repeated. */
  predicate Left(env: Env, t: nat, retries: nat, recovery: bool, q: nat) {
    WantsAnother(env, t, retries, recovery, q) && env.goneWhileRetrying(t, q)
  }

  /** The tries of the round are those up to r: every earlier one was to be repeated and the client
      stayed, and this one is not, or the client left. */
  ghost predicate LastTry(env: Env, t: nat, retries: nat, recovery: bool, r: nat) {
    && r <= retries
    && (forall q: nat :: q < r ==>
          WantsAnother(env, t, retries, recovery, q) && !env.goneWhileRetrying(t, q))
    && (WantsAnother(env, t, retries, recovery, r) ==> env.goneWhileRetrying(t, r))
  }

  /** The tries from a to b that reached the upstream. */
  ghost function SentTries(env: Env, t: nat, a: nat, b: nat): set<nat> {
    set q: nat | a <= q <= b && env.forward(t, q).sent
  }

  lemma SentFirst(env: Env, t: nat, a: nat, b: nat)
    requires a <= b
    ensures |SentTries(env, t, a, b)|
            == (if env.forward(t, a).sent then 1 else 0) + |SentTries(env, t, a + 1, b)|
  {
    var rest, first := SentTries(env, t, a + 1, b), if env.forward(t, a).sent then {a} else {};
    forall q ensures q in SentTries(env, t, a, b) <==> q in rest + first {}
    hide SentTries;
    assert SentTries(env, t, a, b) == rest + first;
    assert a !in rest by { NotSentEarlier(env, t, a, b); }
  }

  lemma NotSentEarlier(env: Env, t: nat, a: nat, b: nat)
    ensures a !in SentTries(env, t, a + 1, b)
  {
  }

  /** Trying a key goes on exactly as long as a try is to be repeated and the client stays; it
      ends with the outcome of the last try, and it has sent what its tries sent. */
  lemma {:induction false} TriesOfAKey(env: Env, t: nat, retries: nat, recovery: bool, from: nat) returns (r: nat)
    requires from <= retries
    requires forall q: nat :: q < from ==>
               WantsAnother(env, t, retries, recovery, q) && !env.goneWhileRetrying(t, q)
    ensures from <= r && LastTry(env, t, retries, recovery, r)
    ensures var result, o := TryFrom(env, t, retries, recovery, from), env.forward(t, r);
            && result.outcome == (if recovery then o.(retrySame := false) else o)
            && result.gone == Left(env, t, retries, recovery, r)
            && result.sends == |SentTries(env, t, from, r)|
    decreases retries - from
  {
    if WantsAnother(env, t, retries, recovery, from) && !env.goneWhileRetrying(t, from) {
      r := TriesOfAKey(env, t, retries, recovery, from + 1);
    } else {
      r := from;
      assert SentTries(env, t, from + 1, from) == {};
    }
    SentFirst(env, t, from, r);
  }

  lemma LastTryIsOne(env: Env, t: nat, retries: nat, recovery: bool, r: nat, q: nat)
    requires LastTry(env, t, retries, recovery, r) && LastTry(env, t, retries, recovery, q)
    ensures r == q
  {
  }

  // ------------------------------------------------------------- a round of a run

  /** Round n of the run is played: attempts are left when it begins. */
  ghost predicate Plays(attempts: nat, states: seq<Loop>, n: nat) {
    n < |states| && states[n].attempt < attempts
  }

  /** Round n tries the picked key, and r is its last try. */
  ghost predicate Tries(env: Env, retries: nat, s: Loop, n: nat, r: nat) {
    var pick := env.pick(n, s.x, s.allow);
    pick.Picked? && env.admit(n) == Admitted && LastTry(env, n, retries, pick.recovery, r)
  }

  predicate Rejoins(env: Env, n: nat) {
    env.admit(n) == Unavailable && env.clock(n) < 300000 && !env.waitOver(n)
  }

  ghost predicate GoesOn(states: seq<Loop>, n: nat, next: Loop) { n + 1 < |states| && states[n + 1] == next }

  ghost predicate EndsWith(states: seq<Loop>, n: nat, end: End, verdict: End) {
    n + 1 == |states| && end == verdict
  }

  /** A round that plays goes on to the state its turn gives, or is the last. */
  lemma TurnsLead(env: Env, attempts: nat, retries: nat, allowed: Option<set<nat>>, states: seq<Loop>,
                  tries: seq<Try>, end: End, n: nat)
    requires IsRun(env, attempts, retries, allowed, states) && EndsAs(env, attempts, retries, states, tries, end)
    requires Plays(attempts, states, n)
    ensures var turn := Round(env, retries, states[n], n);
            if turn.Go? then GoesOn(states, n, turn.next) else EndsWith(states, n, end, turn.end)
  {
    hide Round, TriedIn;
    if n < |states| - 1 {
      assert LeadsTo(env, attempts, retries, states, n);
    }
  }

  /** Failing over: a round whose last try failed, says that another key may do, was no local skip
      and did not lose its client is followed by another one, which has used up one attempt more
      and excludes what failed.  So the request goes on unless its attempts are used up. */
  lemma FailsOver(env: Env, attempts: nat, retries: nat, allowed: Option<set<nat>>, states: seq<Loop>,
                  tries: seq<Try>, end: End, n: nat, r: nat)
    requires IsRun(env, attempts, retries, allowed, states) && EndsAs(env, attempts, retries, states, tries, end)
    requires Plays(attempts, states, n) && Tries(env, retries, states[n], n, r)
    requires var o := env.forward(n, r); !o.ok && o.failOver && o.action != ProbeDisabled
    requires !Left(env, n, retries, env.pick(n, states[n].x, states[n].allow).recovery, r)
    ensures n + 1 < |states| && states[n + 1].attempt == states[n].attempt + 1
    ensures states[n + 1].lastAction == env.forward(n, r).action
    ensures states[n + 1].allow == states[n].allow && states[n + 1].resorted == states[n].resorted
    ensures var pick := env.pick(n, states[n].x, states[n].allow);
            Excludes(states[n].x, states[n + 1].x, env.forward(n, r).scope, pick.key, pick.provider)
    ensures states[n].attempt + 1 < attempts ==> Plays(attempts, states, n + 1)
    ensures states[n].attempt + 1 == attempts ==> end.GaveUp?
  {
    hide LastTry, Left, Round, EndsAs;
    TurnsLead(env, attempts, retries, allowed, states, tries, end, n);
    FailedTurn(env, retries, states[n], n, r);
    PlayedBefore(env, attempts, retries, allowed, states, n + 1);
    UsedUp(env, attempts, retries, states, tries, end);
  }

  lemma FailedTurn(env: Env, retries: nat, s: Loop, n: nat, r: nat)
    requires Tries(env, retries, s, n, r)
    requires var o := env.forward(n, r); !o.ok && o.failOver && o.action != ProbeDisabled
    requires !Left(env, n, retries, env.pick(n, s.x, s.allow).recovery, r)
    ensures var turn, pick, o := Round(env, retries, s, n), env.pick(n, s.x, s.allow), env.forward(n, r);
            && turn.Go? && turn.next.attempt == s.attempt + 1 && turn.next.lastAction == o.action
            && turn.next.allow == s.allow && turn.next.resorted == s.resorted
            && Excludes(s.x, turn.next.x, o.scope, pick.key, pick.provider)
  {
    var pick := env.pick(n, s.x, s.allow);
    var q := TriesOfAKey(env, n, retries, pick.recovery, 0);
    LastTryIsOne(env, n, retries, pick.recovery, r, q);
    hide TryFrom, LastTry, Left;
  }

  /** A round beyond which the run goes on had attempts left. */
  lemma PlayedBefore(env: Env, attempts: nat, retries: nat, allowed: Option<set<nat>>, states: seq<Loop>, n: nat)
    requires IsRun(env, attempts, retries, allowed, states)
    ensures n < |states| - 1 ==> states[n].attempt < attempts
  {
    hide Round;
    assert n < |states| - 1 ==> LeadsTo(env, attempts, retries, states, n);
  }

  lemma UsedUp(env: Env, attempts: nat, retries: nat, states: seq<Loop>, tries: seq<Try>, end: End)
    requires states != [] && EndsAs(env, attempts, retries, states, tries, end)
    ensures states[|states| - 1].attempt >= attempts ==> end.GaveUp?
  {
    hide Round, TriedIn;
  }

  /** One key, one key and model, or one provider more is excluded, as the failure's scope says. */
  ghost predicate Excludes(before: Exclusions, after: Exclusions, scope: Scope, key: nat, provider: nat) {
    && (forall k :: k in after.keys <==> k in before.keys || (scope == KeyScope && k == key))
    && (forall k :: k in after.keyModels <==> k in before.keyModels || (scope == KeyModelScope && k == key))
    && (forall p :: p in after.providers <==> p in before.providers || (scope == ProviderScope && p == provider))
  }

  /** A locally skipped key costs no attempt; it leaves the allow set, and the request goes on while
      others are allowed. */
  lemma SkipsForFree(env: Env, attempts: nat, retries: nat, allowed: Option<set<nat>>, states: seq<Loop>,
                     tries: seq<Try>, end: End, n: nat, r: nat)
    requires IsRun(env, attempts, retries, allowed, states) && EndsAs(env, attempts, retries, states, tries, end)
    requires Plays(attempts, states, n) && Tries(env, retries, states[n], n, r)
    requires var o := env.forward(n, r); !o.ok && o.action == ProbeDisabled && states[n].allow.Some?
    requires !Left(env, n, retries, env.pick(n, states[n].x, states[n].allow).recovery, r)
    ensures var key := env.pick(n, states[n].x, states[n].allow).key;
            if states[n].allow.value <= {key} then EndsWith(states, n, end, AllProbesDisabled)
            else Plays(attempts, states, n + 1) && states[n + 1].attempt == states[n].attempt
                 && states[n + 1].allow == Some(states[n].allow.value - {key})
                 && states[n + 1].lastAction == ProbeDisabled
  {
    TurnsLead(env, attempts, retries, allowed, states, tries, end, n);
    var pick := env.pick(n, states[n].x, states[n].allow);
    var q := TriesOfAKey(env, n, retries, pick.recovery, 0);
    LastTryIsOne(env, n, retries, pick.recovery, r, q);
    hide TryFrom, LastTry, Left, Exclude;
    assert states[n].allow.value <= {pick.key} <==> states[n].allow.value - {pick.key} == {};
  }

  /** The last resort: when a transient failure has left nothing to pick, and the time allows it, the
      next round starts with no exclusions; that happens once.  Otherwise there is no route. */
  lemma ResortsOnce(env: Env, attempts: nat, retries: nat, allowed: Option<set<nat>>, states: seq<Loop>,
                    tries: seq<Try>, end: End, n: nat)
    requires IsRun(env, attempts, retries, allowed, states) && EndsAs(env, attempts, retries, states, tries, end)
    requires Plays(attempts, states, n) && env.pick(n, states[n].x, states[n].allow) == NoUpstream
    ensures var s := states[n];
            if s.attempt > 0 && !s.resorted && (s.lastAction.FirstTokenTimeout? || s.lastAction.TransportFailure?
                                                || s.lastAction.UpstreamTimeout?)
               && (s.x.keys != [] || s.x.providers != [] || s.x.keyModels != []) && env.clock(n) < 285000
            then GoesOn(states, n, s.(resorted := true, x := Exclusions([], [], [])))
            else EndsWith(states, n, end, NoRoute)
  {
    TurnsLead(env, attempts, retries, allowed, states, tries, end, n);
  }

  /** A refused admission is repeated with the same exclusions and attempts, as long as there is
      time and the client stays. */
  lemma SelectsAgain(env: Env, attempts: nat, retries: nat, allowed: Option<set<nat>>, states: seq<Loop>,
                     tries: seq<Try>, end: End, n: nat)
    requires IsRun(env, attempts, retries, allowed, states) && EndsAs(env, attempts, retries, states, tries, end)
    requires Plays(attempts, states, n) && env.pick(n, states[n].x, states[n].allow).Picked?
    requires env.admit(n) == Unavailable
    ensures if !Rejoins(env, n) then EndsWith(states, n, end, RecoveryPending)
            else if env.goneWhileReselecting(n) then EndsWith(states, n, end, Interrupted)
            else GoesOn(states, n, states[n])
  {
    TurnsLead(env, attempts, retries, allowed, states, tries, end, n);
  }

  // ----------------------------------------------------------- what every end means

  /** The last round of the run, when it tried a key: try r was its last. */
  ghost predicate LastTried(env: Env, attempts: nat, retries: nat, states: seq<Loop>, r: nat)
    requires states != []
  {
    var n := |states| - 1;
    Plays(attempts, states, n) && Tries(env, retries, states[n], n, r)
  }

  /** The try failed, was not to be repeated, and was a local skip. */
  predicate Skips(env: Env, t: nat, retries: nat, recovery: bool, r: nat) {
    !env.forward(t, r).ok && !Left(env, t, retries, recovery, r) && env.forward(t, r).action == ProbeDisabled
  }

  /** The try failed, was not to be repeated, reached the upstream, and no other key may be tried. */
  predicate Rejects(env: Env, t: nat, retries: nat, recovery: bool, r: nat) {
    && !env.forward(t, r).ok && !Left(env, t, retries, recovery, r)
    && env.forward(t, r).action != ProbeDisabled && !env.forward(t, r).failOver
  }

  /** What is on record of a round that tried the picked key with this outcome. */
  function TryOf(s: Loop, pick: Pick, o: Outcome): Try
    requires pick.Picked?
  {
    Try(pick.key, pick.provider, o.scope, o.action == ProbeDisabled, o.ok, s.resorted)
  }

  /** How a round that tries a key ends, if it does, by its last try alone. */
  lemma TriedRoundEnds(env: Env, retries: nat, s: Loop, n: nat, r: nat)
    requires Tries(env, retries, s, n, r)
    ensures var pick, turn := env.pick(n, s.x, s.allow), Round(env, retries, s, n);
            && turn.tried == Some(TryOf(s, pick, env.forward(n, r)))
            && (turn.Stop? ==> turn.end.Served? || turn.end.Interrupted? || turn.end.AllProbesDisabled?
                               || turn.end.Refused?)
            && (turn.Stop? && turn.end.Served? <==> env.forward(n, r).ok)
            && (turn.Stop? && turn.end.Interrupted? <==> Left(env, n, retries, pick.recovery, r))
            && (turn.Stop? && turn.end.AllProbesDisabled? <==>
                  Skips(env, n, retries, pick.recovery, r) && s.allow.Some? && s.allow.value <= {pick.key})
            && (turn.Stop? && turn.end.Refused? <==> Rejects(env, n, retries, pick.recovery, r))
  {
    var pick := env.pick(n, s.x, s.allow);
    var q := TriesOfAKey(env, n, retries, pick.recovery, 0);
    LastTryIsOne(env, n, retries, pick.recovery, r, q);
    hide TryFrom, LastTry, Exclude;
    assert s.allow.Some? ==> (s.allow.value <= {pick.key} <==> s.allow.value - {pick.key} == {});
  }

  /** The ends of rounds that try nothing. */
  lemma IdleRoundEnds(env: Env, retries: nat, s: Loop, n: nat)
    requires Round(env, retries, s, n).Stop?
    ensures var pick, turn := env.pick(n, s.x, s.allow), Round(env, retries, s, n);
            && !turn.end.GaveUp?
            && (turn.end.Cancelled? <==> pick == PickFailed(true))
            && (turn.end.PickerError? <==> pick == PickFailed(false))
            && (turn.end.NoRoute? <==> pick.NoUpstream?)
            && (turn.end.RoutingBroken? <==> pick.Picked? && env.admit(n) == Broken)
            && (turn.end.RecoveryPending? <==> pick.Picked? && env.admit(n) == Unavailable && !Rejoins(env, n))
            && (!(pick.Picked? && env.admit(n) == Admitted) ==>
                  && !turn.end.Served? && !turn.end.AllProbesDisabled? && !turn.end.Refused?
                  && (turn.end.Interrupted? <==> pick.Picked? && Rejoins(env, n) && env.goneWhileReselecting(n)))
  {
    hide TryFrom, Exclude;
  }

  /** What the last round met, for every end. */
  ghost predicate EndMeans(env: Env, attempts: nat, retries: nat, states: seq<Loop>, end: End)
    requires states != []
  {
    var n := |states| - 1;
    var s := states[n];
    var plays := s.attempt < attempts;
    var pick := env.pick(n, s.x, s.allow);
    && (end.GaveUp? <==> !plays)
    && (end.Cancelled? <==> plays && pick == PickFailed(true))
    && (end.PickerError? <==> plays && pick == PickFailed(false))
    && (end.NoRoute? <==> plays && pick.NoUpstream?)
    && (end.RoutingBroken? <==> plays && pick.Picked? && env.admit(n) == Broken)
    && (end.RecoveryPending? <==> plays && pick.Picked? && env.admit(n) == Unavailable && !Rejoins(env, n))
    && (end.Served? <==> exists r :: LastTried(env, attempts, retries, states, r) && env.forward(n, r).ok)
    && (end.Interrupted? <==>
          || (plays && pick.Picked? && Rejoins(env, n) && env.goneWhileReselecting(n))
          || exists r :: LastTried(env, attempts, retries, states, r) && Left(env, n, retries, pick.recovery, r))
    && (end.AllProbesDisabled? <==>
          && pick.Picked? && s.allow.Some? && s.allow.value <= {pick.key}
          && exists r :: LastTried(env, attempts, retries, states, r) && Skips(env, n, retries, pick.recovery, r))
    && (end.Refused? <==>
          exists r :: LastTried(env, attempts, retries, states, r) && Rejects(env, n, retries, pick.recovery, r))
  }

  /** Every end, by what the last round met.  A request is served exactly when its last try
      succeeded; it is refused exactly when that try failed for good; it is interrupted exactly when
      its client left, between two tries or while a key was selected again; and it gives up exactly
      when the attempts are used up. */
  lemma EndsExactly(env: Env, attempts: nat, retries: nat, allowed: Option<set<nat>>, states: seq<Loop>,
                    tries: seq<Try>, end: End)
    requires IsRun(env, attempts, retries, allowed, states) && EndsAs(env, attempts, retries, states, tries, end)
    ensures EndMeans(env, attempts, retries, states, end)
  {
    var n := |states| - 1;
    var s := states[n];
    hide Round, TriedIn, IsRun, LastTry, Left, Skips, Rejects;
    if s.attempt < attempts {
      IdleRoundEnds(env, retries, s, n);
      var pick := env.pick(n, s.x, s.allow);
      if pick.Picked? && env.admit(n) == Admitted {
        var r := TriesOfAKey(env, n, retries, pick.recovery, 0);
        assert LastTried(env, attempts, retries, states, r);
        forall q | LastTried(env, attempts, retries, states, q) ensures q == r {
          LastTryIsOne(env, n, retries, pick.recovery, q, r);
        }
        TriedRoundEnds(env, retries, s, n, r);
      }
    }
  }

  // ------------------------------------------------------------------- whole runs

  /** A round sends what its tries sent, and nothing when it tries no key. */
  lemma SendsAreTries(env: Env, retries: nat, s: Loop, n: nat, r: nat)
    ensures Tries(env, retries, s, n, r) ==> RoundSends(env, retries, s, n) == |SentTries(env, n, 0, r)|
    ensures !(env.pick(n, s.x, s.allow).Picked? && env.admit(n) == Admitted) ==> RoundSends(env, retries, s, n) == 0
  {
    if Tries(env, retries, s, n, r) {
      var pick := env.pick(n, s.x, s.allow);
      var q := TriesOfAKey(env, n, retries, pick.recovery, 0);
      LastTryIsOne(env, n, retries, pick.recovery, r, q);
    }
  }

  /** The round tries a key that fails, and the request may fail over from it. */
  ghost predicate FailsAt(env: Env, retries: nat, s: Loop, n: nat, r: nat) {
    && Tries(env, retries, s, n, r)
    && !env.forward(n, r).ok && env.forward(n, r).failOver && env.forward(n, r).action != ProbeDisabled
    && !Left(env, n, retries, env.pick(n, s.x, s.allow).recovery, r)
  }

  ghost predicate KeyFails(env: Env, retries: nat, s: Loop, n: nat) {
    exists r :: FailsAt(env, retries, s, n, r)
  }

  /** While every key fails over, the request goes through one key after the other: round k is
      reached, with k attempts used up, and after the last attempt it gives up. */
  lemma {:induction false} GoesThroughTheKeys(env: Env, attempts: nat, retries: nat, allowed: Option<set<nat>>,
                                              states: seq<Loop>, tries: seq<Try>, end: End, k: nat)
    requires IsRun(env, attempts, retries, allowed, states) && EndsAs(env, attempts, retries, states, tries, end)
    requires k <= attempts
    requires forall n :: 0 <= n < k && n < |states| ==> KeyFails(env, retries, states[n], n)
    ensures k < |states| && states[k].attempt == k
    ensures k == attempts ==> end.GaveUp? && |states| == k + 1
  {
    if k > 0 {
      GoesThroughTheKeys(env, attempts, retries, allowed, states, tries, end, k - 1);
      assert KeyFails(env, retries, states[k - 1], k - 1);
      var r :| FailsAt(env, retries, states[k - 1], k - 1, r);
      hide EndsAs, IsRun, Round;
      FailsOver(env, attempts, retries, allowed, states, tries, end, k - 1, r);
    }
    PlayedBefore(env, attempts, retries, allowed, states, k);
  }

  predicate Lists(x: Exclusions, scope: Scope, id: nat) {
    match scope
    case NoScope => false
    case KeyScope => id in x.keys
    case KeyModelScope => id in x.keyModels
    case ProviderScope => id in x.providers
  }

  /** The try ruled this key or provider out, in this half of the run. */
  predicate Names(a: Try, resorted: bool, scope: Scope, id: nat) {
    a.resorted == resorted && a.scope == scope && scope != NoScope
    && id == if scope == ProviderScope then a.provider else a.key
  }

  ghost predicate Named(tries: seq<Try>, resorted: bool, scope: Scope, id: nat) {
    exists i :: 0 <= i < |tries| && Names(tries[i], resorted, scope, id)
  }

  lemma NamedOneMore(tries: seq<Try>, a: Try, resorted: bool, scope: Scope, id: nat)
    ensures Named(tries + [a], resorted, scope, id)
            <==> Named(tries, resorted, scope, id) || Names(a, resorted, scope, id)
  {
    hide Names;
    var all := tries + [a];
    if Named(tries, resorted, scope, id) {
      var i :| 0 <= i < |tries| && Names(tries[i], resorted, scope, id);
      assert all[i] == tries[i];
    }
    assert all[|tries|] == a;
    if Named(all, resorted, scope, id) && !Names(a, resorted, scope, id) {
      var i :| 0 <= i < |all| && Names(all[i], resorted, scope, id);
      assert tries[i] == all[i];
    }
  }

  lemma ExcludeLists(x: Exclusions, a: Try, scope: Scope, id: nat)
    ensures Lists(Exclude(x, a), scope, id) <==> Lists(x, scope, id) || Names(a, a.resorted, scope, id)
  {
  }

  /** The state is what these tries led to. */
  ghost predicate Accounts(s: Loop, tries: seq<Try>) {
    && (forall scope, id :: Lists(s.x, scope, id) <==> Named(tries, s.resorted, scope, id))
    && (forall i :: 0 <= i < |tries| ==> (tries[i].resorted ==> s.resorted))
    && s.attempt == Spent(tries)
  }

  lemma AccountsOneMore(s: Loop, next: Loop, tries: seq<Try>, a: Try)
    requires Accounts(s, tries) && a.resorted == s.resorted && TriedShape(s, next, a)
    ensures Accounts(next, tries + [a])
  {
    hide Named, Lists, Names, Exclude;
    assert (tries + [a])[..|tries|] == tries;
    forall scope, id ensures Lists(next.x, scope, id) <==> Named(tries + [a], next.resorted, scope, id) {
      NamedOneMore(tries, a, next.resorted, scope, id);
      ExcludeLists(s.x, a, scope, id);
    }
  }

  lemma AccountsAfresh(s: Loop, tries: seq<Try>)
    requires Accounts(s, tries) && !s.resorted
    ensures Accounts(s.(resorted := true, x := NO_EXCLUSIONS), tries)
  {
    hide Named, Lists, Names, Spent;
    forall scope, id ensures !Lists(NO_EXCLUSIONS, scope, id) && !Named(tries, true, scope, id) {
      NothingNamedYet(tries, scope, id);
    }
  }

  /** In every round the exclusions are those that the failures since the last resort made, no more
      and no fewer, and the attempts used up are the tries that were no local skip. */
  lemma {:induction false} ExcludesExactly(env: Env, attempts: nat, retries: nat, allowed: Option<set<nat>>,
                                           states: seq<Loop>, n: nat)
    requires IsRun(env, attempts, retries, allowed, states) && n < |states|
    ensures Accounts(states[n], TriedIn(env, retries, states, n))
  {
    hide Accounts, TriedShape, Round;
    if n == 0 {
      NothingYetToAccount(states[0]);
    } else {
      ExcludesExactly(env, attempts, retries, allowed, states, n - 1);
      assert LeadsTo(env, attempts, retries, states, n - 1);
      var s, tries := states[n - 1], TriedIn(env, retries, states, n - 1);
      RoundShape(env, retries, s, n - 1);
      RoundResorts(env, retries, s, n - 1);
      var tried := Round(env, retries, s, n - 1).tried;
      if tried.Some? {
        AccountsOneMore(s, states[n], tries, tried.value);
      } else {
        assert tries + [] == tries;
        if states[n] != s {
          AccountsAfresh(s, tries);
        }
      }
    }
  }

  lemma RoundResorts(env: Env, retries: nat, s: Loop, t: nat)
    ensures var tried := Round(env, retries, s, t).tried; tried.Some? ==> tried.value.resorted == s.resorted
  {
    hide TryFrom, Exclude;
  }

  lemma NothingYetToAccount(s: Loop)
    requires s.x == NO_EXCLUSIONS && s.attempt == 0
    ensures Accounts(s, [])
  {
    forall scope, id ensures !Lists(NO_EXCLUSIONS, scope, id) && !Named([], s.resorted, scope, id) {}
  }

  lemma NothingNamedYet(tries: seq<Try>, scope: Scope, id: nat)
    requires forall i :: 0 <= i < |tries| ==> !tries[i].resorted
    ensures !Lists(NO_EXCLUSIONS, scope, id) && !Named(tries, true, scope, id)
  {
  }
}
