/** The routing circuit rows and what one transaction of the protocol does to them.

    Each SQL transaction is one function from the stored rows to the new rows; an error
    keeps the old rows.  Time is in milliseconds, with 0 for Go's zero time, and a token
    is a number with 0 for the empty string.  The hashed scope of a dimension is modelled
    by the dimension itself. */
module Circuits {
  import opened Wrappers

  type Time = nat
  type Token = nat

  datatype Dimension = Dimension(keyId: nat, protocol: string, model: string, path: string, stream: bool)

  datatype Scope = KeyScope(id: nat) | DimScope(dim: Dimension)

  function KeyOf(s: Scope): nat {
    match s
    case KeyScope(id) => id
    case DimScope(d) => d.keyId
  }

  datatype Circuit = Circuit(
    generation: nat,
    keyId: nat,
    open: bool,
    failures: nat,
    failureTimes: seq<Time>,
    attemptTimes: seq<Time>,
    openedAt: Time,
    until: Time,
    backoffSec: int,
    reason: string,
    lease: Token,
    leaseUntil: Time,
    target: Dimension,
    recoveryAt: Option<Time>,
    checkLease: Token,
    checkUntil: Option<Time>,
    checkAt: Option<Time>,
    checkOK: bool,
    checkError: string,
    nextCheckAt: Option<Time>,
    checkBackoff: int)

  type Rows = map<Scope, Circuit>

  datatype Admission = Admission(token: Token, generations: map<Scope, nat>)

  datatype Outcome = Outcome(
    admission: Option<Admission>,
    requestId: string,
    startedAt: Time,
    success: bool,
    neutral: bool,
    authFailure: bool,
    limited: bool,
    immediate: bool,
    retryAfter: int,
    reason: string)

  datatype Fault = Unavailable | CheckCapacity | NotFound

  const BUSINESS_LEASE_MS: nat := 330000
  const CHECK_LEASE_MS: nat := 45000
  const MAX_TRACKED_ATTEMPTS: nat := 120
  const MAX_TRACKED_FAILURES: nat := 64
  const MAX_FAILURE_THRESHOLD: int := 8
  const SUSTAINED_MIN_ATTEMPTS: nat := 8
  const SUSTAINED_FAILURE_SHARE: real := 0.4
  const DEFAULT_CHECK_CONCURRENCY: nat := 8
  const CHECK_BACKOFF_BASE_SEC: int := 30
  const CHECK_BACKOFF_MAX_SEC: int := 90
  const FIRST_TOKEN_TIMEOUT: string := "first_token_timeout"
  const QUOTA_EXHAUSTED: string := "key_quota_exhausted"

  // ------------------------------------------------------------------ settings

  datatype Settings = Settings(
    windowSec: int,
    failureThreshold: int,
    cooldownSec: int,
    maxCooldownSec: int,
    rateFactor: real,
    fttWeight: int)

  function Max(a: int, b: int): int { if a < b then b else a }
  function Min(a: int, b: int): int { if a < b then a else b }

  predicate Normalized(s: Settings) {
    && 0 < s.windowSec <= 3600
    && 0 < s.failureThreshold <= 100
    && 0 < s.cooldownSec <= 600
    && s.cooldownSec <= s.maxCooldownSec <= 3600
    && 0.0 <= s.rateFactor <= 1.0
    && 1 <= s.fttWeight <= 10
  }

  function Normalize(s: Settings): (r: Settings)
    ensures Normalized(r)
    ensures Normalized(s) ==> r == s
  {
    var window := if s.windowSec <= 0 || s.windowSec > 3600 then 60 else s.windowSec;
    var threshold := if s.failureThreshold <= 0 || s.failureThreshold > 100 then 3 else s.failureThreshold;
    var cooldown := if s.cooldownSec <= 0 || s.cooldownSec > 600 then 30 else s.cooldownSec;
    var maxCooldown :=
      if s.maxCooldownSec < cooldown || s.maxCooldownSec > 3600 then Max(300, cooldown) else s.maxCooldownSec;
    var factor := if s.rateFactor < 0.0 then 0.0 else if s.rateFactor > 1.0 then 1.0 else s.rateFactor;
    var weight := if s.fttWeight <= 0 then 1 else if s.fttWeight > 10 then 10 else s.fttWeight;
    Settings(window, threshold, cooldown, maxCooldown, factor, weight)
  }

  function CheckLimit(configured: int): (limit: nat)
    ensures 1 <= limit <= 64
  {
    if 1 <= configured <= 64 then configured else DEFAULT_CHECK_CONCURRENCY
  }

  // ------------------------------------------------------------------ liveness

  predicate After(t: Option<Time>, now: Time) { t.Some? && t.value > now }

  predicate LeaseLive(r: Circuit, now: Time) { r.leaseUntil > now }

  predicate CheckLive(r: Circuit, now: Time) { After(r.checkUntil, now) }

  predicate Holding(r: Circuit, now: Time) { LeaseLive(r, now) || CheckLive(r, now) }

  function LiveChecks(rows: Rows, now: Time): set<Scope> {
    set s | s in rows && CheckLive(rows[s], now)
  }

  function FreshRow(d: Dimension): Circuit {
    Circuit(0, d.keyId, false, 0, [], [], 0, 0, 0, "", 0, 0, d, None, 0, None, None, false, "", None, 0)
  }

  /** Reads a row for update, inserting it first when it does not exist. */
  function Lock(rows: Rows, d: Dimension, s: Scope): (r: Rows)
    ensures s in r && r.Keys == rows.Keys + {s}
  {
    if s in rows then rows else rows[s := FreshRow(d)]
  }

  // ---------------------------------------------------------- opening, closing

  function Close(r: Circuit, now: Time): Circuit {
    r.(generation := r.generation + 1, open := false, openedAt := now, until := 0,
       failures := 0, backoffSec := 0, failureTimes := [], attemptTimes := [],
       reason := "", lease := 0, checkLease := 0, leaseUntil := 0,
       checkUntil := None, nextCheckAt := None, checkBackoff := 0)
  }

  function CooldownSeconds(r: Circuit, retryAfter: int, cfg: Settings): int {
    if retryAfter > 0 then Max(1, (retryAfter + 999) / 1000)
    else if r.open && r.backoffSec > 0 then
      var doubled := Min(Max(r.backoffSec, cfg.cooldownSec) * 2, cfg.maxCooldownSec);
      if doubled > cfg.maxCooldownSec / 2 then cfg.maxCooldownSec else doubled
    else cfg.cooldownSec
  }

  function Open(r: Circuit, now: Time, reason: string, retryAfter: int, cfg: Settings): Circuit {
    var seconds := CooldownSeconds(r, retryAfter, cfg);
    r.(open := true, generation := r.generation + 1, backoffSec := Min(seconds, cfg.maxCooldownSec),
       openedAt := now, until := if seconds > 0 then now + seconds * 1000 else now, reason := reason,
       lease := 0, leaseUntil := 0, checkOK := false, checkLease := 0, checkUntil := None,
       nextCheckAt := None, checkBackoff := 0)
  }

  // ------------------------------------------------------------------- windows

  function Above(times: seq<Time>, cut: int): seq<Time> {
    if times == [] then []
    else if times[0] > cut then [times[0]] + Above(times[1..], cut)
    else Above(times[1..], cut)
  }

  function LastN<T>(s: seq<T>, n: nat): seq<T> {
    if |s| > n then s[|s| - n..] else s
  }

  function Copies(at: Time, n: nat): (r: seq<Time>)
    ensures |r| == n && forall i :: 0 <= i < n ==> r[i] == at
  {
    seq(n, _ => at)
  }

  function Track(times: seq<Time>, at: Time, cut: int, cap: nat): seq<Time> {
    LastN(Above(times, cut) + (if at != 0 then [at] else []), cap)
  }

  function Cut(now: Time, cfg: Settings): int { now - cfg.windowSec * 1000 }

  function Ceil(x: real): int { -((-x).Floor) }

  function Threshold(attempts: nat, cfg: Settings): int {
    if cfg.rateFactor > 0.0 && attempts > 0 then
      Min(Max(Ceil(attempts as real * cfg.rateFactor), cfg.failureThreshold), MAX_FAILURE_THRESHOLD)
    else cfg.failureThreshold
  }

  predicate Sustained(attempts: nat, failures: nat) {
    attempts >= SUSTAINED_MIN_ATTEMPTS && failures as real >= attempts as real * SUSTAINED_FAILURE_SHARE
  }

  // --------------------------------------------------------------------- admit

  predicate OtherHolds(rows: Rows, key: nat, except: Scope, now: Time) {
    exists s :: s in rows && s != except && rows[s].keyId == key && Holding(rows[s], now)
  }

  function AdmitGate(rows: Rows, d: Dimension, s: Scope, recovery: bool, now: Time, token: Token): Option<Rows> {
    var locked := Lock(rows, d, s);
    var r := locked[s];
    if !r.open then Some(locked)
    else if !recovery || r.until > now || Holding(r, now) then None
    else if s == KeyScope(d.keyId) && OtherHolds(locked, d.keyId, s, now) then None
    else Some(locked[s := r.(lease := token, leaseUntil := now + BUSINESS_LEASE_MS, recoveryAt := Some(now))])
  }

  function Admit(rows: Rows, d: Dimension, recovery: bool, now: Time, token: Token): Option<(Rows, Admission)> {
    var key, dim := KeyScope(d.keyId), DimScope(d);
    match AdmitGate(rows, d, key, recovery, now, token)
    case None => None
    case Some(first) =>
      match AdmitGate(first, d, dim, recovery, now, token)
      case None => None
      case Some(second) =>
        var generations := map[key := Lock(rows, d, key)[key].generation, dim := Lock(first, d, dim)[dim].generation];
        Some((second, Admission(token, generations)))
  }

  // --------------------------------------------------------- release on output

  predicate OwnsOpenGate(r: Circuit, s: Scope, a: Admission, now: Time) {
    && s in a.generations
    && r.generation == a.generations[s]
    && r.open
    && r.lease == a.token
    && LeaseLive(r, now)
  }

  function ReleaseGate(rows: Rows, d: Dimension, s: Scope, a: Admission, now: Time): Rows {
    var locked := Lock(rows, d, s);
    if OwnsOpenGate(locked[s], s, a, now) then locked[s := Close(locked[s], now)] else locked
  }

  /** The new rows and the admission with the generations of the gates it closed. */
  function ReleaseOnOutput(rows: Rows, d: Dimension, a: Admission, now: Time): (Rows, Admission) {
    if a.token == 0 then (rows, a)
    else
      var key, dim := KeyScope(d.keyId), DimScope(d);
      var first := ReleaseGate(rows, d, key, a, now);
      var second := ReleaseGate(first, d, dim, a, now);
      var afterKey :=
        if OwnsOpenGate(Lock(rows, d, key)[key], key, a, now) then a.generations[key := first[key].generation]
        else a.generations;
      var afterDim :=
        if OwnsOpenGate(Lock(first, d, dim)[dim], dim, a, now) then afterKey[dim := second[dim].generation]
        else afterKey;
      (second, a.(generations := afterDim))
  }

  // ------------------------------------------------------------------- observe

  predicate Owned(r: Circuit, token: Token, now: Time) {
    r.lease != 0 && r.lease == token && LeaseLive(r, now)
  }

  /** Whether the outcome is about this gate as it is now. */
  predicate Applies(r: Circuit, s: Scope, token: Token, o: Outcome, now: Time) {
    && (match o.admission
        case Some(a) => s in a.generations && a.generations[s] == r.generation && (r.open ==> Owned(r, token, now))
        case None => Owned(r, token, now) || o.startedAt >= r.openedAt)
    && !(r.open && !Owned(r, token, now) && r.lease != 0)
  }

  function DropHolds(r: Circuit): Circuit {
    r.(lease := 0, leaseUntil := 0, checkLease := 0, checkUntil := None)
  }

  function Succeed(r: Circuit, s: Scope, token: Token, now: Time, cfg: Settings): Circuit {
    var tracked :=
      if s.DimScope? then r.(attemptTimes := Track(r.attemptTimes, now, Cut(now, cfg), MAX_TRACKED_ATTEMPTS)) else r;
    if r.open && !Owned(r, token, now) then tracked
    else
      var closed := if r.open then Close(tracked, now) else tracked;
      DropHolds(closed.(failures := 0, failureTimes := [], backoffSec := 0, reason := ""))
  }

  function Weight(o: Outcome, cfg: Settings): nat {
    if o.reason == FIRST_TOKEN_TIMEOUT && cfg.fttWeight > 1 then cfg.fttWeight else 1
  }

  function RecordFailure(r: Circuit, o: Outcome, now: Time, cfg: Settings): Circuit {
    var cut := Cut(now, cfg);
    var times := Track(Above(r.failureTimes, cut) + Copies(now, Weight(o, cfg)), 0, cut, MAX_TRACKED_FAILURES);
    r.(attemptTimes := Track(r.attemptTimes, now, cut, MAX_TRACKED_ATTEMPTS),
       failureTimes := times, failures := |times|)
  }

  function Fail(r: Circuit, s: Scope, d: Dimension, token: Token, o: Outcome, now: Time, cfg: Settings): Circuit {
    var owned := Owned(r, token, now);
    if s.KeyScope? then
      if o.authFailure || owned then Open(r.(target := d), now, o.reason, o.retryAfter, cfg) else r
    else if owned || !o.authFailure then
      var recorded := RecordFailure(r, o, now, cfg);
      if owned || o.limited || o.immediate
         || recorded.failures >= Threshold(|recorded.attemptTimes|, cfg)
         || Sustained(|recorded.attemptTimes|, recorded.failures)
      then Open(recorded, now, o.reason, o.retryAfter, cfg)
      else recorded
    else r
  }

  function ObserveRow(r: Circuit, s: Scope, d: Dimension, token: Token, o: Outcome, now: Time, cfg: Settings): Circuit {
    if !Applies(r, s, token, o, now) then r
    else if o.neutral then if Owned(r, token, now) then DropHolds(r) else r
    else if o.success then Succeed(r, s, token, now, cfg)
    else Fail(r, s, d, token, o, now, cfg)
  }

  predicate AlreadySeen(observed: set<(Scope, string)>, d: Dimension, o: Outcome) {
    o.requestId != "" && (DimScope(d), o.requestId) in observed
  }

  function ObserveLocked(rows: Rows, d: Dimension): (r: Rows)
    ensures KeyScope(d.keyId) in r && DimScope(d) in r
  {
    Lock(Lock(rows, d, KeyScope(d.keyId)), d, DimScope(d))
  }

  function Observe(rows: Rows, observed: set<(Scope, string)>, d: Dimension, token: Token, o: Outcome, now: Time,
                   cfg: Settings): (Rows, set<(Scope, string)>)
  {
    var key, dim := KeyScope(d.keyId), DimScope(d);
    var locked := ObserveLocked(rows, d);
    if AlreadySeen(observed, d, o) then (locked, observed)
    else
      (locked[key := ObserveRow(locked[key], key, d, token, o, now, cfg)]
             [dim := ObserveRow(locked[dim], dim, d, token, o, now, cfg)],
       if o.requestId != "" then observed + {(dim, o.requestId)} else observed)
  }

  // ----------------------------------------------------------- synthetic check

  predicate CheckDelayed(r: Circuit, now: Time) { !r.checkOK && After(r.nextCheckAt, now) }

  predicate ClaimConflicts(rows: Rows, d: Dimension, s: Scope, now: Time) {
    exists t :: t in rows && rows[t].keyId == d.keyId && Holding(rows[t], now)
                && (s == KeyScope(d.keyId) || t == s || t == KeyScope(d.keyId))
  }

  function Claim(rows: Rows, limit: nat, s: Scope, d: Dimension, expected: Option<nat>, now: Time, token: Token)
    : Result<Rows, Fault>
  {
    var key := KeyScope(d.keyId);
    if |LiveChecks(rows, now)| >= limit then Err(CheckCapacity)
    else
      var locked := Lock(rows, d, key);
      var gate := locked[key];
      if s != key && gate.open && (gate.until > now || CheckDelayed(gate, now)) then Err(Unavailable)
      else if ClaimConflicts(locked, d, s, now) then Err(Unavailable)
      else if s !in locked then Err(NotFound)
      else
        var r := locked[s];
        if expected.Some? && r.generation != expected.value then Err(Unavailable)
        else if !r.open || r.until > now || Holding(r, now) || CheckDelayed(r, now) then Err(Unavailable)
        else Ok(locked[s := r.(checkLease := token, checkUntil := Some(now + CHECK_LEASE_MS), checkOK := false,
                               target := d)])
  }

  function NextBackoff(backoff: int): int {
    if backoff == 0 then 1
    else if backoff < CHECK_BACKOFF_BASE_SEC then CHECK_BACKOFF_BASE_SEC
    else Min(backoff * 2, CHECK_BACKOFF_MAX_SEC)
  }

  predicate CurrentCheck(r: Circuit, token: Token, now: Time) {
    r.open && r.checkLease == token && token != 0 && CheckLive(r, now)
  }

  function FinishRow(r: Circuit, success: bool, neutral: bool, message: string, retryAfter: int, now: Time): Circuit {
    var ok := success && !neutral;
    var settled := r.(checkLease := 0, checkUntil := None, checkAt := Some(now), checkOK := ok, checkError := message);
    if ok then Close(settled, now)
    else
      var backoff := if neutral then r.checkBackoff else NextBackoff(r.checkBackoff);
      var delay := Max(if neutral then 60000 else backoff * 1000, retryAfter);
      settled.(checkBackoff := backoff, nextCheckAt := Some(if delay > 0 then now + delay else now))
  }

  function Finish(rows: Rows, s: Scope, token: Token, success: bool, neutral: bool, message: string, retryAfter: int,
                  now: Time): Result<Rows, Fault>
  {
    if s !in rows then Err(NotFound)
    else if !CurrentCheck(rows[s], token, now) then Ok(rows)
    else Ok(rows[s := FinishRow(rows[s], success, neutral, message, retryAfter, now)])
  }

  // ----------------------------------------------------------- balance release

  predicate QuotaGate(r: Circuit, ids: set<nat>, checkedAfter: Time) {
    r.keyId in ids && r.open && r.reason == QUOTA_EXHAUSTED && r.openedAt <= checkedAfter
  }

  function BalanceReleaseRow(r: Circuit, now: Time): Circuit {
    r.(generation := r.generation + 1, open := false, openedAt := now, until := 0, reason := "",
       failures := 0, failureTimes := [], backoffSec := 0, lease := 0, leaseUntil := 0,
       checkLease := 0, checkUntil := None, checkOK := false, checkError := "", checkAt := None,
       nextCheckAt := None, checkBackoff := 0)
  }

  function BalanceRelease(rows: Rows, ids: set<nat>, checkedAfter: Time, now: Time): (r: Rows)
    ensures r.Keys == rows.Keys
  {
    map s | s in rows :: if QuotaGate(rows[s], ids, checkedAfter) then BalanceReleaseRow(rows[s], now) else rows[s]
  }
}
