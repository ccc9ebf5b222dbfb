/** How long an open gate stays closed to traffic, and how often it is checked. */
module CircuitCooldowns {
  import opened Wrappers
  import opened Circuits

  /** The configured cooldown, doubled n times. */
  function Doubled(cfg: Settings, n: nat): int { if n == 0 then cfg.cooldownSec else 2 * Doubled(cfg, n - 1) }

  /** A gate opened at each of the given moments, without a hint from the upstream how long to
      wait and without being closed in between. */
  function Reopened(r: Circuit, at: seq<Time>, reason: string, cfg: Settings): Circuit {
    if at == [] then r else Open(Reopened(r, at[..|at| - 1], reason, cfg), at[|at| - 1], reason, 0, cfg)
  }

  /** Each opening at least doubles the cooldown, up to the maximum and never beyond it; a
      closed gate starts from the configured cooldown. */
  lemma {:induction false} CooldownLadder(r: Circuit, at: seq<Time>, reason: string, cfg: Settings)
    requires Normalized(cfg) && !r.open && at != []
    ensures var o := Reopened(r, at, reason, cfg);
            && o.open && o.until == at[|at| - 1] + o.backoffSec * 1000
            && Min(Doubled(cfg, |at| - 1), cfg.maxCooldownSec) <= o.backoffSec <= cfg.maxCooldownSec
            && (|at| == 1 ==> o.backoffSec == cfg.cooldownSec)
            && o.generation == r.generation + |at|
  {
    var n := |at| - 1;
    var before := Reopened(r, at[..n], reason, cfg);
    OpenDoubles(before, at[n], reason, cfg);
    hide Open;
    if n > 0 {
      CooldownLadder(r, at[..n], reason, cfg);
      DoubledGrows(cfg, 0, n - 1);
    }
  }

  lemma OpenDoubles(r: Circuit, now: Time, reason: string, cfg: Settings)
    requires Normalized(cfg)
    ensures var o := Open(r, now, reason, 0, cfg);
            && o.open && o.generation == r.generation + 1 && o.until == now + o.backoffSec * 1000
            && (!r.open ==> o.backoffSec == cfg.cooldownSec)
            && (r.open && r.backoffSec > 0 ==>
                  Min(2 * r.backoffSec, cfg.maxCooldownSec) <= o.backoffSec <= cfg.maxCooldownSec)
  {
  }

  lemma {:induction false} DoubledGrows(cfg: Settings, m: nat, n: nat)
    requires m <= n && cfg.cooldownSec > 0
    ensures 0 < Doubled(cfg, m) <= Doubled(cfg, n)
    decreases n
  {
    if m < n {
      DoubledGrows(cfg, m, n - 1);
    } else if n > 0 {
      DoubledGrows(cfg, m - 1, n - 1);
    }
  }

  lemma FourDoublings(cfg: Settings, n: nat)
    ensures Doubled(cfg, n + 4) == 16 * Doubled(cfg, n)
  {
    assert Doubled(cfg, n + 2) == 2 * Doubled(cfg, n + 1) == 4 * Doubled(cfg, n);
    assert Doubled(cfg, n + 4) == 2 * Doubled(cfg, n + 3) == 4 * Doubled(cfg, n + 2);
  }

  /** Thirteen openings in a row reach the maximum, whatever the settings. */
  lemma CooldownSaturates(r: Circuit, at: seq<Time>, reason: string, cfg: Settings)
    requires Normalized(cfg) && !r.open && |at| >= 13
    ensures Reopened(r, at, reason, cfg).backoffSec == cfg.maxCooldownSec
  {
    hide Reopened;
    CooldownLadder(r, at, reason, cfg);
    DoubledGrows(cfg, 12, |at| - 1);
    FourDoublings(cfg, 0);
    FourDoublings(cfg, 4);
    FourDoublings(cfg, 8);
  }

  /** A hint from the upstream is honoured to the second, rounded up. */
  lemma HintIsHonoured(r: Circuit, now: Time, reason: string, retryAfter: int, cfg: Settings)
    requires Normalized(cfg) && retryAfter > 0
    ensures now + retryAfter <= Open(r, now, reason, retryAfter, cfg).until < now + retryAfter + 1000
  {
  }

  /** A gate whose check failed at each of the given moments. */
  function Failing(r: Circuit, at: seq<Time>): Circuit {
    if at == [] then r else FinishRow(Failing(r, at[..|at| - 1]), false, false, "", 0, at[|at| - 1])
  }

  /** Failed checks are repeated after 1, 30, 60 and then every 90 seconds. */
  lemma {:induction false} CheckLadder(r: Circuit, at: seq<Time>)
    requires r.checkBackoff == 0 && at != []
    ensures var f, n := Failing(r, at), |at|;
            && f.checkBackoff == (if n == 1 then 1 else if n == 2 then 30 else if n == 3 then 60 else 90)
            && f.nextCheckAt == Some(at[n - 1] + f.checkBackoff * 1000)
            && f.open == r.open && f.generation == r.generation && !f.checkOK
  {
    if |at| > 1 {
      CheckLadder(r, at[..|at| - 1]);
    }
  }
}
