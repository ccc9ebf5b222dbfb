/** The projected lifetime of a balance: a walk along the hours of the day, each with its share
    of the daily consumption, over exact reals. */
module Projection {
  const PROJECT_LIMIT: nat := 240

  /** The curve of consumption from now on: the current clock hour, the part of it that is left,
      the daily total and each clock hour's share of it. */
  datatype Curve = Curve(hour: nat, left: real, daily: real, share: seq<real>)

  predicate Plausible(c: Curve) {
    && c.hour < 24 && 0.0 < c.left <= 1.0 && |c.share| == 24
    && forall i :: 0 <= i < 24 ==> c.share[i] >= 0.0
  }

  // ------------------------------------------------------- consumption over time

  /** When the k-th clock hour of the walk begins, in hours from now. */
  function Start(c: Curve, k: nat): real { if k == 0 then 0.0 else c.left + (k - 1) as real }

  function Width(c: Curve, k: nat): real { if k == 0 then c.left else 1.0 }

  function Rate(c: Curve, k: nat): real
    requires Plausible(c)
  {
    c.daily * c.share[(c.hour + k) % 24]
  }

  /** What is consumed within `d` hours at the rate of the k-th clock hour. */
  function Part(c: Curve, k: nat, d: real): real
    requires Plausible(c)
  {
    Rate(c, k) * d
  }

  /** What is consumed before the k-th clock hour of the walk. */
  function Spent(c: Curve, k: nat): real
    requires Plausible(c)
  {
    if k == 0 then 0.0 else Spent(c, k - 1) + Part(c, k - 1, Width(c, k - 1))
  }

  function HourAt(c: Curve, t: real): nat
    requires t >= 0.0
  {
    if t < c.left then 0 else 1 + (t - c.left).Floor
  }

  /** What is consumed within the next `t` hours. */
  function BurnAt(c: Curve, t: real): real
    requires Plausible(c) && t >= 0.0
  {
    var k := HourAt(c, t);
    Spent(c, k) + Part(c, k, t - Start(c, k))
  }

  /** The end of the walk. */
  function End(c: Curve): real { Start(c, PROJECT_LIMIT) }

  /** The balance is first used up after exactly `r` hours. */
  ghost predicate RunsOutAt(c: Curve, balance: real, r: real)
    requires Plausible(c)
  {
    0.0 < r <= End(c) && BurnAt(c, r) == balance && forall t: real :: 0.0 <= t < r ==> BurnAt(c, t) < balance
  }

  ghost predicate IsProjection(c: Curve, balance: real, r: real)
    requires Plausible(c)
  {
    RunsOutAt(c, balance, r) || (r == PROJECT_LIMIT as real && BurnAt(c, End(c)) < balance)
  }

  // --------------------------------------------------------------------- the curve

  lemma PartGrows(c: Curve, k: nat, a: real, b: real)
    requires Plausible(c) && c.daily > 0.0 && 0.0 <= a <= b
    ensures 0.0 <= Part(c, k, a) <= Part(c, k, b)
    ensures a < b && Rate(c, k) > 0.0 ==> Part(c, k, a) < Part(c, k, b)
  {
    var x := Rate(c, k);
    assert x >= 0.0;
    hide Rate;
    assert x * (b - a) >= 0.0 && x * a >= 0.0;
    assert a < b && x > 0.0 ==> x * (b - a) > 0.0;
  }

  lemma HourContains(c: Curve, t: real)
    requires Plausible(c) && t >= 0.0
    ensures var k := HourAt(c, t); Start(c, k) <= t < Start(c, k + 1)
  {
  }

  lemma HourOf(c: Curve, k: nat, t: real)
    requires Plausible(c) && Start(c, k) <= t < Start(c, k + 1) && t >= 0.0
    ensures HourAt(c, t) == k
  {
  }

  lemma HoursFollow(c: Curve, k: nat)
    requires Plausible(c)
    ensures 0.0 <= Start(c, k) < Start(c, k + 1) == Start(c, k) + Width(c, k)
    ensures Spent(c, k + 1) == Spent(c, k) + Part(c, k, Width(c, k))
  {
    hide Part;
  }

  lemma {:induction false} SpentGrows(c: Curve, j: nat, k: nat)
    requires Plausible(c) && c.daily > 0.0 && j <= k
    ensures Spent(c, j) <= Spent(c, k)
    decreases k
  {
    hide Part, Plausible;
    if j < k {
      SpentGrows(c, j, k - 1);
      HoursFollow(c, k - 1);
      PartGrows(c, k - 1, 0.0, Width(c, k - 1));
    }
  }

  /** Within an hour of the walk the consumption lies between that before and that after it. */
  lemma BurnWithinHour(c: Curve, t: real)
    requires Plausible(c) && c.daily > 0.0 && t >= 0.0
    ensures var k := HourAt(c, t); Spent(c, k) <= BurnAt(c, t) <= Spent(c, k + 1)
  {
    hide Start, Width, HourAt, Plausible, Part, Spent;
    var k := HourAt(c, t);
    HourContains(c, t);
    HoursFollow(c, k);
    PartGrows(c, k, t - Start(c, k), Width(c, k));
  }

  lemma BurnGrows(c: Curve, s: real, t: real)
    requires Plausible(c) && c.daily > 0.0 && 0.0 <= s <= t
    ensures BurnAt(c, s) <= BurnAt(c, t)
  {
    var j, k := HourAt(c, s), HourAt(c, t);
    assert j <= k;
    hide HourAt, Start, Plausible, Part, Spent;
    BurnWithinHour(c, s);
    BurnWithinHour(c, t);
    if j < k {
      SpentGrows(c, j + 1, k);
    } else {
      HourContains(c, s);
      PartGrows(c, k, s - Start(c, k), t - Start(c, k));
    }
  }

  lemma BurnAtStart(c: Curve, k: nat)
    requires Plausible(c)
    ensures Start(c, k) >= 0.0 && BurnAt(c, Start(c, k)) == Spent(c, k)
  {
    hide HourAt, Start, Plausible, Rate, Spent;
    HoursFollow(c, k);
    HourOf(c, k, Start(c, k));
  }

  /** Where the balance runs out, given the hour of the walk in which it does. */
  lemma RunsOutInHour(c: Curve, balance: real, k: nat, r: real)
    requires Plausible(c) && c.daily > 0.0 && k < PROJECT_LIMIT
    requires Spent(c, k) < balance && Spent(c, k) + Part(c, k, r - Start(c, k)) == balance
    requires Rate(c, k) > 0.0 && Start(c, k) < r <= Start(c, k + 1)
    ensures RunsOutAt(c, balance, r)
  {
    assert Start(c, k + 1) <= End(c);
    hide HourAt, Start, Plausible, Rate, Part, Spent;
    HoursFollow(c, k);
    BurnAtStart(c, k);
    BurnAtStart(c, k + 1);
    if r < Start(c, k + 1) {
      HourOf(c, k, r);
    }
    forall t: real | 0.0 <= t < r ensures BurnAt(c, t) < balance {
      if t < Start(c, k) {
        BurnGrows(c, t, Start(c, k));
      } else {
        HourOf(c, k, t);
        PartGrows(c, k, t - Start(c, k), r - Start(c, k));
      }
    }
  }

  // -------------------------------------------------------------------- the walk

  /** What the part `w` of clock hour `h` consumes. */
  function BurnOf(c: Curve, h: nat, w: real): real
    requires Plausible(c) && h < 24
  {
    c.daily * c.share[h] * w
  }

  /** Walks the hours until the balance is used up. */
  method ProjectDiurnal(balance: real, c: Curve) returns (r: real)
    requires Plausible(c)
    ensures balance <= 0.0 || c.daily <= 0.0 ==> r == 0.0
    ensures balance > 0.0 && c.daily > 0.0 ==> IsProjection(c, balance, r)
  {
    if balance <= 0.0 || c.daily <= 0.0 {
      return 0.0;
    }
    hide Spent, IsProjection, BurnAt, Part, BurnOf, Start, Width;
    var w, h, used, elapsed := c.left, c.hour, 0.0, 0.0;
    NothingSpent(c);
    for step := 0 to PROJECT_LIMIT
      invariant h == (c.hour + step) % 24 && w == Width(c, step)
      invariant used == Spent(c, step) < balance && elapsed == Start(c, step)
    {
      HoursFollow(c, step);
      var burn := BurnOf(c, h, w);
      PartIs(c, step, w);
      if burn > 0.0 && used + burn >= balance {
        r := elapsed + w * ((balance - used) / burn);
        Crossing(c, balance, step, r);
        return;
      }
      used := used + burn;
      elapsed := elapsed + w;
      w := 1.0;
      h := (h + 1) % 24;
      NextHour(c, step);
    }
    r := PROJECT_LIMIT as real;
    NotUsedUp(c, balance);
  }

  lemma PartIs(c: Curve, k: nat, w: real)
    requires Plausible(c)
    ensures Part(c, k, w) == BurnOf(c, (c.hour + k) % 24, w)
  {
  }

  lemma NextHour(c: Curve, k: nat)
    ensures ((c.hour + k) % 24 + 1) % 24 == (c.hour + k + 1) % 24 && Width(c, k + 1) == 1.0
  {
  }

  lemma NothingSpent(c: Curve)
    requires Plausible(c)
    ensures Spent(c, 0) == 0.0 && Start(c, 0) == 0.0 && Width(c, 0) == c.left
  {
  }

  lemma NotUsedUp(c: Curve, balance: real)
    requires Plausible(c) && Spent(c, PROJECT_LIMIT) < balance
    ensures IsProjection(c, balance, PROJECT_LIMIT as real)
  {
    hide Spent, BurnAt;
    BurnAtStart(c, PROJECT_LIMIT);
  }

  lemma Crossing(c: Curve, balance: real, k: nat, r: real)
    requires Plausible(c) && c.daily > 0.0 && k < PROJECT_LIMIT && Spent(c, k) < balance
    requires var burn := Part(c, k, Width(c, k));
             && burn > 0.0 && Spent(c, k) + burn >= balance
             && r == Start(c, k) + Width(c, k) * ((balance - Spent(c, k)) / burn)
    ensures IsProjection(c, balance, r)
  {
    hide Spent, Start, Plausible;
    HoursFollow(c, k);
    var x, w, d := Rate(c, k), Width(c, k), balance - Spent(c, k);
    Divide(x, w, d);
    RunsOutInHour(c, balance, k, r);
  }

  lemma Divide(x: real, w: real, d: real)
    requires w > 0.0 && x * w > 0.0 && 0.0 < d <= x * w
    ensures x > 0.0 && 0.0 < w * (d / (x * w)) <= w && x * (w * (d / (x * w))) == d
  {
    var q := d / (x * w);
    assert q * (x * w) == d;
    assert 0.0 < q <= 1.0;
    assert x * (w * q) == q * (x * w);
  }

  // ------------------------------------------------------------ what a projection is

  /** A larger balance never lasts shorter, and no projection is over the cap; so equal balances
      have one projection. */
  lemma ProjectionGrows(c: Curve, less: real, more: real, r: real, s: real)
    requires Plausible(c) && c.daily > 0.0 && 0.0 < less <= more
    requires IsProjection(c, less, r) && IsProjection(c, more, s)
    ensures 0.0 < r <= s <= PROJECT_LIMIT as real
  {
    hide BurnAt;
    if RunsOutAt(c, more, s) {
      assert BurnAt(c, s) <= BurnAt(c, End(c)) by { BurnGrows(c, s, End(c)); }
    }
  }

  predicate Flat(c: Curve)
    requires Plausible(c)
  {
    forall i :: 0 <= i < 24 ==> c.share[i] == 1.0 / 24.0
  }

  lemma FlatRate(c: Curve, k: nat, d: real)
    requires Plausible(c) && Flat(c)
    ensures Part(c, k, d) == c.daily / 24.0 * d
  {
    assert Rate(c, k) == c.daily / 24.0;
  }

  lemma {:induction false} FlatSpent(c: Curve, k: nat)
    requires Plausible(c) && Flat(c)
    ensures Spent(c, k) == c.daily / 24.0 * Start(c, k)
  {
    hide Part, Plausible, Flat, Width, Start;
    NothingSpent(c);
    if k > 0 {
      FlatSpent(c, k - 1);
      FlatRate(c, k - 1, Width(c, k - 1));
      HoursFollow(c, k - 1);
      Distributes(c.daily / 24.0, Start(c, k - 1), Width(c, k - 1));
    }
  }

  lemma Distributes(x: real, a: real, b: real)
    ensures x * a + x * b == x * (a + b)
  {
  }

  lemma FlatBurn(c: Curve, t: real)
    requires Plausible(c) && Flat(c) && t >= 0.0
    ensures BurnAt(c, t) == c.daily / 24.0 * t
  {
    hide Part, Plausible, Flat, Spent;
    var k := HourAt(c, t);
    FlatSpent(c, k);
    FlatRate(c, k, t - Start(c, k));
  }

  /** A flat profile degenerates to the flat-rate estimate, up to the cap. */
  lemma FlatProfile(c: Curve, balance: real, r: real)
    requires Plausible(c) && Flat(c) && c.daily > 0.0 && balance > 0.0 && IsProjection(c, balance, r)
    ensures r == if balance * 24.0 / c.daily <= End(c) then balance * 24.0 / c.daily else PROJECT_LIMIT as real
  {
    hide BurnAt, Flat;
    var rate := c.daily / 24.0;
    FlatBurn(c, End(c));
    assert rate * (balance * 24.0 / c.daily) == balance;
    if RunsOutAt(c, balance, r) {
      FlatBurn(c, r);
      assert rate * r == balance;
      SameFactor(rate, r, balance * 24.0 / c.daily);
    } else {
      SameOrder(rate, End(c), balance * 24.0 / c.daily);
    }
  }

  lemma SameFactor(x: real, a: real, b: real)
    requires x > 0.0 && x * a == x * b
    ensures a == b
  {
    assert x * (a - b) == 0.0;
  }

  lemma SameOrder(x: real, a: real, b: real)
    requires x > 0.0 && x * a < x * b
    ensures a < b
  {
    assert x * (b - a) > 0.0;
  }
}
