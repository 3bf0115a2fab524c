/**
  The bandwidth-weight solver of network_modifiers.py, which follows section 3.8.3 of
  Tor's dir-spec: given the total bandwidth of Guard (g), plain middle (m), Exit (e)
  and Guard+Exit (d) relays and an integer scale, find position weights that balance
  the load. All divisions are Python floor divisions; their divisors are never
  negative, so Dafny's Euclidean division agrees with them.
*/
module BandwidthWeights {
  import opened Basics
  import opened Network

  // ---------- totals ----------

  datatype Totals = Totals(g: nat, m: nat, e: nat, d: nat) {
    function Sum(): nat { g + m + e + d }
  }

  predicate IsGuard(r: RelStat) { Guard in r.flags }

  predicate IsExit(r: RelStat) { Exit in r.flags && BadExit !in r.flags }

  ghost function Contribution(r: RelStat, guard: bool, exit: bool): nat
  {
    if Running in r.flags && IsGuard(r) == guard && IsExit(r) == exit then r.bandwidth else 0
  }

  // Total bandwidth of the Running relays whose guard and exit roles are as given.
  ghost function RoleBandwidth(relays: seq<RelStat>, guard: bool, exit: bool): nat
  {
    if relays == [] then 0
    else Contribution(relays[|relays| - 1], guard, exit) + RoleBandwidth(relays[..|relays| - 1], guard, exit)
  }

  lemma {:induction false} RoleBandwidthConcat(xs: seq<RelStat>, ys: seq<RelStat>, guard: bool, exit: bool)
    ensures RoleBandwidth(xs + ys, guard, exit) == RoleBandwidth(xs, guard, exit) + RoleBandwidth(ys, guard, exit)
  {
    if ys == [] {
      assert xs + ys == xs;
    } else {
      assert (xs + ys)[..|xs + ys| - 1] == xs + ys[..|ys| - 1];
      RoleBandwidthConcat(xs, ys[..|ys| - 1], guard, exit);
    }
  }

  // The totals do not depend on the order in which the consensus dictionary is walked.
  lemma {:induction false} RoleBandwidthOrder(xs: seq<RelStat>, ys: seq<RelStat>, guard: bool, exit: bool)
    requires multiset(xs) == multiset(ys)
    ensures RoleBandwidth(xs, guard, exit) == RoleBandwidth(ys, guard, exit)
    decreases |xs|
  {
    if xs == [] {
      assert |ys| == |multiset(ys)| == 0;
    } else {
      var front, last := xs[..|xs| - 1], xs[|xs| - 1];
      assert last in multiset(xs);
      var i :| 0 <= i < |ys| && ys[i] == last;
      var rest := Without(ys, i);
      WithoutSame(xs, ys, i);
      hide RoleBandwidth;
      RoleBandwidthOrder(front, rest, guard, exit);
      RoleBandwidthWithout(xs, |xs| - 1, guard, exit);
      RoleBandwidthWithout(ys, i, guard, exit);
      assert Without(xs, |xs| - 1) == front;
    }
  }

  lemma WithoutSame(xs: seq<RelStat>, ys: seq<RelStat>, i: nat)
    requires multiset(xs) == multiset(ys) && xs != [] && i < |ys| && ys[i] == xs[|xs| - 1]
    ensures multiset(xs[..|xs| - 1]) == multiset(Without(ys, i)) && |Without(ys, i)| == |ys| - 1
  {
    WithoutItems(ys, i);
    WithoutItems(xs, |xs| - 1);
    assert Without(xs, |xs| - 1) == xs[..|xs| - 1];
  }

  lemma RoleBandwidthWithout(s: seq<RelStat>, i: nat, guard: bool, exit: bool)
    requires i < |s|
    ensures RoleBandwidth(s, guard, exit) == RoleBandwidth(Without(s, i), guard, exit) + RoleBandwidth([s[i]], guard, exit)
  {
    assert s == s[..i] + [s[i]] + s[i + 1..];
    RoleBandwidthConcat(s[..i], s[i + 1..], guard, exit);
    RoleBandwidthConcat(s[..i], [s[i]], guard, exit);
    RoleBandwidthConcat(s[..i] + [s[i]], s[i + 1..], guard, exit);
  }

  ghost function Classified(relays: seq<RelStat>): Totals
  {
    Totals(RoleBandwidth(relays, true, false), RoleBandwidth(relays, false, false),
           RoleBandwidth(relays, false, true), RoleBandwidth(relays, true, true))
  }

  ghost function AddRelay(b: Totals, r: RelStat): Totals
  {
    Totals(b.g + Contribution(r, true, false), b.m + Contribution(r, false, false),
           b.e + Contribution(r, false, true), b.d + Contribution(r, true, true))
  }

  lemma ClassifiedStep(relays: seq<RelStat>, i: nat)
    requires i < |relays|
    ensures Classified(relays[..i + 1]) == AddRelay(Classified(relays[..i]), relays[i])
  {
    assert relays[..i + 1][..i] == relays[..i];
  }

  // The accumulating loop over the consensus, whose entries come in dictionary order.
  method ComputeTotBandwidths(relays: seq<RelStat>) returns (b: Totals, t: nat)
    ensures b == Classified(relays)
    ensures t == b.Sum()
  {
    var g: nat, m: nat, e: nat, d: nat := 0, 0, 0, 0;
    t := 0;
    for i := 0 to |relays|
      invariant Totals(g, m, e, d) == Classified(relays[..i])
      invariant t == g + m + e + d
    {
      var r := relays[i];
      ClassifiedStep(relays, i);
      var isGuard, isExit := IsGuard(r), IsExit(r);
      if Running !in r.flags {
        continue;
      }
      t := t + r.bandwidth;
      if isGuard && !isExit {
        g := g + r.bandwidth;
      } else if isExit && !isGuard {
        e := e + r.bandwidth;
      } else if isGuard && isExit {
        d := d + r.bandwidth;
      } else {
        m := m + r.bandwidth;
      }
    }
    assert relays[..|relays|] == relays;
    b := Totals(g, m, e, d);
  }

  // ---------- the weights and their check ----------

  datatype Weights = Weights(wgg: int, wgd: int, wmg: int, wme: int, wmd: int, wee: int, wed: int)

  datatype BwwError = NoError | SumG | SumE | SumD | BalanceMid | BalanceEG | Range

  const MARGIN := 10

  predicate CheckEq(a: int, b: int, margin: int)
  {
    if a - b >= 0 then a - b <= margin else b - a <= margin
  }

  predicate InRange(w: Weights, scale: int)
  {
    0 <= w.wgg <= scale && 0 <= w.wgd <= scale && 0 <= w.wmg <= scale && 0 <= w.wme <= scale &&
    0 <= w.wmd <= scale && 0 <= w.wed <= scale && 0 <= w.wee <= scale
  }

  // Load put on each position by the weights.
  function GuardLoad(w: Weights, b: Totals): int { w.wgg * b.g + w.wgd * b.d }
  function ExitLoad(w: Weights, b: Totals): int { w.wee * b.e + w.wed * b.d }
  function MiddleLoad(w: Weights, b: Totals, scale: int): int
  {
    b.m * scale + w.wmd * b.d + w.wme * b.e + w.wmg * b.g
  }

  function CheckWeights(w: Weights, scale: int, b: Totals, margin: int, balance: bool): BwwError
  {
    if !CheckEq(w.wed + w.wmd + w.wgd, scale, margin) then SumD
    else if !CheckEq(w.wmg + w.wgg, scale, margin) then SumG
    else if !CheckEq(w.wme + w.wee, scale, margin) then SumE
    else if !InRange(w, scale) then Range
    else if balance && !CheckEq(GuardLoad(w, b), ExitLoad(w, b), margin * b.Sum() / 3) then BalanceEG
    else if balance && !CheckEq(GuardLoad(w, b), MiddleLoad(w, b, scale), margin * b.Sum() / 3) then BalanceMid
    else NoError
  }

  // ---------- the solver ----------

  datatype Case = Case1 | Case2aE | Case2aG | Case2b1 | Case2b2 | Case2b3
                | Case3aG | Case3aE | Case3bG | Case3bE

  datatype Outcome = Solved(c: Case, w: Weights)
                   | Raised(error: BwwError)
                   | Inconsistent
                   | ZeroDivision

  function Weights1(b: Totals, scale: int): Weights
    requires b.e > 0 && b.g > 0
  {
    var wee := scale * (b.e + b.g + b.m) / (3 * b.e);
    var wmg := scale * (2 * b.g - b.e - b.m) / (3 * b.g);
    Weights(scale - wmg, scale / 3, wmg, scale - wee, scale / 3, wee, scale / 3)
  }

  function Weights2b1(b: Totals, scale: int): Weights
    requires b.e > 0 && b.d > 0
  {
    var wed := scale * (b.d - 2 * b.e + 4 * b.g - 2 * b.m) / (3 * b.d);
    Weights(scale, (scale - wed) / 2, 0, scale * (b.g - b.m) / b.e, (scale - wed) / 2,
            scale * (b.e - b.g + b.m) / b.e, wed)
  }

  function Weights2b23(b: Totals, scale: int): (bool, Weights)
    requires b.d > 0
  {
    var wed := scale * (b.d - 2 * b.e + b.g + b.m) / (3 * b.d);
    var wmd := scale * (b.d - 2 * b.m + b.g + b.e) / (3 * b.d);
    var wmd' := if wmd < 0 then 0 else wmd;
    (wmd < 0, Weights(scale, scale - wed - wmd', 0, 0, wmd', scale, wed))
  }

  function Weights3bG(b: Totals, scale: int): Weights
    requires b.e > 0 && b.d > 0
  {
    var wgd := scale * (b.d - 2 * b.g + b.e + b.m) / (3 * b.d);
    var wee := scale * (b.e + b.m) / (2 * b.e);
    Weights(scale, wgd, 0, scale - wee, (scale - wgd) / 2, wee, (scale - wgd) / 2)
  }

  function Weights3bE(b: Totals, scale: int): Weights
    requires b.g > 0 && b.d > 0
  {
    var wed := scale * (b.d - 2 * b.e + b.g + b.m) / (3 * b.d);
    var wgg := scale * (b.g + b.m) / (2 * b.g);
    Weights(wgg, (scale - wed) / 2, scale - wgg, 0, (scale - wed) / 2, scale, wed)
  }

  function Solve1(b: Totals, scale: int): Outcome
  {
    if b.e == 0 || b.g == 0 then ZeroDivision
    else
      var w := Weights1(b, scale);
      var check := CheckWeights(w, scale, b, MARGIN, true);
      if check != NoError then Raised(check) else Solved(Case1, w)
  }

  function Solve2(b: Totals, scale: int): Outcome
  {
    if Min(b.e, b.g) + b.d < Max(b.e, b.g) then
      if b.e < b.g then Solved(Case2aE, Weights(scale, 0, 0, 0, 0, scale, scale))
      else Solved(Case2aG, Weights(scale, scale, 0, 0, 0, scale, 0))
    else if b.e == 0 || b.d == 0 then ZeroDivision
    else
      var w1 := Weights2b1(b, scale);
      if CheckWeights(w1, scale, b, MARGIN, true) == NoError then Solved(Case2b1, w1)
      else
        var (negative, w2) := Weights2b23(b, scale);
        var check := CheckWeights(w2, scale, b, MARGIN, true);
        if check != NoError && check != BalanceMid then Raised(check)
        else Solved(if negative then Case2b3 else Case2b2, w2)
  }

  function Solve3(b: Totals, scale: int): Outcome
  {
    var t := b.Sum();
    if !(3 * b.e < t || 3 * b.g < t) || !(3 * b.g >= t || 3 * b.e >= t) then Inconsistent
    else if 3 * (Min(b.e, b.g) + b.d) < t then
      if b.g < b.e then
        var wme := if b.e < b.m then 0 else scale * (b.e - b.m) / (2 * b.e);
        Solved(Case3aG, Weights(scale, scale, 0, wme, 0, scale - wme, 0))
      else if b.g >= b.m && b.g == 0 then ZeroDivision
      else
        var wmg := if b.g < b.m then 0 else scale * (b.g - b.m) / (2 * b.g);
        Solved(Case3aE, Weights(scale - wmg, 0, wmg, 0, 0, scale, scale))
    else if b.d == 0 || (b.g >= b.e && b.g == 0) then ZeroDivision
    else
      var w := if b.g < b.e then Weights3bG(b, scale) else Weights3bE(b, scale);
      var check := CheckWeights(w, scale, b, MARGIN, true);
      if check != NoError then Raised(check)
      else Solved(if b.g < b.e then Case3bG else Case3bE, w)
  }

  function Recompute(b: Totals, scale: int): Outcome
  {
    var t := b.Sum();
    if 3 * b.e >= t && 3 * b.g >= t then Solve1(b, scale)
    else if 3 * b.e < t && 3 * b.g < t then Solve2(b, scale)
    else Solve3(b, scale)
  }

  // ---------- floor-division facts ----------

  lemma FloorBounds(n: int, d: int)
    requires d > 0
    ensures d * (n / d) <= n < d * (n / d) + d
  {}

  lemma FloorBetween(n: int, d: int, lo: int, hi: int)
    requires d > 0
    requires d * lo <= n <= d * hi
    ensures lo <= n / d <= hi
  {
    FloorBounds(n, d);
    assert d * (n / d) + d == d * (n / d + 1) && d * hi + d == d * (hi + 1);
    MulCancel(d, n / d, hi + 1);
    MulCancel(d, lo, n / d + 1);
  }

  lemma MulCancel(d: nat, x: int, y: int)
    ensures d * x < d * y ==> x < y
  {
    if x >= y { ScaleMono(d, y, x); }
  }

  // A product bound that the solver does not find by itself.
  lemma ScaleMono(scale: int, x: int, y: int)
    requires 0 <= scale && x <= y
    ensures scale * x <= scale * y
  {}

  // ---------- error budgets, case by case ----------

  ghost predicate SumsAndRange(w: Weights, scale: int)
  {
    CheckEq(w.wgg + w.wmg, scale, MARGIN) && CheckEq(w.wee + w.wme, scale, MARGIN) &&
    CheckEq(w.wgd + w.wmd + w.wed, scale, MARGIN) && InRange(w, scale)
  }

  // Rounding may unbalance the three positions by at most budget units of bandwidth * scale.
  ghost predicate BalancedWithin(w: Weights, b: Totals, scale: int, budget: int)
  {
    -budget <= GuardLoad(w, b) - ExitLoad(w, b) <= budget &&
    -budget <= GuardLoad(w, b) - MiddleLoad(w, b, scale) <= budget
  }

  lemma BudgetPassesCheck(w: Weights, b: Totals, scale: int)
    requires SumsAndRange(w, scale)
    requires BalancedWithin(w, b, scale, 3 * b.Sum())
    ensures CheckWeights(w, scale, b, MARGIN, true) == NoError
  {
    assert 3 * b.Sum() <= MARGIN * b.Sum() / 3;
  }

  // Rounding of a quotient over 3 * y and over 2 * y, as products with y.
  lemma Rounds3(n: int, y: nat)
    requires y > 0
    ensures var q := n / (3 * y); 3 * (q * y) <= n < 3 * (q * y) + 3 * y
  {
    FloorBounds(n, 3 * y);
    assert 3 * y * (n / (3 * y)) == 3 * ((n / (3 * y)) * y);
  }

  lemma Rounds2(n: int, y: nat)
    requires y > 0
    ensures var q := n / (2 * y); 2 * (q * y) <= n < 2 * (q * y) + 2 * y
  {
    FloorBounds(n, 2 * y);
    assert 2 * y * (n / (2 * y)) == 2 * ((n / (2 * y)) * y);
  }

  // A share x out of d of the scale is a weight: it lies between 0 and the scale.
  lemma ShareInRange(scale: nat, x: int, d: int)
    requires 0 <= x <= d && 0 < d
    ensures 0 <= scale * x / d <= scale
  {
    ScaleMono(scale, 0, x);
    ScaleMono(scale, x, d);
    assert scale * d == d * scale;
    FloorBetween(scale * x, d, 0, scale);
  }

  lemma HalfTimes(n: int, d: nat)
    ensures n * d - d <= 2 * ((n / 2) * d) <= n * d
  {
    assert n == 2 * (n / 2) + n % 2;
    assert n * d == 2 * ((n / 2) * d) + (n % 2) * d;
    assert 0 <= (n % 2) * d <= d;
  }

  lemma Distribute(s: int, x: int, y: int, z: int)
    ensures s * (x + y + z) == s * x + s * y + s * z
  {}

  lemma MulSub(a: int, b: int, c: int)
    ensures (a - b) * c == a * c - b * c
  {}

  // Bounds on a role's bandwidth d times its weight, for the quotients the solver computes.
  lemma ThirdTimes(scale: nat, d: nat, s: int, x: int, y: int, q: int)
    requires d > 0 && q == scale * (d - 2 * s + x + y) / (3 * d)
    ensures 3 * (q * d) <= scale * d - 2 * (scale * s) + scale * x + scale * y < 3 * (q * d) + 3 * d
  {
    Rounds3(scale * (d - 2 * s + x + y), d);
    Distribute(scale, d - 2 * s, x, y);
    Distribute(scale, d, -2 * s, 0);
    assert scale * (-2 * s) == -2 * (scale * s);
  }

  lemma ThirdOwnTimes(scale: nat, e: nat, x: int, y: int, q: int)
    requires e > 0 && q == scale * (e + x + y) / (3 * e)
    ensures 3 * (q * e) <= scale * e + scale * x + scale * y < 3 * (q * e) + 3 * e
  {
    Rounds3(scale * (e + x + y), e);
    Distribute(scale, e, x, y);
  }

  lemma ThirdLessTimes(scale: nat, g: nat, x: int, y: int, q: int)
    requires g > 0 && q == scale * (2 * g - x - y) / (3 * g)
    ensures 3 * (q * g) <= 2 * (scale * g) - scale * x - scale * y < 3 * (q * g) + 3 * g
  {
    Rounds3(scale * (2 * g - x - y), g);
    Distribute(scale, 2 * g, -x, -y);
    assert scale * (2 * g) == 2 * (scale * g) && scale * -x == -(scale * x) && scale * -y == -(scale * y);
  }

  lemma HalfShareTimes(scale: nat, s: nat, m: int, q: int)
    requires s > 0 && q == scale * (s + m) / (2 * s)
    ensures 2 * (q * s) <= scale * s + scale * m < 2 * (q * s) + 2 * s
  {
    Rounds2(scale * (s + m), s);
    Distribute(scale, s, m, 0);
  }

  lemma HalfRestTimes(scale: nat, d: nat, q: int)
    ensures scale * d - q * d - d <= 2 * ((scale - q) / 2 * d) <= scale * d - q * d
  {
    HalfTimes(scale - q, d);
    MulSub(scale, q, d);
  }

  // The rounding errors g, e of the two quotients bound the imbalance. The products of the
  // scale and of the weights with bandwidths are single unknowns here.
  lemma Case1Linear(b: Totals, sg: int, sm: int, se: int, eWee: int, gWmg: int)
    requires 3 * eWee <= se + sg + sm < 3 * eWee + 3 * b.e
    requires 3 * gWmg <= 2 * sg - se - sm < 3 * gWmg + 3 * b.g
    ensures -3 * b.Sum() <= (sg - gWmg) - eWee <= 3 * b.Sum()
    ensures -3 * b.Sum() <= (sg - gWmg) - (sm + (se - eWee) + gWmg) <= 3 * b.Sum()
  {}

  lemma Case1Fits(b: Totals, scale: nat)
    requires 3 * b.e >= b.Sum() > 0 && 3 * b.g >= b.Sum()
    ensures SumsAndRange(Weights1(b, scale), scale)
    ensures BalancedWithin(Weights1(b, scale), b, scale, 3 * b.Sum())
  {
    ShareInRange(scale, b.e + b.g + b.m, 3 * b.e);
    ShareInRange(scale, 2 * b.g - b.e - b.m, 3 * b.g);
    Case1Balance(b, scale);
  }

  lemma Case1Balance(b: Totals, scale: nat)
    requires b.e > 0 && b.g > 0
    ensures BalancedWithin(Weights1(b, scale), b, scale, 3 * b.Sum())
  {
    var w := Weights1(b, scale);
    ThirdOwnTimes(scale, b.e, b.g, b.m, w.wee);
    ThirdLessTimes(scale, b.g, b.e, b.m, w.wmg);
    Case1Linear(b, scale * b.g, scale * b.m, scale * b.e, w.wee * b.e, w.wmg * b.g);
    MulSub(scale, w.wmg, b.g);
    MulSub(scale, w.wee, b.e);
  }

  lemma Case2b2Linear(b: Totals, sg: int, sm: int, se: int, sd: int, dWed: int, dWmd: int)
    requires 3 * dWed <= sd - 2 * se + sg + sm < 3 * dWed + 3 * b.d
    requires 3 * dWmd <= sd - 2 * sm + sg + se < 3 * dWmd + 3 * b.d
    ensures -3 * b.Sum() <= sg + (sd - dWed - dWmd) - (se + dWed) <= 3 * b.Sum()
    ensures -3 * b.Sum() <= sg + (sd - dWed - dWmd) - (sm + dWmd) <= 3 * b.Sum()
  {}

  lemma Case2b2Fits(b: Totals, scale: nat)
    requires 3 * b.e < b.Sum() && 3 * b.g < b.Sum() && 3 * b.m <= b.Sum() && b.d > 0
    ensures !Weights2b23(b, scale).0
    ensures SumsAndRange(Weights2b23(b, scale).1, scale)
    ensures BalancedWithin(Weights2b23(b, scale).1, b, scale, 3 * b.Sum())
  {
    var x, y := b.d - 2 * b.e + b.g + b.m, b.d - 2 * b.m + b.g + b.e;
    assert 0 <= x && 0 <= y && x + y <= 3 * b.d;
    ShareInRange(scale, x, 3 * b.d);
    ShareInRange(scale, y, 3 * b.d);
    SharesAddUp(scale, x, y, 3 * b.d);
    Case2b2Balance(b, scale);
  }

  // Two shares that together are at most the whole leave a non-negative remainder of the scale.
  lemma SharesAddUp(scale: nat, x: int, y: int, d: int)
    requires 0 <= x && 0 <= y && x + y <= d && 0 < d
    ensures scale * x / d + scale * y / d <= scale
  {
    var p, q := scale * x / d, scale * y / d;
    FloorBounds(scale * x, d);
    FloorBounds(scale * y, d);
    assert d * (p + q) == d * p + d * q;
    assert scale * (x + y) == scale * x + scale * y;
    ScaleMono(scale, x + y, d);
    assert scale * d == d * scale;
    assert d * (scale + 1) == d * scale + d;
    MulCancel(d, p + q, scale + 1);
  }

  lemma Case2b2Balance(b: Totals, scale: nat)
    requires b.d > 0 && !Weights2b23(b, scale).0
    ensures BalancedWithin(Weights2b23(b, scale).1, b, scale, 3 * b.Sum())
  {
    var w := Weights2b23(b, scale).1;
    ThirdTimes(scale, b.d, b.e, b.g, b.m, w.wed);
    ThirdTimes(scale, b.d, b.m, b.g, b.e, w.wmd);
    Case2b2Linear(b, scale * b.g, scale * b.m, scale * b.e, scale * b.d, w.wed * b.d, w.wmd * b.d);
    assert w.wgd == scale - w.wed - w.wmd;
    MulSub(scale - w.wed, w.wmd, b.d);
    MulSub(scale, w.wed, b.d);
  }

  // In case 3b one of the two scarce roles (total r, the other being s) is given in full,
  // its share of the Guard+Exit bandwidth is q, and the rest of that is halved.
  lemma Case3bLinear(t: nat, r: nat, m: nat, s: nat, d: nat,
                     sr: int, sm: int, ss: int, sd: int, dq: int, dHalf: int, sShare: int)
    requires t == r + m + s + d
    requires 3 * dq <= sd - 2 * sr + ss + sm < 3 * dq + 3 * d
    requires 2 * sShare <= ss + sm < 2 * sShare + 2 * s
    requires sd - dq - d <= 2 * dHalf <= sd - dq
    ensures -3 * t <= (sr + dq) - (sShare + dHalf) <= 3 * t
    ensures -3 * t <= (sr + dq) - (sm + dHalf + (ss - sShare)) <= 3 * t
    ensures -3 * t <= (sShare + dHalf) - (sm + dHalf + (ss - sShare)) <= 3 * t
  {}

  lemma Case3bGFits(b: Totals, scale: nat)
    requires b.g < b.e && 3 * b.g < b.Sum() <= 3 * b.e && 3 * (b.g + b.d) >= b.Sum()
    ensures b.d > 0
    ensures SumsAndRange(Weights3bG(b, scale), scale)
    ensures BalancedWithin(Weights3bG(b, scale), b, scale, 3 * b.Sum())
  {
    ShareInRange(scale, b.d - 2 * b.g + b.e + b.m, 3 * b.d);
    ShareInRange(scale, b.e + b.m, 2 * b.e);
    Case3bGBalance(b, scale);
  }

  lemma Case3bGBalance(b: Totals, scale: nat)
    requires b.d > 0 && b.e > 0
    ensures BalancedWithin(Weights3bG(b, scale), b, scale, 3 * b.Sum())
  {
    var w := Weights3bG(b, scale);
    ThirdTimes(scale, b.d, b.g, b.e, b.m, w.wgd);
    HalfShareTimes(scale, b.e, b.m, w.wee);
    HalfRestTimes(scale, b.d, w.wgd);
    Case3bLinear(b.Sum(), b.g, b.m, b.e, b.d, scale * b.g, scale * b.m, scale * b.e, scale * b.d,
                 w.wgd * b.d, w.wmd * b.d, w.wee * b.e);
    MulSub(scale, w.wee, b.e);
  }

  lemma Case3bEFits(b: Totals, scale: nat)
    requires b.e <= b.g && 3 * b.e < b.Sum() <= 3 * b.g && 3 * (b.e + b.d) >= b.Sum()
    ensures b.d > 0
    ensures SumsAndRange(Weights3bE(b, scale), scale)
    ensures BalancedWithin(Weights3bE(b, scale), b, scale, 3 * b.Sum())
  {
    ShareInRange(scale, b.d - 2 * b.e + b.g + b.m, 3 * b.d);
    ShareInRange(scale, b.g + b.m, 2 * b.g);
    Case3bEBalance(b, scale);
  }

  lemma Case3bEBalance(b: Totals, scale: nat)
    requires b.d > 0 && b.g > 0
    ensures BalancedWithin(Weights3bE(b, scale), b, scale, 3 * b.Sum())
  {
    var w := Weights3bE(b, scale);
    ThirdTimes(scale, b.d, b.e, b.g, b.m, w.wed);
    HalfShareTimes(scale, b.g, b.m, w.wgg);
    HalfRestTimes(scale, b.d, w.wed);
    Case3bLinear(b.Sum(), b.e, b.m, b.g, b.d, scale * b.e, scale * b.m, scale * b.g, scale * b.d,
                 w.wed * b.d, w.wmd * b.d, w.wgg * b.g);
    MulSub(scale, w.wgg, b.g);
  }

  // ---------- the first attempt of case 2b ----------

  // The plain middles are no more than the plain guards, and the exits have enough to make up for
  // what they lack.
  predicate FirstAttempt(b: Totals)
  {
    b.m <= b.g <= b.e + b.m
  }

  // The first attempt stays in range exactly under that condition on the totals, and then it is in
  // balance.
  lemma Case2b1Fits(b: Totals, scale: nat)
    requires scale > 0 && IsCase2b(b) && b.e > 0 && b.d > 0
    ensures SumsAndRange(Weights2b1(b, scale), scale) <==> FirstAttempt(b)
    ensures FirstAttempt(b) ==> BalancedWithin(Weights2b1(b, scale), b, scale, 3 * b.Sum())
  {
    if FirstAttempt(b) {
      ShareInRange(scale, b.e - b.g + b.m, b.e);
      ShareInRange(scale, b.g - b.m, b.e);
      ShareInRange(scale, b.d - 2 * b.e + 4 * b.g - 2 * b.m, 3 * b.d);
      AlmostWhole(scale, b.e - b.g + b.m, b.g - b.m, b.e);
      Case2b1Balance(b, scale);
    } else if b.m > b.g {
      NegativeShare(scale, b.g - b.m, b.e);
    } else {
      NegativeShare(scale, b.e - b.g + b.m, b.e);
    }
  }

  lemma NegativeShare(scale: nat, x: int, d: nat)
    requires scale > 0 && x < 0 && d > 0
    ensures scale * x / d < 0
  {
    ScaleMono(scale, x, -1);
    FloorBounds(scale * x, d);
    MulCancel(d, scale * x / d, 0);
  }

  // Two shares that make up the whole lose at most one unit by rounding.
  lemma AlmostWhole(scale: nat, x: nat, y: nat, d: nat)
    requires x + y == d && d > 0
    ensures scale - 1 <= scale * x / d + scale * y / d <= scale
  {
    var p, q := scale * x / d, scale * y / d;
    FloorBounds(scale * x, d);
    FloorBounds(scale * y, d);
    assert scale * x + scale * y == d * scale by { Distribute(scale, x, y, 0); }
    assert d * (p + q) == d * p + d * q && d * (p + q + 2) == d * p + d * q + 2 * d;
    MulCancel(d, scale, p + q + 2);
    MulCancel(d, p + q, scale + 1);
    assert d * (scale + 1) == d * scale + d;
  }

  lemma Case2b1Balance(b: Totals, scale: nat)
    requires b.e > 0 && b.d > 0
    ensures BalancedWithin(Weights2b1(b, scale), b, scale, 3 * b.Sum())
  {
    var w := Weights2b1(b, scale);
    FirstExitTimes(scale, b.d, b.e, b.g, b.m, w.wed);
    ShareTimes(scale, b.e, b.g, b.m, b.e, w.wee);
    ShareTimes(scale, b.g, b.m, 0, b.e, w.wme);
    HalfRestTimes(scale, b.d, w.wed);
    Case2b1Linear(b.Sum(), b.e, b.d, scale * b.g, scale * b.m, scale * b.e, scale * b.d,
                  w.wed * b.d, w.wee * b.e, w.wme * b.e, w.wgd * b.d);
  }

  lemma FirstExitTimes(scale: nat, d: nat, e: nat, g: nat, m: nat, q: int)
    requires d > 0 && q == scale * (d - 2 * e + 4 * g - 2 * m) / (3 * d)
    ensures 3 * (q * d) <= scale * d - 2 * (scale * e) + 4 * (scale * g) - 2 * (scale * m) < 3 * (q * d) + 3 * d
  {
    Rounds3(scale * (d - 2 * e + 4 * g - 2 * m), d);
    Distribute(scale, d - 2 * e, 4 * g, -2 * m);
    Distribute(scale, d, -2 * e, 0);
    assert scale * (-2 * e) == -2 * (scale * e) && scale * (4 * g) == 4 * (scale * g) && scale * (-2 * m) == -2 * (scale * m);
  }

  lemma ShareTimes(scale: nat, x: nat, y: nat, z: nat, e: nat, q: int)
    requires e > 0 && q == scale * (x - y + z) / e
    ensures q * e <= scale * x - scale * y + scale * z < q * e + e
    ensures z == 0 ==> scale * z == 0
  {
    FloorBounds(scale * (x - y + z), e);
    MulSub(x + z, y, scale);
    Distribute(scale, x, z, 0);
    assert scale * (x - y + z) == (x + z - y) * scale == scale * (x + z) - scale * y;
  }

  lemma Case2b1Linear(t: nat, e: nat, d: nat, sg: int, sm: int, se: int, sd: int, dWed: int, eWee: int, eWme: int, dHalf: int)
    requires e + d <= t
    requires 3 * dWed <= sd - 2 * se + 4 * sg - 2 * sm < 3 * dWed + 3 * d
    requires eWee <= se - sg + sm < eWee + e && eWme <= sg - sm < eWme + e
    requires sd - dWed - d <= 2 * dHalf <= sd - dWed
    ensures -3 * t <= (sg + dHalf) - (eWee + dWed) <= 3 * t
    ensures -3 * t <= (sg + dHalf) - (sm + dHalf + eWme) <= 3 * t
  {}

  // ---------- case 2b with too much middle bandwidth ----------

  // With more than a third of the bandwidth in plain middles the first attempt of case 2b
  // always leaves the range: it would need a negative Wme.
  lemma Case2b1OutOfRange(b: Totals, scale: nat)
    requires scale > 0 && b.e > 0 && b.d > 0 && b.m > b.g
    ensures Weights2b1(b, scale).wme < 0
    ensures CheckWeights(Weights2b1(b, scale), scale, b, MARGIN, true) != NoError
  {
    ScaleMono(scale, b.g - b.m, -1);
    FloorBounds(scale * (b.g - b.m), b.e);
    MulCancel(b.e, scale * (b.g - b.m) / b.e, 0);
  }

  // The third attempt: no Guard+Exit bandwidth at all in the middle. It is accepted exactly
  // when the exits' share fits the scale, and the surplus of the middles over a third is so small
  // that the check's margin and what the division leaves over hide it.
  ghost predicate MiddleSurplusAccepted(b: Totals, scale: nat)
    requires b.d > 0
  {
    && scale * (b.g + b.m - 2 * b.d - 2 * b.e) < 3 * b.d
    && scale * (3 * b.m - b.Sum()) <= 10 * b.Sum() + 2 * (scale * (b.d - 2 * b.e + b.g + b.m) % (3 * b.d))
  }

  // The same in terms of the weight itself.
  ghost predicate ThirdAttemptFits(b: Totals, scale: nat, wed: int)
  {
    wed <= scale && 3 * (2 * (wed * b.d) - scale * (b.g + b.d - b.e)) <= 10 * b.Sum()
  }

  lemma SurplusHidden(b: Totals, scale: nat)
    requires b.d > 0
    ensures ThirdAttemptFits(b, scale, scale * (b.d - 2 * b.e + b.g + b.m) / (3 * b.d)) <==> MiddleSurplusAccepted(b, scale)
  {
    var n, d := scale * (b.d - 2 * b.e + b.g + b.m), 3 * b.d;
    FloorBounds(n, d);
    QuotientAtMost(n, d, scale);
    assert n - d * scale == scale * (b.g + b.m - 2 * b.d - 2 * b.e) by {
      Distribute(scale, b.d - 2 * b.e + b.g + b.m, -d, 0);
    }
    SurplusLeft(b, scale, n / d, n % d);
  }

  lemma QuotientAtMost(n: int, d: nat, q: int)
    requires d > 0
    ensures n / d <= q <==> n - d * q < d
  {
    FloorBounds(n, d);
    if n / d <= q {
      assert d * (n / d) <= d * q;
    } else {
      assert d * (n / d) >= d * (q + 1) == d * q + d;
    }
  }

  lemma SurplusLeft(b: Totals, scale: nat, wed: int, left: int)
    requires scale * (b.d - 2 * b.e + b.g + b.m) == 3 * b.d * wed + left
    ensures 3 * (2 * (wed * b.d) - scale * (b.g + b.d - b.e)) == scale * (3 * b.m - b.Sum()) - 2 * left
  {
    assert 3 * b.d * wed == 3 * (wed * b.d);
    Distribute(scale, 2 * (b.d - 2 * b.e + b.g + b.m), -3 * (b.g + b.d - b.e), 0);
  }

  lemma Case2b3Check(b: Totals, scale: nat)
    requires scale > 0 && b.d > 0 && 3 * b.e < b.Sum() && 3 * b.m > b.Sum()
    ensures var (negative, w) := Weights2b23(b, scale);
            negative && w.wmd == 0 &&
            (CheckWeights(w, scale, b, MARGIN, true) in {NoError, BalanceMid} <==> MiddleSurplusAccepted(b, scale))
    ensures MiddleSurplusAccepted(b, scale) ==> SumsAndRange(Weights2b23(b, scale).1, scale)
  {
    var (negative, w) := Weights2b23(b, scale);
    var x, y := b.d - 2 * b.e + b.g + b.m, b.d - 2 * b.m + b.g + b.e;
    ScaleMono(scale, y, -1);
    FloorBounds(scale * y, 3 * b.d);
    MulCancel(3 * b.d, scale * y / (3 * b.d), 0);
    assert negative;
    ScaleMono(scale, 0, x);
    FloorBounds(scale * x, 3 * b.d);
    MulCancel(3 * b.d, -1, w.wed);
    assert w.wed >= 0;
    SurplusHidden(b, scale);
    ExitSurplus(b, scale);
    hide MiddleSurplusAccepted;
  }

  // Guard load minus exit load of that attempt is -(2 wed d - scale (g + d - e)), which is
  // below 2d since the middles have more than their third.
  lemma ExitSurplus(b: Totals, scale: nat)
    requires b.d > 0 && 3 * b.m > b.Sum() && Weights2b23(b, scale).0
    ensures var w := Weights2b23(b, scale).1;
            var imbalance := scale * (b.g + b.d - b.e) - 2 * (w.wed * b.d);
            GuardLoad(w, b) - ExitLoad(w, b) == imbalance && imbalance < 2 * b.d
  {
    var w := Weights2b23(b, scale).1;
    ThirdTimes(scale, b.d, b.e, b.g, b.m, w.wed);
    Distribute(scale, b.g, b.d, -(b.e as int));
    MulSub(scale, w.wed, b.d);
    MiddleOutweighs(b, scale);
    SurplusLinear(scale * b.g, scale * b.m, scale * b.e, scale * b.d, w.wed * b.d, b.d);
  }

  lemma MiddleOutweighs(b: Totals, scale: nat)
    requires 3 * b.m > b.Sum()
    ensures scale * b.g + scale * b.d + scale * b.e <= 2 * (scale * b.m)
  {
    ScaleMono(scale, b.g + b.d + b.e, 2 * b.m);
    Distribute(scale, b.g, b.d, b.e);
  }

  lemma SurplusLinear(sg: int, sm: int, se: int, sd: int, dWed: int, d: int)
    requires sd - 2 * se + sg + sm < 3 * dWed + 3 * d && sg + sd + se <= 2 * sm
    ensures sg + sd - se - 2 * dWed < 2 * d
  {}

  // ---------- main results ----------

  predicate IsCase2b(b: Totals)
  {
    3 * b.e < b.Sum() && 3 * b.g < b.Sum() && Min(b.e, b.g) + b.d >= Max(b.e, b.g)
  }

  // Passing the check gives sums and ranges; with balancing on, also the balance equations.
  lemma CheckMeans(w: Weights, scale: int, b: Totals)
    ensures CheckWeights(w, scale, b, MARGIN, true) in {NoError, BalanceMid, BalanceEG} <==> SumsAndRange(w, scale)
    ensures CheckWeights(w, scale, b, MARGIN, true) == NoError <==>
            SumsAndRange(w, scale) && BalancedWithin(w, b, scale, MARGIN * b.Sum() / 3)
  {}

  lemma SolvedExactly1(b: Totals, scale: nat)
    requires scale > 0 && 3 * b.e >= b.Sum() && 3 * b.g >= b.Sum()
    ensures Recompute(b, scale) ==
            if b.Sum() == 0 then ZeroDivision else Solved(Case1, Weights1(b, scale))
  {
    if b.Sum() > 0 {
      Case1Fits(b, scale);
      BudgetPassesCheck(Weights1(b, scale), b, scale);
    }
  }

  lemma SolvedExactly2b(b: Totals, scale: nat)
    requires scale > 0 && IsCase2b(b) && b.e > 0 && b.d > 0
    ensures Solve2(b, scale).Solved? <==> 3 * b.m <= b.Sum() || MiddleSurplusAccepted(b, scale)
    ensures Solve2(b, scale).Solved? || Solve2(b, scale).Raised?
    ensures Solve2(b, scale).Solved? ==> SumsAndRange(Solve2(b, scale).w, scale)
  {
    CheckMeans(Weights2b1(b, scale), scale, b);
    if 3 * b.m <= b.Sum() {
      Case2b2Fits(b, scale);
      BudgetPassesCheck(Weights2b23(b, scale).1, b, scale);
    } else {
      Case2b1OutOfRange(b, scale);
      Case2b3Check(b, scale);
    }
  }

  lemma SolvedExactly3(b: Totals, scale: nat)
    requires scale > 0
    requires 3 * b.e < b.Sum() <= 3 * b.g || 3 * b.g < b.Sum() <= 3 * b.e
    ensures Recompute(b, scale).Solved?
    ensures SumsAndRange(Recompute(b, scale).w, scale)
    ensures Recompute(b, scale).c in {Case3bG, Case3bE} ==>
            BalancedWithin(Recompute(b, scale).w, b, scale, 3 * b.Sum())
  {
    if 3 * (Min(b.e, b.g) + b.d) < b.Sum() {
      if b.g < b.e && b.m <= b.e {
        ShareInRange(scale, b.e - b.m, 2 * b.e);
      } else if b.e <= b.g && b.m <= b.g {
        ShareInRange(scale, b.g - b.m, 2 * b.g);
      }
    } else if b.g < b.e {
      Case3bGFits(b, scale);
      BudgetPassesCheck(Weights3bG(b, scale), b, scale);
    } else {
      Case3bEFits(b, scale);
      BudgetPassesCheck(Weights3bE(b, scale), b, scale);
    }
  }

  // The "inconsistent values" raise is dead; the solver divides by zero exactly without any
  // bandwidth or in case 2b without exits or without Guard+Exit relays; and otherwise it fails
  // only in case 2b with more than a third of the bandwidth in plain middles, and then exactly
  // when the check does not accept the third attempt.
  lemma RecomputeOutcome(b: Totals, scale: nat)
    requires scale > 0
    ensures Recompute(b, scale) != Inconsistent
    ensures Recompute(b, scale) == ZeroDivision <==>
            b.Sum() == 0 || (IsCase2b(b) && (b.e == 0 || b.d == 0))
    ensures Recompute(b, scale).Raised? <==>
            IsCase2b(b) && b.e > 0 && b.d > 0 && 3 * b.m > b.Sum() && !MiddleSurplusAccepted(b, scale)
  {
    if 3 * b.e >= b.Sum() && 3 * b.g >= b.Sum() {
      SolvedExactly1(b, scale);
    } else if 3 * b.e < b.Sum() && 3 * b.g < b.Sum() {
      if IsCase2b(b) && b.e > 0 && b.d > 0 {
        SolvedExactly2b(b, scale);
      }
    } else {
      SolvedExactly3(b, scale);
    }
  }

  // Which attempt answers in case 2b: the first one exactly under a condition on the totals.
  lemma FirstAttemptAnswers(b: Totals, scale: nat)
    requires scale > 0 && IsCase2b(b) && b.e > 0 && b.d > 0
    ensures Recompute(b, scale) == Solved(Case2b1, Weights2b1(b, scale)) <==> FirstAttempt(b)
    ensures !FirstAttempt(b) ==> (Recompute(b, scale).Solved? ==> Recompute(b, scale).w == Weights2b23(b, scale).1)
  {
    CheckMeans(Weights2b1(b, scale), scale, b);
    Case2b1Fits(b, scale);
    if FirstAttempt(b) {
      BudgetPassesCheck(Weights2b1(b, scale), b, scale);
    }
  }

  // Which case it is, from the totals.
  lemma CasesByTotals(b: Totals, scale: nat)
    requires scale > 0 && Recompute(b, scale).Solved?
    ensures Recompute(b, scale).c ==
            if 3 * b.e >= b.Sum() && 3 * b.g >= b.Sum() then Case1
            else if 3 * b.e < b.Sum() && 3 * b.g < b.Sum() then
              if b.e + b.d < b.g then Case2aE else if b.g + b.d < b.e then Case2aG
              else if FirstAttempt(b) then Case2b1 else if 3 * b.m > b.Sum() then Case2b3 else Case2b2
            else if b.g < b.e then if 3 * (b.g + b.d) < b.Sum() then Case3aG else Case3bG
            else if 3 * (b.e + b.d) < b.Sum() then Case3aE else Case3bE
  {
    if IsCase2b(b) && b.e > 0 && b.d > 0 {
      FirstAttemptAnswers(b, scale);
      Case2b1Fits(b, scale);
      CheckMeans(Weights2b1(b, scale), scale, b);
      if 3 * b.m > b.Sum() {
        Case2b3Check(b, scale);
      } else {
        Case2b2Fits(b, scale);
      }
    }
  }

  // The equalities that each case promises by its name, for every vector the solver hands out, in
  // terms of the totals. With the balance of the loads they leave nothing but rounding open.
  lemma SolutionShape(b: Totals, scale: nat)
    requires scale > 0 && Recompute(b, scale).Solved?
    ensures var w := Recompute(b, scale).w;
            if 3 * b.e >= b.Sum() && 3 * b.g >= b.Sum() then  // neither scarce
              w.wgd == w.wmd == w.wed && 3 * w.wgd <= scale < 3 * w.wgd + 3 && w.wgg + w.wmg == scale && w.wee + w.wme == scale
            else if 3 * b.e < b.Sum() && 3 * b.g < b.Sum() then  // both scarce
              if b.e + b.d < b.g then w == Weights(scale, 0, 0, 0, 0, scale, scale)
              else if b.g + b.d < b.e then w == Weights(scale, scale, 0, 0, 0, scale, 0)
              else if FirstAttempt(b) then
                w.wgg == scale && w.wmg == 0 && w.wmd == w.wgd && 0 <= scale - w.wed - 2 * w.wgd <= 1 && scale - 1 <= w.wee + w.wme <= scale
              else
                w.wgg == w.wee == scale && w.wmg == w.wme == 0 && w.wgd + w.wmd + w.wed == scale && (3 * b.m > b.Sum() ==> w.wmd == 0)
            else if b.g < b.e then  // guards scarce
              if 3 * (b.g + b.d) < b.Sum() then w.wgg == w.wgd == scale && w.wmd == w.wed == w.wmg == 0 && w.wee + w.wme == scale
              else w.wgg == scale && w.wmg == 0 && w.wmd == w.wed && 0 <= scale - w.wgd - 2 * w.wmd <= 1 && w.wee + w.wme == scale
            else  // exits scarce
              if 3 * (b.e + b.d) < b.Sum() then w.wee == w.wed == scale && w.wmd == w.wgd == w.wme == 0 && w.wgg + w.wmg == scale
              else w.wee == scale && w.wme == 0 && w.wmd == w.wgd && 0 <= scale - w.wed - 2 * w.wmd <= 1 && w.wgg + w.wmg == scale
  {
    if IsCase2b(b) && b.e > 0 && b.d > 0 {
      FirstAttemptAnswers(b, scale);
      Case2b1Fits(b, scale);
      if FirstAttempt(b) {
        AlmostWhole(scale, b.e - b.g + b.m, b.g - b.m, b.e);
      } else if 3 * b.m > b.Sum() {
        Case2b3Check(b, scale);
      }
    }
  }

  // In case 2a nothing is left for the middle but the plain middles: no vector in range whose
  // roles sum to the scale gives guard and exit position more together.
  lemma ScarcePositionsGetAll(b: Totals, scale: nat, other: Weights)
    requires scale > 0 && Recompute(b, scale).Solved? && Recompute(b, scale).c in {Case2aE, Case2aG}
    requires InRange(other, scale) && other.wgg + other.wmg == scale && other.wee + other.wme == scale
    requires other.wgd + other.wmd + other.wed == scale
    ensures var w := Recompute(b, scale).w;
            && GuardLoad(other, b) + ExitLoad(other, b) <= GuardLoad(w, b) + ExitLoad(w, b)
            && MiddleLoad(w, b, scale) == scale * b.m && GuardLoad(w, b) + ExitLoad(w, b) == scale * (b.g + b.e + b.d)
  {
    var w := Recompute(b, scale).w;
    Distribute(scale, b.g, b.e, b.d);
    ScaleMono(b.g, other.wgg, scale);
    ScaleMono(b.e, other.wee, scale);
    ScaleMono(b.d, other.wgd + other.wed, scale);
    assert other.wgd * b.d + other.wed * b.d == b.d * (other.wgd + other.wed);
    assert other.wgg * b.g == b.g * other.wgg && other.wee * b.e == b.e * other.wee;
  }

  // With some exits, and at most a third of the bandwidth in plain middles, the solver never
  // fails. Case 2b needs no precondition on the Guard+Exit relays: there must be some then.
  lemma NoMiddleSurplusNeverRaises(b: Totals, scale: nat)
    requires scale > 0 && b.e > 0 && 3 * b.m <= b.Sum()
    ensures Recompute(b, scale).Solved?
  {
    RecomputeOutcome(b, scale);
    if IsCase2b(b) {
      assert b.d > 0;
    }
  }

  // Every vector the solver hands out, checked or not, is a weight vector: the weights of each
  // relay role sum to the scale within the margin, and each lies between zero and the scale.
  lemma SolvedVectorFits(b: Totals, scale: nat)
    requires scale > 0 && Recompute(b, scale).Solved?
    ensures SumsAndRange(Recompute(b, scale).w, scale)
  {
    if 3 * b.e >= b.Sum() && 3 * b.g >= b.Sum() {
      SolvedExactly1(b, scale);
      if b.Sum() > 0 {
        Case1Fits(b, scale);
      }
    } else if 3 * b.e < b.Sum() && 3 * b.g < b.Sum() {
      if IsCase2b(b) && b.e > 0 && b.d > 0 {
        SolvedExactly2b(b, scale);
      }
    } else {
      SolvedExactly3(b, scale);
    }
  }

  // In every case meant to balance the three positions, except the fallback 2b3, guard, middle
  // and exit load agree within 3 T, which is what rounding costs; and which cases those are, from
  // the totals.
  lemma SolvedVectorBalances(b: Totals, scale: nat)
    requires scale > 0 && Recompute(b, scale).Solved?
    ensures Recompute(b, scale).c in {Case1, Case2b1, Case2b2, Case3bG, Case3bE} ==>
            BalancedWithin(Recompute(b, scale).w, b, scale, 3 * b.Sum())
    ensures 3 * (Min(b.e, b.g) + b.d) >= b.Sum() && !IsCase2b(b) ==> BalancedWithin(Recompute(b, scale).w, b, scale, 3 * b.Sum())
    ensures IsCase2b(b) && 3 * b.m <= b.Sum() ==> BalancedWithin(Recompute(b, scale).w, b, scale, 3 * b.Sum())
    ensures Recompute(b, scale).c == Case2b3 ==> 3 * b.m > b.Sum()
  {
    if 3 * b.e >= b.Sum() && 3 * b.g >= b.Sum() {
      SolvedExactly1(b, scale);
      if b.Sum() > 0 {
        Case1Fits(b, scale);
      }
    } else if 3 * b.e < b.Sum() && 3 * b.g < b.Sum() {
      if IsCase2b(b) && b.e > 0 && b.d > 0 {
        CheckMeans(Weights2b1(b, scale), scale, b);
        Case2b1Fits(b, scale);
        if 3 * b.m <= b.Sum() {
          Case2b2Fits(b, scale);
        } else {
          Case2b3Check(b, scale);
        }
      }
    } else {
      SolvedExactly3(b, scale);
    }
  }

  // One plain middle relay ten times as fast as everything else: the solver raises.
  lemma MiddleSurplusRaises()
    ensures Recompute(Totals(1, 10, 1, 1), 10000) == Raised(Range)
  {}

  // In the unchecked cases 2a and 3a the scarce position gets everything it can use: no weight
  // vector in range loads it more, and still it stays below a third of the scaled bandwidth.
  lemma ScarcePositionGetsAll(b: Totals, scale: nat, other: Weights)
    requires scale > 0 && Recompute(b, scale).Solved? && InRange(other, scale)
    ensures var w := Recompute(b, scale).w;
            && (Recompute(b, scale).c in {Case2aE, Case3aE} ==>
                  ExitLoad(other, b) <= ExitLoad(w, b) && 3 * ExitLoad(w, b) < scale * b.Sum())
            && (Recompute(b, scale).c in {Case2aG, Case3aG} ==>
                  GuardLoad(other, b) <= GuardLoad(w, b) && 3 * GuardLoad(w, b) < scale * b.Sum())
  {
    var c := Recompute(b, scale).c;
    if c in {Case2aE, Case3aE} {
      FullLoad(scale, b.e, b.d, b.Sum(), other.wee, other.wed);
    } else if c in {Case2aG, Case3aG} {
      FullLoad(scale, b.g, b.d, b.Sum(), other.wgg, other.wgd);
    }
  }

  lemma FullLoad(scale: nat, r: nat, d: nat, t: nat, p: int, q: int)
    requires scale > 0 && 3 * (r + d) < t && 0 <= p <= scale && 0 <= q <= scale
    ensures p * r + q * d <= scale * r + scale * d
    ensures 3 * (scale * r + scale * d) < scale * t
  {
    assert p * r == r * p && q * d == d * q && scale * r == r * scale && scale * d == d * scale;
    ScaleMono(r, p, scale);
    ScaleMono(d, q, scale);
    calc {
      3 * (scale * r + scale * d);
      scale * (3 * (r + d));
    <  { ScaleMono(scale, 3 * (r + d) + 1, t); Distribute(scale, 3 * (r + d), 1, 0); }
      scale * t;
    }
  }

  // Case 3a splits the plentiful role evenly with the middle: the two loads agree up to
  // rounding, unless there are already more plain middles, which then get none of it.
  lemma PlentifulRoleSharesWithMiddle(b: Totals, scale: nat)
    requires scale > 0 && Recompute(b, scale).Solved?
    ensures var w := Recompute(b, scale).w;
            && (Recompute(b, scale).c == Case3aG ==>
                  if b.e < b.m then w.wme == 0 else
                  0 <= ExitLoad(w, b) - MiddleLoad(w, b, scale) < 2 * b.e)
            && (Recompute(b, scale).c == Case3aE ==>
                  if b.g < b.m then w.wmg == 0 else
                  0 <= GuardLoad(w, b) - MiddleLoad(w, b, scale) < 2 * b.g)
  {
    if Recompute(b, scale).c == Case3aG && b.m <= b.e {
      HalfTheSurplus(scale, b.e, b.m);
    } else if Recompute(b, scale).c == Case3aE && b.m <= b.g {
      HalfTheSurplus(scale, b.g, b.m);
    }
  }

  lemma HalfTheSurplus(scale: nat, r: nat, m: nat)
    requires m <= r && 0 < r
    ensures var q := scale * (r - m) / (2 * r);
            0 <= (scale - q) * r - (m * scale + q * r) < 2 * r
  {
    var q := scale * (r - m) / (2 * r);
    Rounds2(scale * (r - m), r);
    Distribute(scale, r, -(m as int), 0);
    MulSub(scale, q, r);
  }
}
