/**
  The protected Vivaldi node of vivaldinode.c with the options of safest_ext.cc: its windows of
  reference-counted samples, the checks that look back over them, and its prediction error.
*/
module Vivaldi {
  import opened Basics

  const MEMORY_SIZE := 200
  const BOOTSTRAP_COUNT := 200
  const ERROR_WINDOW := 30
  const CENTROID_WINDOW := 30
  const REJECT_RATE := 0.5

  datatype Coord = Coord(x: real, y: real, z: real) {
    function Plus(c: Coord): Coord { Coord(x + c.x, y + c.y, z + c.z) }
    function DividedBy(d: real): Coord requires d != 0.0 { Coord(x / d, y / d, z / d) }
  }

  const Origin := Coord(0.0, 0.0, 0.0)

  function Abs(r: real): real { if r < 0.0 then -r else r }
  // ---------- samples ----------

  class Sample {
    const c: Coord
    const latency: real
    const error: real
    var refct: int
    ghost var freed: bool  // there is no way back from true

    constructor (c: Coord, latency: real, error: real)
      ensures this.c == c && this.latency == latency && this.error == error && refct == 0 && !freed
    {
      this.c, this.latency, this.error, refct, freed := c, latency, error, 0, false;
    }

    // Gives up one reference. The memory is freed with the last one, and must not have been before.
    method Free()
      requires !freed
      modifies this
      ensures refct == old(refct) - 1 && (freed <==> refct <= 0)
    {
      refct := refct - 1;
      if refct > 0 {
        return;
      }
      freed := true;
    }
  }

  ghost function In(s: Sample, window: seq<Sample>): nat { if s in window then 1 else 0 }

  // Of all samples there ever were, those that a window holds know how many do; the others are freed.
  ghost predicate CountsOk(samples: set<Sample>, a: seq<Sample>, b: seq<Sample>, c: seq<Sample>)
    reads samples
  {
    forall s :: s in samples ==>
      if s in a || s in b || s in c then !s.freed && s.refct == In(s, a) + In(s, b) + In(s, c) else s.freed
  }

  ghost predicate WindowOk(samples: set<Sample>, window: seq<Sample>)
  {
    (forall i, j :: 0 <= i < j < |window| ==> window[i] != window[j]) && forall s :: s in window ==> s in samples
  }

  // A new reference: the sample is either new or held by one of the other two windows.
  method InsertFront(window: seq<Sample>, s: Sample, ghost samples: set<Sample>, ghost b: seq<Sample>, ghost c: seq<Sample>)
    returns (after: seq<Sample>)
    requires CountsOk(samples, window, b, c) && WindowOk(samples, window) && s !in window
    requires if s in samples then s in b || s in c else s.refct == 0 && !s.freed && s !in b && s !in c
    modifies s
    ensures after == [s] + window && CountsOk(samples + {s}, after, b, c) && WindowOk(samples + {s}, after)
  {
    s.refct := s.refct + 1;
    after := [s] + window;
  }

  method PopLast(window: seq<Sample>, ghost samples: set<Sample>, ghost b: seq<Sample>, ghost c: seq<Sample>)
    returns (after: seq<Sample>)
    requires window != [] && CountsOk(samples, window, b, c) && WindowOk(samples, window)
    modifies samples
    ensures after == window[..|window| - 1] && CountsOk(samples, after, b, c) && WindowOk(samples, after)
  {
    var last := window[|window| - 1];
    assert last in samples;
    after := window[..|window| - 1];
    assert last !in after;
    assert forall s :: s in window <==> s in after || s == last;
    last.refct := last.refct - 1;
    if last.refct <= 0 {
      last.Free();
    }
  }

  method Shrink(window: seq<Sample>, size: nat, ghost samples: set<Sample>, ghost b: seq<Sample>, ghost c: seq<Sample>)
    returns (after: seq<Sample>)
    requires CountsOk(samples, window, b, c) && WindowOk(samples, window)
    modifies samples
    ensures after == window[..Min(size, |window|)] && CountsOk(samples, after, b, c) && WindowOk(samples, after)
  {
    hide CountsOk, WindowOk;
    after := window;
    while |after| > size
      invariant |after| <= |window| && after == window[..|after|] && (|window| > size ==> |after| >= size)
      invariant |window| <= size ==> after == window
      invariant CountsOk(samples, after, b, c) && WindowOk(samples, after)
    {
      after := PopLast(after, samples, b, c);
    }
  }

  // ---------- prediction error ----------

  // The weighted mean of the own error and the sample's relative error, one twentieth of which is
  // taken over. Both errors are squared for the weights. The result never leaves (0, 1], and lies
  // on the relative error's side of the own one.
  function UpdatedError(own: real, other: real, relative: real): (r: real)
    requires 0.0 < own <= 1.0 && 0.0 < other <= 1.0 && relative >= 0.0
    ensures 0.0 < r <= 1.0
    ensures (own <= relative ==> own <= r) && (relative <= own ==> r <= own)
    ensures MovesBy(own, other, relative, r)
  {
    DrawnMoves(own, relative, Product(own, own), Product(other, other));
    var r := (19.0 * own + Drawn(own, relative, Product(own, own), Product(other, other))) / 20.0;
    if r > 1.0 then 1.0 else r
  }

  // The weight of a sample: the own share of both errors.
  function SampleWeight(own: real, other: real): (w: real)
    requires own > 0.0 && other > 0.0
    ensures 0.0 < w < 1.0 && w * (own + other) == own
  {
    Shares(own, other);
    own / (own + other)
  }

  function RelativeError(expected: real, actual: real): (r: real)
    requires actual > 0.0
    ensures r >= 0.0 && r * actual == Abs(expected - actual)
  {
    Abs(expected - actual) / actual
  }

  // How far the error moves: by a twentieth of its distance from the relative error, in the
  // proportion of the square of the own error to the sum of both squares, but never above 1.
  ghost predicate MovesBy(own: real, other: real, relative: real, r: real)
    requires own > 0.0 && other > 0.0
  {
    var ce, he := Product(own, own), Product(other, other);
    if (relative - own) * ce > 20.0 * (1.0 - own) * (he + ce) then r == 1.0
    else 20.0 * (r - own) * (he + ce) == (relative - own) * ce
  }

  lemma DrawnMoves(own: real, relative: real, ce: real, he: real)
    requires own > 0.0 && relative >= 0.0 && ce > 0.0 && he > 0.0
    ensures var r := (19.0 * own + Drawn(own, relative, ce, he)) / 20.0;
            && 20.0 * (r - own) * (he + ce) == (relative - own) * ce
            && (r > 1.0 <==> (relative - own) * ce > 20.0 * (1.0 - own) * (he + ce))
  {
    var sum := he + ce;
    var p, q := ce / sum, he / sum;
    var mean := Drawn(own, relative, ce, he);
    assert mean == relative * p + own * q && p * sum == ce && q * sum == he;
    assert mean * sum == relative * ce + own * he by {
      TimesSum(relative, own, p, q, sum, ce, he);
    }
    var r := (19.0 * own + mean) / 20.0;
    assert 20.0 * (r - own) == mean - own;
    assert (mean - own) * sum == mean * sum - own * sum;
    assert own * sum == own * he + own * ce && (relative - own) * ce == relative * ce - own * ce;
    if r > 1.0 {
      SameSide(r - own, 1.0 - own, sum);
    } else {
      SameSide(1.0 - own, r - own, sum);
    }
  }

  lemma TimesSum(x: real, y: real, p: real, q: real, sum: real, a: real, b: real)
    requires p * sum == a && q * sum == b
    ensures (x * p + y * q) * sum == x * a + y * b
  {
    assert (x * p) * sum == x * (p * sum) && (y * q) * sum == y * (q * sum);
  }

  lemma SameSide(x: real, y: real, sum: real)
    requires sum > 0.0
    ensures x > y ==> 20.0 * x * sum > 20.0 * y * sum
    ensures x >= y ==> 20.0 * x * sum >= 20.0 * y * sum
  {
    assert 20.0 * x * sum - 20.0 * y * sum == 20.0 * ((x - y) * sum);
    assert x - y >= 0.0 ==> (x - y) * sum >= 0.0;
    assert x - y > 0.0 ==> (x - y) * sum > 0.0;
  }

  // The same in plain arithmetic.
  lemma ErrorMovesBy(own: real, other: real, relative: real, r: real)
    requires own > 0.0 && other > 0.0
    ensures MovesBy(own, other, relative, r) <==>
            var sum := other * other + own * own;
            if (relative - own) * (own * own) > 20.0 * (1.0 - own) * sum then r == 1.0
            else 20.0 * (r - own) * sum == (relative - own) * (own * own)
  {
    assert Product(own, own) == own * own && Product(other, other) == other * other;
  }

  // So the error does move, unless it is right already or cannot grow.
  lemma ErrorMoves(own: real, other: real, relative: real, r: real)
    requires 0.0 < own <= 1.0 && 0.0 < other <= 1.0 && relative >= 0.0 && MovesBy(own, other, relative, r)
    ensures r == own <==> relative == own || (own == 1.0 && relative > 1.0)
    ensures relative < own ==> r < own
  {
    var ce, he := Product(own, own), Product(other, other);
    ProductSign(relative - own, ce);
    ProductSign(20.0 * (r - own), he + ce);
    ProductSign(20.0 * (1.0 - own), he + ce);
  }

  lemma ProductSign(x: real, y: real)
    requires y > 0.0
    ensures (x * y > 0.0 <==> x > 0.0) && (x * y == 0.0 <==> x == 0.0) && (x * y < 0.0 <==> x < 0.0)
  {
    assert x > 0.0 ==> x * y > 0.0;
    assert -x > 0.0 ==> -x * y > 0.0;
    assert -x * y == -(x * y);
  }

  // The mean of the two errors, by the shares of ce and he.
  function Drawn(own: real, relative: real, ce: real, he: real): (mean: real)
    requires own > 0.0 && relative >= 0.0 && ce > 0.0 && he > 0.0
    ensures mean > 0.0 && (own <= relative ==> own <= mean) && (relative <= own ==> mean <= own)
  {
    Shares(ce, he);
    MeanBetween(relative, own, ce / (he + ce), he / (he + ce));
    relative * (ce / (he + ce)) + own * (he / (he + ce))
  }

  function Product(x: real, y: real): (r: real)
    requires x > 0.0 && y > 0.0
    ensures r > 0.0
  {
    x * y
  }

  lemma Shares(a: real, b: real)
    requires a > 0.0 && b > 0.0
    ensures a / (b + a) > 0.0 && b / (b + a) > 0.0 && a / (b + a) + b / (b + a) == 1.0
  {
    assert a / (b + a) + b / (b + a) == (a + b) / (b + a);
  }

  lemma MeanBetween(x: real, y: real, p: real, q: real)
    requires x >= 0.0 && y > 0.0 && p > 0.0 && q > 0.0 && p + q == 1.0
    ensures var mean := x * p + y * q;
            mean > 0.0 && (y <= x ==> y <= mean) && (x <= y ==> mean <= y)
  {
    assert x * p >= 0.0 && y * q > 0.0;
    assert x * p + y * q - y == (x - y) * p;
    assert x - y >= 0.0 ==> (x - y) * p >= 0.0;
    assert x - y <= 0.0 ==> (x - y) * p <= 0.0;
  }

  // The surer the other node is of its coordinate, the further the error moves.
  lemma SurerMovesMore(own: real, sure: real, unsure: real, relative: real)
    requires 0.0 < own <= 1.0 && 0.0 < sure <= unsure <= 1.0 && relative >= 0.0
    ensures own <= relative ==> UpdatedError(own, unsure, relative) <= UpdatedError(own, sure, relative)
    ensures relative <= own ==> UpdatedError(own, sure, relative) <= UpdatedError(own, unsure, relative)
    ensures sure < unsure && relative < own ==> UpdatedError(own, sure, relative) < UpdatedError(own, unsure, relative)
  {
    if sure < unsure && relative < own {
      StrictlyMore(own, sure, unsure, relative);
    }
    ProductMono(sure, unsure);
    DrawnMono(own, relative, Product(own, own), Product(sure, sure), Product(unsure, unsure));
  }

  lemma StrictlyMore(own: real, sure: real, unsure: real, relative: real)
    requires 0.0 < own <= 1.0 && 0.0 < sure < unsure <= 1.0 && 0.0 <= relative < own
    ensures UpdatedError(own, sure, relative) < UpdatedError(own, unsure, relative)
  {
    hide UpdatedError, MovesBy, Product;
    var r, q := UpdatedError(own, sure, relative), UpdatedError(own, unsure, relative);
    StrictProduct(sure, unsure);
    ErrorShrinks(own, sure, relative, r);
    ErrorShrinks(own, unsure, relative, q);
    Closer(r, q, own, Product(sure, sure) + Product(own, own), Product(unsure, unsure) + Product(own, own));
  }

  lemma Closer(r: real, q: real, own: real, a: real, b: real)
    requires 0.0 < a < b && 20.0 * (r - own) * a == 20.0 * (q - own) * b < 0.0
    ensures r < q
  {
    LessShare(20.0 * (r - own), 20.0 * (q - own), a, b);
  }

  lemma ErrorShrinks(own: real, other: real, relative: real, r: real)
    requires 0.0 < own <= 1.0 && 0.0 < other <= 1.0 && 0.0 <= relative < own && MovesBy(own, other, relative, r)
    ensures var ce := Product(own, own);
            20.0 * (r - own) * (Product(other, other) + ce) == (relative - own) * ce < 0.0
  {
    hide Product;
    var ce, he := Product(own, own), Product(other, other);
    ProductSign(relative - own, ce);
    ProductSign(20.0 * (1.0 - own), he + ce);
  }

  lemma StrictProduct(x: real, y: real)
    requires 0.0 < x < y
    ensures Product(x, x) < Product(y, y)
  {
    assert x * x < x * y && x * y < y * y;
  }

  // Of two equal negative products the one with the smaller factor has the more negative one.
  lemma LessShare(x: real, y: real, a: real, b: real)
    requires 0.0 < a < b && x * a == y * b < 0.0
    ensures x < y
  {
    if x >= y {
      ProductSign(y, b);
      assert (x - y) * a >= 0.0;
      assert x * a == y * a + (x - y) * a && y * b == y * a + y * (b - a);
      ProductSign(y, b - a);
    }
  }

  lemma DrawnMono(own: real, relative: real, ce: real, hs: real, hu: real)
    requires own > 0.0 && relative >= 0.0 && ce > 0.0 && 0.0 < hs <= hu
    ensures own <= relative ==> Drawn(own, relative, ce, hu) <= Drawn(own, relative, ce, hs)
    ensures relative <= own ==> Drawn(own, relative, ce, hs) <= Drawn(own, relative, ce, hu)
  {
    SmallerShare(ce, hs, hu);
    Shares(ce, hs);
    Shares(ce, hu);
    MeanMoves(relative, own, ce / (hs + ce), hs / (hs + ce), ce / (hu + ce), hu / (hu + ce));
  }

  lemma ProductMono(x: real, y: real)
    requires 0.0 < x <= y
    ensures Product(x, x) <= Product(y, y)
  {
    assert Product(x, x) == x * x && Product(x, y) == x * y && Product(y, y) == y * y;
    assert x * x <= x * y <= y * y;
  }

  lemma SmallerShare(a: real, b: real, c: real)
    requires a > 0.0 && 0.0 < b <= c
    ensures a / (c + a) <= a / (b + a)
  {
    var p, q := a / (c + a), a / (b + a);
    assert p * (c + a) == a && q * (b + a) == a;
    assert p > q ==> p * (b + a) > q * (b + a);
    assert p * (c + a) >= p * (b + a);
  }

  lemma MeanMoves(x: real, y: real, p: real, q: real, p': real, q': real)
    requires p + q == 1.0 && p' + q' == 1.0 && p' <= p
    ensures y <= x ==> x * p' + y * q' <= x * p + y * q
    ensures x <= y ==> x * p + y * q <= x * p' + y * q'
  {
    assert x * p + y * q - y == (x - y) * p && x * p' + y * q' - y == (x - y) * p';
    assert x - y >= 0.0 ==> (x - y) * p' <= (x - y) * p;
    assert x - y <= 0.0 ==> (x - y) * p <= (x - y) * p';
  }

  // The weight is written "1.0 - (own > other) ? own : other", where the subtraction binds first:
  // it is the smaller error, not the complement of the greater one.
  function ErrorWeight(own: real, other: real): (w: real)
    ensures w <= own && w <= other && (w == own || w == other)
  {
    if 1.0 - (if own > other then 1.0 else 0.0) != 0.0 then own else other
  }

  // That is the complement only where the two errors add up to one.
  lemma WeightIsComplement(own: real, other: real)
    ensures ErrorWeight(own, other) == 1.0 - (if own > other then own else other) <==> own + other == 1.0
  {}

  // ---------- medians ----------

  // What qsort leaves behind.
  function SortReals(s: seq<real>): (r: seq<real>)
    ensures |r| == |s|
  {
    if s == [] then [] else InsertReal(SortReals(s[1..]), s[0])
  }

  function InsertReal(s: seq<real>, x: real): (r: seq<real>)
    ensures |r| == |s| + 1
  {
    if s == [] || x <= s[0] then [x] + s else [s[0]] + InsertReal(s[1..], x)
  }

  ghost predicate Ascending(s: seq<real>) { forall i, j :: 0 <= i < j < |s| ==> s[i] <= s[j] }

  // How many are at most x.
  ghost function AtMost(s: seq<real>, x: real): (n: nat)
    ensures n <= |s|
  {
    if s == [] then 0 else (if s[0] <= x then 1 else 0) + AtMost(s[1..], x)
  }

  lemma {:induction false} InsertRealOk(s: seq<real>, y: real, x: real)
    requires Ascending(s)
    ensures Ascending(InsertReal(s, y))
    ensures AtMost(InsertReal(s, y), x) == AtMost(s, x) + if y <= x then 1 else 0
    ensures InsertReal(s, y)[0] == if s == [] || y <= s[0] then y else s[0]
  {
    if s != [] && y > s[0] {
      InsertRealOk(s[1..], y, x);
      InsertRealLeast(s[1..], y, s[0]);
    }
  }

  lemma {:induction false} InsertRealLeast(s: seq<real>, y: real, least: real)
    requires least <= y && forall i :: 0 <= i < |s| ==> least <= s[i]
    ensures forall i :: 0 <= i < |s| + 1 ==> least <= InsertReal(s, y)[i]
  {
    if s != [] && y > s[0] {
      InsertRealLeast(s[1..], y, least);
    }
  }

  lemma {:induction false} SortRealsOk(s: seq<real>, x: real)
    ensures Ascending(SortReals(s)) && AtMost(SortReals(s), x) == AtMost(s, x)
  {
    if s != [] {
      SortRealsOk(s[1..], x);
      InsertRealOk(SortReals(s[1..]), s[0], x);
    }
  }

  lemma {:induction false} NthAtMost(s: seq<real>, k: nat, x: real)
    requires Ascending(s) && k < |s|
    ensures s[k] <= x <==> AtMost(s, x) > k
  {
    if k == 0 {
      if s[0] > x {
        NoneAtMost(s, x);
      }
    } else {
      NthAtMost(s[1..], k - 1, x);
      if s[0] > x {
        NoneAtMost(s, x);
        assert s[0] <= s[k];
      }
    }
  }

  lemma {:induction false} NoneAtMost(s: seq<real>, x: real)
    requires forall i :: 0 <= i < |s| ==> s[i] > x
    ensures AtMost(s, x) == 0
  {
    if s != [] {
      NoneAtMost(s[1..], x);
    }
  }

  function Median(s: seq<real>): real
    requires s != []
  {
    SortReals(s)[(|s| - 1) / 2]
  }

  // The median is at most x exactly if more than half of the others could be, the lower one of
  // two in the middle counting.
  lemma MedianAtMost(s: seq<real>, x: real)
    requires s != []
    ensures Median(s) <= x <==> AtMost(s, x) > (|s| - 1) / 2
  {
    SortRealsOk(s, x);
    NthAtMost(SortReals(s), (|s| - 1) / 2, x);
  }

  lemma {:induction false} AtMostMono(s: seq<real>, t: seq<real>, x: real)
    requires |s| == |t| && forall i :: 0 <= i < |s| ==> s[i] <= t[i]
    ensures AtMost(t, x) <= AtMost(s, x)
  {
    if s != [] {
      AtMostMono(s[1..], t[1..], x);
    }
  }

  lemma MedianMono(s: seq<real>, t: seq<real>)
    requires |s| == |t| > 0 && forall i :: 0 <= i < |s| ==> s[i] <= t[i]
    ensures Median(s) <= Median(t)
  {
    AtMostMono(s, t, Median(t));
    MedianAtMost(t, Median(t));
    MedianAtMost(s, Median(t));
  }

  // ---------- the variance in one pass ----------

  ghost function Sum(s: seq<real>): real
  {
    if s == [] then 0.0 else Sum(s[..|s| - 1]) + s[|s| - 1]
  }

  function SquareOf(x: real): real { x * x }

  // The sum of the squared distances from m.
  ghost function Squares(s: seq<real>, m: real): real
  {
    if s == [] then 0.0 else Squares(s[..|s| - 1], m) + SquareOf(s[|s| - 1] - m)
  }

  // The squared distances from b, from those from a, of n numbers with sum t.
  ghost function Shifted(q: real, t: real, n: real, a: real, b: real): real
  {
    q + 2.0 * (a - b) * (t - n * a) + n * SquareOf(a - b)
  }

  lemma ShiftNone(a: real, b: real)
    ensures Shifted(0.0, 0.0, 0.0, a, b) == 0.0
  {}

  lemma ShiftOne(q: real, t: real, n: real, x: real, a: real, b: real)
    ensures Shifted(q, t, n, a, b) + SquareOf(x - b) == Shifted(q + SquareOf(x - a), t + x, n + 1.0, a, b)
  {}

  lemma {:induction false} SquaresShift(s: seq<real>, a: real, b: real)
    ensures Squares(s, b) == Shifted(Squares(s, a), Sum(s), |s| as real, a, b)
  {
    hide Shifted, SquareOf;
    if s == [] {
      ShiftNone(a, b);
    } else {
      var front, x := s[..|s| - 1], s[|s| - 1];
      SquaresShift(front, a, b);
      ShiftOne(Squares(front, a), Sum(front), |front| as real, x, a, b);
    }
  }

  // The mean of n numbers is m.
  ghost predicate IsMean(t: real, n: real, m: real) { t == n * m }

  function Next(mean: real, x: real, n: real): real
    requires n != 0.0
  {
    mean + (x - mean) / n
  }

  function Gain(x: real, mean: real, mean': real): real { (x - mean) * (x - mean') }

  lemma NextMean(t: real, n: real, mean: real, x: real)
    requires IsMean(t, n, mean) && n + 1.0 != 0.0
    ensures IsMean(t + x, n + 1.0, Next(mean, x, n + 1.0))
  {
    var d := (x - mean) / (n + 1.0);
    assert (n + 1.0) * d == x - mean;
    assert (n + 1.0) * (mean + d) == (n + 1.0) * mean + (n + 1.0) * d;
  }

  lemma NextSquares(q: real, t: real, n: real, mean: real, x: real)
    requires IsMean(t, n, mean) && n + 1.0 != 0.0
    ensures var mean' := Next(mean, x, n + 1.0);
            Shifted(q, t, n, mean, mean') + SquareOf(x - mean') == q + Gain(x, mean, mean')
  {
    var d := (x - mean) / (n + 1.0);
    assert x - mean == n * d + d;
    StepIdentity(n, d);
  }

  lemma StepIdentity(n: real, d: real)
    ensures n * SquareOf(-d) + SquareOf(n * d) == (n * d + d) * (n * d)
  {}

  // One step of the recurrence.
  lemma WelfordStep(s: seq<real>, x: real, mean: real)
    requires IsMean(Sum(s), |s| as real, mean)
    ensures var mean' := Next(mean, x, (|s| + 1) as real);
            && IsMean(Sum(s + [x]), (|s| + 1) as real, mean')
            && Squares(s + [x], mean') == Squares(s, mean) + Gain(x, mean, mean')
  {
    hide Shifted, SquareOf, IsMean, Next, Gain;
    var n := |s| as real;
    assert (|s| + 1) as real == n + 1.0;
    var mean' := Next(mean, x, n + 1.0);
    NextMean(Sum(s), n, mean, x);
    NextSquares(Squares(s, mean), Sum(s), n, mean, x);
    assert (s + [x])[..|s|] == s;
    SquaresShift(s, mean, mean');
  }

  lemma MeanIs(t: real, n: real, m: real)
    requires IsMean(t, n, m) && n != 0.0
    ensures t / n == m
  {}

  lemma SingleMean(x: real)
    ensures IsMean(Sum([x]), 1.0, x) && Squares([x], x) == 0.0
  {
    assert [x][..0] == [];
  }

  // The recurrence gives the variance about the mean of the whole list.
  method VarianceDouble(values: seq<real>) returns (v: real)
    ensures |values| <= 1 ==> v == 0.0
    ensures |values| > 1 ==> v == Squares(values, Sum(values) / |values| as real) / (|values| - 1) as real
  {
    hide IsMean, SquareOf, Squares, Sum;
    var n := 0;
    var oldM, newM, oldS, newS := 0.0, 0.0, 0.0, 0.0;
    for i := 0 to |values|
      invariant n == i && oldM == newM && (n > 1 ==> newS == oldS)
      invariant n > 0 ==> IsMean(Sum(values[..n]), n as real, newM) && Squares(values[..n], newM) == oldS
    {
      var value := values[i];
      assert values[..i + 1] == values[..i] + [value];
      n := n + 1;
      if n == 1 {
        SingleMean(value);
        assert values[..1] == [value];
        oldM, newM := value, value;
        oldS := 0.0;
      } else {
        WelfordStep(values[..i], value, oldM);
        newM := oldM + (value - oldM) / n as real;
        newS := oldS + (value - oldM) * (value - newM);
        oldM := newM;
        oldS := newS;
      }
    }
    assert values[..|values|] == values;
    if n > 1 {
      MeanIs(Sum(values), n as real, newM);
      return newS / (n - 1) as real;
    }
    return 0.0;
  }

  // ---------- the node ----------

  ghost function SumCoords(cs: seq<Coord>): Coord
  {
    if cs == [] then Origin else SumCoords(cs[..|cs| - 1]).Plus(cs[|cs| - 1])
  }

  ghost function Centroid(cs: seq<Coord>): Coord
    requires cs != []
  {
    SumCoords(cs).DividedBy(|cs| as real)
  }

  ghost function Coords(window: seq<Sample>): (r: seq<Coord>)
    ensures |r| == |window|
  {
    seq(|window|, i requires 0 <= i < |window| => window[i].c)
  }

  // A draw of crypto_rand_uint64(1000).
  type Draw = k: nat | k < 1000

  predicate Kept(draw: Draw) { draw as real / 1000.0 >= REJECT_RATE }

  // How far off the samples are at a coordinate, for a node with the given error.
  ghost function ErrorsOf(dist: (Coord, Coord) -> real, own: real, window: seq<Sample>, at: Coord): (r: seq<real>)
    ensures |r| == |window|
  {
    seq(|window|, i requires 0 <= i < |window| => Abs(dist(at, window[i].c) - window[i].latency) * ErrorWeight(own, window[i].error))
  }

  class Node {
    const dist: (Coord, Coord) -> real
    var predErr: real
    var c: Coord
    var nsamples: nat
    var memory: seq<Sample>
    var errWindow: seq<Sample>
    var centroidWindow: seq<Sample>
    ghost var samples: set<Sample>  // all samples recorded so far

    ghost predicate Sound()
      reads this, samples
    {
      && 0.0 < predErr <= 1.0
      && CountsOk(samples, memory, errWindow, centroidWindow)
      && WindowOk(samples, memory) && WindowOk(samples, errWindow) && WindowOk(samples, centroidWindow)
      && |memory| <= MEMORY_SIZE && (forall s :: s in samples ==> SampleOk(s))
    }

    // Between two pings the windows are as full as the memory allows.
    ghost predicate Valid()
      reads this, samples
    {
      Sound() && |errWindow| == Min(ERROR_WINDOW, |memory|) && |centroidWindow| == Min(CENTROID_WINDOW, |memory|)
    }

    // A sample has been recorded but not been considered yet.
    ghost predicate Recorded(s: Sample)
      reads this, samples
    {
      && Sound() && memory != [] && memory[0] == s && s !in errWindow && s !in centroidWindow
      && |errWindow| == Min(ERROR_WINDOW, |memory| - 1) && |centroidWindow| == Min(CENTROID_WINDOW, |memory| - 1)
    }

    constructor (dist: (Coord, Coord) -> real)
      ensures Valid() && this.dist == dist && samples == {} && predErr == 1.0
    {
      this.dist := dist;
      predErr, c, nsamples := 1.0, Origin, 0;
      memory, errWindow, centroidWindow, samples := [], [], [], {};
    }

    method Record(coord: Coord, latency: real, error: real) returns (s: Sample)
      requires Valid() && latency > 0.0 && 0.0 < error <= 1.0
      modifies this`memory, this`samples, samples
      ensures Recorded(s) && fresh(s) && samples == old(samples) + {s}
      ensures s.c == coord && s.latency == latency && s.error == error
      ensures memory == ([s] + old(memory))[..Min(MEMORY_SIZE, |old(memory)| + 1)]
    {
      hide CountsOk, WindowOk;
      s := new Sample(coord, latency, error);
      NewSample(samples, memory, errWindow, centroidWindow, s);
      var longer := InsertFront(memory, s, samples, errWindow, centroidWindow);
      MoreSamples(samples, errWindow, s);
      MoreSamples(samples, centroidWindow, s);
      samples := samples + {s};
      memory := Shrink(longer, MEMORY_SIZE, samples, errWindow, centroidWindow);
    }

    // The centroid of a window does not move away from the origin, or the draw lets it.
    ghost predicate CentralEnough(window: seq<Sample>, s: Sample, draw: Draw)
    {
      window != [] && var cs := Coords(window);
      dist(Origin, Centroid(cs + [s.c])) <= dist(Origin, Centroid(cs)) || Kept(draw)
    }

    // The median error of a window does not grow by the move, or the draw lets it.
    ghost predicate CloseEnough(window: seq<Sample>, own: real, from: Coord, to: Coord, draw: Draw)
    {
      window != [] && (Median(ErrorsOf(dist, own, window, to)) <= Median(ErrorsOf(dist, own, window, from)) || Kept(draw))
    }

    // The window is never empty when the check divides by its length.
    method CentroidCheck(s: Sample, draw: Draw) returns (ok: bool)
      requires Recorded(s)
      ensures ok <==> |memory| < BOOTSTRAP_COUNT || CentralEnough(centroidWindow, s, draw)
    {
      if |memory| < BOOTSTRAP_COUNT {
        return true;
      }
      ghost var cs := Coords(centroidWindow);
      var neighborCentroid, newCentroid := Origin, Origin;
      for i := 0 to |centroidWindow|
        invariant neighborCentroid == newCentroid == SumCoords(cs[..i])
      {
        assert cs[..i + 1][..i] == cs[..i];
        neighborCentroid := neighborCentroid.Plus(centroidWindow[i].c);
        newCentroid := newCentroid.Plus(centroidWindow[i].c);
      }
      assert cs[..|cs|] == cs && (cs + [s.c])[..|cs|] == cs;
      neighborCentroid := neighborCentroid.DividedBy(|centroidWindow| as real);
      newCentroid := newCentroid.Plus(s.c);
      newCentroid := newCentroid.DividedBy((1 + |centroidWindow|) as real);
      if dist(Origin, newCentroid) > dist(Origin, neighborCentroid) {
        return draw as real / 1000.0 >= REJECT_RATE;
      }
      return true;
    }

    // How far off the window's samples are at a coordinate.
    ghost function Errors(at: Coord): (r: seq<real>)
      reads this`predErr, this`errWindow
      ensures |r| == |errWindow|
    {
      ErrorsOf(dist, predErr, errWindow, at)
    }

    method FillErrors(errors: array<real>, at: Coord)
      requires |errWindow| <= errors.Length
      modifies errors
      ensures errors[..|errWindow|] == Errors(at)
    {
      for i := 0 to |errWindow|
        invariant errors[..i] == Errors(at)[..i]
      {
        var s := errWindow[i];
        var weight := ErrorWeight(predErr, s.error);
        errors[i] := Abs(dist(at, s.c) - s.latency) * weight;
        assert errors[i] == Errors(at)[i];
        assert errors[..i + 1] == errors[..i] + [errors[i]];
        assert Errors(at)[..i + 1] == Errors(at)[..i] + [Errors(at)[i]];
      }
    }

    // The array has room for the window, and the window is not empty when its median is taken.
    method ErrorCheck(s: Sample, candidate: Coord, draw: Draw) returns (ok: bool)
      requires Recorded(s)
      ensures ok <==> |memory| < BOOTSTRAP_COUNT || CloseEnough(errWindow, predErr, c, candidate, draw)
    {
      if |memory| < BOOTSTRAP_COUNT {
        return true;
      }
      hide CountsOk, WindowOk;
      var errors := new real[|memory|];
      FillErrors(errors, c);
      var errorNow := MedianDouble(errors, |errWindow|);
      FillErrors(errors, candidate);
      var errorFuture := MedianDouble(errors, |errWindow|);
      if errorFuture > errorNow {
        return draw as real / 1000.0 >= REJECT_RATE;
      }
      return true;
    }

    // A coordinate that fits every sample of the window at least as well is never rejected here.
    lemma ImprovementPasses(candidate: Coord)
      requires errWindow != []
      requires forall i :: 0 <= i < |errWindow| ==> Errors(candidate)[i] <= Errors(c)[i]
      ensures Median(Errors(candidate)) <= Median(Errors(c))
    {
      MedianMono(Errors(candidate), Errors(c));
    }

    // The branches for negative errors are never taken.
    method UpdateError(s: Sample) returns (weight: real)
      requires Recorded(s)
      modifies this`predErr
      ensures predErr == UpdatedError(old(predErr), s.error, RelativeError(dist(c, s.c), s.latency))
      ensures MovesBy(old(predErr), s.error, RelativeError(dist(c, s.c), s.latency), predErr)
      ensures Recorded(s) && 0.0 < weight < 1.0 && weight == SampleWeight(old(predErr), s.error)
    {
      hide CountsOk, WindowOk, UpdatedError, MovesBy, SampleWeight, RelativeError;
      FrontRecorded(samples, memory);
      assert SampleOk(s);
      var sampleWeight := SampleWeight(predErr, s.error);
      var expected, actual := dist(c, s.c), s.latency;
      if actual <= 0.0 {
        return 0.0;
      }
      var relError := RelativeError(expected, actual);
      predErr := if predErr < 0.0 then relError
                 else if s.error < 0.0 then predErr
                 else UpdatedError(predErr, s.error, relError);
      return sampleWeight;
    }

    method UpdateBuffers(s: Sample)
      requires Recorded(s)
      modifies this`errWindow, this`centroidWindow, samples
      ensures Valid()
      ensures errWindow == ([s] + old(errWindow))[..Min(ERROR_WINDOW, |old(errWindow)| + 1)]
      ensures centroidWindow == ([s] + old(centroidWindow))[..Min(CENTROID_WINDOW, |old(centroidWindow)| + 1)]
    {
      hide CountsOk;
      assert s in memory && s in samples && samples + {s} == samples;
      CountsSwap(samples, memory, errWindow, centroidWindow);
      hide WindowOk;
      var longer := InsertFront(errWindow, s, samples, memory, centroidWindow);
      errWindow := Shrink(longer, ERROR_WINDOW, samples, memory, centroidWindow);
      CountsSwap(samples, errWindow, memory, centroidWindow);
      longer := InsertFront(centroidWindow, s, samples, memory, errWindow);
      centroidWindow := Shrink(longer, CENTROID_WINDOW, samples, memory, errWindow);
      CountsSwap(samples, centroidWindow, memory, errWindow);
    }

    // Considers a recorded sample, with the coordinate the move towards it would give. While
    // bootstrapping every sample is taken; the prediction error changes even with a rejected one.
    method Update(s: Sample, candidate: Coord, centroidDraw: Draw, errorDraw: Draw) returns (res: bool)
      requires Recorded(s)
      modifies this, samples
      ensures Valid() && memory == old(memory) && samples == old(samples)
      ensures predErr == UpdatedError(old(predErr), s.error, RelativeError(dist(old(c), s.c), s.latency))
      ensures old(|memory|) < BOOTSTRAP_COUNT ==> res
      ensures old(|memory|) >= BOOTSTRAP_COUNT ==>
                (res <==> CentralEnough(old(centroidWindow), s, centroidDraw) &&
                          CloseEnough(old(errWindow), predErr, old(c), candidate, errorDraw))
      ensures if res then
                c == candidate && nsamples == old(nsamples) + 1 &&
                errWindow == ([s] + old(errWindow))[..Min(ERROR_WINDOW, |old(errWindow)| + 1)] &&
                centroidWindow == ([s] + old(centroidWindow))[..Min(CENTROID_WINDOW, |old(centroidWindow)| + 1)]
              else c == old(c) && nsamples == old(nsamples) && errWindow == old(errWindow) && centroidWindow == old(centroidWindow)
    {
      hide CountsOk, WindowOk, UpdatedError, CentralEnough, CloseEnough;
      res := true;
      var central := CentroidCheck(s, centroidDraw);
      if !central {
        res := false;
      }
      var weight := UpdateError(s);
      var better := ErrorCheck(s, candidate, errorDraw);
      if !better {
        res := false;
      }
      if res {
        UpdateBuffers(s);
        c := candidate;
        nsamples := nsamples + 1;
      }
    }

    // Frees the node: every sample is freed, and none twice.
    method FreeNode()
      requires Valid()
      modifies samples
      ensures forall s :: s in samples ==> s.freed
    {
      hide CountsOk, WindowOk;
      FreeWindow(memory, samples, errWindow, centroidWindow);
      CountsSwap(samples, [], errWindow, centroidWindow);
      FreeWindow(errWindow, samples, [], centroidWindow);
      CountsSwap(samples, [], [], centroidWindow);
      FreeWindow(centroidWindow, samples, [], []);
      NoneHeld(samples);
    }
  }

  ghost predicate SampleOk(s: Sample) { s.latency > 0.0 && 0.0 < s.error <= 1.0 }

  lemma FrontRecorded(samples: set<Sample>, window: seq<Sample>)
    requires WindowOk(samples, window) && window != []
    ensures window[0] in samples
  {}

  lemma NewSample(samples: set<Sample>, a: seq<Sample>, b: seq<Sample>, c: seq<Sample>, s: Sample)
    requires WindowOk(samples, a) && WindowOk(samples, b) && WindowOk(samples, c) && s !in samples
    ensures s !in a && s !in b && s !in c
  {}

  lemma MoreSamples(samples: set<Sample>, window: seq<Sample>, s: Sample)
    requires WindowOk(samples, window)
    ensures WindowOk(samples + {s}, window)
  {}

  lemma CountsSwap(samples: set<Sample>, a: seq<Sample>, b: seq<Sample>, c: seq<Sample>)
    requires CountsOk(samples, a, b, c)
    ensures CountsOk(samples, b, a, c) && CountsOk(samples, c, a, b) && CountsOk(samples, c, b, a) && CountsOk(samples, b, c, a)
  {}

  lemma NoneHeld(samples: set<Sample>)
    requires CountsOk(samples, [], [], [])
    ensures forall s :: s in samples ==> s.freed
  {}

  method FreeWindow(window: seq<Sample>, ghost samples: set<Sample>, ghost b: seq<Sample>, ghost c: seq<Sample>)
    requires CountsOk(samples, window, b, c) && WindowOk(samples, window)
    modifies samples
    ensures CountsOk(samples, [], b, c)
  {
    hide CountsOk, WindowOk;
    assert window[0..] == window;
    for i := 0 to |window|
      invariant CountsOk(samples, window[i..], b, c) && WindowOk(samples, window[i..])
    {
      FreeFront(window[i..], samples, b, c);
      assert window[i..][1..] == window[i + 1..];
    }
  }

  method FreeFront(window: seq<Sample>, ghost samples: set<Sample>, ghost b: seq<Sample>, ghost c: seq<Sample>)
    requires window != [] && CountsOk(samples, window, b, c) && WindowOk(samples, window)
    modifies samples
    ensures CountsOk(samples, window[1..], b, c) && WindowOk(samples, window[1..])
  {
    var first := window[0];
    assert first in samples && first !in window[1..];
    assert forall s :: s in window <==> s in window[1..] || s == first;
    first.Free();
  }

  // Sorts the front part of the array, as find_nth_double does, and picks from it.
  method MedianDouble(errors: array<real>, n: nat) returns (m: real)
    requires 0 < n <= errors.Length
    modifies errors
    ensures m == Median(old(errors[..n]))
  {
    var sorted := SortReals(errors[..n]);
    for i := 0 to n
      invariant errors[..i] == sorted[..i]
    {
      errors[i] := sorted[i];
    }
    return errors[(n - 1) / 2];
  }
}
