/**
  Weighted random selection of relays in pathsim.py: position weights, cumulative weights and the
  binary search over them. Weights are exact reals; the source's floats are not modelled.
*/
module Selection {
  import opened Basics
  import opened Network
  import BW = BandwidthWeights

  // ---------- position weights ----------

  datatype Position = GuardPosition | MiddlePosition | ExitPosition

  datatype BwWeights = BwWeights(wgg: nat, wgd: nat, wgm: nat, wmg: nat, wmd: nat, wme: nat, wmm: nat,
                                 weg: nat, wed: nat, wee: nat, wem: nat)

  // None where the source raises: there is no weight for plain exits in guard position.
  function GetBwWeight(flags: set<Flag>, position: Position, w: BwWeights): (r: Option<nat>)
    ensures r == None <==> position == GuardPosition && Guard !in flags && Exit in flags
  {
    match position
    case GuardPosition =>
      if Guard in flags && Exit in flags then Some(w.wgd)
      else if Guard in flags then Some(w.wgg)
      else if Exit !in flags then Some(w.wgm)
      else None
    case MiddlePosition =>
      if Guard in flags && Exit in flags then Some(w.wmd)
      else if Guard in flags then Some(w.wmg)
      else if Exit in flags then Some(w.wme)
      else Some(w.wmm)
    case ExitPosition =>
      if Guard in flags && Exit in flags then Some(w.wed)
      else if Guard in flags then Some(w.weg)
      else if Exit in flags then Some(w.wee)
      else Some(w.wem)
  }

  type NodeWeights = m: map<Fp, real> | forall r :: r in m ==> m[r] >= 0.0

  // A relay's bandwidth weighted for a position.
  function PositionWeight(stat: RelStat, position: Position, w: BwWeights, scale: nat): (r: real)
    requires scale > 0 && GetBwWeight(stat.flags, position, w).Some?
    ensures r >= 0.0
  {
    stat.bandwidth as real * (GetBwWeight(stat.flags, position, w).value as real / scale as real)
  }

  // None is the raise for a relay that has no weight for the position.
  method GetPositionWeights(nodes: seq<Fp>, stats: RelStats, position: Position, w: BwWeights, scale: nat)
    returns (weights: Option<NodeWeights>)
    requires scale > 0 && forall r :: r in nodes ==> r in stats
    ensures weights == None <==> exists r :: r in nodes && GetBwWeight(stats[r].flags, position, w) == None
    ensures weights.Some? ==> forall r :: r in nodes <==> r in weights.value
    ensures weights.Some? ==> forall r :: r in nodes ==>
              GetBwWeight(stats[r].flags, position, w).Some? && weights.value[r] == PositionWeight(stats[r], position, w, scale)
  {
    hide PositionWeight, GetBwWeight;
    var done: NodeWeights := map[];
    for i := 0 to |nodes|
      invariant forall r :: r in nodes[..i] <==> r in done
      invariant forall r :: r in nodes[..i] ==>
                  GetBwWeight(stats[r].flags, position, w).Some? && done[r] == PositionWeight(stats[r], position, w, scale)
    {
      if GetBwWeight(stats[nodes[i]].flags, position, w) == None {
        return None;
      }
      done := done[nodes[i] := PositionWeight(stats[nodes[i]], position, w, scale)];
    }
    assert nodes[..|nodes|] == nodes;
    return Some(done);
  }

  // The bandwidth a position draws from some relays, times the scale.
  ghost function Load(relays: seq<RelStat>, position: Position, w: BwWeights): nat
  {
    if relays == [] then 0
    else
      var last := relays[|relays| - 1];
      var weight := GetBwWeight(last.flags, position, w);
      Load(relays[..|relays| - 1], position, w) + if weight.Some? then last.bandwidth * weight.value else 0
  }

  // What the weights do to a network of running relays: each position draws on the four roles by
  // the weights that the solver balances. (An Exit relay with BadExit is an exit here, but none to
  // the solver.)
  lemma {:induction false} LoadIs(relays: seq<RelStat>, w: BwWeights)
    requires forall r :: r in relays ==> Running in r.flags && !(Exit in r.flags && BadExit in r.flags)
    ensures var g, m := BW.RoleBandwidth(relays, true, false), BW.RoleBandwidth(relays, false, false);
            var e, d := BW.RoleBandwidth(relays, false, true), BW.RoleBandwidth(relays, true, true);
            && Load(relays, GuardPosition, w) == g * w.wgg + d * w.wgd + m * w.wgm
            && Load(relays, MiddlePosition, w) == m * w.wmm + g * w.wmg + e * w.wme + d * w.wmd
            && Load(relays, ExitPosition, w) == e * w.wee + d * w.wed + g * w.weg + m * w.wem
  {
    if relays != [] {
      var front, last := relays[..|relays| - 1], relays[|relays| - 1];
      assert last in relays;
      LoadIs(front, w);
      var g, m := BW.RoleBandwidth(front, true, false), BW.RoleBandwidth(front, false, false);
      var e, d := BW.RoleBandwidth(front, false, true), BW.RoleBandwidth(front, true, true);
      More(g, last.bandwidth, w.wgg, w.wmg, w.weg);
      More(m, last.bandwidth, w.wgm, w.wmm, w.wem);
      More(e, last.bandwidth, 0, w.wme, w.wee);
      More(d, last.bandwidth, w.wgd, w.wmd, w.wed);
    }
  }

  lemma More(x: nat, b: nat, u: nat, v: nat, w: nat)
    ensures (x + b) * u == x * u + b * u && (x + b) * v == x * v + b * v && (x + b) * w == x * w + b * w
  {}

  // ---------- cumulative weights ----------

  ghost predicate Weighted(nodes: seq<Fp>, weights: NodeWeights)
  {
    forall r :: r in nodes ==> r in weights
  }

  ghost function Total(nodes: seq<Fp>, weights: NodeWeights): (t: real)
    requires Weighted(nodes, weights)
    ensures t >= 0.0
  {
    if nodes == [] then 0.0 else Total(nodes[..|nodes| - 1], weights) + weights[nodes[|nodes| - 1]]
  }

  lemma TotalStep(nodes: seq<Fp>, weights: NodeWeights, k: nat)
    requires k < |nodes| && Weighted(nodes, weights)
    ensures Total(nodes[..k + 1], weights) == Total(nodes[..k], weights) + weights[nodes[k]]
  {
    assert nodes[..k + 1][..k] == nodes[..k];
  }

  lemma {:induction false} TotalMonotone(nodes: seq<Fp>, weights: NodeWeights, j: nat, k: nat)
    requires j <= k <= |nodes| && Weighted(nodes, weights)
    ensures Total(nodes[..j], weights) <= Total(nodes[..k], weights)
  {
    if j < k {
      TotalStep(nodes, weights, k - 1);
      TotalMonotone(nodes, weights, j, k - 1);
    }
  }

  type WeightedNodes = seq<(Fp, real)>

  function Share(a: real, total: real): real
    requires total > 0.0
  {
    a / total
  }

  lemma Shares(a: real, b: real, total: real)
    requires total > 0.0
    ensures Share(a, total) + Share(b, total) == Share(a + b, total)
    ensures 0.0 <= a <= b ==> 0.0 <= Share(a, total) <= Share(b, total)
    ensures Share(total, total) == 1.0 && Share(0.0, total) == 0.0
  {}

  // The share of the total weight of the nodes before position k.
  ghost function CumShare(nodes: seq<Fp>, weights: NodeWeights, k: nat): real
    requires k <= |nodes| && Weighted(nodes, weights) && Total(nodes, weights) > 0.0
  {
    Share(Total(nodes[..k], weights), Total(nodes, weights))
  }

  // Entry k holds node k and the share of the total weight of the nodes up to k.
  ghost predicate Cumulative(list: WeightedNodes, nodes: seq<Fp>, weights: NodeWeights)
    requires Weighted(nodes, weights)
  {
    && |list| == |nodes| && Total(nodes, weights) > 0.0
    && forall k :: 0 <= k < |list| ==>
         list[k].0 == nodes[k] && list[k].1 == CumShare(nodes, weights, k + 1)
  }

  lemma CumShareStep(nodes: seq<Fp>, weights: NodeWeights, k: nat)
    requires k < |nodes| && Weighted(nodes, weights) && Total(nodes, weights) > 0.0
    ensures CumShare(nodes, weights, k + 1) ==
            CumShare(nodes, weights, k) + Share(weights[nodes[k]], Total(nodes, weights))
  {
    TotalStep(nodes, weights, k);
    Shares(Total(nodes[..k], weights), weights[nodes[k]], Total(nodes, weights));
  }

  lemma CumShareEnds(nodes: seq<Fp>, weights: NodeWeights)
    requires Weighted(nodes, weights) && Total(nodes, weights) > 0.0
    ensures CumShare(nodes, weights, 0) == 0.0 && CumShare(nodes, weights, |nodes|) == 1.0
  {
    assert nodes[..0] == [] && nodes[..|nodes|] == nodes;
    Shares(0.0, 0.0, Total(nodes, weights));
  }

  // The total is zero exactly if every weight is.
  lemma {:induction false} TotalIsZero(nodes: seq<Fp>, weights: NodeWeights)
    requires Weighted(nodes, weights)
    ensures Total(nodes, weights) == 0.0 <==> forall r :: r in nodes ==> weights[r] == 0.0
  {
    if nodes != [] {
      var front, last := nodes[..|nodes| - 1], nodes[|nodes| - 1];
      assert nodes == front + [last];
      TotalIsZero(front, weights);
    }
  }

  // None where the source raises because the total weight is zero.
  method GetWeightedNodes(nodes: seq<Fp>, weights: NodeWeights) returns (res: Option<WeightedNodes>)
    requires Weighted(nodes, weights)
    ensures res == None <==> Total(nodes, weights) == 0.0
    ensures res.Some? ==> Cumulative(res.value, nodes, weights)
  {
    hide Share, CumShare;
    var total := 0.0;
    for i := 0 to |nodes|
      invariant total == Total(nodes[..i], weights)
    {
      TotalStep(nodes, weights, i);
      total := total + weights[nodes[i]];
    }
    assert nodes[..|nodes|] == nodes;
    if total == 0.0 {
      return None;
    }
    var list: WeightedNodes, cum := [], 0.0;
    CumShareEnds(nodes, weights);
    for i := 0 to |nodes|
      invariant |list| == i && cum == CumShare(nodes, weights, i)
      invariant forall k :: 0 <= k < i ==> list[k].0 == nodes[k] && list[k].1 == CumShare(nodes, weights, k + 1)
    {
      CumShareStep(nodes, weights, i);
      cum := cum + Share(weights[nodes[i]], total);
      list := list + [(nodes[i], cum)];
    }
    return Some(list);
  }

  // ---------- drawing a node ----------

  // A list one can draw from: it ends at 1, never decreases, and holds relays of a given kind.
  ghost predicate Drawable(list: WeightedNodes, kind: set<Fp>)
  {
    && list != [] && list[|list| - 1].1 == 1.0
    && (forall j, k :: 0 <= j <= k < |list| ==> list[j].1 <= list[k].1)
    && (forall k :: 0 <= k < |list| ==> list[k].0 in kind)
  }

  lemma CumShareMonotone(nodes: seq<Fp>, weights: NodeWeights, j: nat, k: nat)
    requires j <= k <= |nodes| && Weighted(nodes, weights) && Total(nodes, weights) > 0.0
    ensures CumShare(nodes, weights, j) <= CumShare(nodes, weights, k)
  {
    TotalMonotone(nodes, weights, j, k);
    Shares(Total(nodes[..j], weights), Total(nodes[..k], weights), Total(nodes, weights));
  }

  lemma CumulativeIsDrawable(list: WeightedNodes, nodes: seq<Fp>, weights: NodeWeights, kind: set<Fp>)
    requires Weighted(nodes, weights) && forall r :: r in nodes ==> r in kind
    requires Cumulative(list, nodes, weights)
    ensures Drawable(list, kind)
  {
    hide Share, CumShare;
    CumShareEnds(nodes, weights);
    forall j, k | 0 <= j <= k < |list| ensures list[j].1 <= list[k].1 {
      CumShareMonotone(nodes, weights, j + 1, k + 1);
    }
  }

  // ---------- lists as the simulation uses them ----------

  // Each relay of a kind once, in some order.
  ghost predicate Lists(nodes: seq<Fp>, kind: set<Fp>)
  {
    (forall r :: r in nodes <==> r in kind) && forall i, j :: 0 <= i < j < |nodes| ==> nodes[i] != nodes[j]
  }

  // Each node weighs what its bandwidth and role give it in a position.
  ghost predicate WeighedFor(nodes: seq<Fp>, weights: NodeWeights, stats: RelStats, position: Position, w: BwWeights, scale: nat)
  {
    scale > 0 &&
    forall r :: r in nodes ==>
      r in weights && r in stats && GetBwWeight(stats[r].flags, position, w).Some? &&
      weights[r] == PositionWeight(stats[r], position, w, scale)
  }

  // A list over all relays of a kind, each with the share of the total that its weight gives it.
  ghost predicate Weighed(list: WeightedNodes, kind: set<Fp>, stats: RelStats, position: Position, w: BwWeights, scale: nat)
  {
    exists nodes, weights ::
      Lists(nodes, kind) && WeighedFor(nodes, weights, stats, position, w, scale) && Cumulative(list, nodes, weights)
  }

  lemma WeighedIs(list: WeightedNodes, nodes: seq<Fp>, weights: NodeWeights, kind: set<Fp>, stats: RelStats, position: Position,
                  w: BwWeights, scale: nat)
    requires Lists(nodes, kind) && WeighedFor(nodes, weights, stats, position, w, scale) && Cumulative(list, nodes, weights)
    ensures Weighed(list, kind, stats, position, w, scale)
  {
    hide Lists, WeighedFor, Cumulative;
  }

  lemma WeighedIsDrawable(list: WeightedNodes, kind: set<Fp>, stats: RelStats, position: Position, w: BwWeights, scale: nat)
    requires Weighed(list, kind, stats, position, w, scale)
    ensures Drawable(list, kind)
  {
    hide Cumulative, PositionWeight, Drawable;
    var nodes, weights :|
      Lists(nodes, kind) && WeighedFor(nodes, weights, stats, position, w, scale) && Cumulative(list, nodes, weights);
    CumulativeIsDrawable(list, nodes, weights, kind);
  }

  // The total weight of the relays does not depend on the order in which they are listed.
  lemma {:induction false} TotalOrder(nodes: seq<Fp>, weights: NodeWeights, nodes': seq<Fp>, weights': NodeWeights, kind: set<Fp>)
    requires Lists(nodes, kind) && Lists(nodes', kind) && Weighted(nodes, weights) && Weighted(nodes', weights')
    requires forall r :: r in kind ==> r in weights && r in weights' && weights[r] == weights'[r]
    ensures Total(nodes, weights) == Total(nodes', weights')
    decreases |nodes|
  {
    hide Lists, Without;
    if nodes == [] {
      ListsNone(nodes', kind);
    } else {
      var front, last := nodes[..|nodes| - 1], nodes[|nodes| - 1];
      ListsFront(nodes, kind);
      var k := PlaceIn(nodes', kind, last);
      TotalWithout(nodes', weights', k);
      ListsLess(nodes', k, kind);
      TotalOrder(front, weights, Without(nodes', k), weights', kind - {last});
    }
  }

  lemma ListsNone(nodes: seq<Fp>, kind: set<Fp>)
    requires Lists(nodes, kind) && Lists([], kind)
    ensures nodes == []
  {
    DistinctCount(nodes, kind);
    DistinctCount<Fp>([], kind);
  }

  lemma ListsFront(nodes: seq<Fp>, kind: set<Fp>)
    requires Lists(nodes, kind) && nodes != []
    ensures Lists(nodes[..|nodes| - 1], kind - {nodes[|nodes| - 1]}) && nodes[|nodes| - 1] in kind
  {
    var front, last := nodes[..|nodes| - 1], nodes[|nodes| - 1];
    assert nodes == front + [last];
    forall r ensures r in front <==> r in kind - {last} {
      assert r in nodes <==> r in front || r == last;
    }
  }

  lemma PlaceIn(nodes: seq<Fp>, kind: set<Fp>, r: Fp) returns (k: nat)
    requires Lists(nodes, kind) && r in kind
    ensures k < |nodes| && nodes[k] == r
  {
    k :| 0 <= k < |nodes| && nodes[k] == r;
  }

  lemma ListsLess(nodes: seq<Fp>, k: nat, kind: set<Fp>)
    requires Lists(nodes, kind) && k < |nodes|
    ensures Lists(Without(nodes, k), kind - {nodes[k]})
  {
    var rest := Without(nodes, k);
    forall r ensures r in rest <==> r in kind - {nodes[k]} {
      if r in nodes && r != nodes[k] {
        var i :| 0 <= i < |nodes| && nodes[i] == r;
        assert rest[if i < k then i else i - 1] == r;
      }
    }
  }

  lemma {:induction false} TotalWithout(nodes: seq<Fp>, weights: NodeWeights, k: nat)
    requires Weighted(nodes, weights) && k < |nodes|
    ensures Weighted(Without(nodes, k), weights)
    ensures Total(nodes, weights) == Total(Without(nodes, k), weights) + weights[nodes[k]]
  {
    var last := |nodes| - 1;
    if k == last {
      assert Without(nodes, k) == nodes[..last];
    } else {
      TotalWithout(nodes[..last], weights, k);
      var rest := Without(nodes, k);
      assert rest[..|rest| - 1] == Without(nodes[..last], k) && rest[|rest| - 1] == nodes[last];
    }
  }

  // A draw gives a relay.
  ghost predicate Gives(list: WeightedNodes, draw: real, r: Fp)
  {
    exists k :: Selects(list, draw, k) && list[k].0 == r
  }

  // So each relay of the kind is drawn exactly by the draws of an interval as long as its share of
  // the total weight, however the relays are listed.
  lemma RelayOwnsItsShare(list: WeightedNodes, kind: set<Fp>, stats: RelStats, position: Position, w: BwWeights, scale: nat, r: Fp)
    returns (lo: real, total: real)
    requires Weighed(list, kind, stats, position, w, scale) && r in kind
    ensures total > 0.0 && scale > 0 && r in stats && GetBwWeight(stats[r].flags, position, w).Some?
    ensures forall draw :: draw > 0.0 ==>
              (Gives(list, draw, r) <==> lo < draw && draw <= lo + PositionWeight(stats[r], position, w, scale) / total)
    ensures forall nodes, weights :: Lists(nodes, kind) && WeighedFor(nodes, weights, stats, position, w, scale) ==>
              Weighted(nodes, weights) && Total(nodes, weights) == total
  {
    hide Cumulative, PositionWeight, Selects, Gives, Lists, GetBwWeight;
    var nodes, weights :|
      Lists(nodes, kind) && WeighedFor(nodes, weights, stats, position, w, scale) && Cumulative(list, nodes, weights);
    total := Total(nodes, weights);
    var k := PlaceIn(nodes, kind, r);
    CumulativeBasics(list, nodes, weights);
    lo := if k == 0 then 0.0 else list[k - 1].1;
    forall draw | draw > 0.0
      ensures Gives(list, draw, r) <==> lo < draw && draw <= lo + PositionWeight(stats[r], position, w, scale) / total
    {
      GivesOnly(list, nodes, kind, draw, k);
      NodeOwnsItsShare(list, nodes, weights, k, draw);
    }
    forall nodes', weights' | Lists(nodes', kind) && WeighedFor(nodes', weights', stats, position, w, scale)
      ensures Weighted(nodes', weights') && Total(nodes', weights') == total
    {
      SameWeights(nodes, weights, nodes', weights', kind, stats, position, w, scale);
      TotalOrder(nodes, weights, nodes', weights', kind);
    }
  }

  lemma SameWeights(nodes: seq<Fp>, weights: NodeWeights, nodes': seq<Fp>, weights': NodeWeights, kind: set<Fp>,
                    stats: RelStats, position: Position, w: BwWeights, scale: nat)
    requires Lists(nodes, kind) && Lists(nodes', kind)
    requires WeighedFor(nodes, weights, stats, position, w, scale) && WeighedFor(nodes', weights', stats, position, w, scale)
    ensures forall r :: r in kind ==> r in weights && r in weights' && weights[r] == weights'[r]
  {
    hide PositionWeight, GetBwWeight;
  }

  lemma CumulativeBasics(list: WeightedNodes, nodes: seq<Fp>, weights: NodeWeights)
    requires Weighted(nodes, weights) && Cumulative(list, nodes, weights)
    ensures |list| == |nodes| && Total(nodes, weights) > 0.0 && forall k :: 0 <= k < |list| ==> list[k].0 == nodes[k]
  {}

  lemma GivesOnly(list: WeightedNodes, nodes: seq<Fp>, kind: set<Fp>, draw: real, k: nat)
    requires Lists(nodes, kind) && |list| == |nodes| && k < |nodes| && forall i :: 0 <= i < |list| ==> list[i].0 == nodes[i]
    ensures Gives(list, draw, nodes[k]) <==> Selects(list, draw, k)
  {
    forall j | Selects(list, draw, j) && list[j].0 == nodes[k] ensures j == k {
      assert nodes[j] == nodes[k];
    }
    if Selects(list, draw, k) {
      assert list[k].0 == nodes[k];
    }
  }

  // k is the first entry whose cumulative weight reaches r.
  ghost predicate Selects(list: WeightedNodes, r: real, k: int)
  {
    0 <= k < |list| && r <= list[k].1 && forall j :: 0 <= j < k ==> list[j].1 < r
  }

  // The binary search. None stands for the raise "Weights must sum to 1".
  method SelectWeightedNode(list: WeightedNodes, r: real) returns (res: Option<Fp>)
    requires list != []
    requires forall j, k :: 0 <= j <= k < |list| ==> list[j].1 <= list[k].1
    ensures res == None <==> r > list[|list| - 1].1
    ensures res.Some? ==> exists k :: Selects(list, r, k) && res.value == list[k].0
  {
    var begin, end := 0, |list| - 1;
    var mid := (end + begin) / 2;
    while true
      invariant 0 <= begin <= end < |list| && mid == (end + begin) / 2
      invariant forall j :: 0 <= j < begin ==> list[j].1 < r
      invariant end < |list| - 1 ==> r <= list[end].1
      decreases end - begin, if r <= list[mid].1 then 0 else 1
    {
      if r <= list[mid].1 {
        if mid == begin {
          assert Selects(list, r, mid);
          return Some(list[mid].0);
        }
        end := mid;
        mid := (end + begin) / 2;
      } else {
        if mid == end {
          return None;
        }
        begin := mid + 1;
        mid := (end + begin) / 2;
      }
    }
  }

  // Every draw in (0, 1] selects node k exactly when it falls into an interval of the length of
  // the node's share of the total weight; so a node of weight zero is never drawn, except for
  // the first one by a draw of exactly 0.
  lemma NodeOwnsItsShare(list: WeightedNodes, nodes: seq<Fp>, weights: NodeWeights, k: nat, r: real)
    requires Weighted(nodes, weights) && Cumulative(list, nodes, weights) && k < |list| && 0.0 < r
    ensures var lo := if k == 0 then 0.0 else list[k - 1].1;
            && (Selects(list, r, k) <==> lo < r <= list[k].1)
            && list[k].1 - lo == weights[nodes[k]] / Total(nodes, weights)
  {
    assert Share(weights[nodes[k]], Total(nodes, weights)) == weights[nodes[k]] / Total(nodes, weights);
    hide Share, CumShare;
    CumShareEnds(nodes, weights);
    CumShareStep(nodes, weights, k);
    CumulativeIsDrawable(list, nodes, weights, set f | f in nodes);
  }

  // ---------- the source of randomness ----------

  // Python's random(), choice() and randint() all consume one real in [0, 1) per call. A run is
  // driven by a finite tape of such draws, and a run that needs more is cut short.
  type Draw = x: real | 0.0 <= x < 1.0

  class Random {
    var tape: seq<Draw>

    constructor (draws: seq<Draw>)
      ensures tape == draws
    {
      tape := draws;
    }

    method Next() returns (draw: Option<Draw>)
      modifies this
      ensures draw == if old(tape) == [] then None else Some(old(tape)[0])
      ensures tape == if old(tape) == [] then [] else old(tape)[1..]
    {
      if tape == [] {
        return None;
      }
      draw := Some(tape[0]);
      tape := tape[1..];
    }
  }

  // choice() and randint() from one draw.
  function Scaled(draw: Draw, n: nat): (k: nat)
    requires n > 0
    ensures k < n
  {
    assert draw * n as real < n as real;
    (draw * n as real).Floor
  }

  // Every value is reachable: the draws that give k form an interval of length 1/n.
  lemma ScaledReaches(n: nat, k: nat) returns (first: Draw)
    requires k < n
    ensures Scaled(first, n) == k
    ensures forall draw: Draw :: Scaled(draw, n) == k <==> first <= draw && draw < first + 1.0 / n as real
  {
    first := k as real / n as real;
    forall draw: Draw ensures Scaled(draw, n) == k <==> first <= draw && draw < first + 1.0 / n as real {
      TimesN(first, draw, n, k);
    }
  }

  lemma TimesN(first: real, draw: Draw, n: nat, k: nat)
    requires n > 0 && first == k as real / n as real
    ensures k as real <= draw * n as real <==> first <= draw
    ensures draw * n as real < k as real + 1.0 <==> draw < first + 1.0 / n as real
  {
    var m := n as real;
    assert first * m == k as real && (first + 1.0 / m) * m == k as real + 1.0;
  }

  // select_weighted_node on the next draw. With a drawable list its raise is unreachable.
  method DrawNode(list: WeightedNodes, ghost kind: set<Fp>, rng: Random) returns (node: Option<Fp>)
    requires Drawable(list, kind)
    modifies rng
    ensures node == None <==> old(rng.tape) == []
    ensures rng.tape == if old(rng.tape) == [] then [] else old(rng.tape)[1..]
    ensures node.Some? ==> node.value in kind && |rng.tape| < |old(rng.tape)|
    ensures node.Some? ==> exists k :: Selects(list, old(rng.tape)[0], k) && node.value == list[k].0
    ensures |rng.tape| <= |old(rng.tape)|
  {
    var draw := rng.Next();
    if draw == None {
      return None;
    }
    node := SelectWeightedNode(list, draw.value);
  }

  // A draw selects a node that passes a test.
  ghost predicate Passes(list: WeightedNodes, draw: real, ok: Fp -> bool)
  {
    exists k :: Selects(list, draw, k) && ok(list[k].0)
  }

  // Draws from a list are rejected until one passes, which gives the node; or all of them are, and
  // the tape has ended.
  ghost predicate Rejecting(list: WeightedNodes, ok: Fp -> bool, tape: seq<Draw>, rest: seq<Draw>, node: Option<Fp>)
  {
    match node
    case None => rest == [] && forall i :: 0 <= i < |tape| ==> !Passes(list, tape[i], ok)
    case Some(r) =>
      && ok(r) && |rest| < |tape|
      && var n := |tape| - |rest| - 1;
         && rest == tape[n + 1..] && (exists k :: Selects(list, tape[n], k) && list[k].0 == r)
         && forall i :: 0 <= i < n ==> !Passes(list, tape[i], ok)
  }

  // The tape so far has been rejected.
  ghost predicate Rejected(list: WeightedNodes, ok: Fp -> bool, tape: seq<Draw>, rest: seq<Draw>)
  {
    && |rest| <= |tape| && rest == tape[|tape| - |rest|..]
    && forall i :: 0 <= i < |tape| - |rest| ==> !Passes(list, tape[i], ok)
  }

  lemma NoneRejected(list: WeightedNodes, ok: Fp -> bool, tape: seq<Draw>)
    ensures Rejected(list, ok, tape, tape)
  {
    assert tape[0..] == tape;
  }

  lemma TapeRejected(list: WeightedNodes, ok: Fp -> bool, tape: seq<Draw>)
    requires Rejected(list, ok, tape, [])
    ensures Rejecting(list, ok, tape, [], None)
  {}

  lemma NextDrawn(list: WeightedNodes, ok: Fp -> bool, tape: seq<Draw>, rest: seq<Draw>, node: Fp)
    requires Rejected(list, ok, tape, rest) && rest != []
    requires exists k :: Selects(list, rest[0], k) && node == list[k].0
    ensures if ok(node) then Rejecting(list, ok, tape, rest[1..], Some(node)) else Rejected(list, ok, tape, rest[1..])
  {
    var n := |tape| - |rest|;
    assert rest[0] == tape[n] && rest[1..] == tape[n + 1..];
    var k :| Selects(list, rest[0], k) && node == list[k].0;
    assert forall j :: Selects(list, rest[0], j) ==> j == k;
  }

  // The same as a function of the tape: the node and what is left.
  ghost function FirstPass(list: WeightedNodes, ok: Fp -> bool, tape: seq<Draw>): (r: (Option<Fp>, seq<Draw>))
    ensures |r.1| <= |tape| && (r.0.Some? ==> |r.1| < |tape| && ok(r.0.value)) && (r.0 == None ==> r.1 == [])
  {
    if tape == [] then (None, [])
    else if Passes(list, tape[0], ok) then
      var k :| Selects(list, tape[0], k) && ok(list[k].0);
      (Some(list[k].0), tape[1..])
    else FirstPass(list, ok, tape[1..])
  }

  lemma {:induction false} RejectingIs(list: WeightedNodes, ok: Fp -> bool, tape: seq<Draw>, rest: seq<Draw>, node: Option<Fp>)
    requires Rejecting(list, ok, tape, rest, node)
    ensures FirstPass(list, ok, tape) == (node, rest)
  {
    if tape != [] {
      var n := if node == None then |tape| else |tape| - |rest| - 1;
      if n == 0 {
        var k :| Selects(list, tape[0], k) && list[k].0 == node.value;
        assert Passes(list, tape[0], ok);
        assert forall j :: Selects(list, tape[0], j) ==> j == k;
        assert rest == tape[1..];
      } else {
        assert !Passes(list, tape[0], ok);
        assert forall i :: 0 <= i < |tape| - 1 ==> tape[1..][i] == tape[i + 1];
        RejectingIs(list, ok, tape[1..], rest, node);
      }
    }
  }

  // The list for relays of a kind by their weights for a position; None is the raise for relays
  // that all weigh nothing.
  method WeighNodes(nodes: seq<Fp>, ghost kind: set<Fp>, stats: RelStats, position: Position, w: BwWeights, scale: nat)
    returns (list: Option<WeightedNodes>)
    requires Lists(nodes, kind) && scale > 0
    requires forall r :: r in kind ==> r in stats && GetBwWeight(stats[r].flags, position, w).Some?
    ensures list.Some? ==> Weighed(list.value, kind, stats, position, w, scale)
    ensures list == None <==> forall r :: r in kind ==> PositionWeight(stats[r], position, w, scale) == 0.0
  {
    hide Cumulative, PositionWeight, GetBwWeight, Weighed;
    var weights := GetPositionWeights(nodes, stats, position, w, scale);
    assert weights.Some?;
    assert WeighedFor(nodes, weights.value, stats, position, w, scale);
    TotalIsZero(nodes, weights.value);
    list := GetWeightedNodes(nodes, weights.value);
    if list.Some? {
      WeighedIs(list.value, nodes, weights.value, kind, stats, position, w, scale);
    }
  }
}
