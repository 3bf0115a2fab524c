/**
  Relays as pathsim.py sees them: consensus entries, server descriptors, exit policies, families
  and /16 subnets, and the filters that decide which relays fit a circuit position.
*/
module Network {
  import opened Basics

  datatype Flag = Fast | Guard | Exit | BadExit | Running | Stable | Valid

  type Fp = string

  datatype RelStat = RelStat(flags: set<Flag>, bandwidth: nat)

  type Ip = x: nat | x < 0x1_0000_0000

  // The address part of a rule covers everything, or the addresses that share its first bits.
  datatype Rule = Rule(isAccept: bool, minPort: nat, maxPort: nat, wildcard: bool, address: Ip, maskedBits: nat)

  // Family members come from splitting a line at its blanks, so none is empty.
  type Member = m: string | m != "" witness "$"

  datatype Descriptor = Descriptor(fingerprint: Fp, nickname: string, family: seq<Member>, address: string,
                                   exitPolicy: seq<Rule>, ntorKey: bool)

  type RelStats = map<Fp, RelStat>
  type Descriptors = map<Fp, Descriptor>

  // ---------- exit policies ----------

  predicate CoversPort(rule: Rule, port: nat) { rule.minPort <= port <= rule.maxPort }

  predicate CoversIp(rule: Rule, ip: Ip)
  {
    rule.wildcard || rule.maskedBits == 0 ||
    (rule.maskedBits <= 32 &&
     ip / Pow2(32 - rule.maskedBits) == rule.address / Pow2(32 - rule.maskedBits))
  }

  predicate CoversAnyIp(rule: Rule) { rule.wildcard || rule.maskedBits == 0 }

  // First matching rule decides, and no match accepts.
  predicate CanExitTo(policy: seq<Rule>, ip: Ip, port: nat)
  {
    policy == [] ||
    (if CoversPort(policy[0], port) && CoversIp(policy[0], ip) then policy[0].isAccept
     else CanExitTo(policy[1..], ip, port))
  }

  predicate MightExitToPort(policy: seq<Rule>, port: nat)
  {
    policy == [] ||
    (if CoversPort(policy[0], port) && policy[0].isAccept then true
     else if CoversPort(policy[0], port) && CoversAnyIp(policy[0]) then false
     else MightExitToPort(policy[1..], port))
  }

  predicate CanExitToPort(policy: seq<Rule>, port: nat)
  {
    policy == [] ||
    (if CoversPort(policy[0], port) && CoversAnyIp(policy[0]) then policy[0].isAccept
     else CanExitToPort(policy[1..], port))
  }

  // The source compares the method get_masked_bits itself with 0, which never holds, so only
  // the wildcard test counts here.
  predicate PolicyIsRejectStar(policy: seq<Rule>)
  {
    policy == [] ||
    (if policy[0].isAccept then false
     else if policy[0].minPort <= 1 && policy[0].maxPort == 65535 && policy[0].wildcard then true
     else PolicyIsRejectStar(policy[1..]))
  }

  // The loose test has no false negatives: a relay that exits to the port for some address, or
  // that the port-only guess accepts, passes it.
  lemma {:induction false} MightExitIsConservative(policy: seq<Rule>, ip: Ip, port: nat)
    ensures CanExitTo(policy, ip, port) || CanExitToPort(policy, port) ==> MightExitToPort(policy, port)
  {
    if policy != [] {
      MightExitIsConservative(policy[1..], ip, port);
    }
  }

  predicate Matches(rule: Rule, ip: Ip, port: nat) { CoversPort(rule, port) && CoversIp(rule, ip) }

  // A policy judged to reject everything lets an address and port through only when no rule
  // mentions them, by the default.
  lemma {:induction false} RejectStarRefuses(policy: seq<Rule>, ip: Ip, port: nat, k: nat)
    requires PolicyIsRejectStar(policy) && CanExitTo(policy, ip, port)
    requires 1 <= port <= 65535 && k < |policy|
    ensures !Matches(policy[k], ip, port)
  {
    if k > 0 {
      RejectStarRefuses(policy[1..], ip, port, k - 1);
    }
  }

  predicate AllPorts(rule: Rule) { rule.minPort <= 1 && rule.maxPort == 65535 }

  // What the comparison with 0 is there for: zero masked bits cover every address, too.
  predicate IntendedRejectStar(policy: seq<Rule>)
  {
    policy == [] ||
    (if policy[0].isAccept then false
     else if AllPorts(policy[0]) && CoversAnyIp(policy[0]) then true
     else IntendedRejectStar(policy[1..]))
  }

  // Rule k is the first accepting one, and no rejection before it decides.
  ghost predicate Accepts(policy: seq<Rule>, k: int, star: Rule -> bool)
  {
    0 <= k < |policy| && policy[k].isAccept &&
    forall i :: 0 <= i < k ==> !policy[i].isAccept && !(AllPorts(policy[i]) && star(policy[i]))
  }

  ghost function Wildcard(): Rule -> bool { (rule: Rule) => rule.wildcard }
  ghost function AnyIp(): Rule -> bool { (rule: Rule) => CoversAnyIp(rule) }

  // Before rule k, everything is rejected by zero masked bits, though not as a wildcard.
  ghost predicate StarBefore(policy: seq<Rule>, k: nat)
    requires k <= |policy|
  {
    exists j :: 0 <= j < k && !policy[j].isAccept && AllPorts(policy[j]) && policy[j].maskedBits == 0 && !policy[j].wildcard
  }

  // The code and its intention differ exactly on the policies with an accepting rule that no
  // accepting rule and no wildcard rejection of everything precedes, but a rejection of
  // everything by zero masked bits does.
  lemma RejectStarDiffers(policy: seq<Rule>)
    ensures PolicyIsRejectStar(policy) ==> IntendedRejectStar(policy)
    ensures PolicyIsRejectStar(policy) != IntendedRejectStar(policy) <==>
            exists k :: Accepts(policy, k, Wildcard()) && StarBefore(policy, k)
  {
    RejectStarIs(policy);
    forall k | Accepts(policy, k, AnyIp()) ensures Accepts(policy, k, Wildcard()) {
      assert forall i :: 0 <= i < k ==> !(AllPorts(policy[i]) && AnyIp()(policy[i]));
    }
    forall k | Accepts(policy, k, Wildcard()) ensures Accepts(policy, k, AnyIp()) <==> !StarBefore(policy, k) {
      assert forall i :: 0 <= i < k ==> !policy[i].isAccept;
    }
    assert forall j, k :: Accepts(policy, j, AnyIp()) && Accepts(policy, k, Wildcard()) ==> j == k;
  }

  // Both verdicts as statements about the rules: there is no deciding accept.
  lemma {:induction false} RejectStarIs(policy: seq<Rule>)
    ensures PolicyIsRejectStar(policy) <==> !exists k :: Accepts(policy, k, Wildcard())
    ensures IntendedRejectStar(policy) <==> !exists k :: Accepts(policy, k, AnyIp())
  {
    if policy != [] {
      RejectStarIs(policy[1..]);
      AcceptsRest(policy, Wildcard());
      AcceptsRest(policy, AnyIp());
    }
  }

  lemma AcceptsRest(policy: seq<Rule>, star: Rule -> bool)
    requires policy != []
    ensures (exists k :: Accepts(policy, k, star)) <==>
            policy[0].isAccept || (!(AllPorts(policy[0]) && star(policy[0])) && exists k :: Accepts(policy[1..], k, star))
  {
    var rest := policy[1..];
    forall k | Accepts(policy, k, star) && k > 0 ensures Accepts(rest, k - 1, star) {
      assert forall i :: 0 <= i < |rest| ==> rest[i] == policy[i + 1];
    }
    if policy[0].isAccept {
      assert Accepts(policy, 0, star);
    } else if !(AllPorts(policy[0]) && star(policy[0])) {
      forall k | Accepts(rest, k, star) ensures Accepts(policy, k + 1, star) {
        forall i | 0 <= i < k + 1 ensures !policy[i].isAccept && !(AllPorts(policy[i]) && star(policy[i])) {
          assert i > 0 ==> policy[i] == rest[i - 1];
        }
      }
    }
  }

  // A relay that lets nothing through, yet is not seen to reject everything.
  lemma RejectStarFooled(ip: Ip, port: nat)
    requires 1 <= port <= 65535
    ensures var policy := [Rule(false, 1, 65535, false, 0, 0), Rule(true, 80, 80, true, 0, 0)];
            !PolicyIsRejectStar(policy) && IntendedRejectStar(policy) && !CanExitTo(policy, ip, port)
  {
    var policy := [Rule(false, 1, 65535, false, 0, 0), Rule(true, 80, 80, true, 0, 0)];
    assert policy[1..] == [Rule(true, 80, 80, true, 0, 0)];
  }

  // ---------- families and subnets ----------

  predicate Lists(lister: Descriptor, other: Descriptor)
  {
    exists m | m in lister.family ::
      (m[0] == '$' && m[1..] == other.fingerprint) || m == other.nickname
  }

  predicate InSameFamily(d1: Descriptor, d2: Descriptor)
  {
    Lists(d1, d2) && Lists(d2, d1)
  }

  // Position of the first dot at or after from, or the length.
  function NextDot(s: string, from: nat): (d: nat)
    requires from <= |s|
    ensures from <= d <= |s|
    ensures forall k :: from <= k < d ==> s[k] != '.'
    ensures d < |s| ==> s[d] == '.'
    decreases |s| - from
  {
    if from == |s| || s[from] == '.' then from else NextDot(s, from + 1)
  }

  function Dot1(a: string): nat { NextDot(a, 0) }

  function Dot2(a: string): nat
    requires Dot1(a) < |a|
  {
    NextDot(a, Dot1(a) + 1)
  }

  // The part of "is an IPv4 address" that matters here: two leading octets of one to three
  // characters, each followed by a dot, and room for two more octets.
  predicate IsAddress(a: string)
  {
    |a| >= 7 && 1 <= Dot1(a) <= 3 && Dot1(a) + 2 <= Dot2(a) <= Dot1(a) + 4 && Dot2(a) < |a|
  }

  ghost predicate SameFirstTwoOctets(a1: string, a2: string)
    requires IsAddress(a1) && IsAddress(a2)
  {
    a1[..Dot1(a1)] == a2[..Dot1(a2)] && a1[Dot1(a1) + 1..Dot2(a1)] == a2[Dot1(a2) + 1..Dot2(a2)]
  }

  // What the code tests: the characters of a1 before its second dot, except the first dot.
  ghost predicate LooksSame16(a1: string, a2: string)
    requires IsAddress(a1) && IsAddress(a2)
  {
    forall k :: 0 <= k < Dot2(a1) && k != Dot1(a1) ==> a1[k] == a2[k]
  }

  method InSame16Subnet(a1: string, a2: string) returns (same: bool)
    requires IsAddress(a1) && IsAddress(a2)
    ensures same <==> LooksSame16(a1, a2)
  {
    var i := 0;
    while a1[i] != '.'
      invariant 0 <= i <= Dot1(a1)
      invariant forall k :: 0 <= k < i ==> a1[k] == a2[k]
      decreases Dot1(a1) - i
    {
      if a1[i] != a2[i] {
        return false;
      }
      i := i + 1;
    }
    i := i + 1;
    while a1[i] != '.'
      invariant Dot1(a1) < i <= Dot2(a1)
      invariant forall k :: 0 <= k < i && k != Dot1(a1) ==> a1[k] == a2[k]
      decreases Dot2(a1) - i
    {
      if a1[i] != a2[i] {
        return false;
      }
      i := i + 1;
    }
    return true;
  }

  // Relays of one /16 are always told apart from strangers ...
  lemma SameSubnetIsSeen(a1: string, a2: string)
    requires IsAddress(a1) && IsAddress(a2) && SameFirstTwoOctets(a1, a2)
    ensures LooksSame16(a1, a2)
  {
    var d := Dot1(a1);
    assert |a1[..d]| == |a2[..Dot1(a2)]|;
    forall k | 0 <= k < Dot2(a1) && k != d ensures a1[k] == a2[k] {
      if k < d {
        assert a1[k] == a1[..d][k];
        assert a2[k] == a2[..d][k];
      } else {
        assert a1[k] == a1[d + 1..Dot2(a1)][k - d - 1];
        assert a2[k] == a2[d + 1..Dot2(a2)][k - d - 1];
      }
    }
  }

  // ... and what the test reports is wrong exactly when it says yes and one of the two dots of the
  // first address stands over something else in the second.
  lemma SubnetTestExactly(a1: string, a2: string)
    requires IsAddress(a1) && IsAddress(a2)
    ensures LooksSame16(a1, a2) ==> Dot2(a1) < |a2|
    ensures SameFirstTwoOctets(a1, a2) <==> LooksSame16(a1, a2) && a2[Dot1(a1)] == '.' && a2[Dot2(a1)] == '.'
  {
    if SameFirstTwoOctets(a1, a2) {
      SameSubnetIsSeen(a1, a2);
    }
    if LooksSame16(a1, a2) {
      SeenExactly(a1, a2);
    }
  }

  lemma SeenExactly(a1: string, a2: string)
    requires IsAddress(a1) && IsAddress(a2) && LooksSame16(a1, a2)
    ensures Dot2(a1) < |a2|
    ensures SameFirstTwoOctets(a1, a2) <==> a2[Dot1(a1)] == '.' && a2[Dot2(a1)] == '.'
  {
    if SameFirstTwoOctets(a1, a2) {
      assert |a1[..Dot1(a1)]| == |a2[..Dot1(a2)]|;
      assert |a1[Dot1(a1) + 1..Dot2(a1)]| == |a2[Dot1(a2) + 1..Dot2(a2)]|;
    }
    if a2[Dot1(a1)] == '.' && a2[Dot2(a1)] == '.' {
      assert forall k :: 0 <= k < Dot1(a1) ==> a2[k] == a1[k] != '.';
      assert Dot1(a2) == Dot1(a1);
      assert forall k :: Dot1(a1) < k < Dot2(a1) ==> a2[k] == a1[k] != '.';
      assert Dot2(a2) == Dot2(a1);
    }
  }

  // The unchecked dot: 1.2.3.4 counts as a neighbour of 192.0.0.1, though not the other way round.
  lemma SubnetTestFooled()
    ensures IsAddress("1.2.3.4") && IsAddress("192.0.0.1")
    ensures LooksSame16("1.2.3.4", "192.0.0.1") && !LooksSame16("192.0.0.1", "1.2.3.4")
    ensures !SameFirstTwoOctets("1.2.3.4", "192.0.0.1")
  {
    var a, b := "1.2.3.4", "192.0.0.1";
    assert NextDot(a, 0) == 1 by { assert a[0] != '.' && a[1] == '.'; }
    assert NextDot(a, 2) == 3 by { assert a[2] != '.' && a[3] == '.'; }
    assert NextDot(b, 0) == 3 by { assert b[0] != '.' && b[1] != '.' && b[2] != '.' && b[3] == '.'; }
    assert NextDot(b, 4) == 5 by { assert b[4] != '.' && b[5] == '.'; }
    assert b[1] != a[1];
    assert |a[..1]| != |b[..3]|;
  }

  // ---------- position filters ----------

  // Lookups in the two dictionaries are safe, and addresses and families are well formed.
  ghost predicate WellFormed(stats: RelStats, descs: Descriptors)
  {
    stats.Keys <= descs.Keys && forall r :: r in descs ==> IsAddress(descs[r].address)
  }

  // Purpose of an exit: internal, a known address and port, a port only, or any exiting at all.
  datatype Target = Internal | AddressPort(ip: Ip, port: nat) | PortOnly(port: nat) | AnyTarget

  predicate ExitFlags(flags: set<Flag>, fast: bool, stable: bool)
  {
    BadExit !in flags && Running in flags && Valid in flags && (!fast || Fast in flags) && (!stable || Stable in flags)
  }

  predicate ExitFilter(r: Fp, stats: RelStats, descs: Descriptors, fast: bool, stable: bool, target: Target, loose: bool)
    requires r in stats && r in descs
  {
    ExitFlags(stats[r].flags, fast, stable) &&
    var policy := descs[r].exitPolicy;
    match target
    case Internal => true
    case AddressPort(ip, port) => CanExitTo(policy, ip, port)
    case PortOnly(port) => if loose then MightExitToPort(policy, port) else CanExitToPort(policy, port)
    case AnyTarget => !PolicyIsRejectStar(policy)
  }

  ghost predicate FarApart(a: Fp, b: Fp, descs: Descriptors)
    requires a in descs && b in descs && IsAddress(descs[a].address) && IsAddress(descs[b].address)
  {
    a != b && !InSameFamily(descs[a], descs[b]) && !LooksSame16(descs[a].address, descs[b].address)
  }

  // Far apart as tested by the code implies really different networks, in both directions.
  lemma FarApartMeans(a: Fp, b: Fp, descs: Descriptors)
    requires a in descs && b in descs && IsAddress(descs[a].address) && IsAddress(descs[b].address)
    requires FarApart(a, b, descs)
    ensures a != b && !InSameFamily(descs[b], descs[a])
    ensures !SameFirstTwoOctets(descs[a].address, descs[b].address)
    ensures !SameFirstTwoOctets(descs[b].address, descs[a].address)
  {
    if SameFirstTwoOctets(descs[a].address, descs[b].address) {
      SameSubnetIsSeen(descs[a].address, descs[b].address);
    }
  }

  // An argument that is not given asks for nothing.
  ghost predicate MiddleFits(r: Fp, stats: RelStats, descs: Descriptors, fast: bool, stable: bool,
                             exit: Option<Fp>, guard: Option<Fp>)
    requires WellFormed(stats, descs) && r in stats
    requires (exit.Some? ==> exit.value in descs) && (guard.Some? ==> guard.value in descs)
  {
    Running in stats[r].flags && (!fast || Fast in stats[r].flags) && (!stable || Stable in stats[r].flags) &&
    (exit.Some? ==> FarApart(exit.value, r, descs)) && (guard.Some? ==> FarApart(guard.value, r, descs))
  }

  method MiddleFilter(r: Fp, stats: RelStats, descs: Descriptors, fast: bool, stable: bool,
                      exit: Option<Fp>, guard: Option<Fp>) returns (ok: bool)
    requires WellFormed(stats, descs) && r in stats
    requires (exit.Some? ==> exit.value in descs) && (guard.Some? ==> guard.value in descs)
    ensures ok <==> MiddleFits(r, stats, descs, fast, stable, exit, guard)
  {
    hide LooksSame16, InSameFamily;
    var farFromExit, farFromGuard := true, true;
    if exit != None {
      farFromExit := IsFarApart(exit.value, r, descs);
    }
    if guard != None {
      farFromGuard := IsFarApart(guard.value, r, descs);
    }
    ok := Running in stats[r].flags && (!fast || Fast in stats[r].flags) && (!stable || Stable in stats[r].flags) &&
      farFromExit && farFromGuard;
  }

  method IsFarApart(a: Fp, b: Fp, descs: Descriptors) returns (far: bool)
    requires a in descs && b in descs && IsAddress(descs[a].address) && IsAddress(descs[b].address)
    ensures far <==> FarApart(a, b, descs)
  {
    hide LooksSame16;
    var near := InSame16Subnet(descs[a].address, descs[b].address);
    far := a != b && !InSameFamily(descs[a], descs[b]) && !near;
  }

  predicate GuardFlags(flags: set<Flag>) { Running in flags && Valid in flags && Guard in flags }

  // The keys of a dictionary in some order: the source relies on none.
  method KeysOf<K(==), V>(m: map<K, V>) returns (ks: seq<K>)
    ensures forall k :: k in ks <==> k in m
    ensures forall i, j :: 0 <= i < j < |ks| ==> ks[i] != ks[j]
  {
    ks := [];
    var rest := m.Keys;
    while rest != {}
      invariant rest <= m.Keys
      invariant forall k :: k in m <==> k in ks || k in rest
      invariant forall k :: k in ks ==> k !in rest
      invariant forall i, j :: 0 <= i < j < |ks| ==> ks[i] != ks[j]
      decreases |rest|
    {
      var k :| k in rest;
      rest := rest - {k};
      ks := ks + [k];
    }
  }

  method FilterExits(stats: RelStats, descs: Descriptors, fast: bool, stable: bool, target: Target, loose: bool)
    returns (exits: seq<Fp>)
    requires WellFormed(stats, descs)
    ensures forall r :: r in exits <==> r in stats && ExitFilter(r, stats, descs, fast, stable, target, loose)
    ensures forall i, j :: 0 <= i < j < |exits| ==> exits[i] != exits[j]
  {
    var ks := KeysOf(stats);
    exits := [];
    for i := 0 to |ks|
      invariant forall r :: r in exits <==>
                  r in ks[..i] && ExitFilter(r, stats, descs, fast, stable, target, loose)
      invariant forall a, b :: 0 <= a < b < |exits| ==> exits[a] != exits[b]
    {
      if ExitFilter(ks[i], stats, descs, fast, stable, target, loose) {
        exits := exits + [ks[i]];
      }
    }
  }

  method FilterGuards(stats: RelStats, descs: Descriptors) returns (guards: seq<Fp>)
    ensures forall r :: r in guards <==> r in stats && r in descs && GuardFlags(stats[r].flags)
    ensures forall i, j :: 0 <= i < j < |guards| ==> guards[i] != guards[j]
  {
    var ks := KeysOf(stats);
    guards := [];
    for i := 0 to |ks|
      invariant forall r :: r in guards <==> r in ks[..i] && r in descs && GuardFlags(stats[r].flags)
      invariant forall a, b :: 0 <= a < b < |guards| ==> guards[a] != guards[b]
    {
      if GuardFlags(stats[ks[i]].flags) && ks[i] in descs {
        guards := guards + [ks[i]];
      }
    }
  }

  // Early filter, with all optional arguments omitted.
  method FilterMiddles(stats: RelStats, descs: Descriptors) returns (middles: seq<Fp>)
    requires WellFormed(stats, descs)
    ensures forall r :: r in middles <==> r in stats && Running in stats[r].flags
    ensures forall i, j :: 0 <= i < j < |middles| ==> middles[i] != middles[j]
  {
    hide IsAddress;
    var ks := KeysOf(stats);
    middles := [];
    for i := 0 to |ks|
      invariant forall r :: r in middles <==> r in ks[..i] && Running in stats[r].flags
      invariant forall a, b :: 0 <= a < b < |middles| ==> middles[a] != middles[b]
    {
      var fits := MiddleFilter(ks[i], stats, descs, false, false, None, None);
      if fits {
        middles := middles + [ks[i]];
      }
    }
  }

  // Drawing from the cached list for a port and rechecking with the address accepts exactly the
  // exits that filtering for the address itself would list.
  lemma CachedListIsExact(r: Fp, stats: RelStats, descs: Descriptors, fast: bool, stable: bool, ip: Ip, port: nat)
    requires WellFormed(stats, descs) && r in stats
    ensures ExitFilter(r, stats, descs, fast, stable, PortOnly(port), true) &&
            ExitFilter(r, stats, descs, fast, stable, AddressPort(ip, port), false)
       <==> ExitFilter(r, stats, descs, fast, stable, AddressPort(ip, port), false)
    ensures ExitFilter(r, stats, descs, fast, stable, PortOnly(port), false) ==>
            ExitFilter(r, stats, descs, fast, stable, PortOnly(port), true)
  {
    MightExitIsConservative(descs[r].exitPolicy, ip, port);
  }
}
