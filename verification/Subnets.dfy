/** The subnets of the address record, and the addresses free in them. */
module Subnets {
  import opened Options

  const MAX_SUBNET_HOSTS := 1024

  /** A cleaned subnet: its first address, how many it has, and what is said of it. */
  datatype Subnet = Subnet(base: nat, size: nat, gateway: Option<nat>, dhcp: Option<(nat, nat)>) {
    predicate Has(a: nat) { base <= a < base + size }
    predicate Overlaps(other: Subnet) { base < other.base + other.size && other.base < base + size }
  }

  /** A subnet as asked for, its addresses read but nothing else checked. */
  datatype Ask = Ask(address: nat, prefix: nat, gateway: Option<nat>, first: Option<nat>, last: Option<nat>)

  datatype Refusal = NotRange | Outside | HalfRange | Backwards | Twice | Overlap

  datatype Result<T> = Done(value: T) | Refused(why: Refusal)

  function Power(n: nat): (r: nat)
    ensures r > 0
  {
    if n == 0 then 1 else 2 * Power(n - 1)
  }

  function NetOf(address: nat, prefix: nat): Subnet
    requires prefix <= 32
  {
    var size := Power(32 - prefix);
    BaseIsMultiple(address, size);
    Subnet(address - address % size, size, None, None)
  }

  predicate Inside(address: Option<nat>, net: Subnet) { address.Some? ==> net.Has(address.value) }

  /** `_clean_subnet`. */
  function Clean(ask: Ask): Result<Subnet> {
    if ask.prefix > 30 then Refused(NotRange)
    else
      var net := NetOf(ask.address, ask.prefix);
      if net.size - 2 > MAX_SUBNET_HOSTS then Refused(NotRange)
      else if !Inside(ask.gateway, net) || !Inside(ask.first, net) || !Inside(ask.last, net) then Refused(Outside)
      else if ask.first.Some? != ask.last.Some? then Refused(HalfRange)
      else if ask.first.Some? && ask.first.value > ask.last.value then Refused(Backwards)
      else
        var dhcp := if ask.first.Some? then Some((ask.first.value, ask.last.value)) else None;
        Done(net.(gateway := ask.gateway, dhcp := dhcp))
  }

  predicate Prefixed(s: Subnet, prefix: nat) { 22 <= prefix <= 30 && s.size == Power(32 - prefix) }

  /** A subnet as the record keeps it: from /22 to /30, on its own boundary, with a gateway
      and a range inside it. */
  ghost predicate Sound(s: Subnet) {
    && (exists prefix: nat :: Prefixed(s, prefix))
    && s.size > 0 && s.base % s.size == 0
    && Inside(s.gateway, s)
    && (s.dhcp.Some? ==> s.Has(s.dhcp.value.0) && s.Has(s.dhcp.value.1) && s.dhcp.value.0 <= s.dhcp.value.1)
  }

  lemma {:induction false} PowerGrows(a: nat, b: nat)
    requires a <= b
    ensures Power(a) <= Power(b)
  {
    if a < b { PowerGrows(a, b - 1); }
  }

  lemma BaseIsMultiple(address: nat, size: nat)
    requires size > 0
    ensures (address - address % size) % size == 0 &&
      0 <= address - address % size <= address < address - address % size + size
  {
    var q := address / size;
    assert address - address % size == size * q;
    MultipleOf(size, q);
  }

  lemma MultipleOf(size: nat, q: nat)
    requires size > 0
    ensures (size * q) % size == 0
  {
    var p, r := (size * q) / size, (size * q) % size;
    assert size * q == size * p + r;
    assert size * (q - p) == r;
    Scaled(size, q - p);
  }

  lemma Scaled(size: nat, d: int)
    ensures d >= 1 ==> size * d >= size
    ensures d <= -1 ==> size * d <= -1 * size
  {
  }

  lemma LargeNet(prefix: nat)
    requires prefix < 22
    ensures Power(32 - prefix) >= 2048
  {
    PowerGrows(11, 32 - prefix);
    assert Power(11) == 2048;
  }

  /** What is cleaned is sound, and has the address asked for. */
  lemma CleanIsSound(ask: Ask)
    requires Clean(ask).Done?
    ensures Sound(Clean(ask).value) && Clean(ask).value.Has(ask.address)
  {
    var size := Power(32 - ask.prefix);
    BaseIsMultiple(ask.address, size);
    if ask.prefix < 22 { LargeNet(ask.prefix); }
    assert Prefixed(Clean(ask).value, ask.prefix);
  }

  /** The address, if there is one, lies in the block of so many addresses from `base`. */
  predicate Within(a: Option<nat>, base: nat, size: nat) { a.Some? ==> base <= a.value < base + size }

  predicate AllWithin(ask: Ask, base: nat, size: nat) {
    && Within(ask.gateway, base, size) && Within(ask.first, base, size) && Within(ask.last, base, size)
  }

  /** The range has both its ends, in order, or none. */
  predicate RangeAsked(ask: Ask) {
    (ask.first.Some? <==> ask.last.Some?) && (ask.first.Some? && ask.last.Some? ==> ask.first.value <= ask.last.value)
  }

  /** The first address of the block of that size around an address. */
  function BlockStart(address: nat, size: nat): nat
    requires size > 0
  {
    address / size * size
  }

  lemma BlockIs(address: nat, size: nat)
    requires size > 0
    ensures BlockStart(address, size) == address - address % size
  {
  }

  /** An ask is taken exactly when its prefix is one from /22 to /30, its gateway and range lie
      in the block of that size around its address, and the range has both ends in order. */
  lemma CleanExactlyWhen(ask: Ask)
    ensures Clean(ask).Done? <==>
      && 22 <= ask.prefix <= 30 && RangeAsked(ask)
      && AllWithin(ask, BlockStart(ask.address, Power(32 - ask.prefix)), Power(32 - ask.prefix))
  {
    hide BlockStart;
    if ask.prefix <= 30 {
      BlockIs(ask.address, Power(32 - ask.prefix));
      if ask.prefix < 22 {
        LargeNet(ask.prefix);
      } else {
        PowerGrows(32 - ask.prefix, 10);
        assert Power(10) == 1024;
      }
    }
  }

  /** What is kept of it is that block, the gateway and the range. */
  lemma CleanKeeps(ask: Ask)
    requires Clean(ask).Done? && ask.prefix <= 30
    ensures var net, size := Clean(ask).value, Power(32 - ask.prefix);
      && net.base == BlockStart(ask.address, size) && net.size == size && net.gateway == ask.gateway
      && (net.dhcp.Some? <==> ask.first.Some?)
      && (net.dhcp.Some? ==> ask.first == Some(net.dhcp.value.0) && ask.last == Some(net.dhcp.value.1))
  {
    hide BlockStart;
    BlockIs(ask.address, Power(32 - ask.prefix));
  }

  /** Every sound subnet can be asked for, and is kept as it is. */
  lemma SoundIsClean(s: Subnet) returns (ask: Ask)
    requires Sound(s)
    ensures Clean(ask) == Done(s)
  {
    var prefix: nat :| Prefixed(s, prefix);
    var first := if s.dhcp.Some? then Some(s.dhcp.value.0) else None;
    var last := if s.dhcp.Some? then Some(s.dhcp.value.1) else None;
    ask := Ask(s.base, prefix, s.gateway, first, last);
    PowerGrows(32 - prefix, 10);
    assert Power(10) == 1024;
  }

  /** Two subnets on their own boundaries that overlap are nested. */
  lemma OverlapIsNesting(a: Subnet, b: Subnet)
    requires Sound(a) && Sound(b) && a.size <= b.size && a.Overlaps(b)
    ensures forall x :: a.Has(x) ==> b.Has(x)
  {
    var p: nat :| Prefixed(a, p);
    var q: nat :| Prefixed(b, q);
    if p < q { PowerDoubles(32 - q, 32 - p); }
    var k := PowerDivides(32 - p, 32 - q);
    Nested(a.base, a.size, b.base, b.size, k);
  }

  lemma {:induction false} PowerDoubles(a: nat, b: nat)
    requires a < b
    ensures Power(b) >= 2 * Power(a)
  {
    PowerGrows(a, b - 1);
  }

  lemma {:induction false} PowerDivides(a: nat, b: nat) returns (k: nat)
    requires a <= b
    ensures Power(b) == Power(a) * k
  {
    if a == b {
      k := 1;
    } else {
      var j := PowerDivides(a, b - 1);
      k := 2 * j;
      assert Power(a) * (2 * j) == 2 * (Power(a) * j);
    }
  }

  lemma Nested(a: nat, n: nat, b: nat, m: nat, k: nat)
    requires n > 0 && m > 0 && a % n == 0 && b % m == 0 && m == n * k
    requires a < b + m && b < a + n
    ensures b <= a && a + n <= b + m
  {
    var i, j := a / n, b / m;
    assert a == n * i && b == m * j == n * (k * j) by { assert (n * k) * j == n * (k * j); }
    Steps(n, k * j, i);
    assert b + m == n * (k * j + k) by { assert n * (k * j + k) == n * (k * j) + n * k; }
    Steps(n, i, k * j + k);
  }

  /** Multiples less than one step out of order are in order. */
  lemma Steps(n: nat, x: int, y: int)
    requires n > 0
    ensures n * x < n * y + n ==> x <= y && n * x <= n * y
    ensures n * x < n * y ==> x + 1 <= y && n * x + n <= n * y
  {
    Grows(n, x, y);
    Grows(n, y + 1, x);
    Grows(n, x + 1, y);
    assert n * (y + 1) == n * y + n && n * (x + 1) == n * x + n;
    if y <= x { Grows(n, y, x); }
  }

  lemma Grows(n: nat, x: int, y: int)
    ensures x <= y ==> n * x <= n * y
  {
  }

  predicate Disjoint(subnets: seq<Subnet>) {
    forall i, j :: 0 <= i < j < |subnets| ==> !subnets[i].Overlaps(subnets[j])
  }

  /** Each is a subnet, and no two overlap. */
  predicate Acceptable(asks: seq<Ask>) {
    && (forall i :: 0 <= i < |asks| ==> Clean(asks[i]).Done?)
    && (forall i, j :: 0 <= i < j < |asks| ==> !Clean(asks[i]).value.Overlaps(Clean(asks[j]).value))
  }

  /** `save_subnets` up to the write. */
  method CleanAll(asks: seq<Ask>) returns (result: Result<seq<Subnet>>)
    ensures result.Done? <==> Acceptable(asks)
    ensures result.Done? ==> |result.value| == |asks| && forall i :: 0 <= i < |asks| ==>
      Done(result.value[i]) == Clean(asks[i])
    ensures result.Done? ==> Disjoint(result.value) && forall s :: s in result.value ==> Sound(s)
  {
    hide Clean, Sound;
    var clean: seq<Subnet> := [];
    for i := 0 to |asks|
      invariant |clean| == i && forall j :: 0 <= j < i ==> Clean(asks[j]) == Done(clean[j])
      invariant forall s :: s in clean ==> Sound(s) && s.size > 0
    {
      var one := Clean(asks[i]);
      if one.Refused? {
        return Refused(one.why);
      }
      CleanIsSound(asks[i]);
      SoundSize(one.value);
      clean := clean + [one.value];
    }
    for a := 0 to |clean|
      invariant forall i, j :: 0 <= i < a && i < j < |clean| ==> Cidr(clean[i]) != Cidr(clean[j])
    {
      for b := a + 1 to |clean|
        invariant forall j :: a < j < b ==> Cidr(clean[a]) != Cidr(clean[j])
      {
        if Cidr(clean[a]) == Cidr(clean[b]) {
          assert clean[a] in clean && clean[a].Overlaps(clean[b]);
          return Refused(Twice);
        }
      }
    }
    for a := 0 to |clean|
      invariant forall i, j :: 0 <= i < a && 0 <= j < |clean| && i != j ==> !clean[i].Overlaps(clean[j])
    {
      for b := 0 to |clean|
        invariant forall j :: 0 <= j < b && j != a ==> !clean[a].Overlaps(clean[j])
      {
        if a != b && clean[a].Overlaps(clean[b]) {
          assert clean[b].Overlaps(clean[a]);
          return Refused(Overlap);
        }
      }
    }
    return Done(clean);
  }

  function Cidr(s: Subnet): (nat, nat) { (s.base, s.size) }

  lemma SoundSize(s: Subnet)
    requires Sound(s)
    ensures s.size >= 4 && s.size <= 1024
  {
    var prefix: nat :| Prefixed(s, prefix);
    PowerGrows(2, 32 - prefix);
    PowerGrows(32 - prefix, 10);
    assert Power(2) == 4 && Power(10) == 1024;
  }

  // ---- the nodes' own subnets ----

  function NodeNet(ip: nat): Subnet { Subnet(ip - ip % 256, 256, None, None) }

  lemma NodeNetIs(ip: nat)
    ensures NodeNet(ip) == NetOf(ip, 24) && Sound(NodeNet(ip)) && NodeNet(ip).Has(ip)
  {
    assert Power(8) == 256 == Power(32 - 24);
    assert Prefixed(NodeNet(ip), 24);
    BaseIsMultiple(ip, 256);
  }

  /** /24s, none twice. */
  predicate NodeNets(nets: seq<Subnet>) {
    && (forall i :: 0 <= i < |nets| ==> nets[i] == NodeNet(nets[i].base))
    && (forall i, j :: 0 <= i < j < |nets| ==> nets[i].base != nets[j].base)
  }

  predicate Clear(net: Subnet, have: seq<Subnet>) { forall i :: 0 <= i < |have| ==> !net.Overlaps(have[i]) }

  /** The change `_cover_nodes` makes: those of its /24s that overlap nothing the record has. */
  function Covered(subnets: seq<Subnet>, have: seq<Subnet>, nets: seq<Subnet>): seq<Subnet> {
    if nets == [] then subnets
    else
      var less, last := Covered(subnets, have, nets[..|nets| - 1]), nets[|nets| - 1];
      if Clear(last, have) then less + [last] else less
  }

  lemma NodeNetsApart(a: nat, b: nat)
    requires NodeNet(a).base != NodeNet(b).base
    ensures !NodeNet(a).Overlaps(NodeNet(b))
  {
    var p, q := a / 256, b / 256;
    assert NodeNet(a).base == 256 * p && NodeNet(b).base == 256 * q;
  }

  /** What is added overlaps neither what was there nor what else is added. */
  lemma {:induction false} CoveredIs(have: seq<Subnet>, nets: seq<Subnet>)
    requires Disjoint(have) && NodeNets(nets)
    ensures var all := Covered(have, have, nets); Disjoint(all) && have <= all && AddedFrom(all, |have|, nets)
    ensures forall i :: 0 <= i < |nets| && Clear(nets[i], have) ==> nets[i] in Covered(have, have, nets)
  {
    hide Disjoint, Clear, AddedFrom;
    if nets == [] {
      NoneAdded(have);
    } else {
      var less, last := nets[..|nets| - 1], nets[|nets| - 1];
      CoveredIs(have, less);
      var all := Covered(have, have, less);
      if Clear(last, have) {
        OneAdded(have, all, nets);
        assert have <= all + [last];
      } else {
        AddedLater(all, |have|, less, nets);
      }
      assert forall i :: 0 <= i < |less| ==> less[i] == nets[i];
    }
  }

  /** The subnets from k on are among those to add. */
  predicate AddedFrom(all: seq<Subnet>, k: nat, nets: seq<Subnet>) { forall i :: k <= i < |all| ==> all[i] in nets }

  lemma NoneAdded(have: seq<Subnet>)
    ensures AddedFrom(have, |have|, [])
  {
  }

  lemma AddedLater(all: seq<Subnet>, k: nat, less: seq<Subnet>, nets: seq<Subnet>)
    requires AddedFrom(all, k, less) && less <= nets
    ensures AddedFrom(all, k, nets)
  {
    assert forall s :: s in less ==> s in nets;
  }

  lemma OneAdded(have: seq<Subnet>, all: seq<Subnet>, nets: seq<Subnet>)
    requires NodeNets(nets) && nets != [] && have <= all && Disjoint(all) && AddedFrom(all, |have|, nets[..|nets| - 1])
    requires Clear(nets[|nets| - 1], have)
    ensures Disjoint(all + [nets[|nets| - 1]]) && AddedFrom(all + [nets[|nets| - 1]], |have|, nets)
  {
    var less, last := nets[..|nets| - 1], nets[|nets| - 1];
    forall k | 0 <= k < |all| ensures !all[k].Overlaps(last) {
      if k < |have| {
        assert all[k] == have[k];
      } else {
        assert all[k] in less;
        var j :| 0 <= j < |less| && less[j] == all[k];
        NodeNetsApart(nets[j].base, last.base);
      }
    }
    AddedLater(all, |have|, less, nets);
  }

  lemma {:induction false} CoveredSound(have: seq<Subnet>, nets: seq<Subnet>)
    requires NodeNets(nets) && forall s :: s in have ==> Sound(s)
    ensures forall s :: s in Covered(have, have, nets) ==> Sound(s)
  {
    hide Sound, Clear;
    if nets != [] {
      CoveredSound(have, nets[..|nets| - 1]);
      NodeNetIs(nets[|nets| - 1].base);
    }
  }

  /** `_cover_nodes` up to the write: the /24s of nodes in no subnet that overlap none. */
  method Missing(nodes: seq<nat>, subnets: seq<Subnet>) returns (nets: seq<Subnet>)
    ensures NodeNets(nets)
    ensures forall net :: net in nets <==>
      (exists i :: 0 <= i < |nodes| && NodeNet(nodes[i]) == net && Unlisted(nodes[i], subnets)) && Clear(net, subnets)
  {
    nets := [];
    for i := 0 to |nodes|
      invariant NodeNets(nets)
      invariant forall net :: net in nets <==>
        (exists j :: 0 <= j < i && NodeNet(nodes[j]) == net && Unlisted(nodes[j], subnets)) && Clear(net, subnets)
    {
      var net := NodeNet(nodes[i]);
      if Unlisted(nodes[i], subnets) && Clear(net, subnets) && net !in nets {
        NodeNetAgain(nodes[i]);
        nets := nets + [net];
      }
    }
  }

  predicate Unlisted(ip: nat, subnets: seq<Subnet>) { forall i :: 0 <= i < |subnets| ==> !subnets[i].Has(ip) }

  lemma NodeNetAgain(ip: nat)
    ensures NodeNet(NodeNet(ip).base) == NodeNet(ip)
  {
    BaseIsMultiple(ip, 256);
  }

  /** Covering then leaves a node outside every subnet only when a subnet without it overlaps
      its /24. */
  lemma {:induction false} NodesAreCovered(nodes: seq<nat>, seen: seq<Subnet>, have: seq<Subnet>, nets: seq<Subnet>,
    i: nat)
    requires i < |nodes| && Disjoint(have) && NodeNets(nets)
    requires forall net :: net in nets <==>
      (exists i :: 0 <= i < |nodes| && NodeNet(nodes[i]) == net && Unlisted(nodes[i], seen)) && Clear(net, seen)
    ensures Unlisted(nodes[i], Covered(have, have, nets)) ==>
      !Clear(NodeNet(nodes[i]), have) || !Clear(NodeNet(nodes[i]), seen) || !Unlisted(nodes[i], seen)
  {
    hide Sound;
    var net := NodeNet(nodes[i]);
    if Clear(net, have) && Clear(net, seen) && Unlisted(nodes[i], seen) {
      assert net in nets;
      var k :| 0 <= k < |nets| && nets[k] == net;
      CoveredIs(have, nets);
      var all := Covered(have, have, nets);
      var j :| 0 <= j < |all| && all[j] == net;
      NodeNetIs(nodes[i]);
      assert all[j].Has(nodes[i]);
    }
  }

  // ---- free addresses ----

  /** An address pool as the cluster tells it: a range, or a subnet. */
  datatype Pool = Range(first: nat, last: nat) | Whole(net: Subnet)

  /** `_pool_ranges`: of a subnet, all but its first and last address. */
  function RangeOf(pool: Pool): (int, int) {
    match pool
    case Range(first, last) => (first, last)
    case Whole(net) => (net.base + 1, net.base + net.size - 2)
  }

  function Taken(s: Subnet, pools: seq<Pool>): (r: seq<(int, int)>)
    ensures |r| >= |pools|
  {
    (if s.dhcp.Some? then [(s.dhcp.value.0 as int, s.dhcp.value.1 as int)] else [])
    + seq(|pools|, i requires 0 <= i < |pools| => RangeOf(pools[i]))
  }

  predicate IsFree(a: nat, s: Subnet, used: set<nat>, taken: seq<(int, int)>) {
    && a !in used
    && (forall i :: 0 <= i < |taken| ==> !(taken[i].0 <= a <= taken[i].1))
    && s.gateway != Some(a)
  }

  /** The free list of one subnet, from `from` on. */
  function FreeFrom(from: nat, s: Subnet, used: set<nat>, taken: seq<(int, int)>): (r: seq<nat>)
    decreases s.base + s.size - from
  {
    if from + 1 >= s.base + s.size then []
    else (if IsFree(from, s, used, taken) then [from] else []) + FreeFrom(from + 1, s, used, taken)
  }

  /** The free list: every address of the subnet but its first and last that nothing has. */
  function FreeList(s: Subnet, used: set<nat>, pools: seq<Pool>): seq<nat> {
    FreeFrom(s.base + 1, s, used, Taken(s, pools))
  }

  lemma {:induction false} FreeFromIs(from: nat, s: Subnet, used: set<nat>, taken: seq<(int, int)>)
    ensures var free := FreeFrom(from, s, used, taken);
      && (forall a :: a in free <==> from <= a < s.base + s.size - 1 && IsFree(a, s, used, taken))
      && (forall i, j :: 0 <= i < j < |free| ==> free[i] < free[j])
    decreases s.base + s.size - from
  {
    hide IsFree;
    if from + 1 < s.base + s.size {
      FreeFromIs(from + 1, s, used, taken);
      var rest := FreeFrom(from + 1, s, used, taken);
      assert forall j :: 0 <= j < |rest| ==> rest[j] in rest;
    }
  }

  /** A free address is in its subnet, in use by nothing, in neither the DHCP range nor any
      pool, and not the gateway, the network's own or its broadcast address; the list has all
      such addresses, lowest first. */
  lemma FreeListIs(s: Subnet, used: set<nat>, pools: seq<Pool>, a: nat)
    ensures a in FreeList(s, used, pools) <==>
      && s.Has(a) && a != s.base && a != s.base + s.size - 1 && a !in used && s.gateway != Some(a)
      && (s.dhcp.Some? ==> !(s.dhcp.value.0 <= a <= s.dhcp.value.1))
      && (forall i :: 0 <= i < |pools| ==> !(RangeOf(pools[i]).0 <= a <= RangeOf(pools[i]).1))
    ensures var free := FreeList(s, used, pools); forall i, j :: 0 <= i < j < |free| ==> free[i] < free[j]
  {
    var taken := Taken(s, pools);
    FreeFromIs(s.base + 1, s, used, taken);
    var n := |taken| - |pools|;
    assert s.dhcp.Some? ==> taken[0] == (s.dhcp.value.0 as int, s.dhcp.value.1 as int);
    forall i | 0 <= i < |pools| ensures taken[n + i] == RangeOf(pools[i]) {
    }
    assert forall i :: 0 <= i < |taken| ==> i < n || taken[i] == RangeOf(pools[i - n]);
  }

  /** Of a pool that is a whole subnet every address a host could have is taken, and none
      beyond it for its sake. */
  lemma PoolIsTaken(s: Subnet, used: set<nat>, pools: seq<Pool>, net: Subnet, a: nat)
    ensures net.base < a < net.base + net.size - 1 && Whole(net) in pools ==> a !in FreeList(s, used, pools)
    ensures !(net.base < a < net.base + net.size - 1) ==>
      (a in FreeList(s, used, pools + [Whole(net)]) <==> a in FreeList(s, used, pools))
  {
    FreeListIs(s, used, pools, a);
    FreeListIs(s, used, pools + [Whole(net)], a);
    var more := pools + [Whole(net)];
    assert more[|pools|] == Whole(net) && forall i :: 0 <= i < |pools| ==> more[i] == pools[i];
    if Whole(net) in pools {
      var i :| 0 <= i < |pools| && pools[i] == Whole(net);
      assert RangeOf(pools[i]) == (net.base + 1, net.base + net.size - 2);
    }
  }

  /** And of a range every address from its first to its last. */
  lemma RangeIsTaken(s: Subnet, used: set<nat>, pools: seq<Pool>, first: nat, last: nat, a: nat)
    ensures first <= a <= last && Range(first, last) in pools ==> a !in FreeList(s, used, pools)
    ensures !(first <= a <= last) ==>
      (a in FreeList(s, used, pools + [Range(first, last)]) <==> a in FreeList(s, used, pools))
  {
    FreeListIs(s, used, pools, a);
    FreeListIs(s, used, pools + [Range(first, last)], a);
    var more := pools + [Range(first, last)];
    assert more[|pools|] == Range(first, last) && forall i :: 0 <= i < |pools| ==> more[i] == pools[i];
    if Range(first, last) in pools {
      var i :| 0 <= i < |pools| && pools[i] == Range(first, last);
    }
  }

  /** No address is free in two subnets of one record. */
  lemma FreeOnce(subnets: seq<Subnet>, used: set<nat>, pools: seq<Pool>, i: nat, j: nat, a: nat)
    requires Disjoint(subnets) && i < j < |subnets|
    ensures !(a in FreeList(subnets[i], used, pools) && a in FreeList(subnets[j], used, pools))
  {
    FreeListIs(subnets[i], used, pools, a);
    FreeListIs(subnets[j], used, pools, a);
  }
}
