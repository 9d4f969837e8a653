/** IPv4 networks as the planner compares them, and the exact capacity of the pod network. */
module Cidr {
  import opened Pigeonhole
  import opened Wrappers

  function Pow2(n: nat): (r: nat)
    ensures r > 0
  {
    if n == 0 then 1 else 2 * Pow2(n - 1)
  }

  lemma {:induction false} PowSum(a: nat, b: nat)
    ensures Pow2(a + b) == Pow2(a) * Pow2(b)
  {
    if a > 0 {
      PowSum(a - 1, b);
      assert 2 * Pow2(a - 1) * Pow2(b) == 2 * (Pow2(a - 1) * Pow2(b));
    }
  }

  lemma PowOf8()
    ensures Pow2(8) == 256
  {
    assert Pow2(4) == 16;
    PowSum(4, 4);
  }

  /** The number of IPv4 addresses. */
  const ADDRESSES := 0x1_0000_0000

  lemma PowOf32()
    ensures Pow2(32) == ADDRESSES
  {
    PowOf8();
    PowSum(8, 8);
    PowSum(16, 16);
    assert Pow2(16) == 65536;
  }

  datatype Network = Network(base: int, prefix: nat)

  /** A parsed textual network or connected address; `address` may have host bits set. */
  datatype Text = V4(address: int, prefix: nat) | V6 | Malformed

  function Size(prefix: nat): nat
    requires prefix <= 32
  {
    Pow2(32 - prefix)
  }

  /** Canonical boundaries: no host bits set. */
  predicate Valid(n: Network) {
    && n.prefix <= 32 && 0 <= n.base && n.base + Size(n.prefix) <= ADDRESSES
    && n.base % Size(n.prefix) == 0
  }

  predicate Written(t: Text) {
    t.V4? && t.prefix <= 32 && 0 <= t.address < ADDRESSES
  }

  /** `ipv4_network`: strict parsing refuses host bits, other versions and malformed text. */
  function Parse(t: Text): Option<Network> {
    if Written(t) && t.address % Size(t.prefix) == 0 then Some(Network(t.address, t.prefix)) else None
  }

  /** The network an interface address is connected to. */
  function Connected(t: Text): Option<Network> {
    if Written(t) then Some(Network(t.address - t.address % Size(t.prefix), t.prefix)) else None
  }

  // ---- Multiples ----

  lemma Multiple(q: int, s: nat)
    requires s > 0
    ensures q * s % s == 0
  {
    assert (q * s) % s == 0 by {
      var x := q * s;
      assert x == s * (x / s) + x % s;
      assert s * (q - x / s) == x % s;
      var d := q - x / s;
      if d > 0 {
        Scale(1, d, s);
      } else if d < 0 {
        Scale(d, -1, s);
      }
    }
  }

  lemma Scale(a: int, b: int, s: nat)
    requires a <= b
    ensures a * s <= b * s
  {
  }

  lemma Below(a: int, b: int, s: nat)
    requires a * s < b * s
    ensures a < b
  {
    if b <= a {
      Scale(b, a, s);
    }
  }

  lemma Quotient(x: int, s: nat)
    requires s > 0 && x % s == 0
    ensures x == (x / s) * s
  {
  }

  lemma Aligned(address: int, prefix: nat)
    requires prefix <= 32 && 0 <= address < ADDRESSES
    ensures var base := address - address % Size(prefix);
            0 <= base && base % Size(prefix) == 0 && base + Size(prefix) <= ADDRESSES
  {
    PowOf32();
    PowSum(32 - prefix, prefix);
    hide Pow2;
    AlignedArith(address, Size(prefix), Pow2(prefix));
  }

  lemma AlignedArith(address: int, s: nat, m: nat)
    requires s > 0 && 0 <= address < s * m
    ensures var base := address - address % s;
            0 <= base && base % s == 0 && base + s <= s * m
  {
    var q := address / s;
    assert address == q * s + address % s;
    Multiple(q, s);
    Below(q, m, s);
    Scale(q + 1, m, s);
    assert (q + 1) * s == q * s + s;
  }

  function Broadcast(n: Network): int
    requires n.prefix <= 32
  {
    n.base + Size(n.prefix) - 1
  }

  predicate Contains(n: Network, address: int)
    requires n.prefix <= 32
  {
    n.base <= address <= Broadcast(n)
  }

  /** The network of an interface is the canonical one of its prefix around the address; strict parsing accepts
      exactly the addresses that are the boundary of that network. */
  lemma ParsedIsValid(t: Text)
    ensures Connected(t).Some? <==> Written(t)
    ensures Written(t) ==>
              && Valid(Connected(t).value) && Connected(t).value.prefix == t.prefix
              && Contains(Connected(t).value, t.address)
    ensures Parse(t).Some? <==> Connected(t).Some? && Connected(t).value.base == t.address
    ensures Parse(t).Some? ==> Parse(t) == Connected(t)
  {
    if Written(t) {
      Aligned(t.address, t.prefix);
    }
  }

  predicate Overlaps(a: Network, b: Network)
    requires a.prefix <= 32 && b.prefix <= 32
  {
    Contains(a, b.base) || Contains(a, Broadcast(b)) || Contains(b, a.base) || Contains(b, Broadcast(a))
  }

  predicate SubnetOf(a: Network, b: Network)
    requires a.prefix <= 32 && b.prefix <= 32
  {
    b.base <= a.base && Broadcast(a) <= Broadcast(b)
  }

  lemma OverlapsMeans(a: Network, b: Network)
    requires a.prefix <= 32 && b.prefix <= 32
    ensures Overlaps(a, b) <==> exists address :: Contains(a, address) && Contains(b, address)
  {
    if Overlaps(a, b) {
      var first := if a.base < b.base then b.base else a.base;
      assert Contains(a, first) && Contains(b, first);
    }
  }

  lemma SubnetOfMeans(a: Network, b: Network)
    requires a.prefix <= 32 && b.prefix <= 32
    ensures SubnetOf(a, b) <==> forall address :: Contains(a, address) ==> Contains(b, address)
  {
    assert Contains(a, a.base) && Contains(a, Broadcast(a));
  }

  lemma NestedArith(q: int, j: int, m: nat, s: nat)
    requires s > 0 && q * s < (j + 1) * s && j * s < (q + m) * s
    ensures q * s <= j * s && (j + 1) * s <= (q + m) * s
  {
    Below(q, j + 1, s);
    Below(j, q + m, s);
    Scale(q, j, s);
    Scale(j + 1, q + m, s);
  }

  lemma UnitsArith(base: int, k: int, m: nat, s: nat)
    requires base == k * (m * s)
    ensures base == (k * m) * s && base + m * s == (k * m + m) * s
  {
  }

  lemma Units(n: Network, s: nat, m: nat) returns (q: int)
    requires Valid(n) && s > 0 && Size(n.prefix) == m * s
    ensures n.base == q * s && n.base + Size(n.prefix) == (q + m) * s
  {
    var size := Size(n.prefix);
    assert size > 0 && n.base % size == 0;
    hide Pow2, Size, Valid;
    var k := n.base / size;
    Quotient(n.base, size);
    UnitsArith(n.base, k, m, s);
    q := k * m;
  }

  /** Networks with canonical boundaries are nested or share no address. */
  lemma NestedOrDisjoint(a: Network, b: Network)
    requires Valid(a) && Valid(b) && a.prefix <= b.prefix
    ensures Overlaps(a, b) <==> SubnetOf(b, a)
  {
    PowSum(b.prefix - a.prefix, 32 - b.prefix);
    var s, m := Size(b.prefix), Pow2(b.prefix - a.prefix);
    assert Size(a.prefix) == m * s;
    hide Pow2, Size;
    var q := Units(a, s, m);
    var j := Units(b, s, 1);
    if Overlaps(a, b) {
      NestedArith(q, j, m, s);
    }
  }

  // ---- Capacity ----

  /** `n` pairwise disjoint /24 subnets of `network`. */
  ghost predicate Subnets(network: Network, subnets: seq<Network>)
    requires network.prefix <= 32
  {
    && (forall i :: 0 <= i < |subnets| ==>
          Valid(subnets[i]) && subnets[i].prefix == 24 && SubnetOf(subnets[i], network))
    && (forall i, j :: 0 <= i < j < |subnets| ==> !Overlaps(subnets[i], subnets[j]))
  }

  ghost predicate Fits(network: Network, n: nat)
    requires network.prefix <= 32
  {
    exists subnets :: |subnets| == n && Subnets(network, subnets)
  }

  /** The check of `cluster_plan`. */
  predicate HasCapacity(network: Network, n: nat) {
    network.prefix <= 24 && n <= Pow2(24 - network.prefix)
  }

  lemma Slots(network: Network)
    requires Valid(network) && network.prefix <= 24
    ensures Size(network.prefix) == Pow2(24 - network.prefix) * 256 && Size(24) == 256
    ensures network.base % 256 == 0
  {
    PowOf8();
    PowSum(24 - network.prefix, 8);
    hide Pow2;
    var q := Units(network, 256, Pow2(24 - network.prefix));
    Multiple(q, 256);
  }

  /** The subnet in slot `i`. */
  function Slot(network: Network, i: int): Network {
    Network(network.base + i * 256, 24)
  }

  lemma SlotFits(network: Network, i: nat)
    requires Valid(network) && network.prefix <= 24 && i < Pow2(24 - network.prefix)
    ensures Valid(Slot(network, i)) && SubnetOf(Slot(network, i), network)
  {
    Slots(network);
    hide Pow2, Size;
  }

  lemma SlotsDisjoint(network: Network, i: nat, j: nat)
    requires i < j
    ensures !Overlaps(Slot(network, i), Slot(network, j))
  {
    PowOf8();
    hide Pow2;
  }

  lemma Construction(network: Network, n: nat)
    requires Valid(network) && HasCapacity(network, n)
    ensures Fits(network, n)
  {
    var subnets := seq(n, i requires 0 <= i < n => Slot(network, i));
    forall i | 0 <= i < n
      ensures Valid(subnets[i]) && subnets[i].prefix == 24 && SubnetOf(subnets[i], network)
    {
      SlotFits(network, i);
    }
    forall i, j | 0 <= i < j < n
      ensures !Overlaps(subnets[i], subnets[j])
    {
      SlotsDisjoint(network, i, j);
    }
    hide Valid, SubnetOf, Overlaps;
    assert Subnets(network, subnets);
  }

  lemma TooSmall(network: Network, subnet: Network)
    requires Valid(network) && Valid(subnet) && subnet.prefix == 24 && SubnetOf(subnet, network)
    ensures network.prefix <= 24
  {
    if network.prefix > 24 {
      PowSum(network.prefix - 24, 32 - network.prefix);
      assert Pow2(network.prefix - 24) >= 2;
      Scale(2, Pow2(network.prefix - 24), Size(network.prefix));
    }
  }

  /** The number of a /24 subnet within the network. */
  lemma SlotOf(network: Network, subnet: Network)
    requires Valid(network) && network.prefix <= 24
    requires Valid(subnet) && subnet.prefix == 24 && SubnetOf(subnet, network)
    ensures var index := (subnet.base - network.base) / 256;
            subnet.base == network.base + index * 256 && 0 <= index < Pow2(24 - network.prefix)
  {
    Slots(network);
    hide Pow2, Size;
    var slots := Pow2(24 - network.prefix);
    var index := (subnet.base - network.base) / 256;
    assert subnet.base % 256 == 0;
    assert subnet.base - network.base + 256 <= slots * 256;
  }

  lemma Counting(network: Network, subnets: seq<Network>)
    requires Valid(network) && |subnets| > 0 && Subnets(network, subnets)
    ensures HasCapacity(network, |subnets|)
  {
    PowOf8();
    TooSmall(network, subnets[0]);
    hide Pow2, Valid;
    var slots := Pow2(24 - network.prefix);
    var index := seq(|subnets|, i requires 0 <= i < |subnets| => (subnets[i].base - network.base) / 256);
    forall i | 0 <= i < |subnets|
      ensures subnets[i].base == network.base + index[i] * 256 && 0 <= index[i] < slots
    {
      SlotOf(network, subnets[i]);
    }
    forall i, j | 0 <= i < j < |subnets|
      ensures index[i] != index[j]
    {
      assert !Overlaps(subnets[i], subnets[j]);
    }
    AtMost(index, slots);
  }

  /** The capacity check accepts a network for some members exactly when that many disjoint /24 subnets fit. */
  lemma CapacityExact(network: Network, n: nat)
    requires Valid(network) && n > 0
    ensures HasCapacity(network, n) <==> Fits(network, n)
  {
    if HasCapacity(network, n) {
      Construction(network, n);
    }
    if subnets :| |subnets| == n && Subnets(network, subnets) {
      Counting(network, subnets);
    }
  }
}
