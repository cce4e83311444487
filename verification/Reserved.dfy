/**
 The reserved-address test (pkg/core/router.go): the CIDR table, the containment test that
 compares octets under a mask (section 3.1 of RFC 4632), and the server's differently
 normalised use of it.
 */
module Reserved {
  import opened Bytes

  /** An address as resolver and parser hand it over: 4 octets, 16 octets, or empty for none. */
  type Ip = seq<Byte>

  const MAPPED_PREFIX: Ip := [0, 0, 0, 0, 0, 0, 0, 0, 0, 0, 0xff, 0xff]

  predicate IsAddress(ip: Ip) {
    |ip| == 4 || |ip| == 16
  }

  /** What a parsed request or a successful resolver names. */
  type Address = ip: Ip | IsAddress(ip) witness [0, 0, 0, 0]

  function To4(ip: Ip): (r: Option<Ip>)
    ensures r.Some? ==> |r.value| == 4
  {
    if |ip| == 4 then Some(ip)
    else if |ip| == 16 && ip[..12] == MAPPED_PREFIX then Some(ip[12..])
    else None
  }

  function To16(ip: Ip): Ip {
    if |ip| == 4 then MAPPED_PREFIX + ip else if |ip| == 16 then ip else []
  }

  // ----- Masks

  function Pow2(n: nat): (r: nat)
    ensures r > 0
  {
    if n == 0 then 1 else 2 * Pow2(n - 1)
  }

  lemma {:induction false} Pow2Add(a: nat, b: nat)
    ensures Pow2(a + b) == Pow2(a) * Pow2(b)
  {
    if a == 0 {
    } else {
      Pow2Add(a - 1, b);
      calc {
        Pow2(a + b);
        2 * (Pow2(a - 1) * Pow2(b));
        (2 * Pow2(a - 1)) * Pow2(b);
      }
    }
  }

  lemma Pow2Values()
    ensures Pow2(4) == 16 && Pow2(8) == 256 && Pow2(16) == 0x1_0000 && Pow2(17) == 0x2_0000
    ensures Pow2(20) == 0x10_0000 && Pow2(22) == 0x40_0000 && Pow2(24) == 0x100_0000
    ensures Pow2(28) == 0x1000_0000 && Pow2(32) == 0x1_0000_0000
  {
    assert Pow2(4) == 16;
    Pow2Add(4, 4);
    Pow2Add(8, 8);
    Pow2Add(1, 16);
    Pow2Add(4, 16);
    Pow2Add(2, 20);
    Pow2Add(8, 16);
    Pow2Add(4, 24);
    Pow2Add(8, 24);
  }

  lemma SmallPowers()
    ensures Pow2(0) == 1 && Pow2(1) == 2 && Pow2(2) == 4 && Pow2(3) == 8
    ensures Pow2(4) == 16 && Pow2(5) == 32 && Pow2(6) == 64 && Pow2(7) == 128
  {
  }

  /** Bitwise conjunction of two numbers, by their binary digits. */
  function And(x: nat, y: nat): (r: nat)
    ensures r <= x
    decreases x
  {
    if x == 0 then 0 else 2 * And(x / 2, y / 2) + if x % 2 == 1 && y % 2 == 1 then 1 else 0
  }

  /** Octet `i` of the mask of a prefix of `ones` bits. */
  function MaskAt(ones: nat, i: nat): Byte {
    if ones >= 8 * (i + 1) then 255
    else if ones <= 8 * i then 0
    else
      Pow2Values();
      Pow2Add(8 - (ones - 8 * i), ones - 8 * i);
      256 - Pow2(8 - (ones - 8 * i))
  }

  lemma DivModUnique(x: nat, d: nat, q: nat, r: nat)
    requires d > 0 && r < d && x == q * d + r
    ensures x / d == q && x % d == r
  {
    var e := x / d - q;
    assert e * d == r - x % d by {
      assert x == x / d * d + x % d;
    }
    assert e > 0 ==> e * d >= d;
    assert e < 0 ==> e * d + d <= 0;
  }

  /** Clearing one more low bit is clearing it in the half. */
  lemma ClearLowBits(x: nat, p: nat)
    requires p > 0
    ensures x - x % (2 * p) == 2 * (x / 2 - x / 2 % p)
  {
    var h := x / 2;
    assert h == h / p * p + h % p;
    assert h / p * (2 * p) == 2 * (h / p * p);
    DivModUnique(x, 2 * p, h / p, 2 * (h % p) + x % 2);
  }

  lemma {:induction false} AndOnes(x: nat, n: nat)
    requires x < Pow2(n)
    ensures And(x, Pow2(n) - 1) == x
  {
    if n > 0 {
      AndOnes(x / 2, n - 1);
      var y := Pow2(n) - 1;
      assert y / 2 == Pow2(n - 1) - 1 && y % 2 == 1;
    }
  }

  lemma AndEven(x: nat, h: nat)
    ensures And(x, 2 * h) == 2 * And(x / 2, h)
  {
    assert 2 * h / 2 == h && 2 * h % 2 == 0;
  }

  /** Under the mask that clears the `j` low bits of an `n`-bit number, a number loses its remainder. */
  lemma {:induction false} AndHighBits(x: nat, n: nat, j: nat)
    requires x < Pow2(n) && j <= n && Pow2(j) <= Pow2(n)
    ensures And(x, Pow2(n) - Pow2(j)) == x - x % Pow2(j)
  {
    if j == 0 {
      AndOnes(x, n);
    } else {
      var p, w := Pow2(j - 1), Pow2(n - 1);
      assert Pow2(n) == 2 * w && Pow2(j) == 2 * p;
      AndHighBits(x / 2, n - 1, j - 1);
      AndEven(x, w - p);
      ClearLowBits(x, p);
    }
  }

  lemma AndZero(x: nat)
    ensures And(x, 0) == 0
  {
  }

  /** An octet under mask octet `i`: kept, cleared, or stripped of its low bits. */
  lemma AndMask(x: Byte, ones: nat, i: nat)
    ensures ones >= 8 * (i + 1) ==> And(x, MaskAt(ones, i)) == x
    ensures ones <= 8 * i ==> And(x, MaskAt(ones, i)) == 0
    ensures 8 * i < ones < 8 * (i + 1) ==>
              And(x, MaskAt(ones, i)) == x - x % Pow2(8 - (ones - 8 * i))
  {
    Pow2Values();
    if ones >= 8 * (i + 1) {
      AndHighBits(x, 8, 0);
    } else if ones <= 8 * i {
      AndZero(x);
    } else {
      AndHighBits(x, 8, 8 - (ones - 8 * i));
    }
  }

  // ----- Blocks

  datatype Block = Block(net: Ip, ones: nat)

  /** The network address of a block as the CIDR parser returns it: already masked. */
  predicate Masked(net: Ip, ones: nat) {
    forall i | 0 <= i < |net| :: And(net[i], MaskAt(ones, i)) == net[i]
  }

  /** The form of an address that is compared with a block. */
  function Short(ip: Ip): Ip {
    match To4(ip)
    case Some(v4) => v4
    case None => ip
  }

  /** Whether octet `i` of an address passes the masked comparison. */
  predicate OctetAgrees(net: Ip, x: Ip, ones: nat, i: nat)
    requires i < |net| == |x|
  {
    And(net[i], MaskAt(ones, i)) == And(x[i], MaskAt(ones, i))
  }

  predicate SameUnderMask(net: Ip, x: Ip, ones: nat)
    requires |net| == |x|
  {
    forall i | 0 <= i < |x| :: OctetAgrees(net, x, ones, i)
  }

  predicate Contains(b: Block, ip: Ip) {
    |Short(ip)| == |b.net| && SameUnderMask(b.net, Short(ip), b.ones)
  }

  // ----- Containment as an interval of 32-bit numbers

  /** The four octets as a number. */
  function Quad(a: Byte, b: Byte, c: Byte, d: Byte): nat {
    a as int * 0x100_0000 + b as int * 0x1_0000 + c as int * 0x100 + d as int
  }

  /** The number an IPv4 address denotes, in network octet order. */
  function Value(x: Ip): nat
    requires |x| == 4
  {
    Quad(x[0], x[1], x[2], x[3])
  }

  /** An octet keeps the high bits of `lo` exactly when it lies in the run of octets that share them. */
  lemma HighBitsInterval(lo: nat, x: nat, p: nat)
    requires p > 0 && lo % p == 0
    ensures lo == x - x % p <==> lo <= x < lo + p
  {
    if lo <= x < lo + p {
      assert lo == lo / p * p;
      DivModUnique(x, p, lo / p, x - lo);
    }
  }

  /** What one octet under its mask octet says, as an interval. */
  lemma OctetInterval(net: Byte, x: Byte, ones: nat, i: nat)
    requires And(net, MaskAt(ones, i)) == net
    ensures ones >= 8 * (i + 1) ==> (net == And(x, MaskAt(ones, i)) <==> net == x)
    ensures ones <= 8 * i ==> net == 0 && And(x, MaskAt(ones, i)) == 0
    ensures 8 * i < ones < 8 * (i + 1) ==>
              var p := Pow2(8 - (ones - 8 * i));
              net == And(x, MaskAt(ones, i)) <==> net <= x < net + p
  {
    AndMask(net, ones, i);
    AndMask(x, ones, i);
    if 8 * i < ones < 8 * (i + 1) {
      HighBitsInterval(net, x, Pow2(8 - (ones - 8 * i)));
    }
  }

  /** The size of a block, octet position by octet position. */
  lemma BlockSize(ones: nat)
    requires ones <= 32
    ensures ones < 8 ==> Pow2(32 - ones) == Pow2(8 - ones) * 0x100_0000
    ensures 8 <= ones < 16 ==> Pow2(32 - ones) == Pow2(16 - ones) * 0x1_0000
    ensures 16 <= ones < 24 ==> Pow2(32 - ones) == Pow2(24 - ones) * 0x100
  {
    Pow2Values();
    if ones < 8 {
      Pow2Add(8 - ones, 24);
    } else if ones < 16 {
      Pow2Add(16 - ones, 16);
    } else if ones < 24 {
      Pow2Add(24 - ones, 8);
    }
  }

  lemma MultipleBelow(n: Byte, j: nat)
    requires 1 <= j <= 7 && n as nat % Pow2(j) == 0
    ensures n + Pow2(j) <= 256
  {
    SmallPowers();
    if j == 1 {
    } else if j == 2 {
    } else if j == 3 {
    } else if j == 4 {
    } else if j == 5 {
    } else if j == 6 {
    } else {
    }
  }

  /** The run of octets that share the high bits of `net` ends before 256. */
  lemma WholeRun(net: Byte, ones: nat, i: nat)
    requires And(net, MaskAt(ones, i)) == net && 8 * i < ones < 8 * (i + 1)
    ensures net + Pow2(8 - (ones - 8 * i)) <= 256
  {
    AndMask(net, ones, i);
    MultipleBelow(net, 8 - (ones - 8 * i));
  }

  /** Agreement of the leading digits and an interval for the next one are one interval, as no run crosses 256. */
  lemma Carry(hn: nat, hx: nat, lo: Byte, x: Byte, p: nat)
    requires lo + p <= 256
    ensures hn == hx && lo <= x < lo + p <==> hn * 256 + lo <= hx * 256 + x < hn * 256 + lo + p
  {
  }

  /** What the octet at position `i` of a comparison says, when the prefix ends in octet `q`. */
  predicate OctetSays(net: Ip, x: Ip, ones: nat, i: nat, q: nat, p: nat)
    requires i < |net| == |x|
  {
    && (i < q ==> (OctetAgrees(net, x, ones, i) <==> net[i] == x[i]))
    && (i == q ==> net[i] + p <= 256 && (OctetAgrees(net, x, ones, i) <==> net[i] <= x[i] < net[i] + p))
    && (i > q ==> net[i] == 0 && OctetAgrees(net, x, ones, i))
  }

  /** The octet in which a prefix ends, and the run of octets it leaves there. */
  function LastOctet(ones: nat): nat {
    if ones == 32 then 3 else ones / 8
  }

  function Run(ones: nat): nat {
    if ones == 32 then 1 else Pow2(8 - ones % 8)
  }

  /** In the octet where the prefix ends the run does not cross 256. */
  lemma RunFits(net: Ip, ones: nat)
    requires |net| == 4 && ones <= 32 && Masked(net, ones)
    ensures net[LastOctet(ones)] + Run(ones) <= 256
  {
    var q := LastOctet(ones);
    assert And(net[q], MaskAt(ones, q)) == net[q];
    if ones % 8 == 0 {
      Pow2Values();
      OctetInterval(net[q], net[q], ones, q);
    } else {
      WholeRun(net[q], ones, q);
    }
  }

  lemma OctetBefore(net: Ip, x: Ip, ones: nat, i: nat)
    requires |net| == |x| == 4 && Masked(net, ones) && i < 4 && 8 * (i + 1) <= ones
    ensures OctetAgrees(net, x, ones, i) <==> net[i] == x[i]
  {
    AndMask(x[i], ones, i);
    assert And(net[i], MaskAt(ones, i)) == net[i];
  }

  lemma OctetAfter(net: Ip, x: Ip, ones: nat, i: nat)
    requires |net| == |x| == 4 && Masked(net, ones) && i < 4 && ones <= 8 * i
    ensures net[i] == 0 && OctetAgrees(net, x, ones, i)
  {
    AndMask(net[i], ones, i);
    AndMask(x[i], ones, i);
    assert And(net[i], MaskAt(ones, i)) == net[i];
  }

  lemma OctetInside(net: Ip, x: Ip, ones: nat, i: nat)
    requires |net| == |x| == 4 && Masked(net, ones) && i < 4 && 8 * i < ones < 8 * (i + 1)
    ensures OctetAgrees(net, x, ones, i) <==> net[i] <= x[i] < net[i] + Pow2(8 - (ones - 8 * i))
  {
    assert And(net[i], MaskAt(ones, i)) == net[i];
    OctetInterval(net[i], x[i], ones, i);
  }

  lemma OctetAtEnd(net: Ip, x: Ip, ones: nat)
    requires |net| == |x| == 4 && ones <= 32 && Masked(net, ones)
    ensures var i := LastOctet(ones);
            OctetAgrees(net, x, ones, i) <==> net[i] <= x[i] < net[i] + Run(ones)
  {
    var i := LastOctet(ones);
    if ones == 32 {
      OctetBefore(net, x, ones, i);
    } else if ones % 8 == 0 {
      OctetAfter(net, x, ones, i);
      Pow2Values();
    } else {
      OctetInside(net, x, ones, i);
    }
  }

  lemma OctetSpeaks(net: Ip, x: Ip, ones: nat, i: nat)
    requires |net| == |x| == 4 && ones <= 32 && Masked(net, ones) && i < 4
    ensures OctetSays(net, x, ones, i, LastOctet(ones), Run(ones))
  {
    if i < LastOctet(ones) {
      OctetBefore(net, x, ones, i);
    } else if i > LastOctet(ones) {
      OctetAfter(net, x, ones, i);
    } else {
      RunFits(net, ones);
      OctetAtEnd(net, x, ones);
    }
  }

  /** The octets up to the one where the prefix ends, read as a number, lie in a run. */
  predicate PrefixInRun(net: Ip, x: Ip, q: nat, p: nat)
    requires |net| == |x| == 4
  {
    match q
    case 0 => net[0] <= x[0] < net[0] + p
    case 1 => net[0] == x[0] && net[1] <= x[1] < net[1] + p
    case 2 => net[0] == x[0] && net[1] == x[1] && net[2] <= x[2] < net[2] + p
    case _ => net[0] == x[0] && net[1] == x[1] && net[2] == x[2] && net[3] <= x[3] < net[3] + p
  }

  lemma MaskIsPrefix(net: Ip, x: Ip, ones: nat)
    requires |net| == |x| == 4 && ones <= 32 && Masked(net, ones)
    ensures SameUnderMask(net, x, ones) <==> PrefixInRun(net, x, LastOctet(ones), Run(ones))
  {
    var q, p := LastOctet(ones), Run(ones);
    OctetSpeaks(net, x, ones, 0);
    OctetSpeaks(net, x, ones, 1);
    OctetSpeaks(net, x, ones, 2);
    OctetSpeaks(net, x, ones, 3);
    OctetsTogether(net, x, ones, q, p);
  }

  lemma OctetsTogether(net: Ip, x: Ip, ones: nat, q: nat, p: nat)
    requires |net| == |x| == 4 && q < 4
    requires OctetSays(net, x, ones, 0, q, p) && OctetSays(net, x, ones, 1, q, p)
    requires OctetSays(net, x, ones, 2, q, p) && OctetSays(net, x, ones, 3, q, p)
    ensures SameUnderMask(net, x, ones) <==> PrefixInRun(net, x, q, p)
  {
    assert SameUnderMask(net, x, ones) <==>
           OctetAgrees(net, x, ones, 0) && OctetAgrees(net, x, ones, 1)
           && OctetAgrees(net, x, ones, 2) && OctetAgrees(net, x, ones, 3);
  }

  /** What one unit of octet `q` is worth. */
  function Weight(q: nat): nat {
    if q == 0 then 0x100_0000 else if q == 1 then 0x1_0000 else if q == 2 then 0x100 else 1
  }

  lemma PrefixIsInterval(net: Ip, x: Ip, q: nat, p: nat)
    requires |net| == |x| == 4 && q < 4 && net[q] + p <= 256 && forall i | q < i < 4 :: net[i] == 0
    ensures PrefixInRun(net, x, q, p) <==> Value(net) <= Value(x) < Value(net) + p * Weight(q)
  {
    var n1, x1 := net[0] as int * 256 + net[1] as int, x[0] as int * 256 + x[1] as int;
    if q == 0 {
      assert p * Weight(q) == p * 0x100_0000;
    } else if q == 1 {
      Carry(net[0], x[0], net[1], x[1], p);
      assert p * Weight(q) == p * 0x1_0000;
    } else if q == 2 {
      Carry(n1, x1, net[2], x[2], p);
      assert p * Weight(q) == p * 0x100;
    } else {
      Carry(n1 * 256 + net[2] as int, x1 * 256 + x[2] as int, net[3], x[3], p);
    }
  }

  /** A block is as large as its run in the octet where the prefix ends. */
  lemma RunSize(ones: nat)
    requires ones <= 32
    ensures Pow2(32 - ones) == Run(ones) * Weight(LastOctet(ones))
  {
    BlockSize(ones);
    if ones == 32 {
      assert Pow2(0) == 1;
    }
  }

  lemma ZerosAfter(net: Ip, ones: nat)
    requires |net| == 4 && ones <= 32 && Masked(net, ones)
    ensures forall i | LastOctet(ones) < i < 4 :: net[i] == 0
  {
    forall i | LastOctet(ones) < i < 4 ensures net[i] == 0 {
      AndMask(net[i], ones, i);
    }
  }

  /** Comparing four octets under a prefix mask is membership in one interval of `2^(32 - ones)` numbers. */
  lemma MaskIsInterval(net: Ip, x: Ip, ones: nat)
    requires |net| == |x| == 4 && ones <= 32 && Masked(net, ones)
    ensures SameUnderMask(net, x, ones) <==> Value(net) <= Value(x) < Value(net) + Pow2(32 - ones)
  {
    MaskIsPrefix(net, x, ones);
    OctetSpeaks(net, x, ones, LastOctet(ones));
    ZerosAfter(net, ones);
    PrefixIsInterval(net, x, LastOctet(ones), Run(ones));
    RunSize(ones);
  }

  // ----- The table

  function Ipv6(a: Uint16, b: Uint16, c: Uint16, d: Uint16, e: Uint16, f: Uint16, g: Uint16, h: Uint16): (r: Ip)
    ensures |r| == 16
  {
    BigEndian(a) + BigEndian(b) + BigEndian(c) + BigEndian(d)
    + BigEndian(e) + BigEndian(f) + BigEndian(g) + BigEndian(h)
  }

  /** The IPv4 entries of the table, in its order. */
  function V4Block(i: nat): (b: Block)
    ensures |b.net| == 4 && b.ones <= 32
  {
    match i
    case 0 => Block([0, 0, 0, 0], 8)
    case 1 => Block([10, 0, 0, 0], 8)
    case 2 => Block([100, 64, 0, 0], 10)
    case 3 => Block([127, 0, 0, 0], 8)
    case 4 => Block([169, 254, 0, 0], 16)
    case 5 => Block([172, 16, 0, 0], 12)
    case 6 => Block([192, 0, 0, 0], 24)
    case 7 => Block([192, 0, 2, 0], 24)
    case 8 => Block([192, 88, 99, 0], 24)
    case 9 => Block([192, 168, 0, 0], 16)
    case 10 => Block([198, 18, 0, 0], 15)
    case 11 => Block([198, 51, 100, 0], 24)
    case 12 => Block([203, 0, 113, 0], 24)
    case 13 => Block([224, 0, 0, 0], 4)
    case 14 => Block([240, 0, 0, 0], 4)
    case _ => Block([255, 255, 255, 255], 32)
  }

  /** The IPv6 entries of the table, in its order. */
  function V6Block(i: nat): (b: Block)
    ensures |b.net| == 16 && b.ones <= 128
  {
    match i
    case 0 => Block(Ipv6(0, 0, 0, 0, 0, 0, 0, 0), 0)
    case 1 => Block(Ipv6(0, 0, 0, 0, 0, 0, 0, 0), 128)
    case 2 => Block(Ipv6(0, 0, 0, 0, 0, 0, 0, 1), 128)
    case 3 => Block(Ipv6(0, 0, 0, 0, 0xffff, 0, 0, 0), 96)
    case 4 => Block(Ipv6(0x64, 0xff9b, 0, 0, 0, 0, 0, 0), 96)
    case 5 => Block(Ipv6(0x100, 0, 0, 0, 0, 0, 0, 0), 64)
    case 6 => Block(Ipv6(0x2001, 0, 0, 0, 0, 0, 0, 0), 32)
    case 7 => Block(Ipv6(0x2001, 0x20, 0, 0, 0, 0, 0, 0), 28)
    case 8 => Block(Ipv6(0x2001, 0xdb8, 0, 0, 0, 0, 0, 0), 32)
    case 9 => Block(Ipv6(0x2002, 0, 0, 0, 0, 0, 0, 0), 16)
    case 10 => Block(Ipv6(0xfc00, 0, 0, 0, 0, 0, 0, 0), 7)
    case 11 => Block(Ipv6(0xfe80, 0, 0, 0, 0, 0, 0, 0), 10)
    case _ => Block(Ipv6(0xff00, 0, 0, 0, 0, 0, 0, 0), 8)
  }

  function TableBlock(i: nat): Block {
    if i < 16 then V4Block(i) else V6Block(i - 16)
  }

  function Table(): (t: seq<Block>)
    ensures |t| == 29
    ensures forall i | 0 <= i < 29 :: t[i] == TableBlock(i)
  {
    seq(29, (i: nat) => TableBlock(i))
  }

  predicate InTable(table: seq<Block>, ip: Ip) {
    exists i | 0 <= i < |table| :: Contains(table[i], ip)
  }

  /** The library's own classes: multicast, link-local, loopback and unspecified addresses. */
  predicate SpecialClass(ip: Ip) {
    match To4(ip)
    case Some(v4) =>
      || v4 == [0, 0, 0, 0]
      || v4[0] == 127
      || And(v4[0], 0xf0) == 0xe0
      || (v4[0] == 169 && v4[1] == 254)
    case None =>
      && |ip| == 16
      && (|| ip == Ipv6(0, 0, 0, 0, 0, 0, 0, 0)
          || ip == Ipv6(0, 0, 0, 0, 0, 0, 0, 1)
          || ip[0] == 0xff
          || (ip[0] == 0xfe && And(ip[1], 0xc0) == 0x80))
  }

  predicate ReservedBy(table: seq<Block>, ip: Ip) {
    SpecialClass(ip) || InTable(table, ip)
  }

  predicate IsReserved(ip: Ip) {
    ReservedBy(Table(), ip)
  }

  /** The test walks whatever table the package initialiser has filled in. */
  method IsReservedIP(reservedIP: seq<Block>, ip: Ip) returns (r: bool)
    ensures r == ReservedBy(reservedIP, ip)
  {
    if SpecialClass(ip) {
      return true;
    }
    for i := 0 to |reservedIP|
      invariant forall j | 0 <= j < i :: !Contains(reservedIP[j], ip)
    {
      if Contains(reservedIP[i], ip) {
        return true;
      }
    }
    return false;
  }

  /** The form of the address decides nothing: 4 octets and the mapped 16 octets answer alike. */
  lemma MappedFormAgrees(table: seq<Block>, ip: Ip)
    requires |ip| == 4
    ensures To4(To16(ip)) == Some(ip)
    ensures ReservedBy(table, To16(ip)) == ReservedBy(table, ip)
  {
    assert To16(ip)[..12] == MAPPED_PREFIX && To16(ip)[12..] == ip;
    assert Short(To16(ip)) == Short(ip) == ip;
    forall i | 0 <= i < |table| ensures Contains(table[i], To16(ip)) == Contains(table[i], ip) {
    }
  }

  lemma ZeroPrefixContainsAll(b: Block, ip: Ip)
    requires b.ones == 0 && |b.net| == |Short(ip)|
    ensures Contains(b, ip)
  {
    forall i | 0 <= i < |b.net| ensures OctetAgrees(b.net, Short(ip), 0, i) {
      AndZero(Short(ip)[i]);
      AndZero(b.net[i]);
    }
  }

  /** `::/0` makes every 16-octet address that is not a mapped IPv4 address reserved. */
  lemma NonMappedIsReserved(ip: Ip)
    requires |ip| == 16 && To4(ip) == None
    ensures IsReserved(ip)
  {
    ZeroPrefixContainsAll(Table()[16], ip);
    assert InTable(Table(), ip);
  }

  /** The closed interval of 32-bit numbers that a block stands for. */
  predicate InInterval(b: Block, v: nat)
    requires |b.net| == 4 && b.ones <= 32
  {
    Value(b.net) <= v <= Value(b.net) + Pow2(32 - b.ones) - 1
  }

  lemma OctetIsMasked(x: Byte, ones: nat, k: nat)
    requires ones <= 8 * k ==> x == 0
    requires 8 * k < ones < 8 * (k + 1) ==> x as nat % Pow2(8 - (ones - 8 * k)) == 0
    ensures And(x, MaskAt(ones, k)) == x
  {
    AndMask(x, ones, k);
  }

  /** A prefix that ends between octets. */
  lemma AlignedMasked(net: Ip, q: nat)
    requires |net| == 4 && forall k | q <= k < 4 :: net[k] == 0
    ensures Masked(net, 8 * q)
  {
    forall k | 0 <= k < 4 ensures And(net[k], MaskAt(8 * q, k)) == net[k] {
      OctetIsMasked(net[k], 8 * q, k);
    }
  }

  /** A prefix that ends inside octet `q`. */
  lemma InsideMasked(net: Ip, q: nat, j: nat)
    requires |net| == 4 && q < 4 && 0 < j < 8
    requires net[q] as nat % Pow2(8 - j) == 0 && forall k | q < k < 4 :: net[k] == 0
    ensures Masked(net, 8 * q + j)
  {
    forall k | 0 <= k < 4 ensures And(net[k], MaskAt(8 * q + j, k)) == net[k] {
      OctetIsMasked(net[k], 8 * q + j, k);
    }
  }

  lemma V4BlocksMasked(i: nat)
    requires i < 16
    ensures Masked(V4Block(i).net, V4Block(i).ones)
  {
    var net := V4Block(i).net;
    SmallPowers();
    match i
    case 2 => InsideMasked(net, 1, 2);
    case 5 => InsideMasked(net, 1, 4);
    case 10 => InsideMasked(net, 1, 7);
    case 13 => InsideMasked(net, 0, 4);
    case 14 => InsideMasked(net, 0, 4);
    case _ => AlignedMasked(net, V4Block(i).ones / 8);
  }

  /** For IPv4, in either form, the whole masked table is a union of sixteen closed intervals. */
  lemma TableIsIntervals(ip: Ip)
    requires To4(ip).Some?
    ensures InTable(Table(), ip) <==>
              exists i | 0 <= i < 16 :: InInterval(V4Block(i), Value(To4(ip).value))
  {
    var v4 := To4(ip).value;
    forall i | 0 <= i < |Table()|
      ensures i < 16 ==> (Contains(Table()[i], ip) <==> InInterval(V4Block(i), Value(v4)))
      ensures i >= 16 ==> !Contains(Table()[i], ip)
    {
      if i < 16 {
        V4BlocksMasked(i);
        MaskIsInterval(Table()[i].net, v4, Table()[i].ones);
      }
    }
  }

  /** The reserved IPv4 ranges, written in dotted notation. */
  predicate ReservedOctets(v4: Ip)
    requires |v4| == 4
  {
    var a, b, c := v4[0], v4[1], v4[2];
    || a == 0 || a == 10 || a == 127 || 224 <= a
    || (a == 100 && 64 <= b <= 127)
    || (a == 169 && b == 254)
    || (a == 172 && 16 <= b <= 31)
    || (a == 192 && (b == 168 || (b == 0 && (c == 0 || c == 2)) || (b == 88 && c == 99)))
    || (a == 198 && (b == 18 || b == 19 || (b == 51 && c == 100)))
    || (a == 203 && b == 0 && c == 113)
  }

  /** The octets that one block of the table stands for. */
  predicate BlockOctets(i: nat, v4: Ip)
    requires |v4| == 4
  {
    var a, b, c := v4[0], v4[1], v4[2];
    match i
    case 0 => a == 0
    case 1 => a == 10
    case 2 => a == 100 && 64 <= b <= 127
    case 3 => a == 127
    case 4 => a == 169 && b == 254
    case 5 => a == 172 && 16 <= b <= 31
    case 6 => a == 192 && b == 0 && c == 0
    case 7 => a == 192 && b == 0 && c == 2
    case 8 => a == 192 && b == 88 && c == 99
    case 9 => a == 192 && b == 168
    case 10 => a == 198 && 18 <= b <= 19
    case 11 => a == 198 && b == 51 && c == 100
    case 12 => a == 203 && b == 0 && c == 113
    case 13 => 224 <= a < 240
    case 14 => 240 <= a
    case _ => a == 255 && b == 255 && c == 255 && v4[3] == 255
  }

  /** The interval of a block of the table is its run in the octet where the prefix ends. */
  lemma IntervalIsRun(i: nat, v4: Ip)
    requires i < 16 && |v4| == 4
    ensures var b := V4Block(i);
            InInterval(b, Value(v4)) <==> PrefixInRun(b.net, v4, LastOctet(b.ones), Run(b.ones))
  {
    var b := V4Block(i);
    V4BlocksMasked(i);
    MaskIsPrefix(b.net, v4, b.ones);
    MaskIsInterval(b.net, v4, b.ones);
  }

  lemma IntervalIsOctets(i: nat, v4: Ip)
    requires i < 16 && |v4| == 4
    ensures InInterval(V4Block(i), Value(v4)) <==> BlockOctets(i, v4)
  {
    IntervalIsRun(i, v4);
    RunValues();
    RunIsOctets(i, v4);
  }

  lemma RunValues()
    ensures Run(4) == 16 && Run(8) == 256 && Run(10) == 64 && Run(12) == 16
    ensures Run(15) == 2 && Run(16) == 256 && Run(24) == 256 && Run(32) == 1
  {
    SmallPowers();
    Pow2Values();
  }

  lemma RunIsOctets(i: nat, v4: Ip)
    requires i < 16 && |v4| == 4
    ensures PrefixInRun(V4Block(i).net, v4, LastOctet(V4Block(i).ones), Run(V4Block(i).ones)) <==> BlockOctets(i, v4)
  {
    RunValues();
  }

  lemma OctetsByBlock(v4: Ip)
    requires |v4| == 4
    ensures ReservedOctets(v4) <==> exists i | 0 <= i < 16 :: BlockOctets(i, v4)
  {
    if ReservedOctets(v4) {
      assert BlockOctets(0, v4) || BlockOctets(1, v4) || BlockOctets(2, v4) || BlockOctets(3, v4)
          || BlockOctets(4, v4) || BlockOctets(5, v4) || BlockOctets(6, v4) || BlockOctets(7, v4)
          || BlockOctets(8, v4) || BlockOctets(9, v4) || BlockOctets(10, v4) || BlockOctets(11, v4)
          || BlockOctets(12, v4) || BlockOctets(13, v4) || BlockOctets(14, v4);
    }
  }

  lemma MulticastOctet(a: Byte)
    ensures And(a, 0xf0) == 0xe0 <==> 224 <= a < 240
  {
    SmallPowers();
    OctetIsMasked(224, 4, 0);
    assert MaskAt(4, 0) == 0xf0;
    OctetInterval(224, a, 4, 0);
  }

  /**
   The whole test, decided: an IPv4 address in either form is reserved exactly when its octets are in the
   dotted ranges, and every other 16-octet address is reserved.
   */
  lemma ReservedIff(ip: Ip)
    requires IsAddress(ip)
    ensures IsReserved(ip) <==> To4(ip) == None || ReservedOctets(To4(ip).value)
  {
    if To4(ip) == None {
      NonMappedIsReserved(ip);
    } else {
      var v4 := To4(ip).value;
      TableIsIntervals(ip);
      OctetsByBlock(v4);
      MulticastOctet(v4[0]);
      forall i | 0 <= i < 16
        ensures InInterval(V4Block(i), Value(v4)) <==> BlockOctets(i, v4)
      {
        IntervalIsOctets(i, v4);
      }
    }
  }

  // ----- The server's use of the test

  /** The address the server tests: a mapped 16-octet form for IPv4, no address at all for anything else. */
  function ServerForm(ip: Ip): Ip {
    match To4(ip)
    case None => []
    case Some(_) => To16(ip)
  }

  predicate ServerRefuses(ip: Ip) {
    IsReserved(ServerForm(ip))
  }

  lemma NoAddressIsNotReserved()
    ensures !IsReserved([])
  {
    assert forall i | 0 <= i < |Table()| :: |Table()[i].net| > 0;
  }

  /**
   The server refuses exactly the reserved IPv4 destinations. The client sends nothing that is reserved to the
   server, so no destination that the client proxies is refused; but a 16-octet destination that is not
   mapped IPv4, always reserved on the client, is never refused by the server.
   */
  lemma ServerRefusesIff(ip: Ip)
    requires IsAddress(ip)
    ensures ServerRefuses(ip) <==> To4(ip).Some? && ReservedOctets(To4(ip).value)
    ensures ServerRefuses(ip) ==> IsReserved(ip)
    ensures !ServerRefuses(ip) && IsReserved(ip) <==> To4(ip) == None
  {
    ReservedIff(ip);
    NoAddressIsNotReserved();
    if To4(ip).Some? {
      if |ip| == 4 {
        MappedFormAgrees(Table(), ip);
      }
      ReservedIff(To16(ip));
    }
  }
}
