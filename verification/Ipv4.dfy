/** The IPv4 half of packages/cli/src/network-host-policy.ts. */
module Ipv4 {
  import opened Text
  import opened Bits

  // ---------- Text ----------

  /** One number of a dotted quad as `isIP` accepts it: 0 to 255, without a leading zero. */
  predicate IsOctet(p: string) {
    IsDecimal(p) && ReadDecimal(p) < 256 && (|p| == 1 || p[0] != '0')
  }

  /** Node's `isIP(value) === 4`. */
  predicate IsIp4(value: string) {
    var pieces := Split(value, '.');
    |pieces| == 4 && forall i :: 0 <= i < 4 ==> IsOctet(pieces[i])
  }

  type Octet = n: nat | n < 256

  function Dotted(a: Octet, b: Octet, c: Octet, d: Octet): string {
    Join([Decimal(a), Decimal(b), Decimal(c), Decimal(d)], '.')
  }

  lemma {:induction false} ReadDecimalIsPositive(p: string)
    requires IsDecimal(p) && p[0] != '0'
    ensures ReadDecimal(p) > 0
  {
    if |p| > 1 {
      ReadDecimalIsPositive(p[..|p| - 1]);
    } else {
      assert p[..0] == "" && p == [p[0]];
    }
  }

  /** A decimal without a leading zero is the one `Decimal` prints. */
  lemma {:induction false} CanonicalDecimal(p: string)
    requires IsDecimal(p) && (|p| == 1 || p[0] != '0')
    ensures Decimal(ReadDecimal(p)) == p
  {
    var init := p[..|p| - 1];
    if |p| == 1 {
      assert init == "" && p == [p[0]];
    } else {
      ReadDecimalIsPositive(init);
      CanonicalDecimal(init);
      assert p == init + [p[|p| - 1]];
    }
  }

  lemma DecimalOctet(n: Octet)
    ensures IsOctet(Decimal(n)) && ReadDecimal(Decimal(n)) == n && Lacks(Decimal(n), '.')
  {
    DecimalRoundTrip(n);
  }

  lemma DottedSplits(a: Octet, b: Octet, c: Octet, d: Octet)
    ensures Split(Dotted(a, b, c, d), '.') == [Decimal(a), Decimal(b), Decimal(c), Decimal(d)]
    ensures IsIp4(Dotted(a, b, c, d))
  {
    DecimalOctet(a);
    DecimalOctet(b);
    DecimalOctet(c);
    DecimalOctet(d);
    hide IsOctet, Decimal;
    SplitJoin([Decimal(a), Decimal(b), Decimal(c), Decimal(d)], '.');
  }

  function Octets(value: string): (r: seq<Octet>)
    requires IsIp4(value)
    ensures |r| == 4
  {
    var pieces := Split(value, '.');
    [ReadDecimal(pieces[0]), ReadDecimal(pieces[1]), ReadDecimal(pieces[2]), ReadDecimal(pieces[3])]
  }

  /** The only IPv4 texts are the dotted quads. */
  lemma Ip4IsDotted(value: string)
    requires IsIp4(value)
    ensures var o := Octets(value); value == Dotted(o[0], o[1], o[2], o[3])
  {
    var pieces := Split(value, '.');
    CanonicalDecimal(pieces[0]);
    CanonicalDecimal(pieces[1]);
    CanonicalDecimal(pieces[2]);
    CanonicalDecimal(pieces[3]);
    hide IsOctet, Decimal, ReadDecimal;
    JoinSplit(value, '.');
    assert pieces == [pieces[0], pieces[1], pieces[2], pieces[3]];
  }

  lemma OctetsOfDotted(a: Octet, b: Octet, c: Octet, d: Octet)
    ensures IsIp4(Dotted(a, b, c, d)) && Octets(Dotted(a, b, c, d)) == [a, b, c, d]
  {
    DottedSplits(a, b, c, d);
    DecimalOctet(a);
    DecimalOctet(b);
    DecimalOctet(c);
    DecimalOctet(d);
  }

  // ---------- Numbers ----------

  /** `((result << 8) | octet) >>> 0` over the octets that are left. */
  function FoldOctets(result: nat, octets: seq<Octet>): nat
    decreases octets
  {
    if octets == [] then result else FoldOctets(Or(ShiftLeft(result, 8), octets[0]), octets[1..])
  }

  function Ipv4Integer(value: string): nat
    requires IsIp4(value)
  {
    FoldOctets(0, Octets(value))
  }

  function Quad(a: Octet, b: Octet, c: Octet, d: Octet): (n: nat)
    ensures n < WORD
  {
    ((a * 256 + b) * 256 + c) * 256 + d
  }

  lemma AppendOctet(result: nat, octet: Octet)
    requires result < 0x100_0000
    ensures Or(ShiftLeft(result, 8), octet) == result * 256 + octet
  {
    Pow2Values();
    hide Pow2, ShiftLeft, Or;
    ShiftLeftMultiplies(result, 8);
    OrDisjoint(result, octet, 8);
  }

  /** The folded shifts and ors are the address as a number: nothing wraps, no bits collide. */
  lemma Ipv4IntegerIsQuad(a: Octet, b: Octet, c: Octet, d: Octet)
    ensures IsIp4(Dotted(a, b, c, d)) && Ipv4Integer(Dotted(a, b, c, d)) == Quad(a, b, c, d)
  {
    OctetsOfDotted(a, b, c, d);
    hide Or, ShiftLeft, IsIp4, Octets;
    AppendOctet(0, a);
    AppendOctet(a, b);
    AppendOctet(a * 256 + b, c);
    AppendOctet((a * 256 + b) * 256 + c, d);
    var r1, r2, r3 := a, a * 256 + b, (a * 256 + b) * 256 + c;
    assert [a, b, c, d][1..] == [b, c, d] && [b, c, d][1..] == [c, d] && [c, d][1..] == [d] && [d][1..] == [];
    assert FoldOctets(0, [a, b, c, d]) == FoldOctets(r1, [b, c, d]);
    assert FoldOctets(r1, [b, c, d]) == FoldOctets(r2, [c, d]);
    assert FoldOctets(r2, [c, d]) == FoldOctets(r3, [d]);
    assert FoldOctets(r3, [d]) == FoldOctets(r3 * 256 + d, []);
  }

  lemma Ipv4IntegerFits(value: string)
    requires IsIp4(value)
    ensures var o := Octets(value); Ipv4Integer(value) == Quad(o[0], o[1], o[2], o[3])
  {
    Ip4IsDotted(value);
    var o := Octets(value);
    Ipv4IntegerIsQuad(o[0], o[1], o[2], o[3]);
  }

  // ---------- CIDR blocks ----------

  type Word = n: nat | n < WORD

  type PrefixLength = n: nat | n <= 32

  function Mask(prefix: PrefixLength): Word {
    if prefix == 0 then 0 else ShiftLeft(WORD - 1, 32 - prefix)
  }

  predicate InCidr(address: Word, network: Word, prefix: PrefixLength) {
    And(address, Mask(prefix)) == And(network, Mask(prefix))
  }

  /** The shifted mask has its highest `prefix` bits set. */
  lemma MaskIsHigh(prefix: PrefixLength)
    ensures Pow2(32 - prefix) <= WORD && Mask(prefix) == WORD - Pow2(32 - prefix)
  {
    Pow2Values();
    if prefix > 0 {
      ShiftedOnes(32 - prefix);
    }
  }

  /** Membership by mask is membership by prefix: the same quotient by the size of the block. */
  lemma CidrIsPrefix(address: Word, network: Word, prefix: PrefixLength)
    ensures InCidr(address, network, prefix) <==> address / Pow2(32 - prefix) == network / Pow2(32 - prefix)
  {
    var k := 32 - prefix;
    Pow2Values();
    MaskIsHigh(prefix);
    AndHighMask(address, 32, k);
    AndHighMask(network, 32, k);
    ShiftRightDivides(address, k);
    ShiftRightDivides(network, k);
    hide And, ShiftRight, Pow2;
    if InCidr(address, network, prefix) {
      QuotientIsUnique(Pow2(k), address / Pow2(k), 0, network / Pow2(k), 0);
    }
  }

  // ---------- The blocked blocks ----------

  datatype Cidr = Cidr(network: Word, prefix: PrefixLength)

  function Network(a: Octet, b: Octet, c: Octet, d: Octet): (n: Word)
    ensures n == Quad(a, b, c, d)
  {
    Ipv4IntegerIsQuad(a, b, c, d);
    Ipv4Integer(Dotted(a, b, c, d))
  }

  function BlockedCidrs(): seq<Cidr> {
    [Cidr(Network(0, 0, 0, 0), 8),
     Cidr(Network(10, 0, 0, 0), 8),
     Cidr(Network(100, 64, 0, 0), 10),
     Cidr(Network(127, 0, 0, 0), 8),
     Cidr(Network(169, 254, 0, 0), 16),
     Cidr(Network(172, 16, 0, 0), 12),
     Cidr(Network(192, 0, 0, 0), 24),
     Cidr(Network(192, 0, 2, 0), 24),
     Cidr(Network(192, 88, 99, 0), 24),
     Cidr(Network(192, 168, 0, 0), 16),
     Cidr(Network(198, 18, 0, 0), 15),
     Cidr(Network(198, 51, 100, 0), 24),
     Cidr(Network(203, 0, 113, 0), 24),
     Cidr(Network(224, 0, 0, 0), 4),
     Cidr(Network(240, 0, 0, 0), 4)]
  }

  predicate SomeCidr(address: Word, cidrs: seq<Cidr>) {
    cidrs != [] && (InCidr(address, cidrs[0].network, cidrs[0].prefix) || SomeCidr(address, cidrs[1..]))
  }

  predicate IsBlockedIpv4(value: string)
    requires IsIp4(value)
  {
    Ipv4IntegerFits(value);
    SomeCidr(Ipv4Integer(value), BlockedCidrs())
  }

  /** The reserved addresses, octet by octet. */
  predicate IsReserved(a: Octet, b: Octet, c: Octet, d: Octet) {
    || a == 0 || a == 10 || a == 127 || a >= 224
    || (a == 100 && 64 <= b < 128)
    || (a == 169 && b == 254)
    || (a == 172 && 16 <= b < 32)
    || (a == 192 && b == 168)
    || (a == 192 && b == 0 && (c == 0 || c == 2))
    || (a == 192 && b == 88 && c == 99)
    || (a == 198 && (b == 18 || b == 19))
    || (a == 198 && b == 51 && c == 100)
    || (a == 203 && b == 0 && c == 113)
  }

  lemma MorePowers()
    ensures Pow2(24) == 0x100_0000 && Pow2(28) == 0x1000_0000 && Pow2(22) == 0x40_0000 && Pow2(20) == 0x10_0000
    ensures Pow2(17) == 0x2_0000 && Pow2(16) == 0x1_0000 && Pow2(8) == 0x100
  {
    Pow2Values();
    Pow2Sum(16, 8);
    Pow2Sum(16, 4);
    Pow2Sum(16, 6);
    assert Pow2(1) == 2;
    Pow2Sum(16, 1);
    Pow2Sum(24, 4);
  }

  /** What is left of an address after cutting it at each prefix the blocks use. */
  lemma Quotients(a: Octet, b: Octet, c: Octet, d: Octet)
    ensures var n := Quad(a, b, c, d);
      && n / 0x100_0000 == a && n / 0x1000_0000 == a / 16
      && n / 0x1_0000 == a * 256 + b && n / 0x100 == (a * 256 + b) * 256 + c
      && n / 0x40_0000 == a * 4 + b / 64 && n / 0x10_0000 == a * 16 + b / 16 && n / 0x2_0000 == a * 128 + b / 2
  {
  }

  lemma SameDigits(q: nat, r: nat, q': nat, r': nat, n: nat)
    requires r < n && r' < n
    ensures q * n + r == q' * n + r' <==> q == q' && r == r'
  {
    if q * n + r == q' * n + r' {
      QuotientIsUnique(n, q, r, q', r');
    }
  }

  lemma Block8(a: Octet, b: Octet, c: Octet, d: Octet, network: Octet)
    ensures InCidr(Quad(a, b, c, d), Quad(network, 0, 0, 0), 8) <==> a == network
  {
    hide InCidr, Pow2, Quad;
    CidrIsPrefix(Quad(a, b, c, d), Quad(network, 0, 0, 0), 8);
    MorePowers();
    Quotients(a, b, c, d);
    Quotients(network, 0, 0, 0);
  }

  lemma Block4(a: Octet, b: Octet, c: Octet, d: Octet, network: Octet)
    ensures InCidr(Quad(a, b, c, d), Quad(network, 0, 0, 0), 4) <==> a / 16 == network / 16
  {
    hide InCidr, Pow2, Quad;
    CidrIsPrefix(Quad(a, b, c, d), Quad(network, 0, 0, 0), 4);
    MorePowers();
    Quotients(a, b, c, d);
    Quotients(network, 0, 0, 0);
  }

  lemma Block16(a: Octet, b: Octet, c: Octet, d: Octet, first: Octet, second: Octet)
    ensures InCidr(Quad(a, b, c, d), Quad(first, second, 0, 0), 16) <==> a == first && b == second
  {
    hide InCidr, Pow2, Quad;
    CidrIsPrefix(Quad(a, b, c, d), Quad(first, second, 0, 0), 16);
    MorePowers();
    Quotients(a, b, c, d);
    Quotients(first, second, 0, 0);
    SameDigits(a, b, first, second, 256);
  }

  lemma Block10(a: Octet, b: Octet, c: Octet, d: Octet, first: Octet, second: Octet)
    ensures InCidr(Quad(a, b, c, d), Quad(first, second, 0, 0), 10) <==> a == first && b / 64 == second / 64
  {
    hide InCidr, Pow2, Quad;
    CidrIsPrefix(Quad(a, b, c, d), Quad(first, second, 0, 0), 10);
    MorePowers();
    Quotients(a, b, c, d);
    Quotients(first, second, 0, 0);
    SameDigits(a, b / 64, first, second / 64, 4);
  }

  lemma Block12(a: Octet, b: Octet, c: Octet, d: Octet, first: Octet, second: Octet)
    ensures InCidr(Quad(a, b, c, d), Quad(first, second, 0, 0), 12) <==> a == first && b / 16 == second / 16
  {
    hide InCidr, Pow2, Quad;
    CidrIsPrefix(Quad(a, b, c, d), Quad(first, second, 0, 0), 12);
    MorePowers();
    Quotients(a, b, c, d);
    Quotients(first, second, 0, 0);
    SameDigits(a, b / 16, first, second / 16, 16);
  }

  lemma Block15(a: Octet, b: Octet, c: Octet, d: Octet, first: Octet, second: Octet)
    ensures InCidr(Quad(a, b, c, d), Quad(first, second, 0, 0), 15) <==> a == first && b / 2 == second / 2
  {
    hide InCidr, Pow2, Quad;
    CidrIsPrefix(Quad(a, b, c, d), Quad(first, second, 0, 0), 15);
    MorePowers();
    Quotients(a, b, c, d);
    Quotients(first, second, 0, 0);
    SameDigits(a, b / 2, first, second / 2, 128);
  }

  lemma Block24(a: Octet, b: Octet, c: Octet, d: Octet, first: Octet, second: Octet, third: Octet)
    ensures InCidr(Quad(a, b, c, d), Quad(first, second, third, 0), 24) <==> a == first && b == second && c == third
  {
    hide InCidr, Pow2, Quad;
    CidrIsPrefix(Quad(a, b, c, d), Quad(first, second, third, 0), 24);
    MorePowers();
    Quotients(a, b, c, d);
    Quotients(first, second, third, 0);
    SameDigits(a * 256 + b, c, first * 256 + second, third, 256);
    SameDigits(a, b, first, second, 256);
  }

  lemma SomeCidrSplits(address: Word, head: seq<Cidr>, tail: seq<Cidr>)
    ensures SomeCidr(address, head + tail) <==> SomeCidr(address, head) || SomeCidr(address, tail)
  {
    if head == [] {
      assert head + tail == tail;
    } else {
      assert (head + tail)[1..] == head[1..] + tail;
      SomeCidrSplits(address, head[1..], tail);
    }
  }

  lemma SomeOfFive(address: Word, x0: Cidr, x1: Cidr, x2: Cidr, x3: Cidr, x4: Cidr)
    ensures SomeCidr(address, [x0, x1, x2, x3, x4]) <==>
            || InCidr(address, x0.network, x0.prefix) || InCidr(address, x1.network, x1.prefix)
            || InCidr(address, x2.network, x2.prefix) || InCidr(address, x3.network, x3.prefix)
            || InCidr(address, x4.network, x4.prefix)
  {
    hide InCidr;
    assert [x0, x1, x2, x3, x4][1..] == [x1, x2, x3, x4] && [x1, x2, x3, x4][1..] == [x2, x3, x4];
    assert [x2, x3, x4][1..] == [x3, x4] && [x3, x4][1..] == [x4] && [x4][1..] == [];
    assert SomeCidr(address, [x4]) <==> InCidr(address, x4.network, x4.prefix);
    assert SomeCidr(address, [x3, x4]) <==> InCidr(address, x3.network, x3.prefix) || SomeCidr(address, [x4]);
    assert SomeCidr(address, [x2, x3, x4]) <==> InCidr(address, x2.network, x2.prefix) || SomeCidr(address, [x3, x4]);
  }

  lemma FirstFive(a: Octet, b: Octet, c: Octet, d: Octet)
    ensures SomeCidr(Quad(a, b, c, d), [Cidr(Network(0, 0, 0, 0), 8), Cidr(Network(10, 0, 0, 0), 8),
                                        Cidr(Network(100, 64, 0, 0), 10), Cidr(Network(127, 0, 0, 0), 8),
                                        Cidr(Network(169, 254, 0, 0), 16)]) <==>
            a == 0 || a == 10 || (a == 100 && 64 <= b < 128) || a == 127 || (a == 169 && b == 254)
  {
    hide InCidr, Quad, SomeCidr, Network;
    SomeOfFive(Quad(a, b, c, d), Cidr(Network(0, 0, 0, 0), 8), Cidr(Network(10, 0, 0, 0), 8),
               Cidr(Network(100, 64, 0, 0), 10), Cidr(Network(127, 0, 0, 0), 8), Cidr(Network(169, 254, 0, 0), 16));
    Block8(a, b, c, d, 0);
    Block8(a, b, c, d, 10);
    Block10(a, b, c, d, 100, 64);
    Block8(a, b, c, d, 127);
    Block16(a, b, c, d, 169, 254);
  }

  lemma NextFive(a: Octet, b: Octet, c: Octet, d: Octet)
    ensures SomeCidr(Quad(a, b, c, d), [Cidr(Network(172, 16, 0, 0), 12), Cidr(Network(192, 0, 0, 0), 24),
                                        Cidr(Network(192, 0, 2, 0), 24), Cidr(Network(192, 88, 99, 0), 24),
                                        Cidr(Network(192, 168, 0, 0), 16)]) <==>
            (a == 172 && 16 <= b < 32) || (a == 192 && b == 0 && (c == 0 || c == 2)) || (a == 192 && b == 88 && c == 99)
            || (a == 192 && b == 168)
  {
    hide InCidr, Quad, SomeCidr, Network;
    SomeOfFive(Quad(a, b, c, d), Cidr(Network(172, 16, 0, 0), 12), Cidr(Network(192, 0, 0, 0), 24),
               Cidr(Network(192, 0, 2, 0), 24), Cidr(Network(192, 88, 99, 0), 24), Cidr(Network(192, 168, 0, 0), 16));
    Block12(a, b, c, d, 172, 16);
    Block24(a, b, c, d, 192, 0, 0);
    Block24(a, b, c, d, 192, 0, 2);
    Block24(a, b, c, d, 192, 88, 99);
    Block16(a, b, c, d, 192, 168);
  }

  lemma LastFive(a: Octet, b: Octet, c: Octet, d: Octet)
    ensures SomeCidr(Quad(a, b, c, d), [Cidr(Network(198, 18, 0, 0), 15), Cidr(Network(198, 51, 100, 0), 24),
                                        Cidr(Network(203, 0, 113, 0), 24), Cidr(Network(224, 0, 0, 0), 4),
                                        Cidr(Network(240, 0, 0, 0), 4)]) <==>
            (a == 198 && (b == 18 || b == 19)) || (a == 198 && b == 51 && c == 100) || (a == 203 && b == 0 && c == 113)
            || a >= 224
  {
    hide InCidr, Quad, SomeCidr, Network;
    SomeOfFive(Quad(a, b, c, d), Cidr(Network(198, 18, 0, 0), 15), Cidr(Network(198, 51, 100, 0), 24),
               Cidr(Network(203, 0, 113, 0), 24), Cidr(Network(224, 0, 0, 0), 4), Cidr(Network(240, 0, 0, 0), 4));
    Block15(a, b, c, d, 198, 18);
    Block24(a, b, c, d, 198, 51, 100);
    Block24(a, b, c, d, 203, 0, 113);
    Block4(a, b, c, d, 224);
    Block4(a, b, c, d, 240);
  }

  /** The fifteen masked comparisons block exactly the reserved addresses. */
  lemma BlockedIsReserved(a: Octet, b: Octet, c: Octet, d: Octet)
    ensures IsIp4(Dotted(a, b, c, d)) && (IsBlockedIpv4(Dotted(a, b, c, d)) <==> IsReserved(a, b, c, d))
  {
    hide InCidr, Quad, SomeCidr, IsIp4, Dotted, Network;
    Ipv4IntegerIsQuad(a, b, c, d);
    var n := Quad(a, b, c, d);
    var first := [Cidr(Network(0, 0, 0, 0), 8), Cidr(Network(10, 0, 0, 0), 8), Cidr(Network(100, 64, 0, 0), 10),
                  Cidr(Network(127, 0, 0, 0), 8), Cidr(Network(169, 254, 0, 0), 16)];
    var next := [Cidr(Network(172, 16, 0, 0), 12), Cidr(Network(192, 0, 0, 0), 24), Cidr(Network(192, 0, 2, 0), 24),
                 Cidr(Network(192, 88, 99, 0), 24), Cidr(Network(192, 168, 0, 0), 16)];
    var last := [Cidr(Network(198, 18, 0, 0), 15), Cidr(Network(198, 51, 100, 0), 24),
        Cidr(Network(203, 0, 113, 0), 24),
                 Cidr(Network(224, 0, 0, 0), 4), Cidr(Network(240, 0, 0, 0), 4)];
    assert BlockedCidrs() == first + (next + last);
    FirstFive(a, b, c, d);
    NextFive(a, b, c, d);
    LastFive(a, b, c, d);
    hide BlockedCidrs;
    SomeCidrSplits(n, first, next + last);
    SomeCidrSplits(n, next, last);
  }
}
