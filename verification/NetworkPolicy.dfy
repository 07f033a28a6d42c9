/**
 The address rules of packages/cli/src/network-host-policy.ts: which addresses are blocked,
 and that the group masks are prefixes of the 128-bit address.
 */
module NetworkPolicy {
  import opened Wrappers
  import opened Text
  import opened Bits
  import opened Ipv4
  import opened Ipv6

  // ---------- isBlockedIpv6 ----------

  lemma GroupBytes(g: Group)
    ensures ShiftRight(g, 8) == g / 256 && And(g, 0xff) == g % 256
  {
    Pow2Values();
    ShiftRightDivides(g, 8);
    AndLowMask(g, 8);
  }

  /** `${high >> 8}.${high & 0xff}.${low >> 8}.${low & 0xff}` */
  function Ipv4FromGroups(high: Group, low: Group): (s: string)
    ensures s == DottedGroups(high, low) && IsIp4(s)
  {
    GroupBytes(high);
    GroupBytes(low);
    QuadGroupsOf(high, low);
    Dotted(ShiftRight(high, 8), And(high, 0xff), ShiftRight(low, 8), And(low, 0xff))
  }

  predicate AllZero(groups: seq<Group>) {
    forall i :: 0 <= i < |groups| ==> groups[i] == 0
  }

  /** The tests before the embedded addresses, in the order of the code. */
  predicate HasReservedGroups(groups: seq<Group>)
    requires |groups| == 8
  {
    var first, second := groups[0], groups[1];
    || AllZero(groups)
    || (AllZero(groups[..7]) && groups[7] == 1)
    || And(first, 0xfe00) == 0xfc00
    || And(first, 0xffc0) == 0xfe80 || And(first, 0xffc0) == 0xfec0
    || And(first, 0xff00) == 0xff00
    || (first == 0x0100 && second == 0)
    || (first == 0x2001 && second == 0)
    || (first == 0x2001 && second == 2)
    || (first == 0x2001 && And(second, 0xfff0) == 0x0010)
    || (first == 0x2001 && And(second, 0xfff0) == 0x0020)
    || (first == 0x2001 && second == 0x0db8)
    || first == 0x2002
    || And(first, 0xfff0) == 0x3ff0
  }

  predicate EmbedsIpv4(groups: seq<Group>)
    requires |groups| == 8
  {
    var first, second := groups[0], groups[1];
    || AllZero(groups[..6])
    || (AllZero(groups[..5]) && groups[5] == 0xffff)
    || (first == 0x0064 && second == 0xff9b && AllZero(groups[2..6]))
    || (first == 0x0064 && second == 0xff9b && groups[2] == 1 && AllZero(groups[3..6]))
  }

  predicate IsBlockedGroups(groups: seq<Group>)
    requires |groups| == 8
  {
    HasReservedGroups(groups) || (EmbedsIpv4(groups) && IsBlockedIpv4(Ipv4FromGroups(groups[6], groups[7])))
  }

  predicate IsBlockedIpv6(value: string) {
    match ExpandIpv6(value)
    case None => true
    case Some(groups) =>
      ExpandIsSpelling(Bare(value), groups);
      IsBlockedGroups(groups)
  }

  // ---------- Prefixes of the 128-bit address ----------

  /** The groups as one number. */
  function Value(groups: seq<Group>): nat {
    if groups == [] then 0 else Pow2(16) * Value(groups[..|groups| - 1]) + groups[|groups| - 1]
  }

  /** A block of addresses: those whose highest `length` of 128 bits are `bits`. */
  datatype Prefix = Prefix(bits: nat, length: nat)

  predicate InPrefix(v: nat, p: Prefix) {
    p.length <= 128 && v / Pow2(128 - p.length) == p.bits
  }

  /** A prefix block is an interval. */
  lemma PrefixIsInterval(v: nat, p: Prefix)
    requires p.length <= 128
    ensures var size := Pow2(128 - p.length); InPrefix(v, p) <==> size * p.bits <= v < size * (p.bits + 1)
  {
    var size := Pow2(128 - p.length);
    DivisionIs(v, size);
    Distributes(size, p.bits, 1);
    if size * p.bits <= v < size * (p.bits + 1) {
      QuotientIs(v, size, p.bits, v - size * p.bits);
    }
  }

  predicate SomePrefix(v: nat, ps: seq<Prefix>) {
    exists i :: 0 <= i < |ps| && InPrefix(v, ps[i])
  }

  /** ::, ::1, fc00::/7, fe80::/10, fec0::/10, ff00::/8 and so on, in the order of the code. */
  function ReservedPrefixes(): seq<Prefix> {
    [Prefix(0, 128), Prefix(1, 128), Prefix(0x7e, 7), Prefix(0x3fa, 10), Prefix(0x3fb, 10), Prefix(0xff, 8),
     Prefix(Value([0x0100, 0]), 32), Prefix(Value([0x2001, 0]), 32), Prefix(Value([0x2001, 2]), 32),
     Prefix(0x200_1001, 28), Prefix(0x200_1002, 28), Prefix(Value([0x2001, 0x0db8]), 32), Prefix(0x2002, 16),
     Prefix(0x3ff, 12)]
  }

  /** IPv4-compatible, IPv4-mapped, 64:ff9b::/96 and 64:ff9b:1::/96. */
  function EmbeddingPrefixes(): seq<seq<Group>> {
    [[0, 0, 0, 0, 0, 0], [0, 0, 0, 0, 0, 0xffff], [0x64, 0xff9b, 0, 0, 0, 0], [0x64, 0xff9b, 1, 0, 0, 0]]
  }

  // ---------- Groups and bits ----------

  /** Two groups as one number of 32 bits. */
  function Pair(high: nat, low: nat): nat {
    0x1_0000 * high + low
  }

  lemma ValueStep(groups: seq<Group>)
    requires groups != []
    ensures ShiftRight(Value(groups), 16) == Value(groups[..|groups| - 1])
    ensures LowBits(Value(groups), 16) == groups[|groups| - 1]
  {
    Pow2Values();
    hide Pow2, ShiftRight, LowBits;
    ShiftRightBack(Value(groups[..|groups| - 1]), groups[|groups| - 1], 16);
  }

  /** Shifting whole groups away leaves the groups before them. */
  lemma {:induction false} ValueOfPrefix(groups: seq<Group>, k: nat)
    requires k <= |groups|
    ensures ShiftRight(Value(groups), 16 * k) == Value(groups[..|groups| - k])
  {
    if k == 0 {
      assert groups[..|groups|] == groups;
      assert ShiftRight(Value(groups), 0) == Value(groups);
    } else {
      var init := groups[..|groups| - 1];
      hide Value, ShiftRight;
      ValueStep(groups);
      ValueOfPrefix(init, k - 1);
      ShiftRightTwice(Value(groups), 16, 16 * (k - 1));
      assert init[..|init| - (k - 1)] == groups[..|groups| - k];
    }
  }

  lemma {:induction false} ValueIsInjective(a: seq<Group>, b: seq<Group>)
    requires |a| == |b| && Value(a) == Value(b)
    ensures a == b
  {
    if a != [] {
      ValueStep(a);
      ValueStep(b);
      hide Value;
      ValueIsInjective(a[..|a| - 1], b[..|b| - 1]);
      assert a == a[..|a| - 1] + [a[|a| - 1]];
      assert b == b[..|b| - 1] + [b[|b| - 1]];
    }
  }

  /** A masked group is a prefix of the group. */
  lemma MaskedGroup(g: Group, k: nat, bits: nat)
    requires k <= 16
    ensures Pow2(k) <= 0x1_0000
    ensures And(g, 0x1_0000 - Pow2(k)) == Pow2(k) * bits <==> ShiftRight(g, k) == bits
  {
    Pow2Values();
    hide And, ShiftRight;
    AndHighMask(g, 16, k);
    if Pow2(k) * ShiftRight(g, k) == Pow2(k) * bits {
      QuotientIsUnique(Pow2(k), ShiftRight(g, k), 0, bits, 0);
    }
  }

  /** A prefix that ends inside the group at position n. */
  lemma PrefixInsideGroup(groups: seq<Group>, n: nat, k: nat, bits: nat)
    requires |groups| == 8 && n < 8 && k <= 16
    ensures InPrefix(Value(groups), Prefix(bits, 16 * n + 16 - k)) <==> ShiftRight(Value(groups[..n + 1]), k) == bits
  {
    var v, dropped := Value(groups), 16 * (7 - n);
    hide Value, ShiftRight;
    ValueOfPrefix(groups, 7 - n);
    ShiftRightTwice(v, dropped, k);
    ShiftRightDivides(v, dropped + k);
    assert 128 - (16 * n + 16 - k) == dropped + k;
  }

  lemma OneGroup(g: Group)
    ensures Value([g]) == g
  {
    assert [g][..0] == [];
    assert Value([]) == 0;
    assert Pow2(16) * 0 == 0;
  }

  lemma TwoGroups(a: Group, b: Group)
    ensures Value([a, b]) == Pair(a, b)
  {
    Pow2Values();
    assert [a, b][..1] == [a];
    OneGroup(a);
  }

  lemma FirstGroupMasked(groups: seq<Group>, k: nat, bits: nat)
    requires |groups| == 8 && k <= 16
    ensures Pow2(k) <= 0x1_0000
    ensures And(groups[0], 0x1_0000 - Pow2(k)) == Pow2(k) * bits <==> InPrefix(Value(groups), Prefix(bits, 16 - k))
  {
    hide And, Value, ShiftRight, InPrefix;
    MaskedGroup(groups[0], k, bits);
    PrefixInsideGroup(groups, 0, k, bits);
    OneGroup(groups[0]);
    assert groups[..1] == [groups[0]];
  }

  lemma FirstTwoGroups(groups: seq<Group>, a: Group, b: Group)
    requires |groups| == 8
    ensures groups[0] == a && groups[1] == b <==> InPrefix(Value(groups), Prefix(Value([a, b]), 32))
  {
    hide Value, InPrefix;
    PrefixInsideGroup(groups, 1, 0, Value([a, b]));
    assert groups[..2] == [groups[0], groups[1]];
    if Value(groups[..2]) == Value([a, b]) {
      ValueIsInjective(groups[..2], [a, b]);
      assert groups[..2][0] == [a, b][0] && groups[..2][1] == [a, b][1];
    }
  }

  lemma PairShifted(f: nat, g: Group)
    ensures Pair(f, g) / 16 == 0x1000 * f + g / 16 && g / 16 < 0x1000
  {
  }

  lemma SecondGroupMasked(groups: seq<Group>, a: nat, bits: nat)
    requires |groups| == 8 && bits < 0x1000
    ensures groups[0] == a && And(groups[1], 0xfff0) == 16 * bits
            <==> InPrefix(Value(groups), Prefix(0x1000 * a + bits, 28))
  {
    Pow2Values();
    hide And, Value, ShiftRight, InPrefix, Pow2, Pair;
    var f, g := groups[0], groups[1];
    MaskedGroup(g, 4, bits);
    PrefixInsideGroup(groups, 1, 4, 0x1000 * a + bits);
    assert groups[..2] == [f, g];
    TwoGroups(f, g);
    ShiftRightDivides(Pair(f, g), 4);
    ShiftRightDivides(g, 4);
    PairShifted(f, g);
  }

  lemma {:induction false} ValueOfZeros(groups: seq<Group>)
    requires AllZero(groups)
    ensures Value(groups) == 0
  {
    if groups != [] {
      ValueOfZeros(groups[..|groups| - 1]);
      assert Pow2(16) * 0 == 0;
    }
  }

  /** The number is the whole address. */
  lemma WholeAddress(groups: seq<Group>, last: Group)
    requires |groups| == 8
    ensures AllZero(groups[..7]) && groups[7] == last <==> InPrefix(Value(groups), Prefix(last, 128))
  {
    var zeros: seq<Group> := [0, 0, 0, 0, 0, 0, 0];
    var other := zeros + [last];
    assert other[..7] == zeros;
    ValueOfZeros(zeros);
    assert Value(other) == last by { assert Pow2(16) * 0 == 0; }
    hide Value, InPrefix;
    PrefixInsideGroup(groups, 7, 0, last);
    assert groups[..8] == groups;
    assert ShiftRight(Value(groups), 0) == Value(groups);
    if AllZero(groups[..7]) && groups[7] == last {
      assert groups == other by {
        assert forall i :: 0 <= i < 7 ==> groups[i] == groups[..7][i] == 0;
      }
    }
    if Value(groups) == last {
      ValueIsInjective(groups, other);
    }
  }

  lemma SomeOfFourteen(v: nat, ps: seq<Prefix>)
    requires |ps| == 14
    ensures SomePrefix(v, ps) <==>
            || InPrefix(v, ps[0]) || InPrefix(v, ps[1]) || InPrefix(v, ps[2]) || InPrefix(v, ps[3])
                || InPrefix(v, ps[4])
            || InPrefix(v, ps[5]) || InPrefix(v, ps[6]) || InPrefix(v, ps[7]) || InPrefix(v, ps[8])
                || InPrefix(v, ps[9])
            || InPrefix(v, ps[10]) || InPrefix(v, ps[11]) || InPrefix(v, ps[12]) || InPrefix(v, ps[13])
  {
    hide InPrefix;
  }

  /** Each masked test of the first group is a prefix. */
  lemma FirstGroupTests(groups: seq<Group>)
    requires |groups| == 8
    ensures var v := Value(groups);
      && (And(groups[0], 0xfe00) == 0xfc00 <==> InPrefix(v, Prefix(0x7e, 7)))
      && (And(groups[0], 0xffc0) == 0xfe80 <==> InPrefix(v, Prefix(0x3fa, 10)))
      && (And(groups[0], 0xffc0) == 0xfec0 <==> InPrefix(v, Prefix(0x3fb, 10)))
      && (And(groups[0], 0xff00) == 0xff00 <==> InPrefix(v, Prefix(0xff, 8)))
      && (And(groups[0], 0xfff0) == 0x3ff0 <==> InPrefix(v, Prefix(0x3ff, 12)))
  {
    hide And, Value, InPrefix, Pow2;
    Pow2Values();
    FirstGroupMasked(groups, 9, 0x7e);
    FirstGroupMasked(groups, 6, 0x3fa);
    FirstGroupMasked(groups, 6, 0x3fb);
    FirstGroupMasked(groups, 8, 0xff);
    FirstGroupMasked(groups, 4, 0x3ff);
  }

  /** The tests of the first two groups together. */
  lemma SecondGroupTests(groups: seq<Group>)
    requires |groups| == 8
    ensures var v, first, second := Value(groups), groups[0], groups[1];
      && (first == 0x0100 && second == 0 <==> InPrefix(v, Prefix(Value([0x0100, 0]), 32)))
      && (first == 0x2001 && second == 0 <==> InPrefix(v, Prefix(Value([0x2001, 0]), 32)))
      && (first == 0x2001 && second == 2 <==> InPrefix(v, Prefix(Value([0x2001, 2]), 32)))
      && (first == 0x2001 && And(second, 0xfff0) == 0x0010 <==> InPrefix(v, Prefix(0x200_1001, 28)))
      && (first == 0x2001 && And(second, 0xfff0) == 0x0020 <==> InPrefix(v, Prefix(0x200_1002, 28)))
      && (first == 0x2001 && second == 0x0db8 <==> InPrefix(v, Prefix(Value([0x2001, 0x0db8]), 32)))
  {
    hide And, Value, InPrefix;
    FirstTwoGroups(groups, 0x0100, 0);
    FirstTwoGroups(groups, 0x2001, 0);
    FirstTwoGroups(groups, 0x2001, 2);
    SecondGroupMasked(groups, 0x2001, 1);
    SecondGroupMasked(groups, 0x2001, 2);
    FirstTwoGroups(groups, 0x2001, 0x0db8);
  }

  /** The masked group tests together are membership in one of the prefix blocks. */
  lemma ReservedGroupsArePrefixes(groups: seq<Group>)
    requires |groups| == 8
    ensures HasReservedGroups(groups) <==> SomePrefix(Value(groups), ReservedPrefixes())
  {
    hide And, Value, InPrefix, SomePrefix, AllZero;
    SomeOfFourteen(Value(groups), ReservedPrefixes());
    WholeAddress(groups, 0);
    WholeAddress(groups, 1);
    LastZero(groups);
    FirstGroupTests(groups);
    SecondGroupTests(groups);
    FirstGroupWhole(groups, 0x2002);
  }

  lemma FirstGroupWhole(groups: seq<Group>, g: Group)
    requires |groups| == 8
    ensures groups[0] == g <==> InPrefix(Value(groups), Prefix(g, 16))
  {
    hide Value, InPrefix;
    PrefixInsideGroup(groups, 0, 0, g);
    OneGroup(groups[0]);
    assert groups[..1] == [groups[0]];
  }

  lemma LastZero(groups: seq<Group>)
    requires |groups| == 8
    ensures AllZero(groups) <==> AllZero(groups[..7]) && groups[7] == 0
  {
    if AllZero(groups[..7]) && groups[7] == 0 {
      assert forall i :: 0 <= i < 7 ==> groups[i] == groups[..7][i];
    }
  }

  // ---------- The whole function ----------

  /** The four embeddings are the four /96 blocks. */
  lemma EmbeddingsArePrefixes(groups: seq<Group>)
    requires |groups| == 8
    ensures EmbedsIpv4(groups) <==> groups[..6] in EmbeddingPrefixes()
  {
    var g := groups[..6];
    assert AllZero(groups[..6]) <==> g == [0, 0, 0, 0, 0, 0];
    assert AllZero(groups[..5]) && groups[5] == 0xffff <==> g == [0, 0, 0, 0, 0, 0xffff];
    assert groups[0] == 0x64 && groups[1] == 0xff9b && AllZero(groups[2..6]) <==> g == [0x64, 0xff9b, 0, 0, 0, 0];
    assert groups[0] == 0x64 && groups[1] == 0xff9b && groups[2] == 1 && AllZero(groups[3..6])
           <==> g == [0x64, 0xff9b, 1, 0, 0, 0];
  }

  /** A /96 block in terms of the number. */
  lemma NinetySix(groups: seq<Group>, block: seq<Group>)
    requires |groups| == 8 && |block| == 6
    ensures groups[..6] == block <==> InPrefix(Value(groups), Prefix(Value(block), 96))
  {
    hide InPrefix, Value, ShiftRight;
    PrefixInsideGroup(groups, 5, 0, Value(block));
    assert ShiftRight(Value(groups[..6]), 0) == Value(groups[..6]) by { ShiftNothing(Value(groups[..6])); }
    if Value(groups[..6]) == Value(block) {
      ValueIsInjective(groups[..6], block);
    }
  }

  lemma ShiftNothing(n: nat)
    ensures ShiftRight(n, 0) == n
  {
  }

  /** The lowest 32 bits are the last two groups. */
  lemma LastTwoGroups(groups: seq<Group>)
    requires |groups| == 8
    ensures Value(groups) % WORD == Pair(groups[6], groups[7])
  {
    Pow2Values();
    var init := groups[..7];
    assert init[..6] == groups[..6];
    var six := Value(groups[..6]);
    assert Value(init) == 0x1_0000 * six + init[6];
    assert Value(groups) == 0x1_0000 * Value(init) + groups[7];
    hide Value, Pow2;
    QuotientIs(Value(groups), WORD, six, Pair(groups[6], groups[7]));
  }

  /** What is reserved, as a number. */
  predicate ReservedNumber(n: nat) {
    IsReserved(n / 0x100_0000 % 256, n / 0x1_0000 % 256, n / 0x100 % 256, n % 256)
  }

  ghost predicate InEmbedding(v: nat) {
    exists i :: 0 <= i < 4 && InPrefix(v, Prefix(Value(EmbeddingPrefixes()[i]), 96))
  }

  lemma EmbeddedNumber(h: Group, l: Group)
    ensures ReservedNumber(Pair(h, l)) == IsReserved(h / 256, h % 256, l / 256, l % 256)
    ensures IsBlockedIpv4(Ipv4FromGroups(h, l)) == ReservedNumber(Pair(h, l))
  {
    hide IsBlockedIpv4, Dotted, IsIp4, IsReserved;
    PairIsQuad(h, l);
    BytesOfQuad(h / 256, h % 256, l / 256, l % 256);
    BlockedIsReserved(h / 256, h % 256, l / 256, l % 256);
  }

  lemma PairIsQuad(h: Group, l: Group)
    ensures Pair(h, l) == Quad(h / 256, h % 256, l / 256, l % 256)
  {
  }

  lemma BytesOfQuad(a: Octet, b: Octet, c: Octet, d: Octet)
    ensures ReservedNumber(Quad(a, b, c, d)) == IsReserved(a, b, c, d)
  {
    hide IsReserved;
    Quotients(a, b, c, d);
  }

  /**
   `isBlockedIpv6` on eight groups: the 128-bit address lies in one of fourteen prefix
   blocks, or in one of the four /96 blocks that embed an IPv4 address that is reserved.
   */
  lemma BlockedIpv6IsUnion(groups: seq<Group>)
    requires |groups| == 8
    ensures var v := Value(groups);
      IsBlockedGroups(groups) <==>
      SomePrefix(v, ReservedPrefixes()) || (InEmbedding(v) && ReservedNumber(v % WORD))
  {
    hide HasReservedGroups, EmbedsIpv4, SomePrefix, Value, InPrefix, ReservedNumber, ReservedPrefixes, IsBlockedIpv4,
      Dotted;
    ReservedGroupsArePrefixes(groups);
    EmbeddingsArePrefixes(groups);
    var es := EmbeddingPrefixes();
    NinetySix(groups, es[0]);
    NinetySix(groups, es[1]);
    NinetySix(groups, es[2]);
    NinetySix(groups, es[3]);
    LastTwoGroups(groups);
    EmbeddedNumber(groups[6], groups[7]);
  }
}
