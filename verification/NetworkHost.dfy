/**
 `isBlockedNetworkAddress` and `normalizeNetworkHost` of
 packages/cli/src/network-host-policy.ts: the decision for a host as it was written.
 Lower-casing is that of ASCII; other letters are refused by both address grammars.
 */
module NetworkHost {
  import opened Wrappers
  import opened Text
  import opened Bits
  import opened Ipv4
  import opened Ipv6
  import opened NetworkPolicy

  // ---------- normalizeNetworkHost ----------

  /** The white space and line ends `trim` removes. */
  predicate IsSpace(c: char) {
    var n := c as int;
    9 <= n <= 13 || n in {32, 0xA0, 0x1680, 0x2028, 0x2029, 0x202F, 0x205F, 0x3000, 0xFEFF} || 0x2000 <= n <= 0x200A
  }

  predicate IsLineEnd(c: char) {
    c == '\n' || c == '\r' || c as int == 0x2028 || c as int == 0x2029
  }

  function TrimStart(s: string): string {
    if s != "" && IsSpace(s[0]) then TrimStart(s[1..]) else s
  }

  function TrimEnd(s: string): string {
    if s != "" && IsSpace(s[|s| - 1]) then TrimEnd(s[..|s| - 1]) else s
  }

  /** `.replace(/^\[(.*)\]$/u, "$1")`: the dot does not match a line end. */
  function StripBrackets(s: string): string {
    if |s| >= 2 && s[0] == '[' && s[|s| - 1] == ']' && forall i :: 0 < i < |s| - 1 ==> !IsLineEnd(s[i])
    then s[1..|s| - 1] else s
  }

  /** `.replace(/\.+$/u, "")` */
  function StripDots(s: string): string {
    if s != "" && s[|s| - 1] == '.' then StripDots(s[..|s| - 1]) else s
  }

  function NormalizeNetworkHost(hostname: string): string {
    StripDots(StripBrackets(ToLower(TrimEnd(TrimStart(hostname)))))
  }

  // ---------- isBlockedNetworkAddress ----------

  function Address(value: string): string {
    Split(NormalizeNetworkHost(value), '%')[0]
  }

  ghost predicate IsBlockedNetworkAddress(value: string) {
    var address := Address(value);
    if IsIp4(address) then IsBlockedIpv4(address)
    else if IsIp6(address) then IsBlockedIpv6(address)
    else ':' in address
  }

  // ---------- How an address may be written ----------

  predicate IsAddressChar(c: char) {
    IsPieceChar(c) || c == ':'
  }

  /** Address characters only, and no dot at the end: what normalizing leaves alone. */
  predicate IsPlain(s: string) {
    s != "" && s[|s| - 1] != '.' && forall i :: 0 <= i < |s| ==> IsAddressChar(s[i])
  }

  lemma {:induction false} SplitLacking(s: string, c: char)
    requires Lacks(s, c)
    ensures Split(s, c) == [s]
  {
    SplitPiece(s, "", c);
  }

  lemma PlainIsLower(s: string)
    requires IsPlain(s)
    ensures ToLower(s) == s && Lacks(s, '%')
  {
  }

  /** Nothing of a plain text is trimmed, and it is in no brackets. */
  lemma PlainIsTrimmed(s: string)
    requires IsPlain(s)
    ensures TrimStart(s) == s && TrimEnd(s) == s && StripBrackets(s) == s && StripDots(s) == s
  {
  }

  lemma PlainStays(s: string)
    requires IsPlain(s)
    ensures NormalizeNetworkHost(s) == s && Address(s) == s && Bare(s) == s && ToLower(s) == s
  {
    PlainIsLower(s);
    PlainIsTrimmed(s);
    SplitLacking(s, '%');
    hide IsPlain, TrimStart, TrimEnd, StripBrackets, StripDots, ToLower, Split, Lacks;
  }

  /** Brackets around an address make no difference. */
  lemma BracketsStay(s: string)
    requires IsPlain(s)
    ensures Address("[" + s + "]") == s
  {
    var b := "[" + s + "]";
    assert TrimEnd(TrimStart(b)) == b;
    assert ToLower(b) == b;
    assert b[1..|b| - 1] == s;
    assert StripBrackets(b) == s;
    SplitLacking(s, '%');
  }

  lemma HexPiecesArePlain(pieces: seq<string>, groups: seq<Group>, dotted: bool)
    requires Spells(pieces, groups, dotted) && pieces != []
    ensures var p := pieces[|pieces| - 1]; p != "" && p[|p| - 1] != '.'
  {
    var p := pieces[|pieces| - 1];
    if dotted {
      QuadEndsInDigit(groups[|groups| - 2], groups[|groups| - 1]);
    } else {
      assert SpellsGroup(p, groups[|groups| - 1]);
    }
  }

  lemma QuadEndsInDigit(h: Group, l: Group)
    ensures var q := DottedGroups(h, l); q != "" && q[|q| - 1] != '.'
  {
    DottedEndsInDigit(h / 256, h % 256, l / 256, l % 256);
  }

  lemma DottedEndsInDigit(a: Octet, b: Octet, c: Octet, d: Octet)
    ensures var q := Dotted(a, b, c, d); q != "" && q[|q| - 1] != '.'
  {
    var pieces := [Decimal(a), Decimal(b), Decimal(c), Decimal(d)];
    hide Decimal, Join;
    JoinEnds(pieces, '.');
  }

  lemma {:induction false} JoinEnds(pieces: seq<string>, c: char)
    requires pieces != [] && pieces[|pieces| - 1] != ""
    ensures var s, p := Join(pieces, c), pieces[|pieces| - 1]; s != "" && s[|s| - 1] == p[|p| - 1]
  {
    if |pieces| > 1 {
      JoinEnds(pieces[1..], c);
    }
  }

  /** Every standard spelling is plain, has a colon, and is no IPv4 text. */
  lemma SpellingIsPlain(text: string, groups: seq<Group>, sp: Spelling)
    requires StandardSpelling(text, groups, sp)
    ensures IsPlain(text) && ':' in text && !IsIp4(text)
  {
    hide IsIp4;
    match sp {
      case Full(pieces, dotted) => FullIsPlain(pieces, dotted, groups);
      case Compressed(left, leftDotted, right, rightDotted) =>
        CompressedIsPlain(left, leftDotted, right, rightDotted, groups);
    }
    ColonIsNotIp4(text);
  }

  lemma FullIsPlain(pieces: seq<string>, dotted: bool, groups: seq<Group>)
    requires |groups| == 8 && Spells(pieces, groups, dotted)
    ensures var text := Join(pieces, ':'); IsPlain(text) && ':' in text
  {
    SpelledPieces(pieces, groups, dotted);
    HexPiecesArePlain(pieces, groups, dotted);
    hide Spells, IsPiece;
    JoinedPieces(pieces);
    JoinEnds(pieces, ':');
    assert Join(pieces, ':') == pieces[0] + ":" + Join(pieces[1..], ':');
    assert Join(pieces, ':')[|pieces[0]|] == ':';
  }

  lemma CompressedIsPlain(left: seq<string>, leftDotted: bool, right: seq<string>, rightDotted: bool,
      groups: seq<Group>)
    requires Spelled(Compressed(left, leftDotted, right, rightDotted), groups)
    ensures var text := Join(left, ':') + "::" + Join(right, ':'); IsPlain(text) && ':' in text
  {
    var l, r := Width(left, leftDotted), Width(right, rightDotted);
    SpelledPieces(left, groups[..l], leftDotted);
    SpelledPieces(right, groups[8 - r..], rightDotted);
    JoinedPieces(left);
    JoinedPieces(right);
    if right != [] {
      HexPiecesArePlain(right, groups[8 - r..], rightDotted);
      hide Spells, IsPiece;
      JoinEnds(right, ':');
    }
    hide Spells, Join;
    var text := Join(left, ':') + "::" + Join(right, ':');
    assert text[|Join(left, ':')|] == ':';
  }

  lemma ColonIsNotIp4(text: string)
    requires ':' in text
    ensures !IsIp4(text)
  {
    if IsIp4(text) {
      Ip4IsDotted(text);
      var o := Octets(text);
      DottedIsPiece(o[0], o[1], o[2], o[3]);
    }
  }

  lemma DottedIsPlain(a: Octet, b: Octet, c: Octet, d: Octet)
    ensures IsPlain(Dotted(a, b, c, d)) && IsIp4(Dotted(a, b, c, d))
  {
    hide Dotted, IsIp4;
    DottedIsPiece(a, b, c, d);
    OctetsOfDotted(a, b, c, d);
    DottedEndsInDigit(a, b, c, d);
  }

  // ---------- The decision ----------

  /** An IPv4 host is blocked exactly when its four numbers are reserved. */
  lemma Ipv4HostDecision(value: string, a: Octet, b: Octet, c: Octet, d: Octet)
    requires Address(value) == Dotted(a, b, c, d)
    ensures IsBlockedNetworkAddress(value) <==> IsReserved(a, b, c, d)
  {
    hide IsReserved, IsBlockedIpv4, Address, Dotted;
    BlockedIsReserved(a, b, c, d);
  }

  /**
   An IPv6 host, however it is spelled, is blocked exactly when its 128-bit address lies in
   a reserved prefix block or embeds a reserved IPv4 address.
   */
  lemma Ipv6HostDecision(value: string, groups: seq<Group>, sp: Spelling)
    requires StandardSpelling(Address(value), groups, sp)
    ensures |groups| == 8
    ensures var v := Value(groups);
      IsBlockedNetworkAddress(value) <==>
      SomePrefix(v, ReservedPrefixes()) || (InEmbedding(v) && ReservedNumber(v % WORD))
  {
    Ipv6HostGroups(value, groups, sp);
    hide IsBlockedGroups, Value, SomePrefix, InEmbedding, ReservedNumber, IsBlockedNetworkAddress;
    BlockedIpv6IsUnion(groups);
  }

  lemma Ipv6HostGroups(value: string, groups: seq<Group>, sp: Spelling)
    requires StandardSpelling(Address(value), groups, sp)
    ensures |groups| == 8 && (IsBlockedNetworkAddress(value) <==> IsBlockedGroups(groups))
  {
    hide Spelled, TextOf, Address, IsIp4, IsBlockedIpv4, IsBlockedGroups, Expand, Bare, Standard;
    var text := Address(value);
    SpellingIsPlain(text, groups, sp);
    PlainStays(text);
    EightGroups(sp, groups);
    StandardIsNotDottedLeft(text, groups, sp);
  }

  /** One of the four embeddings of an IPv4 address. */
  function Embedding(i: nat, h: Group, l: Group): (groups: seq<Group>)
    requires i < 4
    ensures |groups| == 8
  {
    EmbeddingPrefixes()[i] + [h, l]
  }

  /**
   All four embeddings are blocked exactly when the IPv4 address itself is, whatever
   spelling either is written in.
   */
  lemma EmbeddedHostsAgree(i: nat, h: Group, l: Group, value6: string, sp: Spelling, value4: string)
    requires i < 4 && StandardSpelling(Address(value6), Embedding(i, h, l), sp)
    requires Address(value4) == DottedGroups(h, l)
    ensures IsBlockedNetworkAddress(value6) <==> IsBlockedNetworkAddress(value4)
  {
    hide IsBlockedNetworkAddress, Address, StandardSpelling, IsBlockedGroups, IsReserved;
    Ipv6HostGroups(value6, Embedding(i, h, l), sp);
    EmbeddedGroups(i, h, l);
    hide Embedding, Dotted;
    Ipv4HostDecision(value4, h / 256, h % 256, l / 256, l % 256);
  }

  lemma EmbeddedGroups(i: nat, h: Group, l: Group)
    requires i < 4
    ensures IsBlockedGroups(Embedding(i, h, l)) <==> IsReserved(h / 256, h % 256, l / 256, l % 256)
  {
    var groups := Embedding(i, h, l);
    assert groups[..6] == EmbeddingPrefixes()[i];
    assert groups[6] == h && groups[7] == l;
    EmbeddingsArePrefixes(groups);
    NoOtherRule(i, h, l);
    hide IsReserved, EmbedsIpv4, HasReservedGroups, Embedding, IsBlockedIpv4, Dotted;
    EmbeddedNumber(h, l);
  }

  /** The tests before the embeddings catch only :: and ::1 among them, and 0.0.0.0/8 is reserved anyway. */
  lemma NoOtherRule(i: nat, h: Group, l: Group)
    requires i < 4
    ensures HasReservedGroups(Embedding(i, h, l)) ==> IsReserved(h / 256, h % 256, l / 256, l % 256)
  {
    var groups := Embedding(i, h, l);
    ZeroMask();
    if AllZero(groups) {
      assert groups[6] == 0;
    }
    if AllZero(groups[..7]) {
      assert groups[..7][6] == 0;
    }
  }

  lemma ZeroMask()
    ensures forall m :: And(0, m) == 0
    ensures And(0x64, 0xfe00) == 0 && And(0x64, 0xffc0) == 64 && And(0x64, 0xff00) == 0 && And(0x64, 0xfff0) == 96
  {
    Pow2Values();
    MaskedGroup(0x64, 9, 0);
    MaskedGroup(0x64, 6, 1);
    MaskedGroup(0x64, 8, 0);
    MaskedGroup(0x64, 4, 6);
    hide And;
    ShiftRightDivides(0x64, 9);
    ShiftRightDivides(0x64, 6);
    ShiftRightDivides(0x64, 8);
    ShiftRightDivides(0x64, 4);
    assert forall m :: And(0, m) == 0 by { AndZero(); }
  }

  lemma AndZero()
    ensures forall m :: And(0, m) == 0
  {
  }

  /** A host that names an IPv4 address outside the reserved ranges. */
  ghost predicate IsOpenIpv4(address: string) {
    exists a: Octet, b: Octet, c: Octet, d: Octet :: address == Dotted(a, b, c, d) && !IsReserved(a, b, c, d)
  }

  /** The 128-bit address lies in no reserved block and embeds no reserved IPv4 address. */
  ghost predicate IsOpenNumber(v: nat) {
    !SomePrefix(v, ReservedPrefixes()) && !(InEmbedding(v) && ReservedNumber(v % WORD))
  }

  /** A host that spells an IPv6 address outside them. */
  ghost predicate IsOpenIpv6(address: string) {
    exists groups, sp :: StandardSpelling(address, groups, sp) && IsOpenNumber(Value(groups))
  }

  lemma OpenIpv4Only(value: string)
    requires IsIp4(Address(value))
    ensures !IsBlockedNetworkAddress(value) <==> IsOpenIpv4(Address(value))
  {
    hide IsBlockedNetworkAddress, IsReserved, Address, IsIp4;
    var address := Address(value);
    Ip4IsDotted(address);
    var o := Octets(address);
    Ipv4HostDecision(value, o[0], o[1], o[2], o[3]);
    assert address == Dotted(o[0], o[1], o[2], o[3]);
    if IsOpenIpv4(address) {
      var a: Octet, b: Octet, c: Octet, d: Octet :| address == Dotted(a, b, c, d) && !IsReserved(a, b, c, d);
      Ipv4HostDecision(value, a, b, c, d);
    }
  }

  lemma OpenIpv6Only(value: string)
    requires IsIp6(Address(value))
    ensures !IsBlockedNetworkAddress(value) <==> IsOpenIpv6(Address(value))
  {
    hide IsBlockedNetworkAddress, Address, StandardSpelling, Value, SomePrefix, InEmbedding, ReservedNumber,
      ReservedPrefixes;
    var address := Address(value);
    var groups, sp :| StandardSpelling(address, groups, sp);
    Ipv6HostDecision(value, groups, sp);
    if IsOpenIpv6(address) {
      var groups', sp' :| StandardSpelling(address, groups', sp') && IsOpenNumber(Value(groups'));
      Ipv6HostDecision(value, groups', sp');
    }
  }

  lemma ColonsOfAddresses(address: string)
    ensures IsIp4(address) ==> ':' !in address && !IsIp6(address)
    ensures IsIp6(address) ==> ':' in address
    ensures IsOpenIpv4(address) ==> IsIp4(address)
    ensures IsOpenIpv6(address) ==> IsIp6(address)
  {
    hide IsIp4, StandardSpelling, IsReserved, Dotted;
    if IsIp4(address) && ':' in address {
      ColonIsNotIp4(address);
    }
    if IsIp6(address) {
      var groups, sp :| StandardSpelling(address, groups, sp);
      SpellingIsPlain(address, groups, sp);
    }
    if IsOpenIpv4(address) {
      var a: Octet, b: Octet, c: Octet, d: Octet :| address == Dotted(a, b, c, d) && !IsReserved(a, b, c, d);
      OctetsOfDotted(a, b, c, d);
    }
  }

  /**
   What is let through is a name without a colon, an IPv4 address outside the reserved ranges,
   or a spelling of an IPv6 address outside them, and nothing else: text with a colon that the
   grammar does not know is blocked.
   */
  lemma LetThroughExactly(value: string)
    ensures var address := Address(value);
      !IsBlockedNetworkAddress(value) <==>
      || (':' !in address && !IsIp4(address))
      || IsOpenIpv4(address)
      || IsOpenIpv6(address)
  {
    hide IsOpenIpv4, IsOpenIpv6, Address, IsIp4, IsIp6, IsBlockedIpv4, IsBlockedIpv6;
    ColonsOfAddresses(Address(value));
    if IsIp4(Address(value)) {
      OpenIpv4Only(value);
    } else if IsIp6(Address(value)) {
      OpenIpv6Only(value);
    }
  }

  /** Every address may be written plainly, and an IPv6 address also in brackets. */
  lemma SpellingsAreHosts(text: string, groups: seq<Group>, sp: Spelling)
    requires StandardSpelling(text, groups, sp)
    ensures Address(text) == text && Address("[" + text + "]") == text
  {
    hide StandardSpelling, IsPlain, Address;
    SpellingIsPlain(text, groups, sp);
    PlainStays(text);
    BracketsStay(text);
  }

  lemma QuadsAreHosts(a: Octet, b: Octet, c: Octet, d: Octet)
    ensures Address(Dotted(a, b, c, d)) == Dotted(a, b, c, d)
  {
    hide IsPlain, Address, Dotted;
    DottedIsPlain(a, b, c, d);
    PlainStays(Dotted(a, b, c, d));
  }

  /**
   The whole way from the text: any two texts that spell an embedding and its IPv4 address
   are let through or blocked together.
   */
  lemma EmbeddedTextsAgree(i: nat, h: Group, l: Group, text: string, sp: Spelling)
    requires i < 4 && StandardSpelling(text, Embedding(i, h, l), sp)
    ensures var decision := IsReserved(h / 256, h % 256, l / 256, l % 256);
      && (IsBlockedNetworkAddress(text) <==> decision)
      && (IsBlockedNetworkAddress("[" + text + "]") <==> decision)
      && (IsBlockedNetworkAddress(DottedGroups(h, l)) <==> decision)
  {
    hide IsBlockedNetworkAddress, Address, StandardSpelling, IsReserved, Dotted, Embedding;
    SpellingsAreHosts(text, Embedding(i, h, l), sp);
    QuadsAreHosts(h / 256, h % 256, l / 256, l % 256);
    Ipv4HostDecision(DottedGroups(h, l), h / 256, h % 256, l / 256, l % 256);
    EmbeddedHostsAgree(i, h, l, text, sp, DottedGroups(h, l));
    EmbeddedHostsAgree(i, h, l, "[" + text + "]", sp, DottedGroups(h, l));
  }
}
