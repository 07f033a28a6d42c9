/**
 The IPv6 text parser of packages/cli/src/network-host-policy.ts (`expandIpv6`,
 `ipv6Pieces`), and the spellings of section 2.2 of RFC 4291. The parser undoes every
 spelling, and accepts nothing else but one form the RFC does not have.
 */
module Ipv6 {
  import opened Wrappers
  import opened Text
  import opened Bits
  import opened Ipv4

  type Group = n: nat | n < 0x1_0000

  // ---------- Hexadecimal pieces ----------

  predicate IsHexDigit(c: char) {
    '0' <= c <= '9' || 'a' <= c <= 'f'
  }

  function HexDigit(c: char): (n: nat)
    requires IsHexDigit(c)
    ensures n < 16
  {
    if c <= '9' then c as int - '0' as int else c as int - 'a' as int + 10
  }

  /** `/^[0-9a-f]{1,4}$/u` */
  predicate IsHexPiece(p: string) {
    1 <= |p| <= 4 && forall i :: 0 <= i < |p| ==> IsHexDigit(p[i])
  }

  /** `Number.parseInt(piece, 16)` */
  function ParseHex(p: string): nat
    requires forall i :: 0 <= i < |p| ==> IsHexDigit(p[i])
  {
    if p == "" then 0 else 16 * ParseHex(p[..|p| - 1]) + HexDigit(p[|p| - 1])
  }

  lemma {:induction false} ParseHexFits(p: string)
    requires |p| <= 4 && forall i :: 0 <= i < |p| ==> IsHexDigit(p[i])
    ensures ParseHex(p) < 0x1_0000
    ensures |p| <= 3 ==> ParseHex(p) < 0x1000
    ensures |p| <= 2 ==> ParseHex(p) < 0x100
    ensures |p| <= 1 ==> ParseHex(p) < 0x10
    ensures |p| <= 0 ==> ParseHex(p) == 0
  {
    if p != "" {
      ParseHexFits(p[..|p| - 1]);
    }
  }

  function HexChar(n: nat): (c: char)
    requires n < 16
    ensures IsHexDigit(c) && HexDigit(c) == n
  {
    if n < 10 then (n + '0' as int) as char else (n - 10 + 'a' as int) as char
  }

  /** The shortest spelling of a group. */
  function Hex(n: nat): (s: string)
    ensures s != "" && forall i :: 0 <= i < |s| ==> IsHexDigit(s[i])
  {
    if n < 16 then [HexChar(n)] else Hex(n / 16) + [HexChar(n % 16)]
  }

  /** Any group can be spelled with or without leading zeros, in up to four digits. */
  lemma {:induction false} HexRoundTrip(n: nat)
    ensures ParseHex(Hex(n)) == n
    ensures n < 0x1_0000 ==> |Hex(n)| <= 4
    ensures n < 0x1000 ==> |Hex(n)| <= 3
    ensures n < 0x100 ==> |Hex(n)| <= 2
    ensures n < 0x10 ==> |Hex(n)| <= 1
  {
    if n >= 16 {
      HexRoundTrip(n / 16);
      assert Hex(n)[..|Hex(n)| - 1] == Hex(n / 16);
    } else {
      assert Hex(n)[..0] == "";
      assert ParseHex("") == 0;
    }
  }

  lemma {:induction false} LeadingZeros(p: string)
    requires forall i :: 0 <= i < |p| ==> IsHexDigit(p[i])
    ensures ParseHex("0" + p) == ParseHex(p)
  {
    if p == "" {
      assert ("0" + p)[..0] == "" && ParseHex("") == 0;
    } else {
      assert ("0" + p)[..|p|] == "0" + p[..|p| - 1];
      LeadingZeros(p[..|p| - 1]);
    }
  }

  // ---------- ipv6Pieces ----------

  /** The two groups of a dotted quad: `(octets[0] << 8) | octets[1]` and so on. */
  function QuadGroups(quad: string): (r: seq<nat>)
    requires IsIp4(quad)
    ensures |r| == 2
  {
    var o := Octets(quad);
    [Or(ShiftLeft(o[0], 8), o[1]), Or(ShiftLeft(o[2], 8), o[3])]
  }

  /** What the pieces from here on add to the output; `None` where the loop returns undefined. */
  function PieceGroups(pieces: seq<string>): Option<seq<nat>> {
    if pieces == [] then Some([])
    else if '.' in pieces[0] then
      if |pieces| != 1 || !IsIp4(pieces[0]) then None else Some(QuadGroups(pieces[0]))
    else if !IsHexPiece(pieces[0]) then None
    else
      match PieceGroups(pieces[1..])
      case None => None
      case Some(rest) => Some([ParseHex(pieces[0])] + rest)
  }

  function PiecesOf(value: string): seq<string> {
    if value == "" then [] else Split(value, ':')
  }

  function After(output: seq<nat>, rest: Option<seq<nat>>): Option<seq<nat>> {
    if rest.None? then None else Some(output + rest.value)
  }

  lemma AfterNothing(rest: Option<seq<nat>>)
    ensures After([], rest) == rest
  {
    if rest.Some? {
      assert [] + rest.value == rest.value;
    }
  }

  /** One turn of the loop, on a piece that stands for one group. */
  lemma AfterOneGroup(pieces: seq<string>, index: nat, output: seq<nat>)
    requires index < |pieces| && '.' !in pieces[index] && IsHexPiece(pieces[index])
    ensures After(output, PieceGroups(pieces[index..]))
            == After(output + [ParseHex(pieces[index])], PieceGroups(pieces[index + 1..]))
  {
    assert pieces[index..][1..] == pieces[index + 1..];
    var rest := PieceGroups(pieces[index + 1..]);
    if rest.Some? {
      assert output + ([ParseHex(pieces[index])] + rest.value) == output + [ParseHex(pieces[index])] + rest.value;
    }
  }

  /** The loop over the pieces. */
  method Ipv6Pieces(value: string) returns (result: Option<seq<nat>>)
    ensures result == PieceGroups(PiecesOf(value))
  {
    hide IsIp4, ParseHex, QuadGroups, Split;
    if |value| == 0 {
      return Some([]);
    }
    var pieces := Split(value, ':');
    var output: seq<nat> := [];
    assert pieces[0..] == pieces;
    AfterNothing(PieceGroups(pieces));
    for index := 0 to |pieces|
      invariant PieceGroups(pieces) == After(output, PieceGroups(pieces[index..]))
    {
      var piece := pieces[index];
      if '.' in piece {
        if index != |pieces| - 1 || !IsIp4(piece) {
          return None;
        }
        output := output + QuadGroups(piece);
        assert pieces[index + 1..] == [];
        assert output + [] == output;
      } else {
        if !IsHexPiece(piece) {
          return None;
        }
        AfterOneGroup(pieces, index, output);
        output := output + [ParseHex(piece)];
      }
    }
    assert pieces[|pieces|..] == [];
    assert output + [] == output;
    return Some(output);
  }

  // ---------- expandIpv6 ----------

  predicate DoubleAt(s: string, i: int) {
    0 <= i < |s| - 1 && s[i] == ':' && s[i + 1] == ':'
  }

  /** `s.indexOf("::", from)` */
  function IndexOfDouble(s: string, from: nat): (r: int)
    ensures r == -1 || (from <= r && DoubleAt(s, r))
    ensures forall i :: from <= i && (r == -1 || i < r) ==> !DoubleAt(s, i)
    decreases |s| - from
  {
    if from + 1 >= |s| then -1 else if DoubleAt(s, from) then from else IndexOfDouble(s, from + 1)
  }

  function LowerChar(c: char): char {
    if 'A' <= c <= 'Z' then (c as int - 'A' as int + 'a' as int) as char else c
  }

  function ToLower(s: string): (r: string)
    ensures |r| == |s| && forall i :: 0 <= i < |s| ==> r[i] == LowerChar(s[i])
  {
    seq(|s|, i requires 0 <= i < |s| => LowerChar(s[i]))
  }

  function Zeros(n: nat): (r: seq<nat>)
    ensures |r| == n && forall i :: 0 <= i < n ==> r[i] == 0
  {
    seq(n, _ => 0)
  }

  /** The text the parser looks at: lower case, without a zone. */
  function Bare(value: string): string {
    Split(ToLower(value), '%')[0]
  }

  function Expand(text: string): Option<seq<nat>> {
    if text == "" then None
    else
      var separator := IndexOfDouble(text, 0);
      if separator != -1 && IndexOfDouble(text, separator + 1) != -1 then None
      else
        var left := PieceGroups(PiecesOf(if separator == -1 then text else text[..separator]));
        var right := PieceGroups(PiecesOf(if separator == -1 then "" else text[separator + 2..]));
        if left.None? || right.None? then None
        else
          var missing := 8 - |left.value| - |right.value|;
          if (separator == -1 && missing != 0) || (separator != -1 && missing < 1) then None
          else Some(left.value + Zeros(missing) + right.value)
  }

  function ExpandIpv6(value: string): Option<seq<nat>> {
    Expand(Bare(value))
  }

  // ---------- Spellings ----------

  /** A spelling of a group: one to four hexadecimal digits of that value. */
  predicate SpellsGroup(p: string, g: Group) {
    IsHexPiece(p) && ParseHex(p) == g
  }

  function DottedGroups(h: Group, l: Group): string {
    Dotted(h / 256, h % 256, l / 256, l % 256)
  }

  /** Pieces that spell groups one for one, or (dotted) the last two groups as a dotted quad. */
  predicate Spells(pieces: seq<string>, groups: seq<Group>, dotted: bool) {
    if !dotted then |pieces| == |groups| && forall i :: 0 <= i < |pieces| ==> SpellsGroup(pieces[i], groups[i])
    else
      && |pieces| > 0 && |groups| == |pieces| + 1
      && (forall i :: 0 <= i < |pieces| - 1 ==> SpellsGroup(pieces[i], groups[i]))
      && pieces[|pieces| - 1] == DottedGroups(groups[|groups| - 2], groups[|groups| - 1])
  }

  /** An address written out, or with one run of zero groups left out. */
  datatype Spelling =
    | Full(pieces: seq<string>, dotted: bool)
    | Compressed(left: seq<string>, leftDotted: bool, right: seq<string>, rightDotted: bool)

  function TextOf(sp: Spelling): string {
    match sp
    case Full(pieces, _) => Join(pieces, ':')
    case Compressed(left, _, right, _) => Join(left, ':') + "::" + Join(right, ':')
  }

  /** How many groups the pieces stand for. */
  function Width(pieces: seq<string>, dotted: bool): nat {
    |pieces| + if dotted then 1 else 0
  }

  ghost predicate Spelled(sp: Spelling, groups: seq<Group>) {
    && |groups| == 8
    && match sp
       case Full(pieces, dotted) => Spells(pieces, groups, dotted)
       case Compressed(left, leftDotted, right, rightDotted) =>
         var l, r := Width(left, leftDotted), Width(right, rightDotted);
         && l + r <= 7
         && Spells(left, groups[..l], leftDotted) && Spells(right, groups[8 - r..], rightDotted)
         && forall i :: l <= i < 8 - r ==> groups[i] == 0
  }

  /** Section 2.2 of RFC 4291 allows a dotted quad only at the very end. */
  ghost predicate Standard(sp: Spelling) {
    sp.Compressed? ==> !sp.leftDotted
  }

  // ---------- Every address has its spellings ----------

  lemma {:induction false} ZerosMayLead(p: string, zeros: nat)
    requires forall i :: 0 <= i < |p| ==> IsHexDigit(p[i])
    ensures ParseHex(seq(zeros, _ => '0') + p) == ParseHex(p)
    decreases zeros
  {
    if zeros == 0 {
      assert seq(0, _ => '0') + p == p;
    } else {
      var fewer: string := seq(zeros - 1, _ => '0');
      assert seq(zeros, _ => '0') + p == "0" + (fewer + p);
      ZerosMayLead(p, zeros - 1);
      LeadingZeros(fewer + p);
    }
  }

  /** A group in so many digits, as far as four allow. */
  function Padded(g: Group, width: nat): string {
    var hex := Hex(g);
    if |hex| < width <= 4 then seq(width - |hex|, _ => '0') + hex else hex
  }

  lemma PaddedSpells(g: Group, width: nat)
    ensures SpellsGroup(Padded(g, width), g)
  {
    HexRoundTrip(g);
    if |Hex(g)| < width <= 4 {
      ZerosMayLead(Hex(g), width - |Hex(g)|);
    }
  }

  /** The groups in hexadecimal, each with its own number of digits. */
  function HexPieces(groups: seq<Group>, widths: nat -> nat): (pieces: seq<string>)
    ensures |pieces| == |groups|
  {
    seq(|groups|, i requires 0 <= i < |groups| => Padded(groups[i], widths(i)))
  }

  /** The pieces of groups written in hexadecimal, the last two as a dotted quad if asked. */
  function PiecesFor(groups: seq<Group>, widths: nat -> nat, dotted: bool): seq<string>
    requires dotted ==> |groups| >= 2
  {
    if dotted
    then HexPieces(groups[..|groups| - 2], widths) + [DottedGroups(groups[|groups| - 2], groups[|groups| - 1])]
    else HexPieces(groups, widths)
  }

  lemma PiecesForSpells(groups: seq<Group>, widths: nat -> nat, dotted: bool)
    requires dotted ==> |groups| >= 2
    ensures Spells(PiecesFor(groups, widths, dotted), groups, dotted)
  {
    hide Padded, SpellsGroup;
    forall g: Group, w: nat ensures SpellsGroup(Padded(g, w), g) {
      PaddedSpells(g, w);
    }
  }

  /**
   Any eight groups can be written out, or with any run of zero groups left out, with or without
   a dotted tail, each group with any leading zeros that fit in four digits.
   */
  lemma EveryAddressIsSpelled(groups: seq<Group>, widths: nat -> nat, l: nat, r: nat, dotted: bool)
    requires |groups| == 8 && l + r <= 7 && (dotted ==> r >= 2) && forall i :: l <= i < 8 - r ==> groups[i] == 0
    ensures var sp := Full(PiecesFor(groups, widths, dotted), dotted); Spelled(sp, groups) && Standard(sp)
    ensures var sp := Compressed(PiecesFor(groups[..l], widths, false), false,
                                 PiecesFor(groups[8 - r..], widths, dotted), dotted);
      Spelled(sp, groups) && Standard(sp)
  {
    hide Hex, Dotted, Padded, SpellsGroup, HexPieces;
    PiecesForSpells(groups, widths, dotted);
    PiecesForSpells(groups[..l], widths, false);
    PiecesForSpells(groups[8 - r..], widths, dotted);
  }

  // ---------- Pieces and what they spell ----------

  lemma QuadGroupsOf(h: Group, l: Group)
    ensures IsIp4(DottedGroups(h, l)) && QuadGroups(DottedGroups(h, l)) == [h, l]
  {
    hide IsIp4, Dotted, Octets, Or, ShiftLeft;
    OctetsOfDotted(h / 256, h % 256, l / 256, l % 256);
    AppendOctet(h / 256, h % 256);
    AppendOctet(l / 256, l % 256);
  }

  lemma QuadIsDotted(quad: string) returns (h: Group, l: Group)
    requires IsIp4(quad)
    ensures quad == DottedGroups(h, l) && QuadGroups(quad) == [h, l]
  {
    Ip4IsDotted(quad);
    var o: seq<nat> := Octets(quad);
    h, l := o[0] * 256 + o[1], o[2] * 256 + o[3];
    assert h / 256 == o[0] && h % 256 == o[1];
    assert l / 256 == o[2] && l % 256 == o[3];
    hide IsIp4, Octets, Dotted, QuadGroups;
    QuadGroupsOf(h, l);
  }

  /** The characters a piece may have; none of them separates anything. */
  predicate IsPieceChar(c: char) {
    IsHexDigit(c) || c == '.'
  }

  predicate IsPiece(p: string) {
    p != "" && forall i :: 0 <= i < |p| ==> IsPieceChar(p[i])
  }

  lemma DecimalIsPiece(n: nat)
    ensures IsPiece(Decimal(n))
  {
  }

  lemma PiecesJoined(a: string, b: string)
    requires IsPiece(a) && IsPiece(b)
    ensures IsPiece(a + "." + b) && '.' in a + "." + b
  {
    assert (a + "." + b)[|a|] == '.';
  }

  lemma DottedIsPiece(a: Octet, b: Octet, c: Octet, d: Octet)
    ensures IsPiece(Dotted(a, b, c, d)) && '.' in Dotted(a, b, c, d)
  {
    var s, t, u, v := Decimal(a), Decimal(b), Decimal(c), Decimal(d);
    DecimalIsPiece(a);
    DecimalIsPiece(b);
    DecimalIsPiece(c);
    DecimalIsPiece(d);
    hide Decimal, IsPiece;
    assert [s, t, u, v][1..] == [t, u, v] && [t, u, v][1..] == [u, v] && [u, v][1..] == [v];
    assert Join([u, v], '.') == u + "." + v;
    assert Join([t, u, v], '.') == t + "." + (u + "." + v);
    assert Dotted(a, b, c, d) == s + "." + (t + "." + (u + "." + v));
    PiecesJoined(u, v);
    PiecesJoined(t, u + "." + v);
    PiecesJoined(s, t + "." + (u + "." + v));
  }

  lemma {:induction false} SpelledPieces(pieces: seq<string>, groups: seq<Group>, dotted: bool)
    requires Spells(pieces, groups, dotted)
    ensures PieceGroups(pieces) == Some(groups)
    ensures forall i :: 0 <= i < |pieces| ==> IsPiece(pieces[i])
  {
    if pieces != [] {
      if dotted && |pieces| == 1 {
        QuadGroupsOf(groups[0], groups[1]);
        DottedIsPiece(groups[0] / 256, groups[0] % 256, groups[1] / 256, groups[1] % 256);
        assert groups == [groups[0], groups[1]];
      } else {
        assert SpellsGroup(pieces[0], groups[0]);
        assert '.' !in pieces[0];
        SpelledPieces(pieces[1..], groups[1..], dotted);
        assert groups == [groups[0]] + groups[1..];
      }
    }
  }

  /** Whatever the loop accepts spells what it returns. */
  lemma {:induction false} AcceptedPieces(pieces: seq<string>) returns (dotted: bool)
    requires PieceGroups(pieces).Some?
    ensures var r := PieceGroups(pieces).value;
      (forall i :: 0 <= i < |r| ==> r[i] < 0x1_0000) && Spells(pieces, r, dotted)
    ensures dotted <==> pieces != [] && '.' in pieces[|pieces| - 1]
  {
    if pieces == [] {
      dotted := false;
    } else if '.' in pieces[0] {
      var h, l := QuadIsDotted(pieces[0]);
      dotted := true;
    } else {
      ParseHexFits(pieces[0]);
      dotted := AcceptedPieces(pieces[1..]);
    }
  }

  // ---------- Where the double colon is ----------

  ghost predicate NoDouble(s: string) {
    forall i :: !DoubleAt(s, i)
  }

  /** Neither end is a colon. */
  predicate PlainEnds(s: string) {
    s != "" ==> s[0] != ':' && s[|s| - 1] != ':'
  }

  predicate ArePieces(pieces: seq<string>) {
    forall i :: 0 <= i < |pieces| ==> IsPiece(pieces[i])
  }

  lemma {:induction false} JoinedPieces(pieces: seq<string>)
    requires ArePieces(pieces)
    ensures var s := Join(pieces, ':');
      && NoDouble(s) && PlainEnds(s) && (s == "" <==> pieces == [])
      && forall i :: 0 <= i < |s| ==> IsPieceChar(s[i]) || s[i] == ':'
  {
    if |pieces| > 1 {
      var tail := Join(pieces[1..], ':');
      JoinedPieces(pieces[1..]);
      var s, n := Join(pieces, ':'), |pieces[0]|;
      assert s == pieces[0] + ":" + tail;
      forall i ensures !DoubleAt(s, i) {
        if n < i < |s| - 1 {
          assert s[i] == tail[i - n - 1] && s[i + 1] == tail[i - n];
          assert !DoubleAt(tail, i - n - 1);
        }
      }
      assert s[|s| - 1] == tail[|tail| - 1];
    }
  }

  lemma JoinedLacks(pieces: seq<string>)
    requires ArePieces(pieces)
    ensures forall i :: 0 <= i < |pieces| ==> Lacks(pieces[i], ':')
  {
  }

  lemma PiecesOfJoin(pieces: seq<string>)
    requires ArePieces(pieces)
    ensures PiecesOf(Join(pieces, ':')) == pieces
  {
    JoinedPieces(pieces);
    if pieces != [] {
      JoinedLacks(pieces);
      SplitJoin(pieces, ':');
    }
  }

  lemma OneDouble(left: string, right: string)
    requires NoDouble(left) && NoDouble(right) && PlainEnds(left) && PlainEnds(right)
    ensures var s := left + "::" + right; forall i :: DoubleAt(s, i) <==> i == |left|
  {
    var s, n := left + "::" + right, |left|;
    forall i ensures DoubleAt(s, i) <==> i == n {
      if i == n {
        assert s[n] == ':' && s[n + 1] == ':';
      } else if 0 <= i < n - 1 {
        assert s[i] == left[i] && s[i + 1] == left[i + 1];
        assert !DoubleAt(left, i);
      } else if i == n - 1 && 0 <= i {
        assert s[i] == left[i];
      } else if i == n + 1 && i < |s| - 1 {
        assert s[i + 1] == right[0];
      } else if n + 1 < i < |s| - 1 {
        assert s[i] == right[i - n - 2] && s[i + 1] == right[i - n - 1];
        assert !DoubleAt(right, i - n - 2);
      }
    }
  }

  // ---------- The parser undoes every spelling ----------

  lemma ExpandFull(pieces: seq<string>, groups: seq<Group>, dotted: bool)
    requires |groups| == 8 && Spells(pieces, groups, dotted)
    ensures Expand(Join(pieces, ':')) == Some(groups)
  {
    hide Spells, PieceGroups;
    SpelledPieces(pieces, groups, dotted);
    assert ArePieces(pieces);
    JoinedPieces(pieces);
    PiecesOfJoin(pieces);
    assert pieces != [] by { SpellsSomething(pieces, groups, dotted); }
    assert PieceGroups(PiecesOf("")) == Some([]) by { NoPieces(); }
    assert groups + Zeros(0) + [] == groups;
  }

  lemma NoPieces()
    ensures PieceGroups(PiecesOf("")) == Some([])
  {
  }

  lemma SpellsSomething(pieces: seq<string>, groups: seq<Group>, dotted: bool)
    requires Spells(pieces, groups, dotted)
    ensures |groups| == Width(pieces, dotted)
  {
  }

  lemma DoubleFound(left: string, right: string)
    requires NoDouble(left) && NoDouble(right) && PlainEnds(left) && PlainEnds(right)
    ensures var s := left + "::" + right;
      IndexOfDouble(s, 0) == |left| && IndexOfDouble(s, |left| + 1) == -1
      && s[..|left|] == left && s[|left| + 2..] == right && s != ""
  {
    OneDouble(left, right);
    hide NoDouble, DoubleAt;
    var s := left + "::" + right;
    assert DoubleAt(s, |left|);
    var r := IndexOfDouble(s, 0);
    assert r == -1 ==> !DoubleAt(s, |left|);
    var r' := IndexOfDouble(s, |left| + 1);
    assert r' != -1 ==> DoubleAt(s, r');
  }

  lemma ExpandParts(left: string, right: string, l: seq<nat>, r: seq<nat>)
    requires NoDouble(left) && NoDouble(right) && PlainEnds(left) && PlainEnds(right)
    requires PieceGroups(PiecesOf(left)) == Some(l) && PieceGroups(PiecesOf(right)) == Some(r) && |l| + |r| <= 7
    ensures Expand(left + "::" + right) == Some(l + Zeros(8 - |l| - |r|) + r)
  {
    hide NoDouble, PlainEnds, PieceGroups, PiecesOf, IndexOfDouble;
    DoubleFound(left, right);
  }

  lemma ExpandCompressed(left: seq<string>, leftDotted: bool, right: seq<string>, rightDotted: bool, groups: seq<Group>)
    requires Spelled(Compressed(left, leftDotted, right, rightDotted), groups)
    ensures Expand(Join(left, ':') + "::" + Join(right, ':')) == Some(groups)
  {
    hide Spells, PieceGroups, Expand, Join, PiecesOf, NoDouble, PlainEnds, IsPiece;
    var l, r := Width(left, leftDotted), Width(right, rightDotted);
    SpelledPieces(left, groups[..l], leftDotted);
    SpelledPieces(right, groups[8 - r..], rightDotted);
    JoinedPieces(left);
    JoinedPieces(right);
    PiecesOfJoin(left);
    PiecesOfJoin(right);
    ExpandParts(Join(left, ':'), Join(right, ':'), groups[..l], groups[8 - r..]);
    assert groups == groups[..l] + Zeros(8 - r - l) + groups[8 - r..];
  }

  /** Any spelling of eight groups, standard or not, is read back as those groups. */
  lemma ExpandUndoesSpelling(sp: Spelling, groups: seq<Group>)
    requires Spelled(sp, groups)
    ensures Expand(TextOf(sp)) == Some(groups)
  {
    match sp
    case Full(pieces, dotted) => ExpandFull(pieces, groups, dotted);
    case Compressed(left, leftDotted, right, rightDotted) =>
      ExpandCompressed(left, leftDotted, right, rightDotted, groups);
  }

  // ---------- The parser accepts nothing but spellings ----------

  lemma JoinPieces(value: string)
    ensures Join(PiecesOf(value), ':') == value
  {
    if value != "" {
      JoinSplit(value, ':');
    }
  }

  /** A dot stands only in a dotted quad. */
  lemma {:induction false} DotsAreQuads(pieces: seq<string>, groups: seq<Group>, dotted: bool)
    requires Spells(pieces, groups, dotted)
    ensures '.' in Join(pieces, ':') <==> dotted
  {
    if pieces != [] {
      var p := pieces[0];
      if dotted && |pieces| == 1 {
        DottedIsPiece(groups[0] / 256, groups[0] % 256, groups[1] / 256, groups[1] % 256);
      } else {
        assert SpellsGroup(p, groups[0]) && '.' !in p;
        DotsAreQuads(pieces[1..], groups[1..], dotted);
        if |pieces| > 1 {
          var tail := Join(pieces[1..], ':');
          assert '.' in p + ":" + tail <==> '.' in tail by { DotInTail(p, tail); }
        }
      }
    }
  }

  lemma DotInTail(p: string, tail: string)
    requires '.' !in p
    ensures '.' in p + ":" + tail <==> '.' in tail
  {
    var s := p + ":" + tail;
    if '.' in tail {
      var i :| 0 <= i < |tail| && tail[i] == '.';
      assert s[|p| + 1 + i] == '.';
    }
    if '.' in s {
      var i :| 0 <= i < |s| && s[i] == '.';
      assert i > |p| && tail[i - |p| - 1] == '.';
    }
  }

  /** A dotted quad before the double colon: the one thing the parser accepts beyond the RFC. */
  predicate DottedLeft(text: string) {
    var i := IndexOfDouble(text, 0);
    i != -1 && '.' in text[..i]
  }

  lemma AcceptedFull(text: string) returns (sp: Spelling)
    requires Expand(text).Some? && IndexOfDouble(text, 0) == -1
    ensures var groups := Expand(text).value;
      (forall i :: 0 <= i < |groups| ==> groups[i] < 0x1_0000)
      && Spelled(sp, groups) && TextOf(sp) == text && Standard(sp)
  {
    hide Spells, PieceGroups, PiecesOf;
    assert PieceGroups(PiecesOf("")) == Some([]) by { NoPieces(); }
    var dotted := AcceptedPieces(PiecesOf(text));
    var left := PieceGroups(PiecesOf(text)).value;
    assert left + Zeros(0) + [] == left;
    JoinPieces(text);
    sp := Full(PiecesOf(text), dotted);
  }

  /** A text cut at its double colon. */
  lemma CutAtDouble(text: string)
    requires IndexOfDouble(text, 0) != -1
    ensures var i := IndexOfDouble(text, 0);
      0 <= i <= i + 2 <= |text| && text == text[..i] + "::" + text[i + 2..]
  {
    hide IndexOfDouble, DoubleAt;
    CutAt(text, IndexOfDouble(text, 0));
  }

  lemma CutAt(text: string, i: int)
    requires DoubleAt(text, i)
    ensures 0 <= i <= i + 2 <= |text| && text == text[..i] + "::" + text[i + 2..]
  {
    assert text[i..i + 2] == "::";
  }

  lemma AcceptedCompressed(text: string) returns (sp: Spelling)
    requires Expand(text).Some? && IndexOfDouble(text, 0) != -1
    ensures var groups := Expand(text).value;
      (forall i :: 0 <= i < |groups| ==> groups[i] < 0x1_0000)
      && Spelled(sp, groups) && TextOf(sp) == text && (Standard(sp) <==> !DottedLeft(text))
  {
    hide Spells, PieceGroups, PiecesOf, IndexOfDouble;
    CutAtDouble(text);
    var i := IndexOfDouble(text, 0);
    var left, right := PiecesOf(text[..i]), PiecesOf(text[i + 2..]);
    var leftDotted := AcceptedPieces(left);
    var rightDotted := AcceptedPieces(right);
    var l, r := PieceGroups(left).value, PieceGroups(right).value;
    var groups := Expand(text).value;
    assert groups == l + Zeros(8 - |l| - |r|) + r;
    SpellsSomething(left, l, leftDotted);
    SpellsSomething(right, r, rightDotted);
    assert groups[..|l|] == l && groups[8 - |r|..] == r;
    JoinPieces(text[..i]);
    JoinPieces(text[i + 2..]);
    DotsAreQuads(left, l, leftDotted);
    sp := Compressed(left, leftDotted, right, rightDotted);
  }

  ghost predicate SpelledAs(text: string, groups: seq<Group>, sp: Spelling) {
    Spelled(sp, groups) && TextOf(sp) == text
  }

  /** `expandIpv6` gives eight groups, each below 65536, exactly for the texts that spell them. */
  lemma ExpandIsSpelling(text: string, groups: seq<nat>)
    ensures Expand(text) == Some(groups) <==>
            && |groups| == 8 && (forall i :: 0 <= i < 8 ==> groups[i] < 0x1_0000)
            && exists sp :: SpelledAs(text, groups, sp)
  {
    hide Spelled, Expand, TextOf;
    if Expand(text) == Some(groups) {
      var sp := AcceptedSpelling(text);
      EightGroups(sp, groups);
      assert SpelledAs(text, groups, sp);
    }
    if |groups| == 8 && (forall i :: 0 <= i < 8 ==> groups[i] < 0x1_0000) && exists sp :: SpelledAs(text, groups, sp) {
      var sp :| SpelledAs(text, groups, sp);
      ExpandUndoesSpelling(sp, groups);
    }
  }

  lemma EightGroups(sp: Spelling, groups: seq<Group>)
    requires Spelled(sp, groups)
    ensures |groups| == 8
  {
  }

  lemma AcceptedSpelling(text: string) returns (sp: Spelling)
    requires Expand(text).Some?
    ensures var groups := Expand(text).value;
      (forall i :: 0 <= i < |groups| ==> groups[i] < 0x1_0000)
      && Spelled(sp, groups) && TextOf(sp) == text && (Standard(sp) <==> !DottedLeft(text))
  {
    hide Spelled, Expand, TextOf, IndexOfDouble, Standard;
    if IndexOfDouble(text, 0) == -1 {
      sp := AcceptedFull(text);
    } else {
      sp := AcceptedCompressed(text);
    }
  }

  ghost predicate StandardSpelling(text: string, groups: seq<Group>, sp: Spelling) {
    SpelledAs(text, groups, sp) && Standard(sp)
  }

  /** Node's `isIP(text) === 6` for lower-case text without a zone: the grammar of RFC 4291. */
  ghost predicate IsIp6(text: string) {
    exists groups, sp :: StandardSpelling(text, groups, sp)
  }

  lemma FullIsNotDottedLeft(pieces: seq<string>, dotted: bool, groups: seq<Group>)
    requires Spells(pieces, groups, dotted)
    ensures !DottedLeft(Join(pieces, ':'))
  {
    hide Spells, PieceGroups, Join, IsPiece, IndexOfDouble;
    SpelledPieces(pieces, groups, dotted);
    JoinedPieces(pieces);
  }

  lemma CompressedIsNotDottedLeft(left: seq<string>, right: seq<string>, rightDotted: bool, groups: seq<Group>)
    requires Spelled(Compressed(left, false, right, rightDotted), groups)
    ensures !DottedLeft(Join(left, ':') + "::" + Join(right, ':'))
  {
    hide Spells, PieceGroups, Join, IsPiece, IndexOfDouble, NoDouble, PlainEnds;
    var l, r := Width(left, false), Width(right, rightDotted);
    SpelledPieces(left, groups[..l], false);
    SpelledPieces(right, groups[8 - r..], rightDotted);
    DotsAreQuads(left, groups[..l], false);
    JoinedPieces(left);
    JoinedPieces(right);
    DoubleFound(Join(left, ':'), Join(right, ':'));
  }

  lemma StandardIsNotDottedLeft(text: string, groups: seq<Group>, sp: Spelling)
    requires StandardSpelling(text, groups, sp)
    ensures !DottedLeft(text) && Expand(text) == Some(groups)
  {
    hide Expand, DottedLeft, Spells;
    ExpandUndoesSpelling(sp, groups);
    match sp
    case Full(pieces, dotted) => FullIsNotDottedLeft(pieces, dotted, groups);
    case Compressed(left, _, right, rightDotted) => CompressedIsNotDottedLeft(left, right, rightDotted, groups);
  }

  /** The parser accepts the RFC's addresses and, beyond them, exactly the dotted-left form. */
  lemma ParserVersusStandard(text: string)
    ensures IsIp6(text) <==> Expand(text).Some? && !DottedLeft(text)
  {
    hide Spelled, Expand, TextOf, DottedLeft, Standard;
    if IsIp6(text) {
      var groups, sp :| StandardSpelling(text, groups, sp);
      StandardIsNotDottedLeft(text, groups, sp);
    }
    if Expand(text).Some? && !DottedLeft(text) {
      var sp := AcceptedSpelling(text);
      assert StandardSpelling(text, Expand(text).value, sp);
    }
  }

  lemma LoneQuad(h: Group, l: Group)
    ensures var quad := DottedGroups(h, l);
      && Spelled(Compressed([quad], true, [], false), [h, l, 0, 0, 0, 0, 0, 0])
      && Join([quad], ':') == quad && quad + "::" + Join([], ':') == quad + "::"
  {
    hide Dotted;
    var groups: seq<Group> := [h, l, 0, 0, 0, 0, 0, 0];
    assert groups[8..] == [] && groups[..2] == [h, l];
  }

  /** The parser's own form: 1.2.3.4:: is no address, yet it is read as the quad's groups and six zeros. */
  lemma DottedLeftIsAccepted(h: Group, l: Group)
    ensures Expand(DottedGroups(h, l) + "::") == Some([h, l, 0, 0, 0, 0, 0, 0])
    ensures !IsIp6(DottedGroups(h, l) + "::")
  {
    hide Dotted, Expand, Spelled, IsIp6;
    var quad := DottedGroups(h, l);
    LoneQuad(h, l);
    ExpandUndoesSpelling(Compressed([quad], true, [], false), [h, l, 0, 0, 0, 0, 0, 0]);
    QuadGroupsOf(h, l);
    DottedIsPiece(h / 256, h % 256, l / 256, l % 256);
    JoinedPieces([quad]);
    hide Join;
    DoubleFound(quad, "");
    assert quad + "::" + "" == quad + "::";
    ParserVersusStandard(quad + "::");
  }
}
