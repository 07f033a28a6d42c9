/**
 Reading the JSON text that `Json.Write` prints: the values and strings of RFC 8259, sections 3
 to 8, without the insignificant whitespace the printer never writes. The reader undoes the
 printer.
 */
module JsonReader {
  import opened Wrappers
  import opened Text
  import opened Json

  datatype Taken<T> = Taken(value: T, rest: string)

  // ---------- Strings ----------

  function HexValue(c: char): (v: Option<nat>)
    ensures v.Some? ==> v.value < 16
  {
    if '0' <= c <= '9' then Some(c as int - '0' as int)
    else if 'a' <= c <= 'f' then Some(c as int - 'a' as int + 10)
    else if 'A' <= c <= 'F' then Some(c as int - 'A' as int + 10)
    else None
  }

  /** The number four hexadecimal digits spell. */
  function CodeOf(s: string): Option<nat>
    requires |s| >= 4
  {
    var a, b, c, d := HexValue(s[0]), HexValue(s[1]), HexValue(s[2]), HexValue(s[3]);
    if a.None? || b.None? || c.None? || d.None? then None
    else Some(4096 * a.value + 256 * b.value + 16 * c.value + d.value)
  }

  /** The character after a backslash. */
  function TakeEscape(s: string): (r: Option<Taken<char>>)
    ensures r.Some? ==> |r.value.rest| < |s|
  {
    if s == "" then None
    else if s[0] == '"' || s[0] == '\\' || s[0] == '/' then Some(Taken(s[0], s[1..]))
    else if s[0] == 'b' then Some(Taken(8 as char, s[1..]))
    else if s[0] == 'f' then Some(Taken(12 as char, s[1..]))
    else if s[0] == 'n' then Some(Taken('\n', s[1..]))
    else if s[0] == 'r' then Some(Taken('\r', s[1..]))
    else if s[0] == 't' then Some(Taken('\t', s[1..]))
    else if s[0] == 'u' && |s| >= 5 then
      var code := CodeOf(s[1..]);
      if code.Some? && code.value < 0xD800 then Some(Taken(code.value as char, s[5..])) else None
    else None
  }

  function TakeChar(s: string): (r: Option<Taken<char>>)
    ensures r.Some? ==> |r.value.rest| < |s|
  {
    if s == "" || s[0] as int < 32 then None
    else if s[0] == '\\' then TakeEscape(s[1..])
    else Some(Taken(s[0], s[1..]))
  }

  /** The rest of a string after its opening quote. */
  function TakeString(s: string): (r: Option<Taken<string>>)
    ensures r.Some? ==> |r.value.rest| < |s|
    decreases |s|
  {
    if s == "" then None
    else if s[0] == '"' then Some(Taken("", s[1..]))
    else
      var first := TakeChar(s);
      if first.None? then None
      else
        var more := TakeString(first.value.rest);
        if more.None? then None else Some(Taken([first.value.value] + more.value.value, more.value.rest))
  }

  // ---------- Numbers and words ----------

  /** How many of the first characters a number can have. */
  function NumberLength(s: string): (n: nat)
    ensures n <= |s|
    ensures forall i :: 0 <= i < n ==> IsNumberChar(s[i])
    ensures n < |s| ==> !IsNumberChar(s[n])
  {
    if s == "" || !IsNumberChar(s[0]) then 0 else 1 + NumberLength(s[1..])
  }

  function ReadInt(text: string): Option<int> {
    if IsDecimal(text) then Some(ReadDecimal(text))
    else if text != "" && text[0] == '-' && IsDecimal(text[1..]) then
      var n: int := ReadDecimal(text[1..]);
      Some(-n)
    else None
  }

  function TakeNumber(s: string): (r: Option<Taken<Json>>)
    ensures r.Some? && s != "" && IsNumberChar(s[0]) ==> |r.value.rest| < |s|
  {
    var n := NumberLength(s);
    var text, rest := s[..n], s[n..];
    if '.' in text || 'e' in text then Some(Taken(OtherNumber(text), rest))
    else if ReadInt(text).Some? then Some(Taken(Int(ReadInt(text).value), rest))
    else None
  }

  function TakeWord(s: string, word: string, value: Json): (r: Option<Taken<Json>>)
    ensures r.Some? && word != "" ==> |r.value.rest| < |s|
  {
    if word <= s then Some(Taken(value, s[|word|..])) else None
  }

  // ---------- Values ----------

  function TakeValue(s: string): (r: Option<Taken<Json>>)
    ensures r.Some? ==> |r.value.rest| < |s|
    decreases |s|, 0
  {
    if s == "" then None
    else if s[0] == 'n' then TakeWord(s, "null", Null)
    else if s[0] == 't' then TakeWord(s, "true", Bool(true))
    else if s[0] == 'f' then TakeWord(s, "false", Bool(false))
    else if IsNumberChar(s[0]) then TakeNumber(s)
    else if s[0] == '"' then
      var text := TakeString(s[1..]);
      if text.None? then None else Some(Taken(Str(text.value.value), text.value.rest))
    else if s[0] == '[' then
      if |s| > 1 && s[1] == ']' then Some(Taken(Arr([]), s[2..]))
      else
        var items := TakeItems(s[1..]);
        if items.None? then None else Some(Taken(Arr(items.value.value), items.value.rest))
    else if s[0] == '{' then
      if |s| > 1 && s[1] == '}' then Some(Taken(Obj([]), s[2..]))
      else
        var fields := TakeFields(s[1..]);
        if fields.None? then None else Some(Taken(Obj(fields.value.value), fields.value.rest))
    else None
  }

  /** One item or more, and the closing bracket. */
  function TakeItems(s: string): (r: Option<Taken<seq<Json>>>)
    ensures r.Some? ==> |r.value.rest| < |s|
    decreases |s|, 1
  {
    var first := TakeValue(s);
    if first.None? || first.value.rest == "" then None
    else
      var rest := first.value.rest;
      if rest[0] == ']' then Some(Taken([first.value.value], rest[1..]))
      else if rest[0] == ',' then
        var more := TakeItems(rest[1..]);
        if more.None? then None else Some(Taken([first.value.value] + more.value.value, more.value.rest))
      else None
  }

  /** A key, its colon and its value. */
  function TakeField(s: string): (r: Option<Taken<Field>>)
    ensures r.Some? ==> |r.value.rest| < |s|
    decreases |s|, 1
  {
    if s == "" || s[0] != '"' then None
    else
      var key := TakeString(s[1..]);
      if key.None? || key.value.rest == "" || key.value.rest[0] != ':' then None
      else
        var value := TakeValue(key.value.rest[1..]);
        if value.None? then None else Some(Taken(Field(key.value.value, value.value.value), value.value.rest))
  }

  /** One field or more, and the closing brace. */
  function TakeFields(s: string): (r: Option<Taken<seq<Field>>>)
    ensures r.Some? ==> |r.value.rest| < |s|
    decreases |s|, 2
  {
    var first := TakeField(s);
    if first.None? || first.value.rest == "" then None
    else
      var rest := first.value.rest;
      if rest[0] == '}' then Some(Taken([first.value.value], rest[1..]))
      else if rest[0] == ',' then
        var more := TakeFields(rest[1..]);
        if more.None? then None else Some(Taken([first.value.value] + more.value.value, more.value.rest))
      else None
  }

  /** The whole text is one value. */
  function Parse(s: string): Option<Json> {
    var r := TakeValue(s);
    if r.Some? && r.value.rest == "" then Some(r.value.value) else None
  }

  // ---------- The reader undoes the printer ----------

  lemma HexDigitValue(n: nat)
    requires n < 16
    ensures HexValue(HEX_DIGITS[n]) == Some(n)
  {
  }

  lemma LongEscapeIsRead(c: char, x: string)
    requires EscapeKind(c) == Some('u')
    ensures TakeEscape(EscapedChar(c)[1..] + x) == Some(Taken(c, x))
  {
    var s := EscapedChar(c)[1..] + x;
    var n := c as int;
    assert n < 32;
    HexDigitValue(n / 16);
    HexDigitValue(n % 16);
    assert s == "u00" + [HEX_DIGITS[n / 16], HEX_DIGITS[n % 16]] + x;
    assert s[1..][0] == '0' && s[1..][1] == '0' && s[1..][2] == HEX_DIGITS[n / 16] && s[1..][3] == HEX_DIGITS[n % 16];
    assert CodeOf(s[1..]) == Some(16 * (n / 16) + n % 16);
    assert s[5..] == x;
  }

  lemma ShortEscapeIsRead(c: char, x: string)
    requires EscapeKind(c).Some? && EscapeKind(c) != Some('u')
    ensures TakeEscape(EscapedChar(c)[1..] + x) == Some(Taken(c, x))
  {
    var s := EscapedChar(c)[1..] + x;
    assert s[0] == EscapedChar(c)[1] && s[1..] == x;
  }

  lemma CharIsRead(c: char, x: string)
    ensures EscapedChar(c) != "" && EscapedChar(c)[0] != '"'
    ensures TakeChar(EscapedChar(c) + x) == Some(Taken(c, x))
  {
    var s := EscapedChar(c) + x;
    if EscapeKind(c).None? {
      assert s[0] == c && s[1..] == x && c as int >= 32;
    } else {
      assert s[1..] == EscapedChar(c)[1..] + x && s[0] == '\\';
      if EscapeKind(c) == Some('u') {
        LongEscapeIsRead(c, x);
      } else {
        ShortEscapeIsRead(c, x);
      }
    }
  }

  lemma {:induction false} StringIsRead(t: string, x: string)
    ensures TakeString(Escaped(t) + "\"" + x) == Some(Taken(t, x))
  {
    var s := Escaped(t) + "\"" + x;
    if t == "" {
      assert s == "\"" + x && s[1..] == x;
    } else {
      var rest := Escaped(t[1..]) + "\"" + x;
      assert s == EscapedChar(t[0]) + rest;
      CharIsRead(t[0], rest);
      StringIsRead(t[1..], x);
      assert t == [t[0]] + t[1..];
    }
  }

  lemma NumberIsCut(p: string, x: string)
    requires (forall i :: 0 <= i < |p| ==> IsNumberChar(p[i])) && Ends(x)
    ensures NumberLength(p + x) == |p| && (p + x)[..|p|] == p && (p + x)[|p|..] == x
  {
    var n := NumberLength(p + x);
    CharAt(p, x, |p|);
    if n < |p| {
      CharAt(p, x, n);
    }
  }

  lemma IntIsRead(n: int)
    ensures ReadInt(WriteInt(n)) == Some(n)
  {
    hide Decimal, ReadDecimal, IsDecimal;
    if n < 0 {
      SignedIsRead(Decimal(-n));
      DecimalRoundTrip(-n);
    } else {
      DecimalRoundTrip(n);
    }
  }

  lemma SignedIsRead(digits: string)
    requires IsDecimal(digits)
    ensures var s := "-" + digits; !IsDecimal(s) && s[0] == '-' && s[1..] == digits
  {
    assert ("-" + digits)[0] == '-';
  }

  lemma NumberIsRead(j: Json, x: string)
    requires ShapeOf(j).ANumber? && Ends(x)
    ensures TakeNumber(Write(j) + x) == Some(Taken(j, x))
  {
    hide ReadInt, WriteInt;
    if j.Int? {
      IntText(j.n);
      IntIsRead(j.n);
    }
    NumberIsCut(Write(j), x);
  }

  lemma WordIsRead(word: string, x: string, value: Json)
    ensures TakeWord(word + x, word, value) == Some(Taken(value, x))
  {
  }

  /** The first character of a written value, and what the reader does there. */
  lemma FirstChar(j: Json, x: string)
    ensures var s := Write(j) + x; s != "" && ShapeAt(s[0]) == Some(ShapeOf(j))
  {
    WriteStarts(j);
    hide Write, ShapeAt;
  }

  lemma {:induction false} ValueIsRead(j: Json, x: string)
    requires Ends(x)
    ensures TakeValue(Write(j) + x) == Some(Taken(j, x))
    decreases j, 0
  {
    FirstChar(j, x);
    TextSplits(j, x);
    hide Write, Escaped, WriteItems, WriteFields, Ends, TakeItems, TakeFields, TakeString, TakeNumber, TakeWord;
    var s := Write(j) + x;
    match j
    case Null => WordIsRead("null", x, j);
    case Bool(b) => WordIsRead(if b then "true" else "false", x, j);
    case Int(_) => NumberIsRead(j, x);
    case OtherNumber(_) => NumberIsRead(j, x);
    case Str(t) =>
      StringIsRead(t, x);
      assert s[1..] == Escaped(t) + "\"" + x;
    case Arr(items) =>
      ItemsStart(items, x);
      assert s[1..] == WriteItems(items) + "]" + x;
      if items == [] {
        assert s[1] == ']' && s[2..] == x;
      } else {
        assert s[1] == s[1..][0];
        ItemsAreRead(items, x);
      }
    case Obj(fields) =>
      FieldsStart(fields, x);
      assert s[1..] == WriteFields(fields) + "}" + x;
      if fields == [] {
        assert s[1] == '}' && s[2..] == x;
      } else {
        assert s[1] == s[1..][0];
        FieldsAreRead(fields, x);
      }
  }

  lemma AfterItemStarts(items: seq<Json>, x: string)
    requires items != []
    ensures var s := AfterItem(items, x);
      && s != "" && s[0] == (if |items| == 1 then ']' else ',')
      && s[1..] == if |items| == 1 then x else WriteItems(items[1..]) + "]" + x
  {
    hide WriteItems;
  }

  lemma {:induction false} ItemsAreRead(items: seq<Json>, x: string)
    requires items != []
    ensures TakeItems(WriteItems(items) + "]" + x) == Some(Taken(items, x))
    decreases items
  {
    ItemsSplit(items, x);
    AfterItemEnds(items, x);
    AfterItemStarts(items, x);
    hide Write, WriteItems, AfterItem, Ends, TakeValue;
    ValueIsRead(items[0], AfterItem(items, x));
    assert items == [items[0]] + items[1..] && (|items| == 1 ==> items == [items[0]]);
    if |items| > 1 {
      ItemsAreRead(items[1..], x);
    }
  }

  lemma AfterFieldStarts(fields: seq<Field>, x: string)
    requires fields != []
    ensures var s := AfterField(fields, x);
      && s != "" && s[0] == (if |fields| == 1 then '}' else ',')
      && s[1..] == if |fields| == 1 then x else WriteFields(fields[1..]) + "}" + x
  {
    hide WriteFields;
  }

  lemma AfterKeyStarts(fields: seq<Field>, x: string)
    requires fields != []
    ensures var s := AfterKey(fields, x);
      s != "" && s[0] == ':' && s[1..] == Write(fields[0].value) + AfterField(fields, x)
  {
    hide Write, AfterField;
  }

  /** One field is taken: it was the last, or the others follow. */
  lemma TakingFields(s: string, first: Field, rest: string)
    requires TakeField(s) == Some(Taken(first, rest)) && rest != ""
    ensures rest[0] == '}' ==> TakeFields(s) == Some(Taken([first], rest[1..]))
    ensures var more := TakeFields(rest[1..]);
      rest[0] == ',' && more.Some? ==> TakeFields(s) == Some(Taken([first] + more.value.value, more.value.rest))
  {
    hide TakeField;
  }

  /** A key, its colon, and a value that is read. */
  lemma FieldIsRead(field: Field, colon: string, rest: string)
    requires colon != "" && colon[0] == ':' && TakeValue(colon[1..]) == Some(Taken(field.value, rest))
    ensures TakeField("\"" + (Escaped(field.key) + "\"" + colon)) == Some(Taken(field, rest))
  {
    hide Escaped, TakeString, TakeValue;
    var text := Escaped(field.key) + "\"" + colon;
    assert ("\"" + text)[0] == '"' && ("\"" + text)[1..] == text;
    StringIsRead(field.key, colon);
  }

  lemma {:induction false} FieldsAreRead(fields: seq<Field>, x: string)
    requires fields != []
    ensures TakeFields(WriteFields(fields) + "}" + x) == Some(Taken(fields, x))
    decreases fields
  {
    hide Write, WriteFields, AfterField, AfterKey, Escaped, Ends, TakeValue, TakeString, TakeField, TakeFields;
    var s, rest := WriteFields(fields) + "}" + x, AfterField(fields, x);
    assert TakeField(s) == Some(Taken(fields[0], rest)) by {
      FieldsSplit(fields, x);
      AfterFieldEnds(fields, x);
      AfterKeyStarts(fields, x);
      ValueIsRead(fields[0].value, rest);
      FieldIsRead(fields[0], AfterKey(fields, x), rest);
    }
    AfterFieldStarts(fields, x);
    TakingFields(s, fields[0], rest);
    assert fields == [fields[0]] + fields[1..] && (|fields| == 1 ==> fields == [fields[0]]);
    if |fields| > 1 {
      FieldsAreRead(fields[1..], x);
    }
  }

  /** What is printed is read back as the same value. */
  lemma ParseUndoesWrite(j: Json)
    ensures Parse(Write(j)) == Some(j)
  {
    hide Write, TakeValue;
    assert Write(j) + "" == Write(j);
    ValueIsRead(j, "");
  }

  /** So two values with the same JSON text are the same value. */
  lemma TextDeterminesValue(a: Json, b: Json)
    requires Write(a) == Write(b)
    ensures a == b
  {
    hide Write, Parse;
    ParseUndoesWrite(a);
    ParseUndoesWrite(b);
  }
}
