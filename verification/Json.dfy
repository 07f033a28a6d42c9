/**
 The value shape run events carry, and `JSON.stringify` for it (section 7 of RFC 8259 for
 strings). Integers are kept as unbounded numbers; every other finite number is kept as the
 text JavaScript prints for it.
 */
module Json {
  import opened Wrappers
  import opened Text

  type NumberText = s: string | IsNumberText(s) witness "0.5"

  predicate IsNumberChar(c: char) {
    '0' <= c <= '9' || c == '.' || c == 'e' || c == '+' || c == '-'
  }

  /** The text of a number that is not printed as an integer: it has a point or an exponent. */
  predicate IsNumberText(s: string) {
    (forall i :: 0 <= i < |s| ==> IsNumberChar(s[i])) && ('.' in s || 'e' in s)
  }

  datatype Field = Field(key: string, value: Json)

  datatype Json =
    | Null
    | Bool(b: bool)
    | Int(n: int)
    | OtherNumber(text: NumberText)
    | Str(s: string)
    | Arr(items: seq<Json>)
    | Obj(fields: seq<Field>)

  const HEX_DIGITS := "0123456789abcdef"

  function EscapedChar(c: char): string {
    if c == '"' then "\\\""
    else if c == '\\' then "\\\\"
    else if c as int == 8 then "\\b"
    else if c == '\t' then "\\t"
    else if c == '\n' then "\\n"
    else if c as int == 12 then "\\f"
    else if c == '\r' then "\\r"
    else if c as int < 32 then "\\u00" + [HEX_DIGITS[c as int / 16], HEX_DIGITS[c as int % 16]]
    else [c]
  }

  function Escaped(s: string): string {
    if s == "" then "" else EscapedChar(s[0]) + Escaped(s[1..])
  }

  function WriteInt(n: int): string {
    if n < 0 then "-" + Decimal(-n) else Decimal(n)
  }

  function Write(j: Json): string
    decreases j, 0
  {
    match j
    case Null => "null"
    case Bool(b) => if b then "true" else "false"
    case Int(n) => WriteInt(n)
    case OtherNumber(text) => text
    case Str(s) => "\"" + Escaped(s) + "\""
    case Arr(items) => "[" + WriteItems(items) + "]"
    case Obj(fields) => "{" + WriteFields(fields) + "}"
  }

  function WriteItems(items: seq<Json>): string
    decreases items
  {
    if items == [] then ""
    else if |items| == 1 then Write(items[0])
    else Write(items[0]) + "," + WriteItems(items[1..])
  }

  function WriteFields(fields: seq<Field>): string
    decreases fields
  {
    if fields == [] then ""
    else
      var first := "\"" + Escaped(fields[0].key) + "\":" + Write(fields[0].value);
      if |fields| == 1 then first else first + "," + WriteFields(fields[1..])
  }

  // ---------- No raw line break, anywhere ----------

  predicate OneLine(s: string) {
    Lacks(s, '\n') && Lacks(s, '\r')
  }

  lemma OneLineConcat(a: string, b: string)
    requires OneLine(a) && OneLine(b)
    ensures OneLine(a + b)
  {
  }

  lemma EscapedCharIsOneLine(c: char)
    ensures OneLine(EscapedChar(c))
  {
    if c as int < 32 {
      assert forall i :: 0 <= i < 16 ==> HEX_DIGITS[i] != '\n' && HEX_DIGITS[i] != '\r';
    }
  }

  lemma {:induction false} EscapedIsOneLine(s: string)
    ensures OneLine(Escaped(s))
  {
    if s != "" {
      EscapedCharIsOneLine(s[0]);
      EscapedIsOneLine(s[1..]);
      OneLineConcat(EscapedChar(s[0]), Escaped(s[1..]));
    }
  }

  /** Whatever the event carries, its JSON text is one line. */
  lemma {:induction false} WriteIsOneLine(j: Json)
    ensures OneLine(Write(j))
    decreases j, 0
  {
    match j
    case Null =>
    case Bool(_) =>
    case Int(n) =>
    case OtherNumber(_) =>
    case Str(s) => EscapedIsOneLine(s);
    case Arr(items) => WriteItemsIsOneLine(items);
    case Obj(fields) => WriteFieldsIsOneLine(fields);
  }

  lemma {:induction false} WriteItemsIsOneLine(items: seq<Json>)
    ensures OneLine(WriteItems(items))
    decreases items
  {
    if items != [] {
      WriteIsOneLine(items[0]);
      WriteItemsIsOneLine(items[1..]);
    }
  }

  lemma {:induction false} WriteFieldsIsOneLine(fields: seq<Field>)
    ensures OneLine(WriteFields(fields))
    decreases fields
  {
    if fields != [] {
      EscapedIsOneLine(fields[0].key);
      WriteIsOneLine(fields[0].value);
      WriteFieldsIsOneLine(fields[1..]);
    }
  }

  // ---------- How the text of a value is put together ----------

  /** What may follow a value: nothing, or a separator or bracket. */
  predicate Ends(x: string) {
    x == "" || x[0] == ',' || x[0] == ']' || x[0] == '}'
  }

  lemma CharAt(p: string, x: string, i: nat)
    ensures i < |p| ==> (p + x)[i] == p[i]
    ensures i == |p| && x != "" ==> (p + x)[i] == x[0]
  {
  }

  lemma IntText(n: int)
    ensures var s := WriteInt(n);
      && s != "" && (forall i :: 0 <= i < |s| ==> IsNumberChar(s[i])) && '.' !in s && 'e' !in s
      && (s[0] == '-' <==> n < 0)
  {
  }

  /** The second character of an escape; 'u' stands for the control characters without a short one. */
  function EscapeKind(c: char): (k: Option<char>)
    ensures k.Some? <==> EscapedChar(c) != [c]
    ensures k.None? ==> EscapedChar(c) == [c] && c != '\\' && c != '"'
    ensures k.Some? ==> |EscapedChar(c)| >= 2 && EscapedChar(c)[0] == '\\' && EscapedChar(c)[1] == k.value
    ensures k == Some('u') <==> |EscapedChar(c)| == 6
    ensures k.Some? && k != Some('u') ==> |EscapedChar(c)| == 2
  {
    if c == '"' then Some('"')
    else if c == '\\' then Some('\\')
    else if c as int == 8 then Some('b')
    else if c == '\t' then Some('t')
    else if c == '\n' then Some('n')
    else if c as int == 12 then Some('f')
    else if c == '\r' then Some('r')
    else if c as int < 32 then Some('u')
    else None
  }

  datatype Shape = ANull | ATrue | AFalse | ANumber | AString | AnArray | AnObject

  function ShapeOf(j: Json): Shape {
    match j
    case Null => ANull
    case Bool(b) => if b then ATrue else AFalse
    case Int(_) => ANumber
    case OtherNumber(_) => ANumber
    case Str(_) => AString
    case Arr(_) => AnArray
    case Obj(_) => AnObject
  }

  function ShapeAt(c: char): Option<Shape> {
    if c == 'n' then Some(ANull) else if c == 't' then Some(ATrue) else if c == 'f' then Some(AFalse)
    else if IsNumberChar(c) then Some(ANumber) else if c == '"' then Some(AString)
    else if c == '[' then Some(AnArray) else if c == '{' then Some(AnObject) else None
  }

  /** The first character tells the shape. */
  lemma WriteStarts(j: Json)
    ensures Write(j) != "" && ShapeAt(Write(j)[0]) == Some(ShapeOf(j))
  {
    match j
    case Int(n) => IntText(n);
    case _ =>
  }

  lemma TextSplits(j: Json, x: string)
    ensures j.Str? ==> Write(j) + x == "\"" + (Escaped(j.s) + "\"" + x)
    ensures j.Arr? ==> Write(j) + x == "[" + (WriteItems(j.items) + "]" + x)
    ensures j.Obj? ==> Write(j) + x == "{" + (WriteFields(j.fields) + "}" + x)
    ensures j.Null? ==> Write(j) == "null"
    ensures j.Bool? ==> Write(j) == if j.b then "true" else "false"
  {
    hide Escaped, WriteItems, WriteFields;
    match j
    case Str(s) => assert "\"" + Escaped(s) + "\"" + x == "\"" + (Escaped(s) + "\"" + x);
    case Arr(items) => assert "[" + WriteItems(items) + "]" + x == "[" + (WriteItems(items) + "]" + x);
    case Obj(fields) => assert "{" + WriteFields(fields) + "}" + x == "{" + (WriteFields(fields) + "}" + x);
    case _ =>
  }

  /** What follows the first item of an array. */
  function AfterItem(items: seq<Json>, x: string): string
    requires items != []
  {
    if |items| == 1 then "]" + x else "," + (WriteItems(items[1..]) + "]" + x)
  }

  lemma ItemsSplit(items: seq<Json>, x: string)
    requires items != []
    ensures WriteItems(items) + "]" + x == Write(items[0]) + AfterItem(items, x)
  {
    hide Write;
    ItemRegroup(Write(items[0]), WriteItems(items[1..]), x);
    assert |items| == 1 ==> WriteItems(items) == Write(items[0]);
    assert |items| > 1 ==> WriteItems(items) == Write(items[0]) + "," + WriteItems(items[1..]);
    hide WriteItems;
  }

  lemma ItemRegroup(value: string, rest: string, x: string)
    ensures value + "," + rest + "]" + x == value + ("," + (rest + "]" + x))
    ensures value + "]" + x == value + ("]" + x)
  {
  }

  lemma ItemsStart(items: seq<Json>, x: string)
    ensures items == [] <==> (WriteItems(items) + "]" + x)[0] == ']'
    ensures items == [] ==> WriteItems(items) + "]" + x == "]" + x
  {
    if items != [] {
      WriteStarts(items[0]);
      hide Write;
      ItemsSplit(items, x);
    }
  }

  lemma AfterItemEnds(items: seq<Json>, x: string)
    requires items != []
    ensures Ends(AfterItem(items, x))
  {
    hide WriteItems;
  }

  /** What follows the first field of an object. */
  function AfterField(fields: seq<Field>, x: string): string
    requires fields != []
  {
    if |fields| == 1 then "}" + x else "," + (WriteFields(fields[1..]) + "}" + x)
  }

  /** What follows the key of the first field. */
  function AfterKey(fields: seq<Field>, x: string): string
    requires fields != []
  {
    ":" + (Write(fields[0].value) + AfterField(fields, x))
  }

  lemma FieldRegroup(key: string, value: string, rest: string, x: string)
    ensures "\"" + key + "\":" + value + "," + rest + "}" + x ==
            "\"" + (key + "\"" + (":" + (value + ("," + (rest + "}" + x)))))
    ensures "\"" + key + "\":" + value + "}" + x == "\"" + (key + "\"" + (":" + (value + ("}" + x))))
  {
    assert "\":" == "\"" + ":";
  }

  lemma FieldsSplit(fields: seq<Field>, x: string)
    requires fields != []
    ensures WriteFields(fields) + "}" + x == "\"" + (Escaped(fields[0].key) + "\"" + AfterKey(fields, x))
  {
    hide Write, Escaped;
    FieldRegroup(Escaped(fields[0].key), Write(fields[0].value), WriteFields(fields[1..]), x);
    var first := "\"" + Escaped(fields[0].key) + "\":" + Write(fields[0].value);
    assert |fields| == 1 ==> WriteFields(fields) == first;
    assert |fields| > 1 ==> WriteFields(fields) == first + "," + WriteFields(fields[1..]);
    hide WriteFields;
  }

  lemma FieldsStart(fields: seq<Field>, x: string)
    ensures fields == [] <==> (WriteFields(fields) + "}" + x)[0] == '}'
    ensures fields == [] ==> WriteFields(fields) + "}" + x == "}" + x
  {
    if fields != [] {
      FieldsSplit(fields, x);
      hide WriteFields, AfterKey, Escaped;
    }
  }

  lemma AfterFieldEnds(fields: seq<Field>, x: string)
    requires fields != []
    ensures Ends(AfterField(fields, x))
  {
    hide WriteFields;
  }
}
