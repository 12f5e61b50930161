/** JSON values and their compact printed form, as JSON.stringify writes it. */
module Json {

  /** The characters of a printed number (section 6 of RFC 8259); the first is a digit or a minus sign. */
  predicate IsNumberChar(c: char) {
    '0' <= c <= '9' || c in "-+.eE"
  }

  predicate IsNumberText(t: string) {
    t != "" && ('0' <= t[0] <= '9' || t[0] == '-') && forall i :: 0 <= i < |t| ==> IsNumberChar(t[i])
  }

  /** A number, as the text it prints to. */
  type Number = t: string | IsNumberText(t) witness "0"

  datatype Field = Field(key: string, value: Json)

  datatype Json =
    | Null
    | Bool(truth: bool)
    | Num(number: Number)
    | Str(text: string)
    | Arr(items: seq<Json>)
    | Obj(fields: seq<Field>)

  // ----- Strings (section 7 of RFC 8259) -----

  function Hex(n: nat): char
    requires n < 16
  {
    "0123456789abcdef"[n]
  }

  function EscapeChar(c: char): string {
    if c == '"' then "\\\""
    else if c == '\\' then "\\\\"
    else if c == '\U{8}' then "\\b"
    else if c == '\U{C}' then "\\f"
    else if c == '\n' then "\\n"
    else if c == '\r' then "\\r"
    else if c == '\t' then "\\t"
    else if c < ' ' then "\\u00" + [Hex(c as int / 16), Hex(c as int % 16)]
    else [c]
  }

  function Escape(s: string): string {
    if s == "" then "" else EscapeChar(s[0]) + Escape(s[1..])
  }

  function Quote(s: string): string {
    "\"" + Escape(s) + "\""
  }

  // ----- Values -----

  function Print(j: Json): string {
    match j
    case Null => "null"
    case Bool(truth) => if truth then "true" else "false"
    case Num(number) => number
    case Str(text) => Quote(text)
    case Arr(items) => "[" + PrintItems(items) + "]"
    case Obj(fields) => "{" + PrintFields(fields) + "}"
  }

  function PrintItems(items: seq<Json>): string {
    if items == [] then ""
    else if |items| == 1 then Print(items[0])
    else Print(items[0]) + "," + PrintItems(items[1..])
  }

  function PrintField(f: Field): string {
    Quote(f.key) + ":" + Print(f.value)
  }

  function PrintFields(fields: seq<Field>): string {
    if fields == [] then ""
    else if |fields| == 1 then PrintField(fields[0])
    else PrintField(fields[0]) + "," + PrintFields(fields[1..])
  }

  // ----- Printed values can be read back in only one way -----

  lemma Cancel(p: string, x: string, y: string)
    requires p + x == p + y
    ensures x == y
  {
    assert (p + x)[|p|..] == x && (p + y)[|p|..] == y;
  }

  lemma Regroup(a: string, b: string, c: string)
    ensures a + b + c == a + (b + c)
  {
  }

  lemma HexInjective(a: nat, b: nat)
    requires a < 16 && b < 16 && Hex(a) == Hex(b)
    ensures a == b
  {
  }

  /** The escape of a character, from its second character on, for the control characters without a name. */
  predicate IsLong(c: char) {
    |EscapeChar(c)| > 2
  }

  lemma LongEscape(c: char)
    requires IsLong(c)
    ensures |EscapeChar(c)| == 6
    ensures EscapeChar(c)[4] == Hex(c as int / 16) && EscapeChar(c)[5] == Hex(c as int % 16)
  {
  }

  lemma SameEscape(c: char, d: char)
    requires EscapeChar(c) == EscapeChar(d)
    ensures c == d
  {
    if IsLong(c) {
      LongEscape(c);
      LongEscape(d);
      HexInjective(c as int / 16, d as int / 16);
      HexInjective(c as int % 16, d as int % 16);
      assert c as int == d as int;
    }
  }

  lemma EscapeShape(c: char)
    ensures |EscapeChar(c)| == 1 <==> EscapeChar(c)[0] != '\\'
    ensures |EscapeChar(c)| > 1 ==> (|EscapeChar(c)| == 6 <==> EscapeChar(c)[1] == 'u')
    ensures |EscapeChar(c)| == 1 || |EscapeChar(c)| == 2 || |EscapeChar(c)| == 6
  {
  }

  /** Escapes form a prefix code without the bare quotation mark. */
  lemma EscapeCharUnique(c: char, d: char, x: string, y: string)
    requires EscapeChar(c) + x == EscapeChar(d) + y
    ensures c == d && x == y
  {
    var e, f := EscapeChar(c), EscapeChar(d);
    var s, t := e + x, f + y;
    EscapeShape(c);
    EscapeShape(d);
    assert s[0] == e[0] && t[0] == f[0];
    assert |e| > 1 && |f| > 1 ==> s[1] == e[1] && t[1] == f[1];
    assert |e| == |f|;
    assert s[..|e|] == e && t[..|f|] == f;
    SameEscape(c, d);
    Cancel(e, x, y);
  }

  /** The rest of a string literal: its characters, its closing quotation mark, and what follows. */
  function Literal(s: string, x: string): string {
    Escape(s) + "\"" + x
  }

  lemma LiteralHead(s: string, x: string)
    ensures s == "" ==> Literal(s, x) == "\"" + x
    ensures s != "" ==> Literal(s, x) == EscapeChar(s[0]) + Literal(s[1..], x)
    ensures Literal(s, x)[0] == '"' <==> s == ""
  {
    if s != "" {
      var first, rest := EscapeChar(s[0]), Escape(s[1..]);
      assert (first + rest) + "\"" + x == first + (rest + "\"" + x);
      assert Literal(s, x)[0] == first[0];
    }
  }

  lemma {:induction false} LiteralUnique(s: string, t: string, x: string, y: string)
    requires Literal(s, x) == Literal(t, y)
    ensures s == t && x == y
  {
    LiteralHead(s, x);
    LiteralHead(t, y);
    if s == "" {
      Cancel("\"", x, y);
    } else {
      EscapeCharUnique(s[0], t[0], Literal(s[1..], x), Literal(t[1..], y));
      LiteralUnique(s[1..], t[1..], x, y);
    }
  }

  lemma QuoteSplits(s: string, x: string)
    ensures Quote(s) + x == "\"" + Literal(s, x)
  {
    var e := Escape(s);
    assert ("\"" + e + "\"") + x == "\"" + (e + "\"" + x);
  }

  lemma QuoteUnique(s: string, t: string, x: string, y: string)
    requires Quote(s) + x == Quote(t) + y
    ensures s == t && x == y
  {
    QuoteSplits(s, x);
    QuoteSplits(t, y);
    Cancel("\"", Literal(s, x), Literal(t, y));
    LiteralUnique(s, t, x, y);
  }

  /** The end of the input, or a character that ends a value inside an array or object. */
  predicate Stops(x: string) {
    x == "" || x[0] in ",]}"
  }

  /** The constructor shows in the first character. */
  function Kind(c: char): int {
    match c
    case 'n' => 0
    case 't' => 1
    case 'f' => 2
    case '"' => 4
    case '[' => 5
    case '{' => 6
    case _ => 3
  }

  function KindOf(j: Json): int {
    match j
    case Null => 0
    case Bool(truth) => if truth then 1 else 2
    case Num(_) => 3
    case Str(_) => 4
    case Arr(_) => 5
    case Obj(_) => 6
  }

  lemma FirstCharacter(j: Json)
    ensures Print(j) != "" && Kind(Print(j)[0]) == KindOf(j) && !Stops(Print(j))
  {
  }

  function NumberLength(u: string): nat {
    if u != "" && IsNumberChar(u[0]) then 1 + NumberLength(u[1..]) else 0
  }

  lemma {:induction false} NumberEnds(s: string, x: string)
    requires (forall i :: 0 <= i < |s| ==> IsNumberChar(s[i])) && Stops(x)
    ensures NumberLength(s + x) == |s|
  {
    if s == "" {
      assert s + x == x;
    } else {
      assert (s + x)[1..] == s[1..] + x;
      NumberEnds(s[1..], x);
    }
  }

  lemma NumberUnique(s: string, t: string, x: string, y: string)
    requires IsNumberText(s) && IsNumberText(t) && Stops(x) && Stops(y) && s + x == t + y
    ensures s == t && x == y
  {
    NumberEnds(s, x);
    NumberEnds(t, y);
    assert s == (s + x)[..|s|] && t == (t + y)[..|t|];
    Cancel(s, x, y);
  }

  /** Two values whose texts agree up to where each stops are the same value, and the rests agree. */
  lemma {:induction false} PrintUnique(a: Json, b: Json, x: string, y: string)
    requires Print(a) + x == Print(b) + y && Stops(x) && Stops(y)
    ensures a == b && x == y
    decreases a, 0
  {
    FirstCharacter(a);
    FirstCharacter(b);
    assert (Print(a) + x)[0] == Print(a)[0] && (Print(b) + y)[0] == Print(b)[0];
    assert KindOf(a) == KindOf(b);
    match a
    case Null => Cancel(Print(a), x, y);
    case Bool(_) => Cancel(Print(a), x, y);
    case Num(s) => NumberUnique(s, b.number, x, y);
    case Str(s) => QuoteUnique(s, b.text, x, y);
    case Arr(items) =>
      assert Print(a) + x == "[" + ItemsText(items, x);
      assert Print(b) + y == "[" + ItemsText(b.items, y);
      Cancel("[", ItemsText(items, x), ItemsText(b.items, y));
      ItemsUnique(items, b.items, x, y);
    case Obj(fields) =>
      assert Print(a) + x == "{" + FieldsText(fields, x);
      assert Print(b) + y == "{" + FieldsText(b.fields, y);
      Cancel("{", FieldsText(fields, x), FieldsText(b.fields, y));
      FieldsUnique(fields, b.fields, x, y);
  }

  /** The rest of an array: its items, the closing bracket, and what follows. */
  function ItemsText(items: seq<Json>, x: string): string {
    PrintItems(items) + "]" + x
  }

  /** What follows the first item of an array. */
  function AfterItem(items: seq<Json>, x: string): string
    requires items != []
  {
    if |items| == 1 then "]" + x else "," + ItemsText(items[1..], x)
  }

  lemma ItemsHead(items: seq<Json>, x: string)
    ensures items == [] ==> ItemsText(items, x) == "]" + x
    ensures items != [] ==> ItemsText(items, x) == Print(items[0]) + AfterItem(items, x)
    ensures ItemsText(items, x)[0] == ']' <==> items == []
  {
    if items != [] {
      var first := Print(items[0]);
      FirstCharacter(items[0]);
      if |items| == 1 {
        Regroup(first, "]", x);
      } else {
        var rest := PrintItems(items[1..]);
        assert PrintItems(items) == first + "," + rest;
        assert (first + "," + rest) + "]" + x == first + ("," + (rest + "]" + x));
      }
      assert ItemsText(items, x)[0] == first[0];
    }
  }

  lemma AfterItemStops(items: seq<Json>, x: string)
    requires items != []
    ensures Stops(AfterItem(items, x))
  {
  }

  lemma AfterItemUnique(a: seq<Json>, b: seq<Json>, x: string, y: string)
    requires a != [] && b != [] && AfterItem(a, x) == AfterItem(b, y)
    ensures |a| == 1 <==> |b| == 1
    ensures |a| == 1 ==> x == y
    ensures |a| > 1 ==> ItemsText(a[1..], x) == ItemsText(b[1..], y)
  {
    assert AfterItem(a, x)[0] == AfterItem(b, y)[0];
    if |a| == 1 {
      Cancel("]", x, y);
    } else {
      Cancel(",", ItemsText(a[1..], x), ItemsText(b[1..], y));
    }
  }

  lemma {:induction false} ItemsUnique(a: seq<Json>, b: seq<Json>, x: string, y: string)
    requires ItemsText(a, x) == ItemsText(b, y)
    ensures a == b && x == y
    decreases a, 1
  {
    hide Print, ItemsText, AfterItem, Stops;
    ItemsHead(a, x);
    ItemsHead(b, y);
    if a == [] {
      Cancel("]", x, y);
    } else {
      AfterItemStops(a, x);
      AfterItemStops(b, y);
      PrintUnique(a[0], b[0], AfterItem(a, x), AfterItem(b, y));
      AfterItemUnique(a, b, x, y);
      if |a| > 1 {
        ItemsUnique(a[1..], b[1..], x, y);
      }
      assert a == [a[0]] + a[1..] && b == [b[0]] + b[1..];
    }
  }

  /** The rest of an object: its fields, the closing brace, and what follows. */
  function FieldsText(fields: seq<Field>, x: string): string {
    PrintFields(fields) + "}" + x
  }

  /** What follows the first field of an object. */
  function AfterField(fields: seq<Field>, x: string): string
    requires fields != []
  {
    if |fields| == 1 then "}" + x else "," + FieldsText(fields[1..], x)
  }

  lemma FieldHead(f: Field, after: string)
    ensures PrintField(f) + after == Quote(f.key) + (":" + (Print(f.value) + after))
    ensures (PrintField(f) + after)[0] == '"'
  {
    var key, value := Quote(f.key), Print(f.value);
    assert (key + ":" + value) + after == key + (":" + (value + after));
    assert (PrintField(f) + after)[0] == key[0];
  }

  lemma FieldsHead(fields: seq<Field>, x: string)
    ensures fields == [] ==> FieldsText(fields, x) == "}" + x
    ensures fields != [] ==>
      FieldsText(fields, x) == Quote(fields[0].key) + (":" + (Print(fields[0].value) + AfterField(fields, x)))
    ensures FieldsText(fields, x)[0] == '}' <==> fields == []
  {
    if fields != [] {
      var f := fields[0];
      var first := PrintField(f);
      if |fields| == 1 {
        Regroup(first, "}", x);
      } else {
        var rest := PrintFields(fields[1..]);
        assert PrintFields(fields) == first + "," + rest;
        assert (first + "," + rest) + "}" + x == first + ("," + (rest + "}" + x));
      }
      FieldHead(f, AfterField(fields, x));
    }
  }

  lemma AfterFieldStops(fields: seq<Field>, x: string)
    requires fields != []
    ensures Stops(AfterField(fields, x))
  {
  }

  lemma AfterFieldUnique(a: seq<Field>, b: seq<Field>, x: string, y: string)
    requires a != [] && b != [] && AfterField(a, x) == AfterField(b, y)
    ensures |a| == 1 <==> |b| == 1
    ensures |a| == 1 ==> x == y
    ensures |a| > 1 ==> FieldsText(a[1..], x) == FieldsText(b[1..], y)
  {
    assert AfterField(a, x)[0] == AfterField(b, y)[0];
    if |a| == 1 {
      Cancel("}", x, y);
    } else {
      Cancel(",", FieldsText(a[1..], x), FieldsText(b[1..], y));
    }
  }

  /** The value of a field and what follows it. */
  function FieldRest(f: Field, after: string): string {
    Print(f.value) + after
  }

  lemma KeysUnique(f: Field, g: Field, p: string, q: string)
    requires Quote(f.key) + (":" + FieldRest(f, p)) == Quote(g.key) + (":" + FieldRest(g, q))
    ensures f.key == g.key && FieldRest(f, p) == FieldRest(g, q)
  {
    QuoteUnique(f.key, g.key, ":" + FieldRest(f, p), ":" + FieldRest(g, q));
    Cancel(":", FieldRest(f, p), FieldRest(g, q));
  }

  lemma {:induction false} FieldsUnique(a: seq<Field>, b: seq<Field>, x: string, y: string)
    requires FieldsText(a, x) == FieldsText(b, y)
    ensures a == b && x == y
    decreases a, 1
  {
    hide Print, Quote, FieldsText, AfterField, Stops;
    FieldsHead(a, x);
    FieldsHead(b, y);
    if a == [] {
      Cancel("}", x, y);
    } else {
      KeysUnique(a[0], b[0], AfterField(a, x), AfterField(b, y));
      AfterFieldStops(a, x);
      AfterFieldStops(b, y);
      PrintUnique(a[0].value, b[0].value, AfterField(a, x), AfterField(b, y));
      AfterFieldUnique(a, b, x, y);
      if |a| > 1 {
        FieldsUnique(a[1..], b[1..], x, y);
      }
      assert a == [a[0]] + a[1..] && b == [b[0]] + b[1..];
    }
  }
}
