/** The compact printer writes texts of the scanned grammar, so what it prints comes back. */
module JsonScannerLaws {
  import opened JsonScanner
  import Json

  function UnitOf(c: char): (u: StringUnit)
    ensures ShowUnit(u) == Json.EscapeChar(c)
  {
    if c == '"' || c == '\\' then Escaped(c)
    else if c == '\U{8}' then Escaped('b')
    else if c == '\U{C}' then Escaped('f')
    else if c == '\n' then Escaped('n')
    else if c == '\r' then Escaped('r')
    else if c == '\t' then Escaped('t')
    else if c < ' ' then
      var hex := ['0', '0', Json.Hex(c as int / 16), Json.Hex(c as int % 16)];
      assert "\\u" + hex == "\\u00" + [Json.Hex(c as int / 16), Json.Hex(c as int % 16)];
      Unicode(hex)
    else Raw(c)
  }

  function UnitsOf(s: string): (units: seq<StringUnit>)
    ensures ShowUnits(units) == Json.Escape(s)
  {
    if s == "" then [] else [UnitOf(s[0])] + UnitsOf(s[1..])
  }

  function TextOf(j: Json.Json): Text
    decreases j, 0
  {
    match j
    case Null => Scalar("null")
    case Bool(truth) => Scalar(if truth then "true" else "false")
    case Num(number) => Scalar(number)
    case Str(text) => Literal(UnitsOf(text))
    case Arr(items) => Array("", ItemsOf(items))
    case Obj(fields) => Object("", MembersOf(fields))
  }

  function ItemOf(j: Json.Json): Item
    decreases j, 1
  {
    Item("", TextOf(j), "")
  }

  function ItemsOf(items: seq<Json.Json>): (r: seq<Item>)
    ensures |r| == |items|
    decreases items, 0
  {
    if items == [] then [] else [ItemOf(items[0])] + ItemsOf(items[1..])
  }

  function MembersOf(fields: seq<Json.Field>): (r: seq<Member>)
    ensures |r| == |fields|
    decreases fields, 0
  {
    if fields == [] then []
    else [Member("", UnitsOf(fields[0].key), "", ItemOf(fields[0].value))] + MembersOf(fields[1..])
  }

  lemma EmptyEnds(t: string)
    ensures "" + t + "" == t
  {
  }

  lemma {:induction false} TextOfPrints(j: Json.Json)
    ensures Show(TextOf(j)) == Json.Print(j)
    decreases j, 0
  {
    match j
    case Arr(items) =>
      ItemsOfPrint(items);
      assert "" + ShowItems(ItemsOf(items)) == Json.PrintItems(items);
    case Obj(fields) =>
      MembersOfPrint(fields);
      assert "" + ShowMembers(MembersOf(fields)) == Json.PrintFields(fields);
    case _ =>
  }

  lemma {:induction false} ItemOfPrints(j: Json.Json)
    ensures ShowItem(ItemOf(j)) == Json.Print(j)
    decreases j, 1
  {
    TextOfPrints(j);
    EmptyEnds(Show(TextOf(j)));
  }

  lemma {:induction false} ItemsOfPrint(items: seq<Json.Json>)
    ensures ShowItems(ItemsOf(items)) == Json.PrintItems(items)
    decreases items, 0
  {
    if items != [] {
      ItemOfPrints(items[0]);
      ItemsOfPrint(items[1..]);
      assert ItemsOf(items)[1..] == ItemsOf(items[1..]);
    }
  }

  lemma {:induction false} MembersOfPrint(fields: seq<Json.Field>)
    ensures ShowMembers(MembersOf(fields)) == Json.PrintFields(fields)
    decreases fields, 0
  {
    if fields != [] {
      var f := fields[0];
      ItemOfPrints(f.value);
      MembersOfPrint(fields[1..]);
      var members := MembersOf(fields);
      assert members[1..] == MembersOf(fields[1..]);
      assert ShowMember(members[0]) == Json.PrintField(f) by {
        assert "" + Json.Quote(f.key) + "" + ":" == Json.Quote(f.key) + ":";
      }
    }
  }

  /** In particular the compact printed form of any object comes back. */
  lemma PrintedObjectComesBack(p: string, j: Json.Json, s: string, r: Result)
    requires '{' !in p && j.Obj? && |p + Json.Print(j) + s| <= LIMIT
    requires Outcome(p + Json.Print(j) + s, r)
    ensures r == Ok(Json.Print(j))
  {
    TextOfPrints(j);
    ObjectComesBack(p, TextOf(j), s, r);
  }
}
