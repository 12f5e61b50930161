/**
 * The scanner that cuts the first JSON object out of a model's reply, and why it cuts in the right place.
 *
 * The scanner knows three things: a brace depth, whether it is inside a string literal, and whether
 * the last character was an escaping backslash. Against it stands the grammar of RFC 8259.
 */
module JsonScanner {
  import opened Common
  import Json

  const LIMIT := 20000

  datatype Error = EmptyOrTooLong | NoObject | Incomplete

  datatype Result = Ok(text: string) | Err(error: Error)

  // ----- What the scanner tracks -----

  datatype Scan = Scan(depth: int, quoted: bool, escaped: bool)

  const OUTSIDE := Scan(0, false, false)
  const INSIDE := Scan(0, true, false)

  function Step(s: Scan, c: char): Scan {
    if s.quoted then
      if s.escaped then s.(escaped := false)
      else if c == '\\' then s.(escaped := true)
      else if c == '"' then s.(quoted := false)
      else s
    else if c == '"' then s.(quoted := true)
    else if c == '{' then s.(depth := s.depth + 1)
    else if c == '}' then s.(depth := s.depth - 1)
    else s
  }

  function Run(s: Scan, t: string): Scan
    decreases |t|
  {
    if t == "" then s else Run(Step(s, t[0]), t[1..])
  }

  /** The braces outside string literals close. */
  predicate Balanced(t: string) {
    t != "" && Run(OUTSIDE, t).depth == 0 && !Run(OUTSIDE, t).quoted
  }

  /** The position of the first opening brace, or the length. */
  function FirstBrace(value: string): (i: nat)
    ensures i <= |value| && '{' !in value[..i]
    ensures i < |value| ==> value[i] == '{'
  {
    if value == "" || value[0] == '{' then 0
    else
      var i := 1 + FirstBrace(value[1..]);
      assert value[..i] == [value[0]] + value[1..][..i - 1];
      i
  }

  predicate WithinLimit(value: string) {
    0 < |value| <= LIMIT
  }

  /** The text from `start` to `end` balances, and none that ends earlier does. */
  predicate Closes(value: string, start: nat, end: nat)
    requires start <= end <= |value|
  {
    Balanced(value[start..end]) && forall k :: start <= k < end ==> !Balanced(value[start..k])
  }

  predicate NeverCloses(value: string, start: nat)
    requires start <= |value|
  {
    forall k :: start <= k <= |value| ==> !Balanced(value[start..k])
  }

  /**
   * What a call owes its caller: the shortest text from the first opening brace that balances,
   * or the reason why there is none.
   */
  predicate Outcome(value: string, r: Result) {
    match r
    case Ok(text) =>
      var start := FirstBrace(value);
      && WithinLimit(value) && start + |text| <= |value|
      && text == value[start..start + |text|] && Closes(value, start, start + |text|)
    case Err(EmptyOrTooLong) => !WithinLimit(value)
    case Err(NoObject) => WithinLimit(value) && '{' !in value
    case Err(Incomplete) => WithinLimit(value) && '{' in value && NeverCloses(value, FirstBrace(value))
  }

  lemma ClosesOnce(value: string, start: nat, a: nat, b: nat)
    requires start <= a <= |value| && start <= b <= |value| && Closes(value, start, a) && Closes(value, start, b)
    ensures a == b && start < a && !NeverCloses(value, start)
  {
  }

  lemma BraceAt(value: string, i: nat)
    requires i == FirstBrace(value)
    ensures i < |value| ==> '{' in value
  {
    if i < |value| {
      assert value[i] in value;
    }
  }

  lemma FoundExcludesErrors(value: string, text: string, q: Result)
    requires Outcome(value, Ok(text)) && q.Err?
    ensures !Outcome(value, q)
  {
    var start := FirstBrace(value);
    ClosesOnce(value, start, start + |text|, start + |text|);
    BraceAt(value, start);
  }

  /** The outcome is the only one. */
  lemma OutcomeUnique(value: string, r: Result, q: Result)
    requires Outcome(value, r) && Outcome(value, q)
    ensures r == q
  {
    var start := FirstBrace(value);
    if r.Ok? && q.Ok? {
      ClosesOnce(value, start, start + |r.text|, start + |q.text|);
    } else if r.Ok? {
      FoundExcludesErrors(value, r.text, q);
    } else if q.Ok? {
      FoundExcludesErrors(value, q.text, r);
    }
  }

  lemma {:induction false} RunConcat(s: Scan, a: string, b: string)
    ensures Run(s, a + b) == Run(Run(s, a), b)
    decreases |a|
  {
    if a == "" {
      assert a + b == b;
    } else {
      assert (a + b)[1..] == a[1..] + b;
      RunConcat(Step(s, a[0]), a[1..], b);
    }
  }

  lemma RunSnoc(s: Scan, t: string, c: char)
    ensures Run(s, t + [c]) == Step(Run(s, t), c)
  {
    RunConcat(s, t, [c]);
  }

  /** No text from `start` to `end` or to an earlier position balances. */
  predicate NoneBalanced(value: string, start: nat, end: nat)
    requires start <= end <= |value|
  {
    !Balanced(value[start..end]) && (start < end ==> NoneBalanced(value, start, end - 1))
  }

  lemma {:induction false} NoneBalancedAt(value: string, start: nat, end: nat, k: nat)
    requires start <= k <= end <= |value| && NoneBalanced(value, start, end)
    ensures !Balanced(value[start..k])
    decreases end
  {
    if k < end {
      NoneBalancedAt(value, start, end - 1, k);
    }
  }

  /** What the scanner knows at position `index`. */
  ghost predicate Knows(value: string, start: nat, index: nat, state: Scan)
    requires start <= index <= |value|
  {
    Run(OUTSIDE, value[start..index]) == state && NoneBalanced(value, start, index)
      && (index > start ==> state.depth > 0)
  }

  /** One more character: either the depth stays positive, or the text has just been closed. */
  lemma KnowsMore(value: string, start: nat, index: nat, state: Scan)
    requires start <= index < |value| && Knows(value, start, index, state)
    ensures var next := Step(state, value[index]);
      && (next.depth > 0 ==> Knows(value, start, index + 1, next))
      && (next.depth == 0 && !next.quoted ==> Balanced(value[start..index + 1]) && NoneBalanced(value, start, index))
  {
    assert value[start..index + 1] == value[start..index] + [value[index]];
    RunSnoc(OUTSIDE, value[start..index], value[index]);
  }

  lemma ClosesAt(value: string, start: nat, end: nat)
    requires start < end <= |value| && NoneBalanced(value, start, end - 1) && Balanced(value[start..end])
    ensures Closes(value, start, end)
  {
    forall k | start <= k < end ensures !Balanced(value[start..k]) {
      NoneBalancedAt(value, start, end - 1, k);
    }
  }

  lemma NoneCloses(value: string, start: nat)
    requires start <= |value| && NoneBalanced(value, start, |value|)
    ensures NeverCloses(value, start)
  {
    forall k | start <= k <= |value| ensures !Balanced(value[start..k]) {
      NoneBalancedAt(value, start, |value|, k);
    }
  }

  /** The loop of the scanner, from the first opening brace on: the end of the object, if it has one. */
  method ScanObject(value: string, start: nat) returns (end: Option<nat>)
    requires start < |value| && value[start] == '{'
    ensures match end
      case None => NoneBalanced(value, start, |value|)
      case Some(e) => start < e <= |value| && NoneBalanced(value, start, e - 1) && Balanced(value[start..e])
  {
    var depth := 0;
    var quoted := false;
    var escaped := false;
    var index := start;
    while index < |value|
      invariant start <= index <= |value|
      invariant Knows(value, start, index, Scan(depth, quoted, escaped))
      invariant index == start ==> depth == 0 && !quoted
    {
      var character := value[index];
      KnowsMore(value, start, index, Scan(depth, quoted, escaped));
      if quoted {
        if escaped {
          escaped := false;
        } else if character == '\\' {
          escaped := true;
        } else if character == '"' {
          quoted := false;
        }
      } else if character == '"' {
        quoted := true;
      } else if character == '{' {
        depth := depth + 1;
      } else if character == '}' {
        depth := depth - 1;
        if depth == 0 {
          return Some(index + 1);
        }
      }
      index := index + 1;
    }
    return None;
  }

  method ExtractFirstJsonObject(value: string) returns (r: Result)
    ensures Outcome(value, r)
  {
    if value == "" || |value| > LIMIT {
      return Err(EmptyOrTooLong);
    }
    var start := FirstBrace(value);
    if start == |value| {
      assert value[..start] == value;
      return Err(NoObject);
    }
    var end := ScanObject(value, start);
    if end.Some? {
      ClosesAt(value, start, end.value);
      return Ok(value[start..end.value]);
    }
    NoneCloses(value, start);
    assert value[start] in value;
    return Err(Incomplete);
  }

  // ----- Texts the scanner walks through -----

  /** Reading `t` from `s` comes back to `s` and never goes below its depth. */
  ghost predicate Loops(s: Scan, t: string) {
    Run(s, t) == s && forall k :: 0 <= k <= |t| ==> Run(s, t[..k]).depth >= s.depth
  }

  lemma LoopsConcat(s: Scan, a: string, b: string)
    requires Loops(s, a) && Loops(s, b)
    ensures Loops(s, a + b)
  {
    RunConcat(s, a, b);
    forall k | 0 <= k <= |a + b| ensures Run(s, (a + b)[..k]).depth >= s.depth {
      if k <= |a| {
        assert (a + b)[..k] == a[..k];
      } else {
        assert (a + b)[..k] == a + b[..k - |a|];
        RunConcat(s, a, b[..k - |a|]);
      }
    }
  }

  /** Depth is relative. */
  lemma {:induction false} RunShift(s: Scan, d: int, t: string)
    ensures Run(s.(depth := s.depth + d), t) == Run(s, t).(depth := Run(s, t).depth + d)
    decreases |t|
  {
    if t != "" {
      RunShift(Step(s, t[0]), d, t[1..]);
    }
  }

  lemma LoopsShift(s: Scan, d: int, t: string)
    requires Loops(s, t)
    ensures Loops(s.(depth := s.depth + d), t)
  {
    RunShift(s, d, t);
    forall k | 0 <= k <= |t| ensures Run(s.(depth := s.depth + d), t[..k]).depth >= s.depth + d {
      RunShift(s, d, t[..k]);
    }
  }

  /** Between an opening and a closing character, the scanner stays at the inner depth or above. */
  lemma Enclosed(s: Scan, open: char, inner: Scan, t: string, close: char)
    requires Step(s, open) == inner && Loops(inner, t) && Step(inner, close) == s && inner.depth >= s.depth
    ensures Loops(s, [open] + t + [close])
    ensures forall k :: 0 < k < |[open] + t + [close]| ==> Run(s, ([open] + t + [close])[..k]).depth >= inner.depth
  {
    var whole := [open] + t + [close];
    assert whole == [open] + (t + [close]);
    RunSnoc(inner, t, close);
    RunConcat(s, [open], t + [close]);
    forall k | 0 < k < |whole| ensures Run(s, whole[..k]).depth >= inner.depth {
      assert whole[..k] == [open] + t[..k - 1];
      RunConcat(s, [open], t[..k - 1]);
    }
    assert whole[..0] == "" && whole[..|whole|] == whole;
  }

  predicate IsQuiet(c: char) {
    c != '"' && c != '{' && c != '}'
  }

  lemma {:induction false} QuietLoops(t: string)
    requires forall i :: 0 <= i < |t| ==> IsQuiet(t[i])
    ensures Loops(OUTSIDE, t)
  {
    if t == "" {
    } else {
      QuietLoops(t[1..]);
      assert Loops(OUTSIDE, [t[0]]) by {
        assert [t[0]][..0] == "" && [t[0]][..1] == [t[0]];
      }
      LoopsConcat(OUTSIDE, [t[0]], t[1..]);
      assert t == [t[0]] + t[1..];
    }
  }

  // ----- Object texts by the grammar -----

  /** One element of a string literal (section 7 of RFC 8259). */
  datatype Unit = Raw(c: char) | Escaped(c: char) | Unicode(hex: string)

  predicate IsUnit(u: Unit) {
    match u
    case Raw(c) => c >= ' ' && c != '"' && c != '\\'
    case Escaped(c) => c in "\"\\/bfnrt"
    case Unicode(hex) => |hex| == 4 && forall i :: 0 <= i < 4 ==> IsHex(hex[i])
  }

  type StringUnit = u: Unit | IsUnit(u) witness Raw(' ')

  type Space = t: string | forall i :: 0 <= i < |t| ==> t[i] in " \t\n\r" witness ""

  predicate IsScalar(t: string) {
    t == "null" || t == "true" || t == "false" || Json.IsNumberText(t)
  }

  type ScalarText = t: string | IsScalar(t) witness "null"

  /** JSON texts (section 2 of RFC 8259), with white space wherever the grammar lets it stand. */
  datatype Text =
    | Scalar(text: ScalarText)
    | Literal(units: seq<StringUnit>)
    | Array(blank: Space, items: seq<Item>)
    | Object(blank: Space, members: seq<Member>)

  datatype Item = Item(before: Space, value: Text, after: Space)

  datatype Member = Member(before: Space, name: seq<StringUnit>, after: Space, item: Item)

  function ShowUnit(u: StringUnit): string {
    match u
    case Raw(c) => [c]
    case Escaped(c) => ['\\', c]
    case Unicode(hex) => "\\u" + hex
  }

  function ShowUnits(units: seq<StringUnit>): string {
    if units == [] then "" else ShowUnit(units[0]) + ShowUnits(units[1..])
  }

  function ShowLiteral(units: seq<StringUnit>): string {
    "\"" + ShowUnits(units) + "\""
  }

  function Show(t: Text): string {
    match t
    case Scalar(text) => text
    case Literal(units) => ShowLiteral(units)
    case Array(blank, items) => "[" + (blank + ShowItems(items)) + "]"
    case Object(blank, members) => "{" + (blank + ShowMembers(members)) + "}"
  }

  function ShowItem(item: Item): string {
    item.before + Show(item.value) + item.after
  }

  function ShowItems(items: seq<Item>): string {
    if items == [] then ""
    else if |items| == 1 then ShowItem(items[0])
    else ShowItem(items[0]) + "," + ShowItems(items[1..])
  }

  function ShowMember(m: Member): string {
    m.before + ShowLiteral(m.name) + m.after + ":" + ShowItem(m.item)
  }

  function ShowMembers(members: seq<Member>): string {
    if members == [] then ""
    else if |members| == 1 then ShowMember(members[0])
    else ShowMember(members[0]) + "," + ShowMembers(members[1..])
  }

  // ----- The scanner walks through every text of the grammar -----

  lemma UnitLoops(u: StringUnit)
    ensures Loops(INSIDE, ShowUnit(u))
  {
    match u
    case Raw(c) => assert [c][..0] == "" && [c][..1] == [c];
    case Escaped(c) => PairLoops(c);
    case Unicode(hex) =>
      PairLoops('u');
      HexLoops(hex);
      LoopsConcat(INSIDE, "\\u", hex);
  }

  /** A backslash and whatever it escapes. */
  lemma PairLoops(c: char)
    ensures Loops(INSIDE, ['\\', c])
  {
    var t := ['\\', c];
    assert t[..0] == "" && t[..1] == ['\\'] && t[..2] == t;
    RunSnoc(INSIDE, "", '\\');
    RunSnoc(INSIDE, ['\\'], c);
    assert "" + ['\\'] == ['\\'] && ['\\'] + [c] == t;
  }

  lemma {:induction false} HexLoops(t: string)
    requires forall i :: 0 <= i < |t| ==> IsHex(t[i])
    ensures Loops(INSIDE, t)
  {
    if t != "" {
      assert Loops(INSIDE, [t[0]]) by {
        assert [t[0]][..0] == "" && [t[0]][..1] == [t[0]];
      }
      HexLoops(t[1..]);
      LoopsConcat(INSIDE, [t[0]], t[1..]);
      assert t == [t[0]] + t[1..];
    }
  }

  lemma {:induction false} UnitsLoop(units: seq<StringUnit>)
    ensures Loops(INSIDE, ShowUnits(units))
  {
    if units != [] {
      UnitLoops(units[0]);
      UnitsLoop(units[1..]);
      LoopsConcat(INSIDE, ShowUnit(units[0]), ShowUnits(units[1..]));
    }
  }

  lemma LiteralLoops(units: seq<StringUnit>)
    ensures Loops(OUTSIDE, ShowLiteral(units))
  {
    UnitsLoop(units);
    Enclosed(OUTSIDE, '"', INSIDE, ShowUnits(units), '"');
  }

  lemma SpaceLoops(t: Space)
    ensures Loops(OUTSIDE, t)
  {
    QuietLoops(t);
  }

  lemma BracesLoop(t: string)
    requires Loops(OUTSIDE, t)
    ensures Loops(OUTSIDE, "{" + t + "}")
    ensures forall k :: 0 < k < |"{" + t + "}"| ==> Run(OUTSIDE, ("{" + t + "}")[..k]).depth >= 1
  {
    LoopsShift(OUTSIDE, 1, t);
    Enclosed(OUTSIDE, '{', OUTSIDE.(depth := 1), t, '}');
  }

  lemma {:induction false} TextLoops(t: Text)
    ensures Loops(OUTSIDE, Show(t))
    decreases t, 0
  {
    match t
    case Scalar(text) => QuietLoops(text);
    case Literal(units) => LiteralLoops(units);
    case Array(blank, items) =>
      SpaceLoops(blank);
      ItemsLoop(items);
      LoopsConcat(OUTSIDE, blank, ShowItems(items));
      Enclosed(OUTSIDE, '[', OUTSIDE, blank + ShowItems(items), ']');
    case Object(blank, members) =>
      SpaceLoops(blank);
      MembersLoop(members);
      LoopsConcat(OUTSIDE, blank, ShowMembers(members));
      BracesLoop(blank + ShowMembers(members));
  }

  lemma {:induction false} ItemLoops(item: Item)
    ensures Loops(OUTSIDE, ShowItem(item))
    decreases item, 1
  {
    SpaceLoops(item.before);
    TextLoops(item.value);
    SpaceLoops(item.after);
    LoopsConcat(OUTSIDE, item.before, Show(item.value));
    LoopsConcat(OUTSIDE, item.before + Show(item.value), item.after);
  }

  lemma {:induction false} ItemsLoop(items: seq<Item>)
    ensures Loops(OUTSIDE, ShowItems(items))
    decreases items, 2
  {
    if items != [] {
      ItemLoops(items[0]);
      ItemsLoop(items[1..]);
      QuietLoops(",");
      LoopsConcat(OUTSIDE, ShowItem(items[0]), ",");
      LoopsConcat(OUTSIDE, ShowItem(items[0]) + ",", ShowItems(items[1..]));
    }
  }

  lemma {:induction false} MemberLoops(m: Member)
    ensures Loops(OUTSIDE, ShowMember(m))
    decreases m, 1
  {
    SpaceLoops(m.before);
    LiteralLoops(m.name);
    SpaceLoops(m.after);
    QuietLoops(":");
    ItemLoops(m.item);
    LoopsConcat(OUTSIDE, m.before, ShowLiteral(m.name));
    LoopsConcat(OUTSIDE, m.before + ShowLiteral(m.name), m.after);
    LoopsConcat(OUTSIDE, m.before + ShowLiteral(m.name) + m.after, ":");
    LoopsConcat(OUTSIDE, m.before + ShowLiteral(m.name) + m.after + ":", ShowItem(m.item));
  }

  lemma {:induction false} MembersLoop(members: seq<Member>)
    ensures Loops(OUTSIDE, ShowMembers(members))
    decreases members, 2
  {
    if members != [] {
      MemberLoops(members[0]);
      MembersLoop(members[1..]);
      QuietLoops(",");
      LoopsConcat(OUTSIDE, ShowMember(members[0]), ",");
      LoopsConcat(OUTSIDE, ShowMember(members[0]) + ",", ShowMembers(members[1..]));
    }
  }

  // ----- What the scanner cuts out -----

  lemma {:induction false} FirstBraceAfter(p: string, t: string)
    requires '{' !in p && t != "" && t[0] == '{'
    ensures FirstBrace(p + t) == |p|
  {
    if p == "" {
      assert p + t == t;
    } else {
      assert (p + t)[1..] == p[1..] + t;
      FirstBraceAfter(p[1..], t);
    }
  }

  lemma SliceInMiddle(p: string, t: string, s: string, k: nat)
    requires k <= |t|
    ensures (p + t + s)[|p|..|p| + k] == t[..k]
  {
  }

  lemma NotYetClosed(p: string, body: string, s: string, k: nat)
    requires Loops(OUTSIDE, body) && k < |"{" + body + "}"|
    ensures !Balanced((p + ("{" + body + "}") + s)[|p|..|p| + k])
  {
    BracesLoop(body);
    SliceInMiddle(p, "{" + body + "}", s, k);
    assert k > 0 ==> Run(OUTSIDE, ("{" + body + "}")[..k]).depth >= 1;
  }

  lemma BracesClose(p: string, body: string, s: string)
    requires Loops(OUTSIDE, body)
    ensures var t := "{" + body + "}"; Closes(p + t + s, |p|, |p| + |t|)
  {
    var t := "{" + body + "}";
    BracesLoop(body);
    SliceInMiddle(p, t, s, |t|);
    assert t[..|t|] == t;
    forall k | |p| <= k < |p| + |t| ensures !Balanced((p + t + s)[|p|..k]) {
      NotYetClosed(p, body, s, k - |p|);
      assert |p| + (k - |p|) == k;
    }
  }

  /** A text in braces that the scanner walks through is what it cuts out, whatever surrounds it. */
  lemma BracesAreCut(p: string, body: string, s: string, r: Result)
    requires '{' !in p && Loops(OUTSIDE, body) && |p + ("{" + body + "}") + s| <= LIMIT
    requires Outcome(p + ("{" + body + "}") + s, r)
    ensures r == Ok("{" + body + "}")
  {
    var t := "{" + body + "}";
    var value := p + t + s;
    assert value == p + (t + s);
    FirstBraceAfter(p, t + s);
    SliceInMiddle(p, t, s, |t|);
    assert t[..|t|] == t;
    BracesClose(p, body, s);
    OutcomeUnique(value, r, Ok(t));
  }

  /**
   * Round trip: an object text of the grammar, however it is spaced and escaped, after any text
   * without an opening brace and before any text at all, comes back exactly.
   */
  lemma ObjectComesBack(p: string, t: Text, s: string, r: Result)
    requires '{' !in p && t.Object? && |p + Show(t) + s| <= LIMIT
    requires Outcome(p + Show(t) + s, r)
    ensures r == Ok(Show(t))
  {
    SpaceLoops(t.blank);
    MembersLoop(t.members);
    LoopsConcat(OUTSIDE, t.blank, ShowMembers(t.members));
    BracesAreCut(p, t.blank + ShowMembers(t.members), s, r);
  }
}
