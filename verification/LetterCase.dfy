/**
 * Lower case as ECMAScript computes it: character by character, but for a capital sigma, whose form depends on
 * its place in the word, and for the capital I with a dot, the one letter that becomes two characters.
 */
module LetterCase {
  import opened Common

  /** The table of one-to-one mappings, and when a capital sigma ends a word; neither is spelled out. */
  datatype Table = Table(simple: char -> char, endsWord: (string, nat) -> bool)

  const DOTTED_I := '\U{130}'
  const COMBINING_DOT := '\U{307}'
  const CAPITAL_SIGMA := '\U{3A3}'
  const SMALL_SIGMA := '\U{3C3}'
  const FINAL_SIGMA := '\U{3C2}'

  /** Lower-casing leaves this character alone. */
  predicate IsLow(t: Table, c: char) {
    c != DOTTED_I && c != CAPITAL_SIGMA && t.simple(c) == c
  }

  /** What a table of Unicode's mappings satisfies: lower case is final, and ASCII is as usual. */
  ghost predicate Faithful(t: Table) {
    && (forall c: char :: IsLow(t, t.simple(c)))
    && (forall c: char :: c < '\U{80}' && !('A' <= c <= 'Z') ==> t.simple(c) == c)
    && (forall c: char :: 'A' <= c <= 'Z' ==> t.simple(c) == (c as int + 32) as char)
    && IsLow(t, COMBINING_DOT) && IsLow(t, SMALL_SIGMA) && IsLow(t, FINAL_SIGMA)
  }

  function AsciiSimple(c: char): char {
    if 'A' <= c <= 'Z' then (c as int + 32) as char
    else if c == DOTTED_I then 'i'
    else if c == CAPITAL_SIGMA then SMALL_SIGMA
    else c
  }

  type Casing = t: Table | Faithful(t) ghost witness Table(AsciiSimple, (s, i) => false)

  function LowerAt(t: Casing, s: string, i: nat): string
    requires i < |s|
  {
    if s[i] == DOTTED_I then ['i', COMBINING_DOT]
    else if s[i] == CAPITAL_SIGMA then [if t.endsWord(s, i) then FINAL_SIGMA else SMALL_SIGMA]
    else [t.simple(s[i])]
  }

  function LowerFrom(t: Casing, s: string, i: nat): string
    requires i <= |s|
    decreases |s| - i
  {
    if i == |s| then "" else LowerAt(t, s, i) + LowerFrom(t, s, i + 1)
  }

  function Lower(t: Casing, s: string): string {
    LowerFrom(t, s, 0)
  }

  /** How many letters of `s` become two. */
  function Dotted(s: string): nat {
    if s == "" then 0 else (if s[0] == DOTTED_I then 1 else 0) + Dotted(s[1..])
  }

  lemma {:induction false} LowerLength(t: Casing, s: string, i: nat)
    requires i <= |s|
    ensures |LowerFrom(t, s, i)| == |s| - i + Dotted(s[i..])
    ensures Dotted(s[i..]) > 0 ==> COMBINING_DOT in LowerFrom(t, s, i)
    decreases |s| - i
  {
    if i < |s| {
      LowerLength(t, s, i + 1);
      assert s[i..][1..] == s[i + 1..];
    }
  }

  lemma {:induction false} LowerIsLow(t: Casing, s: string, i: nat)
    requires i <= |s|
    ensures forall c :: c in LowerFrom(t, s, i) ==> IsLow(t, c)
    decreases |s| - i
  {
    if i < |s| {
      LowerIsLow(t, s, i + 1);
      assert IsLow(t, t.simple(s[i]));
    }
  }

  lemma {:induction false} LowStays(t: Casing, s: string, i: nat)
    requires i <= |s| && forall k :: i <= k < |s| ==> IsLow(t, s[k])
    ensures LowerFrom(t, s, i) == s[i..]
    decreases |s| - i
  {
    if i < |s| {
      LowStays(t, s, i + 1);
    }
  }

  /** Lower case is lower case, and longer than the text by the number of its dotted capital I's. */
  lemma LowerTwice(t: Casing, s: string)
    ensures Lower(t, Lower(t, s)) == Lower(t, s)
    ensures |Lower(t, s)| == |s| + Dotted(s)
  {
    LowerIsLow(t, s, 0);
    LowStays(t, Lower(t, s), 0);
    LowerLength(t, s, 0);
    assert s[0..] == s;
  }
}
