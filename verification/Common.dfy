/** Types and facts shared by the other modules. */
module Common {

  /** Database identifiers (UUIDs in text form). */
  type Id = string

  datatype Option<+T> = None | Some(value: T) {

    function Map<U>(f: T -> U): Option<U> {
      if None? then None else Some(f(value))
    }
  }

  predicate Distinct<T(==)>(s: seq<T>) {
    forall i, j :: 0 <= i < j < |s| ==> s[i] != s[j]
  }

  /** White space and line terminators of ECMAScript, which `trim` strips. */
  predicate IsSpace(c: char) {
    || c == ' ' || '\t' <= c <= '\r' || c == '\U{A0}' || c == '\U{1680}' || '\U{2000}' <= c <= '\U{200A}'
    || c == '\U{2028}' || c == '\U{2029}' || c == '\U{202F}' || c == '\U{205F}' || c == '\U{3000}' || c == '\U{FEFF}'
  }

  predicate IsDigit(c: char) {
    '0' <= c <= '9'
  }

  predicate IsLower(c: char) {
    'a' <= c <= 'z'
  }

  predicate IsUpper(c: char) {
    'A' <= c <= 'Z'
  }

  predicate IsAlnum(c: char) {
    IsDigit(c) || IsLower(c) || IsUpper(c)
  }

  predicate IsHex(c: char) {
    IsDigit(c) || 'a' <= c <= 'f' || 'A' <= c <= 'F'
  }

  /** The first `n` characters. */
  function Clip(s: string, n: nat): string {
    if |s| <= n then s else s[..n]
  }

  /** Strips white space from both ends. */
  function Trim(s: string): string {
    if s == "" then ""
    else if IsSpace(s[0]) then Trim(s[1..])
    else if IsSpace(s[|s| - 1]) then Trim(s[..|s| - 1])
    else s
  }

  /** No white space at either end. */
  predicate Trimmed(s: string) {
    s != "" ==> !IsSpace(s[0]) && !IsSpace(s[|s| - 1])
  }

  predicate IsBlank(s: string) {
    forall i :: 0 <= i < |s| ==> IsSpace(s[i])
  }

  /** Trimming leaves nothing to trim, and nothing at all exactly of blank text. */
  lemma {:induction false} TrimTrims(s: string)
    ensures Trimmed(Trim(s))
    ensures Trim(s) == "" <==> IsBlank(s)
  {
    if s != "" {
      if IsSpace(s[0]) {
        TrimTrims(s[1..]);
        assert forall i :: 0 < i < |s| ==> s[i] == s[1..][i - 1];
      } else if IsSpace(s[|s| - 1]) {
        TrimTrims(s[..|s| - 1]);
        assert s[..|s| - 1][0] == s[0];
      }
    }
  }

  lemma NothingToTrim(s: string)
    requires Trimmed(s)
    ensures Trim(s) == s
  {
  }

  lemma TrimStep(s: string)
    requires s != ""
    ensures IsSpace(s[0]) ==> Trim(s) == Trim(s[1..])
    ensures !IsSpace(s[0]) && IsSpace(s[|s| - 1]) ==> Trim(s) == Trim(s[..|s| - 1])
    ensures !IsSpace(s[0]) && !IsSpace(s[|s| - 1]) ==> Trim(s) == s
  {
  }

  /** Exactly the blank text at both ends is cut off. */
  lemma {:induction false} TrimSplits(s: string) returns (before: string, after: string)
    ensures s == before + Trim(s) + after && IsBlank(before) && IsBlank(after)
  {
    before, after := "", "";
    if s != "" {
      TrimStep(s);
      hide Trim;
      if IsSpace(s[0]) {
        before, after := TrimSplits(s[1..]);
        before := [s[0]] + before;
        assert s == [s[0]] + s[1..];
      } else if IsSpace(s[|s| - 1]) {
        before, after := TrimSplits(s[..|s| - 1]);
        after := after + [s[|s| - 1]];
        assert s == s[..|s| - 1] + [s[|s| - 1]];
      }
    }
  }

  lemma {:induction false} TrimCuts(before: string, s: string, after: string)
    requires IsBlank(before) && IsBlank(after) && Trimmed(s)
    ensures Trim(before + s + after) == s
    decreases |before| + |after|
  {
    var text := before + s + after;
    if s == "" {
      assert IsBlank(text);
      TrimTrims(text);
    } else if before != "" {
      assert text[1..] == before[1..] + s + after;
      TrimCuts(before[1..], s, after);
    } else if after != "" {
      assert text[0] == s[0] && text[|text| - 1] == after[|after| - 1];
      assert text[..|text| - 1] == before + s + after[..|after| - 1];
      TrimCuts(before, s, after[..|after| - 1]);
    } else {
      assert text == s;
    }
  }

  /** Sum of `f` over the values of a finite map. */
  ghost function MapSum<K, V>(m: map<K, V>, f: V -> int): int
    decreases |m|
  {
    if m == map[] then 0
    else
      var k :| k in m;
      assert (m - {k}).Keys == m.Keys - {k};
      f(m[k]) + MapSum(m - {k}, f)
  }

  /** The sum does not depend on the order in which entries are taken. */
  lemma {:induction false} MapSumTake<K, V>(m: map<K, V>, k: K, f: V -> int)
    requires k in m
    ensures MapSum(m, f) == f(m[k]) + MapSum(m - {k}, f)
    decreases |m|
  {
    var j :| j in m && MapSum(m, f) == f(m[j]) + MapSum(m - {j}, f);
    if j != k {
      assert (m - {j}).Keys == m.Keys - {j} && (m - {k}).Keys == m.Keys - {k};
      MapSumTake(m - {j}, k, f);
      MapSumTake(m - {k}, j, f);
      assert m - {j} - {k} == m - {k} - {j};
    }
  }

  /** Writing one entry changes the sum by that entry alone. */
  lemma MapSumPut<K, V>(m: map<K, V>, k: K, v: V, f: V -> int)
    ensures MapSum(m[k := v], f) == MapSum(m, f) - (if k in m then f(m[k]) else 0) + f(v)
  {
    MapSumTake(m[k := v], k, f);
    assert m[k := v] - {k} == m - {k};
    if k in m {
      MapSumTake(m, k, f);
    } else {
      assert m - {k} == m;
    }
  }
}
