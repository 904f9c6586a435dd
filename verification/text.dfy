/**
 * String helpers shared by the model: JavaScript's `Array.prototype.join`,
 * `String.prototype.split` on one character, `String.prototype.trim`, and
 * substring containment.
 */
module Text {

  /** `t` occurs in `s` as a contiguous substring. */
  ghost predicate IsInfix(t: string, s: string) {
    exists k :: OccursAt(t, s, k)
  }

  /** `t` occurs in `s` starting at index `k`. */
  predicate OccursAt(t: string, s: string, k: int) {
    0 <= k <= |s| - |t| && s[k..k + |t|] == t
  }

  /** `parts.join(sep)`: the empty list joins to "", one part joins to itself. */
  function Join(parts: seq<string>, sep: string): string {
    if |parts| == 0 then ""
    else if |parts| == 1 then parts[0]
    else parts[0] + sep + Join(parts[1..], sep)
  }

  /** `s.split(c)`: a string with no `c` splits to itself, "" splits to [""]. */
  function Split(s: string, c: char): (r: seq<string>)
    ensures |r| >= 1
  {
    if s == [] then [""]
    else
      var rest := Split(s[1..], c);
      if s[0] == c then [""] + rest else [[s[0]] + rest[0]] + rest[1..]
  }

  lemma {:induction false} SplitWithout(s: string, c: char)
    requires c !in s
    ensures Split(s, c) == [s]
  {
    if s != [] {
      SplitWithout(s[1..], c);
      assert [s[0]] + s[1..] == s;
    }
  }

  lemma {:induction false} SplitAfterPart(p: string, c: char, t: string)
    requires c !in p
    ensures Split(p + [c] + t, c) == [p] + Split(t, c)
  {
    if p == [] {
      assert p + [c] + t == [c] + t;
      assert ([c] + t)[1..] == t;
    } else {
      assert (p + [c] + t)[1..] == p[1..] + [c] + t;
      SplitAfterPart(p[1..], c, t);
      assert [p[0]] + p[1..] == p;
    }
  }

  /** Joining on a one-character separator that no part contains is undone by splitting on it. */
  lemma {:induction false} SplitJoin(parts: seq<string>, c: char)
    requires |parts| >= 1
    requires forall i :: 0 <= i < |parts| ==> c !in parts[i]
    ensures Split(Join(parts, [c]), c) == parts
  {
    if |parts| == 1 {
      SplitWithout(parts[0], c);
    } else {
      SplitJoin(parts[1..], c);
      SplitAfterPart(parts[0], c, Join(parts[1..], [c]));
      assert [parts[0]] + parts[1..] == parts;
    }
  }

  /** The number of separators in a join is one less than the number of parts. */
  lemma {:induction false} JoinLength(parts: seq<string>, sep: string)
    requires |parts| >= 1
    ensures |Join(parts, sep)| == Sum(parts) + (|parts| - 1) * |sep|
  {
    if |parts| > 1 {
      JoinLength(parts[1..], sep);
    }
  }

  /** Where the `i`-th part of a join starts: after the parts before it and one separator each. */
  function PartOffset(parts: seq<string>, sep: string, i: nat): nat
    requires i <= |parts|
  {
    Sum(parts[..i]) + i * |sep|
  }

  /** Every part of a join occurs in it, at the offset the parts before it and their separators take. */
  lemma {:induction false} JoinHasParts(parts: seq<string>, sep: string, i: nat)
    requires i < |parts|
    ensures OccursAt(parts[i], Join(parts, sep), PartOffset(parts, sep, i))
    ensures IsInfix(parts[i], Join(parts, sep))
  {
    if |parts| == 1 || i == 0 {
      assert parts[..0] == [];
      assert OccursAt(parts[0], Join(parts, sep), 0);
    } else {
      JoinHasParts(parts[1..], sep, i - 1);
      OffsetStep(parts, sep, i);
      OccursAfter(parts[i], parts[0] + sep, Join(parts[1..], sep), PartOffset(parts[1..], sep, i - 1));
    }
  }

  /** Between the `i`-th and the next part of a join stands one separator. */
  lemma {:induction false} JoinHasSeparators(parts: seq<string>, sep: string, i: nat)
    requires i + 1 < |parts|
    ensures OccursAt(sep, Join(parts, sep), PartOffset(parts, sep, i) + |parts[i]|)
  {
    if i == 0 {
      assert parts[..0] == [];
      assert Join(parts, sep)[|parts[0]|..|parts[0]| + |sep|] == sep;
    } else {
      JoinHasSeparators(parts[1..], sep, i - 1);
      OffsetStep(parts, sep, i);
      assert parts[1..][i - 1] == parts[i];
      OccursAfter(sep, parts[0] + sep, Join(parts[1..], sep), PartOffset(parts[1..], sep, i - 1) + |parts[i]|);
    }
  }

  /** The offsets in a join of several parts, seen from its second part on. */
  lemma OffsetStep(parts: seq<string>, sep: string, i: nat)
    requires 1 <= i < |parts|
    ensures Join(parts, sep) == (parts[0] + sep) + Join(parts[1..], sep)
    ensures PartOffset(parts, sep, i) == |parts[0] + sep| + PartOffset(parts[1..], sep, i - 1)
  {
    assert parts[..i][0] == parts[0];
    assert parts[..i][1..] == parts[1..][..i - 1];
    assert Sum(parts[..i]) == |parts[0]| + Sum(parts[1..][..i - 1]);
    assert i * |sep| == (i - 1) * |sep| + |sep|;
  }

  /** An occurrence in `s` is an occurrence in `pre + s`, shifted by `|pre|`. */
  lemma OccursAfter(t: string, pre: string, s: string, k: int)
    requires OccursAt(t, s, k)
    ensures OccursAt(t, pre + s, |pre| + k)
  {
    assert (pre + s)[|pre| + k..|pre| + k + |t|] == s[k..k + |t|];
  }

  /** A substring of `s` is a substring of any string that has `s` inside it. */
  lemma InfixExtend(t: string, pre: string, s: string, post: string)
    requires IsInfix(t, s)
    ensures IsInfix(t, pre + s + post)
  {
    var k :| OccursAt(t, s, k);
    assert (pre + s + post)[|pre| + k..|pre| + k + |t|] == s[k..k + |t|];
    assert OccursAt(t, pre + s + post, |pre| + k);
  }

  /** Occurrence is transitive: a substring of a substring of `u` is a substring of `u`. */
  lemma InfixTrans(t: string, s: string, u: string)
    requires IsInfix(t, s) && IsInfix(s, u)
    ensures IsInfix(t, u)
  {
    var j :| OccursAt(t, s, j);
    var k :| OccursAt(s, u, k);
    forall m | 0 <= m < |t| ensures u[k + j + m] == t[m] {
      assert u[k..k + |s|][j + m] == s[j + m];
      assert s[j..j + |t|][m] == t[m];
    }
    assert u[k + j..k + j + |t|] == t;
    assert OccursAt(t, u, k + j);
  }

  function Sum(parts: seq<string>): nat {
    if parts == [] then 0 else |parts[0]| + Sum(parts[1..])
  }

  /** The characters ECMAScript's `trim` removes: WhiteSpace and LineTerminator. */
  predicate IsJsWhitespace(c: char) {
    c == '\t' || c == '\n' || c == '\U{000B}' || c == '\U{000C}' || c == '\r' || c == ' '
    || c == '\U{00A0}' || c == '\U{1680}' || ('\U{2000}' <= c <= '\U{200A}')
    || c == '\U{2028}' || c == '\U{2029}' || c == '\U{202F}' || c == '\U{205F}'
    || c == '\U{3000}' || c == '\U{FEFF}'
  }

  predicate AllWhitespace(s: string) {
    forall i :: 0 <= i < |s| ==> IsJsWhitespace(s[i])
  }

  function TrimStart(s: string): (r: string)
    ensures |r| <= |s| && r == s[|s| - |r|..]
    ensures r == [] || !IsJsWhitespace(r[0])
    ensures AllWhitespace(s[..|s| - |r|])
  {
    if s == [] || !IsJsWhitespace(s[0]) then s
    else
      var r := TrimStart(s[1..]);
      assert s[..|s| - |r|] == [s[0]] + s[1..][..|s| - 1 - |r|];
      r
  }

  function TrimEnd(s: string): (r: string)
    ensures |r| <= |s| && r == s[..|r|]
    ensures r == [] || !IsJsWhitespace(r[|r| - 1])
    ensures AllWhitespace(s[|r|..])
  {
    if s == [] || !IsJsWhitespace(s[|s| - 1]) then s else TrimEnd(s[..|s| - 1])
  }

  /**
   * `s.trim()`: `s` with only whitespace cut from either end, so that what
   * is left neither starts nor ends with whitespace; empty exactly when `s`
   * is all whitespace.
   */
  function Trim(s: string): (r: string)
    ensures r == [] || (!IsJsWhitespace(r[0]) && !IsJsWhitespace(r[|r| - 1]))
    ensures IsInfix(r, s)
    ensures r == [] <==> AllWhitespace(s)
    ensures EndsCutFrom(r, s)
  {
    var t := TrimStart(s);
    var r := TrimEnd(t);
    TrimInfix(s, t, r);
    TrimEmpty(s, t, r);
    TrimDropsOnlyEnds(s, t, r);
    r
  }

  /** `r` is `s` with some whitespace, and nothing else, cut from either end. */
  predicate EndsCutFrom(r: string, s: string) {
    exists d :: 0 <= d <= |s| - |r| && s[d..d + |r|] == r && AllWhitespace(s[..d]) && AllWhitespace(s[d + |r|..])
  }

  /**
   * The contract of `Trim` pins its result down: any text cut from `s` at
   * whitespace alone, and not itself starting or ending with whitespace, is
   * `Trim(s)`.
   */
  lemma TrimUnique(s: string, u: string)
    requires EndsCutFrom(u, s)
    requires u == [] || (!IsJsWhitespace(u[0]) && !IsJsWhitespace(u[|u| - 1]))
    ensures u == Trim(s)
  {
    SameCut(s, u, Trim(s));
  }

  /** The case split behind `TrimUnique`, stated over the trim contract alone. */
  lemma SameCut(s: string, u: string, r: string)
    requires EndsCutFrom(u, s)
    requires u == [] || (!IsJsWhitespace(u[0]) && !IsJsWhitespace(u[|u| - 1]))
    requires EndsCutFrom(r, s) && (r == [] <==> AllWhitespace(s))
    requires r == [] || (!IsJsWhitespace(r[0]) && !IsJsWhitespace(r[|r| - 1]))
    ensures u == r
  {
    if u == [] {
      CutOfNothing(s, u);
    } else {
      CutNotBlank(s, u);
      CutsAgree(s, u, r);
    }
  }

  /** Where a cut text sits in `s`, with every character before and after it whitespace. */
  lemma CutPosition(u: string, s: string) returns (d: nat)
    requires EndsCutFrom(u, s)
    ensures d + |u| <= |s| && s[d..d + |u|] == u
    ensures forall i :: 0 <= i < d ==> IsJsWhitespace(s[i])
    ensures forall i :: d + |u| <= i < |s| ==> IsJsWhitespace(s[i])
  {
    d :| 0 <= d <= |s| - |u| && s[d..d + |u|] == u && AllWhitespace(s[..d]) && AllWhitespace(s[d + |u|..]);
    forall i | 0 <= i < d ensures IsJsWhitespace(s[i]) {
      assert s[..d][i] == s[i];
    }
    forall i | d + |u| <= i < |s| ensures IsJsWhitespace(s[i]) {
      assert s[d + |u|..][i - d - |u|] == s[i];
    }
  }

  /** Only an all-whitespace string has the empty text cut from it. */
  lemma CutOfNothing(s: string, u: string)
    requires EndsCutFrom(u, s) && u == []
    ensures AllWhitespace(s)
  {
    var d := CutPosition(u, s);
  }

  /** A string with a text cut from it that starts with a non-whitespace character is not blank. */
  lemma CutNotBlank(s: string, u: string)
    requires EndsCutFrom(u, s) && u != [] && !IsJsWhitespace(u[0])
    ensures !AllWhitespace(s)
  {
    var d := CutPosition(u, s);
    assert s[d] == u[0];
  }

  /** Two non-empty texts cut from `s` at whitespace, neither with whitespace at its ends, are the same text. */
  lemma CutsAgree(s: string, u: string, v: string)
    requires EndsCutFrom(u, s) && EndsCutFrom(v, s)
    requires u != [] && !IsJsWhitespace(u[0]) && !IsJsWhitespace(u[|u| - 1])
    requires v != [] && !IsJsWhitespace(v[0]) && !IsJsWhitespace(v[|v| - 1])
    ensures u == v
  {
    var d := CutPosition(u, s);
    var d0 := CutPosition(v, s);
    assert s[d] == u[0] && s[d + |u| - 1] == u[|u| - 1];
    assert s[d0] == v[0] && s[d0 + |v| - 1] == v[|v| - 1];
    assert d == d0 && |u| == |v|;
  }

  /** What the two passes drop is whitespace on either side of the kept text. */
  lemma TrimDropsOnlyEnds(s: string, t: string, r: string)
    requires |t| <= |s| && t == s[|s| - |t|..] && AllWhitespace(s[..|s| - |t|])
    requires |r| <= |t| && r == t[..|r|] && AllWhitespace(t[|r|..])
    ensures EndsCutFrom(r, s)
  {
    var d := |s| - |t|;
    assert s[d..] == t;
    assert s[d..d + |r|] == t[..|r|];
    assert s[d + |r|..] == t[|r|..];
  }

  lemma TrimInfix(s: string, t: string, r: string)
    requires |t| <= |s| && t == s[|s| - |t|..]
    requires |r| <= |t| && r == t[..|r|]
    ensures OccursAt(r, s, |s| - |t|)
  {
    assert s[|s| - |t|..][..|r|] == s[|s| - |t|..|s| - |t| + |r|];
  }

  lemma TrimEmpty(s: string, t: string, r: string)
    requires t == TrimStart(s) && r == TrimEnd(t)
    ensures r == [] <==> AllWhitespace(s)
  {
    var d := |s| - |t|;
    if r == [] {
      assert t == [] by { assert t[|r|..] == t; }
      assert s[..d] == s;
    } else {
      assert t != [];
      assert s[d] == t[0];
    }
  }

  predicate IsDigit(c: char) { '0' <= c <= '9' }

  /** `n.toString()` for a non-negative integer: its decimal digits, most significant first. */
  function NatToString(n: nat): (s: string)
    ensures |s| >= 1 && forall i :: 0 <= i < |s| ==> IsDigit(s[i])
    ensures |s| > 1 ==> s[0] != '0'
    decreases n
  {
    if n < 10 then [('0' as int + n) as char]
    else NatToString(n / 10) + [('0' as int + n % 10) as char]
  }

  /** The value of a string of decimal digits. */
  function DigitsValue(s: string): nat
    requires forall i :: 0 <= i < |s| ==> IsDigit(s[i])
  {
    if s == [] then 0
    else
      assert IsDigit(s[|s| - 1]);
      DigitsValue(s[..|s| - 1]) * 10 + (s[|s| - 1] as int - '0' as int)
  }

  /** Reading the decimal text back gives the number: the conversion loses nothing. */
  lemma {:induction false} NatToStringValue(n: nat)
    ensures DigitsValue(NatToString(n)) == n
    decreases n
  {
    var s := NatToString(n);
    if n >= 10 {
      NatToStringValue(n / 10);
      assert s[..|s| - 1] == NatToString(n / 10);
    }
  }

  /** Distinct numbers have distinct decimal texts. */
  lemma NatToStringInjective(m: nat, n: nat)
    requires NatToString(m) == NatToString(n)
    ensures m == n
  {
    NatToStringValue(m);
    NatToStringValue(n);
  }
}
