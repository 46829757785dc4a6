/**
 * The Python string operations the controllers rely on, on `seq<char>`:
 * substring tests (`p in s`), `startswith`, ASCII `lower()`, `isdigit()`,
 * `split`, `replace` and the decimal rendering of a non-negative `int`.
 */
module Text {
  import opened Wrappers

  predicate StartsWith(s: string, p: string) {
    |p| <= |s| && s[..|p|] == p
  }

  /** `p` occurs in `s` starting at position `i`. */
  predicate OccursAt(s: string, p: string, i: int) {
    0 <= i && i + |p| <= |s| && s[i..i + |p|] == p
  }

  /** Python's `p in s`: `p` occurs at some position of `s`. */
  predicate Contains(s: string, p: string) {
    exists i | 0 <= i <= |s| :: OccursAt(s, p, i)
  }

  /** Concatenation of strings is associative. */
  lemma AppendAssoc(a: string, b: string, c: string)
    ensures a + b + c == a + (b + c)
  {
  }

  /** A non-empty string is its first character followed by the rest. */
  lemma ConsAppend(a: string, v: string)
    requires |a| > 0
    ensures [a[0]] + (a[1..] + v) == a + v
  {
    assert a == [a[0]] + a[1..];
  }

  lemma ContainsPrefix(s: string, p: string)
    requires StartsWith(s, p)
    ensures Contains(s, p)
  {
    assert OccursAt(s, p, 0);
  }

  /** `p` occurs in a piece of `s` and therefore in `s`. */
  lemma ContainsWithin(s: string, p: string, lo: nat, hi: nat)
    requires lo <= hi <= |s| && Contains(s[lo..hi], p)
    ensures Contains(s, p)
  {
    var i :| 0 <= i <= hi - lo && OccursAt(s[lo..hi], p, i);
    assert s[lo..hi][i..i + |p|] == p;
    assert forall k :: 0 <= k < |p| ==> s[lo + i + k] == p[k];
    assert OccursAt(s, p, lo + i);
  }

  /** An occurrence in `a` is an occurrence in any extension of `a`. */
  lemma ContainsExtend(a: string, x: string, p: string)
    ensures Contains(a, p) ==> Contains(a + x, p)
  {
    if Contains(a, p) {
      assert (a + x)[0..|a|] == a;
      ContainsWithin(a + x, p, 0, |a|);
    }
  }

  /** An occurrence after the first character is an occurrence in the rest. */
  lemma OccursShift(s: string, p: string, i: int)
    requires 1 <= i && |s| >= 1
    ensures OccursAt(s, p, i) <==> OccursAt(s[1..], p, i - 1)
  {
    if i + |p| <= |s| {
      assert s[1..][i - 1..i - 1 + |p|] == s[i..i + |p|];
    }
  }

  function LowerChar(c: char): char {
    if 'A' <= c <= 'Z' then (c as int + 32) as char else c
  }

  /**
   * `s.lower()` on the ASCII letters. No other character lowers to one of
   * `l`, `i`, `n`, `e`, so the "line" prefix test below is exact.
   */
  function Lower(s: string): (r: string)
    ensures |r| == |s|
    ensures forall i :: 0 <= i < |s| ==> r[i] == LowerChar(s[i])
  {
    seq(|s|, i requires 0 <= i < |s| => LowerChar(s[i]))
  }

  predicate IsDigit(c: char) {
    '0' <= c <= '9'
  }

  /** `s.isdigit()` on ASCII digits: non-empty and every character a digit. */
  predicate IsDigits(s: string) {
    |s| > 0 && forall i :: 0 <= i < |s| ==> IsDigit(s[i])
  }

  /** The position of the first `c` in `s`. */
  function FindChar(s: string, c: char): (r: Option<nat>)
    ensures r.None? <==> c !in s
    ensures r.Some? ==> r.value < |s| && s[r.value] == c && c !in s[..r.value]
  {
    if |s| == 0 then None
    else if s[0] == c then Some(0)
    else
      match FindChar(s[1..], c)
      case None => None
      case Some(i) =>
        assert s[..i + 1] == [s[0]] + s[1..][..i];
        Some(i + 1)
  }

  /** `s.split(c, 1)` when `c` occurs in `s`: the text before and after the first `c`. */
  function SplitOnce(s: string, c: char): (r: Option<(string, string)>)
    ensures r.None? <==> c !in s
    ensures r.Some? ==> s == r.value.0 + [c] + r.value.1 && c !in r.value.0
  {
    match FindChar(s, c)
    case None => None
    case Some(i) =>
      assert s == s[..i] + [c] + s[i + 1..];
      Some((s[..i], s[i + 1..]))
  }

  /** `s.split(c)` for a one-character separator: never empty. */
  function Split(s: string, c: char): (r: seq<string>)
    ensures |r| >= 1
    decreases |s|
  {
    match FindChar(s, c)
    case None => [s]
    case Some(i) => [s[..i]] + Split(s[i + 1..], c)
  }

  /** The first `c` of `a + [c] + b` is the one after `a` when `a` has none. */
  lemma FindCharConcat(a: string, c: char, b: string)
    requires c !in a
    ensures FindChar(a + [c] + b, c) == Some(|a|)
  {
    var s := a + [c] + b;
    var r := FindChar(s, c);
    if r.value >= |a| {
      assert s[|a|] == c;
    }
  }

  /** Splitting `a + [c] + b` gives `a` and then the split of `b`. */
  lemma SplitCons(a: string, c: char, b: string)
    requires c !in a
    ensures Split(a + [c] + b, c) == [a] + Split(b, c)
  {
    var s := a + [c] + b;
    FindCharConcat(a, c, b);
    assert s[..|a|] == a;
    assert s[|a| + 1..] == b;
  }

  /** `c.join(parts)`. */
  function Join(parts: seq<string>, c: char): string
    decreases |parts|
  {
    if |parts| == 0 then ""
    else if |parts| == 1 then parts[0]
    else parts[0] + [c] + Join(parts[1..], c)
  }

  /** Splitting and joining again gives the original text back. */
  lemma {:induction false} JoinSplit(s: string, c: char)
    ensures Join(Split(s, c), c) == s
    decreases |s|
  {
    match FindChar(s, c)
    case None =>
    case Some(i) =>
      var rest := Split(s[i + 1..], c);
      JoinSplit(s[i + 1..], c);
      assert Split(s, c) == [s[..i]] + rest;
      assert ([s[..i]] + rest)[1..] == rest;
      assert s == s[..i] + [c] + s[i + 1..];
  }

  /** Joining parts free of the separator and splitting again gives the parts back. */
  lemma {:induction false} SplitJoin(parts: seq<string>, c: char)
    requires |parts| >= 1
    requires forall k :: 0 <= k < |parts| ==> c !in parts[k]
    ensures Split(Join(parts, c), c) == parts
    decreases |parts|
  {
    if |parts| > 1 {
      SplitJoin(parts[1..], c);
      SplitCons(parts[0], c, Join(parts[1..], c));
    }
  }

  /** No part of a split holds the separator. */
  lemma {:induction false} SplitPartsFree(s: string, c: char)
    ensures forall k :: 0 <= k < |Split(s, c)| ==> c !in Split(s, c)[k]
    decreases |s|
  {
    match FindChar(s, c)
    case None =>
    case Some(i) =>
      SplitPartsFree(s[i + 1..], c);
      var rest := Split(s[i + 1..], c);
      assert Split(s, c) == [s[..i]] + rest;
      forall k | 0 <= k < |Split(s, c)| ensures c !in Split(s, c)[k] {
        if k > 0 { assert Split(s, c)[k] == rest[k - 1]; }
      }
  }

  /** The first position at which `p` occurs in `s`. */
  function FindSub(s: string, p: string): (r: Option<nat>)
    requires |p| > 0
    ensures r.None? <==> !Contains(s, p)
    ensures r.Some? ==> OccursAt(s, p, r.value)
    ensures r.Some? ==> forall j :: 0 <= j < r.value ==> !OccursAt(s, p, j)
    decreases |s|
  {
    if |s| < |p| then None
    else if s[..|p|] == p then
      ContainsPrefix(s, p);
      Some(0)
    else
      var rest := FindSub(s[1..], p);
      ShiftContains(s, p);
      match rest
      case None => None
      case Some(i) =>
        OccursShift(s, p, i + 1);
        assert forall j :: 1 <= j < i + 1 ==> !OccursAt(s, p, j) by {
          forall j | 1 <= j < i + 1 ensures !OccursAt(s, p, j) {
            OccursShift(s, p, j);
          }
        }
        Some(i + 1)
  }

  /** When `p` is not a prefix of `s`, it occurs in `s` exactly when it occurs in `s[1..]`. */
  lemma ShiftContains(s: string, p: string)
    requires |p| > 0 && |s| >= |p| && s[..|p|] != p
    ensures Contains(s, p) <==> Contains(s[1..], p)
  {
    if Contains(s, p) {
      var i :| 0 <= i <= |s| && OccursAt(s, p, i);
      assert i != 0;
      OccursShift(s, p, i);
    }
    if Contains(s[1..], p) {
      assert s[1..|s|] == s[1..];
      ContainsWithin(s, p, 1, |s|);
    }
  }

  /** `s.split(p, 1)` when `p` occurs in `s`: the text before and after the first `p`. */
  function SplitOnceSub(s: string, p: string): (r: Option<(string, string)>)
    requires |p| > 0
    ensures r.None? <==> !Contains(s, p)
    ensures r.Some? ==> s == r.value.0 + p + r.value.1
    ensures r.Some? ==> !Contains(r.value.0 + p[..|p| - 1], p)
  {
    match FindSub(s, p)
    case None => None
    case Some(i) =>
      assert s == s[..i] + p + s[i + |p|..];
      FirstOccurrence(s, p, i);
      Some((s[..i], s[i + |p|..]))
  }

  /** Splitting `a + p + b` at its first `p` gives `a` and `b` back when `a` holds no earlier `p`. */
  lemma SplitOnceSubOf(a: string, p: string, b: string)
    requires |p| > 0 && !Contains(a + p[..|p| - 1], p)
    ensures SplitOnceSub(a + p + b, p) == Some((a, b))
  {
    var s := a + p + b;
    assert s[|a|..|a| + |p|] == p;
    assert OccursAt(s, p, |a|);
    var i := FindSub(s, p).value;
    if i < |a| {
      var t := a + p[..|p| - 1];
      assert t == s[..|a| + |p| - 1];
      assert t[i..i + |p|] == s[i..i + |p|];
      assert OccursAt(t, p, i);
      assert false;
    }
    assert s[..i] == a && s[i + |p|..] == b;
  }

  lemma FirstOccurrence(s: string, p: string, i: nat)
    requires |p| > 0 && OccursAt(s, p, i)
    requires forall j :: 0 <= j < i ==> !OccursAt(s, p, j)
    ensures !Contains(s[..i] + p[..|p| - 1], p)
  {
    var t := s[..i] + p[..|p| - 1];
    assert t == s[..i + |p| - 1];
    forall j | 0 <= j <= |t| ensures !OccursAt(t, p, j) {
      if j + |p| <= |t| {
        assert t[j..j + |p|] == s[j..j + |p|];
        assert !OccursAt(s, p, j);
      }
    }
  }

  /** `s.replace(p, v)` for a non-empty `p`: every occurrence, left to right, without overlap. */
  function ReplaceAll(s: string, p: string, v: string): string
    requires |p| > 0
    decreases |s|
  {
    if |s| < |p| then s
    else if s[..|p|] == p then v + ReplaceAll(s[|p|..], p, v)
    else [s[0]] + ReplaceAll(s[1..], p, v)
  }

  /** Replacing a text that does not occur changes nothing. */
  lemma {:induction false} ReplaceAbsent(s: string, p: string, v: string)
    requires |p| > 0 && !Contains(s, p)
    ensures ReplaceAll(s, p, v) == s
    decreases |s|
  {
    if |s| < |p| {
    } else {
      ContainsPrefix2(s, p);
      ShiftContains(s, p);
      ReplaceAbsent(s[1..], p, v);
      assert s == [s[0]] + s[1..];
    }
  }

  lemma ContainsPrefix2(s: string, p: string)
    requires |p| <= |s| && !Contains(s, p)
    ensures s[..|p|] != p
  {
    if s[..|p|] == p { ContainsPrefix(s, p); }
  }

  /** Replacing a text by itself changes nothing. */
  lemma {:induction false} ReplaceSelf(s: string, p: string)
    requires |p| > 0
    ensures ReplaceAll(s, p, p) == s
    decreases |s|
  {
    if |s| < |p| {
    } else if s[..|p|] == p {
      ReplaceSelf(s[|p|..], p);
      assert s == s[..|p|] + s[|p|..];
    } else {
      ReplaceSelf(s[1..], p);
      assert s == [s[0]] + s[1..];
    }
  }

  /** Before the first occurrence, the text does not start with `p`. */
  lemma NotAtStart(a: string, p: string, b: string)
    requires |p| > 0 && |a| > 0 && !Contains(a + p[..|p| - 1], p)
    ensures (a + p + b)[..|p|] != p
  {
    var t := a + p[..|p| - 1];
    assert (a + p + b)[..|p|] == t[..|p|];
    if t[..|p|] == p {
      assert OccursAt(t, p, 0);
    }
  }

  /** No occurrence before the first one, after dropping a character either. */
  lemma AbsentInTail(a: string, p: string)
    requires |p| > 0 && |a| > 0 && !Contains(a + p[..|p| - 1], p)
    ensures !Contains(a[1..] + p[..|p| - 1], p)
  {
    var t := a + p[..|p| - 1];
    assert t[1..|t|] == a[1..] + p[..|p| - 1];
    if Contains(t[1..|t|], p) {
      ContainsWithin(t, p, 1, |t|);
    }
  }

  /** `replace` works through the first occurrence, then carries on after it. */
  lemma {:induction false} ReplaceFirst(a: string, p: string, b: string, v: string)
    requires |p| > 0 && !Contains(a + p[..|p| - 1], p)
    ensures ReplaceAll(a + p + b, p, v) == a + v + ReplaceAll(b, p, v)
    decreases |a|
  {
    var s := a + p + b;
    if |a| == 0 {
      assert s[..|p|] == p && s[|p|..] == b;
    } else {
      NotAtStart(a, p, b);
      AbsentInTail(a, p);
      ReplaceFirst(a[1..], p, b, v);
      assert s[0] == a[0] && s[1..] == a[1..] + p + b;
      var rest := ReplaceAll(b, p, v);
      assert ReplaceAll(s, p, v) == [a[0]] + (a[1..] + v + rest);
      AppendAssoc(a[1..], v, rest);
      AppendAssoc(a, v, rest);
      ConsAppend(a, v + rest);
    }
  }

  /** `replace` agrees with splitting at the first occurrence. */
  lemma ReplaceBySplit(s: string, p: string, v: string)
    requires |p| > 0
    ensures SplitOnceSub(s, p).None? ==> ReplaceAll(s, p, v) == s
    ensures SplitOnceSub(s, p).Some? ==>
              ReplaceAll(s, p, v) == SplitOnceSub(s, p).value.0 + v + ReplaceAll(SplitOnceSub(s, p).value.1, p, v)
  {
    match SplitOnceSub(s, p)
    case None => ReplaceAbsent(s, p, v);
    case Some((a, b)) => ReplaceFirst(a, p, b, v);
  }

  function DigitChar(d: nat): char
    requires d < 10
  {
    ('0' as int + d) as char
  }

  /** `str(n)` for a non-negative integer: its decimal digits, no leading zero. */
  function NatToString(n: nat): (r: string)
    ensures IsDigits(r)
    ensures n > 0 ==> r[0] != '0'
    decreases n
  {
    if n < 10 then [DigitChar(n)]
    else NatToString(n / 10) + [DigitChar(n % 10)]
  }

  /** Reading the digits back gives the number: the rendering is faithful. */
  function DigitsValue(s: string): nat
    requires forall i :: 0 <= i < |s| ==> IsDigit(s[i])
    decreases |s|
  {
    if |s| == 0 then 0
    else
      assert IsDigit(s[|s| - 1]);
      DigitsValue(s[..|s| - 1]) * 10 + (s[|s| - 1] as int - '0' as int)
  }

  lemma {:induction false} NatToStringValue(n: nat)
    ensures DigitsValue(NatToString(n)) == n
    decreases n
  {
    if n >= 10 {
      NatToStringValue(n / 10);
      var r := NatToString(n);
      assert r[..|r| - 1] == NatToString(n / 10);
    }
  }
}
