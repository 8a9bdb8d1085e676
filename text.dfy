/**
 * The JavaScript string operations the modelled code relies on, written out
 * over `seq<char>`: `startsWith`, `endsWith`, `indexOf`, `includes`,
 * `replace` with a string pattern, `join`, `trim`, `toLowerCase` and the
 * decimal rendering of an integer.
 */
module Text {
  import opened Wrappers

  /** `p` occurs in `s` starting at index `i`. */
  predicate OccursAt(s: string, p: string, i: nat)
  {
    i + |p| <= |s| && s[i..i + |p|] == p
  }

  predicate StartsWith(s: string, p: string)
  {
    OccursAt(s, p, 0)
  }

  predicate EndsWith(s: string, p: string)
  {
    |p| <= |s| && s[|s| - |p|..] == p
  }

  /** `s.indexOf(p, from)`: the first occurrence of `p` at or after `from`. */
  function IndexOfFrom(s: string, p: string, from: nat): (r: Option<nat>)
    ensures r.Some? ==> from <= r.value && OccursAt(s, p, r.value)
    ensures forall j: nat {:trigger OccursAt(s, p, j)} ::
      from <= j && (r.Some? ==> j < r.value) ==> !OccursAt(s, p, j)
    decreases |s| - from
  {
    if |s| < from + |p| then None
    else if OccursAt(s, p, from) then Some(from)
    else IndexOfFrom(s, p, from + 1)
  }

  function IndexOf(s: string, p: string): Option<nat>
  {
    IndexOfFrom(s, p, 0)
  }

  /** `s.includes(p)`. */
  predicate Contains(s: string, p: string)
  {
    IndexOf(s, p).Some?
  }

  lemma ContainsIff(s: string, p: string)
    ensures Contains(s, p) <==> exists i: nat :: OccursAt(s, p, i)
  {
    if Contains(s, p) {
      assert OccursAt(s, p, IndexOf(s, p).value);
    }
  }

  lemma OccursInMiddle(a: string, p: string, b: string)
    ensures OccursAt(a + p + b, p, |a|)
  {
    assert (a + p + b)[|a|..|a| + |p|] == p;
  }

  lemma ContainsMiddle(a: string, p: string, b: string)
    ensures Contains(a + p + b, p)
  {
    OccursInMiddle(a, p, b);
    ContainsIff(a + p + b, p);
  }

  /** No `$` in `s`, so `replace` inserts it as it is. */
  predicate NoDollar(s: string)
  {
    forall i :: 0 <= i < |s| ==> s[i] != '$'
  }

  /**
   * The replacement text of `replace` with a string pattern, its `$` patterns
   * expanded: `$$` is one `$`, `$&` the matched text, `` $` `` the text before
   * the match and `$'` the text after it. A string pattern has no capture
   * groups, so every other `$` stays as it is.
   */
  function Substitution(r: string, matched: string, before: string, after: string): string
    decreases |r|
  {
    if |r| == 0 then ""
    else if r[0] == '$' && |r| >= 2 && r[1] == '$' then "$" + Substitution(r[2..], matched, before, after)
    else if r[0] == '$' && |r| >= 2 && r[1] == '&' then matched + Substitution(r[2..], matched, before, after)
    else if r[0] == '$' && |r| >= 2 && r[1] == '`' then before + Substitution(r[2..], matched, before, after)
    else if r[0] == '$' && |r| >= 2 && r[1] == '\'' then after + Substitution(r[2..], matched, before, after)
    else [r[0]] + Substitution(r[1..], matched, before, after)
  }

  /** A replacement without `$` is inserted as it is. */
  lemma {:induction false} SubstitutionPlain(r: string, matched: string, before: string, after: string)
    requires NoDollar(r)
    ensures Substitution(r, matched, before, after) == r
    decreases |r|
  {
    if |r| > 0 {
      assert NoDollar(r[1..]) by {
        forall i | 0 <= i < |r| - 1 ensures r[1..][i] != '$' {
          assert r[1..][i] == r[i + 1];
        }
      }
      SubstitutionPlain(r[1..], matched, before, after);
      assert r == [r[0]] + r[1..];
    }
  }

  /** `$&` inserts the matched text and `$$` a single `$`. */
  lemma SubstitutionPatterns(matched: string, before: string, after: string)
    ensures Substitution("$&", matched, before, after) == matched
    ensures Substitution("$$", matched, before, after) == "$"
    ensures Substitution("$`$'", matched, before, after) == before + after
  {
    assert "$&"[2..] == "" && "$$"[2..] == "";
    assert "$`$'"[2..] == "$'" && "$'"[2..] == "";
    assert Substitution("$'", matched, before, after) == after + "" == after;
  }

  /**
   * `s.replace(p, r)` with a string pattern: only the first occurrence is
   * replaced, by `r` with its `$` patterns expanded.
   */
  function ReplaceFirst(s: string, p: string, r: string): string
  {
    match IndexOf(s, p)
    case None => s
    case Some(i) => s[..i] + Substitution(r, p, s[..i], s[i + |p|..]) + s[i + |p|..]
  }

  /** A pattern that occurs nowhere leaves the text as it is. */
  lemma ReplaceAbsent(s: string, p: string, r: string)
    requires forall i: nat :: !OccursAt(s, p, i)
    ensures ReplaceFirst(s, p, r) == s
  {
    ContainsIff(s, p);
  }

  /** Replacing the first occurrence at `i` keeps everything before and after it. */
  lemma ReplaceFirstAt(s: string, p: string, r: string, i: nat)
    requires OccursAt(s, p, i)
    requires forall j: nat :: j < i ==> !OccursAt(s, p, j)
    ensures ReplaceFirst(s, p, r) == s[..i] + Substitution(r, p, s[..i], s[i + |p|..]) + s[i + |p|..]
    ensures NoDollar(r) ==> ReplaceFirst(s, p, r) == s[..i] + r + s[i + |p|..]
  {
    var k := IndexOf(s, p);
    assert k.Some? && k.value == i;
    if NoDollar(r) {
      SubstitutionPlain(r, p, s[..i], s[i + |p|..]);
    }
  }

  /** `parts.join(sep)`. */
  function Join(parts: seq<string>, sep: string): string
  {
    if |parts| == 0 then ""
    else if |parts| == 1 then parts[0]
    else parts[0] + sep + Join(parts[1..], sep)
  }

  /** A string ends with itself as a substring. */
  lemma ContainsEnd(a: string, p: string)
    ensures Contains(a + p, p)
  {
    assert (a + p)[|a|..|a| + |p|] == p;
    assert OccursAt(a + p, p, |a|);
    ContainsIff(a + p, p);
  }

  /** Whatever a string contains, its extensions contain too. */
  lemma ContainsExtend(s: string, t: string)
    ensures forall p {:trigger Contains(s, p)} :: Contains(s, p) ==> Contains(s + t, p)
  {
    forall p | Contains(s, p) ensures Contains(s + t, p) {
      var i := IndexOf(s, p).value;
      assert OccursAt(s, p, i);
      assert (s + t)[i..i + |p|] == s[i..i + |p|];
      assert OccursAt(s + t, p, i);
      ContainsIff(s + t, p);
    }
  }

  /** The characters `String.prototype.trim` removes: ECMAScript WhiteSpace and LineTerminator. */
  predicate IsWhitespace(c: char)
  {
    c == '\t' || c == '\U{B}' || c == '\U{C}' || c == ' ' || c == '\U{A0}' || c == '\U{FEFF}'
    || c == '\U{1680}' || ('\U{2000}' <= c <= '\U{200A}') || c == '\U{202F}' || c == '\U{205F}'
    || c == '\U{3000}' || c == '\n' || c == '\r' || c == '\U{2028}' || c == '\U{2029}'
  }

  predicate IsBlank(s: string)
  {
    forall i :: 0 <= i < |s| ==> IsWhitespace(s[i])
  }

  function TrimStart(s: string): (r: string)
    ensures |r| <= |s| && r == s[|s| - |r|..]
    ensures IsBlank(s[..|s| - |r|])
    ensures r == [] || !IsWhitespace(r[0])
  {
    if |s| > 0 && IsWhitespace(s[0]) then
      var r := TrimStart(s[1..]);
      DropLeadingBlank(s, r);
      r
    else s
  }

  function TrimEnd(s: string): (r: string)
    ensures |r| <= |s| && r == s[..|r|]
    ensures IsBlank(s[|r|..])
    ensures r == [] || !IsWhitespace(r[|r| - 1])
  {
    if |s| > 0 && IsWhitespace(s[|s| - 1]) then
      var r := TrimEnd(s[..|s| - 1]);
      DropTrailingBlank(s, r);
      r
    else s
  }

  /** Dropping blank text after a leading whitespace character drops it from the whole text. */
  lemma DropLeadingBlank(s: string, r: string)
    requires |s| > 0 && IsWhitespace(s[0])
    requires |r| <= |s| - 1 && r == s[1..][|s| - 1 - |r|..] && IsBlank(s[1..][..|s| - 1 - |r|])
    ensures r == s[|s| - |r|..] && IsBlank(s[..|s| - |r|])
  {
    var n := |s| - |r|;
    forall i | 0 <= i < n ensures IsWhitespace(s[..n][i]) {
      if i > 0 {
        assert s[..n][i] == s[1..][..n - 1][i - 1];
      }
    }
  }

  /** Dropping blank text before a trailing whitespace character drops it from the whole text. */
  lemma DropTrailingBlank(s: string, r: string)
    requires |s| > 0 && IsWhitespace(s[|s| - 1])
    requires |r| <= |s| - 1 && r == s[..|s| - 1][..|r|] && IsBlank(s[..|s| - 1][|r|..])
    ensures r == s[..|r|] && IsBlank(s[|r|..])
  {
    var m := |r|;
    forall i | 0 <= i < |s| - m ensures IsWhitespace(s[m..][i]) {
      if i < |s| - 1 - m {
        assert s[m..][i] == s[..|s| - 1][m..][i];
      }
    }
  }

  /** A prefix of a suffix is a slice, and what follows it is the rest of the suffix. */
  lemma SliceOfSuffix<T>(s: seq<T>, t: seq<T>, r: seq<T>)
    requires |t| <= |s| && t == s[|s| - |t|..] && |r| <= |t| && r == t[..|r|]
    ensures r == s[|s| - |t|..|s| - |t| + |r|]
    ensures s[|s| - |t| + |r|..] == t[|r|..]
  {
  }

  /** `r` is `s` from index `k` on, with blank text before and after it. */
  predicate BlankFramed(s: string, r: string, k: int)
  {
    0 <= k <= |s| - |r| && r == s[k..k + |r|] && IsBlank(s[..k]) && IsBlank(s[k + |r|..])
  }

  /** `s.trim()`: the text without leading and trailing whitespace. */
  function Trim(s: string): (r: string)
    ensures r == [] || (!IsWhitespace(r[0]) && !IsWhitespace(r[|r| - 1]))
    ensures r == [] <==> IsBlank(s)
  {
    TrimEmpty(s);
    TrimEnd(TrimStart(s))
  }

  lemma TrimEmpty(s: string)
    ensures TrimEnd(TrimStart(s)) == [] <==> IsBlank(s)
  {
    var t := TrimStart(s);
    var r := TrimEnd(t);
    assert BlankFramed(s, r, |s| - |t|) && (r == [] || !IsWhitespace(r[0])) by {
      TrimmedFramed(s);
      assert r == [] || r[0] == t[0];
    }
    FramedEmptyIff(s, r, |s| - |t|);
  }

  /** A blank-framed slice that does not start with whitespace is empty exactly when all is blank. */
  lemma FramedEmptyIff(s: string, r: string, k: int)
    requires BlankFramed(s, r, k) && (r == [] || !IsWhitespace(r[0]))
    ensures r == [] <==> IsBlank(s)
  {
    if r == [] {
      forall i | 0 <= i < |s| ensures IsWhitespace(s[i]) {
        if i < k {
          assert s[i] == s[..k][i];
        } else {
          assert s[i] == s[k..][i - k];
        }
      }
    } else {
      assert s[k] == r[0];
    }
  }

  /** The trimmed text is a slice of the text with only whitespace before and after it. */
  lemma TrimSlice(s: string)
    ensures exists k :: BlankFramed(s, Trim(s), k)
  {
    TrimmedFramed(s);
    assert BlankFramed(s, Trim(s), |s| - |TrimStart(s)|);
  }

  /** The trimmed text sits where the leading whitespace ends. */
  lemma TrimmedFramed(s: string)
    ensures BlankFramed(s, TrimEnd(TrimStart(s)), |s| - |TrimStart(s)|)
  {
    FramedByParts(s, TrimStart(s), TrimEnd(TrimStart(s)));
  }

  /** A blank-framed prefix of a suffix whose lead is blank. */
  lemma FramedByParts(s: string, t: string, r: string)
    requires |t| <= |s| && t == s[|s| - |t|..] && IsBlank(s[..|s| - |t|])
    requires |r| <= |t| && r == t[..|r|] && IsBlank(t[|r|..])
    ensures BlankFramed(s, r, |s| - |t|)
  {
    SliceOfSuffix(s, t, r);
  }

  /** `toLowerCase` on one character; only the ASCII letters are mapped. */
  function LowerChar(c: char): char
  {
    if 'A' <= c <= 'Z' then (c as int + 32) as char else c
  }

  function ToLower(s: string): (r: string)
    ensures |r| == |s| && forall i :: 0 <= i < |s| ==> r[i] == LowerChar(s[i])
  {
    seq(|s|, i requires 0 <= i < |s| => LowerChar(s[i]))
  }

  predicate IsDigit(c: char)
  {
    '0' <= c <= '9'
  }

  /** The decimal rendering of a natural number, as template literals print it. */
  function NatToString(n: nat): (r: string)
    ensures |r| >= 1 && forall i :: 0 <= i < |r| ==> IsDigit(r[i])
  {
    var d := "0123456789"[n % 10];
    if n < 10 then [d] else NatToString(n / 10) + [d]
  }

  function IntToString(i: int): (r: string)
    ensures |r| >= 1 && (r[0] == '-' <==> i < 0)
  {
    if i < 0 then "-" + NatToString(-i) else NatToString(i)
  }
}
