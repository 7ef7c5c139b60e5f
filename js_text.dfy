/**
 * The JavaScript string and array built-ins the autocomplete relies on:
 * whitespace as `\s` and `trim` see it, `toLowerCase`, `split(/\s+/)`, and
 * the default `sort`.
 */
module JsText {
  import Strings

  /** The characters `\s` matches: white space and line terminators. */
  const WHITESPACE: set<char> :=
    {'\t', '\n', '\U{000B}', '\U{000C}', '\r', ' ', '\U{00A0}', '\U{1680}',
     '\U{2000}', '\U{2001}', '\U{2002}', '\U{2003}', '\U{2004}', '\U{2005}', '\U{2006}',
     '\U{2007}', '\U{2008}', '\U{2009}', '\U{200A}',
     '\U{2028}', '\U{2029}', '\U{202F}', '\U{205F}', '\U{3000}', '\U{FEFF}'}

  /** A character `\s` matches. */
  predicate IsSpace(c: char)
  {
    c in WHITESPACE
  }

  /** No character of `s` is white space. */
  predicate NoSpace(s: string)
  {
    forall i :: 0 <= i < |s| ==> !IsSpace(s[i])
  }

  /** Every character of `s` is white space. */
  predicate AllSpace(s: string)
  {
    forall i :: 0 <= i < |s| ==> IsSpace(s[i])
  }

  /** The first position at or after `i` that is not white space, or the end. */
  function SkipSpace(s: string, i: nat): (j: nat)
    requires i <= |s|
    ensures i <= j <= |s|
    ensures forall k :: i <= k < j ==> IsSpace(s[k])
    ensures j == |s| || !IsSpace(s[j])
    decreases |s| - i
  {
    if i < |s| && IsSpace(s[i]) then SkipSpace(s, i + 1) else i
  }

  /** The position after the last character before `j` that is not white space, or 0. */
  function SkipSpaceBack(s: string, j: nat): (i: nat)
    requires j <= |s|
    ensures i <= j
    ensures forall k :: i <= k < j ==> IsSpace(s[k])
    ensures i == 0 || !IsSpace(s[i - 1])
  {
    if j > 0 && IsSpace(s[j - 1]) then SkipSpaceBack(s, j - 1) else j
  }

  /** Where the trimmed part of `s` starts. */
  function TrimStart(s: string): nat
  {
    SkipSpace(s, 0)
  }

  /** `s.trim()`: the part of `s` between its leading and its trailing white space. */
  function Trim(s: string): (r: string)
    ensures TrimStart(s) + |r| <= |s| && r == s[TrimStart(s)..TrimStart(s) + |r|]
  {
    var lo := SkipSpace(s, 0);
    var hi := SkipSpaceBack(s, |s|);
    if hi <= lo then [] else s[lo..hi]
  }

  /**
   * Trim cuts only white space off the ends: `s` is white space, then the
   * result, then white space, and the result neither starts nor ends with
   * white space.
   */
  lemma TrimCutsSpace(s: string)
    ensures var r, lo := Trim(s), TrimStart(s);
      && s == s[..lo] + r + s[lo + |r|..]
      && AllSpace(s[..lo]) && AllSpace(s[lo + |r|..])
      && (r == [] || (!IsSpace(r[0]) && !IsSpace(r[|r| - 1])))
  {
    var r, lo, hi := Trim(s), SkipSpace(s, 0), SkipSpaceBack(s, |s|);
    if hi <= lo {
      forall k | 0 <= k < |s| ensures IsSpace(s[k]) {
        if k >= lo {
          assert false;
        }
      }
    } else {
      assert hi == lo + |r|;
      assert r[0] == s[lo] && r[|r| - 1] == s[hi - 1];
    }
    assert s == s[..lo] + s[lo..lo + |r|] + s[lo + |r|..];
  }

  /** Trimming twice is trimming once. */
  lemma TrimIdempotent(s: string)
    ensures Trim(Trim(s)) == Trim(s)
  {
    var r := Trim(s);
    TrimCutsSpace(s);
    if r != [] {
      assert SkipSpace(r, 0) == 0;
      assert SkipSpaceBack(r, |r|) == |r|;
    }
  }

  /** `c.toLowerCase()` for a character of the ASCII range: A-Z become a-z. */
  function LowerChar(c: char): (d: char)
    ensures !('A' <= d <= 'Z')
    ensures d == c || 'A' <= c <= 'Z'
    ensures 'A' <= c <= 'Z' ==> 'a' <= d <= 'z' && d as int - 'a' as int == c as int - 'A' as int
  {
    if 'A' <= c <= 'Z' then (c as int + 32) as char else c
  }

  /**
   * `s.toLowerCase()`, character by character: no upper-case letter is
   * left, each upper-case letter becomes its lower-case letter, and every
   * other character stays.
   */
  function Lower(s: string): (r: string)
    ensures |r| == |s|
    ensures forall i :: 0 <= i < |r| ==> !('A' <= r[i] <= 'Z') && (r[i] == s[i] || 'A' <= s[i] <= 'Z')
    ensures forall i :: 0 <= i < |r| && 'A' <= s[i] <= 'Z' ==> 'a' <= r[i] <= 'z' && r[i] as int - 'a' as int == s[i] as int - 'A' as int
  {
    seq(|s|, i requires 0 <= i < |s| => LowerChar(s[i]))
  }

  /** Lower-casing keeps white space where it was. */
  lemma LowerKeepsSpace(s: string)
    ensures forall i :: 0 <= i < |s| ==> (IsSpace(Lower(s)[i]) <==> IsSpace(s[i]))
  {
  }

  /** Lower-casing is idempotent. */
  lemma LowerIdempotent(s: string)
    ensures Lower(Lower(s)) == Lower(s)
  {
  }

  /**
   * `s.split(/\s+/)`: the pieces between runs of white space. A leading
   * run gives an empty first piece, a trailing run an empty last piece, and
   * the empty string one empty piece.
   */
  function Split(s: string): (parts: seq<string>)
    ensures |parts| >= 1
    ensures forall i :: 0 <= i < |parts| ==> NoSpace(parts[i])
    decreases |s|
  {
    if s == [] then [""]
    else if !IsSpace(s[0]) then
      var rest := Split(s[1..]);
      [[s[0]] + rest[0]] + rest[1..]
    else [""] + Split(s[SkipSpace(s, 0)..])
  }

  /** The characters of `s` that are not white space, in order. */
  function Visible(s: string): (r: string)
    ensures NoSpace(r)
  {
    if s == [] then [] else (if IsSpace(s[0]) then [] else [s[0]]) + Visible(s[1..])
  }

  /** The pieces laid end to end. */
  function Concat(parts: seq<string>): string
  {
    if parts == [] then [] else parts[0] + Concat(parts[1..])
  }

  /** Split drops the white space and nothing else: its pieces laid end to end are `s` without white space. */
  lemma {:induction false} SplitKeepsVisible(s: string)
    ensures Concat(Split(s)) == Visible(s)
    decreases |s|
  {
    if s == [] {
    } else if !IsSpace(s[0]) {
      var rest := Split(s[1..]);
      SplitKeepsVisible(s[1..]);
      assert Concat(rest) == rest[0] + Concat(rest[1..]);
      assert s == [s[0]] + s[1..];
    } else {
      var t := s[SkipSpace(s, 0)..];
      SplitKeepsVisible(t);
      VisibleSkipsSpace(s, SkipSpace(s, 0));
      assert Concat([""] + Split(t)) == "" + Concat(Split(t));
    }
  }

  /** Leading white space contributes nothing visible. */
  lemma {:induction false} VisibleSkipsSpace(s: string, n: nat)
    requires n <= |s| && forall i :: 0 <= i < n ==> IsSpace(s[i])
    ensures Visible(s) == Visible(s[n..])
  {
    if n > 0 {
      VisibleSkipsSpace(s[1..], n - 1);
      assert s[1..][n - 1..] == s[n..];
    }
  }

  /** No piece but the first and the last is empty. */
  predicate InnerNonEmpty(parts: seq<string>)
  {
    forall i :: 0 < i < |parts| - 1 ==> parts[i] != ""
  }

  /** Only the first and the last piece can be empty. */
  lemma {:induction false} SplitInnerPiecesNonEmpty(s: string)
    ensures InnerNonEmpty(Split(s))
    decreases |s|
  {
    if s == [] {
    } else if !IsSpace(s[0]) {
      SplitInnerPiecesNonEmpty(s[1..]);
      var rest := Split(s[1..]);
      assert Split(s) == [[s[0]] + rest[0]] + rest[1..];
      assert |Split(s)| == |rest|;
      assert forall i :: 0 < i < |rest| ==> Split(s)[i] == rest[i];
    } else {
      var t := s[SkipSpace(s, 0)..];
      SplitInnerPiecesNonEmpty(t);
      SplitFirstPiece(t);
    }
  }

  /** A string that starts with a visible character has a non-empty first piece. */
  lemma SplitFirstPiece(s: string)
    ensures s != [] && !IsSpace(s[0]) ==> Split(s)[0] != "" && Split(s)[0][0] == s[0]
  {
  }

  /** Without white space the string is its own only piece. */
  lemma {:induction false} SplitNoSpace(s: string)
    requires NoSpace(s)
    ensures Split(s) == [s]
    decreases |s|
  {
    if s != [] {
      SplitNoSpace(s[1..]);
      assert [s[0]] + s[1..] == s;
    }
  }

  /** A string of white space only is one empty piece before the pieces of what follows it. */
  lemma SplitLeadingSpace(sp: string, b: string)
    requires sp != "" && AllSpace(sp) && (b == "" || !IsSpace(b[0]))
    ensures Split(sp + b) == [""] + Split(b)
  {
    SkipSpaceRun(sp + b, |sp|);
    assert (sp + b)[|sp|..] == b;
  }

  /**
   * `split` cuts at every run of white space: a visible word `a` followed
   * by a run `sp` is the first piece, and the rest is the pieces of what
   * follows the run. With SplitLeadingSpace and SplitNoSpace this fixes the
   * pieces of every string.
   */
  lemma {:induction false} SplitAtSpace(a: string, sp: string, b: string)
    requires a != "" && NoSpace(a)
    requires sp != "" && AllSpace(sp) && (b == "" || !IsSpace(b[0]))
    ensures Split(a + sp + b) == [a] + Split(b)
    decreases |a|
  {
    var s := a + sp + b;
    assert s[1..] == a[1..] + sp + b;
    if |a| == 1 {
      SplitLeadingSpace(sp, b);
      assert a[1..] + sp + b == sp + b;
      assert [a[0]] + "" == a;
    } else {
      SplitAtSpace(a[1..], sp, b);
      assert [a[0]] + a[1..] == a;
    }
  }

  /** A white-space run from the start that ends at `n` is what SkipSpace skips. */
  lemma SkipSpaceRun(s: string, n: nat)
    requires n <= |s| && (forall k :: 0 <= k < n ==> IsSpace(s[k])) && (n == |s| || !IsSpace(s[n]))
    ensures SkipSpace(s, 0) == n
  {
  }

  /** A lower bound of `ys` and of `t` is one of any rearrangement of `ys` with `t` added. */
  lemma BoundKeptByInsert(x: string, t: string, ys: seq<string>, r: seq<string>)
    requires forall k :: 0 <= k < |ys| ==> Strings.LessEq(x, ys[k])
    requires !Strings.LessEq(t, x)
    requires multiset(r) == multiset(ys) + multiset{t}
    ensures forall k :: 0 <= k < |r| ==> Strings.LessEq(x, r[k])
  {
    forall k | 0 <= k < |r| ensures Strings.LessEq(x, r[k]) {
      assert r[k] in multiset(r);
      if r[k] != t {
        assert r[k] in multiset(ys);
        var m :| 0 <= m < |ys| && ys[m] == r[k];
      } else {
        Strings.LessTotal(t, x);
      }
    }
  }

  /** `t` is inserted into the sorted `xs` at its place. */
  function Insert(t: string, xs: seq<string>): (r: seq<string>)
    requires Strings.Sorted(xs)
    ensures multiset(r) == multiset(xs) + multiset{t}
    ensures Strings.Sorted(r)
  {
    if xs == [] then [t]
    else if Strings.LessEq(t, xs[0]) then
      BelowFirst(t, xs);
      ConsSorted(t, xs);
      [t] + xs
    else
      SortedTail(xs);
      var rest := Insert(t, xs[1..]);
      BoundKeptByInsert(xs[0], t, xs[1..], rest);
      assert xs == [xs[0]] + xs[1..];
      ConsSorted(xs[0], rest);
      [xs[0]] + rest
  }

  /** A string at or before the first of a sorted list is at or before all of it. */
  lemma BelowFirst(t: string, xs: seq<string>)
    requires Strings.Sorted(xs) && xs != [] && Strings.LessEq(t, xs[0])
    ensures forall k :: 0 <= k < |xs| ==> Strings.LessEq(t, xs[k])
  {
    forall k | 0 <= k < |xs| ensures Strings.LessEq(t, xs[k]) {
      Strings.LessEqTransitive(t, xs[0], xs[k]);
    }
  }

  lemma SortedTail(xs: seq<string>)
    requires Strings.Sorted(xs) && xs != []
    ensures Strings.Sorted(xs[1..]) && forall k :: 0 <= k < |xs[1..]| ==> Strings.LessEq(xs[0], xs[1..][k])
  {
  }

  lemma ConsSorted(x: string, ys: seq<string>)
    requires Strings.Sorted(ys) && forall k :: 0 <= k < |ys| ==> Strings.LessEq(x, ys[k])
    ensures Strings.Sorted([x] + ys)
  {
  }

  /** `xs.sort()`: the same strings in ascending character order. */
  function Sort(xs: seq<string>): (r: seq<string>)
    ensures multiset(r) == multiset(xs)
    ensures Strings.Sorted(r)
  {
    if xs == [] then []
    else
      assert xs == xs[..|xs| - 1] + [xs[|xs| - 1]];
      Insert(xs[|xs| - 1], Sort(xs[..|xs| - 1]))
  }
}
