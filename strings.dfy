/**
 * The few .NET string facilities the controllers rely on: `string.IsNullOrEmpty`,
 * `string.IsNullOrWhiteSpace`, `string.Trim` and `Environment.NewLine`.
 */
module Strings {
  import opened Wrappers

  /** `Environment.NewLine`: platform dependent, so left abstract. */
  const NewLine: string

  /**
   * The characters `char.IsWhiteSpace` accepts: the Unicode space, line and
   * paragraph separators (categories Zs, Zl, Zp) plus U+0009..U+000D and U+0085.
   */
  const WhiteSpaceChars: set<char> := {
    ' ', '\t', '\n', '\U{0B}', '\U{0C}', '\r', '\U{85}', '\U{A0}', '\U{1680}',
    '\U{2000}', '\U{2001}', '\U{2002}', '\U{2003}', '\U{2004}', '\U{2005}',
    '\U{2006}', '\U{2007}', '\U{2008}', '\U{2009}', '\U{200A}',
    '\U{2028}', '\U{2029}', '\U{202F}', '\U{205F}', '\U{3000}'
  }

  /** `char.IsWhiteSpace`. */
  predicate IsWhiteSpace(c: char) {
    c in WhiteSpaceChars
  }

  predicate AllWhiteSpace(s: string) {
    forall k :: 0 <= k < |s| ==> IsWhiteSpace(s[k])
  }

  /** Neither end of `s` is white space. */
  predicate Trimmed(s: string) {
    s == [] || (!IsWhiteSpace(s[0]) && !IsWhiteSpace(s[|s| - 1]))
  }

  predicate IsNullOrEmpty(s: Option<string>) {
    s.None? || s.value == ""
  }

  predicate IsNullOrWhiteSpace(s: Option<string>) {
    s.None? || AllWhiteSpace(s.value)
  }

  /** `s` with its leading white space removed: a suffix of `s`. */
  function TrimStart(s: string): (r: string)
    ensures |r| <= |s| && r == s[|s| - |r|..]
    ensures forall k :: 0 <= k < |s| - |r| ==> IsWhiteSpace(s[k])
    ensures r == [] || !IsWhiteSpace(r[0])
    decreases |s|
  {
    if s != [] && IsWhiteSpace(s[0]) then TrimStart(s[1..]) else s
  }

  /** `s` with its trailing white space removed: a prefix of `s`. */
  function TrimEnd(s: string): (r: string)
    ensures |r| <= |s| && r == s[..|r|]
    ensures forall k :: |r| <= k < |s| ==> IsWhiteSpace(s[k])
    ensures r == [] || !IsWhiteSpace(r[|r| - 1])
    decreases |s|
  {
    if s != [] && IsWhiteSpace(s[|s| - 1]) then TrimEnd(s[..|s| - 1]) else s
  }

  /** `string.Trim()`: neither end of the result is white space. */
  function Trim(s: string): (r: string)
    ensures Trimmed(r)
  {
    var t := TrimStart(s);
    var r := TrimEnd(t);
    assert r != [] ==> |t| > 0 && r == t[..|r|] && r[0] == t[0] && !IsWhiteSpace(t[0]);
    r
  }

  /**
   * Trim gives the infix of `s` left once the white space at both ends is
   * removed: everything removed is white space.
   */
  lemma {:induction false} TrimSplits(s: string)
    ensures var i, r := |s| - |TrimStart(s)|, Trim(s);
      && i + |r| <= |s|
      && r == s[i..i + |r|]
      && (forall k :: 0 <= k < i ==> IsWhiteSpace(s[k]))
      && (forall k :: i + |r| <= k < |s| ==> IsWhiteSpace(s[k]))
  {
    var t := TrimStart(s);
    var i := |s| - |t|;
    SuffixPrefix(s, i, |TrimEnd(t)|);
    TrimEndOfSuffix(s, i);
  }

  /** A prefix of the suffix `s[i..]` is an infix of `s`. */
  lemma SuffixPrefix(s: string, i: nat, n: nat)
    requires i + n <= |s|
    ensures s[i..][..n] == s[i..i + n]
  {
  }

  /** What TrimEnd drops from the suffix `s[i..]` is white space of `s`. */
  lemma {:induction false} TrimEndOfSuffix(s: string, i: nat)
    requires i <= |s|
    ensures forall k :: i + |TrimEnd(s[i..])| <= k < |s| ==> IsWhiteSpace(s[k])
  {
    var t := s[i..];
    var n := |TrimEnd(t)|;
    forall k | i + n <= k < |s| ensures IsWhiteSpace(s[k]) {
      assert s[k] == t[k - i];
    }
  }

  lemma {:induction false} TrimStartSkips(a: string, t: string)
    requires AllWhiteSpace(a)
    ensures TrimStart(a + t) == TrimStart(t)
    decreases |a|
  {
    if a != [] {
      var s := a + t;
      assert s[0] == a[0] && IsWhiteSpace(a[0]);
      assert s[1..] == a[1..] + t;
      assert AllWhiteSpace(a[1..]) by {
        forall k | 0 <= k < |a[1..]| ensures IsWhiteSpace(a[1..][k]) { assert a[1..][k] == a[k + 1]; }
      }
      assert TrimStart(s) == TrimStart(s[1..]);
      TrimStartSkips(a[1..], t);
    } else {
      assert a + t == t;
    }
  }

  lemma {:induction false} TrimEndSkips(t: string, b: string)
    requires AllWhiteSpace(b)
    ensures TrimEnd(t + b) == TrimEnd(t)
    decreases |b|
  {
    if b != [] {
      var s := t + b;
      assert s[|s| - 1] == b[|b| - 1] && IsWhiteSpace(b[|b| - 1]);
      assert s[..|s| - 1] == t + b[..|b| - 1];
      assert AllWhiteSpace(b[..|b| - 1]) by {
        var b' := b[..|b| - 1];
        forall k | 0 <= k < |b'| ensures IsWhiteSpace(b'[k]) { assert b'[k] == b[k]; }
      }
      assert TrimEnd(s) == TrimEnd(s[..|s| - 1]);
      TrimEndSkips(t, b[..|b| - 1]);
    } else {
      assert t + b == t;
    }
  }

  /**
   * Trim is determined by its characterisation: white space, then a string
   * whose ends are not white space, then white space, trims to the middle part.
   */
  lemma {:induction false} TrimUnique(a: string, m: string, b: string)
    requires AllWhiteSpace(a) && Trimmed(m) && AllWhiteSpace(b)
    ensures Trim(a + m + b) == m
  {
    assert a + m + b == a + (m + b);
    TrimStartSkips(a, m + b);
    if m == [] {
      assert m + b == b;
      assert TrimStart(b) == [];
    } else {
      assert TrimStart(m + b) == m + b;
      TrimEndSkips(m, b);
    }
  }

  /** Trimming is idempotent. */
  lemma {:induction false} TrimIdempotent(s: string)
    ensures Trim(Trim(s)) == Trim(s)
  {
    var m := Trim(s);
    assert [] + m + [] == m;
    TrimUnique([], m, []);
  }
}
