/**
 * The whitespace trimming both search forms apply before submitting a term:
 * JavaScript's `String.prototype.trim`, which removes the ECMAScript WhiteSpace
 * and LineTerminator code points from both ends of a string.
 */
module Strings {
  import opened Wrappers

  /** The code points `trim` removes: tab, line tabulation, form feed, space,
      no-break space, zero-width no-break space, the Unicode space separators
      (category Zs) and the four line terminators. */
  predicate IsWhitespace(c: char): (ws: bool)
    ensures c == ' ' || c == '\t' || c == '\n' || c == '\r' ==> ws
    ensures ('a' <= c <= 'z') || ('A' <= c <= 'Z') || ('0' <= c <= '9') ==> !ws
  {
    || c == '\t' || c == '\n' || c == '\U{000B}' || c == '\U{000C}' || c == '\r'
    || c == ' ' || c == '\U{00A0}' || c == '\U{1680}'
    || ('\U{2000}' <= c <= '\U{200A}')
    || c == '\U{2028}' || c == '\U{2029}' || c == '\U{202F}' || c == '\U{205F}'
    || c == '\U{3000}' || c == '\U{FEFF}'
  }

  /** Every character of `s` is whitespace (the empty string included). */
  predicate Blank(s: string) {
    forall i :: 0 <= i < |s| ==> IsWhitespace(s[i])
  }

  lemma BlankConcat(a: string, b: string)
    requires Blank(a) && Blank(b)
    ensures Blank(a + b)
  {
  }

  /** `s` without its leading whitespace: a suffix of `s`, preceded only by
      whitespace, and not itself starting with whitespace. */
  function TrimStart(s: string): (r: string)
    ensures |r| <= |s| && r == s[|s| - |r|..]
    ensures Blank(s[..|s| - |r|])
    ensures r == [] || !IsWhitespace(r[0])
  {
    if |s| > 0 && IsWhitespace(s[0]) then
      var r := TrimStart(s[1..]);
      assert s[..|s| - |r|] == [s[0]] + s[1..][..|s[1..]| - |r|];
      r
    else
      s
  }

  /** `s` without its trailing whitespace: a prefix of `s`, followed only by
      whitespace, and not itself ending with whitespace. */
  function TrimEnd(s: string): (r: string)
    ensures |r| <= |s| && r == s[..|r|]
    ensures Blank(s[|r|..])
    ensures r == [] || !IsWhitespace(r[|r| - 1])
  {
    if |s| > 0 && IsWhitespace(s[|s| - 1]) then
      var r := TrimEnd(s[..|s| - 1]);
      assert s[|r|..] == s[..|s| - 1][|r|..] + [s[|s| - 1]];
      r
    else
      s
  }

  lemma SuffixSlices(s: string, k: nat, n: nat)
    requires k + n <= |s|
    ensures s[k..][..n] == s[k..k + n] && s[k..][n..] == s[k + n..]
  {
  }

  /** `s.trim()`: the slice of `s` left once the whitespace at both ends is
      cut off; whatever was cut off is whitespace, and the result neither
      starts nor ends with whitespace. */
  function Trim(s: string): (r: string)
    ensures var k := |s| - |TrimStart(s)|;
      && k + |r| <= |s|
      && r == s[k..k + |r|]
      && Blank(s[..k]) && Blank(s[k + |r|..])
    ensures r == [] || (!IsWhitespace(r[0]) && !IsWhitespace(r[|r| - 1]))
  {
    var t := TrimStart(s);
    var r := TrimEnd(t);
    SuffixSlices(s, |s| - |t|, |r|);
    r
  }

  /** A string trims to nothing exactly when it is all whitespace. */
  lemma TrimEmptyIffBlank(s: string)
    ensures Trim(s) == [] <==> Blank(s)
  {
  }

  /** Trimming a trimmed string changes nothing. */
  lemma TrimIdempotent(s: string)
    ensures Trim(Trim(s)) == Trim(s)
  {
  }

  lemma {:induction false} TrimStartAfterBlank(p: string, s: string)
    requires Blank(p)
    ensures TrimStart(p + s) == TrimStart(s)
    decreases |p|
  {
    if p != [] {
      assert (p + s)[1..] == p[1..] + s;
      TrimStartAfterBlank(p[1..], s);
    } else {
      assert p + s == s;
    }
  }

  lemma {:induction false} TrimStartBeforeBlank(s: string, q: string)
    requires !Blank(s)
    ensures TrimStart(s + q) == TrimStart(s) + q
    decreases |s|
  {
    assert s != [];
    if IsWhitespace(s[0]) {
      assert (s + q)[1..] == s[1..] + q;
      assert !Blank(s[1..]) by {
        var i :| 0 <= i < |s| && !IsWhitespace(s[i]);
        assert s[1..][i - 1] == s[i];
      }
      TrimStartBeforeBlank(s[1..], q);
    }
  }

  lemma {:induction false} TrimEndBeforeBlank(s: string, q: string)
    requires Blank(q)
    ensures TrimEnd(s + q) == TrimEnd(s)
    decreases |q|
  {
    if q != [] {
      assert (s + q)[..|s + q| - 1] == s + q[..|q| - 1];
      assert (s + q)[|s + q| - 1] == q[|q| - 1];
      TrimEndBeforeBlank(s, q[..|q| - 1]);
    } else {
      assert s + q == s;
    }
  }

  /** Whitespace added around a string never reaches the trimmed result. */
  lemma TrimIgnoresPadding(p: string, s: string, q: string)
    requires Blank(p) && Blank(q)
    ensures Trim(p + s + q) == Trim(s)
  {
    assert p + s + q == p + (s + q);
    TrimStartAfterBlank(p, s + q);
    if Blank(s) {
      BlankConcat(s, q);
      TrimEmptyIffBlank(s + q);
      TrimEmptyIffBlank(s);
    } else {
      TrimStartBeforeBlank(s, q);
      TrimEndBeforeBlank(TrimStart(s), q);
    }
  }

  /** Trim is the one decomposition into whitespace, a core that neither
      starts nor ends with whitespace, and whitespace: it returns that core. */
  lemma TrimCharacterisation(p: string, core: string, q: string)
    requires Blank(p) && Blank(q)
    requires core == [] || (!IsWhitespace(core[0]) && !IsWhitespace(core[|core| - 1]))
    ensures Trim(p + core + q) == core
  {
    TrimIgnoresPadding(p, core, q);
    assert TrimStart(core) == core;
    assert TrimEnd(core) == core;
  }

  /** The guard `if (x.trim()) use(x.trim())`: the trimmed string when it is
      non-empty, nothing when `x` is all whitespace. */
  function TrimmedIfNonBlank(s: string): (r: Option<string>)
    ensures r.None? <==> Blank(s)
    ensures r.Some? ==> r.value == Trim(s) && r.value != []
  {
    TrimEmptyIffBlank(s);
    var t := Trim(s);
    if t != [] then Some(t) else None
  }

  /** The guard only sees the trimmed term: padding changes neither whether
      something is submitted nor what. */
  lemma TrimmedIfNonBlankIgnoresPadding(p: string, s: string, q: string)
    requires Blank(p) && Blank(q)
    ensures TrimmedIfNonBlank(p + s + q) == TrimmedIfNonBlank(s)
  {
    TrimIgnoresPadding(p, s, q);
  }

  /** `Array.prototype.join`: the elements in order, `sep` between neighbours. */
  function Join(xs: seq<string>, sep: string): (r: string)
    ensures |xs| == 0 ==> r == ""
    ensures |xs| == 1 ==> r == xs[0]
    ensures |xs| > 0 ==> |r| >= |xs[0]| && r[..|xs[0]|] == xs[0]
    ensures |xs| > 1 ==> |r| >= |xs[0]| + |sep| && r[|xs[0]|..|xs[0]| + |sep|] == sep
    ensures |xs| > 0 ==> |r| >= |xs[|xs| - 1]| && r[|r| - |xs[|xs| - 1]|..] == xs[|xs| - 1]
  {
    if |xs| == 0 then ""
    else if |xs| == 1 then xs[0]
    else xs[0] + sep + Join(xs[1..], sep)
  }

  /** Joining two non-empty lists puts the separator exactly once between
      the two joins: every element appears, in order, with `sep` between
      neighbours. */
  lemma {:induction false} JoinAppend(xs: seq<string>, ys: seq<string>, sep: string)
    requires xs != [] && ys != []
    ensures Join(xs + ys, sep) == Join(xs, sep) + sep + Join(ys, sep)
  {
    assert (xs + ys)[0] == xs[0];
    assert (xs + ys)[1..] == xs[1..] + ys;
    if |xs| > 1 {
      JoinAppend(xs[1..], ys, sep);
    }
  }
}
