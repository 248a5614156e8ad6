/**
 * The string helpers of Go's `strings` package that the client relies on:
 * `Join`, `Split` on a one-character separator, `Fields`, `TrimSpace`,
 * with whitespace as defined by `unicode.IsSpace`.
 */
module Text {
  import opened Results
  import opened Seqs

  /** Go's `unicode.IsSpace`: the Latin-1 spaces and the Unicode White_Space characters. */
  predicate IsSpace(c: char) {
    if c <= ' ' then c == ' ' || '\t' <= c <= '\r'
    else
      || c == '\U{85}' || c == '\U{A0}' || c == '\U{1680}'
      || ('\U{2000}' <= c <= '\U{200A}')
      || c == '\U{2028}' || c == '\U{2029}' || c == '\U{202F}' || c == '\U{205F}' || c == '\U{3000}'
  }

  /** In the Latin-1 range the white space is exactly the list Go documents for `unicode.IsSpace`. */
  lemma IsSpaceLatin1(c: char)
    requires c <= '\U{FF}'
    ensures IsSpace(c) <==> c in {'\t', '\n', '\U{B}', '\U{C}', '\r', ' ', '\U{85}', '\U{A0}'}
  {
  }

  predicate AllSpace(s: string) {
    forall i :: 0 <= i < |s| ==> IsSpace(s[i])
  }

  predicate NoSpace(s: string) {
    forall i :: 0 <= i < |s| ==> !IsSpace(s[i])
  }

  // ---------------------------------------------------------------------------
  // strings.Join, strings.Split

  /** `strings.Join`: the parts with `sep` between each adjacent pair. */
  function Join(parts: seq<string>, sep: string): (r: string)
    ensures |parts| == 0 ==> r == []
    ensures |parts| >= 1 ==> |parts[0]| <= |r| && r[..|parts[0]|] == parts[0]
  {
    if |parts| == 0 then []
    else if |parts| == 1 then parts[0]
    else parts[0] + sep + Join(parts[1..], sep)
  }

  /**
   * `strings.Split(s, string(d))`: the maximal pieces of `s` between
   * occurrences of `d`; never empty (the empty string splits into one piece).
   */
  function Split(s: string, d: char): (parts: seq<string>)
    ensures |parts| >= 1
    ensures forall i :: 0 <= i < |parts| ==> d !in parts[i]
  {
    if s == [] then [[]]
    else
      var rest := Split(s[1..], d);
      if s[0] == d then [[]] + rest else [[s[0]] + rest[0]] + rest[1..]
  }

  /** `s` with every occurrence of the character `d` replaced by `e`. */
  function ReplaceChar(s: string, d: char, e: string): (r: string)
    ensures d !in s ==> r == s
  {
    if s == [] then []
    else (if s[0] == d then e else [s[0]]) + ReplaceChar(s[1..], d, e)
  }

  /** Splitting on `d` and joining with `e` is the same as replacing `d` by `e`. */
  lemma {:induction false} JoinSplit(s: string, d: char, e: string)
    ensures Join(Split(s, d), e) == ReplaceChar(s, d, e)
  {
    if s != [] {
      var rest := Split(s[1..], d);
      JoinSplit(s[1..], d, e);
      if s[0] == d {
        var parts := Split(s, d);
        ConsRest([], rest);
        assert Join(parts, e) == [] + e + Join(rest, e);
        EmptyAppend(e + Join(rest, e));
      } else if |rest| >= 2 {
        var parts := Split(s, d);
        ConsRest([s[0]] + rest[0], rest[1..]);
        assert Join(parts, e) == [s[0]] + rest[0] + e + Join(rest[1..], e);
        assert Join(rest, e) == rest[0] + e + Join(rest[1..], e);
        AppendAssoc4([s[0]], rest[0], e, Join(rest[1..], e));
      }
    }
  }

  lemma {:induction false} ReplaceCharIdentity(s: string, d: char)
    ensures ReplaceChar(s, d, [d]) == s
  {
    if s != [] {
      ReplaceCharIdentity(s[1..], d);
      assert s == [s[0]] + s[1..];
    }
  }

  /** Joining the pieces of a split with the same separator restores the string. */
  lemma JoinSplitRoundTrip(s: string, d: char)
    ensures Join(Split(s, d), [d]) == s
  {
    JoinSplit(s, d, [d]);
    ReplaceCharIdentity(s, d);
  }

  lemma {:induction false} SplitAfterPiece(p: string, t: string, d: char)
    requires d !in p
    ensures Split(p + [d] + t, d) == [p] + Split(t, d)
  {
    if p == [] {
      assert ([d] + t)[1..] == t;
    } else {
      SplitAfterPiece(p[1..], t, d);
      assert (p + [d] + t)[1..] == p[1..] + [d] + t;
      assert [p[0]] + p[1..] == p;
    }
  }

  lemma {:induction false} SplitPiece(p: string, d: char)
    requires d !in p
    ensures Split(p, d) == [p]
  {
    if p != [] {
      SplitPiece(p[1..], d);
      assert [p[0]] + p[1..] == p;
    }
  }

  /**
   * Splitting a `d`-joined list of `d`-free pieces gives the pieces back:
   * the inverse direction of `JoinSplitRoundTrip`.
   */
  lemma {:induction false} SplitJoinRoundTrip(parts: seq<string>, d: char)
    requires |parts| >= 1
    requires forall i :: 0 <= i < |parts| ==> d !in parts[i]
    ensures Split(Join(parts, [d]), d) == parts
  {
    if |parts| == 1 {
      SplitPiece(parts[0], d);
    } else {
      SplitJoinRoundTrip(parts[1..], d);
      SplitAfterPiece(parts[0], Join(parts[1..], [d]), d);
      assert [parts[0]] + parts[1..] == parts;
    }
  }

  // ---------------------------------------------------------------------------
  // strings.Fields

  /** The longest prefix of `s` that holds no whitespace. */
  function Word(s: string): (w: string)
    ensures |w| <= |s| && w == s[..|w|]
    ensures NoSpace(w)
    ensures |w| < |s| ==> IsSpace(s[|w|])
    ensures s != [] && !IsSpace(s[0]) ==> |w| >= 1
  {
    if s == [] || IsSpace(s[0]) then [] else [s[0]] + Word(s[1..])
  }

  /**
   * `strings.Fields`: the maximal runs of non-whitespace characters of `s`,
   * in order; empty exactly when `s` is blank.
   */
  function Fields(s: string): (fs: seq<string>)
    ensures forall i :: 0 <= i < |fs| ==> fs[i] != [] && NoSpace(fs[i])
    ensures fs == [] <==> AllSpace(s)
    decreases |s|
  {
    if s == [] then []
    else if IsSpace(s[0]) then
      assert AllSpace(s) <==> AllSpace(s[1..]);
      Fields(s[1..])
    else
      var w := Word(s);
      [w] + Fields(s[|w|..])
  }

  /** Leading whitespace contributes no field. */
  lemma FieldsSkipSpace(s: string)
    requires s != [] && IsSpace(s[0])
    ensures Fields(s) == Fields(s[1..])
  {
  }

  // ---------------------------------------------------------------------------
  // strings.TrimSpace

  /** `s` without its trailing whitespace. */
  function TrimRight(s: string): (t: string)
    ensures |t| <= |s| && t == s[..|t|]
    ensures AllSpace(s[|t|..])
    ensures t == [] || !IsSpace(t[|t| - 1])
  {
    if s == [] then []
    else if IsSpace(s[|s| - 1]) then
      var t := TrimRight(s[..|s| - 1]);
      assert s[|t|..] == s[..|s| - 1][|t|..] + [s[|s| - 1]];
      t
    else s
  }

  /** `s` without its leading whitespace. */
  function TrimLeft(s: string): (t: string)
    ensures |t| <= |s| && t == s[|s| - |t|..]
    ensures AllSpace(s[..|s| - |t|])
    ensures t == [] || !IsSpace(t[0])
  {
    if s == [] then []
    else if IsSpace(s[0]) then
      var t := TrimLeft(s[1..]);
      ConsTake(s, |s| - 1 - |t|);
      DropRest(s, |s| - 1 - |t|);
      AllSpaceCons(s[0], s[1..][..|s| - 1 - |t|]);
      t
    else s
  }

  lemma AllSpaceCons(c: char, s: string)
    requires IsSpace(c) && AllSpace(s)
    ensures AllSpace([c] + s)
  {
  }

  /**
   * `strings.TrimSpace`: neither starts nor ends with white space;
   * `TrimSpaceSlice` says where it sits in `s`.
   */
  function TrimSpace(s: string): (t: string)
    ensures |t| <= |s|
    ensures t == [] || (!IsSpace(t[0]) && !IsSpace(t[|t| - 1]))
  {
    TrimSpaceSlice(s);
    TrimLeft(TrimRight(s))
  }

  /**
   * Where the text left by trimming both ends sits in `s`: a slice with only
   * white space before and after it, neither starting nor ending with white
   * space.
   */
  lemma TrimSpaceSlice(s: string)
    ensures var r := TrimRight(s);
            var t := TrimLeft(r);
            var i := |r| - |t|;
            && 0 <= i <= |s| - |t| && t == s[i..i + |t|] && AllSpace(s[..i]) && AllSpace(s[i + |t|..])
            && (t == [] || (!IsSpace(t[0]) && !IsSpace(t[|t| - 1])))
  {
    var r := TrimRight(s);
    var t := TrimLeft(r);
    var i := |r| - |t|;
    assert AllSpace(r[..i]);
    assert r[..i] == s[..i] by { SlicePrefix(s, |r|, 0, i); }
    assert AllSpace(s[..i]);
    assert t == s[i..|r|] by { SlicePrefix(s, |r|, i, |r|); }
    assert t != [] ==> t[|t| - 1] == r[|r| - 1];
  }

  lemma {:induction false} TrimRightAppend(x: string, r: string)
    requires !AllSpace(r)
    ensures TrimRight(x + r) == x + TrimRight(r)
    decreases |r|
  {
    var n := |r| - 1;
    if IsSpace(r[n]) {
      assert !AllSpace(r[..n]);
      assert (x + r)[..|x + r| - 1] == x + r[..n];
      TrimRightAppend(x, r[..n]);
    }
  }

  lemma {:induction false} TrimRightSpaces(x: string, r: string)
    requires AllSpace(r)
    ensures TrimRight(x + r) == TrimRight(x)
    decreases |r|
  {
    if r == [] {
      assert x + r == x;
    } else {
      var n := |r| - 1;
      assert IsSpace((x + r)[|x + r| - 1]);
      assert (x + r)[..|x + r| - 1] == x + r[..n];
      assert AllSpace(r[..n]);
      TrimRightSpaces(x, r[..n]);
    }
  }

  /**
   * `t` ends with the whitespace-free word `w`, preceded there by whitespace
   * or nothing.
   */
  predicate EndsWithWord(t: string, w: string) {
    && w != [] && NoSpace(w) && |w| <= |t|
    && t[|t| - |w|..] == w
    && (|w| == |t| || IsSpace(t[|t| - |w| - 1]))
  }

  /**
   * `w` is the last whitespace-free word of `s`: it ends `s` once trailing
   * whitespace is removed.
   */
  predicate IsFinalWord(s: string, w: string) {
    EndsWithWord(TrimRight(s), w)
  }

  /** A final word stays final when text ending in whitespace, or a longer text, comes before it. */
  lemma EndsWithWordAfter(p: string, t: string, w: string)
    requires EndsWithWord(t, w)
    requires |w| < |t| || p == [] || IsSpace(p[|p| - 1])
    ensures EndsWithWord(p + t, w)
  {
    var b := p + t;
    assert b[|b| - |w|..] == t[|t| - |w|..];
    if |w| < |t| {
      assert b[|b| - |w| - 1] == t[|t| - |w| - 1];
    } else if p != [] {
      assert b[|b| - |w| - 1] == p[|p| - 1];
    }
  }

  lemma FinalWordAfterSpace(s: string, w: string)
    requires s != [] && IsSpace(s[0]) && !AllSpace(s[1..]) && IsFinalWord(s[1..], w)
    ensures IsFinalWord(s, w)
  {
    FirstAndRest(s);
    TrimRightAppend([s[0]], s[1..]);
    EndsWithWordAfter([s[0]], TrimRight(s[1..]), w);
  }

  lemma FinalWordAlone(w0: string, rest: string)
    requires w0 != [] && NoSpace(w0) && AllSpace(rest)
    ensures IsFinalWord(w0 + rest, w0)
  {
    TrimRightSpaces(w0, rest);
    assert TrimRight(w0) == w0;
  }

  lemma FinalWordAfterWord(w0: string, rest: string, w: string)
    requires rest != [] && IsSpace(rest[0]) && !AllSpace(rest) && IsFinalWord(rest, w)
    ensures IsFinalWord(w0 + rest, w)
  {
    TrimRightAppend(w0, rest);
    var t1 := TrimRight(rest);
    if |w| == |t1| {
      assert false;
    }
    EndsWithWordAfter(w0, t1, w);
  }

  /** The last of the `Fields` of `s` is its final word. */
  lemma {:induction false} LastFieldIsFinalWord(s: string)
    requires Fields(s) != []
    ensures IsFinalWord(s, Fields(s)[|Fields(s)| - 1])
    decreases |s|, 1
  {
    if IsSpace(s[0]) {
      LastFieldAfterSpace(s);
    } else {
      LastFieldAfterWord(s);
    }
  }

  lemma {:induction false} LastFieldAfterSpace(s: string)
    requires Fields(s) != [] && IsSpace(s[0])
    ensures IsFinalWord(s, Fields(s)[|Fields(s)| - 1])
    decreases |s|, 0
  {
    FieldsSkipSpace(s);
    LastFieldIsFinalWord(s[1..]);
    FinalWordAfterSpace(s, Fields(s)[|Fields(s)| - 1]);
  }

  lemma {:induction false} LastFieldAfterWord(s: string)
    requires Fields(s) != [] && !IsSpace(s[0])
    ensures IsFinalWord(s, Fields(s)[|Fields(s)| - 1])
    decreases |s|, 0
  {
    var fs := Fields(s);
    var w0 := Word(s);
    var rest := s[|w0|..];
    TakeDrop(s, |w0|);
    assert fs == [w0] + Fields(rest);
    if Fields(rest) == [] {
      FinalWordAlone(w0, rest);
    } else {
      LastFieldIsFinalWord(rest);
      var last := fs[|fs| - 1];
      assert last == Fields(rest)[|Fields(rest)| - 1];
      assert IsFinalWord(rest, last);
      FinalWordAfterWord(w0, rest, last);
    }
  }

  /**
   * The last whitespace-separated field of `s` (Go: `elements[len(elements) - 1]`
   * after `strings.Fields`), or `None` when `s` is blank.
   */
  function LastField(s: string): (r: Option<string>)
    ensures r.None? <==> AllSpace(s)
    ensures r.Some? ==> IsFinalWord(s, r.value)
  {
    var fs := Fields(s);
    if |fs| == 0 then None
    else
      LastFieldIsFinalWord(s);
      Some(fs[|fs| - 1])
  }
}
