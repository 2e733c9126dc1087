/**
 The query normalisation of the translate handler: Python's `str.lower()`
 followed by `str.strip()` with no arguments.
 */
module Text {

  /** Python's `str.isspace`, which is what `strip()` with no arguments removes:
      U+0009..U+000D, U+001C..U+0020, U+0085, U+00A0, U+1680, U+2000..U+200A,
      U+2028, U+2029, U+202F, U+205F and U+3000. */
  predicate IsSpace(c: char) {
    || ('\U{9}' <= c <= '\U{D}')
    || ('\U{1C}' <= c <= '\U{20}')
    || c == '\U{85}'
    || c == '\U{A0}'
    || c == '\U{1680}'
    || ('\U{2000}' <= c <= '\U{200A}')
    || c == '\U{2028}'
    || c == '\U{2029}'
    || c == '\U{202F}'
    || c == '\U{205F}'
    || c == '\U{3000}'
  }

  /** The same white-space set listed character by character. */
  const PythonSpaces: set<char> := {
    '\U{9}', '\U{A}', '\U{B}', '\U{C}', '\U{D}',
    '\U{1C}', '\U{1D}', '\U{1E}', '\U{1F}', '\U{20}',
    '\U{85}', '\U{A0}', '\U{1680}',
    '\U{2000}', '\U{2001}', '\U{2002}', '\U{2003}', '\U{2004}', '\U{2005}',
    '\U{2006}', '\U{2007}', '\U{2008}', '\U{2009}', '\U{200A}',
    '\U{2028}', '\U{2029}', '\U{202F}', '\U{205F}', '\U{3000}'}

  /** The ranges of `IsSpace` cover exactly the twenty-nine listed characters. */
  lemma IsSpaceListed(c: char)
    ensures IsSpace(c) <==> c in PythonSpaces
  {
  }

  predicate IsUpper(c: char) {
    'A' <= c <= 'Z'
  }

  /** Every character of `s` is white space (true of the empty string). */
  predicate AllSpace(s: string) {
    forall i :: 0 <= i < |s| ==> IsSpace(s[i])
  }

  /** `s` has no white space at either end. */
  predicate Bare(s: string) {
    s == [] || (!IsSpace(s[0]) && !IsSpace(s[|s| - 1]))
  }

  /** `s` has no upper-case letter left. */
  predicate Lowered(s: string) {
    forall i :: 0 <= i < |s| ==> !IsUpper(s[i])
  }

  /** Case mapping of one character (ASCII letters only). */
  function LowerChar(c: char): (d: char)
    ensures !IsUpper(d)
    ensures IsSpace(d) <==> IsSpace(c)
    ensures !IsUpper(c) ==> d == c
    ensures IsUpper(c) ==> d as int - 'a' as int == c as int - 'A' as int
  {
    if IsUpper(c) then (c as int + 32) as char else c
  }

  /** Python's `str.lower()`: maps each character, keeping length and position. */
  function Lower(s: string): (r: string)
    ensures |r| == |s|
    ensures Lowered(r)
    ensures forall i :: 0 <= i < |s| ==> (IsSpace(r[i]) <==> IsSpace(s[i]))
    ensures forall i :: 0 <= i < |s| && !IsUpper(s[i]) ==> r[i] == s[i]
    ensures forall i :: 0 <= i < |s| && IsUpper(s[i]) ==> r[i] as int - 'a' as int == s[i] as int - 'A' as int
  {
    seq(|s|, i requires 0 <= i < |s| => LowerChar(s[i]))
  }

  /** Lower-casing leaves a text with no upper-case letter as it is. */
  lemma LowerFixed(s: string)
    requires Lowered(s)
    ensures Lower(s) == s
  {
    assert forall i :: 0 <= i < |s| ==> Lower(s)[i] == s[i];
  }

  /** Every character of `s` at an index in [lo, hi) is white space. */
  predicate SpaceBetween(s: string, lo: int, hi: int) {
    forall k :: lo <= k < hi && 0 <= k < |s| ==> IsSpace(s[k])
  }

  /** The left scan of `strip()`: from index `i`, the first index that is not white
      space, or the length of `s` when there is none. */
  function Lead(s: string, i: nat): (k: nat)
    requires i <= |s|
    ensures i <= k <= |s|
    ensures SpaceBetween(s, i, k)
    ensures k == |s| || !IsSpace(s[k])
    decreases |s| - i
  {
    if i < |s| && IsSpace(s[i]) then Lead(s, i + 1) else i
  }

  /** The right scan of `strip()`: going down from the end index `j` but never
      past `lo`, the end of the last character that is not white space. */
  function Trail(s: string, lo: nat, j: nat): (k: nat)
    requires lo <= j <= |s|
    ensures lo <= k <= j
    ensures SpaceBetween(s, k, j)
    ensures k == lo || !IsSpace(s[k - 1])
    decreases j - lo
  {
    if j > lo && IsSpace(s[j - 1]) then Trail(s, lo, j - 1) else j
  }

  /** `s` is white space, then `r` starting at index `i`, then white space. */
  predicate PaddedAt(s: string, r: string, i: nat) {
    && i + |r| <= |s|
    && s[i..i + |r|] == r
    && SpaceBetween(s, 0, i)
    && SpaceBetween(s, i + |r|, |s|)
  }

  /** `s` is `r` with some white space added at either end. */
  ghost predicate PaddingOf(s: string, r: string) {
    exists i: nat :: PaddedAt(s, r, i)
  }

  /** Python's `str.strip()`: `s` without white space at either end, cut out of `s`
      between the two scans. */
  function Strip(s: string): (r: string)
    ensures Bare(r)
    ensures PaddingOf(s, r)
    ensures r == [] <==> AllSpace(s)
  {
    var a := Lead(s, 0);
    var b := Trail(s, a, |s|);
    assert PaddedAt(s, s[a..b], a);
    s[a..b]
  }

  /** The key the handler looks words up under: `word.lower().strip()`. */
  function Normalize(s: string): (r: string)
    ensures Bare(r) && Lowered(r)
    ensures |r| <= |s|
    ensures r == [] <==> AllSpace(s)
    ensures PaddingOf(Lower(s), r)
  {
    var l := Lower(s);
    assert AllSpace(l) <==> AllSpace(s);
    var r := Strip(l);
    PaddedLowered(l, r);
    r
  }

  lemma AllSpaceAppend(a: string, b: string)
    requires AllSpace(a) && AllSpace(b)
    ensures AllSpace(a + b)
  {
    forall j | 0 <= j < |a + b| ensures IsSpace((a + b)[j]) {
      if j < |a| { assert (a + b)[j] == a[j]; } else { assert (a + b)[j] == b[j - |a|]; }
    }
  }

  /** Strip is determined by its specification: padding a bare string with white
      space on both sides and stripping gives the bare string back. */
  lemma StripPadded(p: string, w: string, q: string)
    requires AllSpace(p) && AllSpace(q) && Bare(w)
    ensures Strip(p + w + q) == w
  {
    var s := p + w + q;
    if w == [] {
      assert s == p + q;
      AllSpaceAppend(p, q);
      assert Lead(s, 0) == |s|;
    } else {
      var a, b := |p|, |p| + |w|;
      forall k | 0 <= k < a ensures IsSpace(s[k]) {
        assert s[k] == p[k];
      }
      assert s[a] == w[0];
      forall k | b <= k < |s| ensures IsSpace(s[k]) {
        assert s[k] == q[k - b];
      }
      assert s[b - 1] == w[|w| - 1];
      assert s[a..b] == w;
    }
  }

  /** A padding of a text with no upper-case letter has none either. */
  lemma PaddedLowered(l: string, r: string)
    requires PaddingOf(l, r) && Lowered(l)
    ensures Lowered(r)
  {
    var i: nat :| PaddedAt(l, r, i);
    forall j | 0 <= j < |r| ensures !IsUpper(r[j]) {
      assert r[j] == l[i + j];
    }
  }

  /** Lowering distributes over concatenation. */
  lemma LowerAppend(a: string, b: string)
    ensures Lower(a + b) == Lower(a) + Lower(b)
  {
  }

  /** Normalising keeps a word that is already a normalised key unchanged. */
  lemma NormalizeFixed(w: string)
    requires Bare(w) && Lowered(w)
    ensures Normalize(w) == w
  {
    LowerFixed(w);
    StripPadded([], w, []);
    assert [] + w + [] == w;
  }

  /** Normalisation is idempotent. */
  lemma NormalizeIdempotent(s: string)
    ensures Normalize(Normalize(s)) == Normalize(s)
  {
    NormalizeFixed(Normalize(s));
  }

  lemma Regroup(x: string, a: string, n: string, b: string, y: string)
    ensures x + (a + n + b) + y == (x + a) + n + (b + y)
  {
  }

  /** A padding of `r` at index `i` splits into white space, `r`, white space. */
  lemma PaddedSplit(s: string, r: string, i: nat)
    requires PaddedAt(s, r, i)
    ensures s == s[..i] + r + s[i + |r|..]
    ensures AllSpace(s[..i]) && AllSpace(s[i + |r|..])
  {
    assert s == s[..i] + s[i..i + |r|] + s[i + |r|..];
  }

  /** Case and surrounding white space do not matter: any variant of `w` that lowers
      to the same text and is padded with white space normalises to the same key. */
  lemma NormalizePaddedVariant(p: string, v: string, q: string, w: string)
    requires AllSpace(p) && AllSpace(q)
    requires Lower(v) == Lower(w)
    ensures Normalize(p + v + q) == Normalize(w)
  {
    var n := Normalize(w);
    var l := Lower(w);
    var i: nat :| PaddedAt(l, n, i);
    PaddedSplit(l, n, i);
    var p' := Lower(p) + l[..i];
    var q' := l[i + |n|..] + Lower(q);
    AllSpaceAppend(Lower(p), l[..i]);
    AllSpaceAppend(l[i + |n|..], Lower(q));
    LowerAppend(p + v, q);
    LowerAppend(p, v);
    var a, b, c := l[..i], l[i + |n|..], Lower(q);
    assert Lower(p + v + q) == Lower(p) + l + c;
    assert l == a + n + b;
    Regroup(Lower(p), a, n, b, c);
    StripPadded(p', n, q');
  }

}
