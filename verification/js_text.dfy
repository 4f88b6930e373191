/**
 `String.prototype.trim`: removal of leading and trailing white space, where
 white space is the union of ECMAScript's WhiteSpace and LineTerminator code
 points. `Trimmed` is the declarative reading of trimming; `Trim` computes it
 by scanning for the first and last visible characters, and the lemmas show
 the answer is unique.
 */
module JsText {

  /** The code points `trim` removes: tab, line feed, vertical tab, form
      feed, carriage return, space, no-break space, the Unicode space
      separators, line and paragraph separator, and the byte order mark. */
  predicate IsSpace(c: char) {
    var n := c as int;
    || n == 0x09 || n == 0x0A || n == 0x0B || n == 0x0C || n == 0x0D
    || n == 0x20 || n == 0xA0 || n == 0x1680
    || (0x2000 <= n && n <= 0x200A)
    || n == 0x2028 || n == 0x2029 || n == 0x202F || n == 0x205F
    || n == 0x3000 || n == 0xFEFF
  }

  predicate AllSpace(s: string) {
    forall m :: 0 <= m < |s| ==> IsSpace(s[m])
  }

  /** `t` is the slice `s[i..j]`, everything before `i` and from `j` on is
      white space, and a non-empty `t` starts and ends with a visible
      character. */
  predicate TrimmedAt(s: string, t: string, i: int, j: int) {
    && 0 <= i <= j <= |s|
    && t == s[i..j]
    && (forall m :: 0 <= m < i ==> IsSpace(s[m]))
    && (forall m :: j <= m < |s| ==> IsSpace(s[m]))
    && (i < j ==> !IsSpace(s[i]) && !IsSpace(s[j - 1]))
  }

  /** `t` is a trimming of `s`. */
  ghost predicate Trimmed(s: string, t: string) {
    exists i, j :: TrimmedAt(s, t, i, j)
  }

  /** The index of the first visible character at or after `i`, or `|s|`. */
  function SkipForward(s: string, i: nat): (k: nat)
    requires i <= |s|
    ensures i <= k <= |s|
    ensures forall m :: i <= m < k ==> IsSpace(s[m])
    ensures k < |s| ==> !IsSpace(s[k])
    decreases |s| - i
  {
    if i < |s| && IsSpace(s[i]) then SkipForward(s, i + 1) else i
  }

  /** The end of the last visible character in `s[lo..j]`, or `lo`. */
  function SkipBackward(s: string, lo: nat, j: nat): (k: nat)
    requires lo <= j <= |s|
    ensures lo <= k <= j
    ensures forall m :: k <= m < j ==> IsSpace(s[m])
    ensures k > lo ==> !IsSpace(s[k - 1])
  {
    if j > lo && IsSpace(s[j - 1]) then SkipBackward(s, lo, j - 1) else j
  }

  /** JavaScript `s.trimStart()`. */
  function TrimStart(s: string): string {
    s[SkipForward(s, 0)..]
  }

  /** JavaScript `s.trimEnd()`. */
  function TrimEnd(s: string): string {
    s[..SkipBackward(s, 0, |s|)]
  }

  /** JavaScript `s.trim()`. */
  function Trim(s: string): (r: string)
    ensures Trimmed(s, r)
  {
    var i := SkipForward(s, 0);
    var j := SkipBackward(s, i, |s|);
    assert TrimmedAt(s, s[i..j], i, j);
    s[i..j]
  }

  /** A trimming is empty exactly when the whole string is white space. */
  lemma TrimmedEmptyIffAllSpace(s: string, t: string)
    requires Trimmed(s, t)
    ensures t == [] <==> AllSpace(s)
  {
    var i, j :| TrimmedAt(s, t, i, j);
    if t != [] {
      assert t[0] == s[i];
    }
  }

  /** There is only one trimming of a string, so `Trim` is determined by
      `Trimmed`. */
  lemma TrimmedUnique(s: string, t1: string, t2: string)
    requires Trimmed(s, t1) && Trimmed(s, t2)
    ensures t1 == t2
  {
    var i1, j1 :| TrimmedAt(s, t1, i1, j1);
    var i2, j2 :| TrimmedAt(s, t2, i2, j2);
    TrimmedEmptyIffAllSpace(s, t1);
    TrimmedEmptyIffAllSpace(s, t2);
    if t1 != [] && t2 != [] {
      assert i1 == i2 && j1 == j2;
    }
  }

  /** An already trimmed string with white space added around it is a
      trimming of the padded string. */
  lemma PaddedIsTrimmed(pre: string, t: string, post: string)
    requires AllSpace(pre) && AllSpace(post)
    requires t == [] || (!IsSpace(t[0]) && !IsSpace(t[|t| - 1]))
    ensures Trimmed(pre + t + post, t)
  {
    var s := pre + t + post;
    var i, j := |pre|, |pre| + |t|;
    assert s[i..j] == t;
    forall m | 0 <= m < i
      ensures IsSpace(s[m])
    {
      assert s[m] == pre[m];
    }
    forall m | j <= m < |s|
      ensures IsSpace(s[m])
    {
      assert s[m] == post[m - j];
    }
    assert TrimmedAt(s, t, i, j);
  }

  /** White space added around an already trimmed string is removed again. */
  lemma TrimRemovesPadding(pre: string, t: string, post: string)
    requires AllSpace(pre) && AllSpace(post)
    requires t == [] || (!IsSpace(t[0]) && !IsSpace(t[|t| - 1]))
    ensures Trim(pre + t + post) == t
  {
    PaddedIsTrimmed(pre, t, post);
    TrimmedUnique(pre + t + post, Trim(pre + t + post), t);
  }

  // Facts about slices and joins of strings used by the name lemmas.

  lemma AllSpaceJoin(a: string, b: string)
    ensures AllSpace(a + b) <==> AllSpace(a) && AllSpace(b)
  {
    if AllSpace(a + b) {
      assert forall k | 0 <= k < |a| :: a[k] == (a + b)[k];
      assert forall k | 0 <= k < |b| :: b[k] == (a + b)[|a| + k];
    }
  }

  lemma SpacePrefix(s: string, i: int)
    requires 0 <= i <= |s|
    requires forall m :: 0 <= m < i ==> IsSpace(s[m])
    ensures AllSpace(s[..i])
  {
  }

  lemma SpaceSuffix(s: string, j: int)
    requires 0 <= j <= |s|
    requires forall m :: j <= m < |s| ==> IsSpace(s[m])
    ensures AllSpace(s[j..])
  {
    assert forall m | 0 <= m < |s| - j :: s[j..][m] == s[j + m];
  }

  lemma JoinRegroup(x: string, y: string, i: int, j: int)
    requires 0 <= i <= |x| && 0 <= j <= |y|
    ensures x + " " + y == x[..i] + (x[i..] + " " + y[..j]) + y[j..]
  {
    assert x == x[..i] + x[i..];
    assert y == y[..j] + y[j..];
  }

  lemma FirstRegroup(x: string, y: string, i: int, j: int)
    requires 0 <= i <= j <= |x|
    ensures x + " " + y == x[..i] + x[i..j] + (x[j..] + " " + y)
  {
    assert x == x[..i] + x[i..j] + x[j..];
  }

  lemma LastRegroup(x: string, y: string, i: int, j: int)
    requires 0 <= i <= j <= |y|
    ensures x + " " + y == (x + " " + y[..i]) + y[i..j] + y[j..]
  {
    assert y == y[..i] + y[i..j] + y[j..];
  }
}
