/**
 * The string operations the plugin borrows from Python: `str.isspace`,
 * `str.split()` with no separator, `str.join` and `os.path.basename`.
 */
module Text {

  /** Python's `str.isspace` (the characters `\s` matches in a `str` pattern). */
  predicate IsSpace(c: char) {
    || ('\t' <= c <= '\r')
    || ('\U{1C}' <= c <= '\U{1F}')
    || c == ' '
    || c == '\U{85}'
    || c == '\U{A0}'
    || c == '\U{1680}'
    || ('\U{2000}' <= c <= '\U{200A}')
    || c == '\U{2028}'
    || c == '\U{2029}'
    || c == '\U{202F}'
    || c == '\U{205F}'
    || c == '\U{3000}'
  }

  /** An ASCII decimal digit. */
  predicate IsDigit(c: char) {
    '0' <= c <= '9'
  }

  /** Every character of `s` is white space (true of the empty string). */
  predicate Blank(s: string) {
    forall k :: 0 <= k < |s| ==> IsSpace(s[k])
  }

  /** A token as `str.split()` produces it: non-empty and free of white space. */
  predicate IsWord(w: string) {
    |w| > 0 && forall k :: 0 <= k < |w| ==> !IsSpace(w[k])
  }

  /** The end of the run of white space in `s` that starts at `i`. */
  function SkipSpace(s: string, i: nat): (j: nat)
    requires i <= |s|
    ensures i <= j <= |s|
    ensures j < |s| ==> !IsSpace(s[j])
    decreases |s| - i
  {
    if i < |s| && IsSpace(s[i]) then SkipSpace(s, i + 1) else i
  }

  /** The end of the run of non-space characters in `s` that starts at `i`. */
  function SkipWord(s: string, i: nat): (j: nat)
    requires i <= |s|
    ensures i <= j <= |s|
    ensures j < |s| ==> IsSpace(s[j])
    decreases |s| - i
  {
    if i < |s| && !IsSpace(s[i]) then SkipWord(s, i + 1) else i
  }

  /** Everything SkipSpace skips is white space. */
  lemma {:induction false} SkipSpaceSpans(s: string, i: nat)
    requires i <= |s|
    ensures forall k :: i <= k < SkipSpace(s, i) ==> IsSpace(s[k])
    decreases |s| - i
  {
    if i < |s| && IsSpace(s[i]) {
      SkipSpaceSpans(s, i + 1);
    }
  }

  /** Nothing SkipWord skips is white space. */
  lemma {:induction false} SkipWordSpans(s: string, i: nat)
    requires i <= |s|
    ensures forall k :: i <= k < SkipWord(s, i) ==> !IsSpace(s[k])
    decreases |s| - i
  {
    if i < |s| && !IsSpace(s[i]) {
      SkipWordSpans(s, i + 1);
    }
  }

  /** A white-space run from `i` to a non-space character at `j` is what SkipSpace skips. */
  lemma {:induction false} SkipSpaceAt(s: string, i: nat, j: nat)
    requires i <= j <= |s|
    requires forall k :: i <= k < j ==> IsSpace(s[k])
    requires j < |s| ==> !IsSpace(s[j])
    ensures SkipSpace(s, i) == j
    decreases j - i
  {
    if i < j {
      SkipSpaceAt(s, i + 1, j);
    }
  }

  /** A token from `i` to white space at `j` is what SkipWord skips. */
  lemma {:induction false} SkipWordAt(s: string, i: nat, j: nat)
    requires i <= j <= |s|
    requires forall k :: i <= k < j ==> !IsSpace(s[k])
    requires j < |s| ==> IsSpace(s[j])
    ensures SkipWord(s, i) == j
    decreases j - i
  {
    if i < j {
      SkipWordAt(s, i + 1, j);
    }
  }

  /**
   * Python's `s.split()`: the maximal runs of non-space characters of `s`,
   * in order; leading, trailing and repeated white space yield no token.
   */
  function Words(s: string): seq<string> {
    WordsFrom(s, 0)
  }

  /** The tokens of `s` from position `i` on. */
  function WordsFrom(s: string, i: nat): seq<string>
    requires i <= |s|
    decreases |s| - i
  {
    var k := SkipSpace(s, i);
    if k == |s| then []
    else
      var j := SkipWord(s, k);
      [s[k..j]] + WordsFrom(s, j)
  }

  /**
   * From `i` on, every token is a word, there are none exactly when the rest
   * of `s` is white space, and the first one starts at the first non-space
   * character.
   */
  lemma {:induction false} WordsFromAreTokens(s: string, i: nat)
    requires i <= |s|
    ensures forall w :: w in WordsFrom(s, i) ==> IsWord(w)
    ensures |WordsFrom(s, i)| == 0 <==> forall k :: i <= k < |s| ==> IsSpace(s[k])
    ensures |WordsFrom(s, i)| > 0 ==> |WordsFrom(s, i)[0]| > 0 && WordsFrom(s, i)[0][0] == s[SkipSpace(s, i)]
    decreases |s| - i
  {
    var k := SkipSpace(s, i);
    if k < |s| {
      var j := SkipWord(s, k);
      SkipWordSpans(s, k);
      WordsFromAreTokens(s, j);
      assert IsWord(s[k..j]);
    } else {
      SkipSpaceSpans(s, i);
    }
  }

  /** Every token is a word, there are none exactly when `s` is blank, and the first starts at the first non-space character. */
  lemma WordsAreTokens(s: string)
    ensures forall w :: w in Words(s) ==> IsWord(w)
    ensures |Words(s)| == 0 <==> Blank(s)
    ensures |Words(s)| > 0 ==> |Words(s)[0]| > 0 && Words(s)[0][0] == s[SkipSpace(s, 0)]
  {
    WordsFromAreTokens(s, 0);
  }

  /** Scanning white space behind a prefix scans the same run as in the rest alone. */
  lemma {:induction false} SkipSpaceShift(p: string, t: string, i: nat)
    requires i <= |t|
    ensures SkipSpace(p + t, |p| + i) == |p| + SkipSpace(t, i)
    decreases |t| - i
  {
    if i < |t| {
      assert (p + t)[|p| + i] == t[i];
      if IsSpace(t[i]) {
        SkipSpaceShift(p, t, i + 1);
      }
    }
  }

  /** Scanning a token behind a prefix scans the same token as in the rest alone. */
  lemma {:induction false} SkipWordShift(p: string, t: string, i: nat)
    requires i <= |t|
    ensures SkipWord(p + t, |p| + i) == |p| + SkipWord(t, i)
    decreases |t| - i
  {
    if i < |t| {
      assert (p + t)[|p| + i] == t[i];
      if !IsSpace(t[i]) {
        SkipWordShift(p, t, i + 1);
      }
    }
  }

  /** Skipping white space walks through a blank prefix. */
  lemma {:induction false} SkipBlankPrefix(p: string, t: string, k: nat)
    requires Blank(p) && k <= |p|
    ensures SkipSpace(p + t, k) == SkipSpace(p + t, |p|)
    decreases |p| - k
  {
    if k < |p| {
      assert (p + t)[k] == p[k];
      SkipBlankPrefix(p, t, k + 1);
    }
  }

  /** The tokens behind a prefix are the tokens of the rest alone. */
  lemma {:induction false} WordsFromShift(p: string, t: string, i: nat)
    requires i <= |t|
    ensures WordsFrom(p + t, |p| + i) == WordsFrom(t, i)
    decreases |t| - i
  {
    SkipSpaceShift(p, t, i);
    var k := SkipSpace(t, i);
    if k < |t| {
      var j := SkipWord(t, k);
      SkipWordShift(p, t, k);
      assert (p + t)[|p| + k..|p| + j] == t[k..j];
      WordsFromShift(p, t, j);
    }
  }

  /** White space in front of a string adds no token. */
  lemma WordsAfterBlank(p: string, t: string)
    requires Blank(p)
    ensures Words(p + t) == Words(t)
  {
    SkipBlankPrefix(p, t, 0);
    WordsFromShift(p, t, 0);
  }

  /** Python's `sep.join(xs)`. */
  function Join(sep: string, xs: seq<string>): string
    decreases |xs|
  {
    if |xs| == 0 then ""
    else if |xs| == 1 then xs[0]
    else xs[0] + sep + Join(sep, xs[1..])
  }

  /** `str.split()` undoes joining words with single spaces. */
  lemma {:induction false} WordsOfJoin(ws: seq<string>)
    requires forall w :: w in ws ==> IsWord(w)
    ensures Words(Join(" ", ws)) == ws
    decreases |ws|
  {
    if |ws| > 0 {
      var w := ws[0];
      assert IsWord(w);
      var rest := if |ws| == 1 then "" else " " + Join(" ", ws[1..]);
      var s := w + rest;
      assert Join(" ", ws) == s;
      SkipSpaceAt(s, 0, 0);
      SkipWordAt(s, 0, |w|);
      assert s[0..|w|] == w;
      WordsFromShift(w, rest, 0);
      if |ws| > 1 {
        WordsOfJoin(ws[1..]);
        WordsAfterBlank(" ", Join(" ", ws[1..]));
      }
      assert ws == [w] + ws[1..];
    }
  }

  /**
   * `os.path.basename(p)`: the text after the last '/' (all of `p` when it
   * has none).
   */
  function Basename(p: string): string
    decreases |p|
  {
    if |p| == 0 || p[|p| - 1] == '/' then "" else Basename(p[..|p| - 1]) + [p[|p| - 1]]
  }

  /**
   * The basename is the longest suffix without '/': a suffix of `p` that
   * has no '/' and is either all of `p` or preceded by a '/'.
   */
  lemma {:induction false} BasenameIsLastComponent(p: string)
    ensures var r := Basename(p);
      && |r| <= |p| && r == p[|p| - |r|..]
      && '/' !in r
      && (|r| < |p| ==> p[|p| - |r| - 1] == '/')
    decreases |p|
  {
    if |p| > 0 && p[|p| - 1] != '/' {
      var q := p[..|p| - 1];
      BasenameIsLastComponent(q);
      var r' := Basename(q);
      assert Basename(p) == r' + [p[|p| - 1]];
      assert p[|p| - |r'| - 1..] == q[|q| - |r'|..] + [p[|p| - 1]];
    }
  }

  /** A name without '/' is its own basename once put under a directory. */
  lemma {:induction false} BasenameUnder(dir: string, d: string)
    requires |dir| > 0 && dir[|dir| - 1] == '/'
    requires '/' !in d
    ensures Basename(dir + d) == d
    decreases |d|
  {
    var p := dir + d;
    if |d| > 0 {
      assert p[..|p| - 1] == dir + d[..|d| - 1];
      assert p[|p| - 1] == d[|d| - 1];
      BasenameUnder(dir, d[..|d| - 1]);
      assert d == d[..|d| - 1] + [d[|d| - 1]];
    } else {
      assert p == dir;
    }
  }
}
