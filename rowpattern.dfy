/**
 * The data-row pattern `^\s*\d+.*\s+\d{3}\s+\d{3}\s+\d{3}\s+` applied with
 * `re.search` to one line of `smartctl --all` output.
 *
 * RowPattern states the regular expression as a decomposition of the line
 * into the pieces the expression names; IsSmartLine is a scanner that
 * decides it, and SmartLineMatchesPattern proves the two agree.
 */
module RowPattern {
  import opened Text

  /** `s[i..j]` is white space: what `\s*` or `\s+` may match there. */
  predicate SpaceIn(s: string, i: int, j: int)
    requires 0 <= i <= j <= |s|
  {
    forall k :: i <= k < j ==> IsSpace(s[k])
  }

  /** `s[i..j]` is digits: what `\d+` or `\d{3}` may match there. */
  predicate DigitsIn(s: string, i: int, j: int)
    requires 0 <= i <= j <= |s|
  {
    forall k :: i <= k < j ==> IsDigit(s[k])
  }

  /** `s[i..j]` has no newline: what `.*` may match there. */
  predicate NoNewlineIn(s: string, i: int, j: int)
    requires 0 <= i <= j <= |s|
  {
    forall k :: i <= k < j ==> s[k] != '\n'
  }

  /**
   * `s` splits as  ws* | digits+ | any* | ws+ | ddd | ws+ | ddd | ws+ | ddd | ws+ | rest
   * at the cut points lead, e, p, a, a+3, b, b+3, c, c+3, z.
   */
  ghost predicate Splits(s: string, lead: int, e: int, p: int, a: int, b: int, c: int, z: int) {
    && 0 <= lead < e <= p < a
    && a + 3 < b && b + 3 < c && c + 3 < z <= |s|
    && SpaceIn(s, 0, lead)
    && DigitsIn(s, lead, e)
    && NoNewlineIn(s, e, p)
    && SpaceIn(s, p, a)
    && DigitsIn(s, a, a + 3)
    && SpaceIn(s, a + 3, b)
    && DigitsIn(s, b, b + 3)
    && SpaceIn(s, b + 3, c)
    && DigitsIn(s, c, c + 3)
    && SpaceIn(s, c + 3, z)
  }

  /** The regular expression matches at the start of `s` (the `^` anchor). */
  ghost predicate Matches(s: string) {
    exists lead, e, p, a, b, c, z :: Splits(s, lead, e, p, a, b, c, z)
  }

  predicate Digit3At(s: string, i: nat) {
    i + 3 <= |s| && IsDigit(s[i]) && IsDigit(s[i + 1]) && IsDigit(s[i + 2])
  }

  /**
   * Three tokens of exactly three digits start at `a`, separated by white
   * space and followed by at least one white-space character.
   */
  predicate TriplesAt(s: string, a: nat)
    requires a <= |s|
  {
    && Digit3At(s, a)
    && var b := SkipSpace(s, a + 3);
    && b > a + 3
    && Digit3At(s, b)
    && var c := SkipSpace(s, b + 3);
    && c > b + 3
    && Digit3At(s, c)
    && c + 3 < |s|
    && IsSpace(s[c + 3])
  }

  /**
   * Some white-space run that starts at or after `i`, with no newline
   * between `i` and its start, is followed by the three triples.
   */
  predicate TriplesFrom(s: string, i: nat)
    requires i <= |s|
    decreases |s| - i
  {
    && i < |s|
    && ((IsSpace(s[i]) && TriplesAt(s, SkipSpace(s, i))) || (s[i] != '\n' && TriplesFrom(s, i + 1)))
  }

  /** `SMART_LINE.search(s)` succeeds. */
  predicate IsSmartLine(s: string) {
    var lead := SkipSpace(s, 0);
    lead < |s| && IsDigit(s[lead]) && TriplesFrom(s, lead + 1)
  }

  /** Where TriplesFrom found the white-space run. */
  lemma {:induction false} TriplesFromWitness(s: string, i: nat) returns (p: nat)
    requires i <= |s| && TriplesFrom(s, i)
    ensures i <= p < |s|
    ensures NoNewlineIn(s, i, p)
    ensures IsSpace(s[p]) && TriplesAt(s, SkipSpace(s, p))
    decreases |s| - i
  {
    if IsSpace(s[i]) && TriplesAt(s, SkipSpace(s, i)) {
      p := i;
    } else {
      p := TriplesFromWitness(s, i + 1);
    }
  }

  /** A run found after a newline-free stretch is found by the scan. */
  lemma {:induction false} TriplesFromReach(s: string, i: nat, p: nat)
    requires i <= p < |s|
    requires NoNewlineIn(s, i, p)
    requires IsSpace(s[p]) && TriplesAt(s, SkipSpace(s, p))
    ensures TriplesFrom(s, i)
    decreases p - i
  {
    if i < p {
      TriplesFromReach(s, i + 1, p);
    }
  }

  /** The cut points TriplesAt finds after `a`. */
  lemma TriplesAtSplits(s: string, a: nat) returns (b: nat, c: nat)
    requires a <= |s| && TriplesAt(s, a)
    ensures b == SkipSpace(s, a + 3) && c == SkipSpace(s, b + 3)
    ensures a + 3 < b && b + 3 < c && c + 3 < |s|
    ensures DigitsIn(s, a, a + 3) && SpaceIn(s, a + 3, b)
    ensures DigitsIn(s, b, b + 3) && SpaceIn(s, b + 3, c)
    ensures DigitsIn(s, c, c + 3) && SpaceIn(s, c + 3, c + 4)
  {
    b := SkipSpace(s, a + 3);
    c := SkipSpace(s, b + 3);
    SkipSpaceSpans(s, a + 3);
    SkipSpaceSpans(s, b + 3);
  }

  /** A line the scanner accepts has a decomposition the expression matches. */
  lemma ScannedLineMatches(s: string)
    requires IsSmartLine(s)
    ensures Matches(s)
  {
    var lead := SkipSpace(s, 0);
    var p := TriplesFromWitness(s, lead + 1);
    var a := SkipSpace(s, p);
    var b, c := TriplesAtSplits(s, a);
    SkipSpaceSpans(s, 0);
    SkipSpaceSpans(s, p);
    assert a > p;
    assert Splits(s, lead, lead + 1, p, a, b, c, c + 4);
  }

  /** The three triples of a decomposition are what TriplesAt checks. */
  lemma SplitTriples(s: string, lead: int, e: int, p: int, a: int, b: int, c: int, z: int)
    requires Splits(s, lead, e, p, a, b, c, z)
    ensures IsSpace(s[p]) && SkipSpace(s, p) == a && TriplesAt(s, a)
  {
    SkipSpaceAt(s, p, a);
    SkipSpaceAt(s, a + 3, b);
    SkipSpaceAt(s, b + 3, c);
  }

  /** A line the expression matches is accepted by the scanner. */
  lemma MatchedLineScans(s: string)
    requires Matches(s)
    ensures IsSmartLine(s)
  {
    var lead, e, p, a, b, c, z :| Splits(s, lead, e, p, a, b, c, z);
    SkipSpaceAt(s, 0, lead);
    SplitTriples(s, lead, e, p, a, b, c, z);
    TriplesFromReach(s, lead + 1, p);
  }

  /** The scanner decides exactly the regular expression. */
  lemma SmartLineMatchesPattern(s: string)
    ensures IsSmartLine(s) <==> Matches(s)
  {
    if IsSmartLine(s) {
      ScannedLineMatches(s);
    }
    if Matches(s) {
      MatchedLineScans(s);
    }
  }
}
