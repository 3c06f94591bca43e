/**
 * The severity marker test of logger/logger.go: the regular expression
 * `^[DIWE]!` applied with Go's `regexp.Match`, which reports whether the
 * pattern matches anywhere in the line.
 */
module Marker {
  import opened Bytes

  /** The character class `[DIWE]`: Debug, Info, Warn, Error. */
  predicate IsSeverityLetter(c: byte) {
    c == LetterD || c == LetterI || c == LetterW || c == LetterE
  }

  /** `[DIWE]!` matches the two bytes of `b` at position `k`. */
  predicate MarkerAt(b: seq<byte>, k: int) {
    0 <= k && k + 2 <= |b| && IsSeverityLetter(b[k]) && b[k + 1] == Bang
  }

  /** `^` holds at position `k`: without the multi-line flag, only at the start of the text. */
  predicate AnchorAt(k: int) {
    k == 0
  }

  /** `^[DIWE]!` matches the text of `b` starting at position `k`. */
  predicate MatchesAt(b: seq<byte>, k: int) {
    AnchorAt(k) && MarkerAt(b, k)
  }

  /**
   * The unanchored search of the regular-expression engine: try every start
   * position from `i` to the end of the text.
   */
  function SearchFrom(b: seq<byte>, i: nat): (found: bool)
    requires i <= |b|
    decreases |b| - i
    ensures found <==> exists k :: i <= k <= |b| && MatchesAt(b, k)
  {
    MatchesAt(b, i) || (i < |b| && SearchFrom(b, i + 1))
  }

  /**
   * `prefixRegex.Match(b)`: true exactly when the line is at least two bytes
   * long, begins with one of D, I, W, E and has `!` as its second byte.
   * Only the start of the line counts.
   */
  function PrefixMatch(b: seq<byte>): (m: bool)
    ensures m <==> |b| >= 2 && IsSeverityLetter(b[0]) && b[1] == Bang
  {
    assert |b| >= 2 && IsSeverityLetter(b[0]) && b[1] == Bang ==> MatchesAt(b, 0);
    SearchFrom(b, 0)
  }

  /** A marker anywhere after the first byte does not make the line marked. */
  lemma LaterMarkerIgnored(b: seq<byte>, k: int)
    requires 0 < k && MarkerAt(b, k)
    ensures PrefixMatch(b) <==> MarkerAt(b, 0)
  {
  }
}
