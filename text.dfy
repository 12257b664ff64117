/**
  Whitespace and the strip operation that the schema validators and the
  advanced NLP endpoint apply to strings.  A string is a sequence of
  characters; the whitespace set is the ASCII part of the set that Python's
  str.strip removes.
 */
module Text {

  /** The characters that strip removes from either end of a string. */
  predicate IsWhitespace(c: char) {
    c == ' ' || c == '\t' || c == '\n' || c == '\r'
    || c == '\U{B}' || c == '\U{C}'
    || c == '\U{1C}' || c == '\U{1D}' || c == '\U{1E}' || c == '\U{1F}'
  }

  /** A string is blank when every one of its characters is whitespace (the empty string is blank). */
  predicate IsBlank(s: string) {
    forall i | 0 <= i < |s| :: IsWhitespace(s[i])
  }

  /** Every character of s at a position in [lo, hi) is whitespace. */
  predicate BlankBetween(s: string, lo: nat, hi: nat)
    requires hi <= |s|
  {
    forall i | lo <= i < hi :: IsWhitespace(s[i])
  }

  /** The first position at or after i that holds a non-whitespace character, or |s| if there is none. */
  function SkipLeading(s: string, i: nat): (k: nat)
    requires i <= |s|
    ensures i <= k <= |s|
    ensures BlankBetween(s, i, k)
    ensures k < |s| ==> !IsWhitespace(s[k])
    decreases |s| - i
  {
    if i < |s| && IsWhitespace(s[i]) then SkipLeading(s, i + 1) else i
  }

  /** Moving back from j, the end of the last non-whitespace character after lo, or lo if there is none. */
  function SkipTrailing(s: string, lo: nat, j: nat): (k: nat)
    requires lo <= j <= |s|
    ensures lo <= k <= j
    ensures BlankBetween(s, k, j)
    ensures k > lo ==> !IsWhitespace(s[k - 1])
  {
    if j > lo && IsWhitespace(s[j - 1]) then SkipTrailing(s, lo, j - 1) else j
  }

  /** Where the result of strip starts in its input: the length of the leading whitespace. */
  function StripOffset(s: string): (lo: nat)
    ensures lo <= |s|
  {
    SkipLeading(s, 0)
  }

  /**
    Python's str.strip: the piece s[lo..lo + |r|] of the input with only
    whitespace cut away on either side; that piece, when it is not empty,
    starts and ends with a non-whitespace character.
   */
  function Strip(s: string): (r: string)
    ensures StripOffset(s) + |r| <= |s|
    ensures r == s[StripOffset(s)..StripOffset(s) + |r|]
    ensures BlankBetween(s, 0, StripOffset(s)) && BlankBetween(s, StripOffset(s) + |r|, |s|)
    ensures r != [] ==> !IsWhitespace(r[0]) && !IsWhitespace(r[|r| - 1])
  {
    var lo := SkipLeading(s, 0);
    s[lo..SkipTrailing(s, lo, |s|)]
  }

  /** strip leaves nothing exactly when the string is blank. */
  lemma StripEmptyIffBlank(s: string)
    ensures Strip(s) == [] <==> IsBlank(s)
  {
  }

  /** A string that is not blank holds at least one non-whitespace character. */
  lemma NotBlankHasWitness(s: string)
    ensures !IsBlank(s) <==> exists i | 0 <= i < |s| :: !IsWhitespace(s[i])
  {
  }
}
