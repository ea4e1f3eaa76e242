/**
  The regular expression `/^[0-9a-fA-F]{24}$/` that both `isObjectId` predicates
  test: a MongoDB ObjectId written as 24 hexadecimal digits. JavaScript's `$`
  without the `m` flag matches only at the end of the input, so the whole string
  must be the 24 digits.
 */
module HexPattern {

  /** The number of hexadecimal digits in an ObjectId. */
  const ObjectIdLength: nat := 24

  /** The character class `[0-9a-fA-F]`. */
  predicate IsHexDigit(c: char) {
    '0' <= c <= '9' || 'a' <= c <= 'f' || 'A' <= c <= 'F'
  }

  lemma HexDigitClass(c: char)
    ensures IsHexDigit(c) <==> c in "0123456789abcdefABCDEF"
  {
  }

  /** Whether `s` matches `[0-9a-fA-F]{n}$` from its first character, consuming one
      digit per step as a matcher for the pattern does. */
  predicate MatchesHexRun(s: string, n: nat)
    decreases n
  {
    if n == 0 then s == ""
    else s != "" && IsHexDigit(s[0]) && MatchesHexRun(s[1..], n - 1)
  }

  /** `/^[0-9a-fA-F]{24}$/.test(s)`. */
  predicate MatchesObjectIdPattern(s: string) {
    MatchesHexRun(s, ObjectIdLength)
  }

  /** Every character of `s` is a hexadecimal digit. */
  predicate AllHex(s: string) {
    forall i :: 0 <= i < |s| ==> IsHexDigit(s[i])
  }

  /** The matcher accepts exactly the strings of length `n` made only of hex digits. */
  lemma {:induction false} MatchesHexRunIff(s: string, n: nat)
    ensures MatchesHexRun(s, n) <==> |s| == n && AllHex(s)
    decreases n
  {
    if n > 0 && s != "" {
      MatchesHexRunIff(s[1..], n - 1);
      assert AllHex(s) <==> IsHexDigit(s[0]) && AllHex(s[1..]) by {
        if IsHexDigit(s[0]) && AllHex(s[1..]) {
          forall i | 0 <= i < |s| ensures IsHexDigit(s[i]) {
            if i > 0 { assert s[i] == s[1..][i - 1]; }
          }
        }
      }
    }
  }

  /** The ObjectId pattern, stated without the matcher. */
  lemma ObjectIdPatternIff(s: string)
    ensures MatchesObjectIdPattern(s) <==> |s| == 24 && AllHex(s)
  {
    MatchesHexRunIff(s, ObjectIdLength);
  }
}
