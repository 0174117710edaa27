/**
 * Identifier checks (src/services/id/id.js).
 *
 * `isValid` tests `id.length === 24` and the regular expression `^[a-f|0-9]+$`.
 * Inside a bracket class `|` is a literal character, so the class as written is
 * the lowercase letters a-f, the digits and the bar `|`; this module keeps it so.
 */
module Ids {

  /** Membership in the bracket class `[a-f|0-9]`. */
  predicate InIdClass(c: char) {
    ('a' <= c <= 'f') || c == '|' || ('0' <= c <= '9')
  }

  /** The anchored pattern `^[a-f|0-9]+$`: one class character, then the rest of the string matches again or is empty. */
  predicate MatchesIdPattern(s: string)
    decreases |s|
  {
    |s| > 0 && InIdClass(s[0]) && (|s| == 1 || MatchesIdPattern(s[1..]))
  }

  /** `isValid`: the length test, then the pattern test; it reads nothing else and changes nothing. */
  predicate IsValid(id: string) {
    |id| == 24 && MatchesIdPattern(id)
  }

  /** A lowercase hexadecimal digit, the alphabet of the identifiers `generate` produces. */
  predicate IsLowerHex(c: char) {
    ('a' <= c <= 'f') || ('0' <= c <= '9')
  }

  /** The pattern matches exactly the non-empty strings made of class characters. */
  lemma {:induction false} MatchesIdPatternIff(s: string)
    ensures MatchesIdPattern(s) <==> |s| > 0 && forall i :: 0 <= i < |s| ==> InIdClass(s[i])
    decreases |s|
  {
    if |s| > 1 {
      MatchesIdPatternIff(s[1..]);
      assert forall i :: 1 <= i < |s| ==> s[i] == s[1..][i - 1];
    }
  }

  /** `isValid(id)` holds iff `id` has 24 characters, each of them in `[a-f|0-9]`. */
  lemma IsValidIff(id: string)
    ensures IsValid(id) <==> |id| == 24 && forall i :: 0 <= i < |id| ==> InIdClass(id[i])
  {
    MatchesIdPatternIff(id);
  }

  /** A string of any length other than 24 is rejected, whatever its characters. */
  lemma WrongLengthIsInvalid(id: string)
    requires |id| != 24
    ensures !IsValid(id)
  {
  }

  /** One character outside the class (such as `g`) makes a 24-character string invalid. */
  lemma ForeignCharacterIsInvalid(id: string, i: nat)
    requires i < |id| && !InIdClass(id[i])
    ensures !IsValid(id)
  {
    IsValidIff(id);
  }

  /** The class is lowercase only: an uppercase `A`..`F` anywhere is rejected. */
  lemma UppercaseHexIsInvalid(id: string, i: nat)
    requires i < |id| && 'A' <= id[i] <= 'F'
    ensures !IsValid(id)
  {
    ForeignCharacterIsInvalid(id, i);
  }

  /** Every 24-character lowercase hexadecimal string, which is what `generate` yields, is valid. */
  lemma HexIdIsValid(id: string)
    requires |id| == 24 && forall i :: 0 <= i < |id| ==> IsLowerHex(id[i])
    ensures IsValid(id)
  {
    IsValidIff(id);
  }

  /** The class as written also admits the bar: 24 bars form a valid identifier. */
  lemma BarsAreValid()
    ensures IsValid("||||||||||||||||||||||||")
  {
    var bars := seq(24, _ => '|');
    assert bars == "||||||||||||||||||||||||";
    IsValidIff(bars);
  }

  /** The accepted example of the identifier tests. */
  lemma SampleValidId()
    ensures IsValid("5adccd330a5b7e4ffc5bf1dc")
  {
    var id := "5adccd330a5b7e4ffc5bf1dc";
    forall i | 0 <= i < |id| ensures IsLowerHex(id[i]) {
    }
    HexIdIsValid(id);
  }

  /** The rejected examples of the identifier tests: one character too many, one too few, and a `g`. */
  lemma SampleInvalidIds()
    ensures !IsValid("5adccd330a5b7e4ffc5bf1dc0") && !IsValid("5adccd330a5b7e4ffc5bf1d")
    ensures !IsValid("5adccd330a5b7e4ffc5bf1dg")
  {
    ForeignCharacterIsInvalid("5adccd330a5b7e4ffc5bf1dg", 23);
  }
}
