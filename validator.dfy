/**
 * The input validators of the getting-started fixture project: a sign
 * test, an inclusive range test and the username rule. Numbers are exact
 * reals; Python's character classes are inputs.
 */
module Validator {

  /** `is_positive`: strictly greater than zero. */
  predicate IsPositive(value: real)
  {
    value > 0.0
  }

  /** `is_in_range`: the chained comparison `min_val <= value <= max_val`. */
  predicate IsInRange(value: real, minVal: real, maxVal: real)
  {
    minVal <= value && value <= maxVal
  }

  /** Zero is not positive, and a number and its negation are never both positive. */
  lemma PositiveIsStrict(value: real)
    ensures !IsPositive(0.0)
    ensures IsPositive(value) ==> !IsPositive(-value)
    ensures value != 0.0 ==> IsPositive(value) || IsPositive(-value)
  {
  }

  /** Both bounds are included; an empty range (minimum above maximum) holds nothing. */
  lemma RangeIsInclusive(value: real, minVal: real, maxVal: real)
    ensures minVal <= maxVal ==> IsInRange(minVal, minVal, maxVal) && IsInRange(maxVal, minVal, maxVal)
    ensures minVal > maxVal ==> !IsInRange(value, minVal, maxVal)
    ensures IsInRange(value, minVal, maxVal) ==> IsInRange(value, minVal, value) && IsInRange(value, value, maxVal)
  {
  }

  // ---------------------------------------------------------------------
  // Usernames
  // ---------------------------------------------------------------------

  /**
   * Python's `str.isalpha` and `str.isalnum` on one character. Both consult
   * the Unicode character database, which is not part of this model, so they
   * are inputs.
   */
  datatype CharClasses = CharClasses(isAlpha: char -> bool, isAlnum: char -> bool)

  predicate IsAscii(c: char)
  {
    c < '\U{80}'
  }

  predicate AsciiLetter(c: char)
  {
    ('a' <= c <= 'z') || ('A' <= c <= 'Z')
  }

  predicate AsciiDigit(c: char)
  {
    '0' <= c <= '9'
  }

  /**
   * What the model relies on about Python's classes: on ASCII, letters are
   * exactly a-z and A-Z and alphanumerics add 0-9; everywhere, a letter is
   * alphanumeric.
   */
  predicate PythonClasses(cc: CharClasses)
  {
    && (forall c: char :: IsAscii(c) ==> (cc.isAlpha(c) <==> AsciiLetter(c)))
    && (forall c: char :: IsAscii(c) ==> (cc.isAlnum(c) <==> AsciiLetter(c) || AsciiDigit(c)))
    && (forall c: char :: cc.isAlpha(c) ==> cc.isAlnum(c))
  }

  predicate IsWordChar(cc: CharClasses, c: char)
  {
    cc.isAlnum(c) || c == '_'
  }

  /** The `all(...)` over the characters, left to right. */
  predicate AllWordChars(cc: CharClasses, s: string)
  {
    if s == [] then true else IsWordChar(cc, s[0]) && AllWordChars(cc, s[1..])
  }

  /** `is_valid_username`: the length guard, the first-letter check, then every character. */
  predicate IsValidUsername(cc: CharClasses, username: string)
  {
    if username == [] || |username| < 3 || |username| > 20 then false
    else if !cc.isAlpha(username[0]) then false
    else AllWordChars(cc, username)
  }

  /** The scan accepts exactly the strings made only of alphanumerics and underscores. */
  lemma {:induction false} AllWordCharsIff(cc: CharClasses, s: string)
    ensures AllWordChars(cc, s) <==> forall i :: 0 <= i < |s| ==> IsWordChar(cc, s[i])
  {
    if s != [] {
      AllWordCharsIff(cc, s[1..]);
      assert forall i :: 1 <= i < |s| ==> s[i] == s[1..][i - 1];
    }
  }

  /**
   * A username is valid exactly when it has 3 to 20 characters, starts with
   * a letter, and holds only alphanumerics and underscores.
   */
  lemma UsernameRule(cc: CharClasses, username: string)
    ensures IsValidUsername(cc, username) <==>
      && 3 <= |username| <= 20
      && cc.isAlpha(username[0])
      && forall i :: 0 <= i < |username| ==> IsWordChar(cc, username[i])
  {
    AllWordCharsIff(cc, username);
  }

  /** One character that is neither alphanumeric nor an underscore makes a username invalid. */
  lemma UsernameRejects(cc: CharClasses, username: string, i: nat)
    requires i < |username| && !IsWordChar(cc, username[i])
    ensures !IsValidUsername(cc, username)
  {
    UsernameRule(cc, username);
  }

  /** An empty username, or one whose first character is not a letter, is invalid. */
  lemma FirstCharMustBeLetter(cc: CharClasses, username: string)
    requires username == [] || !cc.isAlpha(username[0])
    ensures !IsValidUsername(cc, username)
  {
  }

  /** On ASCII names the rule is: a-z or A-Z first, then only a-z, A-Z, 0-9 and underscores. */
  lemma AsciiUsernameRule(cc: CharClasses, username: string)
    requires PythonClasses(cc)
    requires forall i :: 0 <= i < |username| ==> IsAscii(username[i])
    ensures IsValidUsername(cc, username) <==>
      && 3 <= |username| <= 20
      && AsciiLetter(username[0])
      && forall i :: 0 <= i < |username| ==> AsciiLetter(username[i]) || AsciiDigit(username[i]) || username[i] == '_'
  {
    UsernameRule(cc, username);
  }

  /** A letter outside ASCII may start and fill a username, as Python's classes allow. */
  lemma NonAsciiLetterAccepted(cc: CharClasses, c: char)
    requires PythonClasses(cc) && cc.isAlpha(c)
    ensures IsValidUsername(cc, [c, c, '_'])
  {
    UsernameRule(cc, [c, c, '_']);
  }

  /** The accepted and rejected names of the fixture's own examples. */
  lemma UsernameExamples(cc: CharClasses)
    requires PythonClasses(cc)
    ensures IsValidUsername(cc, "john_doe")
    ensures IsValidUsername(cc, "user123")
    ensures !IsValidUsername(cc, "ab")
    ensures !IsValidUsername(cc, "123user")
    ensures !IsValidUsername(cc, "user@name")
    ensures !IsValidUsername(cc, seq(21, _ => 'a'))
  {
    AsciiUsernameRule(cc, "john_doe");
    AsciiUsernameRule(cc, "user123");
    AsciiUsernameRule(cc, "123user");
    AsciiUsernameRule(cc, "user@name");
    assert "user@name"[4] == '@';
  }
}
