/** The form validators. Each returns a result that is valid exactly when it
    carries no error message. */
module Validation {
  import opened Text

  datatype ValidationResult = ValidationResult(isValid: bool, error: Option<string>)

  const Ok: ValidationResult := ValidationResult(true, None)

  function Fail(message: string): ValidationResult {
    ValidationResult(false, Some(message))
  }

  predicate WellFormed(r: ValidationResult) {
    r.error.Some? <==> !r.isValid
  }

  // ---------------------------------------------------------------------------
  // email

  /** The regular expression `^[^\s@]+@[^\s@]+\.[^\s@]+$` read
      declaratively: an '@' at `at` and a '.' at `dot` split the string into
      three non-empty parts, and apart from that '@' there is no '@' and no
      white space anywhere. */
  predicate EmailSplit(s: string, at: int, dot: int) {
    0 < at && at + 1 < dot < |s| - 1 && s[at] == '@' && s[dot] == '.'
    && NoSpace(s) && forall k :: 0 <= k < |s| && k != at ==> s[k] != '@'
  }

  ghost predicate MatchesEmailPattern(s: string) {
    exists at, dot :: EmailSplit(s, at, dot)
  }

  /** The same test computed directly: no white space, one '@' that is not
      first, and a '.' after it that is neither first nor last there. */
  function HasEmailShape(s: string): (b: bool)
    ensures b <==> MatchesEmailPattern(s)
  {
    if !NoSpace(s) || '@' !in s then false
    else
      var at := FirstIndex(s, '@');
      var domain := s[at + 1..];
      if at == 0 || '@' in domain || |domain| < 3 || '.' !in domain[1..|domain| - 1] then false
      else
        assert EmailSplit(s, at, DotWitness(s, at)) by {
          DotWitnessFacts(s, at);
          forall k | 0 <= k < |s| && k != at ensures s[k] != '@' {
            if k > at { assert s[k] == domain[k - at - 1]; }
            else { assert s[k] == s[..at][k]; }
          }
        }
        true
  }

  function DotWitness(s: string, at: nat): int
    requires at < |s| && |s[at + 1..]| >= 3 && '.' in s[at + 1..][1..|s[at + 1..]| - 1]
  {
    var domain := s[at + 1..];
    at + 2 + FirstIndex(domain[1..|domain| - 1], '.')
  }

  lemma DotWitnessFacts(s: string, at: nat)
    requires at < |s| && |s[at + 1..]| >= 3 && '.' in s[at + 1..][1..|s[at + 1..]| - 1]
    ensures at + 1 < DotWitness(s, at) < |s| - 1 && s[DotWitness(s, at)] == '.'
  {
    var domain := s[at + 1..];
    var j := FirstIndex(domain[1..|domain| - 1], '.');
    assert domain[1..|domain| - 1][j] == s[at + 2 + j];
  }

  /** The converse: a string that splits as the pattern says has the shape. */
  lemma {:induction false} EmailSplitHasShape(s: string, at: int, dot: int)
    requires EmailSplit(s, at, dot)
    ensures HasEmailShape(s)
  {
    assert s[at] == '@';
    assert '@' in s;
    var a := FirstIndex(s, '@');
    assert a == at;
    var domain := s[at + 1..];
    assert domain[dot - at - 1] == '.';
    assert domain[1..|domain| - 1][dot - at - 2] == '.';
    assert '@' !in domain by {
      forall k | 0 <= k < |domain| ensures domain[k] != '@' {
        assert domain[k] == s[at + 1 + k];
      }
    }
  }

  /** `validateEmail`. */
  function ValidateEmail(email: string): (r: ValidationResult)
    ensures WellFormed(r)
    ensures IsBlank(email) ==> r == Fail("Email is required")
    ensures !IsBlank(email) ==> (r.isValid <==> MatchesEmailPattern(email))
    ensures !IsBlank(email) && !r.isValid ==> r == Fail("Please enter a valid email address.")
  {
    if IsBlank(email) then Fail("Email is required")
    else if !HasEmailShape(email) then Fail("Please enter a valid email address.")
    else Ok
  }

  // ---------------------------------------------------------------------------
  // username and the other fields

  /** The class `[a-zA-Z0-9_-]`. */
  predicate UsernameChar(c: char) { IsWordChar(c) || c == '-' }

  predicate AllUsernameChars(s: string) { forall i :: 0 <= i < |s| ==> UsernameChar(s[i]) }

  /** `validateUsername`. */
  function ValidateUsername(username: string): (r: ValidationResult)
    ensures WellFormed(r)
    ensures IsBlank(username) ==> r == Fail("Username is required")
    ensures !IsBlank(username) && JsLength(username) < 4 ==> r == Fail("Username is too short")
    ensures !IsBlank(username) ==> (r.isValid <==> 4 <= JsLength(username) <= 32 && AllUsernameChars(username))
  {
    if IsBlank(username) then Fail("Username is required")
    else if JsLength(username) < 4 then Fail("Username is too short")
    else if !(JsLength(username) <= 32 && AllUsernameChars(username)) then
      Fail("Username must be 4–32 characters and contain only letters, numbers, '_' or '-'.")
    else Ok
  }

  /** A valid username never holds white space, so it is never blank. */
  lemma {:induction false} ValidUsernameHasNoSpace(username: string)
    requires ValidateUsername(username).isValid
    ensures NoSpace(username) && !IsBlank(username)
  {
    BlankIffAllSpace(username);
    assert !IsSpace(username[0]);
  }

  /** `validatePassword`: the length bound counts untrimmed characters. */
  function ValidatePassword(password: string): (r: ValidationResult)
    ensures WellFormed(r)
    ensures IsBlank(password) ==> r == Fail("Password is required")
    ensures !IsBlank(password) ==> (r.isValid <==> 8 <= JsLength(password) <= 64)
  {
    if IsBlank(password) then Fail("Password is required")
    else if JsLength(password) < 8 || JsLength(password) > 64 then Fail("Password must be 8–64 characters long.")
    else Ok
  }

  /** `validatePasswordMatch`. */
  function ValidatePasswordMatch(password: string, confirmPassword: string): (r: ValidationResult)
    ensures WellFormed(r)
    ensures r.isValid <==> password == confirmPassword
  {
    if password != confirmPassword then Fail("Passwords do not match.") else Ok
  }

  /** `validateRecoveryAnswer`. */
  function ValidateRecoveryAnswer(answer: string): (r: ValidationResult)
    ensures WellFormed(r)
    ensures IsBlank(answer) ==> r == Fail("Please enter an answer.")
    ensures !IsBlank(answer) ==> (r.isValid <==> 2 <= JsLength(answer) <= 100)
  {
    if IsBlank(answer) then Fail("Please enter an answer.")
    else if JsLength(answer) < 2 || JsLength(answer) > 100 then Fail("Recovery answer must be 2–100 characters.")
    else Ok
  }

  /** `validateRecoveryQuestion`. */
  function ValidateRecoveryQuestion(question: string): (r: ValidationResult)
    ensures WellFormed(r)
    ensures r.isValid <==> !IsBlank(question)
  {
    if IsBlank(question) then Fail("Please select a recovery question.") else Ok
  }

  /** `validateEmailOrUsername`. */
  function ValidateEmailOrUsername(value: string): (r: ValidationResult)
    ensures WellFormed(r)
    ensures r.isValid <==> !IsBlank(value) && JsLength(value) >= 4
  {
    if IsBlank(value) then Fail("Email/Username is required")
    else if JsLength(value) < 4 then Fail("Username/Email is too short")
    else Ok
  }

  /** Every valid username passes the login field's check too. */
  lemma {:induction false} UsernameAcceptedAtLogin(username: string)
    requires ValidateUsername(username).isValid
    ensures ValidateEmailOrUsername(username).isValid
  {
    ValidUsernameHasNoSpace(username);
  }

  /** A white-space-only password is reported as missing whatever its
      length. */
  lemma {:induction false} SpacesOnlyPasswordIsMissing(password: string)
    requires forall i :: 0 <= i < |password| ==> IsSpace(password[i])
    ensures ValidatePassword(password) == Fail("Password is required")
  {
    BlankIffAllSpace(password);
  }
}
