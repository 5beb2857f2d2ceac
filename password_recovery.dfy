/** The three-step password-recovery wizard: email, recovery answer, new
    password. Each service call's outcome is a parameter: `None` for
    success, otherwise the value the HTTP client threw. */
module PasswordRecovery {
  import opened Text
  import Api
  import Validation

  const DefaultError: string := "An unexpected error occurred."
  const ResetSucceeded: string := "Password reset successful! Logging you in..."

  /** `getErrorMessage(err)` for what the HTTP client throws: a string has no
      `message`, so it is its own text, or the default when empty. Reading
      `message` of `undefined` throws, shown as `None`. */
  function GetErrorMessage(err: Api.Thrown): (m: Option<string>)
    ensures err.Thrown? ==> m == Some(if err.text != "" then err.text else DefaultError)
    ensures err.ThrownUndefined? ==> m.None?
  {
    match err
    case Thrown(text) => Some(if text != "" then text else DefaultError)
    case ThrownUndefined => None
  }

  /** Both step-3 checks pass: the password is well formed and confirmed. */
  predicate ResetFormValid(newPassword: string, confirmPassword: string)
  {
    Validation.ValidatePassword(newPassword).isValid
    && Validation.ValidatePasswordMatch(newPassword, confirmPassword).isValid
  }

  /** The step-3 field errors: the format error under "newPassword" and
      the confirmation error under "confirmPassword", each exactly when its
      check fails; none exactly when the form is valid. */
  function FieldErrors(newPassword: string, confirmPassword: string): (m: map<string, string>)
    ensures var format := Validation.ValidatePassword(newPassword);
      var matching := Validation.ValidatePasswordMatch(newPassword, confirmPassword);
      ("newPassword" in m <==> !format.isValid) && ("confirmPassword" in m <==> !matching.isValid)
      && m.Keys <= {"newPassword", "confirmPassword"}
      && ("newPassword" in m ==> m["newPassword"] == format.error.value)
      && ("confirmPassword" in m ==> m["confirmPassword"] == matching.error.value)
    ensures |m| == 0 <==> ResetFormValid(newPassword, confirmPassword)
  {
    var format := Validation.ValidatePassword(newPassword);
    var matching := Validation.ValidatePasswordMatch(newPassword, confirmPassword);
    var m1: map<string, string> := if format.isValid then map[] else map["newPassword" := format.error.value];
    var m := if matching.isValid then m1 else m1["confirmPassword" := matching.error.value];
    assert !matching.isValid ==> "confirmPassword" in m;
    assert !format.isValid ==> "newPassword" in m;
    m
  }

  /** `validateStep3`'s collection: each failed check adds its field. */
  method CollectFieldErrors(newPassword: string, confirmPassword: string) returns (newErrors: map<string, string>)
    ensures newErrors == FieldErrors(newPassword, confirmPassword)
  {
    newErrors := map[];
    var format := Validation.ValidatePassword(newPassword);
    if !format.isValid {
      newErrors := newErrors["newPassword" := format.error.value];
    }
    var matching := Validation.ValidatePasswordMatch(newPassword, confirmPassword);
    if !matching.isValid {
      newErrors := newErrors["confirmPassword" := matching.error.value];
    }
  }

  datatype Call = FetchQuestion(email: string) | VerifyAnswer(email: string, answer: string)
                | ResetPassword(email: string, newPassword: string) | Login(email: string, password: string)

  /** An error is shown for a field when its entry is a non-empty text. */
  predicate ErrorShown(errors: map<string, string>, field: string) {
    field in errors && errors[field] != ""
  }

  /** Typing into a field blanks that field's shown error; every other
      entry, and the set of keys, stays. */
  function ClearFieldError(errors: map<string, string>, field: string): (r: map<string, string>)
    ensures r.Keys == errors.Keys
    ensures !ErrorShown(r, field)
    ensures forall k :: k in errors && k != field ==> r[k] == errors[k]
  {
    if ErrorShown(errors, field) then errors[field := ""] else errors
  }

  class RecoveryWizard {
    var step: int
    var isGoogleUser: bool
    var email: string
    var recoveryQuestion: string
    var recoveryAnswer: string
    var newPassword: string
    var confirmPassword: string
    var errors: map<string, string>
    var isLoading: bool
    var successMessage: Option<string>
    var calls: seq<Call>
    var navigationScheduled: bool

    ghost predicate Valid()
      reads this
    {
      1 <= step <= 3
    }

    constructor()
      ensures Valid() && step == 1 && !isGoogleUser && !isLoading
      ensures email == "" && recoveryQuestion == "" && recoveryAnswer == "" && newPassword == "" && confirmPassword == ""
      ensures errors == map[] && successMessage == None && calls == [] && !navigationScheduled
    {
      step := 1;
      isGoogleUser := false;
      email := "";
      recoveryQuestion := "";
      recoveryAnswer := "";
      newPassword := "";
      confirmPassword := "";
      errors := map[];
      isLoading := false;
      successMessage := None;
      calls := [];
      navigationScheduled := false;
    }

    /** Step 1: an invalid email sets only the email error and makes no
        call; a fetched question moves to step 2; a failure whose message
        mentions "google" in any case marks a Google account, any other
        failure becomes the email error. */
    method HandleEmailSubmit(outcome: Result<string>) returns (threw: bool)
      requires Valid()
      modifies this`errors, this`isGoogleUser, this`isLoading, this`calls, this`recoveryQuestion, this`step
      ensures Valid()
      ensures !Validation.ValidateEmail(email).isValid ==>
        !threw && errors == map["email" := Validation.ValidateEmail(email).error.value]
        && calls == old(calls) && step == old(step) && !isGoogleUser && isLoading == old(isLoading)
        && recoveryQuestion == old(recoveryQuestion)
      ensures Validation.ValidateEmail(email).isValid ==> calls == old(calls) + [FetchQuestion(email)] && !isLoading
      ensures Validation.ValidateEmail(email).isValid && outcome.Success? ==>
        !threw && step == 2 && recoveryQuestion == outcome.value && errors == map[] && !isGoogleUser
      ensures Validation.ValidateEmail(email).isValid && outcome.Failure? ==>
        step == old(step) && recoveryQuestion == old(recoveryQuestion)
        && (threw <==> outcome.error.ThrownUndefined?)
        && (threw ==> !isGoogleUser && errors == map[])
        && (!threw && Includes(ToLower(GetErrorMessage(outcome.error).value), "google") ==> isGoogleUser && errors == map[])
        && (!threw && !Includes(ToLower(GetErrorMessage(outcome.error).value), "google") ==>
              !isGoogleUser && errors == map["email" := GetErrorMessage(outcome.error).value])
    {
      threw := false;
      errors := map[];
      isGoogleUser := false;
      var validation := Validation.ValidateEmail(email);
      if !validation.isValid {
        errors := map["email" := validation.error.value];
        return;
      }
      isLoading := true;
      calls := calls + [FetchQuestion(email)];
      match outcome {
        case Success(question) =>
          recoveryQuestion := question;
          step := 2;
        case Failure(err) =>
          var msg := GetErrorMessage(err);
          if msg.None? {
            threw := true;
          } else if Includes(ToLower(msg.value), "google") {
            isGoogleUser := true;
          } else {
            errors := map["email" := msg.value];
          }
      }
      isLoading := false;
    }

    /** Step 2: an invalid answer makes no call; a verified answer moves to
        step 3; a failure becomes the answer error. */
    method HandleAnswerSubmit(outcome: Option<Api.Thrown>) returns (threw: bool)
      requires Valid()
      modifies this`errors, this`isLoading, this`calls, this`step
      ensures Valid()
      ensures !Validation.ValidateRecoveryAnswer(recoveryAnswer).isValid ==>
        !threw && errors == map["recoveryAnswer" := Validation.ValidateRecoveryAnswer(recoveryAnswer).error.value]
        && calls == old(calls) && step == old(step) && isLoading == old(isLoading)
      ensures Validation.ValidateRecoveryAnswer(recoveryAnswer).isValid ==>
        calls == old(calls) + [VerifyAnswer(email, recoveryAnswer)] && !isLoading
      ensures Validation.ValidateRecoveryAnswer(recoveryAnswer).isValid && outcome.None? ==>
        !threw && step == 3 && errors == map[]
      ensures Validation.ValidateRecoveryAnswer(recoveryAnswer).isValid && outcome.Some? ==>
        step == old(step) && (threw <==> outcome.value.ThrownUndefined?)
        && (threw ==> errors == map[])
        && (!threw ==> errors == map["recoveryAnswer" := GetErrorMessage(outcome.value).value])
    {
      threw := false;
      errors := map[];
      var validation := Validation.ValidateRecoveryAnswer(recoveryAnswer);
      if !validation.isValid {
        errors := map["recoveryAnswer" := validation.error.value];
        return;
      }
      isLoading := true;
      calls := calls + [VerifyAnswer(email, recoveryAnswer)];
      if outcome.Some? {
        var msg := GetErrorMessage(outcome.value);
        if msg.None? {
          threw := true;
        } else {
          errors := map["recoveryAnswer" := msg.value];
        }
      } else {
        step := 3;
      }
      isLoading := false;
    }

    /** Step 3: the format and match errors are collected independently and
        the reset is called only when there are none; after a reset the
        success message is shown and the user is logged in. */
    method HandlePasswordReset(reset: Option<Api.Thrown>, login: Option<Api.Thrown>) returns (threw: bool)
      modifies this`errors, this`isLoading, this`calls, this`successMessage, this`navigationScheduled
      ensures !ResetFormValid(newPassword, confirmPassword) ==>
        !threw && errors == FieldErrors(newPassword, confirmPassword)
        && calls == old(calls) && isLoading == old(isLoading) && successMessage == old(successMessage)
        && navigationScheduled == old(navigationScheduled)
      ensures ResetFormValid(newPassword, confirmPassword) ==>
        !isLoading
      ensures ResetFormValid(newPassword, confirmPassword) && reset.Some? ==>
        (calls == old(calls) + [ResetPassword(email, newPassword)]
         && successMessage == old(successMessage) && navigationScheduled == old(navigationScheduled)
         && (threw <==> reset.value.ThrownUndefined?)
         && (threw ==> errors == map[])
         && (!threw ==> errors == map["global" := GetErrorMessage(reset.value).value]))
      ensures ResetFormValid(newPassword, confirmPassword) && reset.None? ==>
        (calls == old(calls) + [ResetPassword(email, newPassword), Login(email, newPassword)]
         && successMessage == Some(ResetSucceeded))
      ensures ResetFormValid(newPassword, confirmPassword) && reset.None? && login.None? ==>
        !threw && navigationScheduled && errors == map[]
      ensures ResetFormValid(newPassword, confirmPassword) && reset.None? && login.Some? ==>
        (navigationScheduled == old(navigationScheduled)
         && (threw <==> login.value.ThrownUndefined?)
         && (threw ==> errors == map[])
         && (!threw ==> errors == map["global" := GetErrorMessage(login.value).value]))
    {
      threw := false;
      errors := map[];
      var newErrors := CollectFieldErrors(newPassword, confirmPassword);
      if |newErrors| > 0 {
        errors := newErrors;
        return;
      }
      threw := SubmitReset(reset, login);
    }

    /** The service part of step 3, once the form is valid: reset, then
        log in with the new password. */
    method SubmitReset(reset: Option<Api.Thrown>, login: Option<Api.Thrown>) returns (threw: bool)
      requires errors == map[]
      modifies this`isLoading, this`calls, this`successMessage, this`navigationScheduled, this`errors
      ensures !isLoading
      ensures reset.Some? ==>
        (calls == old(calls) + [ResetPassword(email, newPassword)]
         && successMessage == old(successMessage) && navigationScheduled == old(navigationScheduled)
         && (threw <==> reset.value.ThrownUndefined?)
         && (threw ==> errors == map[])
         && (!threw ==> errors == map["global" := GetErrorMessage(reset.value).value]))
      ensures reset.None? ==>
        (calls == old(calls) + [ResetPassword(email, newPassword), Login(email, newPassword)]
         && successMessage == Some(ResetSucceeded))
      ensures reset.None? && login.None? ==> !threw && navigationScheduled && errors == map[]
      ensures reset.None? && login.Some? ==>
        (navigationScheduled == old(navigationScheduled)
         && (threw <==> login.value.ThrownUndefined?)
         && (threw ==> errors == map[])
         && (!threw ==> errors == map["global" := GetErrorMessage(login.value).value]))
    {
      threw := false;
      isLoading := true;
      calls := calls + [ResetPassword(email, newPassword)];
      var failure: Option<Api.Thrown> := None;
      if reset.Some? {
        failure := reset;
      } else {
        successMessage := Some(ResetSucceeded);
        calls := calls + [Login(email, newPassword)];
        if login.Some? {
          failure := login;
        } else {
          navigationScheduled := true;
        }
      }
      if failure.Some? {
        var msg := GetErrorMessage(failure.value);
        if msg.None? {
          threw := true;
        } else {
          errors := map["global" := msg.value];
        }
      }
      isLoading := false;
    }

    /** Step 2's "Back" button: back to the email step with every error
        cleared; the fetched question and the typed answer stay. */
    method BackToEmailStep()
      requires Valid()
      modifies this`step, this`errors
      ensures Valid() && step == 1 && errors == map[]
    {
      step := 1;
      errors := map[];
    }

    /** Typing into the email field. */
    method ChangeEmail(value: string)
      modifies this`email, this`errors
      ensures email == value && errors == ClearFieldError(old(errors), "email")
    {
      email := value;
      errors := ClearFieldError(errors, "email");
    }

    /** Typing into the answer field. */
    method ChangeRecoveryAnswer(value: string)
      modifies this`recoveryAnswer, this`errors
      ensures recoveryAnswer == value && errors == ClearFieldError(old(errors), "recoveryAnswer")
    {
      recoveryAnswer := value;
      errors := ClearFieldError(errors, "recoveryAnswer");
    }

    /** Typing into the new-password field. */
    method ChangeNewPassword(value: string)
      modifies this`newPassword, this`errors
      ensures newPassword == value && errors == ClearFieldError(old(errors), "newPassword")
    {
      newPassword := value;
      errors := ClearFieldError(errors, "newPassword");
    }

    /** Typing into the confirmation field. */
    method ChangeConfirmPassword(value: string)
      modifies this`confirmPassword, this`errors
      ensures confirmPassword == value && errors == ClearFieldError(old(errors), "confirmPassword")
    {
      confirmPassword := value;
      errors := ClearFieldError(errors, "confirmPassword");
    }

    /** "Back to email entry". */
    method BackToEmailEntry()
      modifies this`isGoogleUser, this`step, this`errors
      ensures step == 1 && !isGoogleUser && errors == map[]
    {
      isGoogleUser := false;
      step := 1;
      errors := map[];
    }
  }

  datatype Result<T> = Success(value: T) | Failure(error: Api.Thrown)

  /** The server's own message reaches the user: a non-empty thrown text is
      shown as it is. */
  lemma ServerTextShown(text: string)
    requires text != ""
    ensures GetErrorMessage(Api.Thrown(text)) == Some(text)
  {
  }
}
