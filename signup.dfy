/** The sign-up form's submit handler: two local checks on the password, in
    order, then the sign-up request, whose outcome sets either the error or
    the confirmation message. */
module Signup {
  import opened Wrappers
  import opened JsStrings

  const MismatchError := "Passwords don't match"
  const TooShortError := "Password must be at least 6 characters"
  const Confirmation := "Check your email for the confirmation link!"
  const MinPasswordLength := 6

  /** The request `signUp(email, password, { full_name })`. */
  datatype SignUpRequest = SignUpRequest(email: string, password: string, fullName: string)

  /** The local checks: the error they report, if any. The mismatch is
      checked first. The length is JavaScript's, in UTF-16 code units. */
  function ValidatePasswords(password: string, confirmPassword: string): (error: Option<string>)
    ensures error == None <==> password == confirmPassword && Utf16Length(password) >= MinPasswordLength
    ensures password != confirmPassword ==> error == Some(MismatchError)
    ensures password == confirmPassword && Utf16Length(password) < MinPasswordLength ==> error == Some(TooShortError)
  {
    if password != confirmPassword then Some(MismatchError)
    else if Utf16Length(password) < MinPasswordLength then Some(TooShortError)
    else None
  }

  /** A password that is both mismatched and short is reported as mismatched. */
  lemma MismatchReportedFirst(password: string, confirmPassword: string)
    requires password != confirmPassword && Utf16Length(password) < MinPasswordLength
    ensures ValidatePasswords(password, confirmPassword) == Some(MismatchError)
  {
  }

  /** Any six characters are long enough, and so are three astral ones such
      as emoji, which count twice. */
  lemma LongEnoughPasswords(password: string)
    requires |password| >= MinPasswordLength || (|password| >= 3 && forall i :: 0 <= i < |password| ==> IsAstral(password[i]))
    ensures ValidatePasswords(password, password) == None
  {
  }

  class SignupForm {
    var loading: bool
    var error: string
    var message: string
    /** The sign-up requests sent so far. */
    var requests: seq<SignUpRequest>

    constructor()
      ensures !loading && error == "" && message == "" && requests == []
    {
      loading := false;
      error := "";
      message := "";
      requests := [];
    }

    /** `handleSubmit`, given the error message `signUp` replies with (none on
        success). The redirect to the login page a few seconds after success
        is not modelled. */
    method HandleSubmit(email: string, password: string, confirmPassword: string, fullName: string,
                        signUpError: Option<string>)
      modifies this
      ensures !loading
      ensures ValidatePasswords(password, confirmPassword).Some? ==>
                error == ValidatePasswords(password, confirmPassword).value && message == "" &&
                requests == old(requests)
      ensures ValidatePasswords(password, confirmPassword).None? ==>
                requests == old(requests) + [SignUpRequest(email, password, fullName)] &&
                (signUpError.Some? ==> error == signUpError.value && message == "") &&
                (signUpError.None? ==> error == "" && message == Confirmation)
    {
      loading := true;
      error := "";
      message := "";
      if password != confirmPassword {
        error := MismatchError;
        loading := false;
        return;
      }
      if Utf16Length(password) < MinPasswordLength {
        error := TooShortError;
        loading := false;
        return;
      }
      requests := requests + [SignUpRequest(email, password, fullName)];
      if signUpError.Some? {
        error := signUpError.value;
      } else {
        message := Confirmation;
      }
      loading := false;
    }
  }
}
