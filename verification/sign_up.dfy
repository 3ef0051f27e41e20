/** `SignUpView`: the stand-alone sign-up form with a password confirmation. */
module SignUpForm {
  import opened Wrappers
  import opened Login

  const PasswordsDoNotMatch := "Passwords do not match."

  /** What `handleSignUp` does with a form: reject it with a message, or sign up. */
  datatype Outcome = Rejected(message: string) | Dispatched(call: AuthCall)

  /**
   * The rule of `handleSignUp`: any empty field is reported first; only a complete form is
   * checked for a mismatched confirmation; a form passing both signs up with its four values.
   */
  function SignUpDecision(firstName: string, lastName: string, email: string, password: string,
                          confirmPassword: string): (r: Outcome)
    ensures r == Rejected(FillInAllFields) <==> email == "" || password == "" || firstName == "" || lastName == ""
    ensures r == Rejected(PasswordsDoNotMatch) <==>
              email != "" && password != "" && firstName != "" && lastName != "" && password != confirmPassword
    ensures r.Dispatched? <==>
              email != "" && password != "" && firstName != "" && lastName != "" && password == confirmPassword
    ensures r.Dispatched? ==> r.call == SignUp(email, password, firstName, lastName)
  {
    if email == "" || password == "" || firstName == "" || lastName == "" then Rejected(FillInAllFields)
    else if password != confirmPassword then Rejected(PasswordsDoNotMatch)
    else Dispatched(SignUp(email, password, firstName, lastName))
  }

  /**
   * This form signs up exactly when the combined login form in sign-up mode would with the same
   * values and the confirmation matches, and then with the same call.
   */
  lemma AgreesWithLoginForm(firstName: string, lastName: string, email: string, password: string,
                            confirmPassword: string)
    ensures var r := SignUpDecision(firstName, lastName, email, password, confirmPassword);
            var l := AuthDecision(email, password, firstName, lastName, false);
            && (r.Dispatched? <==> l.Some? && password == confirmPassword)
            && (r.Dispatched? ==> l == Some(r.call))
  {
  }

  class SignUpScreen {
    var firstName: string
    var lastName: string
    var email: string
    var password: string
    var confirmPassword: string
    var errorMessage: Option<string>

    constructor ()
      ensures firstName == "" && lastName == "" && email == "" && password == "" && confirmPassword == ""
      ensures errorMessage.None?
    {
      firstName, lastName, email, password, confirmPassword := "", "", "", "", "";
      errorMessage := None;
    }

    /** `handleSignUp`: a rejection sets its message and calls nothing; otherwise `signUp` is called. */
    method HandleSignUp() returns (call: Option<AuthCall>)
      modifies this`errorMessage
      ensures var r := SignUpDecision(firstName, lastName, email, password, confirmPassword);
              && (r.Rejected? ==> call.None? && errorMessage == Some(r.message))
              && (r.Dispatched? ==> call == Some(r.call) && errorMessage == old(errorMessage))
    {
      match SignUpDecision(firstName, lastName, email, password, confirmPassword) {
        case Rejected(message) =>
          errorMessage := Some(message);
          call := None;
        case Dispatched(c) =>
          call := Some(c);
      }
    }
  }
}
