/** `LoginView`: one form for logging in and signing up, switched by a mode toggle. */
module Login {
  import opened Wrappers

  const FillInAllFields := "Please fill in all fields."

  /** The call handed to the authentication manager. */
  datatype AuthCall =
    | SignIn(email: string, password: string)
    | SignUp(email: string, password: string, firstName: string, lastName: string)

  /**
   * The rule of `handleAuth`: email and password are always required, the names only when
   * signing up; a complete form logs in or signs up with exactly the values entered.
   */
  function AuthDecision(email: string, password: string, firstName: string, lastName: string,
                        isLoginMode: bool): (r: Option<AuthCall>)
    ensures r.None? <==> email == "" || password == "" || (!isLoginMode && (firstName == "" || lastName == ""))
    ensures r.Some? ==> r.value.email == email && r.value.password == password
    ensures r.Some? ==> (r.value.SignIn? <==> isLoginMode)
    ensures r.Some? && r.value.SignUp? ==> r.value.firstName == firstName && r.value.lastName == lastName
  {
    if email == "" || password == "" || (!isLoginMode && (firstName == "" || lastName == "")) then None
    else if isLoginMode then Some(SignIn(email, password))
    else Some(SignUp(email, password, firstName, lastName))
  }

  /** Logging in does not look at the name fields. */
  lemma NamesIgnoredWhenLoggingIn(email: string, password: string, f1: string, l1: string, f2: string, l2: string)
    ensures AuthDecision(email, password, f1, l1, true) == AuthDecision(email, password, f2, l2, true)
  {
  }

  class LoginScreen {
    var email: string
    var password: string
    var firstName: string
    var lastName: string
    var isLoginMode: bool
    var errorMessage: Option<string>

    constructor ()
      ensures email == "" && password == "" && firstName == "" && lastName == ""
      ensures isLoginMode && errorMessage.None?
    {
      email, password, firstName, lastName := "", "", "", "";
      isLoginMode := true;
      errorMessage := None;
    }

    /**
     * `handleAuth`: an incomplete form sets the error text and calls nothing; a complete one
     * makes the call of the current mode and leaves the error text as it was.
     */
    method HandleAuth() returns (call: Option<AuthCall>)
      modifies this`errorMessage
      ensures call == AuthDecision(email, password, firstName, lastName, isLoginMode)
      ensures call.None? ==> errorMessage == Some(FillInAllFields)
      ensures call.Some? ==> errorMessage == old(errorMessage)
    {
      call := AuthDecision(email, password, firstName, lastName, isLoginMode);
      if call.None? {
        errorMessage := Some(FillInAllFields);
      }
    }

    /** The mode toggle. */
    method ToggleMode()
      modifies this`isLoginMode
      ensures isLoginMode == !old(isLoginMode)
    {
      isLoginMode := !isLoginMode;
    }
  }
}
