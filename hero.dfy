/** The landing page's sign-in / sign-up dialog: opening it resets the form,
    submitting checks the password confirmation in sign-up mode, calls the
    identity provider, and turns its error codes into messages. The identity
    provider and the router are left out; the call's outcome is a parameter and
    the call and the route are results. */
module Hero {
  import opened Common

  /** What the identity provider's call did: succeeded, or threw with an error code. */
  datatype AuthOutcome = AuthOk | AuthError(code: string)

  /** The identity-provider call the handler makes, with the form's email and password. */
  datatype AuthCall = NoCall | CreateUser(email: string, password: string) | SignIn(email: string, password: string)

  const PasswordMismatchMessage := "Passwords do not match."
  const EmailInUseMessage := "An account already exists with this email address."
  const SignUpFailedMessage := "Failed to create an account. Please try again."
  const InvalidCredentialsMessage := "Invalid email or password. Please try again."
  const LoginFailedMessage := "Failed to log in. Please try again."

  const OnboardingRoute := "/onboarding"
  const DashboardRoute := "/dashboard"

  /** The sign-up error shown for an error code. */
  function SignUpErrorMessage(code: string): string
  {
    if code == "auth/email-already-in-use" then EmailInUseMessage else SignUpFailedMessage
  }

  /** The login error shown for an error code. */
  function LoginErrorMessage(code: string): string
  {
    if code == "auth/user-not-found" || code == "auth/wrong-password" || code == "auth/invalid-credential"
    then InvalidCredentialsMessage
    else LoginFailedMessage
  }

  /** Only an existing account gets the specific sign-up message; every other
      code gets the generic one. */
  lemma SignUpErrorMessageIff(code: string)
    ensures SignUpErrorMessage(code) == EmailInUseMessage <==> code == "auth/email-already-in-use"
    ensures SignUpErrorMessage(code) == SignUpFailedMessage <==> code != "auth/email-already-in-use"
  {
  }

  /** The three credential codes, and only they, give the invalid-credentials
      message; every other code gives the generic login message. */
  lemma LoginErrorMessageIff(code: string)
    ensures LoginErrorMessage(code) == InvalidCredentialsMessage <==>
      code in ["auth/user-not-found", "auth/wrong-password", "auth/invalid-credential"]
    ensures LoginErrorMessage(code) == LoginFailedMessage <==>
      code !in ["auth/user-not-found", "auth/wrong-password", "auth/invalid-credential"]
  {
  }

  /** The confirmation field is read through a ref, which is null when the
      field is not rendered; `password !== undefined` then holds, so only a
      present, equal value confirms. */
  predicate Confirms(password: string, confirmPassword: Option<string>)
  {
    confirmPassword == Some(password)
  }

  /** The dialog's state slots. */
  class AuthForm {
    var isAuthModalOpen: bool
    var isLogin: bool
    var email: string
    var password: string
    var error: Option<string>
    var isLoading: bool

    /** The dialog closed in login mode with an empty form. */
    constructor ()
      ensures !isAuthModalOpen && isLogin && email == "" && password == "" && error == None && !isLoading
    {
      isAuthModalOpen := false;
      isLogin := true;
      email := "";
      password := "";
      error := None;
      isLoading := false;
    }

    /** `openAuthModal(loginMode)`: the mode is set, the dialog opens, and the
        error, email and password are cleared. */
    method OpenAuthModal(loginMode: bool)
      modifies this
      ensures isLogin == loginMode && isAuthModalOpen
      ensures error == None && email == "" && password == ""
      ensures isLoading == old(isLoading)
    {
      isLogin := loginMode;
      isAuthModalOpen := true;
      error := None;
      email := "";
      password := "";
    }

    /** `closeAuthModal()`: only the dialog closes; the form keeps its values. */
    method CloseAuthModal()
      modifies this
      ensures !isAuthModalOpen
      ensures isLogin == old(isLogin) && email == old(email) && password == old(password)
      ensures error == old(error) && isLoading == old(isLoading)
    {
      isAuthModalOpen := false;
    }

    /** The "Sign up" / "Log in" link flips the mode and nothing else. */
    method ToggleMode()
      modifies this
      ensures isLogin == !old(isLogin)
      ensures isAuthModalOpen == old(isAuthModalOpen) && email == old(email) && password == old(password)
      ensures error == old(error) && isLoading == old(isLoading)
    {
      isLogin := !isLogin;
    }

    /** Typing in the email and password fields. */
    method SetCredentials(newEmail: string, newPassword: string)
      modifies this
      ensures email == newEmail && password == newPassword
      ensures isAuthModalOpen == old(isAuthModalOpen) && isLogin == old(isLogin)
      ensures error == old(error) && isLoading == old(isLoading)
    {
      email := newEmail;
      password := newPassword;
    }

    /** `handleAuthAction()`, given the confirmation field's value and the
        outcome of the identity-provider call. The error is cleared first and
        loading is over when it returns. In sign-up mode an unconfirmed
        password sets the mismatch message and makes no call. Otherwise the
        account call is made with the form's email and password: success
        routes to onboarding (sign-up) or the dashboard (login) and closes the
        dialog; failure sets the message for its code. */
    method HandleAuthAction(confirmPassword: Option<string>, outcome: AuthOutcome)
      returns (call: AuthCall, route: Option<string>)
      modifies this
      ensures !isLoading
      ensures isLogin == old(isLogin) && email == old(email) && password == old(password)
      ensures !isLogin && !Confirms(password, confirmPassword) ==>
        && call == NoCall && route == None
        && error == Some(PasswordMismatchMessage)
        && isAuthModalOpen == old(isAuthModalOpen)
      ensures !isLogin && Confirms(password, confirmPassword) ==> call == CreateUser(email, password)
      ensures isLogin ==> call == SignIn(email, password)
      ensures call != NoCall && outcome == AuthOk ==>
        && route == Some(if isLogin then DashboardRoute else OnboardingRoute)
        && !isAuthModalOpen && error == None
      ensures call != NoCall && outcome.AuthError? ==>
        && route == None && isAuthModalOpen == old(isAuthModalOpen)
        && error == Some(if isLogin then LoginErrorMessage(outcome.code) else SignUpErrorMessage(outcome.code))
    {
      isLoading := true;
      error := None;
      if !isLogin {
        if !Confirms(password, confirmPassword) {
          error := Some(PasswordMismatchMessage);
          isLoading := false;
          call, route := NoCall, None;
          return;
        }
        call := CreateUser(email, password);
        if outcome == AuthOk {
          route := Some(OnboardingRoute);
          CloseAuthModal();
        } else {
          route := None;
          error := Some(SignUpErrorMessage(outcome.code));
        }
      } else {
        call := SignIn(email, password);
        if outcome == AuthOk {
          route := Some(DashboardRoute);
          CloseAuthModal();
        } else {
          route := None;
          error := Some(LoginErrorMessage(outcome.code));
        }
      }
      isLoading := false;
    }
  }
}
