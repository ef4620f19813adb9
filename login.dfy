/** The login screen: two text fields, a password-visibility toggle, and a
    submit handler that checks only that both fields are filled before
    starting a simulated request. The request's completion (a timer in the
    screen) is the explicit event `CompleteLogin`. */
module Login {
  import opened Base

  /** The one check of `handleLogin`. */
  datatype LoginError = MissingCredentials

  /** The text of the error dialog; it is the one the sign-up screen shows
      for an empty field. */
  function ErrorMessage(e: LoginError): (r: string)
    ensures r == "Please fill in all fields"
  {
    match e
    case MissingCredentials => "Please fill in all fields"
  }

  /** The presence check: an error exactly when either field is the empty
      string. There is no e-mail format rule and no password length rule. */
  function ValidateLogin(email: string, password: string): (r: Option<LoginError>)
    ensures r.None? <==> email != [] && password != []
  {
    if email == [] || password == [] then Some(MissingCredentials) else None
  }

  /** What the completed (simulated) request reports. */
  function LoginSucceeded(): (a: Alert)
    ensures a.title == "Success" && a.message == "Login successful!"
    ensures a.okRoute == Some(TabsRoute)
  {
    SuccessAlert("Login successful!")
  }

  /** `handleForgotPassword`: a fixed informational dialog without a
      navigation button. */
  function ForgotPasswordNotice(): (a: Alert)
    ensures a.title == "Forgot Password" && a.okRoute.None?
    ensures a.message == "Password reset link will be sent to your email"
  {
    Alert("Forgot Password", "Password reset link will be sent to your email", None)
  }

  class LoginScreen {
    var email: string
    var password: string
    var showPassword: bool
    var isLoading: bool

    /** Opening the screen: both fields empty, password hidden, not loading. */
    constructor ()
      ensures email == "" && password == "" && !showPassword && !isLoading
    {
      email, password, showPassword, isLoading := "", "", false, false;
    }

    method SetEmail(value: string)
      modifies this`email
      ensures email == value
    {
      email := value;
    }

    method SetPassword(value: string)
      modifies this`password
      ensures password == value
    {
      password := value;
    }

    /** `handleLogin`. The button is disabled while loading, so it only runs
        when not loading. A missing field raises the error dialog and leaves
        `isLoading` alone; otherwise loading starts. */
    method HandleLogin() returns (error: Option<Alert>)
      requires !isLoading
      modifies this`isLoading
      ensures error.Some? <==> ValidateLogin(email, password).Some?
      ensures error.Some? ==> error.value == ErrorAlert(ErrorMessage(ValidateLogin(email, password).value)) && !isLoading
      ensures error.None? ==> isLoading
    {
      if email == "" || password == "" {
        return Some(ErrorAlert("Please fill in all fields"));
      }
      isLoading := true;
      error := None;
    }

    /** The simulated request finishing: loading ends and success is
        reported unconditionally. */
    method CompleteLogin() returns (alert: Alert)
      requires isLoading
      modifies this`isLoading
      ensures !isLoading && alert == LoginSucceeded()
    {
      isLoading := false;
      alert := LoginSucceeded();
    }

    method ToggleShowPassword()
      modifies this`showPassword
      ensures showPassword == !old(showPassword)
    {
      showPassword := !showPassword;
    }
  }

  /** Pressing the toggle twice gives back the visibility it started with. */
  method ToggleTwiceRestores(screen: LoginScreen)
    modifies screen`showPassword
    ensures screen.showPassword == old(screen.showPassword)
  {
    screen.ToggleShowPassword();
    screen.ToggleShowPassword();
  }

  /** Any two non-empty strings log in: submit starts loading without an
      error, and the completion reports success. */
  method LoginRoundTrip(screen: LoginScreen) returns (first: Option<Alert>, last: Alert)
    requires !screen.isLoading && screen.email != [] && screen.password != []
    modifies screen`isLoading
    ensures first.None? && last == LoginSucceeded() && !screen.isLoading
  {
    first := screen.HandleLogin();
    last := screen.CompleteLogin();
  }
}
