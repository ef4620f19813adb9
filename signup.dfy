/** The sign-up screen: five text fields, three toggles, and a submit
    handler that runs an ordered chain of checks before starting a simulated
    request. The request's completion (a timer in the screen) is the explicit
    event `CompleteSignUp`. */
module SignUp {
  import opened Base

  /** The shortest password the screen accepts. */
  const MinPasswordLength: nat := 6

  datatype SignUpForm = SignUpForm(
    firstName: string, lastName: string, email: string,
    password: string, confirmPassword: string, acceptTerms: bool)

  /** The checks of `handleSignUp`, in the order it runs them. */
  datatype SignUpError = MissingFields | PasswordMismatch | PasswordTooShort | TermsNotAccepted

  /** The text of the error dialog each check raises. */
  function ErrorMessage(e: SignUpError): (r: string)
    ensures r != []
    ensures e == PasswordTooShort ==> r == "Password must be at least " + ['0' + MinPasswordLength as char] + " characters"
  {
    match e
    case MissingFields => "Please fill in all fields"
    case PasswordMismatch => "Passwords do not match"
    case PasswordTooShort => "Password must be at least 6 characters"
    case TermsNotAccepted => "Please accept the terms and conditions"
  }

  /** Each check raises its own text, so the dialog tells which check failed. */
  lemma ErrorMessageIdentifiesCheck(e1: SignUpError, e2: SignUpError)
    ensures ErrorMessage(e1) == ErrorMessage(e2) ==> e1 == e2
  {
  }

  /** The position of a check in the chain; an earlier check wins. */
  function Priority(e: SignUpError): nat {
    match e
    case MissingFields => 0
    case PasswordMismatch => 1
    case PasswordTooShort => 2
    case TermsNotAccepted => 3
  }

  /** Every rule the form breaks, each judged on its own. A field counts as
      filled when it is not the empty string; blanks are not trimmed. */
  function Violations(f: SignUpForm): set<SignUpError> {
    (if f.firstName == [] || f.lastName == [] || f.email == [] || f.password == [] || f.confirmPassword == []
     then {MissingFields} else {})
    + (if f.password != f.confirmPassword then {PasswordMismatch} else {})
    + (if |f.password| < MinPasswordLength then {PasswordTooShort} else {})
    + (if !f.acceptTerms then {TermsNotAccepted} else {})
  }

  /** The check chain of `handleSignUp`: None when every check passes;
      otherwise the broken rule that comes first in the chain. */
  function ValidateSignUp(f: SignUpForm): (r: Option<SignUpError>)
    ensures r.None? <==> Violations(f) == {}
    ensures r.Some? ==> r.value in Violations(f)
    ensures r.Some? ==> forall e :: e in Violations(f) ==> Priority(r.value) <= Priority(e)
  {
    if f.firstName == [] || f.lastName == [] || f.email == [] || f.password == [] || f.confirmPassword == [] then
      Some(MissingFields)
    else if f.password != f.confirmPassword then
      Some(PasswordMismatch)
    else if |f.password| < MinPasswordLength then
      Some(PasswordTooShort)
    else if !f.acceptTerms then
      Some(TermsNotAccepted)
    else
      None
  }

  /** A mismatch is reported even when the password is also too short. */
  lemma MismatchBeforeLength(f: SignUpForm)
    requires f.firstName != [] && f.lastName != [] && f.email != []
    requires f.password != [] && f.confirmPassword != []
    requires f.password != f.confirmPassword
    ensures ValidateSignUp(f) == Some(PasswordMismatch)
  {
    assert PasswordMismatch in Violations(f);
    assert MissingFields !in Violations(f);
  }

  /** What the completed (simulated) request reports. */
  function SignUpSucceeded(): (a: Alert)
    ensures a.title == "Success" && a.message == "Account created successfully!"
    ensures a.okRoute == Some(TabsRoute)
  {
    SuccessAlert("Account created successfully!")
  }

  datatype Field = FirstName | LastName | Email | Password | ConfirmPassword

  class SignUpScreen {
    var firstName: string
    var lastName: string
    var email: string
    var password: string
    var confirmPassword: string
    var showPassword: bool
    var showConfirmPassword: bool
    var isLoading: bool
    var acceptTerms: bool

    function Form(): SignUpForm
      reads this
    {
      SignUpForm(firstName, lastName, email, password, confirmPassword, acceptTerms)
    }

    /** Opening the screen: every field empty, every toggle off, not loading. */
    constructor ()
      ensures Form() == SignUpForm("", "", "", "", "", false)
      ensures !showPassword && !showConfirmPassword && !isLoading
    {
      firstName, lastName, email, password, confirmPassword := "", "", "", "", "";
      showPassword, showConfirmPassword, isLoading, acceptTerms := false, false, false, false;
    }

    /** `onChangeText` of one of the five fields. */
    method Edit(field: Field, value: string)
      modifies this`firstName, this`lastName, this`email, this`password, this`confirmPassword
      ensures Form() == match field
        case FirstName => old(Form()).(firstName := value)
        case LastName => old(Form()).(lastName := value)
        case Email => old(Form()).(email := value)
        case Password => old(Form()).(password := value)
        case ConfirmPassword => old(Form()).(confirmPassword := value)
    {
      match field
      case FirstName => firstName := value;
      case LastName => lastName := value;
      case Email => email := value;
      case Password => password := value;
      case ConfirmPassword => confirmPassword := value;
    }

    /** `handleSignUp`. The button is disabled while loading, so it only runs
        when not loading. A failed check raises its error dialog and leaves
        `isLoading` alone; passing every check starts loading. */
    method HandleSignUp() returns (error: Option<Alert>)
      requires !isLoading
      modifies this`isLoading
      ensures ValidateSignUp(Form()).Some? ==>
        error == Some(ErrorAlert(ErrorMessage(ValidateSignUp(Form()).value))) && !isLoading
      ensures ValidateSignUp(Form()).None? ==> error.None? && isLoading
    {
      if firstName == "" || lastName == "" || email == "" || password == "" || confirmPassword == "" {
        return Some(ErrorAlert("Please fill in all fields"));
      }
      if password != confirmPassword {
        return Some(ErrorAlert("Passwords do not match"));
      }
      if |password| < MinPasswordLength {
        return Some(ErrorAlert("Password must be at least 6 characters"));
      }
      if !acceptTerms {
        return Some(ErrorAlert("Please accept the terms and conditions"));
      }
      isLoading := true;
      error := None;
    }

    /** The simulated request finishing: loading ends and success is
        reported, whatever the fields now hold. */
    method CompleteSignUp() returns (alert: Alert)
      requires isLoading
      modifies this`isLoading
      ensures !isLoading && alert == SignUpSucceeded()
    {
      isLoading := false;
      alert := SignUpSucceeded();
    }

    method ToggleShowPassword()
      modifies this`showPassword
      ensures showPassword == !old(showPassword)
    {
      showPassword := !showPassword;
    }

    method ToggleShowConfirmPassword()
      modifies this`showConfirmPassword
      ensures showConfirmPassword == !old(showConfirmPassword)
    {
      showConfirmPassword := !showConfirmPassword;
    }

    method ToggleAcceptTerms()
      modifies this`acceptTerms
      ensures acceptTerms == !old(acceptTerms)
    {
      acceptTerms := !acceptTerms;
    }
  }

  /** Pressing each toggle twice gives back the screen it started from. */
  method TogglesTwiceRestore(screen: SignUpScreen)
    modifies screen`showPassword, screen`showConfirmPassword, screen`acceptTerms
    ensures screen.showPassword == old(screen.showPassword)
    ensures screen.showConfirmPassword == old(screen.showConfirmPassword)
    ensures screen.Form() == old(screen.Form())
  {
    screen.ToggleShowPassword();
    screen.ToggleShowPassword();
    screen.ToggleShowConfirmPassword();
    screen.ToggleShowConfirmPassword();
    screen.ToggleAcceptTerms();
    screen.ToggleAcceptTerms();
  }

  /** A full successful sign-up: submit, then the request completes. */
  method SignUpRoundTrip(screen: SignUpScreen) returns (first: Option<Alert>, last: Alert)
    requires !screen.isLoading && ValidateSignUp(screen.Form()).None?
    modifies screen`isLoading
    ensures first.None? && last == SignUpSucceeded() && !screen.isLoading
    ensures screen.Form() == old(screen.Form())
  {
    first := screen.HandleSignUp();
    last := screen.CompleteSignUp();
  }
}
