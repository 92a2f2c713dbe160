/**
 * The sign-in and sign-up screen: its form state, the mode switch, and the
 * validation cascade that decides whether sign-in succeeds.
 */
module Auth {

  /** The sign-up intent radio buttons. */
  datatype Intent = Hire | Offer | Both

  datatype AuthForm = AuthForm(
    isLogin: bool,
    firstName: string,
    lastName: string,
    email: string,
    phoneNumber: string,
    password: string,
    confirmPassword: string,
    userType: Intent)

  const InitialForm := AuthForm(true, [], [], [], [], [], [], Hire)

  /** The result of `handleAuth`: the first failed check, or success. */
  datatype AuthOutcome = MissingLoginFields | MissingSignUpFields | PasswordMismatch | PasswordTooShort | Success

  /** The minimum password length at sign-up. */
  const MinPasswordLength := 6

  /** `handleAuth`: login needs email and password; sign-up checks missing fields, then the match, then the length. */
  function Validate(f: AuthForm): AuthOutcome {
    if f.isLogin then
      if f.email == [] || f.password == [] then MissingLoginFields else Success
    else if f.firstName == [] || f.lastName == [] || f.email == [] || f.password == [] || f.confirmPassword == [] then
      MissingSignUpFields
    else if f.password != f.confirmPassword then PasswordMismatch
    else if |f.password| < MinPasswordLength then PasswordTooShort
    else Success
  }

  /** Sign-in succeeds exactly when email and password are both filled in. */
  lemma LoginSuccessIff(f: AuthForm)
    requires f.isLogin
    ensures Validate(f) == Success <==> f.email != [] && f.password != []
    ensures Validate(f) != Success ==> Validate(f) == MissingLoginFields
  {
  }

  /** Sign-up succeeds exactly when the five required fields are filled, the passwords match and are six long. */
  lemma SignUpSuccessIff(f: AuthForm)
    requires !f.isLogin
    ensures Validate(f) == Success <==>
      f.firstName != [] && f.lastName != [] && f.email != [] && f.password != [] && f.confirmPassword != [] &&
      f.password == f.confirmPassword && |f.password| >= MinPasswordLength
  {
  }

  /** The first failure is the one reported: a missing field hides a mismatch, and a mismatch hides a short password. */
  lemma ChecksInOrder(f: AuthForm)
    requires !f.isLogin
    ensures (f.firstName == [] || f.email == [] || f.password == []) ==> Validate(f) == MissingSignUpFields
    ensures Validate(f) == PasswordTooShort ==> f.password == f.confirmPassword && f.password != []
    ensures Validate(f) == PasswordMismatch ==> f.password != [] && f.confirmPassword != []
  {
  }

  /** The phone number and the intent are never checked, and sign-in ignores the sign-up-only fields. */
  lemma UncheckedFields(f: AuthForm, phone: string, intent: Intent, first: string, last: string, confirm: string)
    ensures Validate(f.(phoneNumber := phone, userType := intent)) == Validate(f)
    ensures f.isLogin ==> Validate(f.(firstName := first, lastName := last, confirmPassword := confirm)) == Validate(f)
  {
  }

  /** The alert shown for a failed check. */
  function ErrorMessage(o: AuthOutcome): string
    requires o != Success
  {
    match o
    case MissingLoginFields => "Please fill in email and password"
    case MissingSignUpFields => "Please fill in all required fields"
    case PasswordMismatch => "Passwords do not match"
    case PasswordTooShort => "Password must be at least 6 characters"
  }

  /** The screen's state. */
  class AuthScreen {
    var form: AuthForm

    constructor ()
      ensures form == InitialForm
    {
      form := InitialForm;
    }

    /** The link under the form switches between sign-in and sign-up, keeping what was typed. */
    method SwitchMode()
      modifies this
      ensures form == old(form).(isLogin := !old(form).isLogin)
    {
      form := form.(isLogin := !form.isLogin);
    }

    /** The inputs and radio buttons write the form. */
    method SetForm(f: AuthForm)
      modifies this
      ensures form == f.(isLogin := old(form).isLogin)
    {
      form := f.(isLogin := form.isLogin);
    }

    /** The submit button: `onLogin` is reached, after the success alert, only when every check of the mode passes. */
    method HandleAuth() returns (outcome: AuthOutcome, callsOnLogin: bool)
      ensures outcome == Validate(form)
      ensures callsOnLogin <==> outcome == Success
    {
      outcome := Validate(form);
      callsOnLogin := outcome == Success;
    }
  }
}
