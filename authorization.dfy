/**
 * The sign-in / registration form: credential checks, the password
 * confirmation check, and the mapping of provider errors to messages.
 */
module Authorization {
  import opened Wrappers
  import Coordinator

  datatype AuthMode = Login | Registration

  /** The provider's error codes the app distinguishes; every other code is `OtherCode`. */
  datatype AuthErrorCode =
    | InvalidEmail
    | EmailAlreadyInUse
    | WeakPassword
    | WrongPassword
    | UserNotFound
    | RequiresRecentLogin
    | OtherCode

  /**
   * A failed authentication call: `code` is the provider error code carried
   * by the error, `None` when its code is not one of the provider's.
   */
  datatype AuthFailure = AuthFailure(code: Option<AuthErrorCode>, description: string)

  /** `AuthError.emptyCredentials`, which carries no provider code. */
  const EmptyCredentials: AuthFailure := AuthFailure(None, "Email and password cannot be empty.")

  const PasswordsDoNotMatch: string := "Passwords do not match."

  /**
   * `signIn` and `signUp`: both refuse an empty email or password before
   * calling the provider; otherwise the outcome is the provider's
   * (`signIn(withEmail:password:)` or `createUser(withEmail:password:)`).
   */
  function SubmitCredentials(email: string, password: string, provider: Outcome<AuthFailure>): (r: Outcome<AuthFailure>)
    ensures email == [] || password == [] ==> r == Fail(EmptyCredentials)
    ensures email != [] && password != [] ==> r == provider
  {
    if email == [] || password == [] then Fail(EmptyCredentials) else provider
  }

  /** `mapFirebaseError`: fixed texts for five codes, the error's own description otherwise. */
  function MapFirebaseError(e: AuthFailure): (r: string)
    ensures e.code.None? || e.code.value in {RequiresRecentLogin, OtherCode} ==> r == e.description
  {
    match e.code
    case Some(InvalidEmail) => "Invalid email format."
    case Some(EmailAlreadyInUse) => "This email is already registered."
    case Some(WeakPassword) => "Password is too weak. It should be at least 6 characters."
    case Some(WrongPassword) => "Incorrect password."
    case Some(UserNotFound) => "No account found with this email."
    case _ => e.description
  }

  /** The five recognised codes give five different messages, none of which depends on the description. */
  lemma MappedMessagesDistinct(a: AuthFailure, b: AuthFailure)
    requires a.code.Some? && a.code.value in {InvalidEmail, EmailAlreadyInUse, WeakPassword, WrongPassword, UserNotFound}
    requires b.code.Some? && b.code.value in {InvalidEmail, EmailAlreadyInUse, WeakPassword, WrongPassword, UserNotFound}
    ensures MapFirebaseError(a) == MapFirebaseError(b) <==> a.code == b.code
  {
  }

  /** The fixed texts of the five recognised codes. */
  lemma MapFirebaseErrorFixedTexts(description: string)
    ensures MapFirebaseError(AuthFailure(Some(InvalidEmail), description)) == "Invalid email format."
    ensures MapFirebaseError(AuthFailure(Some(EmailAlreadyInUse), description)) == "This email is already registered."
    ensures MapFirebaseError(AuthFailure(Some(WeakPassword), description)) == "Password is too weak. It should be at least 6 characters."
    ensures MapFirebaseError(AuthFailure(Some(WrongPassword), description)) == "Incorrect password."
    ensures MapFirebaseError(AuthFailure(Some(UserNotFound), description)) == "No account found with this email."
  {
  }

  /** An empty-credentials failure is shown with its own description. */
  lemma EmptyCredentialsMessage()
    ensures MapFirebaseError(EmptyCredentials) == "Email and password cannot be empty."
  {
  }

  class AuthorizationViewModel {
    var selectedMode: AuthMode
    var loginText: string
    var passwordText: string
    var nameText: string
    var emailText: string
    var confirmPasswordText: string
    var isLoading: bool
    var errorMessage: Option<string>
    /** The email and password `primaryAction` captured for its task. */
    var pendingEmail: string
    var pendingPassword: string
    const coordinator: Coordinator.MainCoordinator?

    constructor(coordinator: Coordinator.MainCoordinator?)
      ensures selectedMode == Login && !isLoading && errorMessage == None
      ensures loginText == [] && passwordText == [] && nameText == [] && emailText == [] && confirmPasswordText == []
      ensures this.coordinator == coordinator
    {
      selectedMode := Login;
      loginText, passwordText, nameText, emailText, confirmPasswordText := [], [], [], [], [];
      isLoading, errorMessage := false, None;
      pendingEmail, pendingPassword := [], [];
      this.coordinator := coordinator;
    }

    /** The synchronous part of `primaryAction`. */
    method PrimaryAction()
      modifies this`errorMessage, this`isLoading, this`pendingEmail, this`pendingPassword
      ensures errorMessage == None && isLoading
      ensures pendingEmail == emailText && pendingPassword == passwordText
    {
      errorMessage := None;
      isLoading := true;
      pendingEmail := emailText;
      pendingPassword := passwordText;
    }

    /**
     * The task `primaryAction` starts. `provider` is the outcome the
     * provider would report for the captured credentials; a successful
     * sign-in or sign-up navigates to the tabs. `isLoading` ends false on
     * every path.
     */
    method RunAuthentication(provider: Outcome<AuthFailure>)
      modifies this`errorMessage, this`isLoading, coordinator
      ensures !isLoading
      ensures selectedMode == Registration && pendingPassword != confirmPasswordText ==>
        && errorMessage == Some(PasswordsDoNotMatch)
        && (coordinator != null ==> coordinator.currentScreen == old(coordinator.currentScreen))
      ensures selectedMode == Login || pendingPassword == confirmPasswordText ==>
        var outcome := SubmitCredentials(pendingEmail, pendingPassword, provider);
        && (outcome.Pass? ==>
              errorMessage == old(errorMessage)
              && (coordinator != null ==> coordinator.currentScreen == Coordinator.MainTabs))
        && (outcome.Fail? ==>
              errorMessage == Some(MapFirebaseError(outcome.error))
              && (coordinator != null ==> coordinator.currentScreen == old(coordinator.currentScreen)))
    {
      if selectedMode == Registration && pendingPassword != confirmPasswordText {
        errorMessage := Some(PasswordsDoNotMatch);
        isLoading := false;
        return;
      }
      var outcome := SubmitCredentials(pendingEmail, pendingPassword, provider);
      if outcome.Pass? {
        if coordinator != null {
          coordinator.NavigateToMainTabs();
        }
        isLoading := false;
      } else {
        errorMessage := Some(MapFirebaseError(outcome.error));
        isLoading := false;
      }
    }
  }
}
