/**
 * The profile screen: the name and email it shows for the signed-in user,
 * and account deletion.
 */
module Profile {
  import opened Wrappers
  import opened Text
  import Authorization

  /** The signed-in user as the provider reports it. */
  datatype AuthUser = AuthUser(uid: string, displayName: Option<string>, email: Option<string>)

  const NoName: string := "No Name"
  const NoEmail: string := "No Email Provided"
  const RecentLoginMessage: string := "Please log out and log back in to delete your account."
  const NoUserToDelete: string := "No user logged in to delete."

  /** The email shown: the user's, or a placeholder when there is none. */
  function EmailText(user: AuthUser): (r: string)
    ensures user.email.Some? ==> r == user.email.value
    ensures user.email.None? ==> r == NoEmail
  {
    user.email.GetOr(NoEmail)
  }

  /**
   * The name shown: the user's display name; without one (or with the
   * placeholder text itself), the part of a real email before its first
   * `@`: the first non-empty piece `split(separator: "@")` yields, or
   * "User" when the email has no such piece.
   */
  function DisplayNameFor(user: AuthUser): (r: string)
    ensures user.displayName.Some? && user.displayName.value != NoName ==> r == user.displayName.value
    ensures user.displayName.GetOr(NoName) == NoName && (user.email.None? || user.email.value in {[], NoEmail}) ==> r == NoName
    ensures user.displayName.GetOr(NoName) == NoName && user.email.Some? && user.email.value !in {[], NoEmail} ==>
      && r != [] && '@' !in r
      && ((forall j :: 0 <= j < |user.email.value| ==> user.email.value[j] == '@') ==> r == "User")
      && ((exists j :: 0 <= j < |user.email.value| && user.email.value[j] != '@') ==>
            exists i | 0 <= i <= |user.email.value| :: PieceAt(user.email.value, '@', r, i))
  {
    var name := user.displayName.GetOr(NoName);
    var mail := EmailText(user);
    if name == NoName && mail != [] && mail != NoEmail then
      FirstPiece(mail, '@').GetOr("User")
    else name
  }

  /** A user without a display name is shown by the local part of an `local@domain` email. */
  lemma DisplayNameFromEmail(uid: string, local: string, domain: string)
    requires local != [] && '@' !in local
    ensures DisplayNameFor(AuthUser(uid, None, Some(local + "@" + domain))) == local
  {
    var mail := local + "@" + domain;
    FirstPieceOfJoined(local, '@', domain);
    assert mail[|local|] == '@';
    NotThePlaceholder(mail, |local|);
  }

  /** No real email equals the placeholder, which has no `@`. */
  lemma NotThePlaceholder(mail: string, k: nat)
    requires k < |mail| && mail[k] == '@'
    ensures mail != NoEmail
  {
    assert '@' !in NoEmail;
  }

  /** The message shown when deleting the account failed. */
  function DeletionMessage(e: Authorization.AuthFailure): (r: string)
    ensures e.code == Some(Authorization.RequiresRecentLogin) ==> r == RecentLoginMessage
    ensures e.code != Some(Authorization.RequiresRecentLogin) ==> r == "Failed to delete account: " + e.description
  {
    if e.code == Some(Authorization.RequiresRecentLogin) then RecentLoginMessage
    else "Failed to delete account: " + e.description
  }

  class ProfileViewModel {
    var displayName: string
    var email: string
    var isUserLoggedIn: bool
    var isLoading: bool
    var deletionError: Option<string>

    /** `init`: starts with the "Loading..." placeholders, then loads the user. */
    constructor(user: Option<AuthUser>)
      ensures user.Some? ==>
        isUserLoggedIn && displayName == DisplayNameFor(user.value) && email == EmailText(user.value)
        && !isLoading && deletionError == None
      ensures user.None? ==>
        !isUserLoggedIn && displayName == "Anonymous" && email == "-" && !isLoading && deletionError == None
    {
      displayName := "Loading...";
      email := "Loading...";
      isUserLoggedIn := false;
      isLoading := false;
      deletionError := None;
      new;
      LoadUserData(user);
    }

    /** `loadUserData`: `user` is the provider's current user. */
    method LoadUserData(user: Option<AuthUser>)
      modifies this
      ensures user.Some? ==>
        && isUserLoggedIn
        && displayName == DisplayNameFor(user.value)
        && email == EmailText(user.value)
        && isLoading == old(isLoading) && deletionError == old(deletionError)
      ensures user.None? ==>
        !isUserLoggedIn && displayName == "Anonymous" && email == "-" && deletionError == None && !isLoading
    {
      if user.Some? {
        var u := user.value;
        isUserLoggedIn := true;
        displayName := u.displayName.GetOr(NoName);
        email := u.email.GetOr(NoEmail);
        if displayName == NoName && email != [] && email != NoEmail {
          displayName := FirstPiece(email, '@').GetOr("User");
        }
      } else {
        isUserLoggedIn := false;
        displayName := "Anonymous";
        email := "-";
        deletionError := None;
        isLoading := false;
      }
    }

    /**
     * The synchronous part of `deleteAccount`: `user` is the provider's
     * current user. Without one it reports the error and starts nothing;
     * otherwise it raises the spinner and clears the error before the
     * deletion task runs.
     */
    method DeleteAccount(user: Option<AuthUser>) returns (started: bool)
      modifies this`isLoading, this`deletionError
      ensures started <==> user.Some?
      ensures user.None? ==> deletionError == Some(NoUserToDelete) && isLoading == old(isLoading)
      ensures user.Some? ==> isLoading && deletionError == None
    {
      if user.None? {
        deletionError := Some(NoUserToDelete);
        return false;
      }
      isLoading := true;
      deletionError := None;
      started := true;
    }

    /**
     * The task `deleteAccount` starts: `outcome` is what deleting the user
     * reports. On success nothing changes here (the spinner stays up: the
     * sign-out that follows moves the app away from this screen).
     */
    method CompleteDeletion(outcome: Outcome<Authorization.AuthFailure>)
      modifies this`isLoading, this`deletionError
      ensures outcome.Pass? ==> isLoading == old(isLoading) && deletionError == old(deletionError)
      ensures outcome.Fail? ==> !isLoading && deletionError == Some(DeletionMessage(outcome.error))
    {
      if outcome.Fail? {
        deletionError := Some(DeletionMessage(outcome.error));
        isLoading := false;
      }
    }
  }
}
