/**
 * Top-level navigation: which of the two root screens is shown, driven by
 * explicit navigation requests, launch completion and sign-in changes.
 */
module Coordinator {
  import opened Wrappers

  datatype Screen = AuthorizationScreen | MainTabs

  /** The screen launch completion routes to, given whether someone is signed in. */
  function LaunchRoute(signedIn: bool): (r: Screen)
    ensures r == MainTabs <==> signedIn
  {
    if !signedIn then AuthorizationScreen else MainTabs
  }

  /**
   * The auth-listener rule: a sign-in seen on the authorization screen moves
   * to the tabs, a sign-out seen on the tabs moves to authorization, and
   * every other combination stays put. With two screens this always lands
   * on the screen launch routing would pick.
   */
  function AuthChangeRoute(current: Screen, signedIn: bool): (r: Screen)
    ensures r == LaunchRoute(signedIn)
    ensures current == LaunchRoute(signedIn) ==> r == current
  {
    if signedIn && current == AuthorizationScreen then MainTabs
    else if !signedIn && current == MainTabs then AuthorizationScreen
    else current
  }

  /** Applying the listener rule twice for the same event changes nothing more. */
  lemma AuthChangeIdempotent(current: Screen, signedIn: bool)
    ensures AuthChangeRoute(AuthChangeRoute(current, signedIn), signedIn) == AuthChangeRoute(current, signedIn)
  {
  }

  class MainCoordinator {
    var currentScreen: Screen

    /** The app starts on the authorization screen. */
    constructor()
      ensures currentScreen == AuthorizationScreen
    {
      currentScreen := AuthorizationScreen;
    }

    /** `navigate(to:)`; assigns only when the screen actually changes. */
    method Navigate(screen: Screen)
      modifies this
      ensures currentScreen == screen
      ensures old(currentScreen) == screen ==> unchanged(this)
    {
      if currentScreen != screen {
        currentScreen := screen;
      }
    }

    /** `handleLaunchScreenCompletion`: `user` is the signed-in user's id, if any. */
    method HandleLaunchScreenCompletion(user: Option<string>)
      modifies this
      ensures currentScreen == LaunchRoute(user.Some?)
    {
      if user.None? {
        Navigate(AuthorizationScreen);
      } else {
        Navigate(MainTabs);
      }
    }

    method NavigateToMainTabs()
      modifies this
      ensures currentScreen == MainTabs
    {
      Navigate(MainTabs);
    }

    /** The auth-state listener, run with the user it was notified about. */
    method AuthStateChanged(user: Option<string>)
      modifies this
      ensures currentScreen == AuthChangeRoute(old(currentScreen), user.Some?)
    {
      if user.Some? && currentScreen == AuthorizationScreen {
        Navigate(MainTabs);
      } else if user.None? && currentScreen == MainTabs {
        Navigate(AuthorizationScreen);
      }
    }
  }
}
