/**
 * The profile screen (MainActivity.kt): sends a signed-out user to the
 * login screen, otherwise reads `users/{uid}` once, shows the name and
 * email, and signs out on request.
 */
module MainActivity {

  import opened Wrappers
  import opened UserModel
  import opened Backend
  import opened Screens

  const UserDataNotFound := "User data not found"
  const UserDataUnreadable := "Failed to load user data"
  const ReadPermissionDenied := "Permission denied reading user data. "
    + "Check Realtime Database rules and ensure the authenticated user may read /users/{uid}."
  const DatabaseErrorPrefix := "Database error: "
  const LoggedOut := "Logged out successfully"

  /**
   * What a single read of `users/{uid}` delivers to `onDataChange`:
   * nothing there, or a value that did or did not deserialise into a
   * `User`.
   */
  datatype Snapshot = Missing | Present(user: Option<User>)

  /** The message `onCancelled` shows: the permission wording exactly for `PERMISSION_DENIED`. */
  function ReadCancelledMessage(error: DatabaseError): (r: string)
    ensures r == ReadPermissionDenied <==> error.code == PermissionDenied
    ensures error.code != PermissionDenied ==> r == DatabaseErrorPrefix + error.message
  {
    if error.code == PermissionDenied then ReadPermissionDenied
    else
      var r := DatabaseErrorPrefix + error.message;
      assert r[0] == 'D' && ReadPermissionDenied[0] == 'P';
      r
  }

  /** How far the screen is in its one read. */
  datatype ReadState = NotStarted | Reading(uid: string) | Done

  class Screen {
    // the progress bar, the profile card and the logout button
    var loading: bool
    var cardVisible: bool
    var logoutEnabled: bool

    /** The name and email shown on the card. */
    var shownName: string
    var shownEmail: string

    /** Whether the logout listener is installed. */
    var listening: bool
    /** The latest message shown to the user. */
    var message: Option<string>
    var navigation: Navigation
    var read: ReadState
    /** The backend calls issued so far, oldest first. */
    var requests: seq<Request>

    /**
     * The logout button is enabled exactly when the progress bar is
     * hidden, the card is never shown beside the progress bar, and the
     * screen shows progress exactly while its read is outstanding.
     */
    ghost predicate Valid()
      reads this
    {
      && logoutEnabled == !loading
      && (loading ==> !cardVisible)
      && (loading <==> read.Reading?)
    }

    /**
     * `onCreate`: without a session the user is sent to the login screen
     * and nothing else is set up; with one, the profile read starts and
     * the logout listener is installed.
     */
    constructor (session: Option<string>)
      ensures Valid()
      ensures message == None && shownName == [] && shownEmail == []
      ensures session.None? ==>
                navigation == ToLogin && !listening && read == NotStarted && requests == []
                && !loading
      ensures session.Some? ==>
                && navigation == Stay && listening && loading && !cardVisible
                && read == Reading(session.value)
                && requests == [ReadProfile(ProfilePath(session.value))]
    {
      loading, cardVisible, logoutEnabled := false, false, true;
      shownName, shownEmail := [], [];
      listening, message, navigation, read, requests := false, None, Stay, NotStarted, [];
      new;
      var signedIn := CheckUserSession(session);
      if signedIn {
        LoadUserData(session.value);
        listening := true;
      }
    }

    /** `checkUserSession`: without a session, go to the login screen. */
    method CheckUserSession(session: Option<string>) returns (signedIn: bool)
      modifies this`navigation
      ensures signedIn <==> session.Some?
      ensures navigation == if session.Some? then old(navigation) else ToLogin
    {
      if session.None? {
        navigation := ToLogin;
        return false;
      }
      return true;
    }

    /** `showLoading`: the progress bar, the card (the opposite way) and the logout button. */
    method ShowLoading(isLoading: bool)
      modifies this`loading, this`cardVisible, this`logoutEnabled
      ensures loading == isLoading && cardVisible == !isLoading && logoutEnabled == !isLoading
    {
      loading := isLoading;
      cardVisible := !isLoading;
      logoutEnabled := !isLoading;
    }

    /** `loadUserData`: show progress and read `users/{uid}` once. */
    method LoadUserData(uid: string)
      modifies this`loading, this`cardVisible, this`logoutEnabled, this`read, this`requests
      ensures loading && !cardVisible && !logoutEnabled && read == Reading(uid)
      ensures requests == old(requests) + [ReadProfile(ProfilePath(uid))]
    {
      ShowLoading(true);
      requests := requests + [ReadProfile(ProfilePath(uid))];
      read := Reading(uid);
    }

    /**
     * `onDataChange`: progress off first; then a missing record or one
     * that does not deserialise gives an error message, and a record
     * puts its own name and email on the card.
     */
    method OnDataChange(snapshot: Snapshot)
      requires Valid() && read.Reading?
      modifies this`loading, this`cardVisible, this`logoutEnabled, this`read,
               this`shownName, this`shownEmail, this`message
      ensures Valid()
      ensures !loading && cardVisible && read == Done
      ensures requests == old(requests) && navigation == old(navigation) && listening == old(listening)
      ensures match snapshot
              case Missing =>
                message == Some(UserDataNotFound)
                && shownName == old(shownName) && shownEmail == old(shownEmail)
              case Present(None) =>
                message == Some(UserDataUnreadable)
                && shownName == old(shownName) && shownEmail == old(shownEmail)
              case Present(Some(user)) =>
                message == old(message) && shownName == user.name && shownEmail == user.email
    {
      ShowLoading(false);
      read := Done;
      if snapshot.Present? {
        if snapshot.user.Some? {
          DisplayUserInfo(snapshot.user.value);
        } else {
          message := Some(UserDataUnreadable);
        }
      } else {
        message := Some(UserDataNotFound);
      }
    }

    /** `onCancelled`: progress off first, then the mapped database message. */
    method OnCancelled(error: DatabaseError)
      requires Valid() && read.Reading?
      modifies this`loading, this`cardVisible, this`logoutEnabled, this`read, this`message
      ensures Valid()
      ensures !loading && cardVisible && read == Done
      ensures message == Some(ReadCancelledMessage(error))
      ensures requests == old(requests) && navigation == old(navigation) && listening == old(listening)
      ensures shownName == old(shownName) && shownEmail == old(shownEmail)
    {
      ShowLoading(false);
      read := Done;
      message := Some(ReadCancelledMessage(error));
    }

    /** `displayUserInfo`: the record's name and email on a visible card. */
    method DisplayUserInfo(user: User)
      modifies this`shownName, this`shownEmail, this`cardVisible
      ensures shownName == user.name && shownEmail == user.email && cardVisible
    {
      shownName := user.name;
      shownEmail := user.email;
      cardVisible := true;
    }

    /**
     * The logout button (`performLogout`): sign out, then go to the login
     * screen; there is no failure path. Without a session the listener
     * was never installed, and a disabled button delivers no click.
     */
    method LogoutClicked()
      requires Valid()
      modifies this`requests, this`message, this`navigation
      ensures Valid()
      ensures !(old(listening) && old(logoutEnabled)) ==> unchanged(this)
      ensures old(listening) && old(logoutEnabled) ==>
                && requests == old(requests) + [SignOut]
                && message == Some(LoggedOut) && navigation == ToLogin
      ensures && loading == old(loading) && read == old(read) && logoutEnabled == old(logoutEnabled)
              && cardVisible == old(cardVisible) && listening == old(listening)
              && shownName == old(shownName) && shownEmail == old(shownEmail)
    {
      if listening && logoutEnabled {
        PerformLogout();
      }
    }

    /** `performLogout`: the sign-out call, the confirmation, then the login screen. */
    method PerformLogout()
      modifies this`requests, this`message, this`navigation
      ensures requests == old(requests) + [SignOut]
      ensures message == Some(LoggedOut) && navigation == ToLogin
    {
      requests := requests + [SignOut];
      message := Some(LoggedOut);
      navigation := ToLogin;
    }
  }

  /**
   * A signed-in user whose profile loads sees it on the card, and the
   * logout button then signs them out and returns to the login screen.
   */
  method LogoutAfterProfileLoads(uid: string, user: User) returns (screen: Screen)
    ensures screen.Valid()
    ensures screen.navigation == ToLogin && screen.message == Some(LoggedOut)
    ensures screen.shownName == user.name && screen.shownEmail == user.email
    ensures screen.requests == [ReadProfile(ProfilePath(uid)), SignOut]
  {
    screen := new Screen(Some(uid));
    screen.OnDataChange(Present(Some(user)));
    screen.LogoutClicked();
  }
}
