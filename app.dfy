/**
 * The orchestrator (src/App.jsx): who is signed in, whether the sign-in
 * dialog is open, whether a booking is waiting for a sign-in, and the theme,
 * which it also keeps in local storage under "theme".
 */
module Orchestrator {
  import opened JsRuntime

  /** The object a successful sign-in hands to `onSignIn`: the server's reply body. */
  datatype UserData = UserData(token: Option<string>, email: Option<string>)

  const ThemeKey := "theme"

  /** The value `toggleDarkMode` stores for a mode. */
  function ThemeName(dark: bool): (r: string)
    ensures r == "dark" <==> dark
  {
    if dark then "dark" else "light"
  }

  /** The startup read: dark mode exactly when the stored theme is "dark". */
  predicate StoredDarkMode(items: map<string, string>) {
    ThemeKey in items && items[ThemeKey] == "dark"
  }

  /** A stored mode is the mode the next startup reads back. */
  lemma ThemeSurvivesReload(items: map<string, string>, dark: bool)
    ensures StoredDarkMode(items[ThemeKey := ThemeName(dark)]) == dark
  {
  }

  class App {
    var isSignInOpen: bool
    var isLoggedIn: bool
    var user: Option<UserData>
    var pendingBooking: bool
    var darkMode: bool
    /** `window.localStorage`. */
    const storage: Storage

    /**
     * Between handler runs, a signed-in user never has a booking pending:
     * every path that signs a user in also closes the dialog, which clears
     * the flag, and the flag is set only for a signed-out user.
     */
    predicate AtRest()
      reads this
    {
      isLoggedIn ==> !pendingBooking
    }

    /** The initial state, followed by the mount effect that reads the stored theme. */
    constructor (storage: Storage)
      ensures this.storage == storage
      ensures !isSignInOpen && !isLoggedIn && user == None && !pendingBooking
      ensures darkMode == StoredDarkMode(storage.items)
      ensures AtRest()
    {
      this.storage := storage;
      isSignInOpen, isLoggedIn, user, pendingBooking := false, false, None, false;
      darkMode := false;
      var saved := storage.GetItem(ThemeKey);
      if saved == Some("dark") {
        darkMode := true;
      }
    }

    /** `toggleDarkMode`: flips the mode and stores the new one. */
    method ToggleDarkMode()
      modifies this, storage
      ensures darkMode == !old(darkMode)
      ensures storage.items == old(storage.items)[ThemeKey := ThemeName(darkMode)]
      ensures isSignInOpen == old(isSignInOpen) && isLoggedIn == old(isLoggedIn)
      ensures user == old(user) && pendingBooking == old(pendingBooking)
    {
      if darkMode {
        storage.SetItem(ThemeKey, "light");
      } else {
        storage.SetItem(ThemeKey, "dark");
      }
      darkMode := !darkMode;
    }

    /** `handleSignIn`: records the user and closes the dialog; the pending flag is left alone. */
    method HandleSignIn(userData: UserData)
      modifies this
      ensures user == Some(userData) && isLoggedIn && !isSignInOpen
      ensures pendingBooking == old(pendingBooking) && darkMode == old(darkMode)
    {
      user := Some(userData);
      isLoggedIn := true;
      isSignInOpen := false;
    }

    /** `handleSignInClick(forBooking)`: opens the dialog and tags why it was opened. */
    method HandleSignInClick(forBooking: bool)
      modifies this
      ensures pendingBooking == forBooking && isSignInOpen
      ensures isLoggedIn == old(isLoggedIn) && user == old(user) && darkMode == old(darkMode)
      ensures old(AtRest()) && (forBooking ==> !isLoggedIn) ==> AtRest()
    {
      pendingBooking := forBooking;
      isSignInOpen := true;
    }

    /** The header's "Sign In" button, shown only while signed out: never for a booking. */
    method HeaderSignInClick()
      requires !isLoggedIn
      modifies this
      ensures !pendingBooking && isSignInOpen && AtRest()
      ensures isLoggedIn == old(isLoggedIn) && user == old(user) && darkMode == old(darkMode)
    {
      HandleSignInClick(false);
    }

    /** The dialog's `onClose`: closes it and drops any pending booking. */
    method CloseSignIn()
      modifies this
      ensures !isSignInOpen && !pendingBooking && AtRest()
      ensures isLoggedIn == old(isLoggedIn) && user == old(user) && darkMode == old(darkMode)
    {
      isSignInOpen := false;
      pendingBooking := false;
    }

    /** The header's "Sign Out" button: forgets the user and nothing else. */
    method SignOut()
      modifies this
      ensures !isLoggedIn && user == None && AtRest()
      ensures isSignInOpen == old(isSignInOpen) && pendingBooking == old(pendingBooking)
      ensures darkMode == old(darkMode)
    {
      isLoggedIn := false;
      user := None;
    }
  }
}
