/**
 * Runs of the wired-up page: the orchestrator, the search page, the sign-in
 * dialog and the booking form, each handler applied in the order a render
 * cycle applies them (src/App.jsx passes its state and callbacks to
 * src/components/VillaList.jsx and src/components/SignIn.jsx).
 */
module Session {
  import opened JsRuntime
  import opened Booking
  import opened Orchestrator
  import opened Auth
  import opened Catalog
  import opened Listing

  /**
   * A signed-out visitor presses "Book Now", then signs in successfully.
   * The dialog's `onClose` runs right after `onSignIn`; with the state
   * updates of both applied in one render (as React 18 batches them), the
   * pending flag is already false when the resume effect looks at it, so
   * the booking form does not open, and the selected listing is kept.
   */
  method SignInForBooking(list: VillaList, dialog: SignIn, villa: Villa, response: Response)
    returns (resumed: bool)
    requires list.app == dialog.app && !list.app.isLoggedIn
    requires Classify(response).SignedIn?
    modifies list, dialog, list.app, list.app.storage
    ensures list.app.isLoggedIn && list.selectedVilla == Some(villa)
    ensures !resumed && list.isBookingOpen == old(list.isBookingOpen)
    ensures !list.app.pendingBooking && !list.app.isSignInOpen && list.app.AtRest()
  {
    list.BookNow(villa);
    var _, _ := dialog.Submit(response);
    resumed := list.ResumeBooking();
  }

  /**
   * A refused sign-in keeps the booking pending and the dialog open;
   * closing the dialog then drops the pending booking.
   */
  method RefusedSignInThenClose(list: VillaList, dialog: SignIn, villa: Villa, response: Response)
    returns (pendingAfterRefusal: bool)
    requires list.app == dialog.app && !list.app.isLoggedIn
    requires Classify(response).Refused?
    modifies list, dialog, list.app, list.app.storage
    ensures pendingAfterRefusal && dialog.error == Classify(response).message
    ensures !list.app.isLoggedIn && !list.app.pendingBooking && !list.app.isSignInOpen
    ensures list.app.storage.items == old(list.app.storage.items)
  {
    list.BookNow(villa);
    var _, _ := dialog.Submit(response);
    pendingAfterRefusal := list.app.pendingBooking;
    list.app.CloseSignIn();
  }

  /** From a state where the resume effect can fire, it fires once and not again. */
  method ResumeFiresOnce(list: VillaList) returns (first: bool, second: bool)
    requires list.app.isLoggedIn && list.app.pendingBooking && list.selectedVilla.Some?
    modifies list, list.app
    ensures first && !second && list.isBookingOpen && list.app.AtRest()
  {
    first := list.ResumeBooking();
    second := list.ResumeBooking();
  }

  /**
   * Submitting the booking form as the search page wires it: the form has
   * no `onSuccess`, so a valid submission ends with the submit error
   * instead of a booking, the form stays open, and `handleBookingSuccess`
   * is never reached.
   */
  method SubmitWiredForm(form: BookingForm, idNumber: nat) returns (result: SubmitResult, closed: bool)
    requires form.Valid() && !form.onSuccessGiven && idNumber < BookingIdBound
    modifies form
    ensures !result.Emitted? && !closed
    ensures result == Failed <==> old(form.step) == 2 && Step2Valid(form.formData)
    ensures result == Failed ==> form.errors == map[OnSubmit := SubmitProblem]
  {
    result, closed := form.Submit(idNumber);
  }

  /** Toggling the theme twice restores the mode and leaves it stored. */
  method ToggleTwice(app: App)
    modifies app, app.storage
    ensures app.darkMode == old(app.darkMode)
    ensures ThemeKey in app.storage.items && app.storage.items[ThemeKey] == ThemeName(app.darkMode)
  {
    app.ToggleDarkMode();
    app.ToggleDarkMode();
  }

  /** A toggled theme survives a reload: a new orchestrator over the same storage starts in it. */
  method ToggleThenReload(app: App) returns (reloaded: App)
    modifies app, app.storage
    ensures fresh(reloaded) && reloaded.darkMode == !old(app.darkMode)
    ensures !reloaded.isLoggedIn && !reloaded.pendingBooking
  {
    app.ToggleDarkMode();
    ThemeSurvivesReload(old(app.storage.items), app.darkMode);
    reloaded := new App(app.storage);
  }
}
