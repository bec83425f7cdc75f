# Villa Finder front end: a Dafny model

Villa Finder is a single-page React app for finding and booking luxury
villas. This project models its four central components as Dafny modules:

- **`Catalog`** (`villa_list.dfy`) models the search page. It covers:
  - the three filter inputs;
  - the listings request they produce, including its query string, which is
    serialized as `application/x-www-form-urlencoded`;
  - the fetch state and the status panels derived from it;
  - the hand-off from "Book Now" to the sign-in dialog or the booking form.
- **`Listing`** (`listing.dfy`) models a listing record and the fallbacks a
  result card applies to its missing fields.
- **`Booking`** (`booking_form.dfy`) models the two-step booking form:
  - the change handler;
  - the two validators, including the e-mail pattern `\S+@\S+\.\S+`;
  - step navigation;
  - the submission, which builds a booking record with a total price and a
    `BK` identifier.
- **`Orchestrator`** (`app.dfy`) models the top-level state: sign-in state,
  the sign-in dialog, the pending-booking flag, and the theme kept in local
  storage.
- **`Auth`** (`sign_in.dfy`) models the credential sign-in dialog: the
  endpoint choice, and how a reply becomes a stored token or an error
  message.
- **`JsRuntime`** (`js_runtime.dfy`) models the pieces of JavaScript the
  components rely on: `trim`, `\s`, decimal `parseInt`, `String(n)`,
  truthiness, and `localStorage`.
- **`Session`** (`session.dfy`) strings the handlers of several components
  together in the order the page runs them.

Components whose handlers update state in place are classes: `BookingForm`,
`VillaList`, `App` and `SignIn`. Their methods are stated against pure
specification functions such as `Step1Errors`, `Params`, `ListingsUrl`,
`Classify` and `Visibility`, and the properties are proved about those
functions.

The model follows the code as written, including wiring that a reader might
not expect:

- The search page passes the booking form a prop named `onBookingSuccess`,
  but the form reads `onSuccess`. A valid submission therefore ends with the
  form's submit error, never with a booking (`Session.SubmitWiredForm`).
- The form has no inputs for the card fields, yet "credit", the only payment
  method, requires them. So step 2 never validates from the form's own
  inputs (`Booking.MarkupNeverPassesStep2`).
- A successful sign-in calls `onSignIn` and then `onClose`, and `onClose`
  clears the pending-booking flag. When the updates of both land in one
  render, as React 18 batches them, the effect that should resume a booking
  after sign-in finds the flag already cleared and does not fire
  (`Session.SignInForBooking`, `Catalog.VillaList.ResumeBooking`).
- The search button starts a new fetch only when the filters were edited
  since the last search. Otherwise `searchFilters` is handed the same object
  and React does not re-render (`Catalog.VillaList.Search`).

## Model

| member | source | states |
|---|---|---|
| JsRuntime.TrimStart | src/components/BookingForm.jsx:46 | the result is a suffix of the input, everything dropped is white space, and it does not start with white space |
| JsRuntime.TrimEnd | src/components/BookingForm.jsx:46 | the result is a prefix of the input, everything dropped is white space, and it does not end with white space |
| JsRuntime.Trim | src/components/BookingForm.jsx:46 | `trim` returns the slice of the input between its leading and trailing white space, and the result neither starts nor ends with white space |
| JsRuntime.TrimmedEmptyIffBlank | src/components/BookingForm.jsx:46-54 | `!s.trim()` holds exactly when every character of `s` is white space, which is the character test the validators use |
| JsRuntime.IsSpace | src/components/BookingForm.jsx:51 | the white-space class shared by `trim` and `\s` contains no digit and none of `@`, `.`, `+`, `-`, so those characters always count as `\S` |
| JsRuntime.DigitRun | src/components/BookingForm.jsx:97 | `parseInt` reads the longest run of digits: every character in the run is a digit, and the next one is not |
| JsRuntime.DecimalString | src/components/VillaList.jsx:490 | `String(n)` is a non-empty run of digits with no leading zero |
| JsRuntime.DecimalStringValue | src/components/VillaList.jsx:490 | the digits of `String(n)` have the value `n` |
| JsRuntime.ParseInt | src/components/BookingForm.jsx:97 | `parseInt` gives a number exactly when, after leading white space and an optional sign, a digit follows; otherwise NaN |
| JsRuntime.ParseDecimalString | src/components/BookingForm.jsx:97 | `parseInt(String(n)) == n` for every non-negative `n` |
| JsRuntime.Storage.GetItem | src/App.jsx:14 | `getItem` returns the stored value, or null exactly when the key is absent |
| JsRuntime.Storage.SetItem | src/components/SignIn.jsx:55 | `setItem` stores the value under the key and changes no other entry |
| Listing.OrElse | src/components/VillaList.jsx:400-403 | `s \|\| fallback` is `s` when it is truthy and the fallback otherwise, so it is never empty when the fallback is not |
| Listing.DisplayName | src/components/VillaList.jsx:421 | the card title is the listing's name when it has one and "Unnamed Villa" otherwise |
| Listing.DisplayLocation | src/components/VillaList.jsx:453 | the location line is the listing's location when it has one and "Location not specified" otherwise |
| Listing.ImageSource | src/components/VillaList.jsx:400-403 | the image source is the listing's image when it has one and the placeholder URL otherwise |
| Listing.PriceLabel | src/components/VillaList.jsx:428-431 | "Price on request" shows exactly when the price is missing or 0; otherwise the price itself shows |
| Listing.DescriptionText | src/components/VillaList.jsx:461-465 | a description of at most 120 characters shows whole; a longer one shows its first 120 characters followed by "..."; a missing one shows a fixed sentence |
| Listing.AmenityChips | src/components/VillaList.jsx:468-492 | the chips are the first min(n, 4) amenities; a "+N more" chip appears exactly when there are more than 4, and nothing shows when the field is not an array |
| Listing.MoreChipCountsHidden | src/components/VillaList.jsx:481-492 | the number in the "+N more" chip is exactly the number of amenities not shown |
| Listing.Cards | src/components/VillaList.jsx:389-391 | the grid renders every non-null entry and nothing else; a single entry renders as one card when non-null and none when null |
| Listing.CardsAppend | src/components/VillaList.jsx:389-391 | the cards of a concatenation are the cards of the first part followed by those of the second, so order and repeats are kept entry by entry |
| Listing.MissingPriceShowsPlaceholder | src/components/VillaList.jsx:428-431 | of two listings, the one with a price shows it and the one without shows the placeholder |
| Booking.DotAheadIff | src/components/BookingForm.jsx:51 | the forward scan for `\S*\.\S` succeeds exactly when such a dot exists |
| Booking.MatchFromIff | src/components/BookingForm.jsx:51 | trying every "@" from index i on succeeds exactly when the pattern matches with its "@" at or after i |
| Booking.EmailTest | src/components/BookingForm.jsx:51 | the e-mail test accepts exactly the strings containing a non-space, "@", non-spaces, ".", non-space |
| Booking.EmailExamples | src/components/BookingForm.jsx:51 | "a@b.com" passes the e-mail test; "a.b.com" and "a@b" fail it |
| Booking.Applied | src/components/BookingForm.jsx:31-34 | a change writes the named field, `checked` for the checkbox and `value` otherwise, and leaves every other field as it was |
| Booking.ClearError | src/components/BookingForm.jsx:36-41 | a change blanks the changed field's error when one is shown, and keeps every key and every other message |
| Booking.Step1Map | src/components/BookingForm.jsx:44-59 | step 1 records an error for exactly the failing fields, and the e-mail message says whether the address is missing or malformed |
| Booking.Step1Errors | src/components/BookingForm.jsx:44-59 | step 1's error map is empty exactly when the form passes step 1 |
| Booking.Step2Map | src/components/BookingForm.jsx:61-75 | step 2 records an error for exactly the failing fields, and for no other key |
| Booking.Step2Errors | src/components/BookingForm.jsx:61-75 | card fields are required only for "credit", the terms are always required, and the map is empty exactly when the form passes step 2 |
| Booking.TermsAlwaysRequired | src/components/BookingForm.jsx:72-73 | with the terms unchecked, step 2 fails with the terms message whatever else the form holds |
| Booking.DurationValueParses | src/components/BookingForm.jsx:419-423 | every option the duration select offers is the decimal rendering of an offered month count and parses back to it |
| Booking.Total | src/components/BookingForm.jsx:97 | the total is NaN exactly when the price is missing or the duration does not start with a number; otherwise it is the price times the parsed duration |
| Booking.TotalOfChoice | src/components/BookingForm.jsx:97 | for a priced listing and an offered month count, the total is exactly price times months |
| Booking.NoPriceNoTotal | src/components/BookingForm.jsx:97 | an unpriced listing has no numeric total (NaN) |
| Booking.BookingId | src/components/BookingForm.jsx:98 | the booking id is "BK" followed by digits that read back as the random number drawn |
| Booking.BookingForm.constructor | src/components/BookingForm.jsx:4-19 | the form starts at step 1 with the initial form data, no errors, and not loading |
| Booking.BookingForm.Change | src/components/BookingForm.jsx:29-42 | `handleChange` updates the form data as `Applied` says and the errors as `ClearError` says; step and loading are unchanged |
| Booking.BookingForm.ValidateStep1 | src/components/BookingForm.jsx:44-59 | `validateStep1` replaces the errors with `Step1Errors` of the form and returns whether the form passes step 1 |
| Booking.BookingForm.ValidateStep2 | src/components/BookingForm.jsx:61-75 | `validateStep2` replaces the errors with `Step2Errors` of the form and returns whether the form passes step 2 |
| Booking.BookingForm.Next | src/components/BookingForm.jsx:77-81 | from step 1 the form validates and moves to step 2 exactly when step 1 passes; from step 2 nothing changes |
| Booking.BookingForm.Previous | src/components/BookingForm.jsx:83-85 | going back to step 1 keeps the form data and the errors |
| Booking.BookingForm.Submit | src/components/BookingForm.jsx:87-109 | outside step 2 nothing happens; an invalid step 2 shows its errors; a valid one emits the booking, priced and identified as above, and closes when `onSuccess` is given; otherwise it shows the submit error and stays open; loading always ends false |
| Booking.BookingForm.FormattedTotal | src/components/BookingForm.jsx:111-114 | for a priced listing and an offered duration, the total shown is the price times the selected month count |
| Booking.MarkupEvent | src/components/BookingForm.jsx:255-520 | the form's own inputs produce only text for text fields, an offered duration, "credit", and the terms checkbox, and never touch a card field |
| Booking.MarkupKeepsReachable | src/components/BookingForm.jsx:255-520 | however many changes the inputs make, the card fields stay empty, the payment method stays "credit", and the duration stays an offered value |
| Booking.MarkupNeverPassesStep2 | src/components/BookingForm.jsx:61-75 | whatever the user enters through the form's inputs, step 2 fails, with a card-number error among its errors |
| Booking.MarkupTotalExact | src/components/BookingForm.jsx:111-114 | whatever the user enters, the selected duration is an offered month count and the total for a priced listing is the price times that count |
| Orchestrator.ThemeName | src/App.jsx:21-30 | the stored theme is "dark" exactly for dark mode |
| Orchestrator.ThemeSurvivesReload | src/App.jsx:12-19 | the theme a toggle stores is the mode the next startup reads back |
| Orchestrator.App.constructor | src/App.jsx:6-19 | the app starts signed out, with the dialog closed and no booking pending; dark mode is on exactly when the stored theme is "dark" |
| Orchestrator.App.ToggleDarkMode | src/App.jsx:21-30 | the toggle flips the mode and stores the new mode's name under "theme"; the sign-in state is unchanged |
| Orchestrator.App.HandleSignIn | src/App.jsx:32-43 | `handleSignIn` records the user, marks them signed in and closes the dialog; the pending flag is left alone |
| Orchestrator.App.HandleSignInClick | src/App.jsx:45-49 | `handleSignInClick` opens the dialog and records whether it was opened for a booking |
| Orchestrator.App.HeaderSignInClick | src/App.jsx:156-158 | the header's sign-in button opens the dialog without a pending booking |
| Orchestrator.App.CloseSignIn | src/App.jsx:537-540 | closing the dialog also drops any pending booking, so a signed-in user has none |
| Orchestrator.App.SignOut | src/App.jsx:177-180 | signing out forgets the user and changes nothing else |
| Auth.AuthUrl | src/components/SignIn.jsx:17-18 | the URL is the configured API base, then `/api/users/`, then the endpoint |
| Auth.Endpoint | src/components/SignIn.jsx:17 | the endpoint is "register" exactly in sign-up mode and "login" exactly otherwise |
| Auth.ErrorText | src/components/SignIn.jsx:60-64 | the message shown is the error's own message, or the connection fallback when that is empty |
| Auth.Classify | src/components/SignIn.jsx:37-64 | only an OK reply whose body has a truthy token signs in. A 404 gets the "not found" message, any other non-OK status with a readable body the authentication message, and an OK reply without a token the invalid-response message. A failed request, or a reply other than 404 whose body cannot be read, shows that error's own message or else the connection fallback |
| Auth.NonOkStatusesAgree | src/components/SignIn.jsx:37-46 | for readable bodies, every non-OK status other than 404 gets the same message |
| Auth.SignIn.constructor | src/components/SignIn.jsx:5-9 | the dialog starts in sign-in mode, with empty fields and no error |
| Auth.SignIn.ToggleSignUp | src/components/SignIn.jsx:235-238 | the mode link switches mode and clears the error |
| Auth.SignIn.Submit | src/components/SignIn.jsx:11-68 | on success the token is stored under "userToken", the user is signed in, the dialog is closed, and no booking is pending. On failure the error is shown and neither storage nor the app changes. Loading always ends false |
| Catalog.WithFilter | src/components/VillaList.jsx:59-65 | editing a filter sets that filter and keeps the other two |
| Catalog.Params | src/components/VillaList.jsx:33-39 | a parameter is sent for a filter exactly when it is non-empty, always as that filter's own name and value and nothing else, in the order location, minPrice, maxPrice; no filters give no parameters |
| Catalog.SingleFilter | src/components/VillaList.jsx:33-39 | a search with only one filter set, whichever it is, sends only that filter under its own name |
| Catalog.Utf8 | src/components/VillaList.jsx:41-43 | each character is 1 to 4 bytes; ASCII is its own byte, and the bytes of any other character are all non-ASCII |
| Catalog.Utf8DecodeChar | src/components/VillaList.jsx:41-43 | UTF-8 decoding reads a character's bytes back as that character, whatever bytes follow |
| Catalog.Utf8DecodeAll | src/components/VillaList.jsx:41-43 | UTF-8 decoding gives back every string from its bytes |
| Catalog.EncodeByte | src/components/VillaList.jsx:41-43 | an encoded byte never holds "&" or "="; an unreserved byte is left as it is, a space becomes "+", and any other byte becomes a three-character `%` escape |
| Catalog.PercentDecodeByte | src/components/VillaList.jsx:41-43 | the form parser reads each encoded byte back as that byte, whatever follows it |
| Catalog.PercentDecodeBytes | src/components/VillaList.jsx:41-43 | the form parser reads any encoded byte sequence back as those bytes |
| Catalog.FormEncode | src/components/VillaList.jsx:41-43 | an encoded name or value never holds "&" or "=" |
| Catalog.PercentDecodeFormEncode | src/components/VillaList.jsx:41-43 | undoing the percent-encoding of a text gives its UTF-8 bytes |
| Catalog.FormEncodeRoundTrip | src/components/VillaList.jsx:41-43 | the form parser of the URL Standard reads back exactly the text that was encoded, so the server gets the filter the user typed |
| Catalog.FormEncodeInjective | src/components/VillaList.jsx:41-43 | two different filter values are never sent as the same text |
| Catalog.FormEncodeAppend | src/components/VillaList.jsx:41-43 | text is encoded one character at a time: the encoding of a concatenation is the concatenation of the encodings |
| Catalog.SpaceAsPlus | src/components/VillaList.jsx:41-43 | a space between plain words, as in "Goa Beach", is sent as "+" ("Goa+Beach") |
| Catalog.RupeeExample | src/components/VillaList.jsx:41-43 | the rupee sign is sent as "%E2%82%B9" |
| Catalog.PlainTextUnchanged | src/components/VillaList.jsx:41-43 | text made only of ASCII letters, digits, `*`, `-`, `.` and `_`, such as a price, is sent unchanged |
| Catalog.EncodePairs | src/components/VillaList.jsx:41-43 | there is one `name=value` component per parameter, in order |
| Catalog.Query | src/components/VillaList.jsx:41-43 | the query string is empty exactly when there are no parameters; otherwise splitting it at "&" gives back exactly one `name=value` component per parameter, in order |
| Catalog.SplitJoinAmpFree | src/components/VillaList.jsx:41-43 | splitting a "&"-joined list of parts that contain no "&" gives back the parts |
| Catalog.ListingsUrl | src/components/VillaList.jsx:41-43 | the request URL is the listings endpoint followed by the query; with no filters it is the bare endpoint |
| Catalog.Visibility | src/components/VillaList.jsx:263-387 | the first-load spinner shows alone; a refresh keeps results visible under a toast; the summary line shows exactly when nothing is loading, even beside the error banner; an error hides the count, the grid and "No villas found"; "No villas found" needs a settled page with no listings; once settled without an error, exactly one of the grid and "No villas found" shows |
| Catalog.VillaList.CurrentPanels | src/components/VillaList.jsx:263-387 | on the page's own state, the grid shows only with listings, no error and the first load over; the error banner shows exactly when there is an error and nothing is loading |
| Catalog.VillaList.constructor | src/components/VillaList.jsx:14-28 | the page starts with no listings, on its first load, with empty filters, nothing selected and no dialog open |
| Catalog.VillaList.QueryParams | src/components/VillaList.jsx:33-39 | the parameters built step by step are `Params` of the applied filters |
| Catalog.VillaList.StartFetch | src/components/VillaList.jsx:30-43 | a fetch raises loading and requests `ListingsUrl` of the applied filters |
| Catalog.VillaList.FinishFetch | src/components/VillaList.jsx:44-52 | a reply replaces the listings and clears the error; a failure keeps the old listings, shows the fixed message and hides the grid; both end the loading and the first load |
| Catalog.VillaList.ChangeFilter | src/components/VillaList.jsx:59-65 | editing a filter changes only the edited filters; the applied filters stay |
| Catalog.VillaList.Search | src/components/VillaList.jsx:67-69 | searching applies the edited filters, and a new fetch follows exactly when they were edited since the last search |
| Catalog.VillaList.KeyPress | src/components/VillaList.jsx:71-75 | Enter searches; any other key changes nothing |
| Catalog.VillaList.ViewDetails | src/components/VillaList.jsx:82-85 | viewing details selects the listing and opens the details dialog |
| Catalog.VillaList.CloseDetails | src/components/VillaList.jsx:529 | the details dialog closes |
| Catalog.VillaList.BookNow | src/components/VillaList.jsx:87-97 | "Book Now" selects the listing. A signed-out visitor gets the sign-in dialog with the booking pending; a signed-in one gets the booking form. A signed-in user still has nothing pending |
| Catalog.VillaList.ResumeBooking | src/components/VillaList.jsx:99-107 | the resume effect fires exactly when the user is signed in, a booking is pending and a listing is selected; it opens the form and clears the flag; it never fires while no signed-in user has a booking pending |
| Catalog.VillaList.MountBookingForm | src/components/VillaList.jsx:537-545 | the booking form is created for the selected listing, without an `onSuccess` callback |
| Catalog.VillaList.BookingSuccess | src/components/VillaList.jsx:109-117 | a confirmed booking is kept for the toast and the form closes |
| Catalog.VillaList.CloseBooking | src/components/VillaList.jsx:540 | the booking form closes |
| Session.SignInForBooking | src/App.jsx:537-541 | after "Book Now" while signed out and a successful sign-in, the user is signed in with the listing still selected, but the resume effect does not fire and the booking form stays as it was |
| Session.RefusedSignInThenClose | src/components/SignIn.jsx:60-64 | a refused sign-in keeps the booking pending and shows the message; closing the dialog drops the pending booking and leaves storage unchanged |
| Session.ResumeFiresOnce | src/components/VillaList.jsx:99-107 | when the resume effect can fire, it fires once and then not again |
| Session.SubmitWiredForm | src/components/VillaList.jsx:537-545 | the form as the search page wires it never emits a booking and never closes itself; a valid submission shows the submit error |
| Session.ToggleTwice | src/App.jsx:21-30 | two toggles restore the mode, and the stored theme matches it |
| Session.ToggleThenReload | src/App.jsx:12-30 | after a toggle, a fresh start over the same storage comes up in the toggled mode |

## Left out

- Network requests are not performed. The sign-in reply is a parameter of `Auth.SignIn.Submit`, and the listings reply a parameter of `Catalog.VillaList.FinishFetch`. A fetch is split into `StartFetch` and `FinishFetch`, so two requests in flight and their completion order are not modelled.
- `Math.random` becomes the parameter `idNumber` of `Booking.BookingForm.Submit`. The 1.5-second simulated delay, `new Date().toISOString()` (the booking's `bookingDate` field), the 500 ms `alert` after a confirmed booking, and `console` logging are left out.
- React scheduling is not modelled. Each handler is a method that runs to completion. An effect is a method the caller runs after the handler (`ResumeBooking`, the fetch after a `Search` that reports `refetch`). Re-render timing and stale closures are outside the model.
- Session.SignInForBooking: assumes the state updates made by `onSignIn` and `onClose` land in one render, as React 18's automatic batching does. The React version is not fixed in the source files. Under unbatched (legacy) rendering, the resume effect can run between `setIsLoggedIn(true)` and `setPendingBooking(false)` and open the booking form; the model does not capture that interleaving.
- Google sign-in (src/components/SignIn.jsx:70-94) is not modelled: it depends on a browser pop-up flow.
- The second sign-in dialog rendered inside the search page (src/components/VillaList.jsx:519-523) and its handler (src/components/VillaList.jsx:77-80) are left out: nothing ever sets that dialog's open flag, so it never shows.
- The details dialog (src/components/VillaDetails.jsx) is not part of this model. Only its opening and closing by the search page are. The axios wrapper (src/api.js) is not part of this model either. From src/config.js, only the API base URL is used.
- DOM effects are not modelled: the `dark` class on the document root, scrolling, and markup styling. Number formatting with `toLocaleString` is left out, so totals and prices are kept as numbers.
- Auth.SignIn.Submit: the request body (the e-mail and password as JSON) and the e-mail and password input handlers are not modelled. A token is modelled as a string, so a truthy token of another JSON type is not representable.
- Listing.Villa: a price is an integer or absent. Fractional prices, NaN and non-numeric values are not modelled. A JSON `"price": null` is modelled as an absent price. That holds for the card, where both are falsy. It does not hold for the total: `null * months` is 0, not NaN (src/components/BookingForm.jsx:97), so `Booking.Total`'s NaN case covers only a missing `price` field.
- Booking.TotalOfChoice, Booking.MarkupTotalExact and Booking.Total: totals are exact integers. JavaScript numbers are doubles, so they agree with the program only while price times months stays below 2^53.
- Booking.BookingForm.Next: moves to step 2 for any listing. The program cannot show step 2 for a listing whose price is absent or `null`: its summary calls `villa.price.toLocaleString()` (src/components/BookingForm.jsx:500), which throws during rendering. Such a listing can still be booked from the search page, whose card shows "Price on request". In the program, that throw stops step 2, and nothing is submitted. The model does not capture the render-time throw. Its step 2 and `Submit` for an unpriced listing, where `Booking.NoPriceNoTotal` and `Booking.Total` give a NaN total, cover a case the program cannot reach.
- Listing.DescriptionText: counts characters (code points), while JavaScript's `substring` counts UTF-16 code units. The two differ only on characters outside the Basic Multilingual Plane.
- JsRuntime.ParseInt: models decimal text only. The `0x` hexadecimal prefix and `Infinity` are not modelled; none occurs in the values the form parses.
- Catalog.VillaList.FinishFetch: the reply's `data` is modelled as an array of possibly-null entries. A non-array reply, which the grid's `Array.isArray` guard hides, is not modelled. The summary line's text ("N luxury villas in …") is not modelled beyond whether it shows.
- Catalog.VillaList.MountBookingForm: creates the form for the currently selected listing. The page keeps one form instance and passes it a new listing as a prop; that instance's state carrying over to a different listing is not modelled.
- Booking.BookingForm.Change: requires the checkbox event to be the terms field and every other event to carry text, as the form's inputs guarantee. A checkbox value written into a text field cannot be represented.
- Booking.BookingForm.Submit: the intermediate state with `loading` true while the simulated request is pending is not observable in the model; only the final state is stated.
- The `isOpen` and `villa` props of the booking form, which make it render nothing while closed, are not modelled. The form's state persists across closing because its hooks run before that early return, and the model keeps it.
