# My Reporter: form logic of the booking, incident and credential screens

This project is a Dafny model of the decision logic inside four React Native
screens of the My Reporter mobile app. It covers:

- **Book Parking.** A constant catalog of four Nairobi facilities and the
  cost rule: hourly rate times duration, with a default rate of 60 when no
  spot is selected. It also covers the handlers for spot selection, the
  duration buttons, booking, payment, the payment timer's callback and the
  reset after the confirmation's OK button.
- **Report Incident.** The digit-only filter for the vehicle and injury
  counts, the evidence list (append on capture, remove by index), the ordered
  submit validation and the cancel decision.
- **Sign Up and Login.** The presence checks and the password-match check.
  Each handler ends in an alert, a navigation reset to the single route
  `Report`, or both.

Every handler is a pure function. It takes the screen's state record and
returns the new record and/or what the user sees: an alert, a dialog with
buttons, or a navigation request. React applies state updates at the next
render, and a handler reads the values of the render it was created in. Two
consequences of this are kept as the code has them:

- `handleParkingSpotSelect` recomputes the cost from the spot that was
  selected *before* the press.
- The cost effect reruns only when the duration actually changes. So the
  minus button at one hour does nothing, and a reset after a one-hour booking
  leaves the previous cost on display.

`BookParkingSession` adds the buttons' `disabled` guards and proves what
holds of every form the user can reach from the mounted screen:

- The duration is at least 1.
- The listed spots are the unchanged catalog.
- The displayed cost is the duration times the default rate or a catalog rate.
- Paying always produces a confirmation record for the selected spot.

The book button is disabled when no spot is selected, and the pay button
when the method or phone is missing. So those handlers' rejections cannot be
reached through the screen; the handler functions model them anyway.

`ReportIncident.Run` does the same for the incident form. The accident type
always holds a dropdown entry, so cancelling always asks for confirmation.

Modules: `Ui` (shared outcome types), `InputText` (digit filter and
ECMAScript `trim`), `BookParking`, `BookParkingSession`, `ReportIncident`,
`Signup`, `Login`.

## Model

| member | source | states |
|---|---|---|
| `Signup.HandleSignup` | screens/SignupScreen.js:20-38 | The form comes back unchanged and there is always a plain alert. It navigates iff all four fields are non-empty and the passwords are equal. In that case it resets to the single route 'Report' with 'Account created successfully!'. Any empty field gives 'Please fill in all fields'; filled fields with different passwords give 'Passwords do not match' |
| `Signup.SignupSucceedsIff` | screens/SignupScreen.js:22-30 | The reset to 'Report' happens exactly when every field is filled and password equals its confirmation |
| `Signup.EmptyFieldReportedBeforeMismatch` | screens/SignupScreen.js:35-37 | An empty field is reported as 'Please fill in all fields' even when the passwords also differ |
| `Signup.ComparisonIsExact` | screens/SignupScreen.js:23 | For every form with all fields filled and a password that is not exactly its confirmation, the form is refused with 'Passwords do not match' and no navigation |
| `Signup.TrailingSpaceMismatches` | screens/SignupScreen.js:23 | For every filled name, e-mail and password, a confirmation with one extra trailing space is refused: nothing is trimmed |
| `Signup.LetterCaseMatters` | screens/SignupScreen.js:23 | For example, 'secret' and 'Secret' do not match: letter case is not folded |
| `Login.HandleLogin` | screens/LoginScreen.js:18-32 | The form comes back unchanged. It navigates iff both fields are non-empty: a silent reset to the single route 'Report'. Otherwise it alerts 'Please fill in all fields' and stays |
| `Login.AnyNonEmptyEmailAccepted` | screens/LoginScreen.js:20-27 | Any non-empty e-mail and password log in; there is no format check |
| `Login.MalformedEmailLogsIn` | screens/LoginScreen.js:20 | The e-mail "x", which is not an address, logs in |
| `InputText.DigitsOnly` | screens/ReportIncidentScreen.js:176 | The result is no longer than the input and consists of digits only. An all-digit input comes back unchanged |
| `InputText.DigitsOnlyIsSubsequence` | screens/ReportIncidentScreen.js:176 | The result is obtained from the input by deletions only, so its characters keep their original order |
| `InputText.DigitsOnlyKeepsEveryDigit` | screens/ReportIncidentScreen.js:176 | Each digit occurs in the result as often as in the input; no other character occurs at all |
| `InputText.DigitsOnlyAppend` | screens/ReportIncidentScreen.js:176 | Filtering a concatenation gives the concatenation of the filtered parts |
| `InputText.DigitsOnlyIdempotent` | screens/ReportIncidentScreen.js:176 | Filtering twice is filtering once |
| `InputText.TrimStart` | screens/ReportIncidentScreen.js:196 | The result is a suffix of the input, only whitespace was dropped, and it does not start with whitespace |
| `InputText.TrimEnd` | screens/ReportIncidentScreen.js:196 | The result is a prefix of the input, only whitespace was dropped, and it does not end with whitespace |
| `InputText.Trim` | screens/ReportIncidentScreen.js:196 | The result is empty exactly when the input is all whitespace. It is a contiguous piece of the input with only whitespace around it, and its ends are not whitespace |
| `InputText.PieceOfPieces` | screens/ReportIncidentScreen.js:196 | Stripping trailing whitespace from what is left after stripping leading whitespace leaves a piece of the input with only whitespace around it, not starting with whitespace, and empty exactly for an all-whitespace input |
| `ReportIncident.UpdateVehicleCount` | screens/ReportIncidentScreen.js:173-178 | The named entry becomes the digits of the typed text. Every other vehicle entry and every other field are untouched, and the key set gains at most that key |
| `ReportIncident.UpdateInjuriesCount` | screens/ReportIncidentScreen.js:181-186 | The same digit filter on the named injury entry; all other entries and fields are untouched |
| `ReportIncident.VehicleUpdateIdempotent` | screens/ReportIncidentScreen.js:173-178 | Entering the same text into a count field twice has the effect of entering it once |
| `ReportIncident.GalleryKind` | screens/ReportIncidentScreen.js:160 | A gallery asset is typed video exactly when its type is 'video'; otherwise it is a photo |
| `ReportIncident.Capture` | screens/ReportIncidentScreen.js:115-166 | A picked asset is appended at the end of the evidence list. A canceled pick changes nothing. A failed request changes nothing and shows an 'Error' alert with the handler's message |
| `ReportIncident.TakePhoto` | screens/ReportIncidentScreen.js:115-131 | A picked image is appended as a photo. Only the evidence list can change, nothing navigates, and there is an alert iff the request failed: 'Error' / 'Failed to take photo' |
| `ReportIncident.TakeVideo` | screens/ReportIncidentScreen.js:133-148 | A picked recording is appended as a video. Only the evidence list can change, nothing navigates, and there is an alert iff the request failed: 'Error' / 'Failed to record video' |
| `ReportIncident.PickFromGallery` | screens/ReportIncidentScreen.js:150-166 | The old list is kept as a prefix and one item is added after it, with the picked uri. That item is a video exactly when the asset type is 'video'. Nothing navigates, and a failed request alerts 'Error' / 'Failed to pick media from gallery' |
| `ReportIncident.FilterOutIndex` | screens/ReportIncidentScreen.js:169 | Filtering out position `index` removes exactly that element when it exists. Otherwise the list is returned unchanged |
| `ReportIncident.RemoveEvidence` | screens/ReportIncidentScreen.js:168-170 | An in-range index shortens the list by one: earlier items stay in place and later items move down one. Any other index, negative ones included, leaves the form unchanged |
| `ReportIncident.RemoveUndoesAppend` | screens/ReportIncidentScreen.js:168-170 | Removing the item any capture just appended (photo, video or gallery pick) restores the form |
| `ReportIncident.ToggleDropdown` | screens/ReportIncidentScreen.js:284 | The dropdown flag flips and nothing else changes |
| `ReportIncident.ChooseAccidentType` | screens/ReportIncidentScreen.js:306-309 | The type becomes the chosen list entry and the dropdown closes |
| `ReportIncident.HandleSubmit` | screens/ReportIncidentScreen.js:189-227 | Checks run in order: type non-empty, description not blank after trimming, location present. The first failure yields its 'Validation Error' alert and leaves the form unchanged. Passing all three shows the submitted alert, whose OK navigates to 'Report', and leaves the submitting flag lowered |
| `ReportIncident.RejectionChangesNothing` | screens/ReportIncidentScreen.js:191-204 | Every validation rejection leaves the whole form unchanged, the submitting flag included |
| `ReportIncident.WhitespaceDescriptionRejected` | screens/ReportIncidentScreen.js:196-199 | For every form with a type, a description made only of whitespace characters trims to nothing and is rejected with the description alert, the form unchanged, exactly as an empty one |
| `ReportIncident.PlaceholderTypePasses` | screens/ReportIncidentScreen.js:191-194 | The placeholder 'Choose the Accident Type' passes the type check. A fresh form with a description and a location is submitted |
| `ReportIncident.HandleCancel` | screens/ReportIncidentScreen.js:230-247 | It navigates straight to 'Report', silently, iff description, type and evidence are all empty. Any other form gets exactly the confirmation dialog and no navigation; the dialog's 'Cancel Report' navigates to 'Report' |
| `ReportIncident.Step` | screens/ReportIncidentScreen.js:496-499 | The submit button does nothing while a submission runs. Only choosing a dropdown entry changes the type, and then to that entry. No event raises the submitting flag from a lowered state |
| `ReportIncident.StepKeepsReachable` | screens/ReportIncidentScreen.js:302-309 | Every user or device event keeps the type among the dropdown entries and the submitting flag lowered |
| `ReportIncident.RunKeepsReachable` | screens/ReportIncidentScreen.js:24-60 | Every sequence of events keeps the type among the dropdown entries and the submitting flag lowered |
| `ReportIncident.CancelAlwaysAsks` | screens/ReportIncidentScreen.js:231-243 | From the mounted form, after any events, cancel always asks for confirmation and submit never fails the type check |
| `BookParking.CatalogWellFormed` | screens/BookParkingScreen.js:46-87 | Every catalog entry has a positive rate and at most as many free units as its capacity, and the ids are distinct |
| `BookParking.TotalCost` | screens/BookParkingScreen.js:94-100 | At least one hour costs at least the applicable rate. With a positive rate the cost is zero exactly for zero hours and positive for one hour or more |
| `BookParking.TotalCostIsRateTimesHours` | screens/BookParkingScreen.js:94-100 | The cost is the selected spot's rate times the duration, or 60 times the duration with no selection. One more hour adds exactly one rate |
| `BookParking.TotalCostAdditive` | screens/BookParkingScreen.js:94-100 | The cost of d1 + d2 hours is the cost of d1 hours plus the cost of d2 hours |
| `BookParking.DurationEffect` | screens/BookParkingScreen.js:89-92 | The effect reloads the catalog into the list and sets the cost from the current selection and duration; nothing else changes |
| `BookParking.Initial` | screens/BookParkingScreen.js:31-43 | The mounted form has duration 1, cost 60, no selection, empty location, the catalog listed, the modal closed, no processing, city 'Nairobi' and the given date. Method and phone are empty, and the map and date picker are closed |
| `BookParking.SelectSpot` | screens/BookParkingScreen.js:102-107 | The spot becomes the selection, its name the location text, and the map closes. The cost is the PREVIOUS selection's rate times the duration |
| `BookParking.SetDuration` | screens/BookParkingScreen.js:273-280 | The duration takes the new value. Only a changed value reruns the cost effect; an equal value leaves the form unchanged |
| `BookParking.DecrementDuration` | screens/BookParkingScreen.js:273 | The result is max(1, d - 1), so the duration never drops below 1. At 1 the form is unchanged; above 1 the cost follows the current selection and the catalog is reloaded. Only duration, cost and the listed spots can change |
| `BookParking.IncrementDuration` | screens/BookParkingScreen.js:280 | The duration grows by one, the cost becomes the current selection's rate times the new duration and the catalog is reloaded. Nothing else changes |
| `BookParking.HandleBook` | screens/BookParkingScreen.js:109-119 | No spot gives 'Please select a parking spot'; the duration error comes only after that check. A rejection leaves the form unchanged, and the modal opens iff both checks pass |
| `BookParking.CancelPayment` | screens/BookParkingScreen.js:419-421 | Cancel closes the payment modal and changes nothing else |
| `BookParking.ProcessPayment` | screens/BookParkingScreen.js:121-131 | A missing method is reported first and a missing phone second, both with the state unchanged. Otherwise processing starts and the timer captures spot, duration, cost, date and method |
| `BookParking.CompletePayment` | screens/BookParkingScreen.js:134-158 | Processing stops and the modal closes. The record carries the captured spot's name and address, duration, cost, date, method and the given id. Without a spot no confirmation appears |
| `BookParking.ResetAfterConfirmation` | screens/BookParkingScreen.js:162-169 | Spot, location, method and phone are cleared, the duration becomes 1, and city and date stay. The cost becomes 60 and the catalog is reloaded unless the duration already was 1; then the old cost and list remain. Nothing else changes: the modal, map and date picker flags are kept as they were |
| `BookParking.MethodCode` | screens/BookParkingScreen.js:386-404 | Each payment-method button stores a non-empty code |
| `BookParking.MethodCodesDistinct` | screens/BookParkingScreen.js:386-404 | The M-Pesa and Airtel Money buttons store different codes |
| `BookParkingSession.PayThrough` | screens/BookParkingScreen.js:121-169 | Pressing pay: a missing method, then a missing phone, is reported with the form unchanged. Otherwise, with a selection, the confirmation record carries the spot's name and address, duration, cost, date and method, and the form is cleared: spot, location, method and phone emptied, duration 1, everything else kept. The cost becomes 60 and the catalog is reloaded, except after a one-hour booking, where the old cost and list stay. Without a selection the callback fails. Either way processing ends and the modal closes |
| `BookParkingSession.Step` | screens/BookParkingScreen.js:300-431 | A press of a disabled book or pay button does nothing. An enabled pay press with a selection confirms a booking. No press lowers the duration below 1, turns processing on, or lists anything but the current list or the catalog |
| `BookParkingSession.InitialReachable` | screens/BookParkingScreen.js:31-43 | The mounted form satisfies the reachable-state invariant |
| `BookParkingSession.StepKeepsReachable` | screens/BookParkingScreen.js:89-174 | Every press keeps the invariant. The duration stays ≥ 1, the catalog is listed unchanged, and the selection is none or a catalog entry. Processing is off, an open modal has a selection, the method is '', 'mpesa' or 'airtel', and the cost is the duration times the default or a catalog rate |
| `BookParkingSession.RunKeepsReachable` | screens/BookParkingScreen.js:89-174 | Every sequence of presses keeps the reachable-state invariant |
| `BookParkingSession.SessionInvariant` | screens/BookParkingScreen.js:33 | From the mounted form, after any presses: the duration is at least 1, the listed spots are the unchanged and well-formed catalog, and the cost is the duration times a known rate |
| `BookParkingSession.BookNeverRejectsDuration` | screens/BookParkingScreen.js:114-118 | On a reachable form the duration error never appears, and an enabled book button opens the modal |
| `BookParkingSession.PayFromReachableConfirms` | screens/BookParkingScreen.js:121-169 | Paying from a reachable form with the modal open confirms a record for the selected spot carrying its duration, displayed cost and method. It then leaves the form cleared with city and date kept |
| `BookParkingSession.SelectionCostLags` | screens/BookParkingScreen.js:102-107 | On a fresh form, picking the 80-per-hour spot shows cost 60, and paying for one hour confirms 60 |
| `BookParkingSession.DurationChangeResynchronises` | screens/BookParkingScreen.js:89-92 | After plus, or after minus above one hour, the cost again equals the selection's rate times the duration |
| `BookParkingSession.OneHourResetKeepsStaleCost` | screens/BookParkingScreen.js:162-169 | After a one-hour booking at 80 per hour, the cleared form still shows cost 80 |

## Left out

- Capacity holds, inventory decrements, idempotent payment, declined or timed-out payments, and concurrent sessions are not modelled: the screens have none of them. Booking never reads or changes `availableSpots`.
- The simulated delays (`setTimeout` in `processPayment`, the awaited promise in `handleSubmit`) are not modelled as time. Each becomes one step. The session step for paying runs the handler, the timer callback and the confirmation's OK press in sequence, because the native alert is modal.
- The `catch` branch of `handleSubmit` is left out: the simulated request never rejects.
- The random booking id is a parameter of `CompletePayment`. The date is an opaque integer, and its locale formatting is not modelled.
- Device calls are not modelled: location, camera and gallery permissions and capture, and the emergency call through `Linking`. Their results enter as parameters (`PickerResult`, `LocationFix`).
- Coordinates are floating point in the app. The model stores them as fixed-point integers, and `toFixed` formatting is left out.
- The text of the 'Booking Confirmed!' alert is left out. The model keeps the record it is built from.
- MapView, Picker, DateTimePicker, the modals' rendering and the style sheets are presentation and are left out. The city picker only sets `city`; it does not filter the catalog.
- The login and sign-up screens' links (`navigate('Login')`, `navigate('Signup')`, `goBack()`) and the smart-router screen have no logic worth verifying and are left out.
- BookParking.TotalCost: computed on unbounded integers. JavaScript numbers are exact only up to 2^53, which the duration buttons would need more than 10^13 presses to reach.
