# Dental appointment booking: a Dafny model of the page logic

The application is a React front end over a hosted identity provider and a
hosted document store. Its own decision logic lives inside five components:
the booking form (`NewAppointment`), the dashboard, the registration and
sign-in forms, and the application shell with its `useAuth` hook and route
table. This project restates that logic as pure functions over immutable
records and proves what each step does and what it leaves alone.

Modules, following the source's structure:

- `Wrappers`: `Option`, standing for `null` and absent fields.
- `JsStrings`: JavaScript truthiness, `a || b` on strings, `trim()` with the
  ECMAScript white-space set, and `length` counted in UTF-16 code units.
- `Records`: treatments, dentists, appointment documents, the outcome of a
  store read (`Fetch`), `Array.prototype.find`, and the "name for this id, or
  the id" lookup.
- `Calendar`: days as integers counted from 1970-01-01 in local time.
  `getDay()` becomes `(d + 4) % 7`, with Sunday = 0.
- `TimeSlots`: the 18 bookable times. They are related to an independent
  description: every half hour from 08:00 to 17:30 except 13:00 and 13:30.
- `Booking` (`NewAppointment.js`): the form state, the edits, the date picker
  rule, the dentist options, the catalog load, the submit button and the submit.
- `Dashboard` (`Dashboard.js`): the load, the seeding prompt, the counters,
  the name lookups, the cancel button, the local cancel update and the cancel
  handler.
- `Registration` (`Register.js`) and `Login` (`Login.js`): field edits, the
  submit steps, and the provider-error messages.
- `Session` and `Routing` (`App.js`): the auth state and its transitions,
  and the route table with the shell around it.
- `CatalogAgreement`: relates the dashboard's "catalog missing" judgement to
  the booking form's error banner for the same reads.

Every remote call is represented by its outcome, passed in as a parameter:
success with data, a `{success: false, error}` result, or a throw. The same
holds for the user's answer to the confirmation dialog and for the joined
results of `Promise.all`. The clock enters as the day number `today`.

Behaviour of the code worth noting:

- `"12:30"` is a bookable slot. 13:00 and 13:30 are the only half hours
  between 08:00 and 17:30 missing from the list.
- The submit handler checks only that the four fields are non-empty. It does
  not re-check the date window, the weekday or the time list. Those rules come
  only from the picker and the selector (`Booking.SubmitTrustsTheInputs`).
- A failed or empty catalog read on the dashboard shows the seeding prompt
  instead of the appointment list, even when the appointments were read
  (`Dashboard.CatalogFailureHidesAppointments`).
- Appointments are listed in the order the store query returns them. The
  pages never sort them.

The sign-in and sign-up wrappers (`src/firebase/auth.js:43`, `:70`) pass on
the error's `message`, not its `code`. The pages then compare that string
against codes such as `auth/wrong-password`. Both `ErrorMessage` functions are
therefore modelled over an arbitrary string, exactly as written. Whether a
code ever reaches them depends on the provider's message text, which is not
part of this model.

## Model

| member | source | states |
|---|---|---|
| JsStrings.Trim | src/pages/Register.js:49 | the result is an infix of the input with only white space removed before and after it, and it neither starts nor ends with white space |
| JsStrings.TrimIdempotent | src/pages/Register.js:49 | trimming twice gives the same string as trimming once |
| JsStrings.Utf16Length | src/pages/Register.js:43 | `length` lies between the character count and twice it, and equals the character count for text inside the Basic Multilingual Plane |
| JsStrings.Utf16LengthConcat | src/pages/Register.js:43 | the `length` of a concatenation is the sum of the lengths, so with `Utf16LengthOfChar` it is fixed for every string |
| Records.FindIndex | src/pages/Dashboard.js:147 | `find` returns the first position whose element satisfies the test, or nothing when no element does |
| Records.NameById | src/pages/Dashboard.js:146-154 | the name of the first record with the id when that name is non-empty; otherwise the id itself, also when no record has it |
| Calendar.Weekday | src/pages/NewAppointment.js:239 | `getDay()` of a day lies in 0..6, day 0 (1970-01-01) is a Thursday, and a day is a Sunday iff it is a multiple of 7 days after 1970-01-04 |
| Calendar.NonSundaysInWeeks | src/pages/NewAppointment.js:239 | every run of k whole weeks holds exactly 6k days that are not Sundays |
| TimeSlots.SlotsAreOpeningHours | src/pages/NewAppointment.js:23-27 | a time of day is offered iff it is a half hour between 08:00 and 17:30 outside 13:00-13:59 |
| TimeSlots.SlotsParse | src/pages/NewAppointment.js:23-27 | every offered string is a well-formed "HH:MM" naming an opening minute |
| TimeSlots.SlotsDistinct | src/pages/NewAppointment.js:23-27 | no time is offered twice |
| TimeSlots.SlotFacts | src/pages/NewAppointment.js:23-27 | 18 slots; "08:00", "12:30" and "17:30" are offered; "13:00", "13:30" and "08:15" are not |
| Booking.DateSelectable | src/pages/NewAppointment.js:237-239 | a day is offered iff it lies in [today, today+90] and is not a Sunday |
| Booking.PickerOffers78Days | src/pages/NewAppointment.js:237-239 | the picker offers no day before today or after today+90, and exactly 78 days in that window whatever today is (Sundays excluded) |
| Booking.AvailableDentists | src/pages/NewAppointment.js:213 | a dentist is offered iff it is in the list and marked available |
| Booking.AvailableDentistsKeepsOrder | src/pages/NewAppointment.js:213 | the filter distributes over concatenation, so the options keep the list's order |
| Booking.AvailableDentistsIdempotent | src/pages/NewAppointment.js:213 | filtering the options again changes nothing |
| Booking.AllAvailableAllOffered | src/pages/NewAppointment.js:213 | when every dentist is available, the options are the whole list unchanged |
| Booking.LoadFormData | src/pages/NewAppointment.js:34-67 | each catalog list is replaced only by a successful read; the error banner is set iff both reads fail or the join throws, and is empty otherwise; loading ends |
| Booking.HandleChange | src/pages/NewAppointment.js:69-76 | the edited field takes the new value, the other three fields and the catalog are unchanged, and the error is cleared |
| Booking.Complete | src/pages/NewAppointment.js:84 | the form passes the required-field check iff treatment, dentist and time are non-empty and a date is chosen |
| Booking.SubmitDisabled | src/pages/NewAppointment.js:311 | the button is disabled while a submit runs and whenever a field is empty; an enabled button implies a complete form |
| Booking.HandleSubmit | src/pages/NewAppointment.js:78-118 | an incomplete form gets "completa todos los campos" and no create call; a complete one sends a "reservada" record owned by `user.uid` with the form's values copied; the success alert and the navigation happen iff the create succeeds; failures set the prefixed or the generic message |
| Booking.EnabledSubmitSendsRequest | src/pages/NewAppointment.js:311 | when the submit button is enabled, a submit always makes the create call |
| Booking.SubmitTrustsTheInputs | src/pages/NewAppointment.js:83-101 | a complete form dated on a Sunday with an unlisted time is still sent |
| Booking.FillingTheFormEnablesSubmit | src/pages/NewAppointment.js:69-101 | choosing a treatment, a dentist, a date and a listed time enables submit, and the record sent carries exactly those choices |
| Dashboard.NeedsInitialization | src/pages/Dashboard.js:43-45 | the seeding prompt is needed iff a catalog read failed or came back empty; not needed iff both reads succeeded with non-empty lists |
| Dashboard.LoadDashboardData | src/pages/Dashboard.js:16-55 | a failed read keeps the previously shown list; the seeding flag is raised iff a catalog read failed or came back empty; a thrown join sets the error and leaves the flag; loading ends |
| Dashboard.Screen | src/pages/Dashboard.js:156-267 | spinner iff loading; seeding prompt iff loaded and flagged; otherwise the appointment list with the error banner |
| Dashboard.CatalogFailureHidesAppointments | src/pages/Dashboard.js:42-47 | a failed or empty catalog read shows the seeding prompt even when appointments were read |
| Dashboard.GoodCatalogShowsAppointments | src/pages/Dashboard.js:28-47 | with both catalog lists non-empty, the appointments read are listed as read with no banner |
| Dashboard.CountStatus | src/pages/Dashboard.js:347 | each status counter is at most the list length |
| Dashboard.CountersBounded | src/pages/Dashboard.js:347-379 | the reserved, attended and cancelled counters together never exceed the list length |
| Dashboard.DentistName | src/pages/Dashboard.js:146-149 | the first matching dentist's non-empty name, otherwise the dentist id |
| Dashboard.TreatmentName | src/pages/Dashboard.js:151-154 | the first matching treatment's non-empty name, otherwise the treatment id |
| Dashboard.CancelOffered | src/pages/Dashboard.js:299 | the cancel action is offered for an appointment iff its status is "reservada", never for an attended or cancelled one |
| Dashboard.CancellableIds | src/pages/Dashboard.js:299-302 | an id carries a cancel button iff some appointment with that id has status "reservada" |
| Dashboard.CancelLocally | src/pages/Dashboard.js:91-97 | same length and order; entries with the id become "cancelada"; all other entries are unchanged |
| Dashboard.CancelIdempotent | src/pages/Dashboard.js:91-97 | applying the local cancel twice equals applying it once |
| Dashboard.CancelMovesReservedCount | src/pages/Dashboard.js:91-97 | the reserved counter drops by exactly the number of reserved entries with the cancelled id |
| Dashboard.CancelRemovesButton | src/pages/Dashboard.js:299 | after the local cancel no button refers to the id, and every other id keeps its button or its absence |
| Dashboard.HandleCancel | src/pages/Dashboard.js:82-106 | without confirmation nothing happens; a successful cancel applies the local update; a failed or thrown one leaves the list unchanged and reports it |
| Registration.HandleChange | src/pages/Register.js:20-28 | only the named field changes, and both the error and the success messages are cleared |
| Registration.Validate | src/pages/Register.js:36-53 | a mismatch wins over everything; then fewer than 6 code units; then a trimmed name shorter than 2; acceptance iff all three pass, carrying the trimmed name |
| Registration.AcceptedNameIsTrimmed | src/pages/Register.js:49-56 | the accepted name is already trimmed and starts with a non-space |
| Registration.HandleSubmit | src/pages/Register.js:30-73 | a rejected form makes no sign-up call and shows the check's message; an accepted one calls sign-up with the trimmed name; the redirect is scheduled iff sign-up succeeds; failures show the mapped or the generic message |
| Registration.ErrorMessage | src/pages/Register.js:76-91 | each of the five listed codes gets its message from the table; every other string gets the default message |
| Registration.ErrorMessagesDistinguishCodes | src/pages/Register.js:76-91 | different listed codes give different messages, none of them the default |
| Login.HandleChange | src/pages/Login.js:16-23 | only the named field changes, and the error is cleared |
| Login.BeginSubmit | src/pages/Login.js:25-28 | while the call is pending the spinner is on and the banner is empty |
| Login.FinishSubmit | src/pages/Login.js:30-45 | the spinner ends in every outcome; success leaves the banner empty; a failure shows the mapped message; a throw the generic one |
| Login.HandleSubmit | src/pages/Login.js:25-46 | after a submit the banner is empty iff the sign-in succeeded, and the spinner is off |
| Login.ErrorMessage | src/pages/Login.js:49-66 | each of the six listed codes gets its message from the table; every other string gets the default credentials message |
| Login.ErrorMessagesDistinguishCodes | src/pages/Login.js:49-66 | different listed codes give different messages, none of them the default |
| Login.SharedCodesAgreeWithRegistration | src/pages/Login.js:55-62 | the only codes both forms list are the invalid-email and network codes, and both forms word them identically |
| Session.ResolveName | src/App.js:22-37 | stored name, else display name, else "Usuario"; when the profile read throws the chain starts at the display name; the result is never empty |
| Session.OnAuthStateChange | src/App.js:19-45 | a sign-out clears the user and the flag; a sign-in sets both with the provider's uid and email and the resolved name; loading ends either way |
| Session.Logout | src/App.js:52-62 | the session is cleared only when sign-out reports success; otherwise the state is unchanged |
| Session.Step | src/App.js:19-62 | every transition keeps "authenticated iff a user is held" |
| Session.RunKeepsConsistent | src/App.js:13-62 | every sequence of auth events and logouts keeps that invariant |
| Session.ReachableStatesConsistent | src/App.js:13-62 | every state reachable from the hook's initial state (signed out, loading) is consistent |
| Session.LoadingEndsAtFirstAuthEvent | src/App.js:15-44 | loading is over after a run iff it already was or the run contains an auth event |
| Routing.Route | src/App.js:87-130 | login and register show iff signed out, else redirect to the dashboard; the dashboard and new-appointment pages show iff signed in, else redirect to login; "/" always redirects home; a page shows only at its own path |
| Routing.RedirectsSettle | src/App.js:87-130 | every redirect lands on a page that renders: there are no redirect chains or loops |
| Routing.View | src/App.js:70-86 | spinner iff loading; the navigation bar is shown iff signed in |
| Routing.ProtectedPagesGetAUser | src/App.js:107-122 | in a consistent state, a protected page always receives a user object |
| CatalogAgreement.SeedingPromptCoversFormError | src/pages/Dashboard.js:42-47 | reads the dashboard accepts leave the booking form without a banner and with non-empty selectors; reads that make the form show its banner always raise the seeding prompt; one failed read raises the prompt without a form banner |

## Left out

- Session.OnAuthStateChange: each auth callback is treated as running to completion before the next event arrives. In the code the signed-in branch awaits the profile read (`src/App.js:23`) and the provider does not wait for it, so a sign-out arriving during that read is applied first and then overwritten by the late sign-in. `loading` likewise stays true until the read settles. `Session.Run` therefore does not model interleaved callbacks.
- Booking.HandleSubmit: only the state after the create call settles is modelled. The intermediate `isLoading = true` while the call is pending is not.
- Registration.HandleSubmit: only the state after the sign-up call settles is modelled, as for the booking form.
- The store and provider wrappers (`src/firebase/firestore.js`, `src/firebase/auth.js`) and the SDKs behind them. Their results enter only as outcome parameters.
- The `userId` filter and the date-descending order of the appointment query. Both happen inside the store query.
- Seeding the catalog: `src/scripts/loadAllData.js`, `src/scripts/initializeData.js` and the dashboard's `initializeData` handler. This is one-shot I/O that is not idempotent.
- `src/components/Navbar.js`: presentation only.
- JSX rendering and styling, including status icons and colours, date formatting with `toLocaleDateString`, the booking summary panel, and the show-password toggles.
- Browser calls. `window.confirm` becomes the `confirmed` parameter, and `alert` becomes the `alert` field of `Booking.SubmitStep` and `Dashboard.CancelStep`. `navigate` and `setTimeout` become booleans. The dashboard's seeding alerts go with the seeding handler.
- Logging: the `console.log` and `console.error` calls in the pages and the shell have no effect on state.
- `Promise.all` concurrency. The joined results enter as one value.
- React state batching and closures. Each handler is applied to the state it is given.
- Time. Firestore `Timestamp` values and the `createdAt`/`updatedAt` fields are dropped. A `Date` is reduced to its local calendar day.
- The picker's `maxDate`: `now + 90 * 24h` in milliseconds is modelled as today + 90 days. Near midnight, a daylight-saving change inside the window can move that bound by one day.
- Route matching is exact string equality. The router's trailing-slash and case normalisation are not modelled. Any other path is `NoMatch`.
- The provider's `email` is modelled as a string and never null, since email/password accounts always have one. A treatment's `price` is modelled as an integer.
- The dashboard's `user?.uid` guard before loading, and the auth subscription's unsubscribe on unmount.
