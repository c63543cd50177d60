# Pillre core, modelled in Dafny

Pillre is a mobile app for medication reminders and doctor appointments. This
project models the parts of it that have state-update rules:

- the medication and appointment record stores, in their two variants: the
  component hooks (new lists built with spread, `map`, `filter`, `find`) and
  the Redux slices (in-place `push`, `findIndex` plus slot assignment, and
  reassignment);
- the appointment booking form, with its ordered required-field checks and
  the record it dispatches;
- the mock authentication context (sign-in, sign-up, sign-out, profile
  merge, startup load), which keeps the signed-in user equal to the stored one;
- the registration form: the e-mail regular expression, the password-match
  check and the registration gate;
- the four-slot verification-code entry and where its focus moves;
- the week calendar strip: week construction, week stepping, selection and
  highlighting;
- the onboarding carousel: the next/skip effects, the dots and the button label;
- the add-medicine screen's date/time label formatter and its picker state;
- the light/dark theme: load, reload when the system scheme changes, and toggle.

One module per source file, plus three shared ones. `Wrappers` holds Option
and Result. `Records` holds the list operations both stores use. A record is
`Keyed(id, data)`, which is exactly what `{ ...fields, id }` builds.
`AppointmentData` holds the appointment shape, which the hook and the slice
each declare with the same fields. Pure source code is written as functions
and lemmas. State the source updates in place becomes a class whose methods
state the new state.

Abstractions used throughout:
- Ids made by `Date.now().toString()` or `uuidv4()` are parameters. Nothing
  assumes they are fresh. Lemmas that need fresh ids say so in `requires`
  (`!HasId(...)`, `UniqueIds(...)`).
- Key-value storage (secure storage, local storage, async storage) is a `map`
  field. The profile store maps its key to a user record; the theme store
  maps its key to a text.
- Simulated network delays are collapsed, so each handler is one atomic step.
  A thrown error is returned as `Option<string>`.
- Effects that go to the framework are handled in two ways. The onboarding
  carousel is the only module with an effect log: its scroll requests,
  storage writes and route changes are recorded there in order. Everywhere
  else a handler's effect is a result: the booking form returns the record
  it dispatches and whether it navigates back; the registration form
  returns whether it navigates to Login; the calendar returns the date it
  reports to its callback.
- The week calendar counts dates in days, and day 0 is a Sunday. The booking
  form holds its date and time as the texts the record stores
  (`yyyy-MM-dd`, `HH:mm`). The add screen's date is given by the values of its
  `Date` getters.
- The source's field `type` is named `kind`, because `type` is a Dafny keyword.

Where a reader might expect more than the code does, the model follows the code:
- One might expect `add` to guarantee a fresh id. The code never checks
  this, so two records can share an id. The slice's `addMedication` stores
  the caller's id as it is.
- One might expect `update` to replace "the" matching record. The hook
  replaces every match (`map`). The slice replaces only the first one
  (`findIndex`). `AppointmentsSlice.ReplaceFirstDiffersOnDuplicates` shows
  the two results differ when an id is duplicated.
- One might expect frequencies and medication types to come from fixed
  lists. The stores keep them as free text.

## Model

| member | source | states |
|---|---|---|
| Records.CountId | hooks/useAppointments.ts:69-73 | the number of records with an id is zero exactly when no record has it |
| Records.Append | store/slices/appointmentsSlice.ts:39-43 | add puts exactly one record at the end, carrying the given id and fields; the earlier records are unchanged and keep their order |
| Records.ReplaceAll | hooks/useAppointments.ts:60-66 | map-update keeps the length; every record with the id becomes the new record; every other record stays at its position |
| Records.RemoveAll | store/slices/appointmentsSlice.ts:51-53 | filter-delete shortens the list by the number of records with the id; a record survives exactly when its id differs |
| Records.FindIndex | store/slices/appointmentsSlice.ts:46 | `findIndex` gives -1 exactly when the id is absent, otherwise the first position holding it |
| Records.FindFirst | hooks/useAppointments.ts:76-78 | `find` gives nothing exactly when the id is absent, otherwise the record at the first matching position |
| Records.ReplaceAllAbsent | hooks/useAppointments.ts:61-65 | an update whose id is absent leaves the list unchanged |
| Records.RemoveAllAbsent | hooks/useAppointments.ts:69-73 | a delete whose id is absent leaves the list unchanged |
| Records.RemoveAllRemoves | hooks/useMedications.ts:72-76 | after a delete, no record has the id |
| Records.RemoveAllIdempotent | store/slices/appointmentsSlice.ts:51-53 | deleting twice gives the same list as deleting once |
| Records.RemoveAllKeepsOrder | hooks/useAppointments.ts:69-73 | the records that survive a delete are a subsequence of the old list, in their old order |
| Records.RemoveAllConcat | hooks/useAppointments.ts:71 | filtering a concatenation filters each part separately |
| Records.FindFirstConcat | hooks/useAppointments.ts:77 | `find` on a concatenation searches the first part, then the second |
| Records.FindFirstAfterAppend | hooks/useAppointments.ts:51-78 | lookup after add: a new id finds exactly the added record; an id already present still finds the older record |
| Records.FindFirstAfterReplaceAll | hooks/useAppointments.ts:60-78 | lookup after updating a present id returns the new record |
| Records.FindFirstAfterRemoveAll | hooks/useAppointments.ts:69-78 | lookup after delete finds nothing |
| Records.RemoveAllSingle | hooks/useAppointments.ts:69-73 | when exactly one record has the id, delete shortens the list by one |
| Records.AppendKeepsUnique | hooks/useAppointments.ts:51-57 | adding under an unused id keeps all ids distinct |
| Records.ReplaceAllKeepsUnique | hooks/useAppointments.ts:60-66 | update keeps distinct ids distinct |
| Records.RemoveAllKeepsUnique | hooks/useAppointments.ts:69-73 | delete keeps distinct ids distinct |
| UseAppointments.InitialAppointments | hooks/useAppointments.ts:17-48 | the hook starts with three records, ids "1", "2", "3", statuses upcoming, upcoming, completed, all ids distinct |
| UseAppointments.AddAppointment | hooks/useAppointments.ts:51-57 | one record appended with the given id and fields; the prefix is unchanged |
| UseAppointments.UpdateAppointment | hooks/useAppointments.ts:60-66 | every record with the id is replaced; the length and all other records are kept; an unknown id changes nothing |
| UseAppointments.DeleteAppointment | hooks/useAppointments.ts:69-73 | all records with the id go; the rest keep their order; the length drops by their count; an absent id changes nothing |
| UseAppointments.GetAppointmentById | hooks/useAppointments.ts:76-78 | returns the first record with the id, or none exactly when the id is absent |
| UseAppointments.DeleteAppointmentIdempotent | hooks/useAppointments.ts:69-73 | deleting twice equals deleting once |
| UseAppointments.GetAfterAddAppointment | hooks/useAppointments.ts:51-78 | when the new id is not yet present, lookup after add returns exactly the added record |
| UseAppointments.GetAfterUpdateAppointment | hooks/useAppointments.ts:60-78 | after updating a present id, lookup returns the updated record |
| UseMedications.InitialMedications | hooks/useMedications.ts:20-51 | the hook starts with Lisinopril, Metformin and Vitamin D under ids "1", "2", "3" |
| UseMedications.AddMedication | hooks/useMedications.ts:54-60 | one record appended with the given id and fields; the prefix is unchanged |
| UseMedications.UpdateMedication | hooks/useMedications.ts:63-69 | every record with the id is replaced; the length, the order and all other records are kept; an unknown id changes nothing |
| UseMedications.DeleteMedication | hooks/useMedications.ts:72-76 | all records with the id go; the rest keep their order; an absent id changes nothing |
| UseMedications.GetMedicationById | hooks/useMedications.ts:79-81 | returns the first record with the id, or none exactly when the id is absent |
| UseMedications.DeleteMedicationIdempotent | hooks/useMedications.ts:72-76 | deleting twice equals deleting once |
| UseMedications.GetAfterAddMedication | hooks/useMedications.ts:54-81 | lookup after add finds the added record for a new id, and the older record for an id already used |
| UseMedications.OperationsKeepUniqueIds | hooks/useMedications.ts:54-76 | with distinct ids, add under a fresh id, update and delete keep them distinct |
| AppointmentsSlice.InitialAppointments | store/slices/appointmentsSlice.ts:18-32 | the slice starts with exactly one appointment, id "1", status upcoming |
| AppointmentsSlice.ReplaceFirst | store/slices/appointmentsSlice.ts:45-50 | keeps the length; an unknown id changes nothing; otherwise exactly the first matching position is overwritten |
| AppointmentsSlice.ReplaceFirstOnlyFirst | store/slices/appointmentsSlice.ts:46-49 | every position other than the first match keeps its record, even one with the same id |
| AppointmentsSlice.ReplaceFirstIsReplaceAllWhenUnique | store/slices/appointmentsSlice.ts:45-50 | with distinct ids, the slice's update equals the hook's update |
| AppointmentsSlice.ReplaceFirstDiffersOnDuplicates | store/slices/appointmentsSlice.ts:45-50 | with a duplicated id, the slice replaces only the first copy and the hook replaces both |
| AppointmentsSlice.AppointmentsState.constructor | store/slices/appointmentsSlice.ts:18-32 | the state starts as the initial list |
| AppointmentsSlice.AppointmentsState.AddAppointment | store/slices/appointmentsSlice.ts:38-44 | push: the new state is the old list plus one record, whose id is the generated one |
| AppointmentsSlice.AppointmentsState.UpdateAppointment | store/slices/appointmentsSlice.ts:45-50 | the new state is the old one with its first match overwritten; the length is kept; an unknown id is a no-op |
| AppointmentsSlice.AppointmentsState.DeleteAppointment | store/slices/appointmentsSlice.ts:51-53 | the new state is the filtered old one: no record has the id and the order is kept |
| MedicationsSlice.MedicationsState.constructor | store/slices/medicationsSlice.ts:15-17 | the medication list starts empty |
| MedicationsSlice.MedicationsState.AddMedication | store/slices/medicationsSlice.ts:23-25 | push: the length grows by one, earlier records are unchanged, and the last record is the payload, with its own id |
| MedicationsSlice.MedicationsState.SetMedications | store/slices/medicationsSlice.ts:26-28 | the list becomes the payload, whatever it held before |
| MedicationsSlice.DuplicateIdsCoexist | store/slices/medicationsSlice.ts:23-25 | adding the same record twice leaves two records with that id |
| MedicationsSlice.SetTwiceIsSetOnce | store/slices/medicationsSlice.ts:26-28 | setting the same list twice ends where setting it once does |
| BookAppointment.SpecialtiesListed | app/appointments/book.tsx:13-17 | the `specialties` constant holds ten distinct, non-empty entries, so every chip names one specialty and none of them fails the empty check |
| BookAppointment.BookedAppointment | app/appointments/book.tsx:51-60 | the record built on submit carries the generated id, doctor 'Dr. Who', status upcoming, and the entered specialty, date, time, location and notes |
| BookAppointment.SubmitError | app/appointments/book.tsx:48-49 | an empty specialty gives 'Please select a specialty' first; then an empty location gives 'Please enter a location'; no error exactly when both are non-empty (nothing is trimmed) |
| BookAppointment.BookForm.constructor | app/appointments/book.tsx:22-30 | the form opens with pickers closed, empty fields, no error, not submitting |
| BookAppointment.BookForm.OpenDatePicker | app/appointments/book.tsx:119 | the date button opens the date picker |
| BookAppointment.BookForm.OpenTimePicker | app/appointments/book.tsx:129 | the time button opens the time picker |
| BookAppointment.BookForm.HandleDateChange | app/appointments/book.tsx:33-36 | the date picker closes; the date changes only when a value is supplied |
| BookAppointment.BookForm.HandleTimeChange | app/appointments/book.tsx:38-41 | the time picker closes; the time changes only when a value is supplied |
| BookAppointment.BookForm.SelectSpecialty | app/appointments/book.tsx:94-100 | the specialty becomes one of the ten listed ones, so it is always empty or listed |
| BookAppointment.BookForm.SetLocation | app/appointments/book.tsx:165 | the location field holds the typed text |
| BookAppointment.BookForm.SetNotes | app/appointments/book.tsx:180 | the notes field holds the typed text |
| BookAppointment.BookForm.HandleSubmit | app/appointments/book.tsx:43-70 | the error ends as the validation message; nothing is dispatched exactly when there is one; otherwise the dispatched record is BookedAppointment of the entered fields; the screen navigates back (`router.back()`) exactly when the record is dispatched; submitting ends false either way |
| AuthContext.MockSignIn | context/AuthContext.tsx:27-33 | succeeds exactly for user@example.com with password "password", returning id "1", "John Doe", the email and phone 555-123-4567; otherwise fails with 'Invalid credentials' |
| AuthContext.MockSignUp | context/AuthContext.tsx:35-38 | always returns id "2" with the given name and email and no phone |
| AuthContext.MergeUser | context/AuthContext.tsx:128 | each field comes from the partial when present, otherwise from the current user |
| AuthContext.MergeUserIdempotent | context/AuthContext.tsx:128 | merging the same partial again changes nothing; the empty partial changes nothing |
| AuthContext.AuthProvider.IsSignedIn | context/AuthContext.tsx:139 | signed in exactly when there is a user |
| AuthContext.AuthProvider.constructor | context/AuthContext.tsx:42-43 | no user and loading at mount |
| AuthContext.AuthProvider.LoadUser | context/AuthContext.tsx:45-57 | a stored user becomes the current user; loading ends |
| AuthContext.AuthProvider.SignIn | context/AuthContext.tsx:86-97 | on success the user is set and stored (the two are equal); on failure 'Invalid credentials' is rethrown and the user and storage are unchanged; loading ends false |
| AuthContext.AuthProvider.SignUp | context/AuthContext.tsx:99-110 | the signed-up user is set and stored; loading ends false |
| AuthContext.AuthProvider.SignOut | context/AuthContext.tsx:112-122 | the stored user is removed, the user becomes null and the session is signed out |
| AuthContext.AuthProvider.UpdateUserProfile | context/AuthContext.tsx:124-136 | with no user it throws 'Not signed in' and changes nothing; otherwise the merged user is set and stored |
| RegisterScreen.IndexOf | src/screens/RegisterScreen.tsx:25 | the first position of a character, or -1 when it is absent |
| RegisterScreen.EmailTest | src/screens/RegisterScreen.tsx:25 | the regular expression's test, computed by splitting at the first '@'; it has no contract of its own, and EmailTestMatchesPattern proves it accepts exactly the pattern's language |
| RegisterScreen.EmailTestMatchesPattern | src/screens/RegisterScreen.tsx:25 | the computed e-mail test accepts exactly the texts of the form A@B.C, where A, B and C are non-empty runs free of white space and '@' |
| RegisterScreen.EmailTestShape | src/screens/RegisterScreen.tsx:25 | an accepted address has no white space and exactly one '@', which is not the first character |
| RegisterScreen.RegistrationAccepted | src/screens/RegisterScreen.tsx:40-47 | the registration gate: the e-mail test passes and the two passwords are equal; it has no contract of its own, and HandleRegistration's contract ties the navigation to it |
| RegisterScreen.RegisterForm.constructor | src/screens/RegisterScreen.tsx:13-19 | empty fields, no messages, passwords hidden |
| RegisterScreen.RegisterForm.ToggleSecurity | src/screens/RegisterScreen.tsx:23 | each toggle flips whether the passwords are hidden |
| RegisterScreen.RegisterForm.ValidateEmail | src/screens/RegisterScreen.tsx:24-31 | returns the pattern test; the message is 'Please enter a valid email' on false and cleared on true |
| RegisterScreen.RegisterForm.ValidatePassword | src/screens/RegisterScreen.tsx:32-39 | true exactly when the confirmation equals the current password; "Password don't match" otherwise |
| RegisterScreen.RegisterForm.ChangeEmail | src/screens/RegisterScreen.tsx:88-90 | typing stores the e-mail and sets its message from the test |
| RegisterScreen.RegisterForm.ChangeUserName | src/screens/RegisterScreen.tsx:77 | typing stores the user name |
| RegisterScreen.RegisterForm.ChangePassword | src/screens/RegisterScreen.tsx:105 | typing stores the password |
| RegisterScreen.RegisterForm.ChangeConfirmPassword | src/screens/RegisterScreen.tsx:125-127 | typing stores the confirmation and sets the mismatch message |
| RegisterScreen.RegisterForm.HandleRegistration | src/screens/RegisterScreen.tsx:40-47 | navigates to Login exactly when the e-mail passes and the two passwords are equal; the user name is not checked and two empty passwords pass |
| VerificationScreen.IsSingleDigit | src/screens/VerificationScreen.tsx:18 | `/^\d$/`: exactly one character, an ASCII digit; it has no contract of its own, and CodeAfterChange's and FocusAfterChange's contracts say what happens on either side of it |
| VerificationScreen.CodeAfterChange | src/screens/VerificationScreen.tsx:17-31 | a single digit or the empty text goes into the slot; any other text changes nothing; other slots and the length are always kept |
| VerificationScreen.FocusAfterChange | src/screens/VerificationScreen.tsx:23-25 | after a digit below the last slot, focus moves to the next slot; it moves in no other case |
| VerificationScreen.FocusAfterKey | src/screens/VerificationScreen.tsx:33-39 | Backspace on an empty slot other than the first moves focus back one; nothing else moves it |
| VerificationScreen.TypingFourDigitsFillsCode | src/screens/VerificationScreen.tsx:17-31 | typing four digits into slots 0 to 3 in turn gives a code of those digits, with focus on the last slot |
| VerificationScreen.CodeEntry.constructor | src/screens/VerificationScreen.tsx:12 | the code starts as four empty slots |
| VerificationScreen.CodeEntry.HandleChange | src/screens/VerificationScreen.tsx:17-31 | the code and the focus become what CodeAfterChange and FocusAfterChange say; there are always four slots |
| VerificationScreen.CodeEntry.HandleKeyPress | src/screens/VerificationScreen.tsx:33-39 | focus becomes what FocusAfterKey says; the code is unchanged |
| WeekCalendar.Weekday | components/WeekCalendar.tsx:28 | the weekday is 0 (Sunday) to 6 |
| WeekCalendar.StartOfWeek | components/WeekCalendar.tsx:28 | the week starts on a Sunday, on or at most six days before the date |
| WeekCalendar.WeekOf | components/WeekCalendar.tsx:27-31 | seven consecutive days starting on that Sunday, including the current date |
| WeekCalendar.StartOfWeekUnique | components/WeekCalendar.tsx:28 | the start of the week is the only Sunday in the seven days up to the date |
| WeekCalendar.WeekOfItsDays | components/WeekCalendar.tsx:27-31 | every day shown belongs to the week shown |
| WeekCalendar.ShiftByAWeek | components/WeekCalendar.tsx:33-39 | a step of 7 days either way moves the start of the week by 7, and every day of the strip by 7 |
| WeekCalendar.NextThenPrevious | components/WeekCalendar.tsx:27-39 | with the strip rebuilt after each press, next moves every shown day 7 later, and previous then brings back exactly the week first shown, with the dates unchanged |
| WeekCalendar.IsHighlighted | components/WeekCalendar.tsx:46-55 | a day is highlighted exactly when some entry parses to it; unparseable entries and an empty list highlight nothing |
| WeekCalendar.SelectedInWeekIff | components/WeekCalendar.tsx:81 | the selected day is among the shown days exactly when it falls in the week of the current date |
| WeekCalendar.AtMostOneActive | components/WeekCalendar.tsx:81 | at most one day of a week is the selected one |
| WeekCalendar.CalendarState.constructor | components/WeekCalendar.tsx:23-25 | both dates start at the initial date; the week starts empty |
| WeekCalendar.CalendarState.RebuildWeek | components/WeekCalendar.tsx:27-31 | the effect sets the week of the current date, which contains it and shows the range header |
| WeekCalendar.CalendarState.GoToPreviousWeek | components/WeekCalendar.tsx:33-35 | the current date moves back 7 days |
| WeekCalendar.CalendarState.GoToNextWeek | components/WeekCalendar.tsx:37-39 | the current date moves forward 7 days |
| WeekCalendar.CalendarState.ShowsRange | components/WeekCalendar.tsx:64 | the range header is shown once the strip has its seven days; it has no contract of its own, and RebuildWeek's contract establishes it |
| WeekCalendar.CalendarState.IsActive | components/WeekCalendar.tsx:81 | a day is drawn as active when it is the selected date; it has no contract of its own, and SelectedInWeekIff and AtMostOneActive say when it is lit and that at most one day is |
| WeekCalendar.CalendarState.IsMarked | components/WeekCalendar.tsx:82 | a day carries the highlight mark when IsHighlighted holds of it, which that function's contract characterises |
| WeekCalendar.CalendarState.HandleSelectDate | components/WeekCalendar.tsx:41-44 | the selection becomes the date, and the same date is reported to the callback |
| Onboarding.NextEffects | app/index.tsx:42-49 | before the last slide: only a scroll to the next index; otherwise the flag write, then the route replace to '/welcome' |
| Onboarding.DotActive | app/index.tsx:114 | a dot is lit when its index is the current one; it has no contract of its own, and ActiveDots and ExactlyOneDotActive state the consequences |
| Onboarding.ActiveDots | app/index.tsx:113-115 | a dot is lit exactly when its index is the current one |
| Onboarding.ExactlyOneDotActive | app/index.tsx:113-115 | exactly one dot is lit when the index is 0 to 2; none otherwise |
| Onboarding.ButtonLabel | app/index.tsx:123 | 'Get Started' exactly on the last slide, 'Next' otherwise |
| Onboarding.FinishesIffGetStarted | app/index.tsx:42-49 | on a slide, the button finishes onboarding exactly when it reads 'Get Started'; past the last slide it finishes while reading 'Next' |
| Onboarding.OnboardingScreen.constructor | app/index.tsx:38 | the carousel starts at index 0 with no effects |
| Onboarding.OnboardingScreen.HandleNext | app/index.tsx:42-49 | appends exactly NextEffects to the effect log and leaves the index alone |
| Onboarding.OnboardingScreen.HandleSkip | app/index.tsx:51-53 | appends only the route replace to '/welcome'; no flag is written |
| Onboarding.OnboardingScreen.UpdateIndex | app/index.tsx:55-58 | the index becomes the supplied scroll position |
| AddScreen.DigitChar | src/screens/AddScreen.tsx:27 | a digit value becomes its decimal character |
| AddScreen.DecimalString | src/screens/AddScreen.tsx:27 | `String(n)` is a non-empty digit string, of length one exactly when n is below 10 |
| AddScreen.DecimalStringRoundTrip | src/screens/AddScreen.tsx:27 | reading `String(n)` back gives n |
| AddScreen.PadStart2 | src/screens/AddScreen.tsx:27-30 | a text of two or more characters is kept; a shorter one gets leading '0's up to length 2 |
| AddScreen.Pad2Digits | src/screens/AddScreen.tsx:27-30 | below 100, a value becomes two digits that read back as it: a leading '0' below 10, unchanged from 10 on |
| AddScreen.LayoutFields | src/screens/AddScreen.tsx:26-31 | the label is day + '/' + month + ', ' + hour + minute, 11 characters, with no separator between hour and minute |
| AddScreen.FormatDateTime | src/screens/AddScreen.tsx:26-31 | `formatDateTime` as written: an 11-character label with '/' and ", " in place, whose month field is Pad2 of the month index plus two |
| AddScreen.FormatDateTimeCorrected | src/screens/AddScreen.tsx:26-31 | the same label with the month field Pad2 of the month index plus one |
| AddScreen.LayoutValues | src/screens/AddScreen.tsx:26-31 | every two-digit field of the label reads back as the value it was made from |
| AddScreen.FormatDateTimeMonthField | src/screens/AddScreen.tsx:28 | as written, the month field reads as the month index plus two; the other fields read as their getters |
| AddScreen.FormatDateTimeMonthOffByOne | src/screens/AddScreen.tsx:28 | January renders its month as "02" and December as "13" |
| AddScreen.FormatDateTimeCorrectedMonth | src/screens/AddScreen.tsx:28 | with the month written as index plus one, the field reads 1 to 12, the calendar month |
| AddScreen.TypeItemsValues | src/screens/AddScreen.tsx:46-50 | the `items` constant of the type dropdown offers exactly the values capsule, drop and tablet, labelled Capsule, Drop and Tablet |
| AddScreen.PickerState.constructor | src/screens/AddScreen.tsx:22-24 | date mode, picker closed, the current moment |
| AddScreen.PickerState.ShowMode | src/screens/AddScreen.tsx:34-37 | the mode becomes the argument and the picker opens |
| AddScreen.PickerState.OnChange | src/screens/AddScreen.tsx:39-44 | the moment changes only when one is supplied; the picker always closes |
| Theme.LoadedTheme | src/theme/colorScheme.ts:17-22 | a non-empty stored theme is used as it is, unchecked; otherwise the theme is 'dark' exactly when the system theme is dark, else 'light' |
| Theme.Toggled | src/theme/colorScheme.ts:29 | 'light' becomes 'dark'; anything else becomes 'light' |
| Theme.ToggleTwice | src/theme/colorScheme.ts:29 | toggling twice restores 'light' and 'dark'; any other stored text ends as 'dark' |
| Theme.ThemeState.constructor | src/theme/colorScheme.ts:11-12 | before loading, the theme is 'light' and not ready |
| Theme.ThemeState.StoredTheme | src/theme/colorScheme.ts:17 | reading the theme key gives a value exactly when the key is stored, and then the stored text |
| Theme.ThemeState.LoadStoredTheme | src/theme/colorScheme.ts:16-24 | the theme becomes LoadedTheme of the stored and system themes; ready afterwards on either branch |
| Theme.ThemeState.SystemThemeChanged | src/theme/colorScheme.ts:15-26 | the load effect depends on the system scheme: when it changes, the theme becomes LoadedTheme of the stored theme and the new system scheme, and the hook is ready |
| Theme.ThemeState.ToggleTheme | src/theme/colorScheme.ts:28-32 | the theme is toggled and the new value is written to storage |

## Findings

| source | as written | input that shows it | evidently intended | confidence | as-written member | corrected member |
|---|---|---|---|---|---|---|
| src/screens/AddScreen.tsx:28 | the month is `getMonth() + 2` | January (getMonth() = 0) renders "02"; December (11) renders "13" | `getMonth() + 1`, the calendar month 01 to 12 | not executed; high (`getMonth` counts from 0) | `AddScreen.FormatDateTime`, shown by `AddScreen.FormatDateTimeMonthOffByOne` | `AddScreen.FormatDateTimeCorrected`, proved by `AddScreen.FormatDateTimeCorrectedMonth` |

The screen never calls `formatDateTime`, nor `showMode` or `onChange`. Both
versions of the formatter are kept side by side, and nothing else in the model
depends on either.

## Left out

- Rendering, styling, navigation wiring and build configuration: these have no
  stateable behaviour.
- Storage failures and JSON: storage reads and writes always succeed, and
  serialisation is not modelled. The startup load's catch branch for a
  malformed stored user is therefore absent. So is the case where `storeUser`
  fails after `setUser`, which would leave the in-memory user unstored.
- Timing: the mock 1-second delays, promise interleaving, and React's batching
  of `setState`, where a handler reads values from its own render.
- Date libraries: date-fns (`format`, `startOfWeek`, `addDays`, `parseISO`,
  `isSameDay`) and the `Date` getters are not modelled. Their results are
  inputs: day numbers, parsed day or None, formatted texts.
- Onboarding.OnboardingScreen.UpdateIndex: the index is supplied. The
  `Math.round(offset / width)` floating-point computation is not modelled.
- Cross-file dispatch: book.tsx dispatches to the appointments slice. That
  slice is not registered in store/index.ts, and its `addAppointment` would
  replace the uuid with a clock id. The model returns the dispatched record
  and stops there.
- AuthContext.MergeUser: a partial that carries a field explicitly set to
  `undefined` is not modelled. A field is either carried with a value or not
  carried at all.
- VerificationScreen.CodeEntry.HandleChange: the input refs are assumed
  present, and focus is the index of the focused input.
- The `index` parameter of the code entry handlers ranges over the four
  rendered slots, as the inputs' `map` supplies it.
- The add screen's name, dose, amount and dropdown fields are plain setters.
  Only the formatter, the picker state and the dropdown items are modelled.
- The medication circle's floating-point progress, and the locale-dependent
  date texts in list items.
- Case-insensitive search over the stores and the multi-calendar date marking
  happen in screens that are not part of this model.
