# GoBarber mobile: appointment schedule and profile form, modelled in Dafny

The GoBarber mobile app books appointments with service providers. Its
screens are almost all layout and calls to a REST API. This project models the
two pieces of logic the screens hold and proves properties about them.

- `slots.dfy`, module `Slots`: the appointment screen's schedule. The
  day-availability records (`{hour, available}`) of a provider are split into
  a morning list (`hour < 12`) and an afternoon list (`hour >= 12`), each by a
  filter and then a map. The map keeps hour and availability and adds the
  `"HH:00"` label shown on the hour button. `Filter` models
  `Array.prototype.filter`. `HourLabel` models
  `format(new Date().setHours(hour), 'HH:00')`, including the Date roll-over
  that makes the label show `hour` modulo 24.
- `appointment.dfy`, module `Appointment`: the appointment screen's selection
  state as a class `CreateAppointmentScreen`. Its fields are the chosen
  provider, the chosen day, the chosen hour, whether the date picker is open,
  the availability last received, and the log of day-availability requests
  sent. Every handler is a method. The effect keyed on the day and the
  provider sends a request and sets the hour back to 0. It is carried out
  inside the two handlers that change the day or the provider. The object invariant
  `Valid()` says two things. The hour is an hour of the day. The latest
  request is for the provider and day now selected. `CreateAppointment`
  builds the body of `POST /appointments`.
- `profile.dfy`, module `Profile`: the profile form's validation schema. It
  gives the set of `(field, rule)` failures that a submission reports. Every
  failing field is reported at once. Within the confirmation field, a failed
  `oneOf` check hides the `min(6)` check. It also gives the body of `PUT /profile`: the whole form
  when a current password is given, otherwise only name and e-mail. E-mail
  syntax is decided by the schema library; here it is a parameter
  `isEmail: string -> bool`.

Behaviours of the code worth stating:

- The confirmation must equal the new password on every submission, not
  only when a current password is given (`oneOf` stands outside the `when`).
- "No hour selected" is the hour 0. This is the state's initial value and
  what the effect sets it back to.
- Choosing the provider that is already chosen changes no state, so it does
  not clear the hour. A date from the picker is always a new `Date` object,
  so the hour is cleared even when the same day is picked again.
- The submitted appointment time has minutes set to 0. Its seconds and
  milliseconds are the ones of the selected date, because only
  `setHours` and `setMinutes(0)` are applied.
- An e-mail left empty fails only `required`. The `email()` test skips the
  empty string.

## Model

| member | source | states |
|---|---|---|
| `Slots.Filter` | src/pages/CreateAppointment/index.tsx:69 | the filtered list is no longer than the input, and each of its items satisfies the predicate and comes from the input |
| `Slots.FilterMembership` | src/pages/CreateAppointment/index.tsx:69 | a value is in the filtered list exactly when it is in the input and satisfies the predicate |
| `Slots.FilterCount` | src/pages/CreateAppointment/index.tsx:69 | the filter keeps every occurrence of a selected value and no occurrence of any other value |
| `Slots.FilterIsSubsequence` | src/pages/CreateAppointment/index.tsx:69 | the filtered list is a subsequence of the input, so input order is kept |
| `Slots.SkipHead` | src/pages/CreateAppointment/index.tsx:69 | a subsequence of the input's tail is a subsequence of the input |
| `Slots.SubsequenceOfTail` | src/pages/CreateAppointment/index.tsx:69 | dropping the first element of a subsequence leaves a subsequence |
| `Slots.HourLabel` | src/pages/CreateAppointment/index.tsx:73 | the label is five characters: two decimal digits that spell the hour of the day (`hour` mod 24), then ":00" |
| `Slots.HourLabelInjective` | src/pages/CreateAppointment/index.tsx:73 | two hours in 0..23 get the same label only if they are equal |
| `Slots.HourLabelExamples` | src/pages/CreateAppointment/index.tsx:73 | 9 is labelled "09:00" and 14 is labelled "14:00" |
| `Slots.FilterDistinctHours` | src/pages/CreateAppointment/index.tsx:69 | filtering a list whose hours are distinct hours of the day gives a list with the same property |
| `Slots.PrependDistinct` | src/pages/CreateAppointment/index.tsx:69 | an item whose hour of the day is absent from such a list can be put in front of it and keep the property |
| `Slots.DistinctLabels` | src/pages/CreateAppointment/index.tsx:70-73 | mapping a list whose hours are distinct hours of the day gives entries with pairwise distinct labels |
| `Slots.ScheduleKeysDistinct` | src/pages/CreateAppointment/index.tsx:228-258 | when the response holds each hour of the day at most once, the labels used as keys are pairwise distinct within the morning list and within the afternoon list |
| `Slots.RepeatedHourRepeatsLabel` | src/pages/CreateAppointment/index.tsx:67-75 | a response that repeats hour 9 gives two morning entries, both labelled "09:00", so the keys collide |
| `Slots.Annotate` | src/pages/CreateAppointment/index.tsx:70-73 | the map gives one entry per item, in the same position, with the same hour and availability and the label of that hour |
| `Slots.UnlabelAnnotate` | src/pages/CreateAppointment/index.tsx:70-72 | dropping the labels from the mapped list gives back the items unchanged |
| `Slots.MorningAvailability` | src/pages/CreateAppointment/index.tsx:67-75 | every morning entry has an hour before 12 |
| `Slots.AfternoonAvailability` | src/pages/CreateAppointment/index.tsx:77-85 | every afternoon entry has an hour of 12 or later |
| `Slots.MorningExactly` | src/pages/CreateAppointment/index.tsx:67-75 | the morning list, with labels dropped, is the input's items with hour < 12: each occurrence exactly once, in input order, with hour and availability unchanged |
| `Slots.AfternoonExactly` | src/pages/CreateAppointment/index.tsx:77-85 | the afternoon list, with labels dropped, is the input's items with hour >= 12: each occurrence exactly once, in input order, with hour and availability unchanged |
| `Slots.PartitionComplete` | src/pages/CreateAppointment/index.tsx:67-85 | the two list lengths sum to the input length, the two multisets add up to the input's, and every input item is in exactly one of the lists |
| `Appointment.CreateAppointmentScreen.constructor` | src/pages/CreateAppointment/index.tsx:58-64 | the provider comes from the route, the day is the given current date, the hour is 0, the picker is closed, no availability has arrived yet, and the mount-time effect has sent one request for that provider and day |
| `Appointment.CreateAppointmentScreen.SelectProvider` | src/pages/CreateAppointment/index.tsx:116-118 | the provider becomes the given one; if it differs from the old one, the effect at lines 97-110 runs: the hour is reset to 0 and a request for the new provider and the selected day (month 1-based) is sent; otherwise the state is unchanged; the invariant is kept |
| `Appointment.CreateAppointmentScreen.ToggleDatePicker` | src/pages/CreateAppointment/index.tsx:120-122 | only the picker flag changes, and it is flipped |
| `Appointment.CreateAppointmentScreen.DateChange` | src/pages/CreateAppointment/index.tsx:124-130 | on Android the picker closes; a supplied date replaces the day and runs the effect at lines 97-110: the hour is reset to 0 and a request for the selected provider and the new day (month 1-based) is sent; a missing date leaves day, hour and requests unchanged |
| `Appointment.CreateAppointmentScreen.SelectHour` | src/pages/CreateAppointment/index.tsx:132-134 | only the chosen hour changes, and it becomes the given hour |
| `Appointment.CreateAppointmentScreen.ReceiveAvailability` | src/pages/CreateAppointment/index.tsx:105-107 | only the availability changes, and it becomes the response |
| `Appointment.CreateAppointmentScreen.Morning` | src/pages/CreateAppointment/index.tsx:67-75 | the morning section shown for the current state, with labels dropped, is the morning items of the current availability |
| `Appointment.CreateAppointmentScreen.Afternoon` | src/pages/CreateAppointment/index.tsx:77-85 | the afternoon section shown for the current state, with labels dropped, is the afternoon items of the current availability |
| `Appointment.CreateAppointmentScreen.CreateAppointment` | src/pages/CreateAppointment/index.tsx:136-146 | the request names the chosen provider; its date keeps the year, month, day, seconds and milliseconds of the chosen day, with hour = the chosen hour and minutes = 0; its day is the one of the latest availability request |
| `Profile.ValidationErrors` | src/pages/Profile/index.tsx:50-71 | each possible error is reported exactly when its condition holds: empty name; empty e-mail; non-empty malformed e-mail; a new password shorter than 6 when a current password is given; a confirmation shorter than 6 when a current password is given and the confirmation equals the password; a confirmation different from the password. No other error is reported. Every failing field is reported together, and on the confirmation field a failed `oneOf` hides `min(6)` |
| `Profile.UpdatePayload` | src/pages/Profile/index.tsx:73 | with a current password the body holds all five form fields; otherwise exactly e-mail and name; every value is the form's own |
| `Profile.Submit` | src/pages/Profile/index.tsx:69-88 | an update is sent exactly when the form is valid, and its body is the payload; otherwise the non-empty set of validation errors is shown and nothing is sent |
| `Profile.MismatchHidesMinLength` | src/pages/Profile/index.tsx:60-71 | a mistyped, too-short confirmation reports only the mismatch on that field, while other failing fields are still reported alongside it |
| `Profile.ValidIff` | src/pages/Profile/index.tsx:50-67 | the form is valid exactly when the name is given, the e-mail is given and well formed, both new passwords have at least 6 characters when a current password is given, and the confirmation equals the password |
| `Profile.EmptyNameFails` | src/pages/Profile/index.tsx:51 | an empty name fails validation |
| `Profile.BadEmailFails` | src/pages/Profile/index.tsx:52 | an empty or malformed e-mail fails validation |
| `Profile.ShortNewPasswordFails` | src/pages/Profile/index.tsx:54-65 | with a current password, a new password or confirmation shorter than 6 fails validation |
| `Profile.NoPasswordChangeIgnoresLength` | src/pages/Profile/index.tsx:57-58 | without a current password, any pair of equal new passwords, of any length, gives a verdict that depends only on name and e-mail |
| `Profile.MismatchFails` | src/pages/Profile/index.tsx:66 | a confirmation different from the password fails validation, whether or not a current password is given |
| `Profile.ValidationExamples` | src/pages/Profile/index.tsx:50-67 | no passwords is valid; current password with a 5-character new one is invalid; with 6 matching characters it is valid; a mismatch is invalid |
| `Profile.NoPasswordChangeSendsNameAndEmail` | src/pages/Profile/index.tsx:73-75 | a valid form without a current password sends exactly name and e-mail |

## Left out

- Rendering, styled components and navigation: the JSX of both screens, `src/components/Input/style.ts`, `goBack`, `navigate`.
- The SignIn, SignUp and Dashboard screens: their handlers only log or navigate.
- HTTP: requests are recorded as values. Day-availability queries go into the `queries` log, and the appointment and update bodies are returned. Responses arrive through `ReceiveAvailability`. The provider-list fetch (src/pages/CreateAppointment/index.tsx:87-95), the outcomes of `POST /appointments` and `PUT /profile`, `updateUser`, and the alerts on failure are not modelled.
- The avatar upload through the image picker and `PATCH /users/avatar` (src/pages/Profile/index.tsx:101-133): device integration and I/O.
- The mapping of validation errors to messages (`getValidationErrors` is not part of this model). Errors are reported as (field, rule) pairs.
- Yup's e-mail syntax: a parameter `isEmail`, not a definition.
- A form field that is `undefined` instead of a string: every field is modelled as a string.
- String length: the model counts Unicode characters, but JavaScript counts UTF-16 code units. A password with characters outside the Basic Multilingual Plane is counted differently.
- Dates: a record of local calendar fields, with no time zones and no calendar arithmetic. The current date and the platform (Android or not) are parameters.
- React scheduling: each handler and the effect it triggers happen as one step. The render in between, `useMemo` caching and the order in which asynchronous responses arrive are not modelled. Any response may arrive at any time, as in the screen, which does not cancel stale requests.
- Slots.HourLabel: states the label as the hour modulo 24. `setHours` works in local time, so on a day with a daylight-saving gap a skipped hour moves forward (2 gives "03:00") and two hours share a label and a list key. Time zones and daylight saving are not modelled.
- Appointment.CreateAppointmentScreen.SelectHour: requires an hour in 0..23, the hours a day-availability response holds. `Date.setHours` would roll other values over into a neighbouring day, and that is not modelled.
