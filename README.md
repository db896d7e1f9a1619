# consultorio-frontend core, modelled in Dafny

A model of the logic inside the Angular front end of a single-doctor clinic. The public page
lets a patient book an appointment. The admin pages list appointments and manage staff users.
The model covers the parts of the components that compute something:

- **Availability calculator** of the public booking form (`Availability`). It covers:
  - the daily slot window from 16:30 to 20:00 every 30 minutes;
  - the date → booked-times index built from the snapshot of future appointments, with
    cancelled appointments skipped;
  - the bookable dates over a 60-day horizon;
  - the bookable times of the selected date, where only slots strictly later than `now` count
    for today;
  - the clearing of a selected time that is no longer offered;
  - the phone-field key filter.
- **Phone-number formatter directive** (`PhoneFormatter`): `XXX-XXX-XXXX` once ten digits are
  present, and digits only in the form control.
- **Admin user list** (`UsersList`): client-side filtering by e-mail, name and role, ignoring
  case, then one page of ten.
- **Admin appointment list** (`AppointmentsList`):
  - the query sent to the backend;
  - parsing of `YYYY-MM-DD` filters into start-of-day and end-of-day bounds;
  - page arithmetic;
  - the status labels.
- **Create/edit user form** (`UserForm`):
  - the validators;
  - the edit-mode diff, where email is never sent, the password only when typed, and an empty
    diff sends nothing;
  - create versus update dispatch;
  - the result notifications.
- **Toast container** (`Toasts`): notifications appended, removed by identity, and an
  auto-dismiss delay.
- **Doctor presentation page** (`DoctorPresentation`): the five-image carousel counter and the
  booking result messages.

Shared modules:

- `Base`: `Option`.
- `Seqs`: `Array.prototype.filter` and sub-sequences.
- `Text`: `[0-9]`, `toLowerCase`, `includes`, `join`, `split`, `Number`, `padStart`.
- `Paging`: `Math.ceil` page counts, `slice`, page links.
- `Notifications`: the notification service's kinds and default durations.
- `ServerErrors`: the rule that turns a failed request's body into a message.

Each component whose fields change is a `class` whose methods update those fields. The
requests a component sends and the notifications it shows are recorded in sequence fields
(`requests`, `notices`). Callbacks of HTTP requests and timers are separate methods
(`OnUsersLoaded`, `OnSaveError`, …), because the model has no asynchrony.

The platform's `Date` is not modelled. The availability calculator receives it as a `Platform`
value holding four conversions:

- the UTC calendar date (`toISOString`);
- the local wall clock (`toLocaleTimeString('es-MX')`);
- milliseconds since local midnight;
- local midnight `i` days ahead.

Date keys come from UTC and booked times from local time. These are kept as separate functions,
and two lemmas over a fixed UTC-6 platform show what the mix does in the evening (see
"## Left out"). The current instant `now` is a parameter. The appointment list
receives the local wall-clock constructor `new Date(y, m, d, …)` as a function of (year, month
index, day, milliseconds of day).

## Model

| member | source | states |
|---|---|---|
| Text.DigitsOnly | src/app/shared/components/formatter/phone-number-formatter.ts:57 | stripping non-digits leaves only characters of `[0-9]` and never lengthens the text |
| Text.NumberOf | src/app/appointment-form/appointment-form.ts:194 | `Number` of a part is defined exactly when the part is all decimal digits; the empty string is 0 |
| Text.Pad2 | src/app/appointment-form/appointment-form.ts:115-117 | `padStart(2, '0')` of a number below 100 is two digit characters |
| Text.Pad2RoundTrip | src/app/appointment-form/appointment-form.ts:115-117 | reading a zero-padded number back with `Number` gives the number |
| Text.ToLower | src/app/admin/users-component/users-component.ts:100 | lower-casing keeps the length and maps each character independently (A–Z to a–z, others unchanged) |
| Text.SplitOn | src/app/admin/appointments-component/appointments-component.ts:69 | `split` yields at least one piece and no piece contains the separator |
| Text.SplitOnFirst | src/app/appointment-form/appointment-form.ts:194 | splitting `a + sep + b`, with `a` free of the separator, gives `a` followed by the pieces of `b` |
| Text.JoinContainsItems | src/app/admin/users-component/users-form-component/users-form-component.ts:153 | every element of a joined array occurs in the joined text |
| Availability.LabelRoundTrip | src/app/appointment-form/appointment-form.ts:115-117 | an `HH:MM` label, split at `:` and read with `Number`, gives back the hour and minute it was built from |
| Availability.SlotMinutesAt | src/app/appointment-form/appointment-form.ts:115-125 | the k-th slot label reads back as 990 + 30k minutes after midnight |
| Availability.WindowShape | src/app/appointment-form/appointment-form.ts:104-134 | the window has 8 slots, the k-th at 990 + 30k minutes after midnight |
| Availability.WindowEnds | src/app/appointment-form/appointment-form.ts:106-109 | the window's first slot is "16:30" and its last "20:00" |
| Availability.WindowDistinct | src/app/appointment-form/appointment-form.ts:104-134 | no slot label occurs twice in the window |
| Availability.AppointmentForm.GenerateAllPossibleTimes | src/app/appointment-form/appointment-form.ts:104-134 | the carry loop leaves exactly the window in `allPossibleTimes`, whatever the list held before |
| Availability.AppointmentForm.constructor | src/app/appointment-form/appointment-form.ts:37-44 | `minDate` is the UTC date of the creation instant; every list starts empty |
| Availability.TimesBookedOnAppend | src/app/appointment-form/appointment-form.ts:151-166 | the booked times of a concatenated snapshot are the booked times of its parts, in order |
| Availability.BookingRecorded | src/app/appointment-form/appointment-form.ts:151-166 | every appointment that is not cancelled has its local time listed under its UTC date |
| Availability.CancelledIgnored | src/app/appointment-form/appointment-form.ts:152 | removing a cancelled appointment from the snapshot changes no date's booked times |
| Availability.BookedTimesHaveSource | src/app/appointment-form/appointment-form.ts:151-166 | every booked time of a date comes from an appointment that is not cancelled, has that UTC date and that local time |
| Availability.NoBookingNoTimes | src/app/appointment-form/appointment-form.ts:162-165 | a date with no appointment that is not cancelled has no booked times |
| Availability.ExtendIndex | src/app/appointment-form/appointment-form.ts:152-165 | indexing one more appointment of the snapshot (creating its date's list when missing, then appending its time) turns the index of the shorter prefix into the index of the longer one |
| Availability.IndexOfSpec | src/app/appointment-form/appointment-form.ts:149-166 | the index built from a snapshot has a date as a key exactly when an appointment that is not cancelled falls on it, and that date's list is its booked times in snapshot order, duplicates kept |
| Availability.AppointmentForm.RebuildBookedSlots | src/app/appointment-form/appointment-form.ts:149-166 | the loop, starting from an empty index, leaves in `bookedSlots` the index built from the snapshot, appointment by appointment |
| Availability.AppointmentForm.OnAppointmentsFetched | src/app/appointment-form/appointment-form.ts:148-173 | after a snapshot arrives, the index and the date list agree with the snapshot; with a date selected, the time list is recomputed and the selected time is kept when still offered, else reset to ''; with no date selected, the time list and the selected time are untouched |
| Availability.AppointmentForm.OnFetchError | src/app/appointment-form/appointment-form.ts:140-146 | a failed fetch sets the error flag and the "no se pudieron cargar" message |
| Availability.AvailableOffsetsSpec | src/app/appointment-form/appointment-form.ts:180-206 | at most 60 day offsets, strictly ascending from today, each below 60, and an offset is listed iff its date has a bookable time |
| Availability.DatesAt | src/app/appointment-form/appointment-form.ts:184-186 | one date key per offset, in the same order, each the UTC date of local midnight that many days ahead |
| Availability.AppointmentForm.UpdateAvailableDates | src/app/appointment-form/appointment-form.ts:176-207 | the `for` loop leaves in `availableDates` the dates of exactly the bookable offsets, in order |
| Availability.TimesForSpec | src/app/appointment-form/appointment-form.ts:216-239 | the time list is an order-preserving sub-list of the window, has no booked time and for today no slot at or before `now`, and holds every slot meeting those conditions; an empty date gives [] |
| Availability.TodayBoundary | src/app/appointment-form/appointment-form.ts:223-234 | for today, a slot exactly at `now` is excluded and an unbooked slot one minute later is offered |
| Availability.TimesForNonEmpty | src/app/appointment-form/appointment-form.ts:190-201 | a date's time list is non-empty iff `some` slot of the window passes the per-slot test used for the date list |
| Availability.DatesAgreeWithTimes | src/app/appointment-form/appointment-form.ts:189-204 | a horizon date is in the date list iff selecting it offers at least one time, provided `minDate` and `now` agree on whether it is today |
| Availability.AppointmentForm.OnDateChange | src/app/appointment-form/appointment-form.ts:209-250 | the time list becomes the bookable times of the date; an empty date clears the selected time; otherwise the selected time is kept iff it is still offered |
| Availability.AppointmentForm.SelectDate | src/app/appointment-form/appointment-form.ts:60-64 | choosing a date stores it and recomputes its time list; an empty date clears the selected time, otherwise the selected time is kept iff it is still offered and reset to '' otherwise |
| Availability.EveningBookingNotBlocked | src/app/appointment-form/appointment-form.ts:154-165 | in a UTC-6 zone, a booking at 19:00 local time on 10 March is filed under 11 March, and 19:00 is still offered on 10 March to a visitor that morning |
| Availability.EveningTodayShift | src/app/appointment-form/appointment-form.ts:216-234 | in a UTC-6 zone at 19:00 local time on 10 March, "today" is 11 March: the past 16:30 slot of 10 March is offered and 16:30 of 11 March is hidden |
| Availability.PhoneKeyBlocked | src/app/appointment-form/appointment-form.ts:71-98 | a key that is neither a digit nor a control key is blocked; a control key that is not a digit is never blocked; a digit is blocked iff the field already holds 10 or more characters |
| PhoneFormatter.FormatPhoneNumber | src/app/shared/components/formatter/phone-number-formatter.ts:52-67 | '' gives ''; ten digits give `ddd-ddd-dddd` (12 characters, dashes at 3 and 7, digits in order); any other count gives the stripped digits |
| PhoneFormatter.DigitsRoundTrip | src/app/shared/components/formatter/phone-number-formatter.ts:23 | stripping non-digits from the formatted text gives the digits of the input |
| PhoneFormatter.FormatIgnoresNonDigits | src/app/shared/components/formatter/phone-number-formatter.ts:57 | the formatted text depends only on the input's digits |
| PhoneFormatter.FormatIdempotent | src/app/shared/components/formatter/phone-number-formatter.ts:52-67 | formatting a formatted value changes nothing |
| PhoneFormatter.PhoneNumberFormatterDirective.constructor | src/app/shared/components/formatter/phone-number-formatter.ts:11 | the directive starts from the element's text and the bound control |
| PhoneFormatter.PhoneNumberFormatterDirective.OnInput | src/app/shared/components/formatter/phone-number-formatter.ts:15-33 | the text is reformatted; the control, when present, receives the digits of the text typed and is written iff it held something else |
| PhoneFormatter.PhoneNumberFormatterDirective.OnFocus | src/app/shared/components/formatter/phone-number-formatter.ts:37-41 | while editing the field shows only digits |
| PhoneFormatter.PhoneNumberFormatterDirective.OnBlur | src/app/shared/components/formatter/phone-number-formatter.ts:45-49 | leaving the field shows the formatted digits, the same text as formatting what was shown |
| Paging.PageCount | src/app/admin/users-component/users-component.ts:186-188 | the page count is the ceiling of total / per-page: enough pages for all items and no empty last page; zero exactly for no items |
| Paging.PageNumbers | src/app/admin/users-component/users-component.ts:190-193 | one page link per page |
| Paging.PageNumbersAreValidPages | src/app/admin/users-component/users-component.ts:179-193 | a page link is offered iff `onPageChange` accepts that page |
| Paging.PageNumbersAscending | src/app/admin/users-component/users-component.ts:190-193 | the links are 1, 2, …, n in ascending order |
| Paging.Slice | src/app/admin/users-component/users-component.ts:123-125 | `slice` with clamped bounds: a contiguous run of the list starting at `start`, of the clamped length |
| Paging.PageContents | src/app/admin/users-component/users-component.ts:123-125 | a page holds at most ten items, taken contiguously from offset (page−1)·10 |
| Paging.ValidPageNotEmpty | src/app/admin/users-component/users-component.ts:179-188 | every page the page count admits shows at least one item |
| Paging.ItemOnItsPage | src/app/admin/users-component/users-component.ts:123-125 | item i is shown on page i / 10 + 1 at position i mod 10 |
| UsersList.SelectionSpec | src/app/admin/users-component/users-component.ts:96-119 | the filtered list is an order-preserving sub-list of all users and holds exactly the users passing every filter that is set |
| UsersList.NoFiltersKeepAll | src/app/admin/users-component/users-component.ts:98-117 | with the three filters empty every user is kept, in order |
| UsersList.SelectionIdempotent | src/app/admin/users-component/users-component.ts:96-119 | filtering the filtered list again changes nothing |
| UsersList.NameFilterIgnoresCase | src/app/admin/users-component/users-component.ts:104-111 | a name filter and its lower-cased form select the same users |
| UsersList.FilterUsers | src/app/admin/users-component/users-component.ts:96-117 | the three successive narrowings of the working list give the one-pass selection |
| UsersList.EmailStage | src/app/admin/users-component/users-component.ts:98-102 | the e-mail step keeps exactly the users whose lower-cased e-mail contains the lower-cased filter, or everyone when it is empty |
| UsersList.NameStage | src/app/admin/users-component/users-component.ts:104-111 | the name step keeps exactly the users whose lower-cased first or last name contains the term |
| UsersList.RoleStage | src/app/admin/users-component/users-component.ts:113-117 | the role step keeps exactly the users whose role equals the filter ignoring case |
| UsersList.UsersComponent.constructor | src/app/admin/users-component/users-component.ts:21-38 | empty lists, page 1, loading, no error, no filters |
| UsersList.UsersComponent.TotalPages | src/app/admin/users-component/users-component.ts:186-188 | the ceiling of the filtered total over ten |
| UsersList.UsersComponent.PagesArray | src/app/admin/users-component/users-component.ts:190-193 | the links are exactly the pages 1 … total pages |
| UsersList.UsersComponent.ApplyFilters | src/app/admin/users-component/users-component.ts:95-133 | the filtered list is recomputed from all users, `totalUsers` is its length, `users` is the current page of it, and an empty page after loading adds the "no se encontraron usuarios" info |
| UsersList.UsersComponent.LoadAllUsers | src/app/admin/users-component/users-component.ts:71-73 | loading starts and the error is cleared |
| UsersList.UsersComponent.OnUsersLoaded | src/app/admin/users-component/users-component.ts:76-83 | the list is stored, filtered and paged; an empty result list adds "No hay usuarios registrados." after the filter notice |
| UsersList.UsersComponent.OnUsersLoadError | src/app/admin/users-component/users-component.ts:84-91 | the error notification and the error message are set and loading ends |
| UsersList.UsersComponent.OnFilterTextChanged | src/app/admin/users-component/users-component.ts:57-60 | a filter change goes back to page 1: the selection is recomputed, `totalUsers` is its length, page 1 of it is shown, and an empty page after loading adds the "no se encontraron usuarios" info |
| UsersList.UsersComponent.ClearFilters | src/app/admin/users-component/users-component.ts:135-142 | the filters are emptied, page 1 of the full list is shown and "Filtros limpiados." is notified |
| UsersList.UsersComponent.OnPageChange | src/app/admin/users-component/users-component.ts:179-184 | a page outside 1 … total pages changes nothing; a valid page is stored, the selection recomputed with `totalUsers` its length, that page shown, and an empty page after loading adds the "no se encontraron usuarios" info |
| AppointmentsList.DatePartsOfDigits | src/app/admin/appointments-component/appointments-component.ts:69-73 | `Y-M-D` made of digit groups is read as (year, month − 1, day) |
| AppointmentsList.SameDayBounds | src/app/admin/appointments-component/appointments-component.ts:68-99 | `dateFrom` is defined iff `dateTo` is; they are 00:00:00.000 and 23:59:59.999 local time of the same day, so `dateFrom < dateTo` whenever the last millisecond of every local day comes after its midnight (true also on DST-change days, which are not 24 hours long) |
| AppointmentsList.TranslatedStatus | src/app/admin/appointments-component/appointments-component.ts:180-182 | a known status maps to its label; any other status is returned unchanged |
| AppointmentsList.TranslationsDistinct | src/app/admin/appointments-component/appointments-component.ts:32-40 | each of the four offered statuses has a label different from its key and from the others' |
| AppointmentsList.AppointmentsComponent.constructor | src/app/admin/appointments-component/appointments-component.ts:20-30 | page 1, loading, no error, no filters, nothing sent |
| AppointmentsList.AppointmentsComponent.QueryParams | src/app/admin/appointments-component/appointments-component.ts:55-105 | page, limit 10, sortBy and sortOrder are always present; name and status iff their filter is non-empty; the date bounds iff their filter is non-empty; no query when a date filter is not a valid date |
| AppointmentsList.AppointmentsComponent.LoadAppointments | src/app/admin/appointments-component/appointments-component.ts:51-109 | loading starts, the error is cleared, and exactly one query is appended unless a date filter is not a valid date: the current page, 10 per page, by scheduled time descending, and each filter that is set |
| AppointmentsList.AppointmentsComponent.OnLoaded | src/app/admin/appointments-component/appointments-component.ts:110-117 | the rows and the total are taken from the response and loading ends |
| AppointmentsList.AppointmentsComponent.OnLoadError | src/app/admin/appointments-component/appointments-component.ts:122-127 | the error message is set and loading ends |
| AppointmentsList.AppointmentsComponent.TotalPages | src/app/admin/appointments-component/appointments-component.ts:138-140 | the ceiling of the total over ten |
| AppointmentsList.AppointmentsComponent.PagesArray | src/app/admin/appointments-component/appointments-component.ts:142-145 | the links are exactly the pages 1 … total pages |
| AppointmentsList.AppointmentsComponent.OnPageChange | src/app/admin/appointments-component/appointments-component.ts:131-136 | a page outside 1 … total pages changes nothing; a valid page is stored, loading starts, and the query for that page with the current filters is sent (none when a date filter is not a valid date) |
| AppointmentsList.AppointmentsComponent.ApplyFilters | src/app/admin/appointments-component/appointments-component.ts:147-150 | back to page 1, loading starts, and the query for page 1 with the current filters is sent (none when a date filter is not a valid date) |
| AppointmentsList.AppointmentsComponent.ClearFilters | src/app/admin/appointments-component/appointments-component.ts:152-159 | the four filters are emptied and exactly the unfiltered page-1 query is sent |
| UserForm.ChangedData | src/app/admin/users-component/users-form-component/users-form-component.ts:107-124 | the diff built field by field equals `Diff`: first name, last name and role iff they differ from the loaded user (always when none was loaded), the password iff one was typed, never the e-mail |
| UserForm.DiffEmptyIff | src/app/admin/users-component/users-form-component/users-form-component.ts:107-131 | the diff is empty exactly when a user was loaded, no password was typed, and first name, last name and role all equal the loaded user's |
| UserForm.ValidatedPasswordNeverEmpty | src/app/admin/users-component/users-form-component/users-form-component.ts:53-56 | with the password validators installed, a valid form holds a password of at least 6 characters, so its edit-mode diff is never empty whatever user was loaded |
| UserForm.UserFormComponent.constructor | src/app/admin/users-component/users-form-component/users-form-component.ts:19-23 | create mode, no user id, not loading, no loaded user |
| UserForm.UserFormComponent.InitForm | src/app/admin/users-component/users-form-component/users-form-component.ts:48-67 | empty controls with role "secretary"; the password validators are removed only when already in edit mode |
| UserForm.UserFormComponent.NgOnInit | src/app/admin/users-component/users-form-component/users-form-component.ts:36-46 | the form is built before the route id is read, so a component entering edit mode here keeps the password validators |
| UserForm.UserFormComponent.LoadUserData | src/app/admin/users-component/users-form-component/users-form-component.ts:69-70 | loading starts |
| UserForm.UserFormComponent.OnUserLoaded | src/app/admin/users-component/users-form-component/users-form-component.ts:72-84 | the loaded user is remembered and patched into the form, password untouched; e-mail disabled |
| UserForm.UserFormComponent.OnUserLoadError | src/app/admin/users-component/users-form-component/users-form-component.ts:85-90 | the load-error notification is shown and loading ends |
| UserForm.UserFormComponent.OnSubmit | src/app/admin/users-component/users-form-component/users-form-component.ts:94-137 | an invalid form sends nothing, marks the form touched and notifies; a valid one leaves `touched` as it was; in edit mode an empty `Diff` against the loaded user sends nothing, stops loading and notifies, and a non-empty one is sent, exactly, as the update of `userId`; in create mode the raw form, e-mail included, is sent; with the password validators installed a valid submit always sends |
| UserForm.UserFormComponent.OnSaveSuccess | src/app/admin/users-component/users-form-component/users-form-component.ts:140-142 | "Usuario actualizado/creado exitosamente." by mode, loading ends |
| UserForm.UserFormComponent.OnSaveError | src/app/admin/users-component/users-form-component/users-form-component.ts:147-160 | the server's message (array joined, else string), else the mode's default text, is notified; loading ends |
| ServerErrors.ErrorText | src/app/admin/users-component/users-form-component/users-form-component.ts:149-157 | an array message is joined with ", "; a non-empty string is used as is; otherwise the default text |
| ServerErrors.ErrorTextShowsEveryItem | src/app/doctor-presentation/doctor-presentation.ts:212-213 | every entry of an array message appears in the text shown |
| ServerErrors.ErrorTextLength | src/app/doctor-presentation/doctor-presentation.ts:212-213 | the joined text is the entries plus two characters per separator |
| Toasts.DismissDelay | src/app/shared/components/toast-container/toast-container.component.ts:39 | the delay is the duration when it is set and non-zero, 3000 otherwise |
| Toasts.WithoutSpec | src/app/shared/components/toast-container/toast-container.component.ts:50 | removal keeps the other toasts in order, drops every entry with that identity and never lengthens the list |
| Toasts.WithoutAbsent | src/app/shared/components/toast-container/toast-container.component.ts:50 | removing a toast that is not shown leaves the list unchanged |
| Toasts.WithoutTwice | src/app/shared/components/toast-container/toast-container.component.ts:50 | removing the same toast twice equals removing it once |
| Toasts.WithoutCommutes | src/app/shared/components/toast-container/toast-container.component.ts:50 | two removals give the same list in either order |
| Toasts.RemoveAfterAppend | src/app/shared/components/toast-container/toast-container.component.ts:36-51 | removing the toast just appended restores the previous list |
| Toasts.ToastContainer.constructor | src/app/shared/components/toast-container/toast-container.component.ts:30 | the list starts empty |
| Toasts.ToastContainer.OnNotification | src/app/shared/components/toast-container/toast-container.component.ts:36-40 | the notification is appended as a new toast distinct from every toast shown, earlier toasts unchanged, with its dismiss delay |
| Toasts.ToastContainer.RemoveToast | src/app/shared/components/toast-container/toast-container.component.ts:49-51 | the list becomes the list without that toast; it is no longer shown |
| DoctorPresentation.JsRem | src/app/doctor-presentation/doctor-presentation.ts:151 | JavaScript's `%`: Euclidean for a non-negative dividend, the sign of the dividend otherwise |
| DoctorPresentation.NextIndex | src/app/doctor-presentation/doctor-presentation.ts:150-152 | from an index in [0, 5) the next is in [0, 5): one more, or 0 after the last image |
| DoctorPresentation.FullCycle | src/app/doctor-presentation/doctor-presentation.ts:151 | five `nextSlide` steps return an index in range to where it started |
| DoctorPresentation.NegativeIndexClimbs | src/app/doctor-presentation/doctor-presentation.ts:151-157 | after an unchecked negative `goToSlide`, `nextSlide` counts up through negative indexes |
| DoctorPresentation.DoctorPresentation.constructor | src/app/doctor-presentation/doctor-presentation.ts:98 | the carousel starts at image 0 with no messages and nothing loading |
| DoctorPresentation.DoctorPresentation.NextSlide | src/app/doctor-presentation/doctor-presentation.ts:150-152 | the index advances by one modulo 5 and stays in [0, 5) when it started there |
| DoctorPresentation.DoctorPresentation.GoToSlide | src/app/doctor-presentation/doctor-presentation.ts:154-157 | the index is set to exactly the argument, unchecked |
| DoctorPresentation.DoctorPresentation.OnFormSubmittedByPatient | src/app/doctor-presentation/doctor-presentation.ts:183-196 | both messages are cleared; an invalid form sets the validation error and sends nothing; a valid one starts loading and sends one booking |
| DoctorPresentation.DoctorPresentation.OnBookingSuccess | src/app/doctor-presentation/doctor-presentation.ts:197-201 | the success text is shown and loading ends |
| DoctorPresentation.DoctorPresentation.OnBookingError | src/app/doctor-presentation/doctor-presentation.ts:209-221 | the server's message (array joined, else string), else the default text, is shown and loading ends |
| DoctorPresentation.DoctorPresentation.OnSubmitMessageExpired | src/app/doctor-presentation/doctor-presentation.ts:205-207 | the success message is removed |
| DoctorPresentation.DoctorPresentation.OnErrorMessageExpired | src/app/doctor-presentation/doctor-presentation.ts:222-224 | the error message is removed |

## Left out

- HTTP: the services are not modelled. A request is recorded as an entry of `requests` (or the counter `bookingsSent`), and its outcome is a separate method.
- Timers and streams: `setTimeout`, `setInterval`, rxjs `timer`, `debounceTime`, `distinctUntilChanged` and subscription order are not modelled. The carousel autoplay restarted by `goToSlide` is one of these. The delayed navigations after saving a user are another.
- UsersList.UsersComponent.OnFilterTextChanged: models only the subscriber's body. The stream feeding it is not modelled: `debounceTime(300)` then `distinctUntilChanged()` over a `Subject<void>`, where every event carries `undefined`, so only the first filter change ever reaches the subscriber.
- DOM, routing and UI are not modelled: scrolling, `IntersectionObserver`, focus, `confirm()`, `router.navigate`, the templates and `markAllAsTouched` beyond a `touched` flag.
- `Validators.email` is an opaque predicate (`isEmail`). The booking form's own validators are not modelled, because its `onSubmit` is not part of the model.
- The booking form's `onSubmit` (appointment-form.ts lines 252-315) is not modelled. It builds a `Date` from a text template and posts it. That is platform date parsing and HTTP.
- Availability: the date key of a booking and of "today" is the UTC date while booked and offered times are local clock labels, and the model keeps this as written rather than correcting it. West of UTC, an evening booking blocks its time on the next date, so the same slot can be booked twice on its own day (`EveningBookingNotBlocked`). In the evening, "today" is already the next date, so the local today's past slots are offered and the next day's early slots are hidden (`EveningTodayShift`). A booking at local time T on local day D blocking exactly T on D is therefore not promised.
- Platform dates are not modelled. `toISOString`, `toLocaleTimeString`, `setHours`/`setDate` (month rollover) and DST are conversions inside `Platform` and `LocalTime`. `LocalTime` takes the local wall-clock time of day, so a day made 23 or 25 hours long by DST is left to it.
  - "Later than now" for today compares milliseconds since local midnight, which ignores a DST change earlier on the same day.
  - The successive `new Date()` calls inside one handler are taken as one instant `now`.
- Instants are always valid numbers. A record whose date is invalid would make `toISOString` throw and abort the whole snapshot. The code does not skip it, and the model does not represent it.
- Text.NumberOf: models `Number` only for the empty string and plain decimal digit strings. Signs, spaces, decimals and exponents are all read as NaN, which is enough for the slot labels and `<input type="date">` values the components pass.
- Text.ToLower: lower-cases only ASCII letters; JavaScript's Unicode case mapping (accented capitals and the like) is not modelled.
- `getTranslatedStatus` on keys inherited from `Object.prototype` (for example `"constructor"`) is not modelled. The table is a plain map.
- Server error bodies whose `message` is neither a string nor an array of strings (for example a number or an object) are not modelled.
- The doc comment of `generateAllPossibleTimes` says 9:00–17:00. The model follows the code, which produces 16:30–20:00.
- `resetForm()` on the booking form after a successful booking is not modelled. The booking form component does not define it.
- `isAdmin`/`checkUserRole`, `deleteUser`, `editUser`, `editAppointment`, `deleteAppointment`, `onCancel`, `ngOnDestroy` and `scrollServices` are not modelled. They are role lookups, confirmation dialogs, navigation and DOM calls.
- `appointments` keeps the rows as received. Re-wrapping `scheduledDateTime`/`preferredDateTime` in `Date` objects is the identity on instants.
- Numbers are unbounded integers: page arithmetic and indexes far beyond 2^53 are not modelled.
