# medisynq portal core, modelled in Dafny

medisynq is a small healthcare portal: patients sign up, log in, book
appointments, keep a profile and upload medical files; doctors book
appointments for their patients, see their patients and their files, and
upload files into a patient's folder. The pages run in the browser and talk
to a hosted back end (tables `appointments`, `records` and `profiles`, a file
storage bucket `ehr-files`, and an authentication service). A middleware
decides which dashboard paths a session may open.

This project models the logic of those pages and of the middleware:

- `Store` holds the three tables as sequences of rows in one `Database` object
  and the storage bucket as a `Storage` object. Every write a page issues is a
  method that takes the call's outcome (`fails`) as a parameter, so that the
  error paths are modelled as well as the happy path. The queries the pages
  run (filters by id, status and date, `.single()`, `created_at` ordering,
  the doctor-name join) are functions with contracts over those rows.
- `Auth` is the authentication service as a log of the calls made to it
  (sign-ups, reset e-mails, password updates, metadata roles).
- One module per page. A page with React state is a class whose fields are
  that state. Each handler or effect is a method that states the page's whole
  new state and the tables' new contents in terms of the old ones. Pure
  helpers (the validators, the slot generator, the status filter, pagination,
  the file-name rules, `getSiteUrl`, the middleware rule) are functions with
  lemmas about them.

Clocks (`Date.now()`), the session, the outcome of every remote call, the
date formatter and the URL signer are parameters. Instants are integers.
Strings are sequences of characters.

## Model

| member | source | states |
|---|---|---|
| `TimeSlots.GenerateTimeSlots` | pages/dashboard/doctor/book-appointment.tsx:15-23 | the generator loop yields exactly the slot list: for each hour 9..13 the ":00" and ":30" labels, then "14:00" |
| `TimeSlots.Pad2` | pages/dashboard/doctor/book-appointment.tsx:18-19 | `padStart(2, '0')` gives two digits whose decimal value is the hour |
| `TimeSlots.LabelRoundTrip` | pages/dashboard/doctor/book-appointment.tsx:18-19 | reading an "HH:MM" label back gives the minute of the day it was built from |
| `TimeSlots.OnTheHalfHour` | pages/dashboard/patient/BookAppointmentModal.tsx:20-21 | "HH:00" and "HH:30" built from an hour are well formed and name minute 60h and 60h+30 |
| `TimeSlots.HourLabels` | pages/dashboard/doctor/book-appointment.tsx:17-21 | the two labels pushed for an hour sit at positions 2(h-9) and 2(h-9)+1, and "14:00" is last |
| `TimeSlots.SlotLabelsAreTheHalfHours` | pages/dashboard/patient/BookAppointmentModal.tsx:16-25 | the generated list, written out: the eleven half hours from 09:00 to 14:00, each in its place |
| `TimeSlots.SlotLabelsShape` | pages/dashboard/patient/BookAppointmentModal.tsx:16-25 | eleven well-formed labels on the hour or half hour, the i-th at minute 540+30i, strictly increasing from 9:00 to 14:00 |
| `TimeSlots.SlotLabelAt` | pages/dashboard/patient/BookAppointmentModal.tsx:17-25 | the i-th generated label is well formed, names minute 540+30i and ends in "00" or "30" |
| `TimeSlots.SlotLabelsDistinct` | pages/dashboard/patient/BookAppointmentModal.tsx:17-25 | no slot label appears twice |
| `TimeSlots.AvailableSlots` | pages/dashboard/doctor/book-appointment.tsx:118-120 | the available slots are exactly the slots not among the booked labels, taken from the slot list |
| `TimeSlots.RemoveBookedLabel` | pages/dashboard/doctor/book-appointment.tsx:118-120 | in a list without repeats, one booked label removes exactly that entry and keeps the rest in order |
| `TimeSlots.FilterDropsOne` | pages/dashboard/doctor/book-appointment.tsx:118-120 | a filter that keeps everything but one entry leaves the entries before and after it, in order |
| `TimeSlots.OneBookedLabelRemovesOneSlot` | pages/dashboard/doctor/book-appointment.tsx:100-104 | on the doctor screen a booked "HH:MM" time removes exactly its slot |
| `TimeSlots.LongerLabelsRemoveNothing` | pages/dashboard/patient/BookAppointmentModal.tsx:96-98 | booked labels of another length than five characters never match a slot, so nothing is removed |
| `TimeSlots.TwelveHourLabelsRemoveNothing` | pages/dashboard/patient/BookAppointmentModal.tsx:81-84 | the patient dialog formats booked times as 12-hour "hh:mm AM/PM" labels, so its filter never removes a slot |
| `DoctorBooking.Admission` | pages/dashboard/doctor/book-appointment.tsx:124-180 | the checks of `handleSubmit` in their order, as a definition with no contract of its own; `AdmissionMeaning` states which verdict each input reaches |
| `DoctorBooking.AdmissionMeaning` | pages/dashboard/doctor/book-appointment.tsx:124-180 | the checks admit a booking exactly when both ids are present, both queries succeed, the patient has no upcoming appointment and the doctor has none at that instant; 'missing ids' exactly when an id is absent or empty, a failed patient query exactly when it is the first to fail, a failed doctor query exactly when the patient query passed with no upcoming row; each refusal names its first failing check |
| `DoctorBooking.PatientBusyMessage` | pages/dashboard/doctor/book-appointment.tsx:150-155 | the doctor screen's conflict message: `Store.ConflictMessage` with this screen's opening and closing, so it names the date of the patient's first upcoming appointment |
| `DoctorBooking.PatientCheckComesFirst` | pages/dashboard/doctor/book-appointment.tsx:136-159 | a patient with an upcoming appointment is refused before the doctor's calendar is consulted, whatever that check would say |
| `DoctorBooking.AdmittedBookingIsTheOnlyUpcoming` | pages/dashboard/doctor/book-appointment.tsx:136-193 | after an admitted booking the patient has exactly one upcoming appointment, and the doctor exactly one at that instant |
| `DoctorBooking.CompanionUpsertEffect` | pages/dashboard/doctor/book-appointment.tsx:203-247 | with a successful lookup: a pair without a record gets exactly one record appended, with the next id, no file and `created_at` and `updated_at` both `now`, and the earlier rows stay; a pair with one keeps every row, and only its first record changes, its `updated_at` becoming `now` |
| `DoctorBooking.CompanionInserted` | pages/dashboard/doctor/book-appointment.tsx:217-235 | a pair without a record: the earlier rows stay, and one row is appended with the next id, the pair, no file, no summaries and `created_at` = `updated_at` = `now`; it is the pair's only record |
| `DoctorBooking.CompanionTouched` | pages/dashboard/doctor/book-appointment.tsx:236-247 | a pair with a record: the table keeps its length, the first record of the pair becomes itself with `updated_at` = `now`, and every other row stays as it was |
| `DoctorBooking.FailedLookupDuplicatesCompanion` | pages/dashboard/doctor/book-appointment.tsx:212-227 | a failed lookup reads as "no record", so a pair that had one record ends with two |
| `DoctorBooking.CompanionUpsert` | pages/dashboard/doctor/book-appointment.tsx:203-247 | a failed write leaves the table as it was; otherwise the rows keep everything but `updated_at`, and at most one row is appended, the fresh companion record (next id, the pair, no file, both timestamps `now`); a failed lookup always appends it |
| `DoctorBooking.ErrorAfter` | pages/dashboard/doctor/book-appointment.tsx:124-254 | no error exactly when the booking was admitted and the insert succeeded; the conflict message contains the formatted date of the patient's upcoming appointment |
| `DoctorBooking.InsertError` | pages/dashboard/doctor/book-appointment.tsx:194-254 | no error exactly when the insert succeeded; a failed insert shows its own non-empty message, or the generic one when that is empty, and never an empty message |
| `DoctorBooking.DoctorBookingPage.constructor` | pages/dashboard/doctor/book-appointment.tsx:29-37 | the screen starts with no error, not submitting and not redirected |
| `DoctorBooking.DoctorBookingPage.HandleSubmit` | pages/dashboard/doctor/book-appointment.tsx:122-258 | a refused submission leaves both tables as they were and shows its message; an admitted one with a successful insert appends the new upcoming appointment with the next id, runs the companion step and redirects; a failed insert writes nothing and shows its error; submitting ends false except when the ids are missing |
| `DoctorBooking.DoctorBookingPage.PressSubmit` | pages/dashboard/doctor/book-appointment.tsx:383 | a press while the button is disabled (submitting, or a missing date, time or reason) changes nothing, on the screen or in the tables; an enabled press is the submit handler, with the tables, error and redirect it states, and ends with submitting false |
| `DoctorBooking.DoctorBookingPage.CheckAdmission` | pages/dashboard/doctor/book-appointment.tsx:124-180 | the checks only read the table and reach the verdict `Admission` defines |
| `DoctorBooking.DoctorBookingPage.Respond` | pages/dashboard/doctor/book-appointment.tsx:143-257 | for each verdict, the error shown and the tables after it; only an admitted verdict with a successful insert writes |
| `DoctorBooking.DoctorBookingPage.Submit` | pages/dashboard/doctor/book-appointment.tsx:128-256 | the admitted path from `setSubmitting(true)` to the `finally` clause: the tables and error of the insert and companion step, a redirect exactly when the insert succeeds, submitting cleared |
| `DoctorBooking.DoctorBookingPage.TurnAway` | pages/dashboard/doctor/book-appointment.tsx:128-179 | a refusal after the id check shows that refusal's message, the same as the verdict's error whatever the insert would have done, and ends with submitting cleared |
| `DoctorBooking.DoctorBookingPage.Begin` | pages/dashboard/doctor/book-appointment.tsx:128-129 | submitting is set and the error cleared; the ids and the redirect are untouched |
| `DoctorBooking.DoctorBookingPage.Reject` | pages/dashboard/doctor/book-appointment.tsx:143-179 | each refusal sets exactly its own message |
| `DoctorBooking.DoctorBookingPage.Finish` | pages/dashboard/doctor/book-appointment.tsx:255-256 | the `finally` clause clears submitting and changes nothing else |
| `DoctorBooking.DoctorBookingPage.Book` | pages/dashboard/doctor/book-appointment.tsx:183-250 | the insert appends the row with the store's next id; the companion step runs only after a successful insert; the redirect happens exactly when the insert succeeds |
| `DoctorBooking.DoctorBookingPage.ReportInsertFailure` | pages/dashboard/doctor/book-appointment.tsx:194-254 | after a failed insert the message left is the insert's own, or the catch's generic text when that is empty |
| `DoctorBooking.DoctorBookingPage.Redirect` | pages/dashboard/doctor/book-appointment.tsx:249-250 | the redirect after a booking; error and submitting are untouched |
| `DoctorBooking.DoctorBookingPage.UpsertCompanion` | pages/dashboard/doctor/book-appointment.tsx:203-247 | the records table becomes the companion upsert of the pair; the other tables are unchanged |
| `PatientBooking.Admission` | pages/dashboard/patient/BookAppointmentModal.tsx:106-137 | the checks of `handleSubmit` in their order, as a definition with no contract of its own; `AdmissionMeaning` states which verdict each input reaches |
| `PatientBooking.AdmissionMeaning` | pages/dashboard/patient/BookAppointmentModal.tsx:106-137 | a booking is accepted exactly when someone is logged in, the check succeeds and the patient has no upcoming appointment; 'not logged in' exactly without a session; an already-booked refusal names one of the patient's upcoming appointments |
| `PatientBooking.NoDoctorSlotCheck` | pages/dashboard/patient/BookAppointmentModal.tsx:118-148 | the dialog never looks at the doctor's calendar: a patient with no appointment rows is accepted whatever the other rows hold, even a taken slot |
| `PatientBooking.AlreadyBookedMessage` | pages/dashboard/patient/BookAppointmentModal.tsx:131-137 | the patient dialog's conflict message: `Store.ConflictMessage` with this dialog's opening and closing (line break, eight spaces, line break), so it names the date of the first upcoming appointment |
| `PatientBooking.RecordsAfterBooking` | pages/dashboard/patient/BookAppointmentModal.tsx:172-269 | the records step after a successful insert, as a definition with no contract of its own; `RecordsAfterBookingOutcomes` states its outcomes |
| `PatientBooking.ErrorWithoutBooking` | pages/dashboard/patient/BookAppointmentModal.tsx:105-272 | the error a refused or failed booking leaves, as a definition with no contract of its own; `ErrorWithoutBookingMeaning` states its values |
| `PatientBooking.RecordsAfterBookingOutcomes` | pages/dashboard/patient/BookAppointmentModal.tsx:172-269 | a failed fetch leaves the records and shows its message without closing; the dialog closes exactly when the fetch works and the patient has records, and then every row keeps its id, patient and file; a patient without records gets exactly one appended row (the patient, the selected doctor, the next id) unless the insert fails, in which case nothing changes |
| `PatientBooking.ErrorWithoutBookingMeaning` | pages/dashboard/patient/BookAppointmentModal.tsx:105-272 | no error exactly when the booking is accepted and the insert succeeds; 'already booked' shows the conflict message, which contains the formatted date; a thrown non-`Error` value shows the generic message |
| `PatientBooking.BookingModal.constructor` | pages/dashboard/patient/BookAppointmentModal.tsx:28-36 | the dialog starts with no error, not submitting and open |
| `PatientBooking.BookingModal.HandleSubmit` | pages/dashboard/patient/BookAppointmentModal.tsx:100-276 | a refused or failed booking writes nothing and shows its message; an accepted one appends the upcoming appointment and then the records step decides records, error and whether the dialog closes; submitting ends false |
| `PatientBooking.BookingModal.Respond` | pages/dashboard/patient/BookAppointmentModal.tsx:105-275 | for each verdict, the tables, the error shown and whether the dialog closed |
| `PatientBooking.BookingModal.Submit` | pages/dashboard/patient/BookAppointmentModal.tsx:102-275 | an accepted booking: a failed insert writes nothing, leaves the dialog open and shows the thrown error's message or the generic one; a successful insert appends the appointment with the next id and the records step decides the records, the error and the closing; submitting ends false |
| `PatientBooking.BookingModal.TurnAway` | pages/dashboard/patient/BookAppointmentModal.tsx:102-137 | a refused submission writes nothing, keeps the dialog open, shows the verdict's error and ends with submitting cleared |
| `PatientBooking.BookingModal.Begin` | pages/dashboard/patient/BookAppointmentModal.tsx:102-103 | submitting is set and the error cleared; the selected doctor and the open state are untouched |
| `PatientBooking.BookingModal.Finish` | pages/dashboard/patient/BookAppointmentModal.tsx:273-274 | the `finally` clause clears submitting and changes nothing else |
| `PatientBooking.BookingModal.Reject` | pages/dashboard/patient/BookAppointmentModal.tsx:107-137 | a refused submission only sets the refusal's message |
| `PatientBooking.BookingModal.CheckAdmission` | pages/dashboard/patient/BookAppointmentModal.tsx:106-137 | the checks only read the table and reach the verdict `Admission` defines |
| `PatientBooking.BookingModal.Book` | pages/dashboard/patient/BookAppointmentModal.tsx:139-269 | a failed insert writes nothing and shows the rethrown error's message; a successful one appends the row with the next id and runs the records step |
| `PatientBooking.BookingModal.UpdateRecords` | pages/dashboard/patient/BookAppointmentModal.tsx:172-269 | the records table, the error and the closing are those of the records step |
| `PatientBooking.BookingModal.Close` | pages/dashboard/patient/BookAppointmentModal.tsx:254-269 | a positive failure count is reported, otherwise the error is kept; the dialog closes |
| `PatientBooking.BookingModal.RetargetAll` | pages/dashboard/patient/BookAppointmentModal.tsx:229-257 | the per-record updates together set the selected doctor and `updated_at` on exactly the records whose update succeeded, and the failures are counted |
| `PatientBooking.RetargetedPrefixIsUpdate` | pages/dashboard/patient/BookAppointmentModal.tsx:229-248 | the updates applied one at a time equal one update of all the ids whose update succeeded |
| `PatientBooking.IdsOfStep` | pages/dashboard/patient/BookAppointmentModal.tsx:229-245 | one more record adds its id to the updated ids exactly when its update succeeds |
| `PatientBooking.FailedCountStep` | pages/dashboard/patient/BookAppointmentModal.tsx:251-256 | one more record adds one to the failure count exactly when its update fails |
| `PatientBooking.RetargetAgain` | pages/dashboard/patient/BookAppointmentModal.tsx:237-244 | updating one more id after a set of ids is updating the set with that id |
| `PatientBooking.RetargetedRecords` | pages/dashboard/patient/BookAppointmentModal.tsx:229-257 | each of the patient's records whose update succeeded names the selected doctor with `updated_at` now; every other row is as it was |
| `PatientBooking.FirstBookingCreatesOneRecord` | pages/dashboard/patient/BookAppointmentModal.tsx:194-216 | a patient without records gets exactly one record, for the selected doctor, and the dialog stays open |
| `PatientBooking.UpdateFailureReported` | pages/dashboard/patient/BookAppointmentModal.tsx:251-269 | the message counts exactly the records whose update failed, there is none exactly when none failed, and the dialog closes |
| `AppointmentList.GetStatus` | pages/dashboard/patient/AppointmentsTab.tsx:69-75 | a stored 'cancelled' reads Cancelled; otherwise Upcoming exactly when `appointment_date` is set and after now, and Completed when it is null or not after now |
| `AppointmentList.LowerChar` | pages/dashboard/patient/AppointmentsTab.tsx:79 | `toLowerCase` on one ASCII character: upper-case letters move to lower case, others stay |
| `AppointmentList.Lower` | pages/dashboard/patient/AppointmentsTab.tsx:79 | `toLowerCase` keeps the length, leaves no upper-case letter, and leaves text without upper-case letters as it is |
| `AppointmentList.Passes` | pages/dashboard/patient/AppointmentsTab.tsx:78-81 | 'all' lets every row through; 'upcoming', 'completed' and 'cancelled' let through exactly the rows whose derived status is that one |
| `AppointmentList.LowerLabels` | pages/dashboard/patient/AppointmentsTab.tsx:79-81 | the lower-cased status labels are the filter values 'upcoming', 'completed', 'cancelled' |
| `AppointmentList.Filtered` | pages/dashboard/patient/AppointmentsTab.tsx:78-82 | the filtered list holds exactly the rows that pass the filter |
| `AppointmentList.AllKeepsEverything` | pages/dashboard/patient/AppointmentsTab.tsx:80 | filter 'all' keeps the list as it is |
| `AppointmentList.FilterByStatus` | pages/dashboard/patient/AppointmentsTab.tsx:78-82 | a status filter keeps exactly the rows with that derived status |
| `AppointmentList.UnknownFilterKeepsNothing` | pages/dashboard/patient/AppointmentsTab.tsx:78-82 | a filter value other than 'all' and the three statuses keeps nothing |
| `AppointmentList.TotalPages` | pages/dashboard/patient/AppointmentsTab.tsx:85 | `Math.ceil(n / 5)`: the fewest pages of five that hold n rows |
| `AppointmentList.Clamp` | pages/dashboard/patient/AppointmentsTab.tsx:86 | `slice`'s bound rule: a bound inside the list is kept, a negative one becomes 0, one past the end becomes the length |
| `AppointmentList.Slice` | pages/dashboard/patient/AppointmentsTab.tsx:86 | `Array.prototype.slice`: bounds inside the list give that segment, an end past the list stops at its end, an end not after the start gives nothing, and never more rows than the list |
| `AppointmentList.Page` | pages/dashboard/patient/AppointmentsTab.tsx:86 | page p (p at least 1) holds at most five rows, each a row of the filtered list |
| `AppointmentList.PageShape` | pages/dashboard/patient/AppointmentsTab.tsx:86 | page p is the rows between 5(p-1) and 5p, at most five rows, and empty past the end |
| `AppointmentList.PagesUpToPrefix` | pages/dashboard/patient/AppointmentsTab.tsx:85-86 | pages 1 to k, one after the other, are the first 5k rows |
| `AppointmentList.PagesCoverList` | pages/dashboard/patient/AppointmentsTab.tsx:85-86 | pages 1 to `totalPages` together give back the whole filtered list |
| `AppointmentList.ActionsOfferedMeaning` | pages/dashboard/patient/AppointmentsTab.tsx:231 | Reschedule and Cancel are offered exactly for rows dated after now whose status does not contain 'cancelled' |
| `AppointmentList.InsertByDate` | pages/dashboard/patient/AppointmentsTab.tsx:48 | inserting a row into a date-ordered list keeps it ordered and adds only that row |
| `AppointmentList.InsertByDateCounts` | pages/dashboard/patient/AppointmentsTab.tsx:48 | the insertion adds exactly one copy of the row |
| `AppointmentList.HeadBelowRest` | pages/dashboard/patient/AppointmentsTab.tsx:48 | the head of an ordered list is not later than anything inserted behind it |
| `AppointmentList.OrderByDate` | pages/dashboard/patient/AppointmentsTab.tsx:48 | `.order('appointment_date', ascending)` gives the same rows in ascending `appointment_date` order, rows with a null date last |
| `AppointmentList.Listing` | pages/dashboard/patient/AppointmentsTab.tsx:41-55 | one listed row per appointment of the patient |
| `AppointmentList.ListingMeaning` | pages/dashboard/patient/AppointmentsTab.tsx:41-55 | the loaded list holds exactly the patient's rows, as often as the table does, in ascending date order |
| `AppointmentList.ListedDoctorNames` | pages/dashboard/patient/AppointmentsTab.tsx:45-54 | each listed row's doctor name is the doctor's joined full name when the doctor's profile has a non-empty one, and 'Unknown Doctor' when that name is empty or no profile has the doctor's id |
| `AppointmentList.AppointmentsTab.constructor` | pages/dashboard/patient/AppointmentsTab.tsx:23-27 | empty list, loading, no error, page 1, filter 'all' |
| `AppointmentList.AppointmentsTab.FetchAppointments` | pages/dashboard/patient/AppointmentsTab.tsx:36-62 | without a session nothing changes; a failed read sets the load error and keeps the list; otherwise the list is the patient's listing; loading ends false |
| `AppointmentList.AppointmentsTab.HandleCancel` | pages/dashboard/patient/AppointmentsTab.tsx:89-100 | only the row's status becomes 'cancelled', and only when the update succeeds; a failed update or no session keeps the list and the error; a failed reload keeps the list and shows the load error; a successful one shows the patient's new listing; loading ends false |
| `AppointmentList.AppointmentsTab.HandleReschedule` | pages/dashboard/patient/AppointmentsTab.tsx:103-114 | only the row's `appointment_date` changes (not `date`), with no check of the doctor's calendar, and only when the update succeeds; the list, the error and loading then behave as after a cancel |
| `AppointmentList.AppointmentsTab.ChangeFilter` | pages/dashboard/patient/AppointmentsTab.tsx:188 | choosing a filter sets it and goes back to page 1 |
| `AppointmentList.CancelledRowReadsCancelled` | pages/dashboard/patient/AppointmentsTab.tsx:89-94 | after a cancel the row reads Cancelled whatever its date, and every other row keeps its status |
| `AppointmentList.UndatedRowReadsCompleted` | pages/dashboard/patient/AppointmentsTab.tsx:69-75 | a row without `appointment_date` that is not cancelled reads Completed and offers no Reschedule or Cancel, which is every row the booking screens create |
| `AppointmentList.RescheduledRowStatus` | pages/dashboard/patient/AppointmentsTab.tsx:103-108 | after a reschedule the row is Upcoming exactly when it is not cancelled and the new date is after now; its status, doctor and `date` column stay |
| `Validators.EmailShape` | pages/signup.tsx:36 | `/.+@.+\..+/` as a definition with no contract of its own: an '@' and a later '.' with at least one character before the '@', between the two and after the '.', none of those characters around and between them a line terminator |
| `Validators.ValidEmail` | pages/signup.tsx:35-37 | `validateEmail` as a definition with no contract of its own: the shape above and '.com' somewhere; what it accepts is stated by `EmailExamples` and `ValidEmailExtends` |
| `Validators.ValidEmailExtends` | pages/login.tsx:8-10 | the e-mail check looks for a piece of the text, so text around a valid address keeps it valid |
| `Validators.EmailExamples` | pages/signup.tsx:35-37 | "a@b.com" and "x@y.co.uk.com" pass; "a@b.org" and "@b.com" fail |
| `Validators.ValidPassword` | pages/signup.tsx:39-41 | `validatePassword` as a definition with no contract of its own: at least eight characters, none a line terminator, with a lower-case letter, an upper-case letter, a digit and another character; stated by `PasswordExamples` and `ValidPasswordExtends` |
| `Validators.ValidPasswordExtends` | pages/signup.tsx:39-41 | adding characters other than line terminators to a strong password keeps it strong |
| `Validators.PasswordExamples` | pages/auth/reset-password.tsx:22-24 | "Abcdef1!" passes; without its capital or at seven characters it fails |
| `Validators.Digits` | pages/signup.tsx:193 | `replace(/\D/g, '')`: the result is all digits, every digit of the input is in it, and an all-digit input comes back unchanged |
| `Validators.DigitsAppend` | pages/signup.tsx:193 | the digits of two joined pieces are the digits of the first followed by those of the second, so every digit is kept, in order |
| `Validators.DigitsOfChar` | pages/signup.tsx:193 | one character gives itself when it is a digit and nothing otherwise |
| `Validators.SanitizePhone` | pages/signup.tsx:193 | the phone input keeps at most ten characters, all digits, the first digits typed |
| `Validators.SanitizedPhoneValidIff` | pages/signup.tsx:222 | a sanitised phone passes `validatePhone` exactly when at least ten digits were typed |
| `Validators.SanitizeIdempotent` | pages/signup.tsx:193 | sanitising twice is sanitising once |
| `Validators.SanitizeKeepsValidPhone` | pages/signup.tsx:43-45 | a valid phone number passes the sanitiser unchanged |
| `Validators.ValidPhone` | pages/signup.tsx:43-45 | `validatePhone` as a definition with no contract of its own: exactly ten digits; stated by `ValidPhoneIsTenKeptDigits` and `SanitizedPhoneValidIff` |
| `Validators.ValidPhoneIsTenKeptDigits` | pages/signup.tsx:43-45 | `/^\d{10}$/`: a phone passes exactly when it is ten characters long and the digit filter keeps all of it |
| `Signup.Filled` | pages/signup.tsx:53-56 | the required-field check as a definition with no contract of its own: all nine fields non-empty; `SignupError` states that its failure, and only it, shows 'Please fill all required fields.' |
| `Signup.SignupError` | pages/signup.tsx:47-72 | each message is shown exactly when all earlier checks pass and its own fails; none exactly when all pass |
| `Signup.SanitizedPhonesPassIff` | pages/signup.tsx:65-72 | with sanitised phone fields, the form passes exactly when at least ten digits were typed in each |
| `Signup.HistoryPathInjective` | pages/signup.tsx:78 | distinct (time, name) pairs give distinct history-file paths |
| `Signup.Metadata` | pages/signup.tsx:94-108 | the sign-up metadata always says role 'patient' and carries the uploaded file's URL |
| `Signup.SignupPage.constructor` | pages/signup.tsx:10-27 | not loading, no messages, not redirected |
| `Signup.SignupPage.HandleSignup` | pages/signup.tsx:47-121 | a failed check shows its message and neither uploads nor signs up; a failed upload stops before the sign-up; otherwise exactly one sign-up with role 'patient' and the file URL is sent, and its outcome decides between the error and the move to '/login' |
| `Auth.AuthService.SignUp` | pages/signup.tsx:90-111 | the request is logged whatever its outcome; nothing else changes |
| `Auth.AuthService.RequestReset` | pages/forgot-password.tsx:34-36 | the reset request is logged; nothing else changes |
| `Auth.AuthService.UpdatePassword` | pages/auth/reset-password.tsx:43-45 | the new password is logged; nothing else changes |
| `Auth.AuthService.UpdateRole` | pages/login.tsx:70-74 | a successful call sets the user's metadata role; a failed one changes nothing |
| `Login.UserErrorMessage` | pages/login.tsx:51-55 | the user error's own message, or 'User not found' when it has none |
| `Login.ProfileRole` | pages/login.tsx:61-67 | a role is read exactly when the lookup succeeds and exactly one profile row has the user's id (`.single()`), and it is then that row's role |
| `Login.Destination` | pages/login.tsx:85-91 | role 'doctor' goes to the doctor dashboard, 'patient' to the patient dashboard, any other role nowhere |
| `Login.ResolvedRoleMeaning` | pages/login.tsx:57-81 | a truthy metadata role is used; otherwise a failed lookup or write-back leaves no role; a role found comes from the user's profile row; a falsy metadata role, a non-empty role from the lookup and a successful write-back give exactly the looked-up role |
| `Login.ProfileRoleNeedsWriteBack` | pages/login.tsx:69-77 | a user known only to the profiles as a doctor reaches the doctor dashboard only when the write-back succeeds |
| `Login.WrittenBack` | pages/login.tsx:69-77 | the metadata changes exactly when the role came from the profile and the write-back succeeded |
| `Login.LoginPage.constructor` | pages/login.tsx:13-18 | not loading, no messages, nowhere to go |
| `Login.LoginPage.HandleLogin` | pages/login.tsx:27-92 | a second submission while loading does nothing; an invalid e-mail shows the validation message; each failure shows its message; otherwise the resolved role picks the dashboard or the support message |
| `Login.LoginPage.LookUpRole` | pages/login.tsx:57-81 | the role returned is the resolved role, and the metadata is written back as `WrittenBack` says |
| `SiteUrl.GetSiteUrl` | lib/utils.ts:1-24 | never empty; the local server exactly in development or when the site URL says so; a set site URL verbatim; otherwise "https://" followed by the Vercel URL when that is set, and the fixed fallback address when it is not |
| `SiteUrl.HigherPriorityWins` | lib/utils.ts:8-15 | once a variable decides the choice, the later ones do not matter |
| `SiteUrl.VercelOrFallback` | lib/utils.ts:18-23 | outside development and without a site URL, the fallback address comes out exactly when no Vercel URL is set or it names the fallback host |
| `PasswordReset.ForgotPasswordPage.constructor` | pages/forgot-password.tsx:13-17 | not loading, no messages |
| `PasswordReset.ForgotPasswordPage.HandleReset` | pages/forgot-password.tsx:24-43 | an invalid e-mail sends nothing; otherwise one reset request linking to '/auth/reset-password' of the site is sent and its outcome sets the error or the success message |
| `PasswordReset.ResetError` | pages/auth/reset-password.tsx:26-40 | the strength message exactly when the password is weak; the mismatch message exactly when strong and unconfirmed |
| `PasswordReset.WeakPasswordReportedFirst` | pages/auth/reset-password.tsx:32-35 | a weak password is reported as weak whatever the confirmation holds |
| `PasswordReset.ResetPasswordPage.constructor` | pages/auth/reset-password.tsx:9-14 | not loading, no messages, no redirect scheduled |
| `PasswordReset.ResetPasswordPage.HandleReset` | pages/auth/reset-password.tsx:26-56 | a failed check sends nothing; otherwise one password update is sent and success schedules the move to '/login' |
| `Middleware.Gate` | middleware.ts:16-26 | paths outside '/dashboard' continue; a dashboard path without a session goes home; a patient or doctor area is reached only by that role |
| `Middleware.RootMiddleware` | middleware.ts:5-27 | in development a '/_next' path continues without a session lookup; every other request looks up the session and applies the gate |
| `Middleware.PagesMiddleware` | pages/middleware.ts:5-21 | always looks up the session, then applies the gate |
| `Middleware.NextPathsAreNotDashboard` | middleware.ts:7-9 | a '/_next' path never starts with '/dashboard' |
| `Middleware.VariantsAgree` | pages/middleware.ts:10-20 | the two middleware variants decide alike on every request |
| `Middleware.DoctorAppointmentsNeedsDoctor` | middleware.ts:22-23 | '/dashboard/doctor-appointments' is reached only by a doctor session |
| `Middleware.RolesReachTheirOwnArea` | middleware.ts:17-24 | a patient reaches every patient path and a doctor every doctor path |
| `Middleware.OtherDashboardPathsNeedSession` | middleware.ts:17-24 | a dashboard path under neither role prefix needs only a session |
| `Middleware.AppointmentsPageNeedsSession` | middleware.ts:17-18 | '/dashboard/appointments' is reached by any session |
| `ProfileTab.FormOf` | pages/dashboard/patient/ProfileTab.tsx:61-64 | without a profile the form is empty; saving the form seeded from a profile gives that profile back |
| `ProfileTab.WithField` | pages/dashboard/patient/ProfileTab.tsx:166-225 | typing in one input changes that field of the form only |
| `ProfileTab.SavedProfile` | pages/dashboard/patient/ProfileTab.tsx:93-100 | the local profile after a save is the profile with the five fields patched, and stays missing when it was missing |
| `ProfileTab.SavingUneditedFormChangesNothing` | pages/dashboard/patient/ProfileTab.tsx:57-100 | saving an unedited form leaves the local profile as it was |
| `ProfileTab.SavedProfileMatchesRow` | pages/dashboard/patient/ProfileTab.tsx:73-100 | after a save the local profile equals the patched table row |
| `ProfileTab.ProfileTabView.constructor` | pages/dashboard/patient/ProfileTab.tsx:19-24 | no profile, loading, no error, not editing, empty form |
| `ProfileTab.ProfileTabView.FetchProfile` | pages/dashboard/patient/ProfileTab.tsx:28-55 | without a session go to '/login'; a failed load shows the error; otherwise profile and form are the user's row |
| `ProfileTab.ProfileTabView.HandleEdit` | pages/dashboard/patient/ProfileTab.tsx:57-59 | editing starts and nothing else changes |
| `ProfileTab.ProfileTabView.ChangeField` | pages/dashboard/patient/ProfileTab.tsx:166-225 | the form changes in one field only |
| `ProfileTab.ProfileTabView.HandleCancel` | pages/dashboard/patient/ProfileTab.tsx:61-64 | editing ends and the form is reset from the profile |
| `ProfileTab.ProfileTabView.HandleSave` | pages/dashboard/patient/ProfileTab.tsx:66-108 | without a session nothing is sent and 'Not authenticated' shows; a failed update changes nothing and shows its message; otherwise the user's row and the local profile take the five form fields and editing ends |
| `MyPatients.ToCard` | pages/dashboard/doctor/MyPatientsTab.tsx:144-154 | a card keeps the id; its name is the row's name when set and 'Unknown Patient' otherwise; email, phone, date of birth and gender are the row's value when set and '' otherwise; its appointments and records are the row's when present and empty otherwise; it counts the records it holds |
| `MyPatients.ActiveAppointmentsOf` | pages/dashboard/doctor/MyPatientsTab.tsx:64-69 | exactly the doctor's upcoming or completed appointments that are not cancelled |
| `MyPatients.UniquePatientIds` | pages/dashboard/doctor/MyPatientsTab.tsx:81 | an id is in the list exactly when it is non-empty and some appointment has it as its patient id, and no id appears twice |
| `MyPatients.HasStatus` | pages/dashboard/doctor/MyPatientsTab.tsx:205-210 | `some(a => a.status === s)`: some appointment has that status |
| `MyPatients.Badges` | pages/dashboard/doctor/MyPatientsTab.tsx:205-210 | the Upcoming and Completed badges show exactly when some appointment has that status |
| `MyPatients.Cards` | pages/dashboard/doctor/MyPatientsTab.tsx:98-154 | at most one card per joined row |
| `MyPatients.CardsMeaning` | pages/dashboard/doctor/MyPatientsTab.tsx:98-154 | a card is shown exactly for the rows the query returns (an id asked for and the role 'patient'): each card is such a row's card, and each such row has its card |
| `MyPatients.CardsAppend` | pages/dashboard/doctor/MyPatientsTab.tsx:98-154 | the cards of two runs of rows are the first run's cards followed by the second's, so the cards keep the query's order |
| `MyPatients.CardsOfRow` | pages/dashboard/doctor/MyPatientsTab.tsx:119-154 | one row gives exactly its card when its id is asked for and its role is 'patient', and nothing otherwise |
| `MyPatients.MyPatientsTabView.constructor` | pages/dashboard/doctor/MyPatientsTab.tsx:32-35 | no patients, loading, nothing selected |
| `MyPatients.MyPatientsTabView.FetchPatients` | pages/dashboard/doctor/MyPatientsTab.tsx:39-163 | the list becomes the cards of the distinct patients of the doctor's active appointments exactly when there is a user whose one profile says 'doctor' and both queries succeed; otherwise it stays |
| `MyPatients.MyPatientsTabView.OpenPatientDetails` | pages/dashboard/doctor/MyPatientsTab.tsx:168-171 | the patient is selected and the dialog opens |
| `MyPatients.MyPatientsTabView.ClosePatientModal` | pages/dashboard/doctor/MyPatientsTab.tsx:173-176 | the dialog closes and nothing is selected |
| `DoctorDashboard.Flatten` | pages/dashboard/doctor.tsx:39-41 | an entry is in the flattened list exactly when some row holds it |
| `DoctorDashboard.FlattenAppend` | pages/dashboard/doctor.tsx:39-41 | flattening two runs of rows gives the first run's entries followed by the second's |
| `DoctorDashboard.FlattenOfRow` | pages/dashboard/doctor.tsx:39-41 | one row gives its own list when it has one and nothing when it is null; with `FlattenAppend` this fixes the flattened list, in order |
| `DoctorDashboard.LastEntry` | pages/dashboard/doctor.tsx:42 | the last entry with an id, absent exactly when no entry has that id |
| `DoctorDashboard.DedupById` | pages/dashboard/doctor.tsx:42 | `Array.from(new Map(...).values())` has at most as many entries as the list |
| `DoctorDashboard.UpsertIds` | pages/dashboard/doctor.tsx:42 | `map.set` keeps the ids when the id is known and adds it last otherwise |
| `DoctorDashboard.DedupIdsAreDistinctIds` | pages/dashboard/doctor.tsx:42 | the ids of `new Map(...).values()` are the distinct ids in first-seen order |
| `DoctorDashboard.DedupHoldsLastEntries` | pages/dashboard/doctor.tsx:42 | each id keeps the last entry the list has for it |
| `DoctorDashboard.DedupKeepsEveryId` | pages/dashboard/doctor.tsx:42 | an id survives exactly when some entry has it |
| `DoctorDashboard.PatientListMeaning` | pages/dashboard/doctor.tsx:39-43 | the patient list holds each id of the rows' entries once, with its last entry |
| `DoctorDashboard.PatientList` | pages/dashboard/doctor.tsx:39-43 | data that is not an array gives the empty list; otherwise no more entries than the flattened rows |
| `DoctorDashboard.InsertedRecordListed` | pages/dashboard/doctor.tsx:106-123 | a record inserted for a patient appears in that patient's file list |
| `DoctorDashboard.UploadedFileShown` | pages/dashboard/doctor.tsx:106-123 | after an upload and a successful reload, the new row is in the list shown |
| `DoctorDashboard.DoctorDashboardView.constructor` | pages/dashboard/doctor.tsx:15-23 | no patients, nothing selected, no files, no messages |
| `DoctorDashboard.DoctorDashboardView.FetchPatients` | pages/dashboard/doctor.tsx:25-47 | without a session nothing changes; a failed query empties the list; otherwise the de-duplicated patient list |
| `DoctorDashboard.DoctorDashboardView.FetchFiles` | pages/dashboard/doctor.tsx:49-65 | the patient's records newest first, or an empty list and the load error |
| `DoctorDashboard.DoctorDashboardView.SelectPatient` | pages/dashboard/doctor.tsx:67-69 | picking a patient loads their files; an empty choice loads nothing |
| `DoctorDashboard.DoctorDashboardView.HandleFileUpload` | pages/dashboard/doctor.tsx:71-130 | without a session, file or patient nothing is written and the message shows; otherwise the file goes to the patient's folder, the row with its public URL is inserted only after the upload, each failure shows its message, and success reloads the files |
| `MedicalRecords.FileExtension` | pages/dashboard/doctor/medical-records.tsx:100 | the extension is non-empty, has no '.', and is 'dat' or a suffix of the name |
| `MedicalRecords.ExtensionAfterLastDot` | pages/dashboard/doctor/medical-records.tsx:100 | a name ending in '.ext' gets 'ext' |
| `MedicalRecords.DotlessNameIsItsOwnExtension` | pages/dashboard/doctor/medical-records.tsx:100 | a non-empty name without '.' is its own extension |
| `MedicalRecords.TrailingDotGivesDat` | pages/dashboard/doctor/medical-records.tsx:100 | a name ending in '.' gets 'dat' |
| `MedicalRecords.ObjectName` | pages/dashboard/doctor/medical-records.tsx:101 | the object name starts with the patient id and '_' and ends with '.' and the extension |
| `MedicalRecords.ObjectNameInjective` | pages/dashboard/doctor/medical-records.tsx:101 | for one patient, the time and extension can be read back from the object's name |
| `MedicalRecords.SignUrls` | pages/dashboard/doctor/medical-records.tsx:56-71 | one entry per record in order; a record with a path gets the signer's one-hour link, others none |
| `MedicalRecords.Unsigned` | pages/dashboard/doctor/medical-records.tsx:131-136 | the reloaded list has the same records and no links |
| `MedicalRecords.ReloadedListHasNoLinks` | pages/dashboard/doctor/medical-records.tsx:131-136 | the reloaded list is the signed list as if every signing failed |
| `MedicalRecords.DisplayName` | pages/dashboard/doctor/medical-records.tsx:212 | the file name when set; otherwise the last '/' segment of the path: a suffix of the path with no '/' that is the whole path or follows a '/'; '' without a path |
| `MedicalRecords.DisplayNameOfFolderPath` | pages/dashboard/doctor/medical-records.tsx:212 | a record without a name in a patient's folder shows its timestamped file name |
| `MedicalRecords.MedicalRecordsPage.constructor` | pages/dashboard/doctor/medical-records.tsx:27-34 | no records, loading, no file, no alert |
| `MedicalRecords.MedicalRecordsPage.FetchRecords` | pages/dashboard/doctor/medical-records.tsx:45-78 | without a patient id nothing happens; a failed query keeps the list; otherwise the patient's records newest first with signed links |
| `MedicalRecords.MedicalRecordsPage.HandleUpload` | pages/dashboard/doctor/medical-records.tsx:86-140 | without a file or patient nothing happens; without a session the alert shows and nothing is written; otherwise the object is stored, the row inserted only after it, each failure alerts, and success reloads the list without links |
| `MedicalRecords.MedicalRecordsPage.SaveUpload` | pages/dashboard/doctor/medical-records.tsx:100-128 | the object named by patient, time and extension is stored, the row is inserted only when that worked, and the alert names the first failure |
| `MedicalRecords.MedicalRecordsPage.ShowOutcome` | pages/dashboard/doctor/medical-records.tsx:126-139 | a failure shows its alert and keeps file and list; success clears the file and reloads the patient's records newest first, or an empty list when the reload fails; uploading ends false |
| `RecordsTab.FailureMessage` | pages/dashboard/patient/RecordsTab.tsx:117-119 | an `Error`'s own message, otherwise 'Failed to upload file' |
| `RecordsTab.Listing` | pages/dashboard/patient/RecordsTab.tsx:29-43 | the patient's records newest first, each with its doctor's name |
| `RecordsTab.ListingMeaning` | pages/dashboard/patient/RecordsTab.tsx:29-43 | a record is listed exactly when it belongs to the patient |
| `RecordsTab.StripOrigin` | pages/dashboard/patient/RecordsTab.tsx:83 | the result is a suffix of the URL, and a URL not starting with a scheme is unchanged |
| `RecordsTab.PublicPath` | pages/dashboard/patient/RecordsTab.tsx:83 | no URL gives '' |
| `RecordsTab.PublicPathOfPublicUrl` | pages/dashboard/patient/RecordsTab.tsx:80-83 | the public URL of an object loses exactly its scheme and host |
| `RecordsTab.StripHttpsOrigin` | pages/dashboard/patient/RecordsTab.tsx:83 | an https URL keeps everything from the '/' after the host |
| `RecordsTab.HostEndsAtSlash` | pages/dashboard/patient/RecordsTab.tsx:83 | the first '/' after a host without one ends the host |
| `RecordsTab.UploadedRecordListed` | pages/dashboard/patient/RecordsTab.tsx:86-116 | the uploaded file's row appears in the uploader's listing |
| `RecordsTab.RecordsTabView.constructor` | pages/dashboard/patient/RecordsTab.tsx:16-20 | no records, loading, no messages |
| `RecordsTab.RecordsTabView.FetchRecords` | pages/dashboard/patient/RecordsTab.tsx:23-53 | without a session the list stays; a failed query shows the load error; otherwise the patient's listing; loading ends |
| `RecordsTab.RecordsTabView.HandleFileUpload` | pages/dashboard/patient/RecordsTab.tsx:55-123 | no file does nothing; otherwise the first failing step (session, upload, insert, reload) ends the upload with its message, the row follows only a stored file, and the list is replaced only when every step succeeds |
| `RecordsTab.RecordsTabView.SaveUpload` | pages/dashboard/patient/RecordsTab.tsx:68-99 | the file goes to the uploader's folder, the row is inserted only after it, and the first failure is returned |
| `PatientDashboard.PatientRows` | pages/dashboard/patient/index.tsx:37-42 | exactly the user's rows with role 'patient' |
| `PatientDashboard.LoadProfile` | pages/dashboard/patient/index.tsx:37-66 | the profile loads exactly when the query succeeds with one patient row of the user; a failed query gives the load message |
| `PatientDashboard.OneRowLoadsOrNamesItsRole` | pages/dashboard/patient/index.tsx:44-58 | a user with one row loads it when it is a patient's, and is told the row's role otherwise |
| `PatientDashboard.FilterOfBoth` | pages/dashboard/patient/index.tsx:40-41 | filtering by id and role at once equals filtering by role, then id |
| `PatientDashboard.NoRowIsNotFound` | pages/dashboard/patient/index.tsx:54-58 | a user with no profile row is told to complete the registration |
| `PatientDashboard.ShownTabs` | pages/dashboard/patient/index.tsx:187-189 | a tab is rendered exactly when `activeTab` names it |
| `PatientDashboard.OneTabShown` | pages/dashboard/patient/index.tsx:159-189 | the picked tab is rendered and no other |
| `PatientDashboard.PatientDashboardView.constructor` | pages/dashboard/patient/index.tsx:10-13 | the profile tab shows first, loading, no profile, no error |
| `PatientDashboard.PatientDashboardView.FetchProfile` | pages/dashboard/patient/index.tsx:17-79 | a session error shows its message; no user goes to '/login'; otherwise the profile loads or the load's message shows; loading ends |
| `PatientDashboard.PatientDashboardView.SelectTab` | pages/dashboard/patient/index.tsx:159-181 | the picked tab becomes the one shown |
| `DoctorAppointments.DoctorRows` | pages/dashboard/doctor-appointments.tsx:14-17 | exactly the doctor's appointments |
| `DoctorAppointments.CancelKeepsListInStep` | pages/dashboard/doctor-appointments.tsx:23-26 | after a successful delete, the local filter gives the doctor's rows of the new table |
| `DoctorAppointments.FailedCancelHidesAStoredRow` | pages/dashboard/doctor-appointments.tsx:23-26 | after a failed delete the row leaves the list although the table keeps it |
| `DoctorAppointments.DoctorAppointmentsView.constructor` | pages/dashboard/doctor-appointments.tsx:8-10 | empty list, no panel, empty date |
| `DoctorAppointments.DoctorAppointmentsView.FetchAppointments` | pages/dashboard/doctor-appointments.tsx:12-21 | only a session with a successful query replaces the list with the doctor's rows |
| `DoctorAppointments.DoctorAppointmentsView.Cancel` | pages/dashboard/doctor-appointments.tsx:23-26 | the row is deleted when the call works, and leaves the list in every case |
| `DoctorAppointments.DoctorAppointmentsView.PickForReschedule` | pages/dashboard/doctor-appointments.tsx:45 | the panel opens for that row |
| `DoctorAppointments.DoctorAppointmentsView.Reschedule` | pages/dashboard/doctor-appointments.tsx:28-33 | the picked row takes the new instant when the call works; the panel closes, the date clears and a reload is requested |
| `Store.PatientUpcoming` | pages/dashboard/doctor/book-appointment.tsx:137-141 | exactly the patient's appointments with status 'upcoming' |
| `Store.DoctorUpcomingAt` | pages/dashboard/doctor/book-appointment.tsx:162-167 | exactly the doctor's upcoming appointments at that instant |
| `Store.RecordsOfPatient` | pages/dashboard/patient/BookAppointmentModal.tsx:173-176 | exactly the patient's records |
| `Store.RecordsOfPair` | pages/dashboard/doctor/book-appointment.tsx:205-210 | exactly the records of the patient filed under the doctor |
| `Store.WithStatus` | pages/dashboard/patient/AppointmentsTab.tsx:91-94 | only the status of the row with that id changes |
| `Store.WithDate` | pages/dashboard/doctor-appointments.tsx:29 | only the `date` column of the row with that id changes |
| `Store.WithAppointmentDate` | pages/dashboard/patient/AppointmentsTab.tsx:105-108 | only the `appointment_date` column of the row with that id changes, to the new date |
| `Store.ConflictMessage` | pages/dashboard/patient/BookAppointmentModal.tsx:131-137 | the conflict message both booking screens build around a date (the doctor screen's at book-appointment.tsx:150-155) contains that date |
| `Store.AppointmentDateLeavesSlots` | pages/dashboard/patient/AppointmentsTab.tsx:105-108 | changing `appointment_date` leaves every doctor's upcoming appointments at each `date` as they were, apart from that column |
| `Store.WithoutId` | pages/dashboard/doctor-appointments.tsx:24-25 | exactly the rows with another id remain |
| `Store.RecordsUpdated` | pages/dashboard/patient/BookAppointmentModal.tsx:237-244 | the rows with the given ids change as the update says; the others stay |
| `Store.ProfilesPatched` | pages/dashboard/patient/ProfileTab.tsx:82-85 | the user's rows take the patch; the others stay |
| `Store.Patched` | pages/dashboard/patient/ProfileTab.tsx:73-79 | the five editable columns take the patch; id, name, e-mail, birth date, creation time and role stay |
| `Store.SingleProfile` | pages/dashboard/doctor/MyPatientsTab.tsx:49-53 | `.single()` returns a row exactly when the call succeeds and the user has exactly one row |
| `Store.DigitsEndAtSeparator` | pages/dashboard/doctor.tsx:87-88 | after a run of digits the first separator is the one that ends the run |
| `Store.TimestampedNameInjective` | pages/dashboard/doctor.tsx:87-88 | the time and the file name can be read back from `${Date.now()}_${name}` |
| `Store.PatientFilePath` | pages/dashboard/patient/RecordsTab.tsx:69-70 | the path lies in 'patient-docs/' and the patient's folder |
| `Store.PatientFilePathInjective` | pages/dashboard/patient/RecordsTab.tsx:69-70 | within one patient's folder distinct (time, name) pairs give distinct paths |
| `Store.InsertNewest` | pages/dashboard/doctor.tsx:53-57 | inserting a row into a newest-first list keeps the order and adds only that row |
| `Store.HeadNewerThanRest` | pages/dashboard/doctor.tsx:57 | the head of a newest-first list is at least as new as anything inserted behind it |
| `Store.InsertNewestCounts` | pages/dashboard/doctor.tsx:57 | the insertion adds exactly one copy of the row |
| `Store.NewestFirst` | pages/dashboard/doctor.tsx:57 | `.order('created_at', descending)` gives the same rows, newest first |
| `Store.DoctorName` | pages/dashboard/patient/RecordsTab.tsx:33-42 | never empty; the joined doctor's `full_name` when the first profile with the doctor's id has a non-empty one, otherwise 'Unknown Doctor'; 'Unknown Doctor' when there is no doctor or no profile with that id |
| `Store.PatientFiles` | pages/dashboard/doctor.tsx:53-57 | the patient's records, as many times as the table holds them, newest first |
| `Store.Database.InsertAppointment` | pages/dashboard/doctor/book-appointment.tsx:183-193 | a successful insert appends the row with the next id; a failed one changes nothing |
| `Store.Database.SetAppointmentStatus` | pages/dashboard/patient/AppointmentsTab.tsx:91-94 | a successful update sets the row's status; a failed one changes nothing |
| `Store.Database.SetAppointmentDate` | pages/dashboard/patient/AppointmentsTab.tsx:105-108 | a successful update sets the row's `appointment_date`; a failed one changes nothing |
| `Store.Database.SetDate` | pages/dashboard/doctor-appointments.tsx:29 | a successful update sets the row's `date`; a failed one changes nothing |
| `Store.Database.DeleteAppointment` | pages/dashboard/doctor-appointments.tsx:24 | a successful delete removes the row; a failed one changes nothing |
| `Store.Database.InsertRecord` | pages/dashboard/patient/RecordsTab.tsx:86-97 | a successful insert appends the row with the next id; a failed one changes nothing |
| `Store.Database.TouchRecord` | pages/dashboard/doctor/book-appointment.tsx:238-241 | a successful update sets the row's `updated_at`; a failed one changes nothing |
| `Store.Database.RetargetRecord` | pages/dashboard/patient/BookAppointmentModal.tsx:237-244 | a successful update sets the row's doctor and `updated_at`; a failed one changes nothing |
| `Store.Database.UpdateProfile` | pages/dashboard/patient/ProfileTab.tsx:82-85 | a successful update patches the user's row; a failed one changes nothing |
| `Store.Storage.Upload` | pages/dashboard/patient/RecordsTab.tsx:73-77 | a successful upload stores the object under its bucket and path; a failed one stores nothing |

## Left out

- Rendering: the JSX, styling, modals that only display data (appointment and doctor details), loading spinners and icons.
- The display-only and thin files: pages/index.tsx, pages/_app.tsx, pages/logout.tsx, pages/auth/callback.tsx, pages/dashboard/appointments.tsx, pages/dashboard/patient.tsx, pages/dashboard/patient/Tabs.tsx, pages/dashboard/patient/upload-history.tsx, the doctor's ProfileTab and the doctor index page.
- The hosted back end's internals: joins are modelled by their effect (the doctor's name, or the nested rows of the joined patients query passed in as `joined`), URL signing is a `sign` parameter, and the public URL is built from the project URL, which is a parameter.
- Date and time formatting (`toLocaleDateString`, `toLocaleTimeString`, `toISOString`, `new Date(...)` parsing): instants are integers, a formatter is a parameter, and an invalid date string is not modelled.
- The booked-slot effects of both booking screens (the day's appointments read and formatted as labels) are modelled only by what the formatted labels do to the slot filter; the effects that load the doctor list and the session are not modelled.
- `Promise.all` over the record updates is modelled as the updates run one after another; their outcomes are independent parameters, so the order does not matter.
- The middleware's `matcher` regular expression is not modelled: every request is assumed to reach the middleware.
- The `appointments` table is assumed to have a nullable `appointment_date` column next to `date`; PostgreSQL puts its nulls last in an ascending order, and a null `appointment_date` is never after now in `getStatus`. The booking screens and the doctor's reschedule write only `date`, while the patient's appointments tab orders, shows and reschedules by `appointment_date`.
- The regular expressions of the validators are restated as predicates on characters; lower-casing, digits and letters are ASCII only, and lengths count characters, not UTF-16 code units.
- Rows with equal or missing `created_at` may come in any order the sort produces; a missing `created_at` counts as newest, as NULLs come first in a descending Postgres sort.
- The `created_at` default of an inserted record is modelled as the `now` parameter; `file_type` and `file_size` are not modelled.
- Console logging, `alert`, `setTimeout`, `location.reload` and `router.push` are left out or kept only as a flag or a message field of the page.
- Whether a thrown value is an `Error` instance is a parameter (`thrownIsError`, `Failure.isError`), since the client's error classes are not part of this model.
- The second session check of the patient booking dialog (BookAppointmentModal.tsx:161-165) cannot fail once the first one passed, so it is not modelled.
- The `localStorage` patient of the medical-records page and the `handleLogout` handlers are not modelled.
- PatientDashboard.LoadProfile: the `!data` branch of pages/dashboard/patient/index.tsx:63-66 cannot be reached after a successful `.single()`, so no input of the model reaches it.
- RecordsTab.RecordsTabView.HandleFileUpload: the public path computed at RecordsTab.tsx:80-83 is not used by the insert, which stores the storage path; the model computes it in `PublicPath` only.
- MyPatients.Cards: its own contract only bounds the number of cards; which cards are shown, and in which order, is stated by `CardsMeaning`, `CardsAppend` and `CardsOfRow`, so that the page's proofs do not carry those quantifiers.
- DoctorDashboard.DedupById: its own contract only bounds the length; the ids it keeps and the entry under each are stated by `DedupIdsAreDistinctIds`, `DedupHoldsLastEntries` and `DedupKeepsEveryId`.
- DoctorDashboard.PatientList: its own contract gives the empty case and a length bound; its contents are stated by `PatientListMeaning`.
- MedicalRecords.ObjectName: its own contract gives the prefix and the suffix; that the digits in between read back as the time is stated by `ObjectNameInjective`.
- DoctorAppointments.DoctorAppointmentsView.Reschedule: `new Date(newDate)` is the `instant` parameter, so an unparsable date is not modelled.
