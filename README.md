# Hospital management client — a Dafny model of its page logic

This project models the logic inside the React client of a hospital management
application: the handlers, validators and list helpers of fifteen pages and of the
session store (`AuthContext`). Patients book and cancel appointments, change their
profile and settings; doctors review appointments, add notes to patients and write
prescriptions; administrators manage doctors and browse patients. Everything the
server decides (slot availability, double booking, status transitions) is outside the
client and outside this model.

Each page is a `class` whose fields are the page's React state and whose methods are
its handlers, with `modifies` clauses and postconditions that give the whole new
state. What a handler computes is stated once, as a pure function with its own
contract, and the properties the pages promise are lemmas about those functions.

Representation:

- A JavaScript string is a `string`; an absent value (`undefined`, `null`) reads as
  `""` where only its truthiness matters (`Js.Get`, `Js.Or`), and as `None` where the
  code stores or prints it (`Js.StoredText` gives the text `"undefined"`).
- An object whose keys are set with computed names (`{...prev, [name]: value}`) is a
  `map<string, string>` (`Js.Fields`); switch groups are `map<string, bool>`.
- Dates are integer day numbers; turning a date string into a day is a parameter
  (`dayOf`), and "now" is a day number passed in.
- An HTTP request is not performed: each handler receives its `Outcome` — the reply
  body, or an `HttpError` carrying the network flag, the status and the error texts.
- `localStorage` is the class `Browser.LocalStorage`; navigation is the route a
  handler returns.

Modules: `Js` (string semantics: truthiness, `||`, `toLowerCase`, `trim`, `includes`,
`join`, `parseInt`), `Seqs` (filter, subsequence, slice, per-record update, stable
sort), `Http`, `Browser`, `Records`, `Navigation`, `Session` (what a sign-in stores),
`PasswordForm` (shared by the settings pages), and one module per page:
`BookAppointment`, `Prescription`, `DoctorAppointments`, `PatientAppointments`,
`Register`, `Login`, `PatientSettings`, `DoctorSettings`, `Settings`, `ManageDoctors`,
`PatientHome`, `DoctorPatients`, `Profile`, `PatientsList`, `AuthContext`.

## Model

| member | source | states |
|---|---|---|
| `BookAppointment.Hour12` | frontend/src/pages/patient/BookAppointment.jsx:125 | the 12-hour figure is in 1..12 for every non-negative hour and for an unreadable one, and agrees with the hour modulo 12 |
| `BookAppointment.SlotLabel` | frontend/src/pages/patient/BookAppointment.jsx:124-126 | the label ends in a space followed by the marker of the parsed hour |
| `BookAppointment.FormatTimeSlot` | frontend/src/pages/patient/BookAppointment.jsx:121-127 | the label ends in a space and "AM" or "PM", and "PM" exactly when the hour as `parseInt` reads it (decimal, or hexadecimal after `0x`) is at least 12 |
| `BookAppointment.TwelveHourRoundTrip` | frontend/src/pages/patient/BookAppointment.jsx:124-125 | for hours 0..23 the 12-hour figure and the AM/PM marker determine the hour again |
| `BookAppointment.FormatGridSlot` | frontend/src/pages/patient/BookAppointment.jsx:122-126 | for "HH:MM" the label is the 12-hour figure, a colon, the minute text copied unchanged, a space and the marker |
| `BookAppointment.FormatUnreadableHour` | frontend/src/pages/patient/BookAppointment.jsx:123-125 | an hour `parseInt` cannot read gives "12:<minute> AM" |
| `Js.ParseHex` | frontend/src/pages/patient/BookAppointment.jsx:123 | `parseInt` without a radix reads `0x`/`0X` followed by hexadecimal digits in base 16 |
| `BookAppointment.BlankForm` | frontend/src/pages/patient/BookAppointment.jsx:191-196 | the form has exactly doctorId, date, time and reason, all empty |
| `BookAppointment.ChangeField` | frontend/src/pages/patient/BookAppointment.jsx:128-142 | the named field takes the value; a change of doctor or date also empties the time; every other field is unchanged |
| `BookAppointment.CheckSubmission` | frontend/src/pages/patient/BookAppointment.jsx:149-173 | a missing token, then an empty required field, then a date before today reject, each exactly under its condition; today is accepted; an accepted form yields a request of exactly its four fields |
| `BookAppointment.ChangeForcesNewTime` | frontend/src/pages/patient/BookAppointment.jsx:135-159 | after the doctor or the date changes, the form cannot be submitted until a time is chosen again |
| `BookAppointment.BookingErrorText` | frontend/src/pages/patient/BookAppointment.jsx:199-203 | the server's error, else the server's message, else the exception's message, else the fixed booking-failure text; never empty |
| `BookAppointment.SlotsAfter` | frontend/src/pages/patient/BookAppointment.jsx:99-118 | a failed request leaves no slots; a reply with a slot list shows that list |
| `BookAppointment.SlotsError` | frontend/src/pages/patient/BookAppointment.jsx:99-117 | no error is shown exactly when the reply carries a non-empty slot list |
| `BookAppointment.BookingPage.constructor` | frontend/src/pages/patient/BookAppointment.jsx:30-40 | the page starts with a blank form, no slots, no messages |
| `BookAppointment.BookingPage.HandleChange` | frontend/src/pages/patient/BookAppointment.jsx:128-142 | the form becomes `ChangeField` of the old form and the error is cleared |
| `BookAppointment.BookingPage.FetchAvailableSlots` | frontend/src/pages/patient/BookAppointment.jsx:71-120 | with doctor or date missing the slots are emptied and nothing is requested; without a token the page goes to /login; otherwise slots and error follow the reply |
| `BookAppointment.BookingPage.SlotsEffect` | frontend/src/pages/patient/BookAppointment.jsx:49-55 | with doctor or date empty the slot list is emptied and the error kept; otherwise the fetch runs: without a token the error asks to log in again and the page goes to /login, with one the slots and the error follow the reply |
| `BookAppointment.BookingPage.HandleSubmit` | frontend/src/pages/patient/BookAppointment.jsx:143-210 | a rejected form sends nothing and shows its message; an accepted one sends the request; a success message with the booked appointment resets all four fields and shows the doctor, date and time; a success message without an appointment keeps the form and shows the TypeError text "Cannot read properties of undefined (reading 'doctorId')"; a 401 goes to /login |
| `Prescription.Eligible` | frontend/src/pages/doctor/Prescription.jsx:70-71 | exactly the confirmed or pending appointments, each as many times as in the list, as a subsequence of the list |
| `Seqs.InsertKeepsKeyOrder` | frontend/src/pages/patient/PatientHome.jsx:58 | inserting into a sorted list keeps, among the elements of any one key, their order, with the inserted element first |
| `Seqs.SortByStable` | frontend/src/pages/patient/PatientHome.jsx:58 | the sort is stable: for every key, the elements with that key keep their original order |
| `Seqs.FilterCounts` | frontend/src/pages/doctor/Prescription.jsx:70-71 | `filter` keeps every passing element as many times as it occurs and drops every other one |
| `Prescription.FindById` | frontend/src/pages/doctor/Prescription.jsx:134 | the first appointment in the list with the id: no earlier one has it; none is found only when no appointment has it |
| `Prescription.BlankMedication` | frontend/src/pages/doctor/Prescription.jsx:103-110 | a new entry has the six medication fields, all empty |
| `Prescription.BlankPrescription` | frontend/src/pages/doctor/Prescription.jsx:175-190 | the reset form has four empty text fields and exactly one blank medication |
| `Prescription.ChangeMedication` | frontend/src/pages/doctor/Prescription.jsx:90-97 | the length is kept, only `field` of entry `index` changes, and every other entry is unchanged |
| `Prescription.AddMedication` | frontend/src/pages/doctor/Prescription.jsx:98-113 | one blank entry is appended; the earlier entries are unchanged |
| `Prescription.RemoveMedication` | frontend/src/pages/doctor/Prescription.jsx:114-119 | exactly the entry at `index` is removed, the rest keep their order; an index out of range changes nothing |
| `Prescription.RemoveUndoesAdd` | frontend/src/pages/doctor/Prescription.jsx:98-119 | removing the entry just added restores the list |
| `Prescription.FirstIncomplete` | frontend/src/pages/doctor/Prescription.jsx:148-152 | the loop finds the first entry missing name, dosage, frequency, duration or timing, and reaches the end exactly when every entry is complete |
| `Prescription.ErrorMessage` | frontend/src/pages/doctor/Prescription.jsx:128-151 | every validation failure has a non-empty message |
| `Prescription.BuildPayload` | frontend/src/pages/doctor/Prescription.jsx:153-168 | medications keep their number and order with `instructions` defaulting to ""; notes default to ""; an empty follow-up date becomes null |
| `Prescription.CheckPrescription` | frontend/src/pages/doctor/Prescription.jsx:126-168 | the failures come in the source's order — not signed in, not a doctor, no such appointment, no patient, no patient id, missing diagnosis or symptoms, no medication, an incomplete medication — and acceptance yields the payload |
| `Prescription.Validate` | frontend/src/pages/doctor/Prescription.jsx:126-152 | the imperative check chain, with its loop over the medications, gives the same verdict as `CheckPrescription` |
| `Prescription.BlankFormIsRefused` | frontend/src/pages/doctor/Prescription.jsx:142-144 | the freshly reset form can never be submitted |
| `Prescription.SaveErrorText` | frontend/src/pages/doctor/Prescription.jsx:207-208 | the server's error, else its details, else the exception's message, else the fixed save-failure text; never empty |
| `Prescription.UnauthorizedText` | frontend/src/pages/doctor/Prescription.jsx:197 | the server's error when it sent one, else the fixed "Not authorized" text |
| `Prescription.LoadErrorText` | frontend/src/pages/doctor/Prescription.jsx:78 | the server's error, else the exception's message, else the fixed load-failure text |
| `Prescription.PrescriptionPage.constructor` | frontend/src/pages/doctor/Prescription.jsx:33-54 | the editor starts empty with one blank medication |
| `Prescription.PrescriptionPage.LoadAppointments` | frontend/src/pages/doctor/Prescription.jsx:58-82 | without a token an error is shown; a reply is reduced to the eligible appointments; a failure shows its message |
| `Prescription.PrescriptionPage.HandleInputChange` | frontend/src/pages/doctor/Prescription.jsx:83-89 | only the named text field changes; the error, the loading flag and the notice are kept |
| `Prescription.PrescriptionPage.HandleMedicationChange` | frontend/src/pages/doctor/Prescription.jsx:90-97 | the medications become `ChangeMedication` of the old ones; the error, the loading flag and the notice are kept |
| `Prescription.PrescriptionPage.AddEntry` | frontend/src/pages/doctor/Prescription.jsx:98-113 | the medications become `AddMedication` of the old ones; the error, the loading flag and the notice are kept |
| `Prescription.PrescriptionPage.RemoveEntry` | frontend/src/pages/doctor/Prescription.jsx:114-119 | the medications become `RemoveMedication` of the old ones; the error, the loading flag and the notice are kept |
| `Prescription.PrescriptionPage.HandleSubmit` | frontend/src/pages/doctor/Prescription.jsx:120-213 | a rejected form sends nothing and shows its message; success resets the form and the selection and shows the reloaded eligible list, or the reload's error with the list kept; a rejected form or a failed save keeps the list and the selected appointment; a 401 whose text mentions "token" ends the session and goes to /login, and storage is otherwise untouched |
| `Prescription.PrescriptionPage.AfterSave` | frontend/src/pages/doctor/Prescription.jsx:172-208 | success opens the notice, resets the form and the selection, and the list becomes `Eligible` of the reload (or keeps its entries and shows the load error); a 401 shows its text and signs out when that text mentions "token"; a failed save keeps the list and the selected appointment, and other failures show the save error; storage changes only on that sign-out |
| `DoctorAppointments.StatusColor` | frontend/src/pages/doctor/Appointments.jsx:171-182 | completed, pending and cancelled in any letter case give success, warning and error; any other status gives default |
| `DoctorAppointments.StatusIcon` | frontend/src/pages/doctor/Appointments.jsx:59-71 | completed and cancelled, in any case, have their own icons; every other status shows the clock |
| `DoctorAppointments.PatientName` | frontend/src/pages/doctor/Appointments.jsx:189-191 | the lower-cased "first last" of the patient, or "" when there is no patient or neither name part |
| `DoctorAppointments.Filtered` | frontend/src/pages/doctor/Appointments.jsx:184-196 | the shown list is a subsequence of the appointments holding exactly those that match date, status and search, each as many times as in the list; a set status or date holds for every kept one |
| `DoctorAppointments.UnfilteredShowsAll` | frontend/src/pages/doctor/Appointments.jsx:186-192 | with no date, status or search set, every appointment is shown |
| `DoctorAppointments.SearchIgnoresCase` | frontend/src/pages/doctor/Appointments.jsx:188-194 | two searches that differ only in letter case match the same appointments |
| `DoctorAppointments.ApplySave` | frontend/src/pages/doctor/Appointments.jsx:149-158 | the length is kept; only records with the saved id take the new status, notes and colour; the others are unchanged |
| `DoctorAppointments.ApplySaveIdempotent` | frontend/src/pages/doctor/Appointments.jsx:149-158 | saving the same values twice equals saving them once |
| `DoctorAppointments.DraftOf` | frontend/src/pages/doctor/Appointments.jsx:121-126 | the dialog starts from the appointment's status and notes, absent notes already reading as "" |
| `DoctorAppointments.ReopenShowsSaved` | frontend/src/pages/doctor/Appointments.jsx:121-158 | reopening a saved appointment shows exactly the saved status and notes |
| `DoctorAppointments.SaveErrorText` | frontend/src/pages/doctor/Appointments.jsx:165 | the server's error, else its details, else the exception's message, else the fixed update-failure text; never empty |
| `DoctorAppointments.DoctorAppointmentsPage.constructor` | frontend/src/pages/doctor/Appointments.jsx:74-83 | the page starts with the dialog closed and no filter set |
| `DoctorAppointments.DoctorAppointmentsPage.Visible` | frontend/src/pages/doctor/Appointments.jsx:184-196 | what the page shows is a subsequence of its appointments |
| `DoctorAppointments.DoctorAppointmentsPage.HandleOpen` | frontend/src/pages/doctor/Appointments.jsx:121-126 | the dialog opens on the appointment with its draft |
| `DoctorAppointments.DoctorAppointmentsPage.HandleClose` | frontend/src/pages/doctor/Appointments.jsx:128-131 | the dialog closes and the selection clears; nothing else changes |
| `DoctorAppointments.DoctorAppointmentsPage.HandleSave` | frontend/src/pages/doctor/Appointments.jsx:133-169 | without a token nothing is sent; with no selection the TypeError's message is shown and the dialog is left as it was; success applies `ApplySave` and closes the dialog; failure keeps the list |
| `PatientAppointments.StatusColor` | frontend/src/pages/patient/Appointments.jsx:114-125 | completed, cancelled and pending in any case map to their fixed colours, every other status to #9E9E9E |
| `PatientAppointments.StatusIcon` | frontend/src/pages/patient/Appointments.jsx:127-138 | the same three cases map to their icons, every other status to AlertCircle |
| `PatientAppointments.IconFollowsColor` | frontend/src/pages/patient/Appointments.jsx:114-138 | the icon is the default one exactly when the colour is |
| `Js.TrimsToEmpty` | frontend/src/pages/patient/Appointments.jsx:248 | `!s.trim()` holds exactly when the text is blank; it disables confirming a cancellation here and adding a note at frontend/src/pages/doctor/Patients.jsx:226 |
| `PatientAppointments.ApplyCancel` | frontend/src/pages/patient/Appointments.jsx:100-104 | the length is kept; only records with the id become cancelled with the reason, and no longer offer a cancel button; others are unchanged |
| `PatientAppointments.ApplyCancelIdempotent` | frontend/src/pages/patient/Appointments.jsx:100-104 | cancelling twice with the same reason equals cancelling once |
| `PatientAppointments.PatientAppointmentsPage.constructor` | frontend/src/pages/patient/Appointments.jsx:48-53 | the page starts with the dialog closed and no selection |
| `PatientAppointments.PatientAppointmentsPage.HandleCancelClick` | frontend/src/pages/patient/Appointments.jsx:87-90 | the appointment is selected and the dialog opens |
| `PatientAppointments.PatientAppointmentsPage.EditReason` | frontend/src/pages/patient/Appointments.jsx:238 | only the reason changes |
| `PatientAppointments.PatientAppointmentsPage.KeepAppointment` | frontend/src/pages/patient/Appointments.jsx:242 | only the dialog closes; selection and reason stay |
| `PatientAppointments.PatientAppointmentsPage.HandleCancelAppointment` | frontend/src/pages/patient/Appointments.jsx:92-112 | success applies `ApplyCancel`, closes the dialog and clears reason and selection; a failure, or no selection, shows the server text or the fixed message |
| `Navigation.DashboardFor` | frontend/src/pages/auth/Register.jsx:112-124 | admin, doctor and patient go to their dashboards, and exactly every other role goes to / |
| `Session.UserIdText` | frontend/src/pages/auth/Login.jsx:196 | the stored user id is the user's id, or the text "undefined" when it has none |
| `Session.SignedInItems` | frontend/src/pages/auth/Login.jsx:194-196 | token and role are stored, and the user id when there is a user; every other key is unchanged |
| `Session.SignOutUndoesSignIn` | frontend/src/context/AuthContext.jsx:155-158 | removing the three session keys after a sign-in leaves the other keys exactly as before it |
| `Session.SignInRoute` | frontend/src/pages/auth/Login.jsx:197-209 | the route follows the role switch, and a missing role goes to / |
| `Register.InitialForm` | frontend/src/pages/auth/Register.jsx:71-79 | the form starts empty with the role "patient" |
| `Register.CheckPasswords` | frontend/src/pages/auth/Register.jsx:95-104 | a mismatch is reported first; a matching password shorter than 6 is too short; 6 or more passes |
| `Register.RegistrationData` | frontend/src/pages/auth/Register.jsx:106 | the body is the form without `confirmPassword`, every other field unchanged |
| `Register.ConfirmationNotSent` | frontend/src/pages/auth/Register.jsx:84-106 | editing the confirmation never changes the body; editing any other field changes it the same way |
| `Register.FailureText` | frontend/src/pages/auth/Register.jsx:127-131 | the server's error, else the exception's message, else the fixed registration-failure text; never empty |
| `Register.RegisterPage.constructor` | frontend/src/pages/auth/Register.jsx:71-82 | the page starts with the initial form and no error |
| `Register.RegisterPage.HandleChange` | frontend/src/pages/auth/Register.jsx:84-90 | one field changes and the error is cleared |
| `Register.RegisterPage.HandleSubmit` | frontend/src/pages/auth/Register.jsx:91-135 | a failed password check sends nothing; a reply stores the session and routes by role; a reply without a user stores token and role and then shows the TypeError's message |
| `Login.InitialForm` | frontend/src/pages/auth/Login.jsx:163-167 | the form starts with empty email, password and role |
| `Login.RequestFor` | frontend/src/pages/auth/Login.jsx:188-192 | the email is sent lower-cased; password and role unchanged |
| `Login.EmailCaseIgnored` | frontend/src/pages/auth/Login.jsx:189 | two emails that differ only in case send the same request |
| `Login.FailureText` | frontend/src/pages/auth/Login.jsx:215-221 | a network failure gives the fixed "Unable to connect" text; otherwise the server's text or the generic fallback |
| `Http.ServerText` | frontend/src/pages/patient/PatientHome.jsx:65 | the server's error text when it sent one, else the page's fixed text |
| `Login.LoginPage.constructor` | frontend/src/pages/auth/Login.jsx:163-170 | the page starts with the initial form and no error |
| `Login.LoginPage.HandleChange` | frontend/src/pages/auth/Login.jsx:171-177 | one field changes and the error is cleared |
| `Login.LoginPage.HandleSubmit` | frontend/src/pages/auth/Login.jsx:178-226 | no role: nothing is sent; no token: nothing is stored and "Invalid response from server"; a token: the session is stored and the page routes by role; a navigation only happens with a stored token |
| `PasswordForm.BlankPasswords` | frontend/src/pages/patient/Settings.jsx:56-60 | the cleared form has exactly the three password fields, all empty |
| `PasswordForm.ChangeBody` | frontend/src/pages/patient/Settings.jsx:49-52 | the body carries the current and the new password, never the confirmation |
| `PasswordForm.ToggleOutcome` | frontend/src/pages/patient/Settings.jsx:66-86 | the named switch ends at `checked` on success and at `!checked` on failure; every other switch is unchanged |
| `PasswordForm.FailedToggleRestores` | frontend/src/pages/patient/Settings.jsx:68-84 | when the switch really changed, a failed save puts every switch back |
| `PatientSettings.InitialNotifications` | frontend/src/pages/patient/Settings.jsx:27-32 | four switches, all on except the newsletter |
| `PatientSettings.CheckNewPassword` | frontend/src/pages/patient/Settings.jsx:37-44 | a mismatch is reported before a new password shorter than 6; the form passes exactly when both checks do |
| `PatientSettings.PatientSettingsPage.constructor` | frontend/src/pages/patient/Settings.jsx:20-32 | blank password form, initial switches, no messages |
| `PatientSettings.PatientSettingsPage.EditPassword` | frontend/src/pages/patient/Settings.jsx:117-149 | only the named password field changes |
| `PatientSettings.PatientSettingsPage.HandlePasswordChange` | frontend/src/pages/patient/Settings.jsx:33-65 | a failed check sends nothing; success clears the three fields; failure keeps them |
| `PatientSettings.PatientSettingsPage.HandleNotificationChange` | frontend/src/pages/patient/Settings.jsx:66-86 | the body is only the named switch; the switches end as `ToggleOutcome` says |
| `DoctorSettings.InitialNotifications` | frontend/src/pages/doctor/Settings.jsx:29-33 | three switches, all on |
| `DoctorSettings.DoctorSettingsPage.constructor` | frontend/src/pages/doctor/Settings.jsx:20-33 | blank password form, initial switches, no messages |
| `DoctorSettings.DoctorSettingsPage.HandlePasswordChange` | frontend/src/pages/doctor/Settings.jsx:34-40 | only the named password field changes |
| `DoctorSettings.DoctorSettingsPage.HandleNotificationChange` | frontend/src/pages/doctor/Settings.jsx:41-47 | only the named switch changes, and nothing is sent |
| `DoctorSettings.DoctorSettingsPage.HandlePasswordSubmit` | frontend/src/pages/doctor/Settings.jsx:48-77 | only a mismatch is refused, with no length check; success clears the three fields |
| `DoctorSettings.DoctorSettingsPage.HandleNotificationSubmit` | frontend/src/pages/doctor/Settings.jsx:78-95 | the whole switch map is sent under `notificationSettings` |
| `Settings.InitialSettings` | frontend/src/pages/Settings.jsx:24-28 | e-mail notifications on, SMS and dark mode off |
| `Settings.Flip` | frontend/src/pages/Settings.jsx:35-40 | the named setting is negated, an absent one becomes true, every other setting is unchanged |
| `Settings.FlipTwice` | frontend/src/pages/Settings.jsx:35-40 | flipping a present setting twice restores the original map |
| `Settings.FlipAbsentTwice` | frontend/src/pages/Settings.jsx:38 | an absent setting flipped twice ends present and false, not absent |
| `Settings.SettingsPage.constructor` | frontend/src/pages/Settings.jsx:20-33 | initial settings, blank password form, no messages |
| `Settings.SettingsPage.HandleSettingsChange` | frontend/src/pages/Settings.jsx:35-40 | the settings become `Flip` of the old ones |
| `Settings.SettingsPage.HandlePasswordChange` | frontend/src/pages/Settings.jsx:42-48 | only the named password field changes |
| `Settings.SettingsPage.HandleSaveSettings` | frontend/src/pages/Settings.jsx:50-65 | the whole settings map is sent |
| `Settings.SettingsPage.HandleChangePassword` | frontend/src/pages/Settings.jsx:67-92 | a mismatch is refused before the success flag is touched; otherwise the whole form, confirmation included, is sent with no length check; success clears it |
| `ManageDoctors.RequiredFields` | frontend/src/pages/admin/ManageDoctors.jsx:132-134 | editing requires the six profile fields; adding also requires the password |
| `ManageDoctors.MissingFields` | frontend/src/pages/admin/ManageDoctors.jsx:135 | exactly the empty required fields, in required-field order |
| `ManageDoctors.MissingMessage` | frontend/src/pages/admin/ManageDoctors.jsx:137 | the message lists the missing fields joined by ", " |
| `ManageDoctors.FormFor` | frontend/src/pages/admin/ManageDoctors.jsx:88-111 | editing copies the doctor's six fields with an empty password; adding blanks all seven |
| `ManageDoctors.BlankAddFormMissesAll` | frontend/src/pages/admin/ManageDoctors.jsx:102-137 | the blank add form reports all seven fields, password last |
| `ManageDoctors.CompleteDoctorNeedsNoPassword` | frontend/src/pages/admin/ManageDoctors.jsx:91-135 | a complete doctor opened for editing can be saved without a password |
| `ManageDoctors.AddBody` | frontend/src/pages/admin/ManageDoctors.jsx:151 | an addition sends the form plus role "doctor" |
| `ManageDoctors.RequestFor` | frontend/src/pages/admin/ManageDoctors.jsx:140-158 | an update of the selected doctor by its id carries the form; an addition carries `AddBody` |
| `ManageDoctors.SubmitBlock` | frontend/src/pages/admin/ManageDoctors.jsx:128-139 | a missing token stops the submit first, then any empty required field with the list of them; nothing stops it exactly when a token is stored and no required field is empty |
| `ManageDoctors.ManageDoctorsPage.constructor` | frontend/src/pages/admin/ManageDoctors.jsx:50-64 | blank form, no selection, dialog closed |
| `ManageDoctors.ManageDoctorsPage.HandleOpen` | frontend/src/pages/admin/ManageDoctors.jsx:88-113 | the form becomes `FormFor` of the doctor and the dialog opens |
| `ManageDoctors.ManageDoctorsPage.HandleClose` | frontend/src/pages/admin/ManageDoctors.jsx:114-118 | the dialog closes and the selection and error clear |
| `ManageDoctors.ManageDoctorsPage.HandleChange` | frontend/src/pages/admin/ManageDoctors.jsx:119-124 | only the named form field changes |
| `ManageDoctors.ManageDoctorsPage.HandleSubmit` | frontend/src/pages/admin/ManageDoctors.jsx:125-167 | no token, or missing fields, send nothing and show their message; otherwise `RequestFor` is sent and success closes the dialog |
| `PatientHome.Upcoming` | frontend/src/pages/patient/PatientHome.jsx:56-58 | exactly the appointments from today on, each as many times as in the reply, sorted by ascending date |
| `PatientHome.UpcomingKeepsDayOrder` | frontend/src/pages/patient/PatientHome.jsx:56-58 | appointments on the same day keep the order the reply gave them |
| `PatientHome.FromToday` | frontend/src/pages/patient/PatientHome.jsx:56-57 | the appointments from today on, each as many times as in the reply |
| `PatientHome.PrescriptionTitle` | frontend/src/pages/patient/PatientHome.jsx:211 | the diagnosis, else the first medication's name, else "Medication" |
| `PatientHome.RecentActivity` | frontend/src/pages/patient/PatientHome.jsx:194-216 | at most the first three of each list are shown, and "No recent activity" exactly when both lists are empty |
| `PatientHome.PatientHomePage.constructor` | frontend/src/pages/patient/PatientHome.jsx:33-40 | empty lists and a blank profile |
| `PatientHome.PatientHomePage.FetchData` | frontend/src/pages/patient/PatientHome.jsx:42-72 | without a token the page goes to /login; a reply sets `Upcoming` and the prescriptions, missing ones as []; a 401 goes to /login |
| `DoctorPatients.NotesOf` | frontend/src/pages/doctor/Patients.jsx:84 | absent notes read as an empty list |
| `DoctorPatients.AppendNote` | frontend/src/pages/doctor/Patients.jsx:82-86 | the length is kept; only the selected patient gets the note at the end of their notes; the others are unchanged |
| `DoctorPatients.RecentNotes` | frontend/src/pages/doctor/Patients.jsx:171-176 | at most the first two notes are shown |
| `DoctorPatients.NewNoteShownIffFewNotes` | frontend/src/pages/doctor/Patients.jsx:82-176 | a new note is shown only when the patient had fewer than two notes; otherwise the shown notes do not change |
| `DoctorPatients.DoctorPatientsPage.constructor` | frontend/src/pages/doctor/Patients.jsx:43-49 | no selection, dialog closed, empty note |
| `DoctorPatients.DoctorPatientsPage.OpenNotes` | frontend/src/pages/doctor/Patients.jsx:164-165 | the patient is selected and the dialog opens |
| `DoctorPatients.DoctorPatientsPage.EditNote` | frontend/src/pages/doctor/Patients.jsx:216 | only the note text changes |
| `DoctorPatients.DoctorPatientsPage.HandleAddNotes` | frontend/src/pages/doctor/Patients.jsx:74-94 | success applies `AppendNote`, closes the dialog and clears note and selection; failure, or no selection, shows the server text or the fixed message |
| `Profile.BlankProfile` | frontend/src/pages/patient/Profile.jsx:24-33 | the eight profile fields, all empty |
| `Profile.Displayed` | frontend/src/pages/patient/Profile.jsx:182 | a field shows the draft while editing and the committed profile otherwise |
| `Profile.EditShowsOnlyWhileEditing` | frontend/src/pages/patient/Profile.jsx:60-66 | a draft edit is visible only while editing and only in the edited field |
| `Profile.ProfilePage.constructor` | frontend/src/pages/patient/Profile.jsx:20-34 | blank profile, empty draft, not editing |
| `Profile.ProfilePage.Shown` | frontend/src/pages/patient/Profile.jsx:182 | what each field shows, by `Displayed` |
| `Profile.ProfilePage.FetchProfile` | frontend/src/pages/patient/Profile.jsx:36-54 | without a token an error is shown; a reply sets both copies |
| `Profile.ProfilePage.HandleInputChange` | frontend/src/pages/patient/Profile.jsx:60-66 | only the named field of the draft changes; the committed profile is untouched |
| `Profile.ProfilePage.HandleEdit` | frontend/src/pages/patient/Profile.jsx:68-70 | editing is switched on and nothing else changes |
| `Profile.ProfilePage.HandleCancel` | frontend/src/pages/patient/Profile.jsx:72-76 | the draft returns to the committed profile, editing ends, the error clears, and every field shows the committed value |
| `Profile.ProfilePage.HandleSave` | frontend/src/pages/patient/Profile.jsx:78-95 | the draft is sent; success sets both copies to the reply and ends editing; failure changes only the error |
| `PatientsList.AppointmentStatus` | frontend/src/pages/admin/PatientsList.jsx:136-143 | pending, completed and cancelled, spelled exactly, give warning, success and error; anything else gives default |
| `PatientsList.LookupIsCaseSensitive` | frontend/src/pages/admin/PatientsList.jsx:136-143 | "Pending" gives default here although the doctor's list shows it as warning |
| `PatientsList.NextSortOrder` | frontend/src/pages/admin/PatientsList.jsx:201 | the result is asc or desc, and desc exactly when the order was asc |
| `PatientsList.SortToggleInvolution` | frontend/src/pages/admin/PatientsList.jsx:201 | on asc and desc, two presses change nothing |
| `PatientsList.ToggleExpanded` | frontend/src/pages/admin/PatientsList.jsx:274-278 | the open row closes, any other row opens, and no other row is open afterwards |
| `PatientsList.ToggleTwice` | frontend/src/pages/admin/PatientsList.jsx:274-289 | two clicks on a row return to that row open or to no row open |
| `PatientsList.BlankHistoryEntry` | frontend/src/pages/admin/PatientsList.jsx:126-130 | condition, diagnosed date and notes, all empty |
| `PatientsList.PatientsListPage.constructor` | frontend/src/pages/admin/PatientsList.jsx:36-56 | sort order desc, no row open, blank history entry |
| `PatientsList.PatientsListPage.ToggleSortOrder` | frontend/src/pages/admin/PatientsList.jsx:201 | the order becomes `NextSortOrder` of the old one; the open row, the selection, the dialog and the messages are kept |
| `PatientsList.PatientsListPage.ToggleExpand` | frontend/src/pages/admin/PatientsList.jsx:274-278 | the open row becomes `ToggleExpanded` of the old one; the sort order, the selection, the dialog and the messages are kept |
| `PatientsList.PatientsListPage.OpenMedicalHistory` | frontend/src/pages/admin/PatientsList.jsx:242-243 | the patient is selected and the dialog opens; the sort order and the open row are kept |
| `PatientsList.PatientsListPage.EditHistoryEntry` | frontend/src/pages/admin/PatientsList.jsx:555-591 | only the named entry field changes; the sort order, the open row and the messages are kept |
| `PatientsList.PatientsListPage.HandleAddMedicalHistory` | frontend/src/pages/admin/PatientsList.jsx:114-135 | the entry is sent for the selected patient; success closes the dialog and resets the entry to three empty strings; without a selected patient nothing is sent, the failure message shows and the success message is kept |
| `AuthContext.AuthorizationHeader` | frontend/src/context/AuthContext.jsx:17-20 | a header is attached exactly when a non-empty token is stored, and it is "Bearer " followed by the token |
| `AuthContext.LoginPageStays` | frontend/src/context/AuthContext.jsx:38-41 | a path starting with /login, in any case, is never redirected to / |
| `AuthContext.AcceptedReplyPassesCheck` | frontend/src/context/AuthContext.jsx:59-99 | after an accepted login the three keys are present for the next check, unless the user's id is the empty string |
| `AuthContext.ClearedSessionAbsent` | frontend/src/context/AuthContext.jsx:75-77 | once the three keys are removed no session remains |
| `AuthContext.WithRole` | frontend/src/context/AuthContext.jsx:101-104 | the user is the reply's user with the role added |
| `AuthContext.CheckedUser` | frontend/src/context/AuthContext.jsx:67-71 | the user is the profile plus the stored role and id |
| `AuthContext.Merge` | frontend/src/context/AuthContext.jsx:169-172 | every key of either object, the response's values winning |
| `AuthContext.MergeIdempotent` | frontend/src/context/AuthContext.jsx:169-172 | the same update twice equals it once, and an empty update changes nothing |
| `AuthContext.RegisterErrorText` | frontend/src/context/AuthContext.jsx:136-151 | network first, then a 500, then the server's text, then the exception's message, then the fallback |
| `AuthContext.ThrownErrorTexts` | frontend/src/context/AuthContext.jsx:94-151 | any error `register` or `login` throws itself, such as the refusal of an incomplete reply, shows its own message from `register` but only the fallback from `login` |
| `AuthContext.AuthProvider.constructor` | frontend/src/context/AuthContext.jsx:8-9 | no user, loading |
| `AuthContext.AuthProvider.EndSession` | frontend/src/context/AuthContext.jsx:155-160 | the three keys, the default header and the user are removed |
| `AuthContext.AuthProvider.OnResponseError` | frontend/src/context/AuthContext.jsx:30-44 | a 401 clears the session and goes to / unless the path mentions /login or /register; any other error changes nothing |
| `AuthContext.AuthProvider.CheckAuth` | frontend/src/context/AuthContext.jsx:53-87 | with all three keys the role's profile is requested and the user becomes the profile plus role and id; otherwise, or on failure, the session ends; loading ends |
| `AuthContext.AuthProvider.Accept` | frontend/src/context/AuthContext.jsx:97-104 | an accepted reply is stored, sets the default header and signs the user in |
| `AuthContext.AuthProvider.Login` | frontend/src/context/AuthContext.jsx:89-116 | a complete reply signs in; an incomplete one or a failure leaves storage and user untouched and returns the error text |
| `AuthContext.AuthProvider.Register` | frontend/src/context/AuthContext.jsx:118-153 | as `Login`, with `RegisterErrorText` for failures |
| `AuthContext.AuthProvider.Logout` | frontend/src/context/AuthContext.jsx:155-162 | the session ends, no session remains, and the page goes to /login |
| `AuthContext.AuthProvider.UpdateProfile` | frontend/src/context/AuthContext.jsx:164-181 | the stored role addresses the request; success merges the reply over the user; failure leaves the user |

## Left out

- Server logic: slot availability, booking, double-booking and status-transition rules
  live in the backend routes, which are not part of this model; the client only
  consumes the slot list and the replies.
- HTTP: requests are not performed; each handler receives the reply or the error it
  would get. Request headers other than the session's default `Authorization` header,
  URLs and query parameters are not modelled.
- The global 401 response interceptor (`AuthContext.AuthProvider.OnResponseError`) is
  modelled on its own; its interplay with each page's own error handling for the same
  request is not composed into the page handlers.
- Reloads after a save (`fetchDoctors`, `fetchPatients`, `fetchAppointments` after a
  prescription) are modelled only where the reload's outcome is a parameter
  (`Prescription.PrescriptionPage.HandleSubmit`); elsewhere the list is left as it was.
- Loading spinners, `alert`, snackbars' auto-hide, and the timer that clears the
  profile's success message are not modelled.
- Dates: parsing, time zones and locale formatting. A date is a day number;
  `BookAppointment` compares a UTC-parsed date with local midnight, and `PatientHome`
  compares with the current instant rather than the day: both are abstracted to day
  comparisons, so appointments earlier on the current day count as upcoming.
- Text: `toLowerCase` is modelled on ASCII letters only; `trim` on the common
  whitespace characters; string length counts characters, not UTF-16 code units.
- Values that are not strings (numeric ids, objects in form fields) are modelled as
  strings; `PatientsList.AppointmentStatus` does not model the inherited object keys
  (such as "toString") that the source's lookup would also find.
- `Promise.all` on the home page is one combined outcome.
- Fetching the doctor list, the doctors' and patients' lists, deleting and editing
  patients and doctors, and the display-only pages are outside the modelled core.
- `ManageDoctors.ManageDoctorsPage`, `PatientsList.PatientsListPage` and
  `BookAppointment.BookingPage`: an effect lists a fetch function (`fetchDoctors`,
  `fetchPatients`, `fetchAvailableSlots`) in its dependency array before the `const`
  that declares it (ManageDoctors.jsx:65-68, PatientsList.jsx:57-60,
  BookAppointment.jsx:49-55 and 71), so the first render reads the binding in its
  temporal dead zone and throws a ReferenceError; the handlers are modelled as if the
  page rendered.
- `DoctorAppointments.DoctorAppointmentsPage.HandleSave`: the alert after a save is
  not modelled.
- `BookAppointment.FormatTimeSlot`: `parseInt` is modelled on exact integers; a digit
  string beyond 2^53, which JavaScript rounds to a double, is read exactly.
