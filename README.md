# CuraNet in Dafny

CuraNet is a hospital portal with three parts:

- an Express backend over PostgreSQL that serves patients, doctors and hospital staff (`backend/index.js`);
- a small FastAPI service with hospital, doctor and patient routes (`backend/routes.py`);
- a React client whose pages filter, count and edit what those services return.

This project models the core of all three parts in Dafny and proves properties of the model.

**Shared vocabulary.** `Common` holds the ASCII part of the JavaScript string operations the client uses: case folding, `includes`, `split`, `join` and `trim`. It also holds the `Array.filter` and `new Set` idioms, with lemmas about them. `JsNumbers` models `Number(s)`, `parseInt(s, 10)`, `String(n)` and truthiness.

**Backend.** `Access` models the bearer-token middleware, the role gate and the ownership test of the self-service routes. `Backend` is the Express route set. Its `Store` class holds one sequence field per table, and a row's serial id is its position plus one. Every handler is a method that answers a status with a value or an error message and changes only the tables it writes. `Tally` models the counting of diagnoses and medications in the statistics route. `ApiRoutes` models the Python routes over a store of the same kind.

**Client.** The client modules follow the client's files:

- `AuthContext`: the mock login provider;
- `ProtectedRoute`: the route guard;
- `Validation`: the form validators;
- `Helpers`: the formatting helpers;
- `Search`: the record search;
- `Medications`: the drug catalogue search;
- one module per page, each with a class that holds the page's state, and methods for its event handlers.

Each filtering page is specified by a `Filtered` function. The page's staged `applyFilters` method is proved equal to it. A `FilteredFacts` lemma then states what that function keeps.

**Behaviour of the code that the model keeps.**

- A reschedule is not re-checked for a clash. `PATCH /api/appointments/:id` writes the new date without the conflict query that booking runs. `Backend.PatchCanDoubleBook` proves that, in every table, moving an appointment onto the time of another appointment of the same doctor leaves a double booking.
- The conflict query of a booking matches every appointment of the doctor at that time, cancelled ones included, and `Backend.Store.BookAppointment` does the same.
- Login does not reveal which field was wrong. An unknown user and a wrong password get the same 401, and `Backend.Store.LoginCases` proves that.
- The inserts do not set the status of a new appointment or a new emergency request. The model takes the default of both status columns to be `pending` (`Backend.InitialStatus`), which `Backend.Store.CreateEmergency` stores and `Backend.Store.ActiveEmergencies` then lists.

## Model

| member | source | states |
|---|---|---|
| Common.Column | frontend/src/pages/hospital/PatientsPage.jsx:237 | `xs.map(f)`: one value per element, the one f picks out of it, in order |
| Common.DistinctColumn | frontend/src/pages/hospital/PatientsPage.jsx:237 | `[...new Set(xs.map(f))]`, which the patients, appointments and doctors pages use for their departments (AppointmentsPage.jsx:245, DoctorsPage.jsx:81) and the prescriptions page for its medications (PrescriptionsPage.jsx:187): no value twice, exactly the values that occur, in order of first occurrence |
| Access.BearerToken | backend/index.js:26-27 | no header, or an empty one, gives no token, and a token never contains a space |
| Access.Authenticate | backend/index.js:25-36 | every refusal is 401 "Access token required" or 403 "Invalid or expired token" |
| Access.AuthenticateCases | backend/index.js:25-36 | 401 iff there is no token, 403 iff the token does not verify, a pass iff it does, and then with the verified claims |
| Access.SchemeAndToken | backend/index.js:26-27 | a header "scheme token" without further spaces carries that token |
| Access.OneWordHeaderRefused | backend/index.js:27-29 | a header of one word carries no token and is refused with 401 |
| Access.CheckRole | backend/index.js:39-46 | a caller who passes keeps their claims |
| Access.CheckRoleCases | backend/index.js:39-46 | the gate passes iff the caller has a role in the route's list, otherwise answers 403 "Access denied"; a caller with no role is refused by every list |
| Access.Admit | backend/index.js:302 | a refused authentication is passed on unchanged; otherwise the role gate decides |
| Access.GatedRoutesRefuseNullRoleAndPatients | backend/index.js:302 | no role-gated route admits a user with no role row, or a patient |
| Access.OwnershipCases | backend/index.js:192 | the ownership test refuses exactly a patient whose own patient id is not the target; other roles pass |
| Backend.MedicalIdShape | backend/index.js:126 | a generated medical id is "MED" followed by six digits |
| Backend.Patched | backend/index.js:396-404 | a PATCH applies the status only when it is present and non-empty, and the date only when it is present; no other field changes |
| Backend.PatchCanDoubleBook | backend/index.js:365-420 | for every table and every two appointments of the same doctor, patching one to the other's time, with or without a status, leaves a double booking |
| Backend.Diagnoses | backend/index.js:604-609 | the counted diagnoses are exactly the non-empty diagnoses of the rows, each occurring as often as rows carry it, and never the empty one |
| Backend.Medications | backend/index.js:617-622 | the counted medications are exactly the non-empty medication names of the rows, each occurring as often as rows carry it, and never the empty one |
| Backend.SelfService | backend/index.js:188-196 | a self-service route passes iff the caller is authenticated and is not a patient acting for another patient; a refusal is 403 with the route's message |
| Backend.Store.constructor | backend/index.js:13-19 | an empty database apart from the given doctors, satisfying the store invariant |
| Backend.Store.RoleOf | backend/index.js:54-60 | the user's role from the LEFT JOIN on user_roles, or null without a role row |
| Backend.Store.Login | backend/index.js:49-100 | every failure is 401 "Invalid username or password"; a success is a user of that name whose password matches, with a token signed over that user's claims |
| Backend.Store.LoginCases | backend/index.js:62-72 | in a valid store login succeeds iff a user of that name has a matching password, and an unknown user and a wrong password get the same 401 |
| Backend.Store.Register | backend/index.js:103-166 | a taken username or email gives 400 and changes nothing; otherwise it adds one user and one role row, plus a patient with a "MED" id when the role is patient, and keeps the store invariant |
| Backend.Store.PatientsByMedicalId | backend/index.js:169-185 | exactly the patients with that medical id, in table order |
| Backend.Store.PatientRecords | backend/index.js:188-209 | refused iff the gate refuses; otherwise exactly the patient's records |
| Backend.Store.PatientPrescriptions | backend/index.js:212-232 | refused iff the gate refuses; otherwise exactly the patient's prescriptions |
| Backend.Store.PatientAppointments | backend/index.js:235-256 | refused iff the gate refuses; otherwise exactly the patient's appointments |
| Backend.Store.ActiveEmergencies | backend/index.js:462-474 | refused iff admin/staff admission fails; otherwise exactly the pending and dispatched requests of patients that exist |
| Backend.Store.PatientOrders | backend/index.js:515-535 | refused iff the gate refuses; otherwise exactly the patient's orders whose prescription exists |
| Backend.Store.Search | backend/index.js:539-574 | refused iff the role gate refuses; a query runs only with a non-empty keyword, and its kind follows the type; with a keyword and a known type a query always runs |
| Backend.Store.PatientStatistics | backend/index.js:578-637 | record and prescription counts of the patient, and at most five top diagnoses and medications, each with its true count, ordered by count |
| Backend.Store.CreateRecord | backend/index.js:302-330 | refused unless a doctor or admin; otherwise appends one record whose hospital is the caller doctor's hospital |
| Backend.Store.BookAppointment | backend/index.js:334-362 | 403 for another patient; 400 when the doctor has any appointment at that time; otherwise appends one pending appointment; a table with no double booking keeps none |
| Backend.Store.PatchAppointment | backend/index.js:365-420 | 404, then the patient and doctor 403s, then 400 for an empty update, each changing nothing; otherwise only the matching appointments are patched |
| Backend.Store.CreatePrescription | backend/index.js:424-437 | refused unless a doctor or admin; otherwise appends one prescription by the caller's doctor id |
| Backend.Store.CreateEmergency | backend/index.js:441-459 | 403 for another patient; otherwise appends one pending request |
| Backend.Store.PatchEmergency | backend/index.js:477-490 | refused unless admin or staff; otherwise sets status and responder on the matching requests only (a field missing from the body becomes NULL) and answers 200 even when none match |
| Backend.Store.CreateOrder | backend/index.js:494-512 | 403 for another patient; otherwise appends one order |
| Tally.TallyValues | backend/index.js:604-609 | each distinct value once, in first-seen order, with its number of occurrences |
| Tally.Entries | backend/index.js:611 | one entry per key, in key order, carrying the key's count |
| Tally.Insert | backend/index.js:612 | the result is a permutation of the entry and the list |
| Tally.SortByCount | backend/index.js:612 | the result is a permutation of the entries |
| Tally.InsertOrdered | backend/index.js:612 | inserting an entry seen before all others keeps the list ordered by count, with ties in first-seen order |
| Tally.SortByCountOrdered | backend/index.js:612 | the sort orders by descending count and is stable |
| Tally.Tallied | backend/index.js:604-611 | one entry per distinct value with its count, in first-seen order |
| Tally.SortedTallyFacts | backend/index.js:611-612 | the sorted tally is ordered and carries the true counts |
| Tally.TopOrdered | backend/index.js:611-614 | min(5, number of distinct values) entries, ordered, with true counts and no key twice |
| Tally.TopMaximal | backend/index.js:611-614 | every listed entry comes before any value left out: a larger count, or the same count and seen earlier |
| Tally.CommonValues | backend/index.js:611-614 | the method's result is the specification's top five |
| ApiRoutes.Store.constructor | backend/routes.py:15-75 | empty tables satisfying the store invariant |
| ApiRoutes.Store.CreateHospital | backend/routes.py:15-21 | appends one hospital with the next id and the given fields |
| ApiRoutes.Store.CreateDoctor | backend/routes.py:29-45 | 404 "Hospital not found" with nothing stored when the hospital is missing; otherwise appends one doctor; every doctor's hospital exists |
| ApiRoutes.Store.CreatePatient | backend/routes.py:53-70 | 400 "Medical ID already exists" with nothing stored for a taken id; otherwise appends one patient; medical ids stay unique |
| ApiRoutes.Store.GetHospitals | backend/routes.py:24-26 | every stored hospital, each as often as it is stored |
| ApiRoutes.Store.GetDoctors | backend/routes.py:48-50 | every stored doctor, each as often as it is stored |
| ApiRoutes.Store.GetPatients | backend/routes.py:73-75 | every stored patient, each as often as it is stored |
| ApiRoutes.Store.ValidStoreFacts | backend/routes.py:53-70 | in a valid store a medical id names at most one patient, and every doctor's hospital is listed |
| AuthContext.RoleOrPatient | frontend/src/context/AuthContext.jsx:41 | a missing or empty role is read as "patient"; any other role is kept |
| AuthContext.FindUser | frontend/src/context/AuthContext.jsx:37 | the index of the first registered user of that name, or the list's length when there is none |
| AuthContext.LoginTarget | frontend/src/context/AuthContext.jsx:36-112 | there is a target iff a registered user or a demo account has that name, and the target's role is never empty |
| AuthContext.RegisteredUsersShadowDemos | frontend/src/context/AuthContext.jsx:36-56 | a registered user named like a demo account wins over it |
| AuthContext.FirstRegisteredIdIsHospitalId | frontend/src/context/AuthContext.jsx:145 | the first registered user gets id 3, the id of the demo hospital account |
| AuthContext.AuthProvider.constructor | frontend/src/context/AuthContext.jsx:9-15 | the stored users and token, no user and no error |
| AuthContext.AuthProvider.RestoreUser | frontend/src/context/AuthContext.jsx:20-26 | a stored user becomes the current user; nothing else changes |
| AuthContext.AuthProvider.Login | frontend/src/context/AuthContext.jsx:29-126 | succeeds iff there is a login target; then the token is "mock-token-" and the role, the user is the target and the page is the role's dashboard; otherwise the error is set and the token and user are unchanged |
| AuthContext.AuthProvider.Register | frontend/src/context/AuthContext.jsx:128-164 | a taken username is refused with nothing stored; otherwise appends one user with id count + 3 and a defaulted role; ids stay 3, 4, 5, … and usernames unique |
| AuthContext.AuthProvider.Logout | frontend/src/context/AuthContext.jsx:166-173 | no token and no user, on the login page; the registered users are kept |
| ProtectedRoute.Guard | frontend/src/components/layout/ProtectedRoute.jsx:12-38 | nothing while loading; login when not authenticated; the page when no role is required or the role matches; otherwise the dashboard of the user's role |
| ProtectedRoute.GuardRoleMismatch | frontend/src/components/layout/ProtectedRoute.jsx:31-34 | a user of another role is sent to their own dashboard, and a missing user makes the guard fail |
| ProtectedRoute.GuardRedirectTargets | frontend/src/components/layout/ProtectedRoute.jsx:12-38 | the guard redirects only to the login page or to the user's own dashboard |
| Search.BfsSearch | frontend/src/assets/utils/search.js:1-15 | the walk ends after one round with the records whose medical id equals the start id |
| Search.MatchingCounts | frontend/src/assets/utils/search.js:10 | each record occurs in the result as often as in the input when it matches, and not at all otherwise |
| Medications.Suggestions | frontend/src/pages/doctor/WritePrescription.jsx:124-126 | the catalogue drugs whose name contains the text, ignoring case |
| Medications.SuggestionsInOrder | frontend/src/pages/doctor/WritePrescription.jsx:124-126 | the suggestions keep the catalogue's order, and empty text suggests every drug |
| Medications.OnlyChoiceOr | frontend/src/pages/doctor/WritePrescription.jsx:140-141 | the one common value when there is exactly one, otherwise the current value |
| WritePrescription.MaxId | frontend/src/pages/doctor/WritePrescription.jsx:105 | at least 0 and at least every id, and either 0 or one of the ids |
| WritePrescription.RemoveDropsAtMostOne | frontend/src/pages/doctor/WritePrescription.jsx:114 | with unique ids, removing one id drops at most one entry |
| WritePrescription.PrescriptionWriter.constructor | frontend/src/pages/doctor/WritePrescription.jsx:11-19 | one blank entry with id 1 |
| WritePrescription.PrescriptionWriter.AddMedication | frontend/src/pages/doctor/WritePrescription.jsx:104-107 | appends a blank entry whose id is larger than every id, so ids stay unique |
| WritePrescription.PrescriptionWriter.RemoveMedication | frontend/src/pages/doctor/WritePrescription.jsx:109-115 | refuses when one entry is left; otherwise drops the entries of that id; the list never becomes empty |
| WritePrescription.PrescriptionWriter.ChangeMedication | frontend/src/pages/doctor/WritePrescription.jsx:117-133 | sets the field on the entries of that id only; medication text of more than two characters shows the catalogue suggestions, shorter text hides them |
| WritePrescription.PrescriptionWriter.SelectMedication | frontend/src/pages/doctor/WritePrescription.jsx:135-146 | sets the drug name and fills in the dosage and frequency when the drug has one common value for them; hides the suggestions |
| WritePrescription.PrescriptionWriter.Save | frontend/src/pages/doctor/WritePrescription.jsx:148-173 | refused while any entry lacks a required field or the diagnosis is empty; otherwise goes to the patient's page, or to the dashboard without a patient |
| DoctorDashboard.WithStatus | frontend/src/pages/doctor/Dashboard.jsx:119-121 | same length, with every visit's id and patient kept |
| DoctorDashboard.WithStatusChangesOnlyThatId | frontend/src/pages/doctor/Dashboard.jsx:119-121 | only visits of that id change, and setting the same status again changes nothing |
| DoctorDashboard.Dashboard.constructor | frontend/src/pages/doctor/Dashboard.jsx:10-72 | the loaded appointments, no selection and an empty form |
| DoctorDashboard.Dashboard.StartConsultation | frontend/src/pages/doctor/Dashboard.jsx:117-125 | the appointment becomes the selected patient and only the visits of its id turn in-progress |
| DoctorDashboard.Dashboard.MedicationChange | frontend/src/pages/doctor/Dashboard.jsx:127-137 | the name goes into the form; suggestions are shown iff it is longer than two characters, and the selected drug is dropped otherwise |
| DoctorDashboard.Dashboard.SelectMedication | frontend/src/pages/doctor/Dashboard.jsx:139-143 | the drug's name goes into the form, the drug is selected and the suggestions are hidden |
| DoctorDashboard.Dashboard.FillFromSelection | frontend/src/pages/doctor/Dashboard.jsx:80-98 | the dosage and frequency take the selected drug's single common value where it has one; the form is otherwise unchanged |
| DoctorDashboard.Dashboard.Submit | frontend/src/pages/doctor/Dashboard.jsx:145-173 | nothing without a selected patient; refused while a required field is empty; otherwise the form is cleared, the patient's visits are completed and the selections are dropped |
| DoctorDashboard.Dashboard.FilteredMedications | frontend/src/pages/doctor/Dashboard.jsx:184-186 | the suggested drugs whose name contains the typed medication, ignoring case |
| DoctorAppointments.ApplyFilters | frontend/src/pages/doctor/AppointmentsPage.jsx:149-172 | the staged filtering equals the specification's single filter |
| DoctorAppointments.FilteredFacts | frontend/src/pages/doctor/AppointmentsPage.jsx:149-172 | order is kept; an appointment is listed iff the search, the status and the day all accept it; without filters everything is listed |
| DoctorAppointments.StatsOf | frontend/src/pages/doctor/AppointmentsPage.jsx:133-139 | the total is the list's length and each of the completed, pending and cancelled counts is the number of appointments with that status; the three add up to at most the total |
| DoctorAppointments.CountStatusExtremes | frontend/src/pages/doctor/AppointmentsPage.jsx:133-139 | no appointment of a status gives count 0; every appointment of it gives the total |
| DoctorAppointments.AppointmentsPage.constructor | frontend/src/pages/doctor/AppointmentsPage.jsx:9-19 | every loaded appointment is listed, with no filters and the counts of the loaded list |
| DoctorAppointments.AppointmentsPage.Refresh | frontend/src/pages/doctor/AppointmentsPage.jsx:25-27 | the listed appointments are the filtered list |
| DoctorAppointments.AppointmentsPage.Complete | frontend/src/pages/doctor/AppointmentsPage.jsx:174-192 | only the appointments of that id become completed with the completion note, and the counts are recomputed |
| DoctorAppointments.AppointmentsPage.Cancel | frontend/src/pages/doctor/AppointmentsPage.jsx:194-212 | only the appointments of that id become cancelled, and the counts are recomputed |
| DoctorPrescriptions.CalculateStats | frontend/src/pages/doctor/PrescriptionsPage.jsx:81-113 | the total, the counts issued today, within the last week and since a month back, and the five most prescribed medications with their true counts, ordered by count |
| DoctorPrescriptions.StatsNested | frontend/src/pages/doctor/PrescriptionsPage.jsx:81-113 | today ≤ this week ≤ this month ≤ total |
| DoctorPrescriptions.ApplyFilters | frontend/src/pages/doctor/PrescriptionsPage.jsx:115-152 | the staged filtering equals the specification's single filter |
| DoctorPrescriptions.FilteredFacts | frontend/src/pages/doctor/PrescriptionsPage.jsx:115-152 | order is kept; a prescription is listed iff the search, the time range and the medication all accept it |
| DoctorPrescriptions.OtherKeysIgnored | frontend/src/pages/doctor/PrescriptionsPage.jsx:158-163 | setting a filter key other than the time range and the medication does not change the list |
| DoctorPrescriptions.PrescriptionsPage.constructor | frontend/src/pages/doctor/PrescriptionsPage.jsx:6-21 | every loaded prescription listed, with the stats of the loaded list: the total, the today, week and month counts, and the top medications |
| DoctorPrescriptions.PrescriptionsPage.FilterChange | frontend/src/pages/doctor/PrescriptionsPage.jsx:158-163 | overwrites one key of the filter object |
| DoctorPrescriptions.PrescriptionsPage.Refresh | frontend/src/pages/doctor/PrescriptionsPage.jsx:28-30 | the listed prescriptions are the filtered list |
| PatientDirectory.FilteredPatientsFacts | frontend/src/pages/doctor/PatientDirectory.jsx:125-149 | order is kept; a patient is listed iff the search, gender, age range and condition all accept them; without query or filter everyone is listed |
| PatientDirectory.AgeRangeInclusive | frontend/src/pages/doctor/PatientDirectory.jsx:135-138 | the range "a-b" keeps exactly the ages from a to b, both included |
| PatientDirectory.AgeOptions | frontend/src/pages/doctor/PatientDirectory.jsx:234-239 | each age option keeps exactly the ages between its two bounds; the "66+" option stops at 100 |
| PatientDirectory.ActiveFilterCount | frontend/src/pages/doctor/PatientDirectory.jsx:189-191 | at most three; 0 iff no filter is set, 3 iff all are |
| PatientDirectory.SetFilterCount | frontend/src/pages/doctor/PatientDirectory.jsx:110-113 | setting one filter changes the count by at most one, and clearing it never raises the count |
| PatientDirectory.Directory.constructor | frontend/src/pages/doctor/PatientDirectory.jsx:8-16 | the loaded patients with no query and no filter |
| PatientDirectory.Directory.FilterChange | frontend/src/pages/doctor/PatientDirectory.jsx:110-113 | sets one filter and nothing else |
| PatientDirectory.Directory.ResetFilters | frontend/src/pages/doctor/PatientDirectory.jsx:115-122 | clears the filters and the query, so every patient is shown and the badge count is 0 |
| DoctorProfile.Week | frontend/src/components/doctor/DoctorProfile.jsx:18-26 | seven differently named days from Monday to Sunday whose three slots read back as given, a day being available iff one of its slots is |
| DoctorProfile.ResolveDefaults | frontend/src/components/doctor/DoctorProfile.jsx:6-28 | a missing doctor or a record without fields shows the defaults; a given field is shown as given |
| DoctorProfile.Known | frontend/src/components/doctor/DoctorProfile.jsx:6-28 | a record carrying every field of a profile resolves to that profile |
| DoctorProfile.OnCount | frontend/src/components/doctor/DoctorProfile.jsx:36-40 | at most the number of slots |
| DoctorProfile.AvailableSlots | frontend/src/components/doctor/DoctorProfile.jsx:33-42 | at most the total number of slots |
| DoctorProfile.NoneSet | frontend/src/components/doctor/DoctorProfile.jsx:33-42 | no slot set gives 0 available slots |
| DoctorProfile.EverySlotSet | frontend/src/components/doctor/DoctorProfile.jsx:33-42 | every slot set gives all slots available |
| DoctorProfile.PercentBounds | frontend/src/components/doctor/DoctorProfile.jsx:44 | the rounded percentage lies in 0..100 and within half a unit of the exact one; nothing available is 0 and everything is 100 |
| DoctorProfile.CalculateAvailability | frontend/src/components/doctor/DoctorProfile.jsx:31-45 | NaN iff there is no slot; otherwise a percentage in 0..100 within half a unit of available/total, 0 with nothing set and 100 with everything set |
| DoctorProfile.Capitalize | frontend/src/components/doctor/DoctorProfile.jsx:55 | same length, the first letter upper-cased and the rest kept |
| DoctorProfile.DayLabels | frontend/src/components/doctor/DoctorProfile.jsx:55 | one capitalised label per day, in order |
| DoctorProfile.FormatDaysFacts | frontend/src/components/doctor/DoctorProfile.jsx:48-59 | "Not available" iff no day has a free slot; otherwise the labels of exactly the days with a free slot, in order, joined by ", " |
| DoctorProfile.SlotsLeft | frontend/src/components/doctor/DoctorProfile.jsx:206 | a number iff the limit is one, and then slots left plus current patients is the limit |
| DoctorProfile.CapacityCrossMultiplied | frontend/src/components/doctor/DoctorProfile.jsx:198-199 | with a positive limit the bar is red iff current/limit > 0.8, yellow iff it is in (0.5, 0.8], green otherwise |
| DoctorProfilePage.MockDoctor | frontend/src/pages/doctor/DoctorProfilePage.jsx:48-72 | the name is the user's name, or "Dr. Sarah Johnson" without one; a user photo is used as the photo |
| DoctorProfilePage.SlotFlagAt | frontend/src/pages/doctor/DoctorProfilePage.jsx:101-112 | a slot's flag is read from the first slot of that name |
| DoctorProfilePage.ToggleFacts | frontend/src/pages/doctor/DoctorProfilePage.jsx:101-112 | fails iff no day has that name; otherwise day names are kept, only the first day of that name changes, its slot's flag is negated and its other slots keep their flags |
| DoctorProfilePage.ToggleTwice | frontend/src/pages/doctor/DoctorProfilePage.jsx:101-112 | toggling the same existing slot twice restores the availability |
| DoctorProfilePage.TrimAll | frontend/src/pages/doctor/DoctorProfilePage.jsx:127 | each piece trimmed, in order |
| DoctorProfilePage.ParseLinesFacts | frontend/src/pages/doctor/DoctorProfilePage.jsx:122-126 | the kept lines are exactly the lines that are not blank, in order |
| DoctorProfilePage.ParseLanguagesFacts | frontend/src/pages/doctor/DoctorProfilePage.jsx:127 | the kept languages are exactly the non-empty trimmed pieces, in order |
| DoctorProfilePage.ParseLinesRoundTrip | frontend/src/pages/doctor/DoctorProfilePage.jsx:122-126 | parsing the one-per-line text of non-blank items without newlines gives the items back |
| DoctorProfilePage.ParseLanguagesRoundTrip | frontend/src/pages/doctor/DoctorProfilePage.jsx:127 | parsing the ", "-joined trimmed languages gives them back |
| DoctorProfilePage.SaveKeepsOtherFields | frontend/src/pages/doctor/DoctorProfilePage.jsx:114-137 | saving keeps the name, photo, patient count, rating and review count, and takes the availability from the editor |
| DoctorProfilePage.SaveUnedited | frontend/src/pages/doctor/DoctorProfilePage.jsx:75-137 | saving the editor's text of a profile without editing gives the profile back, for a profile whose lists have no blank items and whose languages carry no comma or outer space |
| DoctorProfilePage.ProfilePage.constructor | frontend/src/pages/doctor/DoctorProfilePage.jsx:14-40 | a non-doctor is sent to the login page; a doctor's loaded profile is shown, not being edited |
| DoctorProfilePage.ProfilePage.StartEditing | frontend/src/pages/doctor/DoctorProfilePage.jsx:153 | only the editing flag is set |
| DoctorProfilePage.ProfilePage.FieldChange | frontend/src/pages/doctor/DoctorProfilePage.jsx:96-99 | sets one editor field and nothing else |
| DoctorProfilePage.ProfilePage.AvailabilityChange | frontend/src/pages/doctor/DoctorProfilePage.jsx:101-112 | succeeds iff the day exists, and then toggles that slot in the editor |
| DoctorProfilePage.ProfilePage.SaveProfile | frontend/src/pages/doctor/DoctorProfilePage.jsx:114-137 | the profile becomes the parsed editor data, and editing ends |
| DoctorProfilePage.ProfilePage.CancelEditing | frontend/src/pages/doctor/DoctorProfilePage.jsx:166-182 | the editor is reset to the editor text of the unchanged profile and editing ends; leaving the editor unedited then saving gives the profile back by SaveUnedited |
| HospitalPatients.ApplyFilters | frontend/src/pages/hospital/PatientsPage.jsx:184-216 | the staged filtering equals the specification's single filter |
| HospitalPatients.FilteredFacts | frontend/src/pages/hospital/PatientsPage.jsx:184-216 | order is kept; a patient is listed iff the search, gender, age range and department all accept them; without filters everyone is listed |
| HospitalPatients.AgeRanges | frontend/src/pages/hospital/PatientsPage.jsx:203-208 | "a-b" with b ≠ 0 keeps exactly the ages a..b, and "a-" keeps every age from a up |
| HospitalPatients.SixtyOnePlus | frontend/src/pages/hospital/PatientsPage.jsx:318 | the "61-" option keeps exactly the ages from 61 up |
| HospitalPatients.OpenEndedOption | frontend/src/pages/hospital/PatientsPage.jsx:203-208 | any "a-" option keeps exactly the ages from a up |
| HospitalPatients.PatientsPage.constructor | frontend/src/pages/hospital/PatientsPage.jsx:7-15 | every loaded patient listed with no filters |
| HospitalPatients.PatientsPage.Refresh | frontend/src/pages/hospital/PatientsPage.jsx:21-23 | the listed patients are the filtered list |
| HospitalPatients.PatientsPage.FilterChange | frontend/src/pages/hospital/PatientsPage.jsx:222-225 | sets one filter and nothing else |
| HospitalPatients.PatientsPage.ResetFilters | frontend/src/pages/hospital/PatientsPage.jsx:227-235 | clears the filters and the search, so the next filtering lists everyone |
| HospitalAppointments.ApplyFilters | frontend/src/pages/hospital/AppointmentsPage.jsx:176-219 | the staged filtering equals the specification's single filter |
| HospitalAppointments.FilteredFacts | frontend/src/pages/hospital/AppointmentsPage.jsx:176-219 | order is kept; an appointment is listed iff the search, status, department and both date bounds accept it; without filters everything is listed |
| HospitalAppointments.StatusBadge | frontend/src/pages/hospital/AppointmentsPage.jsx:247-262 | the badge of each known status; an unknown status is shown as written, in grey |
| HospitalAppointments.ActionFor | frontend/src/pages/hospital/AppointmentsPage.jsx:264-297 | check-in iff confirmed, complete iff in progress, confirm iff pending, otherwise a link to the appointment's details |
| HospitalAppointments.ActionButtonLabel | frontend/src/pages/hospital/AppointmentsPage.jsx:264-297 | the button reads "Check In", "Complete" or "Confirm" for a confirmed, in-progress or pending appointment, and the text is "View Details" iff the status is any other |
| HospitalAppointments.BadgeTextsDistinct | frontend/src/pages/hospital/AppointmentsPage.jsx:247-262 | different known statuses get different badges |
| HospitalAppointments.AppointmentsPage.constructor | frontend/src/pages/hospital/AppointmentsPage.jsx:9-18 | every loaded appointment listed with no filters |
| HospitalAppointments.AppointmentsPage.Refresh | frontend/src/pages/hospital/AppointmentsPage.jsx:24-26 | the listed appointments are the filtered list |
| HospitalAppointments.AppointmentsPage.StatusChange | frontend/src/pages/hospital/AppointmentsPage.jsx:225-228 | sets the status filter and nothing else |
| HospitalAppointments.AppointmentsPage.DepartmentChange | frontend/src/pages/hospital/AppointmentsPage.jsx:225-228 | sets the department filter and nothing else |
| HospitalAppointments.AppointmentsPage.DateChange | frontend/src/pages/hospital/AppointmentsPage.jsx:230-232 | sets one date bound and nothing else |
| HospitalAppointments.AppointmentsPage.ResetFilters | frontend/src/pages/hospital/AppointmentsPage.jsx:234-242 | clears the filters and the search, so the next filtering lists everything |
| HospitalDoctors.FilteredDoctorsFacts | frontend/src/pages/hospital/DoctorsPage.jsx:97-104 | order is kept; a doctor is listed iff the search and the department accept them; with neither set everyone is listed |
| HospitalDoctors.StatusBadge | frontend/src/pages/hospital/DoctorsPage.jsx:106-115 | active and leave have their own badges; any other status is shown as written, in grey |
| HospitalEmergency.TabsPartition | frontend/src/pages/hospital/EmergencyPage.jsx:123-129 | each tab shows exactly its requests, in order; no request is on both tabs |
| HospitalEmergency.TabCounts | frontend/src/pages/hospital/EmergencyPage.jsx:123-129 | the two tabs together hold at most all requests |
| HospitalEmergency.PriorityBadge | frontend/src/pages/hospital/EmergencyPage.jsx:131-144 | the badge of each priority; any other priority is shown as written, in grey |
| HospitalEmergency.StatusBadge | frontend/src/pages/hospital/EmergencyPage.jsx:146-159 | the badge of each status; any other status is shown as written, in grey |
| HospitalEmergency.Shown | frontend/src/pages/hospital/EmergencyPage.jsx:333-344 | an optional dispatch value is shown iff it is set and not empty, and then as written |
| HospitalEmergency.ActionsPanel | frontend/src/pages/hospital/EmergencyPage.jsx:280-345 | the heading is "Dispatch Details" for closed requests and "Actions" otherwise; dispatch and cancel iff pending; a dispatch block iff the request is dispatched or closed and has dispatch details: the ambulance, dispatch time and ETA while dispatched, and the record with the arrival time and hospital where set once closed; never both the dispatch button and a block |
| HospitalEmergency.HistoryOffersNoAction | frontend/src/pages/hospital/EmergencyPage.jsx:280-345 | requests on the history tab (EmergencyPage.jsx:123-129) offer no action, and the only block they can show is the dispatch record |
| HospitalEmergency.HistoryShowsDispatchRecord | frontend/src/pages/hospital/EmergencyPage.jsx:323-345 | a request on the history tab (EmergencyPage.jsx:123-129) with dispatch details shows exactly its dispatch record |
| MedicalRecords.TabRecordsFacts | frontend/src/pages/patient/MedicalRecords.jsx:85-94 | each tab lists exactly its kind of record, in order; the visits and tests tabs share none; an unknown tab lists nothing |
| MedicalRecords.TabCounts | frontend/src/pages/patient/MedicalRecords.jsx:85-94 | the visits and tests tabs together hold at most all records |
| MedicalRecords.RecordsView.constructor | frontend/src/pages/patient/MedicalRecords.jsx:7-9 | the loaded records on the records tab, none opened |
| MedicalRecords.RecordsView.ViewRecord | frontend/src/pages/patient/MedicalRecords.jsx:77-79 | the record is opened; nothing else changes |
| MedicalRecords.RecordsView.CloseViewRecord | frontend/src/pages/patient/MedicalRecords.jsx:81-83 | no record is opened; nothing else changes |
| Validation.EmailLikeIffShapedPiece | frontend/src/utils/validation.js:48 | the unanchored address pattern matches iff some piece of the text is shaped like an address |
| Validation.EmailExamples | frontend/src/utils/validation.js:48 | text around an address does not matter, but a space inside its domain part does |
| Validation.Collect | frontend/src/utils/validation.js:25-71 | the errors object holds a field iff some check of that field failed |
| Validation.CollectMessages | frontend/src/utils/validation.js:25-71 | every collected message is the message of a failing check of that field |
| Validation.CollectAt | frontend/src/utils/validation.js:25-71 | a check that shares its field with no other check decides that field alone: present iff it failed, with its message |
| Validation.Need | frontend/src/utils/validation.js:9-11 | a required field fails iff it is missing or empty |
| Validation.Needs | frontend/src/utils/validation.js:78-98 | one required-field check per listed field, in order |
| Validation.CollectNeeds | frontend/src/utils/validation.js:78-98 | with distinct fields, the required-field checks report exactly the missing fields, each with its own message, and nothing else |
| Validation.MinLength | frontend/src/utils/validation.js:28-38 | a required field that is missing or shorter than the minimum fails with the matching message |
| Validation.Confirmation | frontend/src/utils/validation.js:40-44 | a missing confirmation, or one that differs from the password, fails |
| Validation.Email | frontend/src/utils/validation.js:46-50 | a missing email, or one that does not match the pattern, fails |
| Validation.Contact | frontend/src/utils/validation.js:64-68 | a missing contact number, or one with fewer than 10 or more than 15 digits, fails |
| Validation.ValidateLogin | frontend/src/utils/validation.js:6-18 | errors exactly for the missing username and password, each with its message |
| Validation.ValidateLoginEmpty | frontend/src/utils/validation.js:6-18 | a login form passes iff both fields are filled |
| Validation.ValidateRegistration | frontend/src/utils/validation.js:25-71 | errors only for the registration fields |
| Validation.RegistrationCheckAt | frontend/src/utils/validation.js:25-71 | each registration check alone decides its field |
| Validation.RegistrationLengths | frontend/src/utils/validation.js:28-38 | the username and password are missing, too short, or accepted |
| Validation.RegistrationConfirmAndEmail | frontend/src/utils/validation.js:40-50 | the confirmation and the email are each missing, wrong, or accepted |
| Validation.RegistrationRequiredAndContact | frontend/src/utils/validation.js:52-68 | name, date of birth and gender are required, and the contact needs 10 to 15 digits |
| Validation.ValidateRegistrationEmpty | frontend/src/utils/validation.js:25-71 | a registration form passes iff every rule holds |
| Validation.ValidateMedicalRecord | frontend/src/utils/validation.js:78-98 | errors exactly for the missing patient, diagnosis and treatment, each with its message |
| Validation.ValidatePrescription | frontend/src/utils/validation.js:101-130 | errors exactly for the missing patient, medication name, dosage, frequency and duration, each with its message |
| Validation.PastDate | frontend/src/utils/validation.js:147-156 | an appointment date fails iff it is missing, or parses to a moment strictly before now |
| Validation.ValidateAppointment | frontend/src/utils/validation.js:132-163 | errors exactly for the failing appointment checks; the date error says "required" when the date is missing and "in the past" otherwise |
| Validation.AppointmentNowIsNotPast | frontend/src/utils/validation.js:150-155 | a date equal to now is accepted and is in the past a moment later |
| Validation.ValidateEmergencyRequest | frontend/src/utils/validation.js:170-186 | errors exactly for the missing patient, location and emergency type, each with its message |
| Validation.ValidatePharmacyOrder | frontend/src/utils/validation.js:193-213 | errors exactly for the missing patient, prescription, pharmacy name and delivery address, each with its message |
| Validation.ValidateForgotPassword | frontend/src/utils/validation.js:215-225 | an error iff the email does not match the address pattern (a missing one never does): "required" when it is missing and "invalid" otherwise |
| Validation.ValidateResetPassword | frontend/src/utils/validation.js:227-243 | a password error iff it is shorter than 6, a confirmation error iff it is missing or different, each with its message |
| Validation.ValidateProfile | frontend/src/utils/validation.js:250-264 | a name error iff the name is missing, an email error iff the email is not an address, each with its message |
| Validation.SharedRules | frontend/src/utils/validation.js:215-264 | the reset form refuses the same confirmations as registration, and every form with an email refuses the same addresses |
| Helpers.AppointmentStatusClass | frontend/src/utils/helpers.js:26-39 | success, danger and warning iff the lower-cased status is completed, cancelled and rescheduled; primary for anything else or no status |
| Helpers.EmergencyStatusClass | frontend/src/utils/helpers.js:42-55 | primary, success and danger iff the lower-cased status is dispatched, completed and cancelled; warning for anything else or no status |
| Helpers.StatusClassesIgnoreCase | frontend/src/utils/helpers.js:26-55 | an upper- or lower-cased status gets the badge of the status as written |
| Helpers.FormatPhoneNumber | frontend/src/utils/helpers.js:58-70 | empty text is "N/A"; ten digits are laid out as (xxx) xxx-xxxx with the same digits; anything else is shown as written |
| Helpers.DigitsOfLayout | frontend/src/utils/helpers.js:65-67 | the digits of the layout are the three groups, in order |
| Helpers.FormatPhoneNumberIdempotent | frontend/src/utils/helpers.js:58-70 | formatting a formatted number changes nothing |
| Helpers.ToInt32 | frontend/src/utils/helpers.js:78-79 | the signed 32-bit integer congruent to the value modulo 2^32 |
| Helpers.Hash32 | frontend/src/utils/helpers.js:76-79 | the hash is a number below 2^32 |
| Helpers.ColorOf | frontend/src/utils/helpers.js:81-85 | "#" followed by six hex digits |
| Helpers.ColorOfReadsBack | frontend/src/utils/helpers.js:81-85 | the colour's three hex pairs are the hash's three low bytes, low byte first |
| Helpers.StringToColor | frontend/src/utils/helpers.js:73-88 | the default blue for empty text; otherwise the loop over the characters gives the specified colour, "#" and six hex digits |
| Helpers.CapitalizeWord | frontend/src/utils/helpers.js:95 | same length, first character upper case and the rest lower case |
| Helpers.CapitalizeWordsPieces | frontend/src/utils/helpers.js:91-97 | the result's space-separated pieces are the input's pieces, each capitalised |
| Helpers.CapitalizeWordsLength | frontend/src/utils/helpers.js:91-97 | capitalising keeps the length |
| Helpers.CapitalizeWordsIdempotent | frontend/src/utils/helpers.js:91-97 | capitalising twice is capitalising once |
| Helpers.TruncateText | frontend/src/utils/helpers.js:100-103 | never longer than the text or maxLength + 3 |
| Helpers.TruncateTextShape | frontend/src/utils/helpers.js:100-103 | the result is the text, or a strict prefix of length maxLength followed by "..." |
| Helpers.TruncateTextIdempotent | frontend/src/utils/helpers.js:100-103 | truncating a truncated text changes nothing |
| Helpers.CalculateAge | frontend/src/utils/helpers.js:106-119 | "N/A" iff the date is empty, NaN iff it does not parse; otherwise the age n is such that the n-th birthday is on or before today and the next one is after |
| JsNumbers.ToNumber | frontend/src/pages/doctor/PatientDirectory.jsx:136 | blank text is 0, and no result is negative |
| JsNumbers.ToNumberOfNatString | frontend/src/pages/doctor/PatientDirectory.jsx:136 | Number(String(n)) is n |
| JsNumbers.ParseIntOfString | frontend/src/pages/doctor/DoctorProfilePage.jsx:120-121 | parseInt(String(x), 10) is x, NaN included |
| JsNumbers.RangeOfTwoNumbers | frontend/src/pages/hospital/PatientsPage.jsx:204 | the range "a-b" has the bounds a and b |
| JsNumbers.RangeOpenEnded | frontend/src/pages/hospital/PatientsPage.jsx:204 | the range "a-" has the bounds a and 0 |

## Left out

- SQL text, JOIN shapes and ORDER BY: each read route states which rows it returns, not their order or columns.
- The ILIKE matching of the search route: `Backend.Store.Search` states which query runs, not what the query returns.
- The 500 answers: a failing query or a lost connection is not modelled.
- Concurrency and transactions: every handler is one atomic step. Whether two bookings that race both pass the conflict check is not modelled.
- `Math.random` in the medical id: the drawn six-digit number is a parameter of `Backend.Store.Register`.
- `jwt.sign`, `jwt.verify` and `bcrypt`: these are function parameters. Token expiry is part of `verify`.
- Dates and clocks: dates are whole day numbers or abstract moments. Today and "a month ago" are parameters. Parsing of date text is a parameter that may fail. `formatDate`, `formatDateTime` and date-fns are not modelled.
- The difference between UTC and local time when the pages compare dates is not modelled.
- The browser side: localStorage, toasts, navigation, `setTimeout` delays and the fetch calls of the pages. Navigation is kept only as the page a handler goes to.
- `generateId` and the other mock-data generators of the pages are not modelled. Their data is an input.
- The login's catch path (`Login failed`) is not reachable in the mock provider, so it is not modelled.
- `{ id: registeredUsers.length + 3, ...userData }` lets an `id` inside `userData` override the computed id. The model ignores that override: its registration data has no `id` field, so `AuthContext.AuthProvider.Register` always gives the computed id.
- The order of keys in a JavaScript object: `Object.entries` lists integer-like keys first. The tally is modelled in insertion order only.
- `Tally.TallyValues` and the counts of `Backend.Store.PatientStatistics` and `DoctorPrescriptions.CalculateStats`: the model gives every value its true count. The source counts in a plain object, `counts[k] = (counts[k] || 0) + 1`, which also answers the names it inherits from `Object.prototype`. A value such as "constructor", "toString", "valueOf" or "hasOwnProperty" starts from the inherited function, so its count becomes a string and the `b[1] - a[1]` sort compares it as NaN. A value "__proto__" is never counted, because assigning a number to `__proto__` is ignored. The model and the source agree only for values that are not such names.
- Unicode text: JavaScript's `\s` (in the email pattern and in `trim`) also matches non-ASCII spaces such as the no-break space, whereas `Common.IsSpace` is the ASCII white space only. `.length` counts UTF-16 code units, whereas the model counts characters, so a character outside the Basic Multilingual Plane counts once here and twice in the browser.
- `DoctorDashboard.Dashboard`: in `frontend/src/pages/doctor/Dashboard.jsx:100-115` the bodies of `fetchDoctorData` and `fetchAppointments` are empty `try {}` blocks. `setDoctor` is never called and `setLoading(false)` is only in a catch that cannot run, so the page stays on its spinner (line 175) and its handlers cannot be reached from the browser. The model takes the doctor's appointments as an input and states what the handlers would do once the page is shown.
- `Helpers.StringToColor`: `charCodeAt` is the character's code, that is, characters outside the Basic Multilingual Plane are taken as one unit, not as two surrogates.
- `DoctorProfile.CalculateAvailability`: states only that the result is within half a unit of the exact percentage. It does not state that a tie of `Math.round` on a double rounds up.
- `DoctorProfile.CapacityCrossMultiplied`: compares exact real ratios, not the double-precision quotient.
- `JsNumbers.ToNumber`: decimals, exponents, hex literals, a leading "+" or "-" and "Infinity" are all NaN here, whereas `Number` reads them. The selects only offer whole numbers, and every caller converts a piece of `split('-')`, which never holds a "-".
- `DoctorProfilePage.MockDoctor`: the mock doctor's `id` field is not modelled.
- `DoctorProfilePage.ProfilePage.SaveProfile` and `DoctorProfilePage.ProfilePage.CancelEditing` require a loaded doctor, because their buttons are rendered only after loading.
- `ApiRoutes.Store.CreatePatient` requires a medical id of 6 to 20 characters, because the request schema refuses any other before the handler runs.
- Ids in the Python routes are assigned as count + 1, standing for the database's serial column.
- The `response_model` names that `backend/routes.py` imports are not in `schemas.py`. The model takes them to be the stored rows.
- The default availability week of the profile card is modelled. No lemma states its concrete slots.
