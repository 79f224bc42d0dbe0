# Clinic appointment client: a Dafny model

This project models the decision logic of a Next.js / React client for a clinic
appointment service. Patients browse doctors, book appointments and cancel them.
Doctors list their appointments and mark them completed or cancelled.

The model covers three parts of that client:

- **The three list views.** These are the doctor's appointment table, the
  patient's appointment page and the doctor search list. Each is a `class View`
  whose fields are the component's `useState` variables. Each event handler is a
  method, and its `requires` is the handler's enabling condition: the control is
  rendered and not disabled. Each method is tied to a pure `Step` over an `Event`
  datatype. It is proved that every admissible run of events keeps `page >= 1`.
  It is also shown by a concrete run that `page <= totalPages` does *not* hold.
  Each view has a query-parameter mapping, where an empty string becomes an
  absent parameter, and that mapping is proved to determine the filter state.
- **Role-based routing.** This covers the login, registration, root page and
  navbar destinations, and the middleware. The middleware recognises `/login`
  and `/register` but lets every request through. The `Consistency` module
  checks every copy of the DOCTOR / PATIENT dashboard rule against one
  reference definition.
- **Appointment status rules.** These are:
  - actions exist only on PENDING appointments;
  - a status update can target only COMPLETED or CANCELLED (a subset type);
  - the badge colours;
  - the request bodies (booking, cancellation, registration with `photo_url`
    normalised);
  - the `Authorization: Bearer` header added by the request interceptor.

Side effects are returned as an ordered `seq<Effect>`, and an error handler
returns its one error toast. The effects are: session login and logout,
toasts, `router.push`, query invalidation, sending a request, form reset and
modal close. Orders such as "session first, then navigate" or "reset, then
close" are stated with `Effects.Precedes`. The stored token is an input, and so
are the answers to `window.confirm` (a function from the prompt text to yes or
no), today's date and the time.

Modules: `Js` (the `x || undefined` and `x || fallback` idioms), `Types`, `Api`,
`Effects`, `Listing` (pagination guards shared by the lists), `Calendar`
(civil dates, `toISOString`, `split('T')[0]`), one module per component or page,
`Middleware` and `Consistency`.

The middleware looks like an authentication gate, but both of its branches
return `NextResponse.next()` (src/middleware.ts:11-17), and its own comment
leaves protection to the client. `Middleware.Handle` therefore passes every
path through.

## Model

| member | source | states |
|---|---|---|
| Js.OrUndefined | src/components/doctor/AppointmentManagement.tsx:21-22 | `s \|\| undefined` on a string is absent exactly when `s` is empty, and is `s` itself otherwise |
| Js.OptionalOrUndefined | src/components/auth/RegisterForm.tsx:67 | an optional string stays present exactly when it is present and non-empty, with its value unchanged |
| Js.OrElse | src/components/auth/LoginForm.tsx:42 | the backend message when it is present and non-empty, else the fallback |
| Js.OrUndefinedRoundTrip | src/components/doctor/AppointmentManagement.tsx:21-22 | reading the dropped string back as `""` recovers the original string, so the mapping loses nothing |
| Js.OptionalOrUndefinedIdempotent | src/components/auth/RegisterForm.tsx:67 | normalising an optional string twice is the same as once |
| Types.ParseStatus | src/types/index.ts:23 | a parsed status prints back as the parsed string; a string that fails to parse is the name of no status |
| Types.ParseStatusName | src/types/index.ts:23 | each of PENDING, COMPLETED and CANCELLED parses back from its own name |
| Api.RouteOf | src/lib/api.ts:32-78 | the fixed method and path of each API function: the endpoint table |
| Api.Resolve | src/lib/api.ts:32-78 | a resolved endpoint has exactly the given method and path |
| Api.RouteResolves | src/lib/api.ts:32-78 | every endpoint is found again from its own method and path |
| Api.RoutesDistinct | src/lib/api.ts:32-78 | no two endpoints share a method and path |
| Api.Call | src/lib/api.ts:32-78 | the request built for an endpoint resolves back to that endpoint |
| Api.LoginCall | src/lib/api.ts:33-34 | POST `/auth/login` carrying the login data |
| Api.RegisterPatientCall | src/lib/api.ts:36-37 | POST `/auth/register/patient` carrying the patient data |
| Api.RegisterDoctorCall | src/lib/api.ts:39-40 | POST `/auth/register/doctor` carrying the doctor data |
| Api.SpecializationsCall | src/lib/api.ts:44-46 | GET `/specializations` with no payload |
| Api.DoctorsCall | src/lib/api.ts:49-56 | GET `/doctors` with the given query parameters |
| Api.CreateAppointmentCall | src/lib/api.ts:60-61 | POST `/appointments` carrying `{doctorId, date}` |
| Api.PatientAppointmentsCall | src/lib/api.ts:63-66 | GET `/appointments/patient` with the given parameters |
| Api.DoctorAppointmentsCall | src/lib/api.ts:68-72 | GET `/appointments/doctor` with the given parameters |
| Api.UpdateStatusCall | src/lib/api.ts:74-77 | PATCH `/appointments/update-status`; the status type admits only COMPLETED and CANCELLED |
| Api.HasToken | src/lib/api.ts:25 | `if (token)`: a stored token counts only when present and non-empty |
| Api.WithBearer | src/lib/api.ts:23-29 | with a non-empty token, Authorization is `"Bearer " + token`; with none or an empty one, the headers are unchanged; no other header is added, removed or changed |
| Api.BearerRoundTrip | src/lib/api.ts:26 | the server reading the Authorization header after the prefix gets exactly the stored token |
| Api.InterceptKeepsContentType | src/lib/api.ts:15-20 | the default Content-Type `application/json` survives the interceptor, token or not |
| Api.RequestConfig.constructor | src/lib/api.ts:13-20 | a request starts with the base URL and the default headers |
| Api.Intercept | src/lib/api.ts:23-29 | the interceptor updates only the headers of the config it is given, as `WithBearer` says, and returns that same object |
| Effects.Pushes | src/components/auth/LoginForm.tsx:39 | the navigations among the effects, in order: a path is listed exactly when it is pushed |
| Listing.FilterValue | src/app/patient/appointments/page.tsx:56-95 | "All" is the empty string, and every other button's value parses back to its status |
| Listing.ControlsShown | src/components/doctor/AppointmentManagement.tsx:217 | the pagination controls are rendered exactly when `totalPages > 1`, in all three lists |
| Listing.PreviousEnabled | src/components/doctor/AppointmentManagement.tsx:222 | Previous is disabled exactly on page 1, in all three lists |
| Listing.NextEnabled | src/components/doctor/AppointmentManagement.tsx:234 | Next is disabled exactly when `page == totalPages`, an equality and not a bound, in all three lists |
| AppointmentManagement.ClearShown | src/components/doctor/AppointmentManagement.tsx:102 | the Clear Filters button is rendered exactly when status or date is non-empty |
| AppointmentManagement.Step | src/components/doctor/AppointmentManagement.tsx:61-96 | each enabled handler keeps a positive page positive |
| AppointmentManagement.RunKeepsPagePositive | src/components/doctor/AppointmentManagement.tsx:217-237 | every run of enabled handlers from a positive page ends on a positive page |
| AppointmentManagement.ReachablePagePositive | src/components/doctor/AppointmentManagement.tsx:12 | every state reachable from the initial state has `page >= 1` |
| AppointmentManagement.PageCanPassTotalPages | src/components/doctor/AppointmentManagement.tsx:231-235 | Next is disabled only when `page == totalPages`, so a status change that shrinks the list leaves Next enabled past the last page (page 4 with 2 pages) |
| AppointmentManagement.QueryParams | src/components/doctor/AppointmentManagement.tsx:19-23 | `page` is always sent; `status` and `date` are absent exactly when empty and verbatim otherwise |
| AppointmentManagement.QueryParamsRoundTrip | src/components/doctor/AppointmentManagement.tsx:18-23 | the filter state is recovered from its query, so distinct states send distinct queries |
| AppointmentManagement.ListRequest | src/components/doctor/AppointmentManagement.tsx:17-24 | the list query is GET `/appointments/doctor` with those parameters |
| AppointmentManagement.StatusColor | src/components/doctor/AppointmentManagement.tsx:48-59 | PENDING yellow, COMPLETED green, CANCELLED red; gray exactly for strings that are not a status |
| AppointmentManagement.Actions | src/components/doctor/AppointmentManagement.tsx:177-198 | a row offers actions exactly when it is PENDING, and then Complete and Cancel in that order |
| AppointmentManagement.HandleStatusUpdate | src/components/doctor/AppointmentManagement.tsx:26-46 | the doctor is asked this target's question, and exactly on a yes one PATCH `/appointments/update-status` is sent with this id and the chosen target; on a no nothing is sent |
| AppointmentManagement.ConfirmPrompt | src/components/doctor/AppointmentManagement.tsx:42-43 | "mark as completed" for COMPLETED and "cancel" for CANCELLED, inside "Are you sure you want to … this appointment?" |
| AppointmentManagement.PromptsDistinct | src/components/doctor/AppointmentManagement.tsx:42-43 | the two targets ask different questions |
| AppointmentManagement.ActionRequestsTarget | src/components/doctor/AppointmentManagement.tsx:177-198 | an action button exists only on a PENDING row, and sends that row's id with COMPLETED (first) or CANCELLED (second) |
| AppointmentManagement.OnUpdateSuccess | src/components/doctor/AppointmentManagement.tsx:32-35 | exactly two effects: the success toast, then the invalidation of the `doctor-appointments` query |
| AppointmentManagement.OnUpdateError | src/components/doctor/AppointmentManagement.tsx:36-38 | an error toast shows the backend message when present and non-empty; when it is absent or empty, "Failed to update appointment status" |
| AppointmentManagement.EmptyHint | src/components/doctor/AppointmentManagement.tsx:212 | the "adjust your filters" hint appears exactly when the Clear button does |
| AppointmentManagement.View.constructor | src/components/doctor/AppointmentManagement.tsx:12-14 | starts on page 1 with no filters |
| AppointmentManagement.View.SelectStatus | src/components/doctor/AppointmentManagement.tsx:79 | sets the status and leaves page and date unchanged |
| AppointmentManagement.View.EnterDate | src/components/doctor/AppointmentManagement.tsx:96 | sets the date and leaves page and status unchanged |
| AppointmentManagement.View.ClearFilters | src/components/doctor/AppointmentManagement.tsx:61-65 | callable when the Clear button is shown; status and date become empty and page becomes 1 |
| AppointmentManagement.View.Previous | src/components/doctor/AppointmentManagement.tsx:217-223 | callable when the controls are shown and `page != 1`; decrements the page, keeping it at least 1 |
| AppointmentManagement.View.Next | src/components/doctor/AppointmentManagement.tsx:231-235 | callable when the controls are shown and `page != totalPages`; increments the page |
| PatientAppointments.ClearShown | src/app/patient/appointments/page.tsx:41 | the Clear Filters button is rendered exactly when the status is non-empty |
| PatientAppointments.Step | src/app/patient/appointments/page.tsx:23-95 | each enabled handler keeps a positive page positive |
| PatientAppointments.RunKeepsPagePositive | src/app/patient/appointments/page.tsx:144-161 | every run of enabled handlers from a positive page ends on a positive page |
| PatientAppointments.RunKeepsStatusKnown | src/app/patient/appointments/page.tsx:56-95 | the status is always "" or one of the three status names |
| PatientAppointments.PageCanPassTotalPages | src/app/patient/appointments/page.tsx:156-159 | a status button keeps the page, so Next stays enabled past the last page |
| PatientAppointments.QueryParams | src/app/patient/appointments/page.tsx:17-20 | `page` is always sent; `status` is absent exactly when empty |
| PatientAppointments.QueryParamsRoundTrip | src/app/patient/appointments/page.tsx:16-20 | the filter state is recovered from its query |
| PatientAppointments.ListRequest | src/app/patient/appointments/page.tsx:15-21 | the list query is GET `/appointments/patient` with those parameters |
| PatientAppointments.Highlighted | src/app/patient/appointments/page.tsx:57-100 | a status button is highlighted exactly when `status` equals its value |
| PatientAppointments.PressedButtonHighlighted | src/app/patient/appointments/page.tsx:57-100 | after a button is pressed exactly that button is highlighted |
| PatientAppointments.EmptyHint | src/app/patient/appointments/page.tsx:137 | the "adjust your filters" hint appears exactly when a status filter is set |
| PatientAppointments.View.constructor | src/app/patient/appointments/page.tsx:12-13 | starts on page 1 with no status |
| PatientAppointments.View.PressStatusButton | src/app/patient/appointments/page.tsx:56-95 | sets the status to the button's value and keeps the page |
| PatientAppointments.View.ClearFilters | src/app/patient/appointments/page.tsx:23-26 | callable when a status is set; the status becomes empty and page becomes 1 |
| PatientAppointments.View.Previous | src/app/patient/appointments/page.tsx:142-148 | callable when the controls are shown and `page != 1`; decrements the page |
| PatientAppointments.View.Next | src/app/patient/appointments/page.tsx:156-160 | callable when the controls are shown and `page != totalPages`; increments the page |
| DoctorList.ClearShown | src/components/patient/DoctorList.tsx:89 | the Clear button is rendered exactly when search or specialization is non-empty |
| DoctorList.Step | src/components/patient/DoctorList.tsx:33-52 | each enabled handler keeps a positive page positive |
| DoctorList.RunKeepsPagePositive | src/components/patient/DoctorList.tsx:140-157 | every run of enabled handlers from a positive page ends on a positive page |
| DoctorList.RunKeepsOpenModalWithDoctor | src/components/patient/DoctorList.tsx:33-36 | whenever the booking modal is open, a doctor is selected |
| DoctorList.PageCanPassTotalPages | src/components/patient/DoctorList.tsx:152-156 | typing a search keeps the page, so Next stays enabled past the last page |
| DoctorList.QueryParams | src/components/patient/DoctorList.tsx:25-30 | page and `limit` 9 are always sent; `search` and `specialization` are absent exactly when empty |
| DoctorList.QueryParamsDetermineFilters | src/components/patient/DoctorList.tsx:24-30 | equal queries come from equal page, search and specialization |
| DoctorList.ListRequest | src/components/patient/DoctorList.tsx:23-31 | the list query is GET `/doctors` with those parameters |
| DoctorList.View.constructor | src/components/patient/DoctorList.tsx:12-16 | page 1, empty filters, no doctor, modal closed |
| DoctorList.View.TypeSearch | src/components/patient/DoctorList.tsx:67 | changes only the search text |
| DoctorList.View.SubmitSearch | src/components/patient/DoctorList.tsx:38-41 | resets the page to 1 and keeps the search text |
| DoctorList.View.SelectSpecialization | src/components/patient/DoctorList.tsx:43-46 | sets the specialization and resets the page to 1 |
| DoctorList.View.ClearFilters | src/components/patient/DoctorList.tsx:48-52 | callable when the Clear button is shown; empties search and specialization and resets the page |
| DoctorList.View.BookAppointment | src/components/patient/DoctorList.tsx:33-36 | selects the doctor and opens the modal |
| DoctorList.View.CloseModal | src/components/patient/DoctorList.tsx:166 | closes the modal and keeps the selected doctor |
| DoctorList.View.Previous | src/components/patient/DoctorList.tsx:138-144 | callable when the controls are shown and `page != 1`; decrements the page |
| DoctorList.View.Next | src/components/patient/DoctorList.tsx:152-156 | callable when the controls are shown and `page != totalPages`; increments the page |
| AppointmentCard.StatusColor | src/components/patient/AppointmentCard.tsx:38-49 | the same three colours with a gray default for non-status strings |
| AppointmentCard.BadgeNeverGray | src/components/patient/AppointmentCard.tsx:86 | an appointment's own status never gets the gray default |
| AppointmentCard.CancelShown | src/components/patient/AppointmentCard.tsx:93 | the cancel control is rendered exactly for a PENDING appointment |
| AppointmentCard.CancelRequest | src/components/patient/AppointmentCard.tsx:18-22 | PATCH `/appointments/update-status` with this appointment's id and CANCELLED |
| AppointmentCard.HandleCancel | src/components/patient/AppointmentCard.tsx:32-36 | on a PENDING card the patient is asked "Are you sure you want to cancel this appointment?"; on a yes the cancel request is sent, otherwise nothing |
| AppointmentCard.OnCancelSuccess | src/components/patient/AppointmentCard.tsx:23-26 | exactly two effects: a success toast, then the invalidation of the `patient-appointments` query |
| AppointmentCard.OnCancelError | src/components/patient/AppointmentCard.tsx:27-29 | the backend message when present and non-empty; when it is absent or empty, "Failed to cancel appointment" |
| BookAppointmentModal.OnSubmit | src/components/patient/BookAppointmentModal.tsx:48-55 | with no doctor nothing is sent; otherwise a create request with the doctor's id and the form's date |
| BookAppointmentModal.SubmitIgnoresFormDoctorId | src/components/patient/BookAppointmentModal.tsx:51-54 | the form's hidden `doctorId` does not affect the request |
| BookAppointmentModal.HandleClose | src/components/patient/BookAppointmentModal.tsx:57-60 | exactly two effects: the form is reset, then the modal is closed |
| BookAppointmentModal.OnBookSuccess | src/components/patient/BookAppointmentModal.tsx:37-42 | exactly four effects: the success toast, the `patient-appointments` invalidation, then the same reset-then-close sequence as `handleClose` |
| BookAppointmentModal.OnBookError | src/components/patient/BookAppointmentModal.tsx:43-45 | the backend message when present and non-empty; when it is absent or empty, "Failed to book appointment" |
| BookAppointmentModal.MinDate | src/components/patient/BookAppointmentModal.tsx:64-67 | the part before 'T' of tomorrow's ISO string is tomorrow's `YYYY-MM-DD` text, whatever the time |
| BookAppointmentModal.Render | src/components/patient/BookAppointmentModal.tsx:62-71 | nothing without a doctor; otherwise the dialog for that doctor with tomorrow as minimum date |
| BookAppointmentModal.MinDateAfterToday | src/components/patient/BookAppointmentModal.tsx:64-67 | the minimum date names a valid day strictly after today |
| Calendar.DaysInMonth | src/components/patient/BookAppointmentModal.tsx:66 | 28 to 31 days, with 29 in February exactly in leap years |
| Calendar.NextDay | src/components/patient/BookAppointmentModal.tsx:66 | `setDate(getDate() + 1)` gives a valid date after the current one |
| Calendar.NextDayIsSuccessor | src/components/patient/BookAppointmentModal.tsx:66 | no valid date lies strictly between a day and the next |
| Calendar.Pad | src/components/patient/BookAppointmentModal.tsx:67 | a zero-padded field has exactly the given width and only digits |
| Calendar.PadRoundTrip | src/components/patient/BookAppointmentModal.tsx:67 | the padded digits read back as the number |
| Calendar.PadInjective | src/components/patient/BookAppointmentModal.tsx:67 | different numbers pad to different texts |
| Calendar.YearText | src/components/patient/BookAppointmentModal.tsx:67 | four digits for years 0 to 9999, otherwise a sign and six digits; never a 'T' |
| Calendar.DateText | src/components/patient/BookAppointmentModal.tsx:67 | the date text contains no 'T' |
| Calendar.DateTextInjective | src/components/patient/BookAppointmentModal.tsx:67 | distinct dates have distinct texts |
| Calendar.DatePart | src/components/patient/BookAppointmentModal.tsx:67 | `split('T')[0]` is the longest prefix without 'T', and is followed by 'T' when shorter than the string |
| Calendar.DatePartOfJoin | src/components/patient/BookAppointmentModal.tsx:67 | splitting `a + "T" + b` at the first 'T' gives `a` when `a` has no 'T' |
| Calendar.DatePartOfIsoString | src/components/patient/BookAppointmentModal.tsx:67 | the date part of an ISO string is the date's own text |
| LoginForm.OnSubmit | src/components/auth/LoginForm.tsx:46-48 | the form data is sent unchanged to the login endpoint |
| LoginForm.RedirectPath | src/components/auth/LoginForm.tsx:38 | `/doctor/dashboard` exactly for a returned DOCTOR, otherwise `/patient/dashboard` |
| LoginForm.OnSuccess | src/components/auth/LoginForm.tsx:33-40 | exactly three effects: the session gets the returned user and token, the "Login successful!" toast follows, and the only navigation, last, goes to that user's dashboard |
| LoginForm.OnError | src/components/auth/LoginForm.tsx:41-43 | the backend message when present and non-empty; when it is absent or empty, "Login failed" |
| LoginForm.View.constructor | src/components/auth/LoginForm.tsx:15-28 | password hidden, role PATIENT |
| LoginForm.View.TogglePassword | src/components/auth/LoginForm.tsx:119 | flips password visibility and keeps the role |
| LoginForm.View.SelectRole | src/components/auth/LoginForm.tsx:60-81 | sets the role and keeps password visibility |
| LoginForm.View.PasswordInputType | src/components/auth/LoginForm.tsx:111 | the field is `text` exactly when the password is shown |
| RegisterForm.PatientSubmitData | src/components/auth/RegisterForm.tsx:64-68 | an empty `photo_url` becomes absent and every other field is unchanged |
| RegisterForm.DoctorSubmitData | src/components/auth/RegisterForm.tsx:72-76 | the same normalisation for the doctor form, specialization included |
| RegisterForm.SubmitDataNormalised | src/components/auth/RegisterForm.tsx:64-78 | no submission carries an empty photo URL, and normalising twice changes nothing |
| RegisterForm.OnPatientSubmit | src/components/auth/RegisterForm.tsx:64-70 | one POST to `/auth/register/patient` with the normalised data |
| RegisterForm.OnDoctorSubmit | src/components/auth/RegisterForm.tsx:72-78 | one POST to `/auth/register/doctor` with the normalised data |
| RegisterForm.RedirectPath | src/components/auth/RegisterForm.tsx:38-62 | the doctor tab leads to `/doctor/dashboard`, the patient tab to `/patient/dashboard` |
| RegisterForm.OnSuccess | src/components/auth/RegisterForm.tsx:38-62 | exactly three effects: the session gets the returned user and token, the "Registration successful!" toast follows, and the only navigation, last, goes to the tab's dashboard |
| RegisterForm.OnError | src/components/auth/RegisterForm.tsx:38-62 | the backend message when present and non-empty; when it is absent or empty, "Registration failed" |
| RegisterForm.View.constructor | src/components/auth/RegisterForm.tsx:20-21 | starts on the patient tab with the password hidden |
| RegisterForm.View.SelectTab | src/components/auth/RegisterForm.tsx:83-104 | switches the tab and keeps password visibility |
| RegisterForm.View.TogglePassword | src/components/auth/RegisterForm.tsx:135 | flips password visibility and keeps the tab |
| Navbar.Lower | src/components/layout/Navbar.tsx:69 | lower-casing keeps the length and maps each character |
| Navbar.RoleLabel | src/components/layout/Navbar.tsx:69 | the label is "doctor" or "patient" |
| Navbar.Render | src/components/layout/Navbar.tsx:17-69 | nothing without a user; dashboard and appointments paths by role; the appointments link exactly for non-doctors |
| Navbar.AppointmentsLinkGoesToPatientList | src/components/layout/Navbar.tsx:21-44 | a shown "My Appointments" link leads to `/patient/appointments` |
| Navbar.HandleLogout | src/components/layout/Navbar.tsx:12-15 | exactly two effects: the session is cleared, then the only navigation, to `/login` |
| HomePage.Redirect | src/app/page.tsx:11-17 | `/login` exactly when not both authenticated and with a user; otherwise the dashboard of the user's role |
| HomePage.AuthenticatedWithoutUserGoesToLogin | src/app/page.tsx:12-16 | an authenticated flag with no user still goes to `/login` |
| Middleware.Includes | src/middleware.ts:11 | `includes` is exact membership |
| Middleware.IsPublicRoute | src/middleware.ts:8-11 | public exactly for `/login` and `/register` |
| Middleware.Handle | src/middleware.ts:4-18 | every path passes through, public or not |
| Middleware.PublicRouteIsExact | src/middleware.ts:11 | no prefix matching: `/login/`, `/loginx`, `/register/doctor` and `/` are not public |
| Middleware.ExcludedStart | src/middleware.ts:22 | the lookahead `(?!api\|_next/static\|_next/image\|favicon.ico)` after the leading slash, with `.` any character but a line terminator |
| Middleware.Matched | src/middleware.ts:20-24 | a pathname is matched when it starts with `/`, the lookahead does not fire, and `.*` can cover the rest (no line terminator) |
| Middleware.StartNotExcluded | src/middleware.ts:22 | a path not starting with `a`, `_` or `f` is not excluded by the lookahead |
| Middleware.PlainPathMatched | src/middleware.ts:22 | a path of lower-case letters and slashes whose first segment does not start with `a`, `_` or `f` runs the middleware |
| Middleware.MatcherIncludesPages | src/middleware.ts:20-24 | `/login`, `/register`, `/doctor/dashboard` and `/` run the middleware |
| Middleware.MatcherExcludesAssets | src/middleware.ts:20-24 | the four paths `/api/v1/doctors`, `/_next/static/chunk.js`, `/_next/image` and `/favicon.ico` do not run the middleware |
| Middleware.ExcludedPrefixes | src/middleware.ts:20-24 | no path that starts with `/api`, `/_next/static`, `/_next/image` or `/favicon.ico` runs the middleware, whatever follows the prefix |
| Middleware.MatcherExclusionsArePrefixes | src/middleware.ts:22 | the exclusions are unanchored prefixes with a wildcard dot: `/apiary` and `/favicon-ico` are excluded too |
| Consistency.RoleDashboard | src/app/page.tsx:13 | the reference rule: each role's dashboard |
| Consistency.DashboardRuleAgrees | src/components/auth/LoginForm.tsx:38 | login, navbar, root page and both registration tabs follow the reference rule |
| Consistency.StatusColorsAgree | src/components/patient/AppointmentCard.tsx:38-49 | the two copies of `getStatusColor` agree on every string |
| Consistency.CancelPathsAgree | src/components/patient/AppointmentCard.tsx:18-36 | the patient's cancel asks the same question as the doctor's Cancel and, on a yes, sends the same request |
| Consistency.InvalidationsHitTheirLists | src/components/patient/BookAppointmentModal.tsx:39 | cancel and book invalidate the key the patient list queries; a status update invalidates the key of the doctor's list |

## Left out

- JSX rendering, Tailwind classes and skeleton loaders are left out. Only the visibility conditions (Clear button, pagination controls, action buttons, empty hints, the navbar link) are modelled.
- The DoctorCard component and the login, register and dashboard pages are not part of this model. They only compose the modelled components.
- HTTP through axios and the remote backend are left out. A call is a recorded `Api.Request`, and a response is an input to the success handlers.
- react-query caching, refetching and the ordering between concurrent queries are not modelled. An invalidation is recorded only as an `Effect`.
- localStorage is an input: the stored token is a parameter of `Api.Intercept`.
- `window.confirm` is an input: the user's answers are a function from the prompt text to a boolean.
- Toasts, `router.push`, the auth store's `login`/`logout`, `reset()` and `onClose()` are returned as effects. The auth store's state is not shown in the source and is not modelled.
- The zod validation schemas are not modelled, and neither is the react-hook-form machinery. Their rules (for example limits on the booking date) are not part of this model. Form data is taken as already validated.
- `formatDateTime` is not part of this model.
- BookAppointmentModal.MinDate: the clock is an input, and the date is taken in UTC. `toISOString` is in UTC while `setDate` works in local time, so around midnight in other time zones the real minimum date can differ by one day.
- Navbar.Lower: lower-cases ASCII letters only. That is all the role names use, but it is not the full Unicode `toLowerCase`.
- Middleware.Handle: the `NextRequest` object is reduced to its pathname.
- Middleware.Matched: the matcher is read as the JavaScript regular expression anchored over the whole pathname. How Next.js compiles matcher strings beyond that is not modelled.
- The `specializations` query of DoctorList and RegisterForm is modelled only as `Api.SpecializationsCall`. The option lists it fills are rendering.
- Calendar.NextDay: dates run from -271821-04-20 to +275760-09-13, the range of ECMAScript time values. The day after the last one is excluded by the precondition. There `toISOString` would throw a RangeError, which is not modelled. Times on the last day after midnight, which Date also rejects, are not excluded.
