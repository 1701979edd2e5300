# ApiEscuela front end: a verified model of its view logic

ApiEscuela is a school administration system. Administrators manage
students, careers (study programmes with a monthly fee), career price
histories, enrollments, payments and news. Students see their home page,
their careers, their payments and their profile. This project models
the decision logic of the React front end (`frontend-nuevo/src`) in
Dafny and proves properties of it:

- **The paginated lists.** Seven views repeat one infinite-scroll
  controller. It keeps:
  - an accumulated list;
  - the server's page cursor and `has_next` flag;
  - a synchronous in-flight flag (`loadingRef`);
  - an error text.

  It is modelled once, as the class `Paging.Paginator`. A load is split
  at its only suspension point:
  - `BeginLoad` runs the guards and issues the request;
  - `Complete` applies the response.

  The differences between the views are the fields of a `Policy`:
  - whether the in-flight guard exists;
  - when the error is cleared;
  - which spinner a load turns on;
  - the fallback error text;
  - whether a title is kept.

  Each view is a class that owns a `Paginator`, its filter state, and its
  request bodies.
- **Form validators.** The user and career create and edit forms, the
  cuota (instalment) number of a new payment, and the duplicate-enrollment
  check are each a fixed, ordered chain of checks. Messages are a
  datatype per form, rendered by `Text`. `Validation.Failed` collects the
  failing checks in order, and a form submits only when nothing failed.
  The JavaScript built-ins the checks use are modelled in `JsText`:
  - `trim`;
  - the two regular expressions;
  - `parseInt(s, 10)`, including NaN;
  - `String(n)`, with a proved round trip through `parseInt`.
- **Session and roles.** The browser store is a `map<string, string>`.
  - The stored user record is written through `Storage.Encode`, and
    `Storage.Decode` reads it back; the round trip is proved. These two
    functions stand for `JSON.stringify` / `JSON.parse`.
  - The login picks a token and a user from a response with four-way
    `??` fallbacks and writes four keys.
  - The navigation bar resolves the role from those keys, and the route
    guards test the token.
  - Logout removes the four keys.
- **Display helpers.** These cover:
  - news snippets and names with fallbacks;
  - initials and the enrollment-count sentence;
  - avatar URLs and the profile-record merge;
  - the all-or-nothing loading of the admin dashboard.

Each operation is modelled as follows:

- **Network requests.** A request becomes the body the view would send,
  returned by a method. The response is an input datatype.
- **Storage.** Writes to `localStorage` go through the class
  `Storage.LocalStorage`. Pure readers take the map.
- **Outside inputs.** Dialogs (`window.confirm`) become boolean
  parameters. The backend's base URL and the local object URL of a
  chosen file are also parameters.

## Model

| member | source | states |
|---|---|---|
| `Paging.Delivered` | frontend-nuevo/src/views/auth/admin/UsersListView.tsx:84-86 | A page is delivered exactly when the body has a truthy `success` and a `data` object |
| `Paging.FailureText` | frontend-nuevo/src/views/auth/admin/UsersListView.tsx:78-104 | The error a failed load shows: a rejected request shows its message, an HTTP error "Error HTTP: " and the status, a body its message when it has one and otherwise the view's fallback |
| `Paging.Merged` | frontend-nuevo/src/views/auth/admin/UsersListView.tsx:90-94 | Page 1 or a reset replaces the list; any other page is appended after the old items, which are kept in order |
| `Paging.NextTitle` | frontend-nuevo/src/views/auth/admin/CarerrPricesHistoriView.tsx:104-106 | The career name changes only from empty to a non-empty offered name |
| `Paging.SearchParam` | frontend-nuevo/src/views/auth/admin/UsersListView.tsx:62-66 | `search \|\| null`: null exactly for an empty search, otherwise the search text |
| `Paging.RefusalText` | frontend-nuevo/src/views/auth/admin/UserPaymentsView.tsx:359-363 | A refused request shows the server's `detail` when present, else the view's fallback |
| `Paging.PostErrors` | frontend-nuevo/src/views/auth/admin/UserCreateView.tsx:75-91 | After posting a form: no error when accepted; the detail or fallback when refused; the form's failure text when the request threw |
| `Paging.RemoveId` | frontend-nuevo/src/views/auth/admin/UsersListView.tsx:170 | Deleting by id keeps exactly the rows with another id and adds nothing |
| `Paging.RemoveIdConcat` | frontend-nuevo/src/views/auth/admin/UsersListView.tsx:170 | Deleting distributes over the concatenated pages, so the survivors keep their order |
| `Paging.RemoveIdAbsent` | frontend-nuevo/src/views/auth/admin/UsersListView.tsx:170 | A list without that id is left exactly as it was |
| `Paging.RemoveIdIdempotent` | frontend-nuevo/src/views/auth/admin/UsersListView.tsx:170 | Deleting the same id twice is deleting it once |
| `Paging.LoadPagesAppend` | frontend-nuevo/src/views/auth/admin/UsersListView.tsx:90-94 | Successive scroll loads from page 2 on append their pages, in request order |
| `Paging.LoadPagesFromFirst` | frontend-nuevo/src/views/auth/admin/UsersListView.tsx:90-97 | Loading pages 1..N leaves exactly their items in order, whatever the list held, and the list's length is the sum of the page sizes |
| `Paging.Paginator.constructor` | frontend-nuevo/src/views/auth/admin/UsersListView.tsx:31-41 | Initial state: empty list, page 1, more pages, nothing in flight, no error, initial spinner on |
| `Paging.Paginator.BeginLoad` | frontend-nuevo/src/views/auth/admin/UsersListView.tsx:48-58 | A load is issued exactly when no guarded load is in flight and the list is not exhausted for a non-reset page other than 1. A dropped load changes nothing. An issued one sets the in-flight flag, applies the view's error and spinner rules, and keeps the one-request invariant |
| `Paging.Paginator.Complete` | frontend-nuevo/src/views/auth/admin/UsersListView.tsx:78-110 | A delivered page merges the items and takes page and `has_next` from the server. A failure only sets the error. The flags are always cleared |
| `Paging.Paginator.ResetCursor` | frontend-nuevo/src/views/auth/admin/UsersListView.tsx:139-140 | Back to page 1 with more pages; nothing else changes |
| `Paging.Paginator.SetItems` | frontend-nuevo/src/views/auth/admin/UsersListView.tsx:170 | Replaces the items; the cursor, flags and error are unchanged |
| `UsersList.UsersListView.constructor` | frontend-nuevo/src/views/auth/admin/UsersListView.tsx:31-41 | An empty list at page 1 with an empty search |
| `UsersList.UsersListView.Load` | frontend-nuevo/src/views/auth/admin/UsersListView.tsx:48-111 | The posted body (page, 20, `search \|\| null`) is returned exactly when the guards pass; an issued load clears the error |
| `UsersList.UsersListView.Scroll` | frontend-nuevo/src/views/auth/admin/UsersListView.tsx:116-126 | Requests exactly page+1 of the current search, and only near the bottom with more pages and nothing in flight. A request leaves items, page and cursor as they were, marks the load in flight and clears the error; otherwise nothing changes |
| `UsersList.UsersListView.ScrollTwice` | frontend-nuevo/src/views/auth/admin/UsersListView.tsx:116-126 | Two scroll events in a row issue at most one request: once the first one fires, the second finds the load in flight, and exactly one load is outstanding more than before |
| `UsersList.UsersListView.SubmitSearch` | frontend-nuevo/src/views/auth/admin/UsersListView.tsx:137-142 | Resets the cursor, then reloads page 1 with reset unless a load is in flight. Issuing clears the error and leaves one more load outstanding; otherwise the error stays |
| `UsersList.UsersListView.Delete` | frontend-nuevo/src/views/auth/admin/UsersListView.tsx:156-176 | After confirmation and an OK reply, exactly the rows with that id go, and the cursor, error and load flags stay as they were; otherwise nothing changes; which alert is shown |
| `CareerList.CareerListView.constructor` | frontend-nuevo/src/views/auth/admin/CareerListView.tsx:28-38 | An empty list at page 1 with an empty search |
| `CareerList.CareerListView.Load` | frontend-nuevo/src/views/auth/admin/CareerListView.tsx:52-112 | As for the users list, with the careers endpoint's fallback |
| `CareerList.CareerListView.Scroll` | frontend-nuevo/src/views/auth/admin/CareerListView.tsx:115-125 | Requests exactly page+1 of the current search, and only near the bottom with more pages and nothing in flight. A request leaves items, page and cursor as they were, marks the load in flight and clears the error; otherwise nothing changes |
| `CareerList.CareerListView.SubmitSearch` | frontend-nuevo/src/views/auth/admin/CareerListView.tsx:135-140 | Resets the cursor, then reloads page 1 with reset unless a load is in flight. Issuing clears the error and leaves one more load outstanding; otherwise the error stays |
| `CareerList.CareerListView.Delete` | frontend-nuevo/src/views/auth/admin/CareerListView.tsx:154-174 | An OK delete removes exactly that id and keeps the cursor, error and load flags; otherwise the list is untouched; which alert is shown |
| `PaymentList.FormatAlumno` | frontend-nuevo/src/views/auth/admin/PaymentListView.tsx:59-65 | "first last (username)" when a name part is present, otherwise the username |
| `PaymentList.FormatEstado` | frontend-nuevo/src/views/auth/admin/PaymentListView.tsx:67 | "Anulado" exactly for a cancelled payment, else "Activo" |
| `PaymentList.PaymentListView.constructor` | frontend-nuevo/src/views/auth/admin/PaymentListView.tsx:38-48 | An empty list at page 1 with an empty search |
| `PaymentList.PaymentListView.Load` | frontend-nuevo/src/views/auth/admin/PaymentListView.tsx:72-132 | The posted body is returned exactly when the guards pass |
| `PaymentList.PaymentListView.Scroll` | frontend-nuevo/src/views/auth/admin/PaymentListView.tsx:135-145 | Requests exactly page+1 of the current search, and only near the bottom with more pages and nothing in flight. A request leaves items, page and cursor as they were, marks the load in flight and clears the error; otherwise nothing changes |
| `PaymentList.PaymentListView.SubmitSearch` | frontend-nuevo/src/views/auth/admin/PaymentListView.tsx:155-160 | Resets the cursor, then reloads page 1 with reset unless a load is in flight. Issuing clears the error and leaves one more load outstanding; otherwise the error stays |
| `EnrollmentPayments.IncludeFlag` | frontend-nuevo/src/views/auth/admin/UserPaymentsView.tsx:238 | An explicit override wins over the view's `include_anulados` flag |
| `EnrollmentPayments.MarkCancelled` | frontend-nuevo/src/views/auth/admin/UserPaymentsView.tsx:409-413 | Same length and order; each row keeps every field but `anulado`, which becomes true exactly on rows with that id |
| `EnrollmentPayments.MarkCancelledIdempotent` | frontend-nuevo/src/views/auth/admin/UserPaymentsView.tsx:409-413 | Cancelling twice is cancelling once |
| `EnrollmentPayments.MarkCancelledOthers` | frontend-nuevo/src/views/auth/admin/UserPaymentsView.tsx:409-413 | Rows with another id are unchanged |
| `UserPayments.CuotaNumber` | frontend-nuevo/src/views/auth/admin/UserPaymentsView.tsx:319-323 | A cuota is accepted exactly when `parseInt` gives a number greater than 0, and it is that number |
| `UserPayments.CuotaNumberOfDecimal` | frontend-nuevo/src/views/auth/admin/UserPaymentsView.tsx:319-323 | Every positive number typed in decimal is accepted as itself |
| `UserPayments.CuotaNumberRejects` | frontend-nuevo/src/views/auth/admin/UserPaymentsView.tsx:319-323 | "", "abc" and "0" are rejected |
| `UserPayments.CreateBody` | frontend-nuevo/src/views/auth/admin/UserPaymentsView.tsx:327-345 | The date is sent exactly when the input is not blank; `adelantado` is false |
| `UserPayments.BackRoute` | frontend-nuevo/src/views/auth/admin/UserPaymentsView.tsx:135-143 | Back goes to the global payments list, to the user's enrollments (with a truthy user id), or back in history |
| `UserPayments.BackReturnsToEnrollments` | frontend-nuevo/src/views/auth/admin/UserPaymentsView.tsx:135-143 | Coming from a user's enrollments, back returns to that same user's enrollments page |
| `UserPayments.HeaderAlumno` | frontend-nuevo/src/views/auth/admin/UserPaymentsView.tsx:118-125 | "" before the user is loaded, else the payments list's student format |
| `UserPayments.UserPaymentsView.constructor` | frontend-nuevo/src/views/auth/admin/UserPaymentsView.tsx:78-101 | Route ids parsed once; cancelled payments shown; empty list at page 1 |
| `UserPayments.UserPaymentsView.Load` | frontend-nuevo/src/views/auth/admin/UserPaymentsView.tsx:228-296 | Nothing without an enrollment id; otherwise the body with the effective include flag is returned exactly when the guards pass; the error is not cleared |
| `UserPayments.UserPaymentsView.Mount` | frontend-nuevo/src/views/auth/admin/UserPaymentsView.tsx:437-444 | Resets the cursor and loads page 1 with reset. The items stay until a response replaces them; a request marks the load in flight and nothing else outstanding changes |
| `UserPayments.UserPaymentsView.Scroll` | frontend-nuevo/src/views/auth/admin/UserPaymentsView.tsx:301-311 | Requests exactly page+1 of the enrollment, with the current cancelled-payments flag, and only near the bottom with more pages and nothing in flight. A request leaves items, page, cursor and error as they were and marks the load in flight; otherwise nothing changes |
| `UserPayments.UserPaymentsView.ToggleAnulados` | frontend-nuevo/src/views/auth/admin/UserPaymentsView.tsx:426-432 | Flips the flag and reloads page 1 with reset using the new value. The items stay until a response replaces them; a request marks the load in flight |
| `UserPayments.UserPaymentsView.CancelPayment` | frontend-nuevo/src/views/auth/admin/UserPaymentsView.tsx:387-421 | After confirmation and an OK reply, the payment is marked cancelled in place, with the cursor, error and load flags kept; otherwise nothing changes; which alert is shown |
| `UserPayments.UserPaymentsView.CreatePayment` | frontend-nuevo/src/views/auth/admin/UserPaymentsView.tsx:316-382 | Nothing without an enrollment. An invalid cuota only alerts. Otherwise the body is posted, and an OK reply clears the inputs and reloads page 1, keeping items and error until the reply; the reload is in flight and counted exactly when it is issued |
| `AlumnoPayments.AlumnoPaymentsView.constructor` | frontend-nuevo/src/views/auth/Alumno/AlumnoPaymentsView.tsx:40-53 | The enrollment comes from the navigation state; cancelled payments hidden |
| `AlumnoPayments.AlumnoPaymentsView.Load` | frontend-nuevo/src/views/auth/Alumno/AlumnoPaymentsView.tsx:65-133 | Nothing without an enrollment; otherwise the guards and the include override as in the admin page |
| `AlumnoPayments.AlumnoPaymentsView.Mount` | frontend-nuevo/src/views/auth/Alumno/AlumnoPaymentsView.tsx:164-170 | Without an enrollment nothing changes and nothing is requested; otherwise page 1 with reset. The items stay until a response replaces them; a request marks the load in flight |
| `AlumnoPayments.AlumnoPaymentsView.Scroll` | frontend-nuevo/src/views/auth/Alumno/AlumnoPaymentsView.tsx:138-148 | Requests exactly page+1 of the enrollment, with the current cancelled-payments flag, and only near the bottom with more pages and nothing in flight. A request leaves items, page, cursor and error as they were and marks the load in flight; otherwise nothing changes |
| `AlumnoPayments.AlumnoPaymentsView.ToggleAnulados` | frontend-nuevo/src/views/auth/Alumno/AlumnoPaymentsView.tsx:153-159 | Flips the flag and reloads page 1 with reset using the new value. The items stay until a response replaces them; a request marks the load in flight |
| `PricesHistory.PricesHistoryView.constructor` | frontend-nuevo/src/views/auth/admin/CarerrPricesHistoriView.tsx:31-47 | The career id parsed from the route; empty list and name |
| `PricesHistory.PricesHistoryView.Load` | frontend-nuevo/src/views/auth/admin/CarerrPricesHistoriView.tsx:61-128 | Nothing for a career id of 0 or NaN; otherwise the body is returned exactly when the guards pass |
| `PricesHistory.PricesHistoryView.Scroll` | frontend-nuevo/src/views/auth/admin/CarerrPricesHistoriView.tsx:133-143 | Requests exactly page+1 of the route's career, and only near the bottom with more pages and nothing in flight. A request leaves items, page, cursor, error and name as they were; otherwise nothing changes |
| `PricesHistory.PricesHistoryView.ChangeRoute` | frontend-nuevo/src/views/auth/admin/CarerrPricesHistoriView.tsx:145-150 | A new id resets the cursor and reloads page 1; the list and name stay until a response replaces them. A request clears the error and marks the load in flight; without one nothing outstanding changes |
| `PricesHistory.KeptTitleStable` | frontend-nuevo/src/views/auth/admin/CarerrPricesHistoriView.tsx:104-106 | Once the career name is set, no sequence of later responses changes it |
| `CareerPrices.CareerPricesView.constructor` | frontend-nuevo/src/views/auth/admin/CareerPricesView.tsx:39-54 | The career id parsed from the route; empty list at page 1 |
| `CareerPrices.CareerPricesView.Load` | frontend-nuevo/src/views/auth/admin/CareerPricesView.tsx:94-152 | No in-flight guard: only the career id and exhaustion decide; page 1 clears the error and uses the main spinner |
| `CareerPrices.CareerPricesView.Mount` | frontend-nuevo/src/views/auth/admin/CareerPricesView.tsx:154-158 | Loads page 1 of the route's career exactly when its id is truthy. A request leaves items, page and cursor as they were, clears the error, turns the first-page spinner on and adds one outstanding load; otherwise nothing changes |
| `CareerPrices.CareerPricesView.ChangeRoute` | frontend-nuevo/src/views/auth/admin/CareerPricesView.tsx:154-158 | The effect on a new id: the id is re-parsed and page 1 of that career is loaded exactly when it is truthy. A request leaves items, page and cursor as they were, clears the error and turns the first-page spinner on |
| `CareerPrices.CareerPricesView.MountThenClick` | frontend-nuevo/src/views/auth/admin/CareerPricesView.tsx:154-158 | A click on "load more" right after the mount effect has issued its load issues nothing, so only that load is outstanding |
| `CareerPrices.CareerPricesView.ClickLoadMore` | frontend-nuevo/src/views/auth/admin/CareerPricesView.tsx:243-253 | The button works only when it is shown (more pages) and enabled (no spinner on). Then it requests page+1 of the career, leaves items, page, cursor and error as they were and turns the "load more" spinner on; a click while a spinner is on issues nothing and changes nothing |
| `CareerPrices.CareerPricesView.ClickThenReceive` | frontend-nuevo/src/views/auth/admin/CareerPricesView.tsx:94-152 | A click followed by the response to its load: a delivered later page is appended after the prices already shown; a failure keeps them and sets the error; the "load more" spinner goes off |
| `Validation.Failed` | frontend-nuevo/src/views/auth/admin/UserCreateView.tsx:19-52 | The failing checks, in check order, never more than the checks |
| `Validation.FailedEmpty` | frontend-nuevo/src/views/auth/admin/UserCreateView.tsx:50-51 | `validate()` is true exactly when every check passes |
| `Validation.FailedConcat` | frontend-nuevo/src/views/auth/admin/UserCreateView.tsx:19-52 | The messages of two chains in a row are the messages of each, in order |
| `Validation.Shown` | frontend-nuevo/src/views/auth/admin/UserCreateView.tsx:50 | The displayed list is the message of each failed check, one for one |
| `UserForms.Required` | frontend-nuevo/src/views/auth/admin/UserCreateView.tsx:22-24 | Fails exactly for a blank value |
| `UserForms.DniCheck` | frontend-nuevo/src/views/auth/admin/UserCreateView.tsx:26-32 | Passes exactly for trimmed all-digit text of 7 to 9 digits; otherwise the first applicable message |
| `UserForms.EmailCheck` | frontend-nuevo/src/views/auth/admin/UserCreateView.tsx:34-38 | Passes exactly when the untrimmed email matches `^\S+@\S+\.\S+$` |
| `UserForms.PasswordCheck` | frontend-nuevo/src/views/auth/admin/UserCreateView.tsx:40-44 | Blank fails as required; fewer than 6 characters fails as short |
| `UserForms.RoleCheck` | frontend-nuevo/src/views/auth/admin/UserCreateView.tsx:46-48 | Passes exactly for "admin" or "alumno" |
| `UserForms.ValidateUserEdit` | frontend-nuevo/src/views/auth/admin/UserEditView.tsx:32-59 | validate(): nothing is reported exactly when every field is acceptable (required names, a 7-9 digit DNI, the e-mail pattern, a known role); at most 6 messages |
| `UserForms.ValidateUserCreate` | frontend-nuevo/src/views/auth/admin/UserCreateView.tsx:19-52 | validate(): nothing is reported exactly when the fields and the password are acceptable; at most 7 messages |
| `UserForms.CreateMatchesEditWithGoodPassword` | frontend-nuevo/src/views/auth/admin/UserCreateView.tsx:19-52 | With an acceptable password, create and edit report the same messages |
| `UserForms.CreateReportsUsernameFirst` | frontend-nuevo/src/views/auth/admin/UserCreateView.tsx:22 | A blank username is the first message |
| `UserForms.UserCreateForm.constructor` | frontend-nuevo/src/views/auth/admin/UserCreateView.tsx:7-15 | Empty fields, role "alumno", no errors |
| `UserForms.UserCreateForm.Submit` | frontend-nuevo/src/views/auth/admin/UserCreateView.tsx:54-94 | Invalid input posts nothing and shows the messages. A post's errors follow the reply. Navigation and the success alert happen exactly on acceptance |
| `UserForms.FieldsFromLoaded` | frontend-nuevo/src/views/auth/admin/UserEditView.tsx:73-79 | Missing optional fields become "" and an empty type becomes "alumno" |
| `UserForms.LoadedRoleAccepted` | frontend-nuevo/src/views/auth/admin/UserEditView.tsx:79 | A loaded record with an "admin", "alumno" or empty type passes the role check |
| `UserForms.UserEditForm.constructor` | frontend-nuevo/src/views/auth/admin/UserEditView.tsx:16-30 | The route id, no record, loading, empty fields |
| `UserForms.UserEditForm.ApplyLoaded` | frontend-nuevo/src/views/auth/admin/UserEditView.tsx:61-91 | Only with an id: a loaded record fills the fields with the defaults, and whatever the reply the loading state ends. Without an id nothing changes and the page keeps loading |
| `UserForms.UserEditForm.Validate` | frontend-nuevo/src/views/auth/admin/UserEditView.tsx:32-59 | Sets the displayed messages and reports whether there were none |
| `UserForms.UserEditForm.Submit` | frontend-nuevo/src/views/auth/admin/UserEditView.tsx:93-141 | Callable only once the form is rendered (loading over, a user loaded). Nothing without an id. Invalid input posts nothing. Otherwise the reply decides the errors, the alert and the navigation |
| `CareerForms.NameCheck` | frontend-nuevo/src/views/auth/admin/CareerCreateView.tsx:28-32 | Blank fails first; otherwise a trimmed name over 50 characters fails |
| `CareerForms.PositiveCheck` | frontend-nuevo/src/views/auth/admin/CareerCreateView.tsx:34-46 | Passes exactly when `parseInt` gives a number above 0; NaN and non-positive values get their own messages |
| `CareerForms.StartDateCheck` | frontend-nuevo/src/views/auth/admin/CareerCreateView.tsx:48-50 | Passes exactly for an empty date or one matching `^\d{4}-\d{2}-\d{2}$` |
| `CareerForms.ValidateCareer` | frontend-nuevo/src/views/auth/admin/CareerCreateView.tsx:25-54 | validate(): nothing is reported exactly when the name, both amounts and the optional date are acceptable; at most 4 messages |
| `CareerForms.Payload` | frontend-nuevo/src/views/auth/admin/CareerCreateView.tsx:61-69 | The name is sent untrimmed; the numbers are the parsed positive values; the start date is included exactly when non-empty |
| `CareerForms.LoadedNumbersReparse` | frontend-nuevo/src/views/auth/admin/CareerEditView.tsx:79-83 | The form filled from a loaded career reads back as it: the name and converted date as they are, and the amounts written with `String(n)` parse back to n |
| `CareerForms.LoadedCareerResubmits` | frontend-nuevo/src/views/auth/admin/CareerEditView.tsx:79-127 | A loaded valid career (short name, positive numbers) passes validation unchanged, and its payload carries the same values |
| `CareerForms.CareerCreateForm.constructor` | frontend-nuevo/src/views/auth/admin/CareerCreateView.tsx:15-21 | Empty fields and no errors |
| `CareerForms.CareerCreateForm.Validate` | frontend-nuevo/src/views/auth/admin/CareerCreateView.tsx:25-54 | Sets the messages and reports whether there were none |
| `CareerForms.CareerCreateForm.Submit` | frontend-nuevo/src/views/auth/admin/CareerCreateView.tsx:56-98 | Invalid input posts nothing; otherwise the payload is posted and the reply decides errors, alert and navigation |
| `CareerForms.CareerEditForm.constructor` | frontend-nuevo/src/views/auth/admin/CareerEditView.tsx:23-35 | The route id, no record, loading |
| `CareerForms.CareerEditForm.ApplyLoaded` | frontend-nuevo/src/views/auth/admin/CareerEditView.tsx:68-101 | Only with an id: a loaded career fills the fields (amounts as decimal text, the date when it converts) |
| `CareerForms.CareerEditForm.Validate` | frontend-nuevo/src/views/auth/admin/CareerEditView.tsx:37-66 | Sets the messages and reports whether there were none |
| `CareerForms.CareerEditForm.Submit` | frontend-nuevo/src/views/auth/admin/CareerEditView.tsx:105-169 | Callable only once the form is rendered (loading over, a career loaded). Nothing without an id; otherwise as the create form with the update messages |
| `CareerForms.CareerEditForm.ViewHistory` | frontend-nuevo/src/views/auth/admin/CareerEditView.tsx:150-153 | The price history of this career, only with an id |
| `UserEnrollments.PaymentsLink` | frontend-nuevo/src/views/auth/admin/UserEnrollmentsView.tsx:293-301 | A link exists exactly for a truthy user id; it is exactly the enrollment's payments page, which lies under the user's enrollments page, and carries the origin "user-enrollments" |
| `UserEnrollments.AlreadyEnrolledAppend` | frontend-nuevo/src/views/auth/admin/UserEnrollmentsView.tsx:212-218 | The `some` test: false on an empty list, and appending an enrollment adds exactly its career |
| `UserEnrollments.PaymentsLinkRoundTrip` | frontend-nuevo/src/views/auth/admin/UserEnrollmentsView.tsx:293-301 | Following the link and pressing back on the payments page returns to the same user's enrollments |
| `UserEnrollments.UserEnrollmentsView.constructor` | frontend-nuevo/src/views/auth/admin/UserEnrollmentsView.tsx:59-75 | The user id parsed from the route; no enrollments, no career options |
| `UserEnrollments.UserEnrollmentsView.BeginEnrollments` | frontend-nuevo/src/views/auth/admin/UserEnrollmentsView.tsx:101-112 | Asks for up to 50 enrollments of the user, only with a truthy id |
| `UserEnrollments.UserEnrollmentsView.CompleteEnrollments` | frontend-nuevo/src/views/auth/admin/UserEnrollmentsView.tsx:113-143 | A delivered page replaces the enrollments; a failure only sets the error |
| `UserEnrollments.UserEnrollmentsView.BeginCareers` | frontend-nuevo/src/views/auth/admin/UserEnrollmentsView.tsx:148-160 | Asks for up to 100 careers, no search |
| `UserEnrollments.UserEnrollmentsView.CompleteCareers` | frontend-nuevo/src/views/auth/admin/UserEnrollmentsView.tsx:161-188 | A delivered page replaces the options; a failure only sets the error |
| `UserEnrollments.UserEnrollmentsView.AddEnrollment` | frontend-nuevo/src/views/auth/admin/UserEnrollmentsView.tsx:203-255 | No selection, or a career already enrolled, only alerts and posts nothing; otherwise the reply decides the alert and the reload |
| `UserEnrollments.UserEnrollmentsView.DeleteEnrollment` | frontend-nuevo/src/views/auth/admin/UserEnrollmentsView.tsx:260-280 | After confirmation and an OK reply exactly that enrollment is removed |
| `UserEnrollments.RemovedCareerMayBeAddedAgain` | frontend-nuevo/src/views/auth/admin/UserEnrollmentsView.tsx:212-280 | After deleting a career's enrollments, the duplicate check no longer blocks adding it |
| `Navbar.RoleOf` | frontend-nuevo/src/Layout/Navbar.tsx:31-41 | Only "admin" and "alumno" are roles |
| `Navbar.ResolveRole` | frontend-nuevo/src/Layout/Navbar.tsx:28-46 | A valid "user_type" key wins, then the stored record's type, otherwise "alumno" (also for unreadable records) |
| `Navbar.AdminNeedsExplicitClaim` | frontend-nuevo/src/Layout/Navbar.tsx:28-46 | The admin menu is shown exactly when "admin" is stored in the key, or, when the key holds no role, in the record |
| `Navbar.ResolveRoleReadsTwoKeys` | frontend-nuevo/src/Layout/Navbar.tsx:28-46 | The role depends only on the "user_type" and "user" keys |
| `Navbar.BasePath` | frontend-nuevo/src/Layout/Navbar.tsx:48-49 | "/admin" exactly for admin, "/alumno" exactly for alumno |
| `Navbar.UserName` | frontend-nuevo/src/Layout/Navbar.tsx:51-67 | Never empty: the joined names, else the username, else "Usuario" |
| `Navbar.UserInitials` | frontend-nuevo/src/Layout/Navbar.tsx:69-74 | At most two: the upper-cased first letters of the first two words |
| `Navbar.DefaultInitials` | frontend-nuevo/src/Layout/Navbar.tsx:69-74 | Without a readable record the avatar reads "U" |
| `Navbar.Menu` | frontend-nuevo/src/Layout/Navbar.tsx:93-148 | The first entry is the role's home; 5 entries for admin, 4 for alumno; every entry lies under the role's base path |
| `Navbar.AlumnoMenuHasNoAdminEntry` | frontend-nuevo/src/Layout/Navbar.tsx:123-148 | No student entry leads under "/admin" |
| `Navbar.ProfilePath` | frontend-nuevo/src/Layout/Navbar.tsx:84-90 | The role's base path followed by "/profile" |
| `Navbar.Logout` | frontend-nuevo/src/Layout/Navbar.tsx:76-82 | Removes exactly the four session keys and navigates to the login |
| `Navbar.AfterLogout` | frontend-nuevo/src/Layout/Navbar.tsx:76-82 | After logout: protected pages redirect, the login renders, the role is alumno, the name "Usuario", and logging out again changes nothing |
| `Login.FirstDefined` | frontend-nuevo/src/views/auth/LoginView.tsx:81-91 | `??` chains: none exactly when all are absent, otherwise the first present value |
| `Login.PickToken` | frontend-nuevo/src/views/auth/LoginView.tsx:81-85 | `data.token ?? data.access_token ?? token ?? access_token`: absent exactly when all four are, otherwise the first present one in that order |
| `Login.PickUser` | frontend-nuevo/src/views/auth/LoginView.tsx:87-91 | `data.usuario ?? data.user ?? usuario ?? user`: absent exactly when all four are, otherwise the first present one in that order |
| `Login.UserIdText` | frontend-nuevo/src/views/auth/LoginView.tsx:107 | `String(usuario.id)`: "undefined" without an id, otherwise text that parses back to the id |
| `Login.EmptyTokenShadows` | frontend-nuevo/src/views/auth/LoginView.tsx:81-86 | An empty `data.token` hides any later token |
| `Login.Outcome` | frontend-nuevo/src/views/auth/LoginView.tsx:62-103 | A session opens exactly for an OK JSON reply with a non-false `success`, a non-empty token and a user object with a role. A non-OK reply shows the message or "Error HTTP status" |
| `Login.SessionStore` | frontend-nuevo/src/views/auth/LoginView.tsx:105-108 | The four session keys are written and every other key is kept |
| `Login.LoginTarget` | frontend-nuevo/src/views/auth/LoginView.tsx:110-114 | "/admin" exactly for the "admin" role |
| `Login.LoginView.constructor` | frontend-nuevo/src/views/auth/LoginView.tsx:38-39 | No error, not loading |
| `Login.LoginView.Submit` | frontend-nuevo/src/views/auth/LoginView.tsx:42-121 | Shows the outcome's error, or writes the session and navigates to the role's page; the spinner stops |
| `Login.LoginOpensSession` | frontend-nuevo/src/views/auth/LoginView.tsx:105-114 | After an accepted login the protected pages render, the stored record reads back as the user, and the menu's home is the page the login opened |
| `Login.AlumnoSessionRedirectedToAdmin` | frontend-nuevo/src/routes/PublicRoute.tsx:4-12 | With a student session the login route redirects to "/admin", although the login opened "/alumno" |
| `Routes.ProtectedRoute` | frontend-nuevo/src/routes/ProtectedRoute.tsx:4-12 | Renders exactly with a non-empty token, else redirects to "/login" |
| `Routes.PublicRoute` | frontend-nuevo/src/routes/PublicRoute.tsx:4-12 | Renders exactly without a token, else redirects to "/admin" |
| `Routes.GuardsPartition` | frontend-nuevo/src/routes/ProtectedRoute.tsx:5-11 | Every store is admitted by exactly one of the two guards |
| `Routes.GuardsReadOnlyToken` | frontend-nuevo/src/routes/PublicRoute.tsx:5-9 | Both guards read only the token |
| `Routes.RouteId` | frontend-nuevo/src/views/auth/admin/UserEnrollmentsView.tsx:75 | `id ? parseInt(id, 10) : 0` |
| `Routes.RouteIdOfId` | frontend-nuevo/src/views/auth/admin/UserEnrollmentsView.tsx:75 | A route written from a non-zero id reads back as that id |
| `Storage.GetItem` | frontend-nuevo/src/Layout/Navbar.tsx:31 | Present exactly for a stored key, with its value |
| `Storage.ParseStoredUser` | frontend-nuevo/src/views/auth/admin/AdminProfile.tsx:15-24 | A missing, empty or malformed record gives no user and never an error |
| `Storage.DecodeEncode` | frontend-nuevo/src/views/auth/LoginView.tsx:106 | A written record reads back unchanged |
| `Storage.ParseStoredUserAfterWrite` | frontend-nuevo/src/views/auth/LoginView.tsx:106 | After writing a record under "user", every reader parses that record |
| `Storage.LocalStorage.SetItem` | frontend-nuevo/src/views/auth/LoginView.tsx:105 | Only that key changes |
| `Storage.LocalStorage.RemoveItem` | frontend-nuevo/src/Layout/Navbar.tsx:77 | Only that key is removed |
| `JsText.Trim` | frontend-nuevo/src/views/auth/admin/UserCreateView.tsx:22 | `trim()`: empty exactly for blank input; otherwise no white space at either end; the result is the part of the input between a blank prefix and a blank suffix |
| `JsText.ParseIntRoundTrip` | frontend-nuevo/src/views/auth/admin/UserEnrollmentsView.tsx:75 | `parseInt(String(n), 10)` gives n back |
| `JsText.ParseIntOfDigits` | frontend-nuevo/src/views/auth/admin/UserPaymentsView.tsx:319 | `parseInt(s, 10)` of a digit string is its decimal value |
| `JsText.ParseIntOfNegative` | frontend-nuevo/src/views/auth/admin/UserPaymentsView.tsx:319 | A minus sign before digits gives the negated value |
| `JsText.ParseIntStopsAtNonDigit` | frontend-nuevo/src/views/auth/admin/CareerCreateView.tsx:34 | `parseInt` reads the leading digits and ignores what follows the first non-digit ("12abc" is 12) |
| `JsText.ParseIntWithoutDigits` | frontend-nuevo/src/views/auth/admin/CareerCreateView.tsx:34 | Text without any digit gives NaN |
| `JsText.IntToStringDigits` | frontend-nuevo/src/views/auth/LoginView.tsx:107 | `String(n)`: the decimal digits of n without leading zeros, after a '-' when negative |
| `JsText.IntToStringInjective` | frontend-nuevo/src/views/auth/LoginView.tsx:107 | Different integers give different texts |
| `JsText.NumericConcat` | frontend-nuevo/src/views/auth/admin/UserCreateView.tsx:28 | `^\d+$`: two digit runs join into one; a text with a non-digit does not match |
| `JsText.EmailShape` | frontend-nuevo/src/views/auth/admin/UserCreateView.tsx:36 | `^\S+@\S+\.\S+$`: a text matches exactly when it has no white space and splits as a non-empty part, '@', a non-empty part, '.', a non-empty part |
| `JsText.EmailExamples` | frontend-nuevo/src/views/auth/admin/UserCreateView.tsx:36 | `^\S+@\S+\.\S+$` accepts a plain address and refuses one without the dot, without the '@', with an empty part or with a space |
| `JsText.EmailMatchNotBlank` | frontend-nuevo/src/views/auth/admin/UserCreateView.tsx:36 | A matching e-mail has no surrounding white space and is not empty |
| `JsText.IsoDateParts` | frontend-nuevo/src/views/auth/admin/CareerCreateView.tsx:48 | `^\d{4}-\d{2}-\d{2}$`: a matching text is a 4-digit year, a 2-digit month and a 2-digit day separated by '-' |
| `JsText.IsoDateFromParts` | frontend-nuevo/src/views/auth/admin/CareerCreateView.tsx:48 | `^\d{4}-\d{2}-\d{2}$`: any four-digit year, two-digit month and two-digit day joined by '-' match (the converse of IsoDateParts) |
| `JsText.IsoDateExamples` | frontend-nuevo/src/views/auth/admin/CareerCreateView.tsx:48 | "2024-03-01" matches; a one-digit month or slashes do not |
| `JsText.JoinNames` | frontend-nuevo/src/views/auth/admin/AdminDashboardView.tsx:87 | Equal to filtering out the empty parts and joining the rest with one space: both present gives first, a space and last; otherwise the one that is present, or "" |
| `JsText.DisplayName` | frontend-nuevo/src/views/auth/admin/AdminProfile.tsx:26-30 | The joined names when one is non-empty, otherwise the username |
| `JsText.InitialsAreWordStarts` | frontend-nuevo/src/Layout/Navbar.tsx:69-74 | split/map/join/slice/upper-case equals the upper-cased first two word starts |
| `AdminDashboard.NewsSnippet` | frontend-nuevo/src/views/auth/admin/AdminDashboardView.tsx:95-100 | "Sin detalle cargado" for blank text; the text when it fits; otherwise a prefix of it, right-trimmed, of at most the limit, followed by "…" |
| `AdminDashboard.SnippetSource` | frontend-nuevo/src/views/auth/admin/AdminDashboardView.tsx:96 | `(content || body || "").trim()`: the first non-empty of content and body, trimmed, or "" |
| `AdminDashboard.BlankContentHidesBody` | frontend-nuevo/src/views/auth/admin/AdminDashboardView.tsx:96 | A non-empty but blank `content` hides the body |
| `AdminDashboard.NombreAlumno` | frontend-nuevo/src/views/auth/admin/AdminDashboardView.tsx:84-89 | Never empty: the joined names, else the username, else "-" |
| `AdminDashboard.NombreCarrera` | frontend-nuevo/src/views/auth/admin/AdminDashboardView.tsx:91-93 | The career name, or "-" when the career or its name is missing |
| `AdminDashboard.Total` | frontend-nuevo/src/views/auth/admin/AdminDashboardView.tsx:183-188 | `data?.total_items ?? 0` |
| `AdminDashboard.Items` | frontend-nuevo/src/views/auth/admin/AdminDashboardView.tsx:190-191 | `data?.items ?? []` |
| `AdminDashboard.AdminDashboardView.constructor` | frontend-nuevo/src/views/auth/admin/AdminDashboardView.tsx:64-75 | Zero totals, empty lists, loading |
| `AdminDashboard.FailureMessage` | frontend-nuevo/src/views/auth/admin/AdminDashboardView.tsx:127-180 | A thrown request shows its own message; a non-OK reply shows "Error ", the endpoint, ": " and the status |
| `AdminDashboard.AdminDashboardView.Load` | frontend-nuevo/src/views/auth/admin/AdminDashboardView.tsx:102-205 | All or nothing. Only when all four requests succeed are the totals and lists replaced. Otherwise the first failure's message is shown and nothing else changes |
| `NewsList.EditPath` | frontend-nuevo/src/views/auth/admin/NewsListView.tsx:44-46 | The edit route news/:id/edit under /admin, with the id in decimal as its :id segment |
| `NewsList.EditPathRoundTrip` | frontend-nuevo/src/views/auth/admin/NewsListView.tsx:44-46 | The :id segment of an edit path parses back to the id it came from |
| `NewsList.EditPathInjective` | frontend-nuevo/src/views/auth/admin/NewsListView.tsx:44-46 | Different news items get different edit paths |
| `NewsList.NewsListView.constructor` | frontend-nuevo/src/views/auth/admin/NewsListView.tsx:14-15 | No items, nothing expanded |
| `NewsList.NewsListView.ApplyLoad` | frontend-nuevo/src/views/auth/admin/NewsListView.tsx:18-38 | An OK reply replaces the items; otherwise they stay |
| `NewsList.NewsListView.ToggleExpand` | frontend-nuevo/src/views/auth/admin/NewsListView.tsx:40-42 | The expanded item collapses; any other becomes the only expanded one |
| `NewsList.NewsListView.Delete` | frontend-nuevo/src/views/auth/admin/NewsListView.tsx:48-66 | An OK delete after confirmation removes exactly that id and collapses it if expanded; a refusal alerts; otherwise nothing changes |
| `AdminProfile.FullName` | frontend-nuevo/src/views/auth/admin/AdminProfile.tsx:26-30 | "" without a record; otherwise the shared display-name rule over its names and username: empty exactly when all three are, starting with the first name |
| `AdminProfile.AvatarInitials` | frontend-nuevo/src/views/auth/admin/AdminProfile.tsx:32-40 | "AD" for an empty name, else the upper-cased first two word starts; at most two characters |
| `AdminProfile.OrDash` | frontend-nuevo/src/views/auth/admin/AdminProfile.tsx:90-103 | Never empty: the value when non-empty, else "-" |
| `AdminProfile.Card` | frontend-nuevo/src/views/auth/admin/AdminProfile.tsx:15-103 | Every field is non-empty. An empty name shows "Administrador", "-" and "AD"; otherwise the header and the name field show it |
| `AdminProfile.EmptyStoreCard` | frontend-nuevo/src/views/auth/admin/AdminProfile.tsx:15-24 | With no stored record the page shows only its fallbacks |
| `AdminProfile.CardShowsStoredRecord` | frontend-nuevo/src/views/auth/admin/AdminProfile.tsx:81-103 | After the login stores a record, the page shows its username, email, DNI and name when non-empty |
| `AlumnoHome.NombreMostrable` | frontend-nuevo/src/views/auth/Alumno/AlumnoHomeView.tsx:93-98 | "" without a user; the joined names when one is non-empty; otherwise the username |
| `AlumnoHome.HeaderName` | frontend-nuevo/src/views/auth/Alumno/AlumnoHomeView.tsx:104 | "Alumno" without a user, else the displayed name |
| `AlumnoHome.ShownCount` | frontend-nuevo/src/views/auth/Alumno/AlumnoHomeView.tsx:117 | `careersCount ?? 0` |
| `AlumnoHome.HeaderAgreesWithNavbar` | frontend-nuevo/src/views/auth/Alumno/AlumnoHomeView.tsx:93-104 | For a record with a name the header and the navigation bar agree; with no record they read "Alumno" and "Usuario" |
| `AlumnoHome.StudentHomeView.constructor` | frontend-nuevo/src/views/auth/Alumno/AlumnoHomeView.tsx:36-38 | No user, no count, loading |
| `AlumnoHome.StudentHomeView.Mount` | frontend-nuevo/src/views/auth/Alumno/AlumnoHomeView.tsx:39-77 | Without "user_id" it navigates to the login, requests nothing and changes nothing. Otherwise it takes a readable stored record, ignores a malformed one, and asks for the count of the parsed id |
| `AlumnoHome.StudentHomeView.Complete` | frontend-nuevo/src/views/auth/Alumno/AlumnoHomeView.tsx:79-87 | The count is set only from a body with `success` and data; otherwise it stays. The spinner stops |
| `AlumnoHome.MountWithoutSession` | frontend-nuevo/src/views/auth/Alumno/AlumnoDashboardView.tsx:40-46 | Without a session id the page stays in its initial state and goes to the login |
| `AlumnoDashboard.EnrollmentText` | frontend-nuevo/src/views/auth/Alumno/AlumnoDashboardView.tsx:101-107 | The four cases: unknown, none, one, n |
| `AlumnoDashboard.Pill` | frontend-nuevo/src/views/auth/Alumno/AlumnoDashboardView.tsx:121 | The loading text while loading, then the count sentence |
| `AlumnoDashboard.EnrollmentTextInjective` | frontend-nuevo/src/views/auth/Alumno/AlumnoDashboardView.tsx:101-107 | Different counts give different sentences |
| `AlumnoDashboard.FailedLoadKeepsPending` | frontend-nuevo/src/views/auth/Alumno/AlumnoDashboardView.tsx:80-137 | After a failed request the pill keeps the "will load" sentence and the card shows 0 |
| `AlumnoProfile.AvatarSource` | frontend-nuevo/src/views/auth/Alumno/AlumnoProfileView.tsx:68-74 | An "http…" URL is used as is; otherwise the base URL is put in front |
| `AlumnoProfile.AvatarSourceStable` | frontend-nuevo/src/views/auth/Alumno/AlumnoProfileView.tsx:68-74 | With an "http…" base every source is absolute and resolving it again changes nothing |
| `AlumnoProfile.SavedAvatar` | frontend-nuevo/src/views/auth/Alumno/AlumnoProfileView.tsx:128-132 | The uploaded URL when a file was uploaded, else the existing one (possibly none) |
| `AlumnoProfile.Merge` | frontend-nuevo/src/views/auth/Alumno/AlumnoProfileView.tsx:154-160 | Only the names, the email and the avatar are replaced; id, username, DNI and type are kept |
| `AlumnoProfile.UnchangedFormSavesSameRecord` | frontend-nuevo/src/views/auth/Alumno/AlumnoProfileView.tsx:154-160 | Saving the form as loaded, without a new photo, gives back the loaded record |
| `AlumnoProfile.MergeIdempotent` | frontend-nuevo/src/views/auth/Alumno/AlumnoProfileView.tsx:154-160 | Saving the same form twice gives the same record as once |
| `AlumnoProfile.SavedNameReachesNavbar` | frontend-nuevo/src/views/auth/Alumno/AlumnoProfileView.tsx:154-163 | After a save with a first name, the navigation bar shows the new names |
| `AlumnoProfile.AlumnoProfileView.constructor` | frontend-nuevo/src/views/auth/Alumno/AlumnoProfileView.tsx:18-29 | Empty form, no user, loading, no error |
| `AlumnoProfile.AlumnoProfileView.BeginLoad` | frontend-nuevo/src/views/auth/Alumno/AlumnoProfileView.tsx:35-56 | No stored user, an unreadable one, or a missing or zero id each set their error and request nothing; otherwise the record's id is requested |
| `AlumnoProfile.AlumnoProfileView.CompleteLoad` | frontend-nuevo/src/views/auth/Alumno/AlumnoProfileView.tsx:56-86 | A loaded record fills the form (missing fields as "") and resolves the avatar; a failure only sets the error; the spinner stops |
| `AlumnoProfile.AlumnoProfileView.ChooseFile` | frontend-nuevo/src/views/auth/Alumno/AlumnoProfileView.tsx:93-99 | A chosen file is remembered and previewed; no file changes nothing |
| `AlumnoProfile.AlumnoProfileView.Save` | frontend-nuevo/src/views/auth/Alumno/AlumnoProfileView.tsx:121-172 | Nothing without a user; a failed upload ends the save. On OK, the user becomes the merged record, which is written to the store and reads back. Otherwise user and store are unchanged and the error is set |
| `AlumnoProfile.AlumnoProfileView.FullName` | frontend-nuevo/src/views/auth/Alumno/AlumnoProfileView.tsx:197-198 | The form's names joined, else the username |
| `AlumnoProfile.AlumnoProfileView.Placeholder` | frontend-nuevo/src/views/auth/Alumno/AlumnoProfileView.tsx:229-235 | The upper-cased first two word starts of the full name |

## Left out

- Network, JSON bodies and React scheduling. `fetch`, HTTP and JSON decoding are replaced by input datatypes. The model does not cover state batching, stale closures, effect timing or the event loop: each handler runs in one step.
- A response whose JSON shape differs from the declared interface (for example a `null` body, or `data` without `items`) is not modelled. These would throw inside the views.
- `JSON.parse` / `JSON.stringify` are modelled by `Storage.Decode` / `Storage.Encode`. So `null` and absent fields are not told apart, and the parser's exact error text is a parameter.
- Dates: `toISOString`, `toLocaleString` and the date conversion of the career edit form and the payment form are not modelled. The converted start date is an input.
- Amounts are integers; floating point is not modelled.
- Unicode case folding: only ASCII letters are upper-cased.
- DOM geometry: the scroll position is an input.
- `config/backend` (the base URL) is not part of this model; the base URL is a parameter.
- Exceptions that are not `Error` instances ("Error desconocido…" fallbacks) are not modelled.
- Rendering that only repeats state (tables, badges, `formatFecha`, loading text) is not modelled, except where named above.
- The loaders that only fill page headers are not modelled, and neither are the `saving` flags of the forms:
  - `loadUser` and `loadEnrollment` of the payments page;
  - `loadCareer` of the prices page;
  - `loadUser` of the enrollments page.
- The admin dashboard's requests are not modelled, only its replies: neither the four request bodies (users and careers: page 1, page size 1, no search; payments: page 1, page size 5, `include_anulados: false`; news: page 1, page size 5) nor the `Authorization: Bearer` header.
- The news list's unhandled rejection when the delete request fails is modelled as "nothing changes".
- `CareerForms.CareerEditForm.ApplyLoaded`: without a route id the page stays loading, as in the source.
- `AlumnoHome`: the dashboard and the home page share the same state and mount effect (AlumnoDashboardView.tsx:36-99 and AlumnoHomeView.tsx:35-98). These are modelled once, by `AlumnoHome.StudentHomeView`.
- `AlumnoHome.CountReply`: a `total_items` that is not a number is not modelled.
- `Routes.PublicRoute`: redirects every session to `/admin`, whatever the role, as the code does. `Login.AlumnoSessionRedirectedToAdmin` shows a student logged in on `/alumno` being sent to `/admin` from `/login`.
- `CareerPrices.CareerPricesView.Mount`: the effect re-runs on every change of `[id]` without any guard, so page-1 loads can overlap, and a completion clears both spinners even while another load is outstanding. The model therefore claims a single outstanding load only for a click while a spinner is on (`MountThenClick`); React's development double mount is not modelled.
- `JsText.IsSpace`: the Unicode space separators are written out as a fixed list of characters rather than looked up in the Unicode character tables.
- `CareerForms.NameCheck`, `UserForms.PasswordCheck`, `AdminDashboard.NewsSnippet`, `Navbar.UserInitials` and `AdminProfile.AvatarInitials`: lengths and positions count Unicode characters, while JavaScript counts UTF-16 code units; the two differ only for characters outside the Basic Multilingual Plane (emoji and the like).
- `JsText.ParseIntRoundTrip`: integers are unbounded. JavaScript numbers are doubles, exact only up to 2^53, and `String(n)` switches to exponent notation from 1e21, so the round trip holds in the source only for ids within that range.
