# Attendance and leave tracker client: a Dafny model of its decision logic

This project models the client-side logic of a web client for an attendance
and leave tracker. The client has three parts, and each is one Dafny module:

- **Session** (`session.dfy`, from `src/auth/auth.jsx`). The session store keeps a
  token and an employee profile in memory. It mirrors them into browser storage
  under the keys `token` and `employee`, and it restores them on mount only when
  both stored values are truthy. `EmployeeJson` (`employee_json.dfy`) is the text
  form of the profile. `Decode` reads exactly the texts `Encode` writes, and the
  two are inverse in both directions on those texts. JSON `null` is recognised
  separately, because `JSON.parse` returns it without throwing.
- **Attendance** (`attendance.dfy`, from `src/pages/Dash.jsx`). This part decides
  which employee and month the dashboard loads. It holds the fail-fast rule that
  turns a requested status into no request or into exactly one CREATE, DELETE or
  PATCH. It also says how the page state follows the outcome of each request.
- **Leave** (`leave.dfy`, from `src/pages/LeaveRequests.jsx`). This part covers
  which requests are listed and who is offered the approve and deny buttons. It
  models the two-step confirmation modal, the local patch of the list after a
  decision, and the submit payload with its error message.

Each page is a `class` whose fields are the component's state variables. Every
method is proved equal to a pure transition function on a state datatype
(`DashState`, `LeaveState`, `SessionState`). The properties are stated on those
functions.

HTTP is abstracted in the following way:
- A request is an entry appended to the page's `sent` log. `CallRequest` gives
  each entry's verb, path and JSON body, as the source builds them.
- Its outcome is a `Reply` parameter: `Ok`, `NotOk(detail)` or `NetworkError(message)`.
- A refetch that follows a successful mutation receives its own reply parameter.

JavaScript truthiness is explicit throughout (`Common.Truthy`): `null` and `""`
are both falsy.

Some behaviours of the code are kept as written:
- An ABSENT record gets a CREATE even when ABSENT is requested.
- A request for a record's current status still sends a PATCH.
- The dashboard never clears `error` after a later success.
- Restore ignores a stored empty token.
- A stored profile text `null` beside a truthy token restores the token without
  a profile (`Session.NullProfileSplitsSession`).

## Model

| member | source | states |
|---|---|---|
| Attendance.Decide | src/pages/Dash.jsx:71-144 | A request is sent iff the target (selection, else actor) is truthy, is not the actor, and the record is not ON_LEAVE. It acts on that target and the record's date. It is a CREATE iff the record is ABSENT, a DELETE iff the record is not ABSENT and ABSENT is requested, and otherwise a PATCH. CREATE and PATCH carry the requested status. |
| Attendance.AbsentToAbsentCreates | src/pages/Dash.jsx:83-104 | A permitted request for ABSENT on an ABSENT record is a CREATE with status ABSENT. |
| Attendance.SameStatusStillPatches | src/pages/Dash.jsx:123-143 | A permitted request for a stored record's own status (PRESENT or LATE) is still a PATCH. |
| Attendance.DecisionRealisesRequest | src/pages/Dash.jsx:83-143 | The service's rows are assumed to match the page's view. Under that assumption, the decided mutation leaves the target's day with the requested status. Every other (date, employee) pair keeps its status, every other stored row is kept, and no row appears except the target's. |
| Attendance.MutationRequest | src/pages/Dash.jsx:85-135 | A mutation is a POST iff it is a CREATE, a DELETE iff a DELETE, a PATCH iff a PATCH. CREATE goes to `/api/attendances/` with body exactly `{status, employee_id, date}`. DELETE and PATCH go to `/api/attendances/{date}/{employeeId}/`. DELETE has no body, and PATCH has exactly `{status}`. |
| Attendance.QueryPath | src/pages/Dash.jsx:41-43 | The path is `/api/attendances/{month}/`, followed by `{employeeId}/` exactly when the query names an employee. |
| Attendance.CallRequest | src/pages/Dash.jsx:19-135 | A logged request is a GET iff it is not a mutation. The lists have no body. The directory goes to `/api/employees/`, the monthly query to its `QueryPath`, and a mutation is its `MutationRequest`. |
| Attendance.StatusChangeRequest | src/pages/Dash.jsx:83-135 | A permitted change on an ABSENT record POSTs `{status, employee_id, date}` with the requested status, target and date. Requesting ABSENT on any other record DELETEs the target's record for that date. Any other request PATCHes it with `{status}`. |
| Attendance.FetchAttendanceRequest | src/pages/Dash.jsx:36-44 | The attendance fetch is a bodiless GET of the chosen month (else the current one). The path ends with the target's id exactly when the actor is privileged. |
| Attendance.PlanAttendanceFetch | src/pages/Dash.jsx:35-44 | A query is sent iff the token and the target are truthy. Its month is the chosen month if truthy, else the current one. It names the target iff the actor is privileged, and that target is the selection, else the actor's id. |
| Attendance.EmployeesFetched | src/pages/Dash.jsx:16-33 | The directory is requested iff a truthy token and a privileged actor are present, and nothing changes otherwise. Success replaces the list and keeps the error. Failure keeps the list and sets the error to "Failed to fetch employees" or the transport message. The view, loading flag, selection and month are untouched. |
| Attendance.AttendanceFetched | src/pages/Dash.jsx:35-61 | With no planned query nothing changes. Otherwise exactly that query is sent and loading ends. Success replaces the view and keeps the error, so an earlier error is never cleared. Failure keeps the view and sets the error to "Failed to fetch attendance data" or the transport message. No mutation is logged. |
| Attendance.StatusChanged | src/pages/Dash.jsx:71-144 | With no decided mutation nothing changes. Otherwise that one mutation is sent first. Success is followed by the attendance refetch. Failure logs the mutation, sets its error text, and changes nothing else. A call adds at most one mutation to the log. |
| Attendance.AttendanceView.constructor | src/pages/Dash.jsx:8-14 | The component starts with an empty log, loading, no error, no selection and no month. |
| Attendance.AttendanceView.FetchEmployees | src/pages/Dash.jsx:16-33 | The new state is `EmployeesFetched` of the old one. |
| Attendance.AttendanceView.FetchAttendance | src/pages/Dash.jsx:35-61 | The new state is `AttendanceFetched` of the old one. |
| Attendance.AttendanceView.SelectEmployee | src/pages/Dash.jsx:67-69 | Selecting an employee stores the id and then refetches with it. |
| Attendance.AttendanceView.ChooseMonth | src/pages/Dash.jsx:181-183 | Choosing a month only records it, and nothing is sent. |
| Attendance.AttendanceView.HandleStatusChange | src/pages/Dash.jsx:71-144 | The new state is `StatusChanged` of the old one. |
| Common.FailureMessage | src/pages/Dash.jsx:50-56 | A non-2xx answer stores the handler's fixed text. A transport failure stores its own message. |
| Leave.PlanLeaveFetch | src/pages/LeaveRequests.jsx:19-26 | A query is sent iff the token is truthy and a profile exists. It lists everyone iff the actor is privileged, and otherwise only the actor's own id. |
| Leave.QueryPath | src/pages/LeaveRequests.jsx:23-25 | The list path starts `/api/leave-requests/?` and always ends with `ordering=-date`. It filters by `employee_id` exactly when the query names an employee. |
| Leave.LeaveFetchRequest | src/pages/LeaveRequests.jsx:19-26 | The list fetch is a GET of `?ordering=-date` for a privileged actor, and of `?employee_id={own id}&ordering=-date` otherwise. |
| Leave.CanDecide | src/pages/LeaveRequests.jsx:207-209 | Buttons are offered only to a privileged actor and only for a PENDING request, never for the actor's own request. For someone else's PENDING request they are offered iff the actor is privileged. |
| Leave.OwnRequestNotDecidable | src/pages/LeaveRequests.jsx:207-209 | No actor is offered a decision on their own request, whatever their type. |
| Leave.PrivilegeDecides | src/pages/LeaveRequests.jsx:207-209 | For someone else's PENDING request, a decision is offered iff the actor is privileged. |
| Leave.DecisionPath | src/pages/LeaveRequests.jsx:107-136 | A decision goes below `/api/leave-requests/{uuid}/`: `approve/` for an approval and `deny/` for a denial. |
| Leave.DecisionPathsDiffer | src/pages/LeaveRequests.jsx:107-136 | Approving and denying the same request use different URLs. |
| Leave.CallRequest | src/pages/LeaveRequests.jsx:23-143 | A logged request is a GET iff it is the list, and a POST otherwise. A submit posts exactly `{employee_id, date, message, status}` to `/api/leave-requests/`. A decision posts `{response_message}` to its `DecisionPath`. |
| Leave.PatchResults | src/pages/LeaveRequests.jsx:122-126 | The length is kept. Every entry with the uuid takes the new status and response message, and every other entry is unchanged. |
| Leave.Decided | src/pages/LeaveRequests.jsx:120-127 | Only `results` changes, and `count`, `next` and `previous` are kept. |
| Leave.PatchKeepsUuids | src/pages/LeaveRequests.jsx:122-126 | The uuid sequence, and so the order of the requests, is unchanged by a decision. |
| Leave.PatchIdempotent | src/pages/LeaveRequests.jsx:122-126 | Applying the same decision twice equals applying it once. |
| Leave.PatchAbsentUuid | src/pages/LeaveRequests.jsx:122-126 | A decision on a uuid that is not in the list leaves the list unchanged. |
| Leave.DecisionShowsOnce | src/pages/LeaveRequests.jsx:120-154 | The uuids are assumed distinct. The decided entry then shows the new status and response and is no longer decidable, and every other entry is unchanged. |
| Leave.SubmitPayload | src/pages/LeaveRequests.jsx:60-65 | The body carries the actor's own id, the form's date and message, and status PENDING. |
| Leave.SubmitRequest | src/pages/LeaveRequests.jsx:54-66 | A submit POSTs the actor's own id, the form's date and message, and status "PENDING" to `/api/leave-requests/`. |
| Leave.SubmitError | src/pages/LeaveRequests.jsx:68-71 | On a non-2xx answer the error is the service's `detail` when truthy, else "Failed to submit leave request". On a transport failure it is that failure's message. |
| Leave.ListFetched | src/pages/LeaveRequests.jsx:19-43 | With no planned query nothing changes. Otherwise exactly that query is sent and loading ends. Success replaces the list with the reply and keeps the error. Failure keeps the list and sets the error to "Failed to fetch leave requests" or the transport message. The form, the modal flag, the staged request and action, and the typed response are all kept. |
| Leave.Submitted | src/pages/LeaveRequests.jsx:49-80 | The payload is sent first with the error cleared. On success the state is the list fetch from there, with date and message cleared. If that refetch then fails, the list is kept and the error becomes "Failed to fetch leave requests" or the transport message. Failure of the post stores `SubmitError` and changes nothing else. |
| Leave.Opened | src/pages/LeaveRequests.jsx:82-86 | The request and action are staged and the modal is open. Nothing is sent, and the list, form, loading flag, error and typed response are kept. |
| Leave.Closed | src/pages/LeaveRequests.jsx:88-93 | Staging and the response text are dropped and the modal is closed. Nothing is sent, and the list, error, form and loading flag are kept. |
| Leave.DecisionSent | src/pages/LeaveRequests.jsx:104-158 | Exactly one approve or deny is sent. Success patches a loaded list and keeps the error. Failure sets that decision's error text and keeps the list. Only the list, the error and the log change. |
| Leave.Confirmed | src/pages/LeaveRequests.jsx:95-102 | With an action staged, exactly one decision is sent, on the staged uuid with the typed response. Its failure sets that decision's error text. With none staged, nothing is sent. Afterwards request, action and response are cleared and the modal is closed. The form and the loading flag are kept. |
| Leave.ConfirmedRequest | src/pages/LeaveRequests.jsx:95-143 | Confirming a staged action adds exactly one request: a POST of the typed response to the staged action's URL for the staged request. |
| Leave.LeavePage.constructor | src/pages/LeaveRequests.jsx:8-17 | The component starts with no list, an empty form, no error and nothing staged. |
| Leave.LeavePage.FetchLeaveRequests | src/pages/LeaveRequests.jsx:19-43 | The new state is `ListFetched` of the old one. |
| Leave.LeavePage.SetDate | src/pages/LeaveRequests.jsx:186-191 | Only the date field changes. |
| Leave.LeavePage.SetMessage | src/pages/LeaveRequests.jsx:179-183 | Only the message field changes. |
| Leave.LeavePage.SetResponseMessage | src/pages/LeaveRequests.jsx:256-261 | Only the response text changes. |
| Leave.LeavePage.HandleSubmit | src/pages/LeaveRequests.jsx:49-80 | The new state is `Submitted` of the old one. |
| Leave.LeavePage.OpenModal | src/pages/LeaveRequests.jsx:82-86 | The new state is `Opened` of the old one. |
| Leave.LeavePage.CloseModal | src/pages/LeaveRequests.jsx:88-93 | The new state is `Closed` of the old one. |
| Leave.LeavePage.HandleDecision | src/pages/LeaveRequests.jsx:104-158 | The new state is `DecisionSent` of the old one. This covers both `handleApprove` and `handleDeny`. |
| Leave.LeavePage.HandleConfirm | src/pages/LeaveRequests.jsx:95-102 | The new state is `Confirmed` of the old one, and the modal invariant is kept. |
| Session.AfterLogin | src/auth/auth.jsx:18-23 | The token and the employee are set. Storage mirrors them under both keys, and no other key changes. |
| Session.AfterLogout | src/auth/auth.jsx:25-30 | Both fields become null and both keys are removed. No other key changes. |
| Session.AfterRestore | src/auth/auth.jsx:8-16 | When both stored values are truthy and the profile text reads as a profile, the session takes the stored token and that profile. When the text is JSON `null`, it takes the token and a null profile. Otherwise nothing changes. Storage is only read. |
| Session.RestoreNeedsBothKeys | src/auth/auth.jsx:8-16 | Restore on mount takes a token iff both keys hold truthy values and the profile text is either `Encode`'s text of some profile or `null`. It takes a profile iff the text is `Encode`'s text of a profile. |
| Session.NullProfileSplitsSession | src/auth/auth.jsx:8-16 | A truthy stored token beside the profile text `null` restores the token with a null profile, so token and employee are no longer set together. |
| Session.LoginIsNullFree | src/auth/auth.jsx:18-23 | A login never stores the profile text `null`. |
| Session.RestoreAfterLogin | src/auth/auth.jsx:8-23 | After `login(t, e)` with a non-empty t, restoring on mount yields token t and a profile equal to e. |
| Session.EmptyTokenIsNotRestored | src/auth/auth.jsx:12-23 | After a login with the empty token, restore finds no session. |
| Session.RestoreAfterLogout | src/auth/auth.jsx:8-30 | After logout, restoring on mount finds no session, and the mounted state is left exactly as it was. |
| Session.LogoutIdempotent | src/auth/auth.jsx:25-30 | Logging out twice equals logging out once. |
| Session.StepConsistent | src/auth/auth.jsx:5-30 | From null-free storage, restore, logout and login each keep token and employee both set or both null, and keep storage null-free. |
| Session.RunConsistent | src/auth/auth.jsx:5-30 | From null-free storage, any sequence of restore, logout and login keeps token and employee both set or both null. |
| Session.SessionStore.constructor | src/auth/auth.jsx:5-16 | The provider mounts with both fields null and then runs restore. The class invariant holds when storage has no `null` profile text. |
| Session.SessionStore.Restore | src/auth/auth.jsx:8-16 | The new state is `AfterRestore` of the old one, and the class invariant is kept. |
| Session.SessionStore.Login | src/auth/auth.jsx:18-23 | The new state is `AfterLogin` of the old one, and the class invariant holds. |
| Session.SessionStore.Logout | src/auth/auth.jsx:25-30 | The new state is `AfterLogout` of the old one. |
| EmployeeJson.DecodeEncode | src/auth/auth.jsx:14-22 | Parsing the stored text of a profile gives back that profile. |
| EmployeeJson.Encode | src/auth/auth.jsx:22 | The stored text of a profile is a JSON object that starts with its `employee_id` key. |
| EmployeeJson.Decode | src/auth/auth.jsx:14 | A text reads as a profile only if it is a JSON object that starts with the `employee_id` key, so JSON `null` is never a profile. |
| EmployeeJson.EncodeDecode | src/auth/auth.jsx:14-22 | Every text that reads as a profile is exactly the text written for that profile. |
| EmployeeJson.Parse | src/auth/auth.jsx:14 | The result is JSON `null` iff the text is `null`. It is a profile iff the text decodes, and then the text is that profile's encoding. |
| EmployeeJson.EncodeInjective | src/auth/auth.jsx:14-22 | Two profiles with the same stored text are equal. |

## Left out

- HTTP transport is not modelled: `fetch`, headers, `response.json()`, and the two hard-coded hosts. Requests are log entries and their outcomes are parameters.
- React scheduling is not modelled: `useEffect` re-runs, batching and render timing. Only the final value of `loading` after each handler is modelled.
- Races between overlapping requests are left out, because the handlers are modelled as running one at a time.
- The current month (`new Date().toISOString().slice(0, 7)`) is a `currentMonth` parameter.
- Leave.LeavePage.HandleConfirm: the source closes the modal before the decision's reply arrives. The model handles the reply first and then closes the modal. Both touch disjoint fields, so the final state is the same.
- Leave.LeavePage.HandleDecision: with no list loaded (the initial `[]`), the source's state updater would throw on `results`. The model leaves the list absent. No button is rendered before a list exists.
- Leave.CanDecide decides only which buttons render. `handleApprove` and `handleDeny` do not check it, and neither does the model's `HandleDecision`.
- Leave.LeavePage.HandleSubmit requires a profile. The page sits behind a route that requires a token, and the session keeps the token and the profile set together as long as storage holds no profile text `null` (`Session.RunConsistent`). With such a text the profile is null. The page still renders, because it reads the profile through `employee?.` (src/pages/LeaveRequests.jsx:199, 207). Its `handleSubmit` then throws a TypeError on `employee.employee_id` (line 61) inside its `try`, so no request is sent and `error` becomes that TypeError's message (lines 77-78).
- Attendance.AttendanceView.HandleStatusChange requires a profile for the same reason. The source reads `employee.employee_id` outside its `try`.
- Session.AfterRestore: a stored profile text outside what `Encode` writes is `Unreadable`, and the model leaves the session unchanged. For such a text the source does one of three things. Its `JSON.parse` may throw inside the effect. It may return an object that the source then uses as the profile: the same fields with whitespace, another key order, other escapes, or extra fields. It may return a value that is not an object (a number, a string, an array, `false`), which the source stores as the employee. The login page adds a `token` field to the profile before `login` (src/pages/Login.jsx:52), so the text the running app stores is itself outside `Encode`'s image. The model's restore covers only the five-field profile this project encodes.
- EmployeeJson.Decode accepts only the canonical text `Encode` writes. It rejects `-0`, fractions and exponents, which `JSON.parse` reads as numbers. `JSON.stringify` never writes them for an integer.
- The available-leave count is an unbounded integer. JavaScript numbers are doubles, which is not modelled.
- Session.SessionStore.Login takes a profile. A login with a null or missing profile is not modelled. The login page (src/pages/Login.jsx) passes the fetched profile object, and it sets a field on that object first, so a null one would throw before `login`.
- EmployeeJson.Encode escapes only `"` and `\`, not control characters. It covers the five profile fields in the service's order. Extra fields that the service or the login page adds are not part of this model.
- Employee ids are strings, so `===` between a selected id and a profile id is string equality.
- The summary cards (src/pages/Dash.jsx:157-168) are not part of this model. They use a baseline of 15 and compare the singular/plural wording against `employee.available_paid_leaves` (14 and 1) instead of the loaded figures. That inconsistency is display text only.
- The following files are not part of this model: the modal's 500 ms close animation (src/components/Modal/Modal.jsx), the login page (src/pages/Login.jsx), routing (src/auth/ProtectedRoute.jsx, src/main.jsx) and presentational components.
- A non-2xx submit whose body is not JSON makes `response.json()` throw with the parser's message. That case is not modelled.
