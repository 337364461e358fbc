# Clinic backend: sessions, account handlers and the doctor partial update

This project models the request handlers of a small patient/doctor/appointment
backend written for Express and MySQL. It covers two route surfaces. The router
in `authRoutes.js` serves register, login, profile, logout and the admin-only
doctor routes. The standalone app in `express_app.js` serves the same account
routes plus the patients routes and appointment booking.

The model keeps what the handlers decide and what they change. It drops HTTP,
the SQL driver and bcrypt.

- `js.dfy` (module `Js`): JavaScript truthiness of body fields and session ids,
  the decimal text a template literal gives a number (with its parse-back),
  `Array.prototype.join`, and character counting.
- `records.dfy` (module `Records`): table rows. It also holds the hashing
  library as a pair of arbitrary functions, `hash(password, salt)` and
  `verify(password, hash)`, with the one property most scenarios assume
  (`Sound`: a hash verifies the password it was made from).
- `http.dfy` (module `Http`): responses (status plus text or JSON body) and the
  "created with ID" texts.
- `auth.dfy` (module `Auth`): the session record, the session a request sees,
  the three gates (`authenticate`, `isAuthenticated`, `authenticateAdmin`),
  and what login writes into a session.
- `validation.dfy` (module `Validation`): each handler's required-field check,
  and the login decision with its 400 / 404 / 401 precedence.
- `doctor_update.dfy` (module `DoctorUpdate`): the PUT /doctors builder. It
  covers the two arrays the handler pushes into, the SQL text it joins, and
  what running that statement does to the doctors table. Lemmas link the
  builder to a declarative partial update.
- `clinic.dfy` (module `Clinic`): class `Server`. It holds the tables as maps
  from id to row, the AUTO_INCREMENT counters and the two session stores. It has one
  method per route. Each method states its response and its new state for every
  branch, including the error branches.
- `scenarios.dfy` (module `Scenarios`): request sequences against a fresh
  server, with the answers each one gets.

The account handlers are written twice in the source, once per surface
(`authRoutes.js:141-242`, `express_app.js:30-132`). The two copies are the same
except for the gate. The two surfaces are separate Express applications
(`server.js:26-46` on port 4500, `express_app.js:5-18` and 263 on its own
port). They share the database, but each installs its own session middleware
with its own secret and its own in-memory store. `Server` therefore keeps two
session stores, `routerSessions` and `appSessions`. It models the account
handlers once, with a `Surface` parameter that picks the application: its store
and its gate (`Auth.PatientGate`: `authenticate` for the router,
`isAuthenticated` for the app). `Auth.GatesAgree` shows the two gates decide
the same way whenever a session exists, and both applications always give a
request a session. The admin-only doctor routes read the router's store; the
patients routes and booking read the app's. `Scenarios.SessionsDoNotCross`
shows that a router login opens neither the app's profile nor its booking.

Inputs the handlers do not control are parameters:
- `fails` on each handler that queries the database stands for the `catch`
  branch that answers 500.
- `storeFails` on logout stands for an error from the session store.
- `salt` stands for bcrypt's random salt.
- `sid` is the session id the request ends up with. A cookie that names no
  stored session gets the blank session the middleware creates.

No handler ever sets `isAdmin`. The `Server` constructor therefore takes the
router's session store's initial content, which is the only way an admin
session can exist; the app's store starts empty. Login and logout both ensure
`NoNewAdmins` for both stores.

The model follows the code's exact tests:
- The patient gates test whether `session.patientId` is truthy, not merely
  whether a session exists. So a blank session, or one with id 0, is refused.
- Logout is behind the patient gate. It can therefore also answer 401.
- Login answers 500 for a matching row that has no password hash, because
  `bcrypt.compare` throws on it and the `catch` answers.

The source does not include the database schema. The model assumes email is a
unique column of `patients`: an insert whose email is already taken answers
500 and inserts nothing.

Both creation handlers, POST /doctors and POST /patients, read the generated
id from the wrong value and answer "... created with ID: undefined" (see
Findings). The model's handlers answer with the corrected text, which names
the id; the text as written is `Http.CreatedTextAsWritten`.

## Model

| member | source | states |
|---|---|---|
| `Auth.Authenticate` | authRoutes.js:191-196 | passes exactly when the session's patientId is truthy; otherwise answers 401 "Unauthorized: Please log in first" |
| `Auth.IsAuthenticated` | express_app.js:21-27 | passes exactly when a session exists and its patientId is truthy; otherwise the same 401 |
| `Auth.AuthenticateAdmin` | authRoutes.js:247-252 | passes exactly when a session exists and its isAdmin is set; otherwise 401 "Unauthorized: Admin access only" |
| `Auth.PatientGate` | authRoutes.js:191-196 | the patient gate of either application passes exactly when the session's patientId is truthy; otherwise 401 "Unauthorized: Please log in first" |
| `Auth.GatesAgree` | express_app.js:21-27 | on any existing session the app's gate and the router's gate decide alike; with no session the app's gate answers 401 |
| `Auth.SessionOf` | server.js:31-35 | a request whose session id is not stored sees the blank session; otherwise it sees the stored record |
| `Auth.LogIn` | authRoutes.js:181-182 | login sets patientId and patientName to the row's id and first_name and leaves isAdmin as it was |
| `Auth.LogInOpensGate` | authRoutes.js:181-195 | after a login with a generated id, both patient gates let the session through |
| `Auth.MissingSessionDenied` | authRoutes.js:191-252 | a session id with no stored session (never logged in, or logged out) is refused by the patient and the admin gate |
| `Auth.NoAdminsDenied` | authRoutes.js:247-252 | while no stored session is an admin one, the admin gate refuses every request |
| `Validation.RegisterGuard` | authRoutes.js:144-146 | 400 "Please provide first_name, email, and password" exactly when any of the three fields is falsy |
| `Validation.ProfileGuard` | authRoutes.js:221-223 | 400 "Please provide a new first_name" exactly when first_name is falsy |
| `Validation.DoctorFormGuard` | authRoutes.js:258-261 | 400 "All fields are required" exactly when any of the five fields is falsy |
| `Validation.DoctorOf` | authRoutes.js:264-267 | the inserted doctor row holds the five submitted fields, column for column |
| `Validation.DecideLogin` | authRoutes.js:163-183 | missing credentials win over everything; then an unknown email; a session is opened exactly for the matching row whose hash verifies, with that row's id and first_name; the password is wrong exactly when the matching row has a hash that does not verify; the hash is unreadable exactly when the matching row has none |
| `Validation.LoginResponse` | authRoutes.js:164-183 | each outcome's status (400, 404, 401, 500 for an unreadable hash, 200) and the success body with the patient id |
| `Validation.LoginPrecedence` | authRoutes.js:163-187 | 400 iff a credential is missing; 404 iff both are present and no row matches; 401 iff the matching row has a hash and the password does not verify against it; 500 iff the matching row has no hash |
| `DoctorUpdate.BuildUpdate` | authRoutes.js:297-317 | one `col = ?` clause per supplied column, in the fixed order; each value sits at its clause's index and is that field's own value; the values array is one longer, ending in the doctor id |
| `DoctorUpdate.SuppliedMembers` | authRoutes.js:290-315 | a column gets a SET clause exactly when it is first_name, last_name, specialization or schedule and its field is truthy; email never does |
| `DoctorUpdate.SuppliedOrdered` | authRoutes.js:300-315 | the SET clauses follow the order first_name, last_name, specialization, schedule, with no column twice |
| `DoctorUpdate.SuppliedAligned` | authRoutes.js:300-315 | clause i assigns the i-th supplied column and value i is exactly that column's body field, so each clause sits at the same index as its value |
| `DoctorUpdate.GuardMatchesBuilder` | authRoutes.js:292-294 | the 400 guard fires exactly when the SET list would be empty |
| `DoctorUpdate.ClauseNamesColumn` | authRoutes.js:301-313 | each pushed clause names its column unambiguously |
| `DoctorUpdate.PlaceholdersMatchValues` | authRoutes.js:317-320 | the statement joined with ", " has exactly as many placeholders as the values array has entries |
| `DoctorUpdate.UpdateMatchesPatch` | authRoutes.js:297-320 | running the built statement changes exactly the supplied columns of the row the id names; email, the other columns and the other rows keep their values, and a missing id changes nothing |
| `Js.ParseNatToString` | authRoutes.js:317 | the id text appended to the values parses back to the id it came from |
| `Js.JoinOccurrences` | authRoutes.js:319 | joining one-placeholder clauses with a placeholder-free separator gives one placeholder per clause |
| `Http.CreatedTextAsWritten` | authRoutes.js:269 | the creation text as written: it ends in "undefined" whatever the generated id |
| `Http.CreatedTextAsWrittenIgnoresId` | authRoutes.js:269 | as written, any two generated ids give the same creation text |
| `Http.CreatedTextAsWrittenMissesId` | authRoutes.js:269 | for every generated id, the text as written differs from the text that names that id |
| `Http.CreatedTextNamesRow` | authRoutes.js:269 | the corrected creation text ends in the generated id, which parses back from it |
| `Http.CreatedTextInjective` | express_app.js:161 | distinct generated ids give distinct corrected creation texts |
| `Clinic.PatientByEmail` | authRoutes.js:168-174 | the row found has the requested email; no row found means no row has that email |
| `Clinic.Server.Register` | authRoutes.js:141-157 | 400 with no change when a field is missing; 500 with no change on failure or a taken email; otherwise 201 and exactly one new row with the hash of the password |
| `Clinic.Server.Login` | authRoutes.js:160-188 | on either application: answers the login decision; writes the request's session in that application's store only, only on success and only its patientId and patientName; never creates an admin session |
| `Clinic.Server.GetProfile` | authRoutes.js:199-215 | on either application, against its own store: 401 without a logged-in session; otherwise 500 on failure, 404 when the session's patient row is gone, else that row's id, first_name and email |
| `Clinic.Server.UpdateProfile` | authRoutes.js:217-232 | on either application, against its own store: 401, then 400 for a falsy first_name, then 500; otherwise only the session's own patient's first_name changes |
| `Clinic.Server.Logout` | authRoutes.js:235-242 | on either application: 401 without a logged-in session; 500 "Error logging out" keeping the session on a store error; else the session is removed from that application's store only and "Logged out successfully" |
| `Clinic.Server.CreateDoctor` | authRoutes.js:255-274 | 401 for a non-admin session, then 400 for a missing field, then 500; otherwise 201 with the corrected creation text and one new row holding the form |
| `Clinic.Server.ListDoctors` | authRoutes.js:277-285 | every doctor's id with every column except email; no gate |
| `Clinic.Server.UpdateDoctor` | authRoutes.js:288-327 | 401, then 400 when no field is supplied, then 500; otherwise 200, and the named row gets the declarative partial update (a missing row is not reported) |
| `Clinic.Server.DeleteDoctor` | authRoutes.js:330-340 | 401 for a non-admin session, 500 on failure, otherwise 200 "Doctor deleted successfully" whether or not the row existed |
| `Clinic.Server.ListPatients` | express_app.js:135-142 | behind the app's gate: every patient's id with its first_name |
| `Clinic.Server.GetPatient` | express_app.js:144-155 | behind the app's gate: 500 on failure, 404 "Patient not found" when no row has the id, else its id and first_name |
| `Clinic.Server.CreatePatient` | express_app.js:157-165 | behind the app's gate, without validation: 201 with the corrected creation text and one new row with no password hash, or 500 with no change |
| `Clinic.Server.UpdatePatient` | express_app.js:167-177 | behind the app's gate: sets that row's first_name (absent included) and reports success whether or not it existed |
| `Clinic.Server.DeletePatient` | express_app.js:179-187 | behind the app's gate: removes the row and reports success unconditionally; sessions are untouched |
| `Clinic.Server.BookAppointment` | express_app.js:223-236 | behind the app's gate: one new appointment whose patient is the session's patientId and whose status is 'pending' |
| `Scenarios.RegisterLoginProfile` | authRoutes.js:141-215 | on a fresh server, register, then login with the same credentials, then profile answer 201, 200 with patient id 1, and 200 with the registered name and email |
| `Scenarios.FailedLogins` | authRoutes.js:160-196 | a password the stored hash does not verify answers 401 and an unknown email 404; neither opens the profile |
| `Scenarios.LogoutEndsSession` | express_app.js:21-132 | on the standalone app, after logout the same session gets 401 from the profile and from a second logout |
| `Scenarios.DeletedPatientProfile` | express_app.js:179-187 | a patient deleted while logged in keeps a passing session, and the profile then answers 404 |
| `Scenarios.AdminRoutesClosed` | authRoutes.js:247-252 | with no admin session seeded, even a logged-in patient gets 401 from doctor create, update and delete |
| `Scenarios.PartialDoctorUpdate` | authRoutes.js:288-327 | create a doctor, then change only specialization: the listing shows the new specialization and the other columns as created |
| `Scenarios.DeleteMissingDoctor` | authRoutes.js:330-335 | deleting an id with no row still answers 200 "Doctor deleted successfully" |
| `Scenarios.BookForSelf` | express_app.js:223-232 | a patient logged in on the app has their booking stored with their id and status 'pending' |
| `Scenarios.SessionsDoNotCross` | express_app.js:13-27 | a login on the router opens the router's profile, while the app's profile and booking still answer 401 |

## Left out

- bcrypt: hashing and comparison are arbitrary functions. Salts, the cost factor 10 and constant-time comparison are not modelled. A failure of `bcrypt.hash` is folded into `fails`.
- MySQL: tables are maps from id to row. SQL text is built and given meaning only for the doctor update. Elsewhere each statement's effect is written directly on the maps.
- MySQL: email matching is exact. The database's case-insensitive, trailing-space-insensitive collation is not modelled.
- MySQL: schema constraints other than the unique email (NOT NULL, foreign keys from appointments) show up only through `fails`.
- MySQL: an AUTO_INCREMENT value used up by a failed insert is not modelled. Failed inserts leave the counter as it was.
- Request bodies: each field is either absent or a string. JSON numbers, booleans and null are not modelled, nor their truthiness.
- Path parameters: `:doctorId` and `:id` are the numbers they denote. Texts such as "007" or "5abc", and MySQL's string-to-number coercion of them, are not modelled.
- Clinic.Server.ListDoctors: the JSON array is modelled as a map from id to row, so the order of the rows is not captured.
- Clinic.Server.ListPatients: the same; the order of the rows is not captured.
- Clinic.Server.Logout: when the store reports an error, the model keeps the session. Whether it survives depends on the store.
- Session middleware: cookie issuing and signing, `saveUninitialized`, expiry and id generation are left out. The request's session id is a parameter; the two secrets matter only in that each application has its own store.
- Clinic.Server.CreateDoctor: answers 201 with "Doctor created with ID: " and the generated id, the corrected text. The code as written answers "Doctor created with ID: undefined" (see Findings).
- Clinic.Server.CreatePatient: answers 201 with "Patient created with ID: " and the generated id, the corrected text. The code as written answers "Patient created with ID: undefined" (see Findings).
- Scenarios.PartialDoctorUpdate: its creation answer is the corrected text naming id 1, for the same reason.
- Concurrency: async/await and interleaving of requests are left out. Each handler runs as one atomic step.
- Logging: `console.log` and `console.error` calls are left out.
- Outside the handlers: the commented-out copy at the top of `authRoutes.js`, and the unused `app` with its middleware in that file, are not part of this model.
- Outside the handlers: `server.js` only wires middleware and listens on a port.
- Stub routes: the doctors, appointments (read/update/delete) and admin routes of `express_app.js:190-260` return constant text and touch no state. They are not part of this model.

## Findings

| source | as written | input that shows it | evidently intended | confidence | as-written member | corrected member |
|---|---|---|---|---|---|---|
| authRoutes.js:264-269 | `result` is the `[header, fields]` array that a promise query resolves to, so `result.insertId` is undefined and the answer reads "Doctor created with ID: undefined" | any complete doctor form sent with an admin session; `Http.CreatedTextAsWrittenIgnoresId` shows every id gives the same text and `Http.CreatedTextAsWrittenMissesId` that it never names the id | the id the insert generated, as in `const [result] = ...` | likely; not executed; relies on the database module being a promise pool, which the array destructuring of every other query result implies | `Http.CreatedTextAsWritten` | `Http.CreatedText` |
| express_app.js:160-161 | the same `result.insertId` read gives "Patient created with ID: undefined" | any POST /patients with a logged-in session | the generated patient id | likely; not executed; same reliance as above | `Http.CreatedTextAsWritten` | `Http.CreatedText` |
