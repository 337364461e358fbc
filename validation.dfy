/** The checks each handler makes on its request body before touching the
    database, and the order in which login rejects a request. */
module Validation {
  import opened Js
  import opened Records
  import opened Http

  /** POST /register: first_name, email and password are all required. */
  function RegisterGuard(firstName: Field, email: Field, password: Field): (r: Option<Response>)
    ensures r.None? <==> Truthy(firstName) && Truthy(email) && Truthy(password)
    ensures r.Some? ==> r.value == Send(400, "Please provide first_name, email, and password")
  {
    if !Truthy(firstName) || !Truthy(email) || !Truthy(password) then
      Some(Send(400, "Please provide first_name, email, and password"))
    else
      None
  }

  /** PUT /profile: a new first_name is required. */
  function ProfileGuard(firstName: Field): (r: Option<Response>)
    ensures r.None? <==> Truthy(firstName)
    ensures r.Some? ==> r.value == Send(400, "Please provide a new first_name")
  {
    if !Truthy(firstName) then Some(Send(400, "Please provide a new first_name")) else None
  }

  /** The body of POST /doctors. */
  datatype DoctorForm = DoctorForm(firstName: Field, lastName: Field, email: Field, specialization: Field, schedule: Field)

  predicate Complete(f: DoctorForm) {
    Truthy(f.firstName) && Truthy(f.lastName) && Truthy(f.email) && Truthy(f.specialization) && Truthy(f.schedule)
  }

  /** POST /doctors: all five fields are required. */
  function DoctorFormGuard(f: DoctorForm): (r: Option<Response>)
    ensures r.None? <==> Complete(f)
    ensures r.Some? ==> r.value == Send(400, "All fields are required")
  {
    if !Truthy(f.firstName) || !Truthy(f.lastName) || !Truthy(f.email) || !Truthy(f.specialization) || !Truthy(f.schedule) then
      Some(Send(400, "All fields are required"))
    else
      None
  }

  /** The doctor row a complete form inserts. */
  function DoctorOf(f: DoctorForm): (d: Doctor)
    requires Complete(f)
    ensures Some(d.firstName) == f.firstName && Some(d.lastName) == f.lastName && Some(d.email) == f.email
    ensures Some(d.specialization) == f.specialization && Some(d.schedule) == f.schedule
  {
    Doctor(f.firstName.value, f.lastName.value, f.email.value, f.specialization.value, f.schedule.value)
  }

  /** How a login attempt ends. */
  datatype LoginStep =
    | MissingCredentials
    | UnknownEmail
    | HashUnreadable
    | WrongPassword
    | LoggedIn(id: nat, name: Option<string>)

  /** The login decision, given the row (if any) whose email matches.
      A row without a password hash makes `bcrypt.compare` throw. */
  function DecideLogin(email: Field, password: Field, found: Option<(nat, Patient)>,
                       verify: (string, string) -> bool): (r: LoginStep)
    // 400 comes first, whatever the table holds
    ensures !Truthy(email) || !Truthy(password) ==> r == MissingCredentials
    // then 404, whatever the password
    ensures Truthy(email) && Truthy(password) && found.None? ==> r == UnknownEmail
    // a session is opened only for the row found, and only when the password verifies
    ensures r.LoggedIn? <==>
      Truthy(email) && Truthy(password) && found.Some? && found.value.1.passwordHash.Some?
      && verify(password.value, found.value.1.passwordHash.value)
    ensures r.LoggedIn? ==> r.id == found.value.0 && r.name == found.value.1.firstName
    // 401 exactly for the row found whose hash does not verify the password
    ensures r == WrongPassword <==>
      Truthy(email) && Truthy(password) && found.Some? && found.value.1.passwordHash.Some?
      && !verify(password.value, found.value.1.passwordHash.value)
    // `bcrypt.compare` throws, and the catch answers 500, exactly for the row found without a hash
    ensures r == HashUnreadable <==>
      Truthy(email) && Truthy(password) && found.Some? && found.value.1.passwordHash.None?
  {
    if !Truthy(email) || !Truthy(password) then MissingCredentials
    else if found.None? then UnknownEmail
    else
      var (id, patient) := found.value;
      if patient.passwordHash.None? then HashUnreadable
      else if !verify(password.value, patient.passwordHash.value) then WrongPassword
      else LoggedIn(id, patient.firstName)
  }

  /** The answer login sends for each outcome. */
  function LoginResponse(step: LoginStep): (r: Response)
    ensures r.status == 200 <==> step.LoggedIn?
    ensures r.status == 400 <==> step == MissingCredentials
    ensures r.status == 404 <==> step == UnknownEmail
    ensures r.status == 401 <==> step == WrongPassword
    ensures r.status == 500 <==> step == HashUnreadable
    ensures step.LoggedIn? ==> r.body == LoginJson("Login successful", step.id)
  {
    match step
    case MissingCredentials => Send(400, "Please provide email and password")
    case UnknownEmail => Send(404, "Patient not found")
    case HashUnreadable => ServerError
    case WrongPassword => Send(401, "Invalid email or password")
    case LoggedIn(id, _) => Response(200, LoginJson("Login successful", id))
  }

  /** Login answers 400, 404, then 401 or 500, in that order of precedence:
      a status is reached exactly when every earlier check passed and its own
      check fails. */
  lemma LoginPrecedence(email: Field, password: Field, found: Option<(nat, Patient)>,
                        verify: (string, string) -> bool)
    ensures var status := LoginResponse(DecideLogin(email, password, found, verify)).status;
      && (status == 400 <==> !Truthy(email) || !Truthy(password))
      && (status == 404 <==> Truthy(email) && Truthy(password) && found.None?)
      && (status == 401 <==> Truthy(email) && Truthy(password) && found.Some? && found.value.1.passwordHash.Some?
                             && !verify(password.value, found.value.1.passwordHash.value))
      && (status == 500 <==> Truthy(email) && Truthy(password) && found.Some? && found.value.1.passwordHash.None?)
  {
  }
}
