/** The server's state and its request handlers: the patients, doctors and
    appointments tables, the session store of each of the two applications,
    and one method per route of the router (register, login, profile, logout,
    doctors) and of the standalone app (the same account routes, patients,
    appointment booking). */
module Clinic {
  import opened Js
  import opened Records
  import opened Http
  import opened Auth
  import opened Validation
  import opened DoctorUpdate

  /** No two patient rows share a (non-NULL) email. */
  ghost predicate UniqueEmails(patients: map<nat, Patient>) {
    forall a, b :: a in patients && b in patients && patients[a].email.Some? && patients[a].email == patients[b].email ==> a == b
  }

  predicate EmailTaken(patients: map<nat, Patient>, email: Option<string>) {
    email.Some? && exists id :: id in patients && patients[id].email == email
  }

  /** `SELECT * FROM patients WHERE email = ?`, first row. */
  function PatientByEmail(patients: map<nat, Patient>, email: string): (r: Option<(nat, Patient)>)
    requires UniqueEmails(patients)
    ensures r.Some? ==> r.value.0 in patients && patients[r.value.0] == r.value.1 && r.value.1.email == Some(email)
    ensures r.None? ==> forall id :: id in patients ==> patients[id].email != Some(email)
  {
    if exists id :: id in patients && patients[id].email == Some(email) then
      var id :| id in patients && patients[id].email == Some(email);
      Some((id, patients[id]))
    else
      None
  }

  /** The row login works with: none when the email field is absent. */
  function LoginMatch(patients: map<nat, Patient>, email: Field): (r: Option<(nat, Patient)>)
    requires UniqueEmails(patients)
  {
    if email.Some? then PatientByEmail(patients, email.value) else None
  }

  /** The id columns are AUTO_INCREMENT counters that start at 1. */
  ghost predicate IdsBelow<T>(table: map<nat, T>, next: nat) {
    forall id :: id in table ==> 1 <= id < next
  }

  class Server {
    /** The password hashing library. */
    const creds: Credentials

    var patients: map<nat, Patient>
    var doctors: map<nat, Doctor>
    var appointments: map<nat, Appointment>
    var nextPatientId: nat
    var nextDoctorId: nat
    var nextAppointmentId: nat

    /** The session store of each application, keyed by the id a request's
        cookie carries. The two share the database but not their sessions. */
    var routerSessions: map<Token, Session>
    var appSessions: map<Token, Session>

    /** The session store of the application serving the request. */
    function Store(at: Surface): (store: map<Token, Session>)
      reads this
      ensures at.Router? ==> store == routerSessions
      ensures at.App? ==> store == appSessions
    {
      match at
      case Router => routerSessions
      case App => appSessions
    }

    /** Replaces one application's session store and leaves the other's. */
    method SetStore(at: Surface, store: map<Token, Session>)
      modifies this`routerSessions, this`appSessions
      ensures Store(at) == store
      ensures at.Router? ==> appSessions == old(appSessions)
      ensures at.App? ==> routerSessions == old(routerSessions)
    {
      match at
      case Router => routerSessions := store;
      case App => appSessions := store;
    }

    ghost predicate Valid()
      reads this
    {
      && 1 <= nextPatientId && 1 <= nextDoctorId && 1 <= nextAppointmentId
      && IdsBelow(patients, nextPatientId)
      && IdsBelow(doctors, nextDoctorId)
      && IdsBelow(appointments, nextAppointmentId)
      && UniqueEmails(patients)
    }

    /** Empty tables; `seed` is whatever the router's session store already
        holds, which is the only way a session can carry `isAdmin`. The
        standalone app's store starts empty. */
    constructor (creds: Credentials, seed: map<Token, Session>)
      ensures Valid()
      ensures this.creds == creds && routerSessions == seed && appSessions == map[]
      ensures patients == map[] && doctors == map[] && appointments == map[]
      ensures nextPatientId == 1 && nextDoctorId == 1 && nextAppointmentId == 1
    {
      this.creds := creds;
      patients, doctors, appointments := map[], map[], map[];
      nextPatientId, nextDoctorId, nextAppointmentId := 1, 1, 1;
      routerSessions, appSessions := seed, map[];
    }

    /** POST /register. `salt` stands for the random salt `bcrypt.hash` draws;
        `fails` for a failure of the hash or of the database. */
    method Register(firstName: Field, email: Field, password: Field, salt: nat, fails: bool) returns (r: Response)
      requires Valid()
      modifies this`patients, this`nextPatientId
      ensures Valid()
      ensures RegisterGuard(firstName, email, password).Some? ==>
        r == RegisterGuard(firstName, email, password).value && unchanged(this)
      ensures RegisterGuard(firstName, email, password).None? && (fails || EmailTaken(old(patients), email)) ==>
        r == ServerError && unchanged(this)
      ensures RegisterGuard(firstName, email, password).None? && !fails && !EmailTaken(old(patients), email) ==>
        && r == Send(201, "Patient registered successfully")
        && patients == old(patients)[old(nextPatientId) := Patient(firstName, email, Some(creds.hash(password.value, salt)))]
        && nextPatientId == old(nextPatientId) + 1
    {
      var guard := RegisterGuard(firstName, email, password);
      if guard.Some? {
        return guard.value;
      }
      if fails || EmailTaken(patients, email) {
        return ServerError;
      }
      var hashed := creds.hash(password.value, salt);
      patients := patients[nextPatientId := Patient(firstName, email, Some(hashed))];
      nextPatientId := nextPatientId + 1;
      r := Send(201, "Patient registered successfully");
    }

    /** POST /login on either application: 400, then 404, then 401, and only
        then that application's session is written. `fails` stands for a
        failure of the query or of the hash library. */
    method Login(at: Surface, sid: Token, email: Field, password: Field, fails: bool) returns (r: Response)
      requires Valid()
      modifies this`routerSessions, this`appSessions
      ensures Valid()
      ensures NoNewAdmins(old(routerSessions), routerSessions) && NoNewAdmins(old(appSessions), appSessions)
      ensures at.Router? ==> appSessions == old(appSessions)
      ensures at.App? ==> routerSessions == old(routerSessions)
      ensures Truthy(email) && Truthy(password) && fails ==> r == ServerError && Store(at) == old(Store(at))
      ensures !(Truthy(email) && Truthy(password) && fails) ==>
        var step := DecideLogin(email, password, LoginMatch(patients, email), creds.verify);
        && r == LoginResponse(step)
        && Store(at) == if step.LoggedIn? then old(Store(at))[sid := LogIn(SessionOf(old(Store(at)), sid), step.id, step.name)]
                        else old(Store(at))
    {
      if !Truthy(email) || !Truthy(password) {
        return LoginResponse(MissingCredentials);
      }
      if fails {
        return ServerError;
      }
      var step := DecideLogin(email, password, LoginMatch(patients, email), creds.verify);
      if step.LoggedIn? {
        SetStore(at, Store(at)[sid := LogIn(SessionOf(Store(at), sid), step.id, step.name)]);
      }
      r := LoginResponse(step);
    }

    /** GET /profile on either application. */
    method GetProfile(at: Surface, sid: Token, fails: bool) returns (r: Response)
      requires Valid()
      ensures PatientGate(at, SessionOf(Store(at), sid)).Deny? ==> r == NotLoggedIn
      ensures PatientGate(at, SessionOf(Store(at), sid)).Next? ==>
        var id := SessionOf(Store(at), sid).patientId.value;
        r == if fails then ServerError
             else if id in patients then Response(200, ProfileJson(id, patients[id].firstName, patients[id].email))
             else Send(404, "Profile not found")
    {
      var session := SessionOf(Store(at), sid);
      var gate := PatientGate(at, session);
      if gate.Deny? {
        return gate.response;
      }
      if fails {
        return ServerError;
      }
      var id := session.patientId.value;
      if id !in patients {
        return Send(404, "Profile not found");
      }
      r := Response(200, ProfileJson(id, patients[id].firstName, patients[id].email));
    }

    /** PUT /profile on either application: changes the first name of the
        session's own patient and nothing else. */
    method UpdateProfile(at: Surface, sid: Token, firstName: Field, fails: bool) returns (r: Response)
      requires Valid()
      modifies this`patients
      ensures Valid()
      ensures PatientGate(at, SessionOf(Store(at), sid)).Deny? ==> r == NotLoggedIn && unchanged(this)
      ensures PatientGate(at, SessionOf(Store(at), sid)).Next? && ProfileGuard(firstName).Some? ==>
        r == ProfileGuard(firstName).value && unchanged(this)
      ensures PatientGate(at, SessionOf(Store(at), sid)).Next? && ProfileGuard(firstName).None? && fails ==>
        r == ServerError && unchanged(this)
      ensures PatientGate(at, SessionOf(Store(at), sid)).Next? && ProfileGuard(firstName).None? && !fails ==>
        var id := SessionOf(Store(at), sid).patientId.value;
        && r == Send(200, "Profile updated successfully")
        && patients == if id in old(patients) then old(patients)[id := old(patients)[id].(firstName := firstName)]
                       else old(patients)
    {
      var session := SessionOf(Store(at), sid);
      var gate := PatientGate(at, session);
      if gate.Deny? {
        return gate.response;
      }
      var guard := ProfileGuard(firstName);
      if guard.Some? {
        return guard.value;
      }
      if fails {
        return ServerError;
      }
      var id := session.patientId.value;
      if id in patients {
        patients := patients[id := patients[id].(firstName := firstName)];
      }
      r := Send(200, "Profile updated successfully");
    }

    /** POST /logout on either application: destroys the request's session in
        that application's store. `storeFails` stands for an error reported by
        the session store, in which case the session stays. */
    method Logout(at: Surface, sid: Token, storeFails: bool) returns (r: Response)
      requires Valid()
      modifies this`routerSessions, this`appSessions
      ensures Valid()
      ensures NoNewAdmins(old(routerSessions), routerSessions) && NoNewAdmins(old(appSessions), appSessions)
      ensures at.Router? ==> appSessions == old(appSessions)
      ensures at.App? ==> routerSessions == old(routerSessions)
      ensures PatientGate(at, SessionOf(old(Store(at)), sid)).Deny? ==> r == NotLoggedIn && Store(at) == old(Store(at))
      ensures PatientGate(at, SessionOf(old(Store(at)), sid)).Next? ==>
        && sid in old(Store(at))
        && (storeFails ==> r == Send(500, "Error logging out") && Store(at) == old(Store(at)))
        && (!storeFails ==> r == Send(200, "Logged out successfully") && Store(at) == old(Store(at)) - {sid})
    {
      var gate := PatientGate(at, SessionOf(Store(at), sid));
      if gate.Deny? {
        return gate.response;
      }
      if storeFails {
        return Send(500, "Error logging out");
      }
      SetStore(at, Store(at) - {sid});
      r := Send(200, "Logged out successfully");
    }

    /** POST /doctors (admin only). */
    method CreateDoctor(sid: Token, form: DoctorForm, fails: bool) returns (r: Response)
      requires Valid()
      modifies this`doctors, this`nextDoctorId
      ensures Valid()
      ensures AuthenticateAdmin(Some(SessionOf(routerSessions, sid))).Deny? ==> r == NotAdmin && unchanged(this)
      ensures AuthenticateAdmin(Some(SessionOf(routerSessions, sid))).Next? && !Complete(form) ==>
        r == Send(400, "All fields are required") && unchanged(this)
      ensures AuthenticateAdmin(Some(SessionOf(routerSessions, sid))).Next? && Complete(form) && fails ==>
        r == ServerError && unchanged(this)
      ensures AuthenticateAdmin(Some(SessionOf(routerSessions, sid))).Next? && Complete(form) && !fails ==>
        && r == Send(201, CreatedText("Doctor", old(nextDoctorId)))
        && doctors == old(doctors)[old(nextDoctorId) := DoctorOf(form)]
        && nextDoctorId == old(nextDoctorId) + 1
    {
      var gate := AuthenticateAdmin(Some(SessionOf(routerSessions, sid)));
      if gate.Deny? {
        return gate.response;
      }
      var guard := DoctorFormGuard(form);
      if guard.Some? {
        return guard.value;
      }
      if fails {
        return ServerError;
      }
      var id := nextDoctorId;
      doctors := doctors[id := DoctorOf(form)];
      nextDoctorId := nextDoctorId + 1;
      r := Send(201, CreatedText("Doctor", id));
    }

    /** GET /doctors: public; every doctor's id and columns except email. */
    method ListDoctors(fails: bool) returns (r: Response)
      ensures fails ==> r == ServerError
      ensures !fails ==> r.status == 200 && r.body.DoctorListJson?
      ensures !fails ==> r.body.doctors.Keys == doctors.Keys
      ensures !fails ==> forall id :: id in doctors ==> r.body.doctors[id] == Listing(doctors[id])
    {
      if fails {
        return ServerError;
      }
      r := Response(200, DoctorListJson(map id | id in doctors :: Listing(doctors[id])));
    }

    /** PUT /doctors/:doctorId (admin only): builds the SET list from the truthy
        fields and runs the statement, which changes exactly those columns of the
        named row. A missing row is not reported. */
    method UpdateDoctor(sid: Token, doctorId: nat, patch: DoctorPatch, fails: bool) returns (r: Response)
      requires Valid()
      modifies this`doctors
      ensures Valid()
      ensures AuthenticateAdmin(Some(SessionOf(routerSessions, sid))).Deny? ==> r == NotAdmin && unchanged(this)
      ensures AuthenticateAdmin(Some(SessionOf(routerSessions, sid))).Next? && !HasChange(patch) ==>
        r == Send(400, "Provide at least one field to update") && unchanged(this)
      ensures AuthenticateAdmin(Some(SessionOf(routerSessions, sid))).Next? && HasChange(patch) && fails ==>
        r == ServerError && unchanged(this)
      ensures AuthenticateAdmin(Some(SessionOf(routerSessions, sid))).Next? && HasChange(patch) && !fails ==>
        && r == Send(200, "Doctor updated successfully")
        && doctors == if doctorId in old(doctors) then old(doctors)[doctorId := Patched(old(doctors)[doctorId], patch)]
                      else old(doctors)
    {
      var gate := AuthenticateAdmin(Some(SessionOf(routerSessions, sid)));
      if gate.Deny? {
        return gate.response;
      }
      if !HasChange(patch) {
        return Send(400, "Provide at least one field to update");
      }
      if fails {
        return ServerError;
      }
      var updateFields, updateValues := BuildUpdate(patch, NatToString(doctorId));
      GuardMatchesBuilder(patch);
      assert updateFields != [];
      PlaceholdersMatchValues(patch, NatToString(doctorId));
      assert Occurrences(UpdateSql(updateFields), '?') == |updateValues|;
      UpdateMatchesPatch(doctors, doctorId, patch);
      doctors := ExecuteUpdate(doctors, updateFields, updateValues);
      r := Send(200, "Doctor updated successfully");
    }

    /** DELETE /doctors/:doctorId (admin only): succeeds whether or not the row existed. */
    method DeleteDoctor(sid: Token, doctorId: nat, fails: bool) returns (r: Response)
      requires Valid()
      modifies this`doctors
      ensures Valid()
      ensures AuthenticateAdmin(Some(SessionOf(routerSessions, sid))).Deny? ==> r == NotAdmin && unchanged(this)
      ensures AuthenticateAdmin(Some(SessionOf(routerSessions, sid))).Next? && fails ==> r == ServerError && unchanged(this)
      ensures AuthenticateAdmin(Some(SessionOf(routerSessions, sid))).Next? && !fails ==>
        r == Send(200, "Doctor deleted successfully") && doctors == old(doctors) - {doctorId}
    {
      var gate := AuthenticateAdmin(Some(SessionOf(routerSessions, sid)));
      if gate.Deny? {
        return gate.response;
      }
      if fails {
        return ServerError;
      }
      doctors := doctors - {doctorId};
      r := Send(200, "Doctor deleted successfully");
    }

    /** GET /patients: every patient's id and first name. */
    method ListPatients(sid: Token, fails: bool) returns (r: Response)
      ensures IsAuthenticated(Some(SessionOf(appSessions, sid))).Deny? ==> r == NotLoggedIn
      ensures IsAuthenticated(Some(SessionOf(appSessions, sid))).Next? && fails ==> r == ServerError
      ensures IsAuthenticated(Some(SessionOf(appSessions, sid))).Next? && !fails ==>
        && r.status == 200 && r.body.PatientListJson?
        && r.body.patients.Keys == patients.Keys
        && forall id :: id in patients ==> r.body.patients[id] == patients[id].firstName
    {
      var gate := IsAuthenticated(Some(SessionOf(appSessions, sid)));
      if gate.Deny? {
        return gate.response;
      }
      if fails {
        return ServerError;
      }
      r := Response(200, PatientListJson(map id | id in patients :: patients[id].firstName));
    }

    /** GET /patients/:id. */
    method GetPatient(sid: Token, id: nat, fails: bool) returns (r: Response)
      ensures IsAuthenticated(Some(SessionOf(appSessions, sid))).Deny? ==> r == NotLoggedIn
      ensures IsAuthenticated(Some(SessionOf(appSessions, sid))).Next? ==>
        r == if fails then ServerError
             else if id in patients then Response(200, PatientJson(id, patients[id].firstName))
             else Send(404, "Patient not found")
    {
      var gate := IsAuthenticated(Some(SessionOf(appSessions, sid)));
      if gate.Deny? {
        return gate.response;
      }
      if fails {
        return ServerError;
      }
      if id !in patients {
        return Send(404, "Patient not found");
      }
      r := Response(200, PatientJson(id, patients[id].firstName));
    }

    /** POST /patients: inserts a row without a password hash; the body is not validated. */
    method CreatePatient(sid: Token, firstName: Field, email: Field, fails: bool) returns (r: Response)
      requires Valid()
      modifies this`patients, this`nextPatientId
      ensures Valid()
      ensures IsAuthenticated(Some(SessionOf(appSessions, sid))).Deny? ==> r == NotLoggedIn && unchanged(this)
      ensures IsAuthenticated(Some(SessionOf(appSessions, sid))).Next? && (fails || EmailTaken(old(patients), email)) ==>
        r == ServerError && unchanged(this)
      ensures IsAuthenticated(Some(SessionOf(appSessions, sid))).Next? && !fails && !EmailTaken(old(patients), email) ==>
        && r == Send(201, CreatedText("Patient", old(nextPatientId)))
        && patients == old(patients)[old(nextPatientId) := Patient(firstName, email, None)]
        && nextPatientId == old(nextPatientId) + 1
    {
      var gate := IsAuthenticated(Some(SessionOf(appSessions, sid)));
      if gate.Deny? {
        return gate.response;
      }
      if fails || EmailTaken(patients, email) {
        return ServerError;
      }
      var id := nextPatientId;
      patients := patients[id := Patient(firstName, email, None)];
      nextPatientId := nextPatientId + 1;
      r := Send(201, CreatedText("Patient", id));
    }

    /** PUT /patients/:id: sets any patient's first name, NULL included. */
    method UpdatePatient(sid: Token, id: nat, firstName: Field, fails: bool) returns (r: Response)
      requires Valid()
      modifies this`patients
      ensures Valid()
      ensures IsAuthenticated(Some(SessionOf(appSessions, sid))).Deny? ==> r == NotLoggedIn && unchanged(this)
      ensures IsAuthenticated(Some(SessionOf(appSessions, sid))).Next? && fails ==> r == ServerError && unchanged(this)
      ensures IsAuthenticated(Some(SessionOf(appSessions, sid))).Next? && !fails ==>
        && r == Send(200, "Updated patient with ID: " + NatToString(id))
        && patients == if id in old(patients) then old(patients)[id := old(patients)[id].(firstName := firstName)]
                       else old(patients)
    {
      var gate := IsAuthenticated(Some(SessionOf(appSessions, sid)));
      if gate.Deny? {
        return gate.response;
      }
      if fails {
        return ServerError;
      }
      if id in patients {
        patients := patients[id := patients[id].(firstName := firstName)];
      }
      r := Send(200, "Updated patient with ID: " + NatToString(id));
    }

    /** DELETE /patients/:id: succeeds whether or not the row existed, and leaves
        the deleted patient's sessions in place. */
    method DeletePatient(sid: Token, id: nat, fails: bool) returns (r: Response)
      requires Valid()
      modifies this`patients
      ensures Valid()
      ensures IsAuthenticated(Some(SessionOf(appSessions, sid))).Deny? ==> r == NotLoggedIn && unchanged(this)
      ensures IsAuthenticated(Some(SessionOf(appSessions, sid))).Next? && fails ==> r == ServerError && unchanged(this)
      ensures IsAuthenticated(Some(SessionOf(appSessions, sid))).Next? && !fails ==>
        r == Send(200, "Deleted patient with ID: " + NatToString(id)) && patients == old(patients) - {id}
    {
      var gate := IsAuthenticated(Some(SessionOf(appSessions, sid)));
      if gate.Deny? {
        return gate.response;
      }
      if fails {
        return ServerError;
      }
      patients := patients - {id};
      r := Send(200, "Deleted patient with ID: " + NatToString(id));
    }

    /** POST /appointments: books for the session's own patient, status 'pending';
        the doctor, date and time are taken as given. */
    method BookAppointment(sid: Token, doctorId: Field, date: Field, time: Field, fails: bool) returns (r: Response)
      requires Valid()
      modifies this`appointments, this`nextAppointmentId
      ensures Valid()
      ensures IsAuthenticated(Some(SessionOf(appSessions, sid))).Deny? ==> r == NotLoggedIn && unchanged(this)
      ensures IsAuthenticated(Some(SessionOf(appSessions, sid))).Next? && fails ==> r == ServerError && unchanged(this)
      ensures IsAuthenticated(Some(SessionOf(appSessions, sid))).Next? && !fails ==>
        && r == Send(201, "Appointment booked successfully")
        && appointments == old(appointments)[old(nextAppointmentId) :=
             Appointment(SessionOf(appSessions, sid).patientId.value, doctorId, date, time, "pending")]
        && nextAppointmentId == old(nextAppointmentId) + 1
    {
      var session := SessionOf(appSessions, sid);
      var gate := IsAuthenticated(Some(session));
      if gate.Deny? {
        return gate.response;
      }
      if fails {
        return ServerError;
      }
      appointments := appointments[nextAppointmentId := Appointment(session.patientId.value, doctorId, date, time, "pending")];
      nextAppointmentId := nextAppointmentId + 1;
      r := Send(201, "Appointment booked successfully");
    }
  }
}
