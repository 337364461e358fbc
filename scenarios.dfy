/** Sequences of requests against a freshly started server, and what each
    answers. Every input other than the ones named in a `requires` is arbitrary. */
module Scenarios {
  import opened Js
  import opened Records
  import opened Http
  import opened Auth
  import opened Validation
  import opened DoctorUpdate
  import opened Clinic

  /** Register, log in with the same credentials, read the profile: the first
      patient gets id 1 and the profile shows what was registered. */
  method RegisterLoginProfile(creds: Credentials, firstName: string, email: string, password: string, salt: nat, sid: Token)
    returns (registered: Response, loggedIn: Response, profile: Response)
    requires Sound(creds)
    requires firstName != "" && email != "" && password != ""
    ensures registered == Send(201, "Patient registered successfully")
    ensures loggedIn == Response(200, LoginJson("Login successful", 1))
    ensures profile == Response(200, ProfileJson(1, Some(firstName), Some(email)))
  {
    var server := new Server(creds, map[]);
    registered := server.Register(Some(firstName), Some(email), Some(password), salt, false);
    assert server.patients[1].email == Some(email);
    assert creds.verify(password, creds.hash(password, salt));
    loggedIn := server.Login(Router, sid, Some(email), Some(password), false);
    profile := server.GetProfile(Router, sid, false);
  }

  /** A wrong password answers 401 and an unknown email 404; neither opens a
      session, so the profile stays closed. */
  method FailedLogins(creds: Credentials, firstName: string, email: string, password: string, salt: nat,
                      wrong: string, stranger: string, sid: Token)
    returns (badPassword: Response, unknown: Response, profile: Response)
    requires !creds.verify(wrong, creds.hash(password, salt))
    requires firstName != "" && email != "" && password != ""
    requires wrong != ""
    requires stranger != "" && stranger != email
    ensures badPassword == Send(401, "Invalid email or password")
    ensures unknown == Send(404, "Patient not found")
    ensures profile == NotLoggedIn
  {
    var server := new Server(creds, map[]);
    var _ := server.Register(Some(firstName), Some(email), Some(password), salt, false);
    assert server.patients[1].email == Some(email);
    badPassword := server.Login(Router, sid, Some(email), Some(wrong), false);
    unknown := server.Login(Router, sid, Some(stranger), Some(password), false);
    profile := server.GetProfile(Router, sid, false);
  }

  /** On the standalone app: after logout the same session id no longer
      reaches the profile. */
  method LogoutEndsSession(creds: Credentials, firstName: string, email: string, password: string, salt: nat, sid: Token)
    returns (loggedOut: Response, profile: Response, again: Response)
    requires Sound(creds)
    requires firstName != "" && email != "" && password != ""
    ensures loggedOut == Send(200, "Logged out successfully")
    ensures profile == NotLoggedIn
    ensures again == NotLoggedIn
  {
    var server := new Server(creds, map[]);
    var _ := server.Register(Some(firstName), Some(email), Some(password), salt, false);
    assert server.patients[1].email == Some(email);
    assert creds.verify(password, creds.hash(password, salt));
    var _ := server.Login(App, sid, Some(email), Some(password), false);
    loggedOut := server.Logout(App, sid, false);
    profile := server.GetProfile(App, sid, false);
    again := server.Logout(App, sid, false);
  }

  /** A patient deleted while logged in keeps a working session, and their
      profile then answers 404. */
  method DeletedPatientProfile(creds: Credentials, firstName: string, email: string, password: string, salt: nat, sid: Token)
    returns (deleted: Response, profile: Response)
    requires Sound(creds)
    requires firstName != "" && email != "" && password != ""
    ensures deleted == Send(200, "Deleted patient with ID: 1")
    ensures profile == Send(404, "Profile not found")
  {
    var server := new Server(creds, map[]);
    var _ := server.Register(Some(firstName), Some(email), Some(password), salt, false);
    assert server.patients[1].email == Some(email);
    assert creds.verify(password, creds.hash(password, salt));
    var _ := server.Login(App, sid, Some(email), Some(password), false);
    deleted := server.DeletePatient(sid, 1, false);
    assert NatToString(1) == "1";
    assert "Deleted patient with ID: " + "1" == "Deleted patient with ID: 1";
    profile := server.GetProfile(App, sid, false);
  }

  /** Logging in never makes a session an admin one: started without admin
      sessions, the server refuses every doctor change even after a login. */
  method AdminRoutesClosed(creds: Credentials, firstName: string, email: string, password: string, salt: nat, sid: Token,
                           form: DoctorForm, patch: DoctorPatch, doctorId: nat)
    returns (created: Response, updated: Response, deleted: Response)
    requires Sound(creds)
    requires firstName != "" && email != "" && password != ""
    ensures created == NotAdmin && updated == NotAdmin && deleted == NotAdmin
  {
    var server := new Server(creds, map[]);
    var _ := server.Register(Some(firstName), Some(email), Some(password), salt, false);
    var _ := server.Login(Router, sid, Some(email), Some(password), false);
    assert NoAdmins(server.routerSessions);
    created := server.CreateDoctor(sid, form, false);
    updated := server.UpdateDoctor(sid, doctorId, patch, false);
    deleted := server.DeleteDoctor(sid, doctorId, false);
  }

  /** With an admin session: create a doctor, change only the specialization,
      list the doctors. The listing shows the new specialization and the other
      columns as created. */
  method PartialDoctorUpdate(creds: Credentials, sid: Token, form: DoctorForm, specialization: string)
    returns (created: Response, updated: Response, listed: Response)
    requires Complete(form) && specialization != ""
    ensures created == Send(201, CreatedText("Doctor", 1))
    ensures updated == Send(200, "Doctor updated successfully")
    ensures listed.status == 200 && listed.body.DoctorListJson? && listed.body.doctors.Keys == {1}
    ensures listed.body.doctors[1] ==
      DoctorListing(form.firstName.value, form.lastName.value, specialization, form.schedule.value)
  {
    var server := new Server(creds, map[sid := Session(None, None, true)]);
    created := server.CreateDoctor(sid, form, false);
    updated := server.UpdateDoctor(sid, 1, DoctorPatch(None, None, Some(specialization), None), false);
    listed := server.ListDoctors(false);
  }

  /** Deleting a doctor that does not exist still reports success. */
  method DeleteMissingDoctor(creds: Credentials, sid: Token, doctorId: nat)
    returns (deleted: Response)
    ensures deleted == Send(200, "Doctor deleted successfully")
  {
    var server := new Server(creds, map[sid := Session(None, None, true)]);
    deleted := server.DeleteDoctor(sid, doctorId, false);
  }

  /** A booking records the logged-in patient and status 'pending'. */
  method BookForSelf(creds: Credentials, firstName: string, email: string, password: string, salt: nat, sid: Token,
                     doctorId: Field, date: Field, time: Field)
    returns (booked: Response, booking: Appointment)
    requires Sound(creds)
    requires firstName != "" && email != "" && password != ""
    ensures booked == Send(201, "Appointment booked successfully")
    ensures booking == Appointment(1, doctorId, date, time, "pending")
  {
    var server := new Server(creds, map[]);
    var _ := server.Register(Some(firstName), Some(email), Some(password), salt, false);
    assert server.patients[1].email == Some(email);
    assert creds.verify(password, creds.hash(password, salt));
    var _ := server.Login(App, sid, Some(email), Some(password), false);
    booked := server.BookAppointment(sid, doctorId, date, time, false);
    booking := server.appointments[1];
  }

  /** The two applications keep separate session stores: a login on the
      router opens the router's profile but neither the app's profile nor
      its booking route. */
  method SessionsDoNotCross(creds: Credentials, firstName: string, email: string, password: string, salt: nat, sid: Token,
                            doctorId: Field, date: Field, time: Field)
    returns (routerProfile: Response, appProfile: Response, booked: Response)
    requires Sound(creds)
    requires firstName != "" && email != "" && password != ""
    ensures routerProfile == Response(200, ProfileJson(1, Some(firstName), Some(email)))
    ensures appProfile == NotLoggedIn && booked == NotLoggedIn
  {
    var server := new Server(creds, map[]);
    var _ := server.Register(Some(firstName), Some(email), Some(password), salt, false);
    assert server.patients[1].email == Some(email);
    assert creds.verify(password, creds.hash(password, salt));
    var _ := server.Login(Router, sid, Some(email), Some(password), false);
    routerProfile := server.GetProfile(Router, sid, false);
    appProfile := server.GetProfile(App, sid, false);
    booked := server.BookAppointment(sid, doctorId, date, time, false);
  }
}
