/** The rows of the patients, doctors and appointments tables, and the password
    hashing library the handlers call. */
module Records {
  import opened Js

  /** A row of `patients`. Rows inserted by registration carry all three columns;
      rows inserted by POST /patients carry no password hash, and their name and
      email are whatever the body held (`None` stands for SQL NULL). */
  datatype Patient = Patient(firstName: Option<string>, email: Option<string>, passwordHash: Option<string>)

  /** A row of `doctors`. Every column is set, and truthy, at creation. */
  datatype Doctor = Doctor(firstName: string, lastName: string, email: string, specialization: string, schedule: string)

  /** The columns GET /doctors selects besides the id: every column but email. */
  datatype DoctorListing = DoctorListing(firstName: string, lastName: string, specialization: string, schedule: string)

  function Listing(d: Doctor): (l: DoctorListing)
    ensures l.firstName == d.firstName && l.lastName == d.lastName
    ensures l.specialization == d.specialization && l.schedule == d.schedule
  {
    DoctorListing(d.firstName, d.lastName, d.specialization, d.schedule)
  }

  /** A row of `appointments`. The booking handler does not validate the
      doctor, date or time it is given, so each may be NULL. */
  datatype Appointment = Appointment(patientId: nat, doctorId: Field, date: Field, time: Field, status: string)

  /** bcrypt as the handlers use it: `hash(password, salt)` stands for
      `bcrypt.hash(password, 10)`, whose salt is random, and `verify(password, hash)`
      for `bcrypt.compare`. Neither is given a definition here. */
  datatype Credentials = Credentials(hash: (string, nat) -> string, verify: (string, string) -> bool)

  /** A hash always verifies against the password it was made from. */
  ghost predicate Sound(c: Credentials) {
    forall password, salt :: c.verify(password, c.hash(password, salt))
  }
}
