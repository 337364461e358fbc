/** Sessions and the three gates that guard routes: `authenticate` and
    `authenticateAdmin` of the router, `isAuthenticated` of the standalone app. */
module Auth {
  import opened Js
  import opened Http

  /** The session id a request's cookie carries. */
  type Token = string

  /** The fields a session record holds. `isAdmin` is read by the admin gate
      but written by no handler. */
  datatype Session = Session(patientId: Option<nat>, patientName: Option<string>, isAdmin: bool)

  /** The record the session middleware hands a request whose cookie names no
      stored session. */
  const Blank := Session(None, None, false)

  /** The session a request sees. */
  function SessionOf(store: map<Token, Session>, sid: Token): (s: Session)
    ensures sid !in store ==> s == Blank
    ensures sid in store ==> s == store[sid]
  {
    if sid in store then store[sid] else Blank
  }

  /** Whether a middleware calls `next()` or answers the request itself. */
  datatype Gate = Next | Deny(response: Response)

  const NotLoggedIn := Send(401, "Unauthorized: Please log in first")
  const NotAdmin := Send(401, "Unauthorized: Admin access only")

  /** The router's `authenticate`: it relies on the session middleware having
      put a session on every request. */
  function Authenticate(s: Session): (g: Gate)
    ensures g.Next? <==> TruthyId(s.patientId)
    ensures g.Deny? ==> g.response == NotLoggedIn
  {
    if !TruthyId(s.patientId) then Deny(NotLoggedIn) else Next
  }

  /** The standalone app's `isAuthenticated`: it also checks that a session exists. */
  function IsAuthenticated(s: Option<Session>): (g: Gate)
    ensures g.Next? <==> s.Some? && TruthyId(s.value.patientId)
    ensures g.Deny? ==> g.response == NotLoggedIn
  {
    if s.Some? && TruthyId(s.value.patientId) then Next else Deny(NotLoggedIn)
  }

  /** The router's `authenticateAdmin`. */
  function AuthenticateAdmin(s: Option<Session>): (g: Gate)
    ensures g.Next? <==> s.Some? && s.value.isAdmin
    ensures g.Deny? ==> g.response == NotAdmin
  {
    if s.Some? && s.value.isAdmin then Next else Deny(NotAdmin)
  }

  /** Whenever a session exists, the two surfaces' patient gates decide alike;
      without one, the app's gate refuses. */
  lemma GatesAgree(s: Session)
    ensures Authenticate(s) == IsAuthenticated(Some(s))
    ensures IsAuthenticated(None) == Deny(NotLoggedIn)
  {
  }

  /** The two applications that serve the account routes. Each runs its own
      session middleware with its own store and secret, so a session opened
      on one is unknown to the other. */
  datatype Surface = Router | App

  /** The patient gate in front of the account routes of each application. */
  function PatientGate(at: Surface, s: Session): (g: Gate)
    ensures g.Next? <==> TruthyId(s.patientId)
    ensures g.Deny? ==> g.response == NotLoggedIn
  {
    match at
    case Router => Authenticate(s)
    case App => IsAuthenticated(Some(s))
  }

  /** What a successful login writes into the request's session. */
  function LogIn(s: Session, id: nat, name: Option<string>): (t: Session)
    ensures t.patientId == Some(id) && t.patientName == name
    ensures t.isAdmin == s.isAdmin
  {
    s.(patientId := Some(id), patientName := name)
  }

  /** After a login with a generated (non-zero) id the patient gate opens,
      whatever the session held before. */
  lemma LogInOpensGate(s: Session, id: nat, name: Option<string>)
    requires id != 0
    ensures Authenticate(LogIn(s, id, name)) == Next
    ensures IsAuthenticated(Some(LogIn(s, id, name))) == Next
  {
  }

  /** A request whose session is gone (never created, or destroyed by logout)
      is refused by every gate. */
  lemma MissingSessionDenied(store: map<Token, Session>, sid: Token)
    requires sid !in store
    ensures Authenticate(SessionOf(store, sid)) == Deny(NotLoggedIn)
    ensures AuthenticateAdmin(Some(SessionOf(store, sid))) == Deny(NotAdmin)
  {
  }

  /** No session in the store is an admin session. */
  ghost predicate NoAdmins(store: map<Token, Session>) {
    forall sid :: sid in store ==> !store[sid].isAdmin
  }

  /** `after` holds no admin session that `before` did not already hold. */
  ghost predicate NoNewAdmins(before: map<Token, Session>, after: map<Token, Session>) {
    forall sid :: sid in after && after[sid].isAdmin ==> sid in before && before[sid].isAdmin
  }

  /** With no admin session in the store, the admin gate refuses every request. */
  lemma NoAdminsDenied(store: map<Token, Session>, sid: Token)
    requires NoAdmins(store)
    ensures AuthenticateAdmin(Some(SessionOf(store, sid))) == Deny(NotAdmin)
  {
  }
}
