/**
 * The user directory and the request handlers of the web application, as
 * reference definitions: each handler is a function from the state before the
 * request to the state after it and the response sent.
 *
 * External effects are parameters: `hash` stands for bcrypt.hash (and
 * bcrypt.compare is `hash(p) == stored`), `token` for the random hex string,
 * `now` for Date.now() in milliseconds, `mailSent` for the outcome of sending
 * the reset mail.
 */
module Directory {
  import opened Wrappers
  import opened UserModel

  /** The users table, the next auto-increment id, and the requesting client's session identity. */
  datatype State = State(users: map<Id, User>, nextId: Id, session: Option<Id>)

  /** An empty table and a fresh session. */
  const Empty: State := State(map[], 1, None)

  /** What a handler sends back. */
  datatype Response =
    | Redirect(location: string)
    | Reply(status: nat, body: string)
    /** the `reset-password` view rendered for a token */
    | ResetForm(token: string)
    /** the handler's promise rejects and no response is sent */
    | NoReply

  datatype Outcome = Outcome(state: State, response: Response)

  /** A reset token lives one hour, in milliseconds. */
  const TokenLifetime: int := 3600000

  const UnknownEmail := "No user found with this email"
  const ResetSent := "Password reset instructions have been sent to your email."
  const ResetRequestFailed := "Error processing password reset request"
  const InvalidToken := "Invalid or expired token"
  const PasswordChanged := "Password has been successfully reset!"
  const UserExists := "User already exists"
  const IncorrectPassword := "Incorrect password"
  const AccessDenied := "Access denied"
  const ResetFailed := "Error resetting password"

  // ---------------------------------------------------------------------------
  // Lookups (User.findOne)

  /** The two WHERE clauses the handlers query the table with. */
  datatype Query = ByEmail(email: string) | ByValidToken(token: string, now: int)

  /** `resetToken = token AND resetTokenExpiration > now`; a NULL column matches nothing. */
  predicate TokenValid(u: User, token: string, now: int)
    ensures u.resetToken.None? || u.resetTokenExpiration.None? ==> !TokenValid(u, token, now)
    ensures u.resetTokenExpiration == Some(now) ==> !TokenValid(u, token, now)
    ensures TokenValid(u, token, now) ==> u.resetToken == Some(token)
  {
    u.resetToken == Some(token) && u.resetTokenExpiration.Some? && u.resetTokenExpiration.value > now
  }

  predicate Matches(u: User, q: Query)
  {
    match q
    case ByEmail(email) => u.email == email
    case ByValidToken(token, now) => TokenValid(u, token, now)
  }

  ghost predicate AnyMatch(users: map<Id, User>, q: Query)
  {
    exists id :: id in users && Matches(users[id], q)
  }

  /** Every id in use is below the next auto-increment value. */
  ghost predicate IdsBelow(users: map<Id, User>, nextId: Id)
  {
    forall id :: id in users ==> id < nextId
  }

  /** The first row with an id in [lo, hi) that the query selects. */
  function FindFirst(users: map<Id, User>, q: Query, lo: Id, hi: Id): (r: Option<Id>)
    decreases hi - lo
    ensures r.Some? ==> lo <= r.value < hi && r.value in users && Matches(users[r.value], q)
    ensures r.Some? ==> forall id :: lo <= id < r.value && id in users ==> !Matches(users[id], q)
    ensures r.None? ==> forall id :: lo <= id < hi && id in users ==> !Matches(users[id], q)
  {
    if hi <= lo then None
    else if lo in users && Matches(users[lo], q) then Some(lo)
    else FindFirst(users, q, lo + 1, hi)
  }

  /**
   * User.findOne: one row the query selects, or nothing. Without ORDER BY the
   * database may return any selected row; the model takes the lowest id.
   */
  function FindOne(s: State, q: Query): (r: Option<Id>)
    ensures r.Some? ==> r.value in s.users && Matches(s.users[r.value], q)
    ensures r.Some? ==> forall id :: id in s.users && id < r.value ==> !Matches(s.users[id], q)
    ensures IdsBelow(s.users, s.nextId) ==> (r.None? <==> !AnyMatch(s.users, q))
  {
    FindFirst(s.users, q, 1, s.nextId)
  }

  // ---------------------------------------------------------------------------
  // Invariants the handlers keep

  /** The reset token and its expiry are set together and cleared together. */
  predicate TokenPaired(u: User)
  {
    u.resetToken.Some? == u.resetTokenExpiration.Some?
  }

  ghost predicate Inv(s: State)
  {
    && IdsBelow(s.users, s.nextId)
    && UniqueEmails(s.users)
    && (forall id :: id in s.users ==> TokenPaired(s.users[id]))
    && (s.session.Some? ==> s.session.value in s.users)
  }

  /** No row disappears, and no row's name, email or role changes. */
  ghost predicate RecordsKept(s: State, t: State)
  {
    forall id :: id in s.users ==>
      && id in t.users
      && t.users[id].name == s.users[id].name
      && t.users[id].email == s.users[id].email
      && t.users[id].role == s.users[id].role
  }

  /** No two rows hold the same reset token. */
  ghost predicate LiveTokensDistinct(users: map<Id, User>)
  {
    forall i, j :: i in users && j in users && i != j && users[i].resetToken.Some? ==>
      users[i].resetToken != users[j].resetToken
  }

  /** No row holds `token`. */
  ghost predicate TokenUnused(users: map<Id, User>, token: string)
  {
    forall id :: id in users ==> users[id].resetToken != Some(token)
  }

  // ---------------------------------------------------------------------------
  // POST /forgot-password

  /**
   * Looks the email up; stores `token` with expiry `now + TokenLifetime` on the
   * row before the mail is sent, so a failed send leaves the token in place.
   */
  function ForgotPassword(s: State, email: string, token: string, now: int, mailSent: bool): (o: Outcome)
    ensures Inv(s) ==> Inv(o.state)
    ensures RecordsKept(s, o.state) && o.state.nextId == s.nextId && o.state.session == s.session
    ensures !AnyMatch(s.users, ByEmail(email)) ==> o == Outcome(s, Reply(400, UnknownEmail))
    ensures AnyMatch(s.users, ByEmail(email)) && IdsBelow(s.users, s.nextId) ==>
      o.response == (if mailSent then Reply(200, ResetSent) else Reply(500, ResetRequestFailed))
    ensures forall id :: id in s.users && s.users[id].email != email ==> o.state.users[id] == s.users[id]
  {
    match FindOne(s, ByEmail(email))
    case None => Outcome(s, Reply(400, UnknownEmail))
    case Some(id) =>
      var user := s.users[id].(resetToken := Some(token), resetTokenExpiration := Some(now + TokenLifetime));
      var t := s.(users := s.users[id := user]);
      Outcome(t, if mailSent then Reply(200, ResetSent) else Reply(500, ResetRequestFailed))
  }

  // ---------------------------------------------------------------------------
  // GET /reset-password/:token

  /** Renders the reset form exactly when some row holds `token` unexpired at `now`. */
  function ValidateResetToken(s: State, token: string, now: int): (r: Response)
    ensures r == ResetForm(token) || r == Reply(400, InvalidToken)
    ensures r == ResetForm(token) ==> AnyMatch(s.users, ByValidToken(token, now))
    ensures IdsBelow(s.users, s.nextId) && AnyMatch(s.users, ByValidToken(token, now)) ==> r == ResetForm(token)
  {
    if FindOne(s, ByValidToken(token, now)).None? then Reply(400, InvalidToken) else ResetForm(token)
  }

  // ---------------------------------------------------------------------------
  // POST /reset-password/:token

  /**
   * Re-validates the token, then sets the password hash and clears the token
   * and its expiry in one save.
   */
  function ResetPassword(s: State, token: string, password: string, now: int, hash: string -> string): (o: Outcome)
    ensures Inv(s) ==> Inv(o.state)
    ensures RecordsKept(s, o.state) && o.state.nextId == s.nextId && o.state.session == s.session
    ensures o.response == Reply(200, PasswordChanged) || o == Outcome(s, Reply(400, InvalidToken))
    ensures !AnyMatch(s.users, ByValidToken(token, now)) ==> o == Outcome(s, Reply(400, InvalidToken))
    ensures forall id :: id in s.users && !TokenValid(s.users[id], token, now) ==> o.state.users[id] == s.users[id]
    ensures o.response == Reply(200, PasswordChanged) ==>
      exists id :: id in s.users && TokenValid(s.users[id], token, now) &&
        o.state.users == s.users[id := s.users[id].(password := hash(password),
                                                    resetToken := None,
                                                    resetTokenExpiration := None)]
  {
    match FindOne(s, ByValidToken(token, now))
    case None => Outcome(s, Reply(400, InvalidToken))
    case Some(id) =>
      var user := s.users[id].(password := hash(password), resetToken := None, resetTokenExpiration := None);
      Outcome(s.(users := s.users[id := user]), Reply(200, PasswordChanged))
  }

  // ---------------------------------------------------------------------------
  // The reset handlers as written

  /**
   * GET /reset-password/:token as the source has it. The WHERE clause reads
   * `Op.gt` from the Sequelize instance exported by db.js, but Sequelize
   * defines `Op` on the class only; reading `.gt` of undefined throws inside
   * the `try`, so every token gets the catch branch's 500.
   */
  function ValidateResetTokenAsWritten(s: State, token: string, now: int): (r: Response)
    ensures r == Reply(500, ResetRequestFailed)
  {
    Reply(500, ResetRequestFailed)
  }

  /**
   * POST /reset-password/:token as the source has it: the same throw before
   * any query, caught as 500 "Error resetting password", nothing saved.
   */
  function ResetPasswordAsWritten(s: State, token: string, password: string, now: int,
                                  hash: string -> string): (o: Outcome)
    ensures o.state == s
    ensures o.response == Reply(500, ResetFailed)
  {
    Outcome(s, Reply(500, ResetFailed))
  }

  // ---------------------------------------------------------------------------
  // POST /register

  /**
   * `role || 'patient'`: a missing or empty role field stands for patient; any
   * other string must be one of the ENUM's names.
   */
  function ResolveRole(role: Option<string>): (r: Option<Role>)
    ensures role == None || role == Some("") ==> r == Some(DefaultRole)
    ensures role.Some? && role.value != "" ==> (r.Some? ==> RoleName(r.value) == role.value)
    ensures role.Some? && role.value != "" ==> (r.None? <==> forall x: Role :: RoleName(x) != role.value)
  {
    match role
    case None => Some(DefaultRole)
    case Some(name) => if name == "" then Some(DefaultRole) else ParseRole(name)
  }

  /**
   * Refuses a taken email; otherwise inserts a row with the hashed password and
   * the resolved role and logs the new user in. A role the ENUM column refuses
   * makes the insert reject, and the handler, having no catch, never replies.
   */
  function Register(s: State, name: string, email: string, password: string, role: Option<string>,
                    hash: string -> string): (o: Outcome)
    ensures Inv(s) ==> Inv(o.state)
    ensures IdsBelow(s.users, s.nextId) ==> RecordsKept(s, o.state)
    ensures IdsBelow(s.users, s.nextId) && AnyMatch(s.users, ByEmail(email)) ==>
      o == Outcome(s, Reply(400, UserExists))
    ensures ResolveRole(role).None? ==> o.state == s && o.response != Redirect("/dashboard")
    ensures o.response == Redirect("/dashboard") || o.state == s
  {
    if FindOne(s, ByEmail(email)).Some? then
      Outcome(s, Reply(400, UserExists))
    else
      match ResolveRole(role)
      case None => Outcome(s, NoReply)
      case Some(r) =>
        var id := s.nextId;
        var t := State(s.users[id := NewUser(name, email, hash(password), r)], id + 1, Some(id));
        Outcome(t, Redirect("/dashboard"))
  }

  // ---------------------------------------------------------------------------
  // POST /login and GET /logout

  /** Where a logged-in user is sent: admin, then doctor, then everyone else to the patient page. */
  function DashboardFor(r: Role): (path: string)
    ensures path == "/admin-dashboard" <==> r == Admin
    ensures path == "/doctor-dashboard" <==> r == Doctor
    ensures path == "/patient-dashboard" <==> r == Patient
  {
    var admin, doctor, patient := "/admin-dashboard", "/doctor-dashboard", "/patient-dashboard";
    assert admin[1] == 'a' && doctor[1] == 'd' && patient[1] == 'p';
    match r
    case Admin => admin
    case Doctor => doctor
    case Patient => patient
  }

  /** Logs in the row with `email` when `hash(password)` equals its stored hash. */
  function Login(s: State, email: string, password: string, hash: string -> string): (o: Outcome)
    ensures Inv(s) ==> Inv(o.state)
    ensures o.state.users == s.users && o.state.nextId == s.nextId
    ensures !o.response.Redirect? ==> o.state == s
    ensures !AnyMatch(s.users, ByEmail(email)) ==> o == Outcome(s, Reply(400, UnknownEmail))
    ensures o.response.Redirect? ==>
      && o.state.session.Some?
      && var id := o.state.session.value;
         id in s.users && s.users[id].email == email && s.users[id].password == hash(password)
         && o.response.location == DashboardFor(s.users[id].role)
  {
    match FindOne(s, ByEmail(email))
    case None => Outcome(s, Reply(400, UnknownEmail))
    case Some(id) =>
      var user := s.users[id];
      if hash(password) != user.password then
        Outcome(s, Reply(400, IncorrectPassword))
      else
        Outcome(s.(session := Some(id)), Redirect(DashboardFor(user.role)))
  }

  /** session.destroy(): the session no longer names anyone. */
  function Logout(s: State): (o: Outcome)
    ensures Inv(s) ==> Inv(o.state)
    ensures o.state.session.None? && o.state.users == s.users && o.state.nextId == s.nextId
    ensures o.response == Redirect("/login")
  {
    Outcome(s.(session := None), Redirect("/login"))
  }

  // ---------------------------------------------------------------------------
  // isAuthenticated, hasRole and the role-gated routes

  /** JavaScript truthiness of a numeric id. */
  predicate Truthy(id: int)
  {
    id != 0
  }

  /**
   * isAuthenticated: `req.session.userId` is truthy. Ids start at 1, so this
   * is the same as the session carrying an id at all.
   */
  predicate IsAuthenticated(s: State)
    ensures IsAuthenticated(s) <==> s.session.Some?
  {
    s.session.Some? && Truthy(s.session.value)
  }

  /**
   * hasRole(role): the session's user, re-read from the table by primary key,
   * exists and has exactly `role`.
   */
  predicate HasRole(s: State, role: Role)
    ensures HasRole(s, role) ==> IsAuthenticated(s)
    ensures IsAuthenticated(s) && s.session.value !in s.users ==> !HasRole(s, role)
    ensures s.session.Some? && s.session.value in s.users ==>
      (HasRole(s, role) <==> s.users[s.session.value].role == role)
  {
    match s.session
    case None => false
    case Some(id) => id in s.users && s.users[id].role == role
  }

  /** The body each dashboard route sends. */
  function PageFor(r: Role): string
  {
    match r
    case Admin => "Admin dashboard"
    case Doctor => "Doctor dashboard"
    case Patient => "Patient dashboard"
  }

  /** GET /admin, /doctor or /patient: isAuthenticated, then hasRole(required), then the page. */
  function Gate(s: State, required: Role): (r: Response)
    ensures r == Redirect("/login") <==> !IsAuthenticated(s)
    ensures r == Reply(403, AccessDenied) <==> IsAuthenticated(s) && !HasRole(s, required)
    ensures r == Reply(200, PageFor(required)) <==> HasRole(s, required)
  {
    if !IsAuthenticated(s) then Redirect("/login")
    else if HasRole(s, required) then Reply(200, PageFor(required))
    else Reply(403, AccessDenied)
  }
}
