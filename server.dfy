/**
 * The route handlers as they run: each fetches rows, assigns fields and saves,
 * or sets and destroys the session's user id. Every handler is proved to
 * leave the state and send the response that `Directory` defines for it.
 */
module Server {
  import opened Wrappers
  import opened UserModel
  import opened Directory

  class App {
    /** The users table, keyed by id. */
    var users: map<Id, User>
    /** The table's next auto-increment value. */
    var nextId: Id
    /** `req.session.userId` of the requesting client. */
    var session: Option<Id>
    /** bcrypt.hash with its fixed cost factor; bcrypt.compare(p, h) is `hash(p) == h`. */
    const hash: string -> string

    function Snapshot(): State
      reads this
    {
      State(users, nextId, session)
    }

    ghost predicate Valid()
      reads this
    {
      Inv(Snapshot())
    }

    constructor (hash: string -> string)
      ensures Valid() && Snapshot() == Empty && this.hash == hash
    {
      users, nextId, session := map[], 1, None;
      this.hash := hash;
    }

    /** POST /forgot-password */
    method ForgotPassword(email: string, token: string, now: int, mailSent: bool) returns (resp: Response)
      requires Valid()
      modifies this
      ensures Valid()
      ensures Outcome(Snapshot(), resp) == Directory.ForgotPassword(old(Snapshot()), email, token, now, mailSent)
    {
      var found := FindOne(Snapshot(), ByEmail(email));
      if found.None? {
        return Reply(400, UnknownEmail);
      }
      var id := found.value;
      var user := users[id];
      user := user.(resetToken := Some(token));
      user := user.(resetTokenExpiration := Some(now + TokenLifetime));
      users := users[id := user];
      if mailSent {
        resp := Reply(200, ResetSent);
      } else {
        resp := Reply(500, ResetRequestFailed);
      }
    }

    /** GET /reset-password/:token */
    method ShowResetForm(token: string, now: int) returns (resp: Response)
      ensures resp == ValidateResetToken(Snapshot(), token, now)
      ensures Valid() ==> (resp == ResetForm(token) <==> AnyMatch(users, ByValidToken(token, now)))
    {
      var found := FindOne(Snapshot(), ByValidToken(token, now));
      if found.None? {
        return Reply(400, InvalidToken);
      }
      resp := ResetForm(token);
    }

    /** POST /reset-password/:token */
    method ResetPassword(token: string, password: string, now: int) returns (resp: Response)
      requires Valid()
      modifies this
      ensures Valid()
      ensures Outcome(Snapshot(), resp) == Directory.ResetPassword(old(Snapshot()), token, password, now, hash)
    {
      var found := FindOne(Snapshot(), ByValidToken(token, now));
      if found.None? {
        return Reply(400, InvalidToken);
      }
      var id := found.value;
      var user := users[id];
      var hashed := hash(password);
      user := user.(password := hashed);
      user := user.(resetToken := None);
      user := user.(resetTokenExpiration := None);
      users := users[id := user];
      resp := Reply(200, PasswordChanged);
    }

    /** POST /register */
    method Register(name: string, email: string, password: string, role: Option<string>) returns (resp: Response)
      requires Valid()
      modifies this
      ensures Valid()
      ensures Outcome(Snapshot(), resp) == Directory.Register(old(Snapshot()), name, email, password, role, hash)
    {
      var existing := FindOne(Snapshot(), ByEmail(email));
      if existing.Some? {
        return Reply(400, UserExists);
      }
      var hashed := hash(password);
      var resolved := ResolveRole(role);
      if resolved.None? {
        return NoReply;
      }
      var id := nextId;
      users := users[id := NewUser(name, email, hashed, resolved.value)];
      nextId := nextId + 1;
      session := Some(id);
      resp := Redirect("/dashboard");
    }

    /** POST /login */
    method Login(email: string, password: string) returns (resp: Response)
      requires Valid()
      modifies this
      ensures Valid()
      ensures Outcome(Snapshot(), resp) == Directory.Login(old(Snapshot()), email, password, hash)
    {
      var found := FindOne(Snapshot(), ByEmail(email));
      if found.None? {
        return Reply(400, UnknownEmail);
      }
      var user := users[found.value];
      if hash(password) != user.password {
        return Reply(400, IncorrectPassword);
      }
      session := Some(found.value);
      if user.role == Admin {
        resp := Redirect("/admin-dashboard");
      } else if user.role == Doctor {
        resp := Redirect("/doctor-dashboard");
      } else {
        resp := Redirect("/patient-dashboard");
      }
    }

    /** GET /logout */
    method Logout() returns (resp: Response)
      requires Valid()
      modifies this
      ensures Valid()
      ensures Outcome(Snapshot(), resp) == Directory.Logout(old(Snapshot()))
    {
      session := None;
      resp := Redirect("/login");
    }

    /** GET /admin, /doctor, /patient: the two guards, then the page. */
    method Visit(required: Role) returns (resp: Response)
      ensures resp == Gate(Snapshot(), required)
      ensures resp == Reply(200, PageFor(required)) <==>
                session.Some? && session.value in users && users[session.value].role == required
    {
      if session.None? {
        return Redirect("/login");
      }
      var user := FindById(session.value);
      if user.Some? && user.value.role == required {
        resp := Reply(200, PageFor(required));
      } else {
        resp := Reply(403, AccessDenied);
      }
    }

    /** User.findByPk */
    method FindById(id: Id) returns (user: Option<User>)
      ensures user.Some? <==> id in users
      ensures user.Some? ==> user.value == users[id]
    {
      if id in users {
        user := Some(users[id]);
      } else {
        user := None;
      }
    }
  }

  /**
   * Register and log in as a patient: /admin is refused, /patient is served,
   * and after logging out the logout reply, /patient and /admin all redirect
   * to the login page.
   */
  method RoleScenario(hash: string -> string, name: string, email: string, password: string)
    returns (rs: seq<Response>)
    ensures rs == [
      Redirect("/dashboard"),
      Redirect("/patient-dashboard"),
      Reply(403, AccessDenied),
      Reply(200, "Patient dashboard"),
      Redirect("/login"),
      Redirect("/login"),
      Redirect("/login")]
  {
    var app := new App(hash);
    var r1 := app.Register(name, email, password, None);
    assert app.users == map[1 := NewUser(name, email, hash(password), Patient)];
    var r2 := app.Login(email, password);
    assert app.session == Some(1);
    var r3 := app.Visit(Admin);
    var r4 := app.Visit(Patient);
    var r5 := app.Logout();
    var r6 := app.Visit(Patient);
    var r7 := app.Visit(Admin);
    rs := [r1, r2, r3, r4, r5, r6, r7];
  }

  /**
   * Ask for a reset, open the form, reset, then log in with the old password
   * (refused) and the new one (accepted), and submit the token once more
   * (refused).
   */
  method PasswordResetScenario(hash: string -> string, name: string, email: string, p1: string, p2: string,
                               token: string, now: int)
    returns (rs: seq<Response>)
    requires hash(p1) != hash(p2)
    ensures rs == [
      Redirect("/dashboard"),
      Reply(200, ResetSent),
      ResetForm(token),
      Reply(200, PasswordChanged),
      Reply(400, IncorrectPassword),
      Redirect("/patient-dashboard"),
      Reply(400, InvalidToken)]
  {
    var app := new App(hash);
    var r1 := app.Register(name, email, p1, None);
    assert app.users == map[1 := NewUser(name, email, hash(p1), Patient)];
    var r2 := app.ForgotPassword(email, token, now, true);
    assert app.users[1].resetToken == Some(token);
    var r3 := app.ShowResetForm(token, now + 1);
    var r4 := app.ResetPassword(token, p2, now + 2);
    assert app.users == map[1 := NewUser(name, email, hash(p2), Patient)];
    var r5 := app.Login(email, p1);
    var r6 := app.Login(email, p2);
    var r7 := app.ResetPassword(token, p1, now + 3);
    rs := [r1, r2, r3, r4, r5, r6, r7];
  }

  /**
   * A token whose mail failed to send still works; it opens the form one
   * millisecond before its expiry, and from the expiry on both the form and
   * the submission refuse it and the old password stays in force.
   */
  method ExpiryScenario(hash: string -> string, name: string, email: string, p1: string, p2: string,
                        token: string, now: int)
    returns (rs: seq<Response>)
    requires hash(p1) != hash(p2)
    ensures rs == [
      Redirect("/dashboard"),
      Reply(500, ResetRequestFailed),
      ResetForm(token),
      Reply(400, InvalidToken),
      Reply(400, InvalidToken),
      Redirect("/patient-dashboard")]
  {
    var app := new App(hash);
    var r1 := app.Register(name, email, p1, Some(""));
    var r2 := app.ForgotPassword(email, token, now, false);
    var r3 := app.ShowResetForm(token, now + TokenLifetime - 1);
    var r4 := app.ShowResetForm(token, now + TokenLifetime);
    var r5 := app.ResetPassword(token, p2, now + TokenLifetime);
    var r6 := app.Login(email, p1);
    rs := [r1, r2, r3, r4, r5, r6];
  }
}
