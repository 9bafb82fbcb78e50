/**
 * What the handlers promise when several of them, or several requests, are
 * taken together: token issue, expiry, single use, registration and login.
 */
module Properties {
  import opened Wrappers
  import opened UserModel
  import opened Directory

  /** Under the email's uniqueness, the lookup by email finds exactly the row holding it. */
  lemma FindByEmailIs(s: State, email: string, id: Id)
    requires Inv(s) && id in s.users && s.users[id].email == email
    ensures FindOne(s, ByEmail(email)) == Some(id)
  {
  }

  /**
   * A reset request for a registered email stores the given token and an
   * expiry one hour after `now` on that row, replacing whatever it held, and
   * touches nothing else; the reply depends only on whether the mail went out.
   */
  lemma ForgotIssuesToken(s: State, email: string, id: Id, token: string, now: int, mailSent: bool)
    requires Inv(s) && id in s.users && s.users[id].email == email
    ensures var o := ForgotPassword(s, email, token, now, mailSent);
      && o.state == s.(users := s.users[id := s.users[id].(resetToken := Some(token),
                                                          resetTokenExpiration := Some(now + TokenLifetime))])
      && o.response == (if mailSent then Reply(200, ResetSent) else Reply(500, ResetRequestFailed))
  {
  }

  /**
   * The token is saved before the mail is sent: a failed send reports an
   * error but leaves the same state as a successful one, and the token
   * validates for the rest of its hour.
   */
  lemma FailedMailKeepsToken(s: State, email: string, id: Id, token: string, now: int, later: int)
    requires Inv(s) && id in s.users && s.users[id].email == email
    requires later < now + TokenLifetime
    ensures var o := ForgotPassword(s, email, token, now, false);
      && o.response == Reply(500, ResetRequestFailed)
      && o.state == ForgotPassword(s, email, token, now, true).state
      && ValidateResetToken(o.state, token, later) == ResetForm(token)
  {
  }

  /**
   * A freshly issued token selects its row strictly before the expiry and
   * nothing from the expiry on: at exactly `now + TokenLifetime` it is refused.
   */
  lemma IssuedTokenValidUntilExpiry(s: State, email: string, id: Id, token: string, now: int, mailSent: bool, later: int)
    requires Inv(s) && id in s.users && s.users[id].email == email
    requires TokenUnused(s.users, token)
    ensures var t := ForgotPassword(s, email, token, now, mailSent).state;
      FindOne(t, ByValidToken(token, later)) == if later < now + TokenLifetime then Some(id) else None
  {
  }

  /** A second request overwrites the first token: the row keeps one live token only. */
  lemma ReissueRevokesEarlierToken(s: State, email: string, id: Id, first: string, second: string,
                                   now: int, mailSent: bool, later: int)
    requires Inv(s) && id in s.users && s.users[id].email == email
    requires first != second
    ensures var t := ForgotPassword(s, email, second, now, mailSent).state;
      !TokenValid(t.users[id], first, later) && t.users[id].resetToken == Some(second)
  {
  }

  /** The form (GET) and the submission (POST) accept the same tokens at the same time. */
  lemma FormAndSubmitAgree(s: State, token: string, password: string, now: int, hash: string -> string)
    requires Inv(s)
    ensures ValidateResetToken(s, token, now) == ResetForm(token)
        <==> ResetPassword(s, token, password, now, hash).response == Reply(200, PasswordChanged)
  {
  }

  /**
   * Submitting a valid token stores the hash of the new password and clears
   * the token and its expiry together on the row that held it, and only there.
   */
  lemma ResetStoresNewPassword(s: State, id: Id, token: string, password: string, now: int, hash: string -> string)
    requires Inv(s) && LiveTokensDistinct(s.users)
    requires id in s.users && TokenValid(s.users[id], token, now)
    ensures ResetPassword(s, token, password, now, hash)
         == Outcome(s.(users := s.users[id := s.users[id].(password := hash(password),
                                                           resetToken := None,
                                                           resetTokenExpiration := None)]),
                    Reply(200, PasswordChanged))
  {
  }

  /**
   * A token is single use: once a reset with it succeeds, it validates for
   * no row at any later time, and a second submission is refused unchanged.
   */
  lemma ResetTokenSingleUse(s: State, token: string, password: string, now: int, hash: string -> string,
                            later: int, again: string)
    requires Inv(s) && LiveTokensDistinct(s.users)
    requires ResetPassword(s, token, password, now, hash).response == Reply(200, PasswordChanged)
    ensures var t := ResetPassword(s, token, password, now, hash).state;
      && !AnyMatch(t.users, ByValidToken(token, later))
      && ValidateResetToken(t, token, later) == Reply(400, InvalidToken)
      && ResetPassword(t, token, again, later, hash) == Outcome(t, Reply(400, InvalidToken))
  {
  }

  /**
   * The reset handlers as written never take effect: right after a token is
   * issued, the intended lookup opens the form and accepts the new password,
   * while the handlers as written answer 500, save nothing, and the old
   * password still logs in.
   */
  lemma FreshTokenRefusedAsWritten(s: State, email: string, id: Id, token: string, now: int, mailSent: bool,
                                   oldPassword: string, newPassword: string, hash: string -> string)
    requires Inv(s) && id in s.users && s.users[id].email == email && s.users[id].password == hash(oldPassword)
    ensures var t := ForgotPassword(s, email, token, now, mailSent).state;
      && ValidateResetToken(t, token, now) == ResetForm(token)
      && ResetPassword(t, token, newPassword, now, hash).response == Reply(200, PasswordChanged)
      && ValidateResetTokenAsWritten(t, token, now) == Reply(500, ResetRequestFailed)
      && ResetPasswordAsWritten(t, token, newPassword, now, hash) == Outcome(t, Reply(500, ResetFailed))
      && Login(t, email, oldPassword, hash).response == Redirect(DashboardFor(s.users[id].role))
  {
  }

  /** Issuing a token no row holds keeps live tokens distinct. */
  lemma ForgotKeepsTokensDistinct(s: State, email: string, token: string, now: int, mailSent: bool)
    requires Inv(s) && LiveTokensDistinct(s.users) && TokenUnused(s.users, token)
    ensures LiveTokensDistinct(ForgotPassword(s, email, token, now, mailSent).state.users)
  {
  }

  /** Consuming a token keeps live tokens distinct. */
  lemma ResetKeepsTokensDistinct(s: State, token: string, password: string, now: int, hash: string -> string)
    requires Inv(s) && LiveTokensDistinct(s.users)
    ensures LiveTokensDistinct(ResetPassword(s, token, password, now, hash).state.users)
  {
  }

  /**
   * Registering a new email inserts exactly one row, under the next id, with
   * the password's hash, the resolved role and no reset token, and logs it in.
   */
  lemma RegisterAddsOneUser(s: State, name: string, email: string, password: string, role: Option<string>,
                            hash: string -> string)
    requires Inv(s) && !AnyMatch(s.users, ByEmail(email)) && ResolveRole(role).Some?
    ensures var o := Register(s, name, email, password, role, hash);
      && s.nextId !in s.users
      && o.state.users == s.users[s.nextId := User(name, email, hash(password), ResolveRole(role).value, None, None)]
      && |o.state.users| == |s.users| + 1
      && o.state.session == Some(s.nextId)
      && o.response == Redirect("/dashboard")
      && (LiveTokensDistinct(s.users) ==> LiveTokensDistinct(o.state.users))
  {
  }

  /** A second registration with a registered email is refused and changes nothing. */
  lemma RegisterTwiceRefused(s: State, name: string, email: string, password: string, role: Option<string>,
                             name2: string, password2: string, role2: Option<string>, hash: string -> string)
    requires Inv(s) && !AnyMatch(s.users, ByEmail(email)) && ResolveRole(role).Some?
    ensures var t := Register(s, name, email, password, role, hash).state;
      Register(t, name2, email, password2, role2, hash) == Outcome(t, Reply(400, UserExists))
  {
  }

  /**
   * Login succeeds exactly when a row has the email and the hash of the given
   * password; then the session names that row and the redirect follows its role.
   * A registered email with a different hash gets "Incorrect password".
   */
  lemma LoginSucceedsIff(s: State, email: string, password: string, hash: string -> string)
    requires Inv(s)
    ensures var o := Login(s, email, password, hash);
      && (o.response.Redirect? <==>
            exists id :: id in s.users && s.users[id].email == email && s.users[id].password == hash(password))
      && (forall id :: id in s.users && s.users[id].email == email ==>
            if s.users[id].password == hash(password)
            then o == Outcome(s.(session := Some(id)), Redirect(DashboardFor(s.users[id].role)))
            else o == Outcome(s, Reply(400, IncorrectPassword)))
  {
  }

  /** After logout every gated route redirects to the login page. */
  lemma LogoutLocksRoutes(s: State, required: Role)
    ensures Gate(Logout(s).state, required) == Redirect("/login")
  {
  }

  /**
   * After a successful login exactly one dashboard route admits the session:
   * the one for the user's own role; the others answer 403.
   */
  lemma LoginOpensOwnRouteOnly(s: State, email: string, password: string, hash: string -> string, required: Role)
    requires Inv(s)
    requires Login(s, email, password, hash).response.Redirect?
    ensures var t := Login(s, email, password, hash).state;
      Gate(t, required) == if required == t.users[t.session.value].role
                           then Reply(200, PageFor(required))
                           else Reply(403, AccessDenied)
  {
  }
}
