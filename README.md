# User directory, login and password reset of the pharmacy web application

This project models the authentication core of the pharmacy web application in Dafny. The core is
the `users` table (`models/userModel.js`) and the Express handlers in `app.js` that read and
change it: registration, login, logout, the forgot-password / reset-password flow, and the
`isAuthenticated` / `hasRole` guards in front of the role dashboards.

It has five modules:

- `Wrappers` (`wrappers.dfy`): `Option`.
- `UserModel` (`user_model.dfy`): the `User` row and the `Role` enumeration with its `patient` default.
  The NOT NULL columns `name`, `email` and `password` are plain strings. `NewUser` is the row
  `User.create` inserts, with both reset columns NULL. The two nullable reset
  columns are `Option`s. The UNIQUE email is the predicate `UniqueEmails`.
- `Directory` (`directory.dfy`): the reference definition of every handler. Each one is a function
  from a `State` (the table, the next auto-increment id, the client's `session.userId`) to an
  `Outcome` (the new state and the response). A response is a redirect, a status with the exact
  message of `app.js`, the rendered reset form, or `NoReply`. `NoReply` is the case where the
  handler's promise rejects and nothing is sent. `findOne` is `FindOne`. The guards are
  `IsAuthenticated`, `HasRole` and `Gate`. `PageFor` is the body each dashboard route sends. Each function's contract gives the error cases, what does
  not change, and that the table invariant `Inv` is kept. `Inv` says: ids are below the next id,
  emails are unique, the token and its expiry are both set or both NULL, and the session names an
  existing row.
- `Properties` (`properties.dfy`): lemmas about how the handlers combine. They cover token issue and
  overwrite, the strict expiry comparison, the token surviving a failed mail, single use,
  registration, login, and role gating.
- `Server` (`server.dfy`): the class `App`. Its fields are the table, the next id and the session,
  and it holds an injected `hash` function. Each handler is a method that fetches a row, assigns
  fields and saves, or sets or clears the session. Each method is proved to produce exactly the
  state and response that `Directory` defines. Three client methods replay whole request sequences:
  a role-gating scenario, a register / reset / re-login scenario, and an expiry scenario.

External effects are parameters:

- the random token of `crypto.randomBytes(20).toString('hex')` is `token`;
- `Date.now()` is `now`, in milliseconds;
- `bcrypt.hash(p, 10)` is the injected function `hash`, and `bcrypt.compare(p, h)` is `hash(p) == h`;
- the outcome of `transporter.sendMail` is `mailSent`.

`findOne` without `ORDER BY` may return any selected row. The model returns the lowest id. This
choice only matters if two rows hold the same reset token, and the single-use lemmas assume that
they do not.

The role is checked by the ENUM column. The model takes a role string other than `admin`,
`patient` or `doctor` to make `User.create` reject. The register handler has no `catch`, and the
model takes the rejected promise to leave the request without a response. It returns `NoReply`
and leaves the state unchanged. The assumptions behind this are listed under "Left out".

The two reset handlers read `Op.gt` from the Sequelize instance that `db.js` exports. Sequelize
puts `Op` on the class, not on instances, so as written both handlers throw before querying and
answer 500. The functions `ValidateResetTokenAsWritten` and `ResetPasswordAsWritten` model that.
The rest of the model, the `App` class included, uses the intended lookup (see "Findings").

## Model

| member | source | states |
|---|---|---|
| `UserModel.ParseRole` | models/userModel.js:27-28 | the ENUM column accepts a string exactly when it is the name of one of admin, patient, doctor, and yields that role |
| `UserModel.ParseRoleName` | models/userModel.js:27-30 | every role's stored name reads back as that role |
| `Directory.FindFirst` | app.js:96 | the result is the lowest id in the range whose row the query selects; no result means no row in the range is selected |
| `Directory.FindOne` | app.js:134-139 | a found row is selected by the query and no lower id is; when all ids are below the next id, nothing is found exactly when no row is selected |
| `Directory.ForgotPassword` | app.js:92-127 | an unknown email gets 400 "No user found with this email" and changes nothing; a known one gets 200, or 500 when the mail fails; rows with another email, the session and the next id are unchanged; `Inv` is kept |
| `Directory.ValidateResetToken` | app.js:130-150 | the form is rendered exactly when some row's token equals the given one and its expiry is strictly greater than `now`; otherwise 400 "Invalid or expired token" |
| `Directory.TokenValid` | app.js:134-139 | a row is selected only if its token equals the given one; a NULL token or expiry selects nothing; an expiry equal to `now` selects nothing (the comparison is strict) |
| `Directory.ResetPassword` | app.js:153-181 | either 200 "Password has been successfully reset!" or 400 with nothing changed; a token no row holds unexpired is refused; rows not holding the token unexpired are unchanged; a 200 means some row held the token unexpired and exactly that row now has `hash(password)` and no token or expiry; `Inv` is kept |
| `Directory.ValidateResetTokenAsWritten` | app.js:130-150 | as written, no token opens the form: every request gets 500 "Error processing password reset request" |
| `Directory.ResetPasswordAsWritten` | app.js:153-181 | as written, no reset succeeds: every request gets 500 "Error resetting password" and nothing changes |
| `Directory.ResolveRole` | app.js:200 | a missing or empty role field becomes patient; any other string is accepted exactly when it names an ENUM role |
| `Directory.Register` | app.js:183-205 | a taken email gets 400 "User already exists" and changes nothing; an unlisted role changes nothing; any response other than the redirect to /dashboard leaves the state unchanged; existing rows keep name, email and role; `Inv` is kept |
| `Directory.DashboardFor` | app.js:226-232 | admin goes to /admin-dashboard, doctor to /doctor-dashboard, patient to /patient-dashboard, and each target belongs to exactly that role |
| `Directory.Login` | app.js:207-233 | an unknown email gets 400 and changes nothing; every failure leaves the state unchanged; a success sets the session to a row with that email and matching hash and redirects to that row's dashboard; the table is never changed |
| `Directory.Logout` | app.js:237-240 | the session no longer names a user, the table is unchanged, and the reply redirects to /login |
| `Directory.IsAuthenticated` | app.js:46-51 | the truthiness test on `session.userId` passes exactly when the session carries an id, since ids start at 1 |
| `Directory.HasRole` | app.js:54-64 | passes only for an authenticated session; fails when the session's user is missing; otherwise passes exactly when the user's role equals the required one |
| `Directory.Gate` | app.js:46-64 | no session redirects to /login; a session whose user is missing or has another role gets 403 "Access denied"; the page is served exactly when the session's user exists with the required role |
| `Properties.FindByEmailIs` | models/userModel.js:10-14 | because emails are unique, the lookup by email finds the one row holding it |
| `Properties.ForgotIssuesToken` | app.js:101-106 | a known email's row gets the given token and expiry `now + 3600000`, overwriting any earlier token; nothing else changes |
| `Properties.FailedMailKeepsToken` | app.js:106-125 | a failed mail gets 500, leaves the same state as a successful one, and the token still opens the form before it expires |
| `Properties.IssuedTokenValidUntilExpiry` | app.js:102 | a newly issued unused token selects its row at every time before `now + 3600000` and no row from that instant on |
| `Properties.ReissueRevokesEarlierToken` | app.js:104-106 | a second request replaces the row's token, so the earlier token no longer validates for that row |
| `Properties.FormAndSubmitAgree` | app.js:134-167 | the GET form and the POST submission accept the same tokens at the same time |
| `Properties.ResetStoresNewPassword` | app.js:169-174 | a successful reset stores `hash(newPassword)` and clears token and expiry together on the row that held the token, and changes nothing else |
| `Properties.ResetTokenSingleUse` | app.js:158-174 | after a successful reset the token validates for no row at any time, and a second submission is refused with nothing changed |
| `Properties.FreshTokenRefusedAsWritten` | app.js:134-174 | right after a token is issued, the intended handlers open the form and accept a new password, while the handlers as written answer 500, keep the state, and the old password still logs in |
| `Properties.ForgotKeepsTokensDistinct` | app.js:101-106 | issuing a token that no row holds keeps all live tokens distinct |
| `Properties.ResetKeepsTokensDistinct` | app.js:169-174 | a reset keeps all live tokens distinct |
| `Properties.RegisterAddsOneUser` | app.js:192-203 | a new email adds exactly one row under the next id, with the password's hash, the resolved role and no token; the session names the new row; the reply redirects to /dashboard |
| `Properties.RegisterTwiceRefused` | app.js:186-190 | registering the same email a second time gets 400 "User already exists" and changes nothing |
| `Properties.LoginSucceedsIff` | app.js:210-223 | login succeeds exactly when a row has the email and the hash of the password; the session then names that row; a wrong password gets 400 "Incorrect password" with nothing changed |
| `Properties.LogoutLocksRoutes` | app.js:237-240 | after logout every role route redirects to /login |
| `Properties.LoginOpensOwnRouteOnly` | app.js:245-257 | after a login, only the route for the user's own role serves its page; the other two answer 403 |
| `Server.App.constructor` | models/userModel.js:5-34 | the application starts with an empty users table, first id 1 and no session, and the invariant holds |
| `Server.App.ForgotPassword` | app.js:92-127 | stores the token and expiry on the fetched row and saves, with exactly the state and response of `Directory.ForgotPassword`; keeps `Inv` |
| `Server.App.ShowResetForm` | app.js:130-150 | changes nothing; renders the form exactly when a row holds the token unexpired |
| `Server.App.ResetPassword` | app.js:153-181 | assigns the new hash, clears both token fields and saves, with exactly the state and response of `Directory.ResetPassword`; keeps `Inv` |
| `Server.App.Register` | app.js:183-205 | inserts the row and sets the session, with exactly the state and response of `Directory.Register`; keeps `Inv` |
| `Server.App.Login` | app.js:207-233 | sets the session and picks the redirect by role, with exactly the state and response of `Directory.Login`; keeps `Inv` |
| `Server.App.Logout` | app.js:237-240 | clears the session identity and redirects to /login; keeps `Inv` |
| `Server.App.Visit` | app.js:245-257 | changes nothing; serves the page exactly when the session's user exists with the required role |
| `Server.App.FindById` | app.js:56 | the row with that primary key, or nothing when there is none |
| `Server.RoleScenario` | app.js:207-257 | a registered patient logs in to /patient-dashboard; /admin answers 403 and /patient serves its page; after logout the logout reply, /patient and /admin all redirect to /login |
| `Server.PasswordResetScenario` | app.js:92-233 | register, reset mail, form, reset, old password refused with "Incorrect password", new password accepted, second use of the token refused |
| `Server.ExpiryScenario` | app.js:92-181 | after a failed mail the token still opens the form 1 ms before expiry; at the expiry the form and the submission both refuse it, and the old password still logs in |

## Findings

| source | as written | input that shows it | evidently intended | confidence | as-written member | corrected member |
|---|---|---|---|---|---|---|
| app.js:134-139 | `sequelize.Op.gt` reads `Op` from the instance exported by db.js:5; Sequelize defines `Op` on the class, so `.gt` of undefined throws and the catch answers 500 for every token | any token, including one just issued (`Properties.FreshTokenRefusedAsWritten`) | the form is rendered when some row's token equals the given one and its expiry is after now (`Sequelize.Op.gt`) | medium, not executed; rests on Sequelize keeping `Op` off its instances | `Directory.ValidateResetTokenAsWritten` | `Directory.ValidateResetToken` |
| app.js:158-163 | the same `sequelize.Op.gt` throws before the query; the catch answers 500 "Error resetting password" and no password is ever changed | any token and password, including a just-issued token (`Properties.FreshTokenRefusedAsWritten`) | a valid unexpired token sets the new hash and clears the token fields | medium, not executed; rests on Sequelize keeping `Op` off its instances | `Directory.ResetPasswordAsWritten` | `Directory.ResetPassword` |

## Left out

- Directory.ValidateResetToken models the intended token lookup. As written, the GET handler answers 500 for every token (see "Findings" and `Directory.ValidateResetTokenAsWritten`).
- Server.App.ShowResetForm models the intended token lookup, like `Directory.ValidateResetToken`. As written, the GET handler answers 500 for every token.
- Directory.ResetPassword models the intended reset. As written, the POST handler answers 500 "Error resetting password" and changes nothing (see "Findings" and `Directory.ResetPasswordAsWritten`).
- Server.App.ResetPassword models the intended reset, like `Directory.ResetPassword`. As written, the POST handler answers 500 and changes nothing.
- Properties.FailedMailKeepsToken: "the token still opens the form" holds for the intended lookup. As written, the form handler answers 500 (see "Findings").
- Server.PasswordResetScenario replays the intended reset handlers. As written, its 3rd, 4th and 7th responses are 500s. The password never changes, so its 5th response (login with the old password) redirects to /patient-dashboard and its 6th (login with the new one) gets 400 "Incorrect password" (`Properties.FreshTokenRefusedAsWritten`).
- Server.ExpiryScenario replays the intended reset handlers. As written, its 3rd to 5th responses are 500s.
- Directory.ResolveRole assumes MySQL strict SQL mode. In that mode an unlisted role makes the insert fail. In non-strict mode MySQL stores `''` for an invalid ENUM value instead, which the model does not capture.
- Directory.Register returns `NoReply` for an unlisted role. That assumes Express 4 on a Node version that keeps running after an unhandled rejection. Node 15 and later terminate the process, and all in-memory sessions are lost. Express 5 answers 500.

- Infrastructure failures are not modelled: an unreachable database, a failed `save()`, and a bcrypt failure. In the source these give 500 in the reset handlers and an unhandled rejection in register and login.
- Request bodies with a missing `name`, `email` or `password` (JavaScript `undefined`) are not modelled. Every field except `role` is a present string.
- Array and object body fields are not modelled. `express.urlencoded({ extended: true })` turns `email[]=a&email[]=b` into an array, and `where: { email }` then becomes an IN query at app.js:96, 187 and 211.
- String comparison in the `WHERE` clauses and the UNIQUE index is exact equality. MySQL's default collation compares case- and trailing-space-insensitively, and that is not modelled.
- UserModel.ParseRole accepts exactly the three lower-case names, and so does `Directory.ResolveRole`. Under MySQL's default collation the ENUM column also accepts `Admin` or `admin ` as admin, and that is not modelled.
- Timestamps are integers in milliseconds. The precision and time zone of the DATETIME column are not modelled.
- The token's format (20 random bytes as 40 hex digits), its entropy and its unpredictability are not modelled. It is an opaque string parameter.
- `hash` is deterministic. Bcrypt's per-call random salt is not modelled. The claim that a stored hash never equals the plaintext cannot be stated about an abstract hash.
- The mail's recipient, link and HTML body, and the nodemailer transport, are not modelled. Only whether the send succeeded is kept.
- Concurrency is not modelled: the race between the duplicate-email check and the insert, and two resets of the same token at once. The model runs one request at a time.
- Only one client's session is modelled. `session.destroy()` is modelled as clearing that session's identity. Session storage, cookies and fixation are outside the model.
- A rejected `findByPk` inside `hasRole` is not modelled. The source has no `catch` there. Under Express 4 on an older Node the request would hang. Node 15 and later would terminate the process.
- Static files, body parsing, session configuration, Handlebars views, the `/`, `/welcome` and GET form pages, `sequelize.sync`, `app.listen` and the database connection in `db.js` are not modelled.
- `Properties.ResetTokenSingleUse` and `Properties.ResetStoresNewPassword` require that no two rows hold the same token. The source does not check this. It relies on the randomness of the token.
- `Properties.IssuedTokenValidUntilExpiry` requires that no row already holds the new token, for the same reason.
