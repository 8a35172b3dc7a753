/**
 * `POST /api/auth/login` (app/api/auth/login/route.ts): looks the email up
 * in `administrators`, then in `users`, checks the password against the
 * stored hash and, when it matches, issues a session for the row.
 *
 * `verify` stands for `verifyPassword` (a bcrypt comparison that answers
 * `false` when it throws).
 */
module LoginRoute {
  import opened Wrappers
  import opened SeqUtil
  import opened JsText
  import opened JsValue
  import opened AuthDb

  /** The JSON body's two fields, as whatever JSON values they hold (`undefined` when missing). */
  datatype Credentials = Credentials(email: Json, password: Json)

  const MissingFields: string := "Email and password are required"
  const InvalidCredentials: string := "Invalid credentials"

  /** The one answer for an unknown email and for a wrong password alike. */
  const Rejected: Response := Response(401, ErrorBody(InvalidCredentials))

  /** The row the lookups settle on, with the value `userRole` holds by then. */
  datatype Match = Match(row: Row, role: string)

  /** The users query selects no role column. */
  function Unroled(row: Row): (r: Row)
    ensures r.role.None?
  {
    row.(role := None)
  }

  /** The administrators query, and the users query only when that one found nothing. */
  function Candidate(admins: seq<Row>, users: seq<Row>, email: string, adminFails: bool, userFails: bool): Option<Match> {
    var fromAdmins := ByEmail(admins, email, adminFails);
    if fromAdmins != [] then Some(Match(fromAdmins[0], "admin"))
    else
      var fromUsers := ByEmail(users, email, userFails);
      if fromUsers != [] then Some(Match(Unroled(fromUsers[0]), "user")) else None
  }

  /**
   * `verifyPassword(password, hash)`: bcryptjs rejects a password that is
   * not a string, and `verifyPassword` catches the rejection as `false`.
   */
  predicate PasswordMatches(verify: (string, string) -> bool, password: Json, hash: string) {
    password.JString? && verify(password.s, hash)
  }

  /** What the handler answers, and the session it creates if any. */
  datatype Outcome = Outcome(response: Response, session: Option<Claims>)

  function LoginOutcome(connected: bool, admins: seq<Row>, users: seq<Row>, body: Option<Credentials>,
                        verify: (string, string) -> bool, adminFails: bool, userFails: bool): Outcome
  {
    if !connected then Outcome(Response(500, ErrorBody(NotConnected)), None)
    else if body.None? then Outcome(Response(500, ErrorBody(InternalError)), None)
    else if !Truthy(body.value.email) || !Truthy(body.value.password) then Outcome(Response(400, ErrorBody(MissingFields)), None)
    else match Candidate(admins, users, ParamText(body.value.email).value, adminFails, userFails)
      case None => Outcome(Rejected, None)
      case Some(m) =>
        if !PasswordMatches(verify, body.value.password, m.row.passwordHash) then Outcome(Rejected, None)
        else
          var role := RoleOr(m.row, m.role);
          Outcome(Response(200, UserBody(Profile(m.row.id, m.row.email, m.row.firstName, m.row.lastName, Some(role)))),
                  Some(Claims(m.row.id, m.row.email, role)))
  }

  /** The handler, step by step; a created session is appended to `db.sessions`. */
  method Login(db: Backend, body: Option<Credentials>, verify: (string, string) -> bool, adminFails: bool, userFails: bool)
    returns (response: Response)
    modifies db`sessions
    ensures var o := LoginOutcome(db.connected, db.administrators, db.users, body, verify, adminFails, userFails);
      && response == o.response
      && db.sessions == old(db.sessions) + (if o.session.Some? then [o.session.value] else [])
  {
    if !db.connected {
      return Response(500, ErrorBody(NotConnected));
    }
    if body.None? {
      return Response(500, ErrorBody(InternalError));
    }
    var email, password := body.value.email, body.value.password;
    if !Truthy(email) || !Truthy(password) {
      return Response(400, ErrorBody(MissingFields));
    }
    var emailText := ParamText(email).value;
    var user := ByEmail(db.administrators, emailText, adminFails);
    var userRole := "admin";
    if |user| == 0 {
      user := Map(Unroled, ByEmail(db.users, emailText, userFails));
      userRole := "user";
    }
    if |user| == 0 {
      return Rejected;
    }
    var userData := user[0];
    var isValidPassword := PasswordMatches(verify, password, userData.passwordHash);
    if !isValidPassword {
      return Rejected;
    }
    var finalRole := RoleOr(userData, userRole);
    db.sessions := db.sessions + [Claims(userData.id, userData.email, finalRole)];
    response := Response(200, UserBody(Profile(userData.id, userData.email, userData.firstName, userData.lastName, Some(finalRole))));
  }

  /**
   * A missing or empty email or password is answered with 400 before any
   * lookup: the answer does not depend on either table, and no session is made.
   */
  lemma FieldsCheckedFirst(admins: seq<Row>, users: seq<Row>, admins2: seq<Row>, users2: seq<Row>, c: Credentials,
                           verify: (string, string) -> bool, adminFails: bool, userFails: bool)
    requires !Truthy(c.email) || !Truthy(c.password)
    ensures var o := LoginOutcome(true, admins, users, Some(c), verify, adminFails, userFails);
      && o == Outcome(Response(400, ErrorBody(MissingFields)), None)
      && o == LoginOutcome(true, admins2, users2, Some(c), verify, adminFails, userFails)
  {
  }

  /**
   * The lookups: a match comes from `administrators` with role "admin"
   * whenever that query finds the email; otherwise from `users` with role
   * "user" and no role column; and there is none exactly when both queries
   * come back empty.
   */
  lemma CandidateSource(admins: seq<Row>, users: seq<Row>, email: string, adminFails: bool, userFails: bool)
    ensures var m := Candidate(admins, users, email, adminFails, userFails);
      && (m.None? <==> ByEmail(admins, email, adminFails) == [] && ByEmail(users, email, userFails) == [])
      && (ByEmail(admins, email, adminFails) != [] ==>
            m.Some? && m.value.role == "admin" && m.value.row in admins && m.value.row.email == email)
      && (m.Some? && ByEmail(admins, email, adminFails) == [] ==>
            m.value.role == "user" && m.value.row.role.None? && m.value.row.email == email
            && exists u :: u in users && Unroled(u) == m.value.row)
  {
    ByEmailFinds(admins, email);
    ByEmailFinds(users, email);
    var fromAdmins := ByEmail(admins, email, adminFails);
    var fromUsers := ByEmail(users, email, userFails);
    if fromAdmins != [] {
      assert fromAdmins[0] in fromAdmins;
    } else if fromUsers != [] {
      assert fromUsers[0] in fromUsers;
    }
  }

  /** `users` is consulted only when no administrator row is found: it cannot change the outcome otherwise. */
  lemma AdministratorsFirst(admins: seq<Row>, users: seq<Row>, users2: seq<Row>, body: Option<Credentials>,
                            verify: (string, string) -> bool, adminFails: bool, userFails: bool)
    requires body.Some? && ParamText(body.value.email).Some?
    requires ByEmail(admins, ParamText(body.value.email).value, adminFails) != []
    ensures LoginOutcome(true, admins, users, body, verify, adminFails, userFails)
         == LoginOutcome(true, admins, users2, body, verify, adminFails, userFails)
  {
  }

  /**
   * Once the fields are present, a login is refused exactly when no row is
   * found or the password does not verify, and both refusals are the same
   * 401 answer with no session, so the answer does not reveal which it was.
   */
  lemma SameRejection(admins: seq<Row>, users: seq<Row>, c: Credentials,
                      verify: (string, string) -> bool, adminFails: bool, userFails: bool)
    requires Truthy(c.email) && Truthy(c.password)
    ensures var o := LoginOutcome(true, admins, users, Some(c), verify, adminFails, userFails);
      var m := Candidate(admins, users, ParamText(c.email).value, adminFails, userFails);
      && (o.response.status == 401 <==> m.None? || !PasswordMatches(verify, c.password, m.value.row.passwordHash))
      && (o.response.status == 401 ==> o == Outcome(Rejected, None))
      && (o.response.status != 401 ==> o.response.status == 200)
  {
  }

  /**
   * A session is created only after the password verifies, for the found
   * row's id and email, with the row's role when set, else "admin" for an
   * administrator and "user" for a user; the answer reports the same role.
   */
  lemma SessionAfterVerify(connected: bool, admins: seq<Row>, users: seq<Row>, body: Option<Credentials>,
                           verify: (string, string) -> bool, adminFails: bool, userFails: bool)
    ensures var o := LoginOutcome(connected, admins, users, body, verify, adminFails, userFails);
      o.session.Some? <==>
        && connected && body.Some? && Truthy(body.value.email) && Truthy(body.value.password)
        && var m := Candidate(admins, users, ParamText(body.value.email).value, adminFails, userFails);
           m.Some? && PasswordMatches(verify, body.value.password, m.value.row.passwordHash)
    ensures var o := LoginOutcome(connected, admins, users, body, verify, adminFails, userFails);
      o.session.Some? ==>
        var m := Candidate(admins, users, ParamText(body.value.email).value, adminFails, userFails).value;
        && o.session.value == Claims(m.row.id, m.row.email, RoleOr(m.row, m.role))
        && o.response.body.UserBody? && o.response.body.user.role == Some(o.session.value.role)
        && (m.role == "user" ==> o.session.value.role == "user")
        && (m.role == "admin" ==> o.session.value.role == RoleOr(m.row, "admin"))
  {
    if body.Some? && ParamText(body.value.email).Some? {
      var m := Candidate(admins, users, ParamText(body.value.email).value, adminFails, userFails);
      if m.Some? && m.value.role == "user" {
        CandidateSource(admins, users, ParamText(body.value.email).value, adminFails, userFails);
      }
    }
  }

  /**
   * A truthy password that is not a string passes the 400 check but never
   * verifies: with the fields present, the answer is the 401 refusal and no
   * session is made, whatever the tables hold.
   */
  lemma NonStringPasswordRejected(admins: seq<Row>, users: seq<Row>, c: Credentials,
                                  verify: (string, string) -> bool, adminFails: bool, userFails: bool)
    requires Truthy(c.email) && Truthy(c.password) && !c.password.JString?
    ensures LoginOutcome(true, admins, users, Some(c), verify, adminFails, userFails) == Outcome(Rejected, None)
  {
  }

  /**
   * A truthy email that is not a string is looked up by the text it is
   * bound as: a number by its decimal text, `true` as "true".
   */
  lemma EmailLookedUpAsText(admins: seq<Row>, users: seq<Row>, c: Credentials, adminFails: bool, userFails: bool)
    requires Truthy(c.email)
    ensures c.email.JNumber? ==> ParamText(c.email) == Some(IntToString(c.email.n))
    ensures c.email.JBool? ==> ParamText(c.email) == Some("true")
    ensures Candidate(admins, users, ParamText(c.email).value, adminFails, userFails).Some? ==>
      Candidate(admins, users, ParamText(c.email).value, adminFails, userFails).value.row.email == ParamText(c.email).value
  {
    CandidateSource(admins, users, ParamText(c.email).value, adminFails, userFails);
  }
}
