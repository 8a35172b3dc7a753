/**
 * `GET /api/auth/me` (app/api/auth/me/route.ts): the profile of the
 * account the session cookie names, looked up by id in `users` first and in
 * `administrators` second; `{ user: null }` whenever there is none.
 *
 * `session` stands for `getSession()`, which yields no claims for a
 * missing cookie or a token that does not verify.
 */
module MeRoute {
  import opened Wrappers
  import opened SeqUtil
  import opened JsValue
  import opened AuthDb
  import LoginRoute

  /** `{ user: null }`, with the default status. */
  const NullUser: Response := Response(200, NoUser)

  /** The users query selects the constant `'user' as role`. */
  function AsUser(row: Row): (r: Row)
    ensures r.role == Some("user")
  {
    row.(role := Some("user"))
  }

  /** The profile answer for a found row; an administrator's role is reported as stored, NULL included. */
  function ProfileOf(row: Row): Response {
    Response(200, UserBody(Profile(row.id, row.email, row.firstName, row.lastName, row.role)))
  }

  function MeResponse(connected: bool, admins: seq<Row>, users: seq<Row>, session: Option<Claims>,
                      userFails: bool, adminFails: bool): (r: Response)
    ensures r.status == 200
  {
    if session.None? || !connected then NullUser
    else
      var fromUsers := ById(users, session.value.userId, userFails);
      if fromUsers != [] then ProfileOf(AsUser(fromUsers[0]))
      else
        var fromAdmins := ById(admins, session.value.userId, adminFails);
        if fromAdmins != [] then ProfileOf(fromAdmins[0]) else NullUser
  }

  /** The handler, step by step; it changes nothing. */
  method Me(db: Backend, session: Option<Claims>, userFails: bool, adminFails: bool) returns (response: Response)
    ensures response == MeResponse(db.connected, db.administrators, db.users, session, userFails, adminFails)
    ensures response.body.UserBody? ==> response.body.user.id == session.value.userId
  {
    if session.None? || !db.connected {
      return NullUser;
    }
    var user := Map(AsUser, ById(db.users, session.value.userId, userFails));
    if |user| == 0 {
      user := ById(db.administrators, session.value.userId, adminFails);
    }
    if |user| == 0 {
      return NullUser;
    }
    var userData := user[0];
    ByIdFinds(db.users, session.value.userId);
    ByIdFinds(db.administrators, session.value.userId);
    assert userData in user;
    response := ProfileOf(userData);
  }

  /** Without a session or a database the answer is `{ user: null }`, whatever the tables hold. */
  lemma NoSessionNoLookup(connected: bool, admins: seq<Row>, users: seq<Row>, session: Option<Claims>,
                          userFails: bool, adminFails: bool)
    requires session.None? || !connected
    ensures MeResponse(connected, admins, users, session, userFails, adminFails) == NullUser
  {
  }

  /**
   * `users` is searched before `administrators`: when a users row has the
   * session's id, the answer is the first such row with role "user", and
   * the administrators table cannot change it.
   */
  lemma UsersWin(admins: seq<Row>, admins2: seq<Row>, users: seq<Row>, c: Claims, u: Row)
    requires u in users && u.id == c.userId
    ensures var r := MeResponse(true, admins, users, Some(c), false, false);
      && r == MeResponse(true, admins2, users, Some(c), false, false)
      && r.body.UserBody? && r.body.user.role == Some("user") && r.body.user.id == c.userId
  {
    ByIdFinds(users, c.userId);
    var fromUsers := ById(users, c.userId, false);
    assert fromUsers[0] in fromUsers;
  }

  /** The answer is a profile exactly when one of the two queries finds the id; otherwise it is `{ user: null }`. */
  lemma ProfileIffFound(admins: seq<Row>, users: seq<Row>, c: Claims)
    ensures var r := MeResponse(true, admins, users, Some(c), false, false);
      && (r.body.UserBody? <==> (exists u :: u in users && u.id == c.userId) || (exists a :: a in admins && a.id == c.userId))
      && (!r.body.UserBody? ==> r == NullUser)
  {
    ByIdFinds(users, c.userId);
    ByIdFinds(admins, c.userId);
  }

  /**
   * An administrator whose role column is NULL logs in with role "admin",
   * but this route then reports the role as `null` for the same session.
   */
  lemma RoleNullAfterLogin(admin: Row, c: LoginRoute.Credentials, verify: (string, string) -> bool)
    requires admin.role.None? && admin.email != "" && c.email == JString(admin.email)
    requires c.password.JString? && c.password.s != "" && verify(c.password.s, admin.passwordHash)
    ensures var o := LoginRoute.LoginOutcome(true, [admin], [], Some(c), verify, false, false);
      && o.session == Some(Claims(admin.id, admin.email, "admin"))
      && MeResponse(true, [admin], [], o.session, false, false).body.user.role.None?
  {
    assert ByEmail([admin], admin.email, false) == [admin];
    assert LoginRoute.Candidate([admin], [], admin.email, false, false) == Some(LoginRoute.Match(admin, "admin"));
    assert RoleOr(admin, "admin") == "admin";
    assert ById([admin], admin.id, false) == [admin];
  }

  // ---------------------------------------------------------------------
  // The two tables draw their ids from separate SERIAL sequences, so an
  // administrator and a user can share an id; the session records which
  // account logged in (id and email) but the lookup above uses the id only.

  function RowId(row: Row): int {
    row.id
  }

  /** Every email appears in at most one of the two tables. */
  ghost predicate EmailsApart(admins: seq<Row>, users: seq<Row>) {
    forall a, u :: a in admins && u in users ==> a.email != u.email
  }

  /**
   * With ids unique in each table (their primary keys) and no email in both
   * tables, an administrator who logs in and then asks for the profile gets
   * the profile of the user that shares the administrator's id.
   */
  lemma AdminSessionShowsUser()
    ensures var admin := Row(1, "admin@store", "h1", "Ada", "Admin", Some("admin"));
      var user := Row(1, "buyer@store", "h2", "Bo", "Buyer", None);
      var verify := (password: string, hash: string) => true;
      var c := LoginRoute.Credentials(JString("admin@store"), JString("secret"));
      var o := LoginRoute.LoginOutcome(true, [admin], [user], Some(c), verify, false, false);
      && UniqueBy(RowId, [admin]) && UniqueBy(RowId, [user]) && EmailsApart([admin], [user])
      && o.session == Some(Claims(1, "admin@store", "admin"))
      && MeResponse(true, [admin], [user], o.session, false, false).body.user.email == "buyer@store"
      && MeResponse(true, [admin], [user], o.session, false, false).body.user.role == Some("user")
  {
    var admin := Row(1, "admin@store", "h1", "Ada", "Admin", Some("admin"));
    var user := Row(1, "buyer@store", "h2", "Bo", "Buyer", None);
    assert ByEmail([admin], "admin@store", false) == [admin];
    assert ById([user], 1, false) == [user];
  }

  function Owns(c: Claims): Row -> bool {
    (row: Row) => row.id == c.userId && row.email == c.email
  }

  /** The lookup matched on both the id and the email the session carries. */
  function ByOwner(rows: seq<Row>, c: Claims, fails: bool): (r: seq<Row>)
    ensures fails ==> r == []
  {
    if fails then [] else Filter(Owns(c), rows)
  }

  /** The route with the lookup keyed by the whole session identity rather than the id alone. */
  function MeIntended(connected: bool, admins: seq<Row>, users: seq<Row>, session: Option<Claims>,
                      userFails: bool, adminFails: bool): (r: Response)
    ensures r.status == 200
  {
    if session.None? || !connected then NullUser
    else
      var fromUsers := ByOwner(users, session.value, userFails);
      if fromUsers != [] then ProfileOf(AsUser(fromUsers[0]))
      else
        var fromAdmins := ByOwner(admins, session.value, adminFails);
        if fromAdmins != [] then ProfileOf(fromAdmins[0]) else NullUser
  }

  /** In a table with unique ids, the owner lookup finds the row the session was made for, first. */
  lemma FirstOwner(rows: seq<Row>, c: Claims, r: Row)
    requires UniqueBy(RowId, rows) && r in rows && r.id == c.userId && r.email == c.email
    ensures ByOwner(rows, c, false) != [] && ByOwner(rows, c, false)[0] == r
  {
    FilterMembers(Owns(c), rows);
    var found := ByOwner(rows, c, false);
    assert r in found;
    assert found[0] in found;
    var i :| 0 <= i < |rows| && rows[i] == found[0];
    var j :| 0 <= j < |rows| && rows[j] == r;
    assert RowId(rows[i]) == RowId(rows[j]);
  }

  /** No row of a table whose emails all differ from the session's is its owner. */
  lemma NoOwner(rows: seq<Row>, c: Claims)
    requires forall row :: row in rows ==> row.email != c.email
    ensures ByOwner(rows, c, false) == []
  {
    FilterNone(Owns(c), rows);
  }

  /**
   * Under the same table conditions, the corrected lookup answers a
   * successful login's session with the profile of the account that logged
   * in: same id, email and names.
   */
  lemma MeIntendedAfterLogin(admins: seq<Row>, users: seq<Row>, c: LoginRoute.Credentials, verify: (string, string) -> bool)
    requires UniqueBy(RowId, admins) && UniqueBy(RowId, users) && EmailsApart(admins, users)
    requires LoginRoute.LoginOutcome(true, admins, users, Some(c), verify, false, false).session.Some?
    ensures var o := LoginRoute.LoginOutcome(true, admins, users, Some(c), verify, false, false);
      var p := o.response.body.user;
      var r := MeIntended(true, admins, users, o.session, false, false);
      && r.body.UserBody?
      && r.body.user.id == p.id && r.body.user.email == p.email
      && r.body.user.firstName == p.firstName && r.body.user.lastName == p.lastName
  {
    var email := ParamText(c.email).value;
    LoginRoute.CandidateSource(admins, users, email, false, false);
    LoginRoute.SessionAfterVerify(true, admins, users, Some(c), verify, false, false);
    var m := LoginRoute.Candidate(admins, users, email, false, false).value;
    var o := LoginRoute.LoginOutcome(true, admins, users, Some(c), verify, false, false);
    var s := o.session.value;
    if ByEmail(admins, email, false) != [] {
      assert m.row in admins;
      forall u | u in users ensures u.email != s.email {
        assert m.row.email != u.email;
      }
      NoOwner(users, s);
      FirstOwner(admins, s, m.row);
    } else {
      var u :| u in users && LoginRoute.Unroled(u) == m.row;
      FirstOwner(users, s, u);
    }
  }
}
