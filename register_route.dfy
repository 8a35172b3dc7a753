/**
 * `POST /api/auth/register` (app/api/auth/register/route.ts): refuses a
 * missing field or an email already present in either account table,
 * otherwise inserts a `users` row holding the password's hash and issues a
 * "user" session for it.
 *
 * `hash` stands for `hashPassword` (bcrypt with cost 12; its random salt is
 * folded into the parameter), and `newId` for the id the `SERIAL` column
 * hands out.
 */
module RegisterRoute {
  import opened Wrappers
  import opened JsValue
  import opened AuthDb

  /** The JSON body's four fields, as whatever JSON values they hold (`undefined` when missing). */
  datatype SignUp = SignUp(email: Json, password: Json, firstName: Json, lastName: Json)

  const MissingFields: string := "All fields are required"
  const AlreadyExists: string := "User already exists"
  const InsertFailed: string := "Failed to create user"

  predicate Complete(b: SignUp) {
    Truthy(b.email) && Truthy(b.password) && Truthy(b.firstName) && Truthy(b.lastName)
  }

  /**
   * The `users` row the insert stores and returns: each field as the text
   * it is bound as, and the password's hash.
   */
  function NewRow(b: SignUp, passwordHash: string, newId: int): (r: Row)
    requires Complete(b)
    ensures r.id == newId && r.passwordHash == passwordHash && r.role.None?
    ensures r.email == ParamText(b.email).value
    ensures r.firstName == ParamText(b.firstName).value && r.lastName == ParamText(b.lastName).value
  {
    Row(newId, ParamText(b.email).value, passwordHash, ParamText(b.firstName).value, ParamText(b.lastName).value, None)
  }

  /** The answer, the row inserted into `users` and the session created, if any. */
  datatype Outcome = Outcome(response: Response, inserted: Option<Row>, session: Option<Claims>)

  function RegisterOutcome(connected: bool, admins: seq<Row>, users: seq<Row>, body: Option<SignUp>,
                           hash: string -> string, newId: int,
                           userFails: bool, adminFails: bool, insertFails: bool): Outcome
  {
    if !connected then Outcome(Response(500, ErrorBody(NotConnected)), None, None)
    else if body.None? then Outcome(Response(500, ErrorBody(InternalError)), None, None)
    else if !Complete(body.value) then Outcome(Response(400, ErrorBody(MissingFields)), None, None)
    else
      var b := body.value;
      var email := ParamText(b.email).value;
      if ByEmail(users, email, userFails) != [] || ByEmail(admins, email, adminFails) != [] then
        Outcome(Response(400, ErrorBody(AlreadyExists)), None, None)
      else if !b.password.JString? then Outcome(Response(500, ErrorBody(InternalError)), None, None)
      else if insertFails then Outcome(Response(500, ErrorBody(InsertFailed)), None, None)
      else
        var row := NewRow(b, hash(b.password.s), newId);
        Outcome(Response(200, UserBody(Profile(row.id, row.email, row.firstName, row.lastName, Some("user")))),
                Some(row), Some(Claims(row.id, row.email, "user")))
  }

  /** The handler, step by step: the insert appends to `db.users`, the session to `db.sessions`. */
  method Register(db: Backend, body: Option<SignUp>, hash: string -> string, newId: int,
                  userFails: bool, adminFails: bool, insertFails: bool)
    returns (response: Response)
    modifies db`users, db`sessions
    ensures var o := RegisterOutcome(db.connected, db.administrators, old(db.users), body, hash, newId,
                                     userFails, adminFails, insertFails);
      && response == o.response
      && db.users == old(db.users) + (if o.inserted.Some? then [o.inserted.value] else [])
      && db.sessions == old(db.sessions) + (if o.session.Some? then [o.session.value] else [])
  {
    if !db.connected {
      return Response(500, ErrorBody(NotConnected));
    }
    if body.None? {
      return Response(500, ErrorBody(InternalError));
    }
    var b := body.value;
    if !Truthy(b.email) || !Truthy(b.password) || !Truthy(b.firstName) || !Truthy(b.lastName) {
      return Response(400, ErrorBody(MissingFields));
    }
    var email := ParamText(b.email).value;
    var existingUser := ByEmail(db.users, email, userFails);
    var existingAdmin := ByEmail(db.administrators, email, adminFails);
    if |existingUser| > 0 || |existingAdmin| > 0 {
      return Response(400, ErrorBody(AlreadyExists));
    }
    if !b.password.JString? {
      return Response(500, ErrorBody(InternalError));
    }
    var hashedPassword := hash(b.password.s);
    if insertFails {
      return Response(500, ErrorBody(InsertFailed));
    }
    var newUser := NewRow(b, hashedPassword, newId);
    db.users := db.users + [newUser];
    db.sessions := db.sessions + [Claims(newUser.id, newUser.email, "user")];
    response := Response(200, UserBody(Profile(newUser.id, newUser.email, newUser.firstName, newUser.lastName, Some("user"))));
  }

  /** A missing or falsy field is answered with 400; nothing is inserted and no session is made. */
  lemma FieldsRequired(admins: seq<Row>, users: seq<Row>, b: SignUp, hash: string -> string, newId: int,
                       userFails: bool, adminFails: bool, insertFails: bool)
    requires !Truthy(b.email) || !Truthy(b.password) || !Truthy(b.firstName) || !Truthy(b.lastName)
    ensures RegisterOutcome(true, admins, users, Some(b), hash, newId, userFails, adminFails, insertFails)
         == Outcome(Response(400, ErrorBody(MissingFields)), None, None)
  {
  }

  /**
   * An email stored in `users` or in `administrators` is refused with 400
   * "User already exists" (when the lookups succeed): no insert, no session.
   */
  lemma DuplicateRefused(admins: seq<Row>, users: seq<Row>, b: SignUp, hash: string -> string, newId: int, insertFails: bool)
    requires Complete(b)
    requires var email := ParamText(b.email).value;
      (exists u :: u in users && u.email == email) || (exists a :: a in admins && a.email == email)
    ensures RegisterOutcome(true, admins, users, Some(b), hash, newId, false, false, insertFails)
         == Outcome(Response(400, ErrorBody(AlreadyExists)), None, None)
  {
    ByEmailFinds(users, ParamText(b.email).value);
    ByEmailFinds(admins, ParamText(b.email).value);
  }

  /**
   * A row is inserted exactly when the body is complete, neither lookup finds
   * the email and the insert succeeds; it stores the hash of the password,
   * not the password, and a "user" session is created for that row and no
   * other, reported with role "user".
   */
  lemma InsertAndSession(connected: bool, admins: seq<Row>, users: seq<Row>, body: Option<SignUp>,
                         hash: string -> string, newId: int, userFails: bool, adminFails: bool, insertFails: bool)
    ensures var o := RegisterOutcome(connected, admins, users, body, hash, newId, userFails, adminFails, insertFails);
      && (o.inserted.Some? <==>
            connected && body.Some? && Complete(body.value) && body.value.password.JString? && !insertFails
            && ByEmail(users, ParamText(body.value.email).value, userFails) == []
            && ByEmail(admins, ParamText(body.value.email).value, adminFails) == [])
      && (o.session.Some? <==> o.inserted.Some?)
      && (o.inserted.Some? ==>
            var row := o.inserted.value;
            && row.passwordHash == hash(body.value.password.s)
            && row.email == ParamText(body.value.email).value
            && row.firstName == ParamText(body.value.firstName).value
            && row.lastName == ParamText(body.value.lastName).value
            && o.session.value == Claims(row.id, row.email, "user")
            && o.response == Response(200, UserBody(Profile(row.id, row.email, row.firstName, row.lastName, Some("user")))))
  {
  }

  /** A failed insert answers 500 and creates no session. */
  lemma InsertFailureNoSession(admins: seq<Row>, users: seq<Row>, b: SignUp, hash: string -> string, newId: int,
                               userFails: bool, adminFails: bool)
    requires Complete(b) && b.password.JString?
    requires ByEmail(users, ParamText(b.email).value, userFails) == [] && ByEmail(admins, ParamText(b.email).value, adminFails) == []
    ensures RegisterOutcome(true, admins, users, Some(b), hash, newId, userFails, adminFails, true)
         == Outcome(Response(500, ErrorBody(InsertFailed)), None, None)
  {
  }

  /**
   * `safeSQL` turns a failed lookup into "no rows", so with both lookups
   * failing an email that is already stored is not refused by the route: the
   * insert is attempted (and only the table's UNIQUE constraint can stop it).
   */
  lemma FailedLookupMissesDuplicate(admins: seq<Row>, users: seq<Row>, b: SignUp, hash: string -> string, newId: int)
    requires Complete(b) && b.password.JString?
    ensures RegisterOutcome(true, admins, users, Some(b), hash, newId, true, true, false).inserted.Some?
  {
  }

  /**
   * A truthy password that is not a string passes the 400 check, but
   * `hashPassword` rejects it: once the email is found new, the answer is
   * 500 "Internal server error", with no insert and no session.
   */
  lemma NonStringPasswordFails(admins: seq<Row>, users: seq<Row>, b: SignUp, hash: string -> string, newId: int,
                               userFails: bool, adminFails: bool, insertFails: bool)
    requires Complete(b) && !b.password.JString?
    requires ByEmail(users, ParamText(b.email).value, userFails) == [] && ByEmail(admins, ParamText(b.email).value, adminFails) == []
    ensures RegisterOutcome(true, admins, users, Some(b), hash, newId, userFails, adminFails, insertFails)
         == Outcome(Response(500, ErrorBody(InternalError)), None, None)
  {
  }
}
