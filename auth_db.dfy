/**
 * The two account tables of the database (`users` and `administrators`),
 * the queries the auth routes run on them, and the session cookies the
 * routes issue.
 *
 * A query goes through `safeSQL`, which answers with no rows when the
 * database is unreachable or the query throws; each query therefore takes
 * a `fails` flag meaning "this query came back empty because it failed".
 */
module AuthDb {
  import opened Wrappers
  import opened SeqUtil

  /**
   * A row of either table. `users` has no role column (`None`); the
   * `role` column of `administrators` may be NULL (`None`) or hold a text.
   */
  datatype Row = Row(id: int, email: string, passwordHash: string, firstName: string, lastName: string, role: Option<string>)

  /** The payload `createSession(userId, email, role)` signs into the cookie. */
  datatype Claims = Claims(userId: int, email: string, role: string)

  /** The `user` object of a response; `role` is `null` when an administrator's role column is. */
  datatype Profile = Profile(id: int, email: string, firstName: string, lastName: string, role: Option<string>)

  datatype Body = ErrorBody(error: string) | UserBody(user: Profile) | NoUser

  datatype Response = Response(status: int, body: Body)

  const NotConnected: string := "Database not connected. Please configure DATABASE_URL."
  const InternalError: string := "Internal server error"

  /** A text column value is truthy when it is not NULL and not the empty string. */
  predicate TruthyText(s: Option<string>) {
    s.Some? && s.value != ""
  }

  /** `row.role || fallback`. */
  function RoleOr(row: Row, fallback: string): (r: string)
    ensures TruthyText(row.role) ==> r == row.role.value
    ensures !TruthyText(row.role) ==> r == fallback
  {
    if TruthyText(row.role) then row.role.value else fallback
  }

  function HasEmail(email: string): Row -> bool {
    (row: Row) => row.email == email
  }

  function HasId(id: int): Row -> bool {
    (row: Row) => row.id == id
  }

  /** `SELECT … WHERE email = ${email}`, in stored order; nothing when the query fails. */
  function ByEmail(rows: seq<Row>, email: string, fails: bool): (r: seq<Row>)
    ensures fails ==> r == []
  {
    if fails then [] else Filter(HasEmail(email), rows)
  }

  /** `SELECT … WHERE id = ${id}`, in stored order; nothing when the query fails. */
  function ById(rows: seq<Row>, id: int, fails: bool): (r: seq<Row>)
    ensures fails ==> r == []
  {
    if fails then [] else Filter(HasId(id), rows)
  }

  /** A query that does not fail finds a row exactly when some stored row matches. */
  lemma ByEmailFinds(rows: seq<Row>, email: string)
    ensures ByEmail(rows, email, false) != [] <==> exists row :: row in rows && row.email == email
    ensures forall row :: row in ByEmail(rows, email, false) ==> row in rows && row.email == email
  {
    FilterMembers(HasEmail(email), rows);
    var r := ByEmail(rows, email, false);
    if r != [] {
      assert r[0] in r;
    }
  }

  /** A query that does not fail finds a row exactly when some stored row has the id. */
  lemma ByIdFinds(rows: seq<Row>, id: int)
    ensures ById(rows, id, false) != [] <==> exists row :: row in rows && row.id == id
    ensures forall row :: row in ById(rows, id, false) ==> row in rows && row.id == id
  {
    FilterMembers(HasId(id), rows);
    var r := ById(rows, id, false);
    if r != [] {
      assert r[0] in r;
    }
  }

  /** The database the routes talk to, and the sessions they have issued. */
  class Backend {
    /** `isDatabaseConnected()`. */
    const connected: bool
    var users: seq<Row>
    var administrators: seq<Row>
    /** Every `createSession` call, oldest first; the last one is the cookie the browser holds. */
    var sessions: seq<Claims>

    constructor(connected: bool, users: seq<Row>, administrators: seq<Row>)
      ensures this.connected == connected && this.users == users && this.administrators == administrators
      ensures sessions == []
    {
      this.connected := connected;
      this.users := users;
      this.administrators := administrators;
      sessions := [];
    }
  }
}
