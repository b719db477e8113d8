/**
 * The `POST` handler of app/api/auth/login/route.ts: validate the credential pair, look the
 * email up, compare the password against the stored hash, create a session and answer
 * with a projection of the user; any exception answers 500; the database connection, once
 * obtained, is closed in `finally`.
 *
 * Everything the handler calls out to is a field of a `World`: the parsed request body,
 * `getConnection`, the SELECT by email, `bcrypt.compare`, `createSession` and
 * `connection.close`. Each answers with a `Step`: a value, or a thrown error's message.
 */
module LoginRoute {
  import opened Wrappers

  // ---------------------------------------------------------------------------
  // JavaScript values and the handler's data

  /** The JavaScript values that a JSON body or a database row can hold (`Composite` is
      any array or object). */
  datatype JsValue = Undefined | Null | Bool(b: bool) | Num(n: real) | Str(s: string) | Composite

  /** JavaScript truthiness, as used by `!email || !password`. */
  predicate Truthy(v: JsValue)
  {
    match v
    case Undefined => false
    case Null => false
    case Bool(b) => b
    case Num(n) => n != 0.0
    case Str(s) => s != ""
    case Composite => true
  }

  /** `{ email, password }` destructured from the request body. */
  datatype Body = Body(email: JsValue, password: JsValue)

  /** One row of `SELECT id, username, email, password_hash, full_name, role FROM users`,
      in Oracle's upper-case object format. */
  datatype Row = Row(id: JsValue, username: JsValue, email: JsValue, passwordHash: JsValue,
                     fullName: JsValue, role: JsValue)

  /** `sessionData`, the argument of `createSession`. */
  datatype Claims = Claims(userId: JsValue, email: JsValue, role: JsValue)

  /** `responseUser`, the `user` of a successful answer. */
  datatype UserView = UserView(id: JsValue, email: JsValue, role: JsValue, username: JsValue,
                               fullName: JsValue)

  /** The outcome of an awaited call: its value, or the message of what it threw. */
  datatype Step<+T> = Ok(value: T) | Throw(message: string)
  {
    function Thrown(): Option<string>
    {
      match this
      case Ok(_) => None
      case Throw(m) => Some(m)
    }
  }

  /** The collaborators of one request. */
  datatype World = World(
    body: Step<Body>,                              // await request.json(), destructured
    connect: Step<()>,                             // await getConnection()
    findRows: JsValue -> Step<Option<seq<Row>>>,   // result.rows of the SELECT by :email
    compare: (JsValue, JsValue) -> Step<bool>,     // await bcrypt.compare(password, hash)
    createSession: Claims -> Step<()>,             // await createSession(sessionData)
    close: Step<()>                                // await connection.close()
  )

  /** The calls the handler makes, in the order made. */
  datatype Call =
    | ReadBody
    | Connect
    | Query(email: JsValue)
    | Compare(password: JsValue, hash: JsValue)
    | CreateSession(claims: Claims)
    | Close

  /** The handler's console output. No entry has room for a password. */
  datatype LogEntry =
    | Attempt(email: JsValue)            // "Login attempt for email:"
    | NoUser(email: JsValue)             // "No user found for email:"
    | UserFound(row: Row)                // "User found:", with PASSWORD_HASH masked
    | InvalidPassword(email: JsValue)    // "Invalid password for user:"
    | SessionCreated(email: JsValue)     // "Session created successfully for user:"
    | LoginError(message: string)        // console.error("Login error:", ...)
    | CloseError(message: string)        // console.error("Error al cerrar la conexión:", ...)

  datatype ResponseBody =
    | Error(error: string)
    | InternalError(error: string, details: string)
    | LoggedIn(user: UserView)

  datatype Response = Response(status: int, body: ResponseBody)

  const MissingFieldsMessage: string := "Email y contraseña son requeridos"
  const InvalidCredentialsMessage: string := "Credenciales inválidas"
  const InternalErrorMessage: string := "Error interno del servidor"
  const Masked: JsValue := Str("***")

  const MissingFields: Response := Response(400, Error(MissingFieldsMessage))
  const InvalidCredentials: Response := Response(401, Error(InvalidCredentialsMessage))

  function ClaimsOf(user: Row): Claims
  {
    Claims(user.id, user.email, user.role)
  }

  function ViewOf(user: Row): UserView
  {
    UserView(user.id, user.email, user.role, user.username, user.fullName)
  }

  /** What a call throws in this world, if it throws. */
  function Threw(w: World, c: Call): Option<string>
  {
    match c
    case ReadBody => w.body.Thrown()
    case Connect => w.connect.Thrown()
    case Query(e) => w.findRows(e).Thrown()
    case Compare(p, h) => w.compare(p, h).Thrown()
    case CreateSession(cl) => w.createSession(cl).Thrown()
    case Close => w.close.Thrown()
  }

  // ---------------------------------------------------------------------------
  // Conditions on the world, named after the branches of the handler

  /** The body parsed, but `!email || !password`. */
  predicate MissingField(w: World)
  {
    w.body.Ok? && !(Truthy(w.body.value.email) && Truthy(w.body.value.password))
  }

  /** The query ran and returned `result.rows` (absent or not). */
  predicate Queried(w: World)
  {
    w.body.Ok? && !MissingField(w) && w.connect.Ok? && w.findRows(w.body.value.email).Ok?
  }

  /** The query ran and `!result.rows || result.rows.length === 0`. */
  predicate NoRows(w: World)
  {
    Queried(w) && (w.findRows(w.body.value.email).value.None?
                   || |w.findRows(w.body.value.email).value.value| == 0)
  }

  /** `result.rows[0]`, when the query ran and found a row. */
  function FirstRow(w: World): Option<Row>
  {
    if Queried(w) && !NoRows(w) then Some(w.findRows(w.body.value.email).value.value[0]) else None
  }

  /** A row was found and bcrypt answered false. */
  predicate WrongPassword(w: World)
  {
    FirstRow(w).Some?
    && w.compare(w.body.value.password, FirstRow(w).value.passwordHash) == Ok(false)
  }

  /** Every `createSession` call is the only one, comes straight after the `bcrypt.compare`
      of the request's password against the first row's hash, which answered true, and
      carries that row's ID, EMAIL and ROLE. */
  ghost predicate SessionOnlyAfterMatch(w: World, calls: seq<Call>)
  {
    forall j | 0 <= j < |calls| && calls[j].CreateSession? ::
      && FirstRow(w).Some?
      && 0 < j
      && calls[j - 1] == Compare(w.body.value.password, FirstRow(w).value.passwordHash)
      && w.compare(w.body.value.password, FirstRow(w).value.passwordHash) == Ok(true)
      && calls[j].claims == ClaimsOf(FirstRow(w).value)
      && (forall k | 0 <= k < |calls| && k != j :: !calls[k].CreateSession?)
  }

  /** Closing the connection after the last call keeps the session discipline. */
  lemma SessionOnlyAfterMatchThenClose(w: World, calls: seq<Call>)
    requires SessionOnlyAfterMatch(w, calls)
    ensures SessionOnlyAfterMatch(w, calls + [Close])
  {
    var calls' := calls + [Close];
    forall j | 0 <= j < |calls'| && calls'[j].CreateSession?
      ensures j < |calls| && calls'[j] == calls[j] && calls'[j - 1] == calls[j - 1]
    {
    }
  }

  /** Every entry that names an email names the request's, the logged row has its hash
      masked, and the `try` block writes no error entry (those free-text entries come only
      from `catch` and `finally`). */
  ghost predicate LogDisclosesNoSecret(w: World, log: seq<LogEntry>)
  {
    forall e | e in log ::
      && (e.Attempt? || e.NoUser? || e.InvalidPassword? || e.SessionCreated? ==>
            w.body.Ok? && e.email == w.body.value.email)
      && (e.UserFound? ==> FirstRow(w).Some? && e.row == FirstRow(w).value.(passwordHash := Masked))
      && !e.LoginError? && !e.CloseError?
  }

  // ---------------------------------------------------------------------------
  // The handler as a function of the world

  /** How the `try` block is left: a `return`, or an exception with its message. */
  datatype Exit = Return(response: Response) | Raise(message: string)

  /** The state at the end of the `try` block: how it was left, the calls made, the log
      written and whether `connection` was assigned. */
  datatype Flow = Flow(exit: Exit, calls: seq<Call>, log: seq<LogEntry>, acquired: bool)

  /** The state at the end of the handler. `closeCount` counts `connection.close()` calls. */
  datatype Outcome = Outcome(response: Response, calls: seq<Call>, log: seq<LogEntry>,
                             acquired: bool, closeCount: nat)

  /** The `try` block: validation, lookup, compare, session and response. */
  function TryBlock(w: World): (f: Flow)
    ensures f.calls != [] && f.calls[0] == ReadBody
    // a step is called only if every earlier one returned, and the block is left by an
    // exception exactly when the last call threw, with that call's message
    ensures forall i | 0 <= i < |f.calls| - 1 :: Threw(w, f.calls[i]).None?
    ensures f.exit.Raise? <==> Threw(w, f.calls[|f.calls| - 1]).Some?
    ensures f.exit.Raise? ==> f.exit.message == Threw(w, f.calls[|f.calls| - 1]).value
    ensures f.exit.Return? ==> f.exit.response.status in {200, 400, 401}
    // 400: a missing field, before any connection or query
    ensures (f.exit.Return? && f.exit.response.status == 400) <==> MissingField(w)
    ensures MissingField(w) ==> f.exit == Return(MissingFields) && f.calls == [ReadBody] && !f.acquired
    // 401: one answer for an unknown email and for a wrong password
    ensures (f.exit.Return? && f.exit.response.status == 401) <==> NoRows(w) || WrongPassword(w)
    ensures f.exit.Return? && f.exit.response.status == 401 ==> f.exit == Return(InvalidCredentials)
    ensures NoRows(w) ==> forall c | c in f.calls :: !c.Compare? && !c.CreateSession?
    // 200: only after createSession returned, with the first row's projection
    ensures f.exit.Return? && f.exit.response.status == 200 ==>
              && FirstRow(w).Some?
              && w.compare(w.body.value.password, FirstRow(w).value.passwordHash) == Ok(true)
              && f.exit.response == Response(200, LoggedIn(ViewOf(FirstRow(w).value)))
              && CreateSession(ClaimsOf(FirstRow(w).value)) in f.calls
              && w.createSession(ClaimsOf(FirstRow(w).value)).Ok?
    // the connection is assigned exactly when getConnection returned
    ensures f.acquired <==> Connect in f.calls && w.connect.Ok?
    ensures Close !in f.calls
  {
    match w.body
    case Throw(m) => Flow(Raise(m), [ReadBody], [], false)
    case Ok(body) =>
      var email, password := body.email, body.password;
      var log1 := [Attempt(email)];
      if !Truthy(email) || !Truthy(password) then
        Flow(Return(MissingFields), [ReadBody], log1, false)
      else
        match w.connect
        case Throw(m) => Flow(Raise(m), [ReadBody, Connect], log1, false)
        case Ok(_) =>
          var calls2 := [ReadBody, Connect, Query(email)];
          match w.findRows(email)
          case Throw(m) => Flow(Raise(m), calls2, log1, true)
          case Ok(rows) =>
            if rows.None? || |rows.value| == 0 then
              Flow(Return(InvalidCredentials), calls2, log1 + [NoUser(email)], true)
            else
              var user := rows.value[0];
              var log3 := log1 + [UserFound(user.(passwordHash := Masked))];
              var calls3 := calls2 + [Compare(password, user.passwordHash)];
              match w.compare(password, user.passwordHash)
              case Throw(m) => Flow(Raise(m), calls3, log3, true)
              case Ok(isPasswordValid) =>
                if !isPasswordValid then
                  Flow(Return(InvalidCredentials), calls3, log3 + [InvalidPassword(email)], true)
                else
                  var sessionData := ClaimsOf(user);
                  var calls4 := calls3 + [CreateSession(sessionData)];
                  match w.createSession(sessionData)
                  case Throw(m) => Flow(Raise(m), calls4, log3, true)
                  case Ok(_) =>
                    Flow(Return(Response(200, LoggedIn(ViewOf(user)))), calls4,
                         log3 + [SessionCreated(email)], true)
  }

  /** `createSession` is called at most once, only right after bcrypt accepted the request's
      password against the first row's hash, and with that row's claims. */
  lemma SessionFollowsAcceptedPassword(w: World)
    ensures SessionOnlyAfterMatch(w, TryBlock(w).calls)
  {
  }

  /** The `try` block logs only the request's email and the first row with its hash masked. */
  lemma TryBlockLogDisclosesNoSecret(w: World)
    ensures LogDisclosesNoSecret(w, TryBlock(w).log)
  {
  }

  /** The `catch` and `finally` blocks applied to the state the `try` block left. */
  function Settle(w: World, f: Flow): (o: Outcome)
    // catch: an exception becomes 500 with its message; a return is kept as it is,
    // whatever closing the connection does
    ensures f.exit.Return? ==> o.response == f.exit.response
    ensures f.exit.Raise? ==> o.response == Response(500, InternalError(InternalErrorMessage, f.exit.message))
    // finally: an assigned connection is closed once, as the very last call; close failures
    // only add to the log
    ensures o.acquired == f.acquired
    ensures o.closeCount == if f.acquired then 1 else 0
    ensures o.calls == if f.acquired then f.calls + [Close] else f.calls
    ensures |f.log| <= |o.log| && o.log[..|f.log|] == f.log
    ensures forall e | e in o.log[|f.log|..] :: e.LoginError? || e.CloseError?
  {
    var (response, log) :=
      match f.exit
      case Return(r) => (r, f.log)
      case Raise(m) => (Response(500, InternalError(InternalErrorMessage, m)), f.log + [LoginError(m)]);
    if f.acquired then
      var closeLog := match w.close case Ok(_) => [] case Throw(m) => [CloseError(m)];
      Outcome(response, f.calls + [Close], log + closeLog, true, 1)
    else
      Outcome(response, f.calls, log, false, 0)
  }

  /** The whole handler. */
  function Handle(w: World): (o: Outcome)
    ensures o.response.status in {200, 400, 401, 500}
    ensures o.response.status == 400 <==> MissingField(w)
    ensures o.response.status == 400 ==>
              o.response == MissingFields && !o.acquired && o.calls == [ReadBody]
    ensures o.response.status == 401 ==> o.response == InvalidCredentials
    ensures o.response.status == 500 <==> o.response.body.InternalError?
    ensures o.response.status == 500 <==>
              exists i | 0 <= i < |o.calls| && o.calls[i] != Close :: Threw(w, o.calls[i]).Some?
    ensures o.closeCount == if o.acquired then 1 else 0
    ensures o.acquired ==> o.calls != [] && o.calls[|o.calls| - 1] == Close
    ensures SessionOnlyAfterMatch(w, o.calls)
  {
    var f := TryBlock(w);
    var o := Settle(w, f);
    SessionFollowsAcceptedPassword(w);
    SessionOnlyAfterMatchThenClose(w, f.calls);
    assert forall i | 0 <= i < |o.calls| && o.calls[i] != Close :: i < |f.calls| && o.calls[i] == f.calls[i];
    assert f.exit.Raise? ==> o.calls[|f.calls| - 1] != Close && Threw(w, o.calls[|f.calls| - 1]).Some?;
    o
  }

  // ---------------------------------------------------------------------------
  // Properties relating runs

  /** An unknown email and a wrong password get the same answer, and neither a session. */
  lemma UnknownEmailLooksLikeWrongPassword(w1: World, w2: World)
    requires NoRows(w1) && WrongPassword(w2)
    ensures Handle(w1).response == Handle(w2).response == InvalidCredentials
    ensures forall c | c in Handle(w1).calls :: !c.CreateSession?
    ensures forall c | c in Handle(w2).calls :: !c.CreateSession?
  {
  }

  /** When the row is found, bcrypt accepts and the session is created, the answer is 200
      with the row's projection, and the calls are exactly the six of the happy path. */
  lemma SuccessfulLogin(w: World)
    requires FirstRow(w).Some?
    requires w.compare(w.body.value.password, FirstRow(w).value.passwordHash) == Ok(true)
    requires w.createSession(ClaimsOf(FirstRow(w).value)).Ok?
    ensures Handle(w).response == Response(200, LoggedIn(ViewOf(FirstRow(w).value)))
    ensures Handle(w).response.body.user.role == FirstRow(w).value.role
    ensures Handle(w).calls == [ReadBody, Connect, Query(w.body.value.email),
                                Compare(w.body.value.password, FirstRow(w).value.passwordHash),
                                CreateSession(ClaimsOf(FirstRow(w).value)), Close]
    ensures Handle(w).closeCount == 1
  {
  }

  /** A failing `connection.close()` changes nothing but the log. */
  lemma CloseFailureIsSwallowed(w: World, message: string)
    ensures Handle(w.(close := Throw(message))).response == Handle(w.(close := Ok(()))).response
    ensures Handle(w.(close := Throw(message))).calls == Handle(w.(close := Ok(()))).calls
  {
  }

  /** The log and the answer depend on the password only through bcrypt's verdict: two
      passwords that are both truthy (or both falsy) and that bcrypt judges alike against
      every hash leave the same log and get the same answer. */
  lemma LogIgnoresPassword(w: World, email: JsValue, p1: JsValue, p2: JsValue)
    requires Truthy(p1) == Truthy(p2)
    requires forall h :: w.compare(p1, h) == w.compare(p2, h)
    ensures Handle(w.(body := Ok(Body(email, p1)))).log == Handle(w.(body := Ok(Body(email, p2)))).log
    ensures Handle(w.(body := Ok(Body(email, p1)))).response
         == Handle(w.(body := Ok(Body(email, p2)))).response
  {
    var w1, w2 := w.(body := Ok(Body(email, p1))), w.(body := Ok(Body(email, p2)));
    var f1, f2 := TryBlock(w1), TryBlock(w2);
    if FirstRow(w1).Some? {
      var hash := FirstRow(w1).value.passwordHash;
      assert w.compare(p1, hash) == w.compare(p2, hash);
    }
    assert f1.exit == f2.exit && f1.log == f2.log && f1.acquired == f2.acquired;
  }

  // ---------------------------------------------------------------------------
  // The handler as the source runs it: step by step, on a connection and a console

  /** The handler's `connection` variable: assigned once, closed in `finally`. */
  class ConnectionState {
    var acquired: bool
    var closeCount: nat

    constructor ()
      ensures !acquired && closeCount == 0
    {
      acquired := false;
      closeCount := 0;
    }
  }

  /** The server console, an append-only sequence of entries. */
  class Console {
    var entries: seq<LogEntry>

    constructor ()
      ensures entries == []
    {
      entries := [];
    }

    method Log(e: LogEntry)
      modifies this
      ensures entries == old(entries) + [e]
    {
      entries := entries + [e];
    }
  }

  /** The `try` block, lines 10-62, with its early returns. */
  method TryBody(w: World, connection: ConnectionState, console: Console)
    returns (exit: Exit, calls: seq<Call>)
    requires !connection.acquired && connection.closeCount == 0
    modifies connection, console
    ensures exit == TryBlock(w).exit && calls == TryBlock(w).calls
    ensures console.entries == old(console.entries) + TryBlock(w).log
    ensures connection.acquired == TryBlock(w).acquired && connection.closeCount == 0
  {
    calls := [ReadBody];
    if w.body.Throw? {
      return Raise(w.body.message), calls;
    }
    var email, password := w.body.value.email, w.body.value.password;
    console.Log(Attempt(email));

    if !Truthy(email) || !Truthy(password) {
      return Return(MissingFields), calls;
    }

    calls := calls + [Connect];
    if w.connect.Throw? {
      return Raise(w.connect.message), calls;
    }
    connection.acquired := true;

    calls := calls + [Query(email)];
    var result := w.findRows(email);
    if result.Throw? {
      return Raise(result.message), calls;
    }

    if result.value.None? || |result.value.value| == 0 {
      console.Log(NoUser(email));
      return Return(InvalidCredentials), calls;
    }

    var user := result.value.value[0];
    console.Log(UserFound(user.(passwordHash := Masked)));

    calls := calls + [Compare(password, user.passwordHash)];
    var isPasswordValid := w.compare(password, user.passwordHash);
    if isPasswordValid.Throw? {
      return Raise(isPasswordValid.message), calls;
    }

    if !isPasswordValid.value {
      console.Log(InvalidPassword(email));
      return Return(InvalidCredentials), calls;
    }

    var sessionData := ClaimsOf(user);
    calls := calls + [CreateSession(sessionData)];
    var session := w.createSession(sessionData);
    if session.Throw? {
      return Raise(session.message), calls;
    }

    var responseUser := ViewOf(user);
    console.Log(SessionCreated(email));
    return Return(Response(200, LoggedIn(responseUser))), calls;
  }

  /** The `catch` and `finally` blocks, lines 64-77, run on the state `f` the `try` block left:
      the console already holds `f.log`. */
  method CatchFinally(w: World, ghost f: Flow, exit: Exit, calls: seq<Call>,
                      connection: ConnectionState, console: Console)
    returns (response: Response, calls': seq<Call>)
    requires exit == f.exit && calls == f.calls
    requires connection.acquired == f.acquired && connection.closeCount == 0
    modifies connection, console
    ensures response == Settle(w, f).response && calls' == Settle(w, f).calls
    ensures console.entries == old(console.entries) + Settle(w, f).log[|f.log|..]
    ensures connection.acquired == f.acquired && connection.closeCount == Settle(w, f).closeCount
  {
    calls' := calls;
    match exit {
      case Return(r) =>
        response := r;
      case Raise(message) =>
        console.Log(LoginError(message));
        response := Response(500, InternalError(InternalErrorMessage, message));
    }

    if connection.acquired {
      calls' := calls' + [Close];
      connection.closeCount := connection.closeCount + 1;
      if w.close.Throw? {
        console.Log(CloseError(w.close.message));
      }
    }
  }

  /** `POST`: the `try` block, then `catch`, then `finally`. */
  method Post(w: World, connection: ConnectionState, console: Console)
    returns (response: Response, calls: seq<Call>)
    requires !connection.acquired && connection.closeCount == 0
    modifies connection, console
    ensures response == Handle(w).response && calls == Handle(w).calls
    ensures console.entries == old(console.entries) + Handle(w).log
    ensures connection.acquired == Handle(w).acquired
    ensures connection.closeCount == if connection.acquired then 1 else 0
  {
    ghost var f := TryBlock(w);
    ghost var o := Settle(w, f);
    assert Handle(w) == o;
    var exit, tried := TryBody(w, connection, console);
    response, calls := CatchFinally(w, f, exit, tried, connection, console);
    assert o.log == f.log + o.log[|f.log|..];
  }
}
