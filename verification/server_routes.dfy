/**
 * The Express handlers of server/server-routes.js. Each handler is a function
 * from the request and the settled outcomes of its awaited store or identity
 * provider calls to an `Exchange`: the calls it made, in order, and what became
 * of the response object (`res.status(...).json(...)` / `res.send(...)`).
 */
module ServerRoutes {
  import opened Wrappers
  import opened Urls
  import opened Todos

  /** The parts of an Express request the handlers read; a missing route parameter or body field is `None`. */
  datatype Request = Request(protocol: string, host: string, params: map<string, string>, body: RequestBody)

  datatype RequestBody = RequestBody(
    title: Option<string>, order: Option<int>, status: Option<int>,
    name: Option<string>, email: Option<string>, password: Option<string>,
    userId: Option<string>, todoId: Option<string>)

  /** `req.params[key]`. */
  function Param(req: Request, key: string): Option<string> {
    if key in req.params then Some(req.params[key]) else None
  }

  /** A call a handler makes on a query module or on the identity provider, with its arguments. */
  datatype Call =
    | AllTodos
    | FetchTodo(id: Option<string>)
    | InsertTodo(title: Option<string>, order: Option<int>)
    | UpdateTodo(id: Option<string>, fields: RequestBody)
    | ClearTodos
    | RemoveTodo(id: Option<string>)
    | AuthCreateUser(email: Option<string>, password: Option<string>, displayName: Option<string>)
    | InsertUser(name: Option<string>, email: Option<string>)
    | AllUsers
    | FetchAssignment(id: Option<string>)
    | InsertAssignment(userId: Option<string>, todoId: Option<string>)
    | RemoveAssignment(userId: Option<string>, todoId: Option<string>)

  /** How an awaited call settled: resolved with a value, or rejected with an error whose message is given. */
  datatype Answer<T> = Resolved(value: T) | Rejected(message: string)

  /** Response bodies, one alternative per JSON shape the handlers send. */
  datatype Body =
    | OneTodo(todo: PublicTodo)
    | TodoArray(todos: seq<PublicTodo>)
    | StoredTodo(row: Option<Row>)
    | Registered(message: string, user: UserRow)
    | Assigned(message: string, assignee: AssignmentRow)
    | Unassigned(message: string, removed: Option<AssignmentRow>)
    | Assignees(users: Option<AssignmentRow>)
    | UserList(allUsers: seq<UserRow>)
    | Error(error: string)
    | Text(text: string)

  /** What became of the response: sent once, never sent, or the handler's promise rejected with a message. */
  datatype Outcome = Sent(status: int, body: Body) | NoResponse | Threw(cause: string)

  datatype Exchange = Exchange(calls: seq<Call>, outcome: Outcome)

  /** The TypeError `createToDo` raises when the store hands it `undefined` instead of a row. */
  const UndefinedRowError := "Cannot read properties of undefined (reading 'id')"

  const DefaultStatus := 200

  // ---------------------------------------------------------------- createToDo

  /** `createToDo(req, data)`: the public form of a row, addressed from the serving protocol and host. */
  function CreateToDo(req: Request, data: Row): (t: PublicTodo)
    ensures t.title == data.title && t.order == data.order
    ensures t.status == (if TruthyInt(data.status) then data.status.value else 0)
    ensures t.url == TodoUrl(req.protocol, req.host, DecimalString(data.id))
  {
    PublicTodo(data.title, data.order, data.status.GetOr(0), TodoUrl(req.protocol, req.host, DecimalString(data.id)))
  }

  /** The id is recoverable from the url with `split("/")[3]` and from nowhere else in the todo. */
  lemma CreatedUrlNamesRow(req: Request, data: Row, other: Row)
    requires '/' !in req.protocol && '/' !in req.host
    ensures IdFromUrl(CreateToDo(req, data).url) == Some(DecimalString(data.id))
    ensures other == data.(id := other.id) ==>
      CreateToDo(req, other) == CreateToDo(req, data).(url := CreateToDo(req, other).url)
  {
    NumericIdRoundTrip(req.protocol, req.host, data.id);
  }

  /** A freshly inserted row carries the column default 0 (or lacks the field) and is published with status 0. */
  lemma FreshTodoHasStatusZero(req: Request, data: Row)
    requires data.status == Some(0) || data.status == None
    ensures CreateToDo(req, data).status == 0
  {
  }

  /** `rows.map(_.curry(createToDo)(req))`. */
  function ShapeAll(req: Request, rows: seq<Row>): (todos: seq<PublicTodo>)
    ensures |todos| == |rows|
    ensures forall i :: 0 <= i < |rows| ==> todos[i] == CreateToDo(req, rows[i])
    decreases |rows|
  {
    if rows == [] then [] else [CreateToDo(req, rows[0])] + ShapeAll(req, rows[1..])
  }

  /** `createToDo` applied to what a single-row query resolved with: `undefined` makes it throw. */
  function ShapeOne(req: Request, row: Option<Row>): (o: Outcome)
    ensures row.Some? ==> o == Sent(DefaultStatus, OneTodo(CreateToDo(req, row.value)))
    ensures row.None? ==> o == Threw(UndefinedRowError)
  {
    match row
    case Some(r) => Sent(DefaultStatus, OneTodo(CreateToDo(req, r)))
    case None => Threw(UndefinedRowError)
  }

  // ---------------------------------------------------------------- todo handlers

  /** GET / */
  function GetAllTodos(req: Request, rows: Answer<seq<Row>>): (x: Exchange)
    ensures x.calls == [AllTodos]
    ensures rows.Rejected? ==> x.outcome == Threw(rows.message)
    ensures rows.Resolved? ==> x.outcome.Sent? && x.outcome.status == 200 && x.outcome.body.TodoArray?
    ensures rows.Resolved? ==> x.outcome.body.todos == ShapeAll(req, rows.value)
  {
    match rows
    case Resolved(rs) => Exchange([AllTodos], Sent(DefaultStatus, TodoArray(ShapeAll(req, rs))))
    case Rejected(m) => Exchange([AllTodos], Threw(m))
  }

  /** GET /:id -- the row as the store returned it, without a url; nothing at all for a missing id. */
  function GetTodo(req: Request, row: Answer<Option<Row>>): (x: Exchange)
    ensures x.calls == [FetchTodo(Param(req, "id"))]
    ensures row.Resolved? ==> x.outcome == Sent(200, StoredTodo(row.value))
    ensures row.Rejected? ==> x.outcome == Threw(row.message)
  {
    var calls := [FetchTodo(Param(req, "id"))];
    match row
    case Resolved(r) => Exchange(calls, Sent(DefaultStatus, StoredTodo(r)))
    case Rejected(m) => Exchange(calls, Threw(m))
  }

  /** POST / -- only `title` and `order` reach the store. */
  function PostTodo(req: Request, created: Answer<Option<Row>>): (x: Exchange)
    ensures x.calls == [InsertTodo(req.body.title, req.body.order)]
    ensures created.Resolved? && created.value.Some? ==>
      x.outcome == Sent(200, OneTodo(CreateToDo(req, created.value.value)))
    ensures created.Resolved? && created.value.None? ==> x.outcome == Threw(UndefinedRowError)
    ensures created.Rejected? ==> x.outcome == Threw(created.message)
  {
    var calls := [InsertTodo(req.body.title, req.body.order)];
    match created
    case Resolved(r) => Exchange(calls, ShapeOne(req, r))
    case Rejected(m) => Exchange(calls, Threw(m))
  }

  /** A `status` in the POST body changes nothing: not the call, not the response. */
  lemma PostIgnoresStatus(req: Request, status: Option<int>, created: Answer<Option<Row>>)
    ensures PostTodo(req.(body := req.body.(status := status)), created) == PostTodo(req, created)
  {
  }

  /** PATCH /:id -- the whole body is handed to the store as the partial update. */
  function PatchTodo(req: Request, patched: Answer<Option<Row>>): (x: Exchange)
    ensures x.calls == [UpdateTodo(Param(req, "id"), req.body)]
    ensures patched.Resolved? && patched.value.Some? ==>
      x.outcome == Sent(200, OneTodo(CreateToDo(req, patched.value.value)))
    ensures patched.Resolved? && patched.value.None? ==> x.outcome.Threw?
    ensures patched.Rejected? ==> x.outcome == Threw(patched.message)
  {
    var calls := [UpdateTodo(Param(req, "id"), req.body)];
    match patched
    case Resolved(r) => Exchange(calls, ShapeOne(req, r))
    case Rejected(m) => Exchange(calls, Threw(m))
  }

  /** DELETE / -- the removed rows, shaped. */
  function DeleteAllTodos(req: Request, removed: Answer<seq<Row>>): (x: Exchange)
    ensures x.calls == [ClearTodos]
    ensures removed.Rejected? ==> x.outcome == Threw(removed.message)
    ensures removed.Resolved? ==> x.outcome.Sent? && x.outcome.status == 200 && x.outcome.body.TodoArray?
    ensures removed.Resolved? ==> x.outcome.body.todos == ShapeAll(req, removed.value)
  {
    match removed
    case Resolved(rs) => Exchange([ClearTodos], Sent(DefaultStatus, TodoArray(ShapeAll(req, rs))))
    case Rejected(m) => Exchange([ClearTodos], Threw(m))
  }

  /** The clear-then-list scenario, as an instance: once the table is empty, listing answers `[]`. */
  lemma ClearThenList(req: Request)
    ensures GetAllTodos(req, Resolved([])).outcome == Sent(200, TodoArray([]))
  {
  }

  /** DELETE /:id -- the removed row, shaped. */
  function DeleteTodo(req: Request, removed: Answer<Option<Row>>): (x: Exchange)
    ensures x.calls == [RemoveTodo(Param(req, "id"))]
    ensures removed.Resolved? && removed.value.Some? ==>
      x.outcome == Sent(200, OneTodo(CreateToDo(req, removed.value.value)))
    ensures removed.Resolved? && removed.value.None? ==> x.outcome.Threw?
    ensures removed.Rejected? ==> x.outcome == Threw(removed.message)
  {
    var calls := [RemoveTodo(Param(req, "id"))];
    match removed
    case Resolved(r) => Exchange(calls, ShapeOne(req, r))
    case Rejected(m) => Exchange(calls, Threw(m))
  }

  // ---------------------------------------------------------------- users and assignments

  /**
   * POST /create-user. `uid` is what the identity provider's `createUser` settled with
   * (the credential's uid, `None` when it has none); `inserted` is what `users.create`
   * settles with if it is called.
   */
  function CreateUser(req: Request, uid: Answer<Option<string>>, inserted: Answer<UserRow>): (x: Exchange)
    ensures |x.calls| >= 1 && x.calls[0] == AuthCreateUser(req.body.email, req.body.password, req.body.name)
    ensures InsertUser(req.body.name, req.body.email) in x.calls <==> uid.Resolved? && TruthyString(uid.value)
    ensures |x.calls| <= 2 && (|x.calls| == 2 ==> x.calls[1] == InsertUser(req.body.name, req.body.email))
    ensures uid.Rejected? ==> x.outcome == Sent(400, Error(uid.message))
    ensures uid.Resolved? && !TruthyString(uid.value) ==> x.outcome == NoResponse
    ensures uid.Resolved? && TruthyString(uid.value) && inserted.Rejected? ==>
      x.outcome == Sent(400, Error(inserted.message))
    ensures uid.Resolved? && TruthyString(uid.value) && inserted.Resolved? ==>
      x.outcome == Sent(201, Registered("User registered successfully", inserted.value))
    ensures x.outcome.Sent? && x.outcome.status == 201 <==>
      uid.Resolved? && TruthyString(uid.value) && inserted.Resolved?
    ensures !x.outcome.Threw?
  {
    var auth := [AuthCreateUser(req.body.email, req.body.password, req.body.name)];
    match uid
    case Rejected(m) => Exchange(auth, Sent(400, Error(m)))
    case Resolved(u) =>
      if TruthyString(u) then
        var calls := auth + [InsertUser(req.body.name, req.body.email)];
        match inserted
        case Resolved(row) => Exchange(calls, Sent(201, Registered("User registered successfully", row)))
        case Rejected(m) => Exchange(calls, Sent(400, Error(m)))
      else Exchange(auth, NoResponse)
  }

  /** GET /todos/:todo_id/assignees -- the todo id is used to look up an assignment by its own `id`. */
  function GetAssignedUsers(req: Request, row: Answer<Option<AssignmentRow>>): (x: Exchange)
    ensures x.calls == [FetchAssignment(Param(req, "todo_id"))]
    ensures row.Resolved? ==> x.outcome == Sent(201, Assignees(row.value))
    ensures row.Rejected? ==> x.outcome == Threw(row.message)
  {
    var calls := [FetchAssignment(Param(req, "todo_id"))];
    match row
    case Resolved(r) => Exchange(calls, Sent(201, Assignees(r)))
    case Rejected(m) => Exchange(calls, Threw(m))
  }

  const TodoNotFound := Error("Todo not found")

  /** POST /assign-todo */
  function AssignTodo(req: Request, inserted: Answer<AssignmentRow>): (x: Exchange)
    ensures x.calls == [InsertAssignment(req.body.userId, req.body.todoId)]
    ensures x.outcome.Sent? && (x.outcome.status == 201 <==> inserted.Resolved?)
    ensures inserted.Resolved? ==> x.outcome.body == Assigned("Todo assigned successfully", inserted.value)
    ensures inserted.Rejected? ==> x.outcome == Sent(404, TodoNotFound)
  {
    var calls := [InsertAssignment(req.body.userId, req.body.todoId)];
    match inserted
    case Resolved(row) => Exchange(calls, Sent(201, Assigned("Todo assigned successfully", row)))
    case Rejected(_) => Exchange(calls, Sent(404, TodoNotFound))
  }

  /** DELETE /delete-assign/:user_id/:todo_id -- succeeds (201) even when no row matched. */
  function DeleteAssign(req: Request, removed: Answer<Option<AssignmentRow>>): (x: Exchange)
    ensures x.calls == [RemoveAssignment(Param(req, "user_id"), Param(req, "todo_id"))]
    ensures x.outcome.Sent? && (x.outcome.status == 201 <==> removed.Resolved?)
    ensures removed.Resolved? ==> x.outcome.body == Unassigned("Todo assignee deleted successfully", removed.value)
    ensures removed.Rejected? ==> x.outcome == Sent(404, TodoNotFound)
  {
    var calls := [RemoveAssignment(Param(req, "user_id"), Param(req, "todo_id"))];
    match removed
    case Resolved(r) => Exchange(calls, Sent(201, Unassigned("Todo assignee deleted successfully", r)))
    case Rejected(_) => Exchange(calls, Sent(404, TodoNotFound))
  }

  /** Assignment failures are not told apart: whatever the store's error, the response is the same. */
  lemma AssignmentFailuresLookAlike(req: Request, m1: string, m2: string)
    ensures AssignTodo(req, Rejected(m1)) == AssignTodo(req, Rejected(m2))
    ensures DeleteAssign(req, Rejected(m1)) == DeleteAssign(req, Rejected(m2))
  {
  }

  /** GET /users */
  function GetUsers(req: Request, users: Answer<seq<UserRow>>): (x: Exchange)
    ensures x.calls == [AllUsers]
    ensures users.Resolved? ==> x.outcome == Sent(201, UserList(users.value))
    ensures users.Rejected? ==> x.outcome == Threw(users.message)
  {
    match users
    case Resolved(us) => Exchange([AllUsers], Sent(201, UserList(us)))
    case Rejected(m) => Exchange([AllUsers], Threw(m))
  }

  // ---------------------------------------------------------------- error reporting

  /** The plain-text body sent when a wrapped handler throws. */
  function FailureText(message: string): string {
    "Opps! " + message + "."
  }

  /** `addErrorReporting(func, message)` applied to what `func` did with one request. */
  function AddErrorReporting(inner: Exchange, message: string): (x: Exchange)
    ensures x.calls == inner.calls
    ensures !x.outcome.Threw?
    ensures !inner.outcome.Threw? ==> x.outcome == inner.outcome
    ensures inner.outcome.Threw? ==> x.outcome == Sent(500, Text(FailureText(message)))
  {
    match inner.outcome
    case Threw(_) => Exchange(inner.calls, Sent(500, Text(FailureText(message))))
    case _ => inner
  }

  /** Wrapping twice adds nothing to wrapping once; the cause of a failure never reaches the client. */
  lemma ErrorReportingIdempotent(inner: Exchange, message: string, outer: string, cause: string)
    ensures AddErrorReporting(AddErrorReporting(inner, message), outer) == AddErrorReporting(inner, message)
    ensures AddErrorReporting(Exchange(inner.calls, Threw(cause)), message).outcome.body.text == FailureText(message)
  {
  }

  /** A patch or delete of an id the store does not have ends, once wrapped, in a 500. */
  lemma MissingRowIsServerError(req: Request)
    ensures AddErrorReporting(PatchTodo(req, Resolved(None)), "Could not patch todo").outcome ==
      Sent(500, Text("Opps! Could not patch todo."))
    ensures AddErrorReporting(DeleteTodo(req, Resolved(None)), "Could not delete todo").outcome ==
      Sent(500, Text("Opps! Could not delete todo."))
  {
    assert FailureText("Could not patch todo") == "Opps! Could not patch todo.";
    assert FailureText("Could not delete todo") == "Opps! Could not delete todo.";
  }

  // ---------------------------------------------------------------- exports

  datatype Handler =
    | GetAllTodosHandler | GetTodoHandler | PostTodoHandler | PatchTodoHandler
    | DeleteAllTodosHandler | DeleteTodoHandler | CreateUserHandler | GetAssignedUsersHandler
    | AssignTodoHandler | DeleteAssignHandler | GetUsersHandler

  /** An entry of `toExport`: first `{method, errorMessage}` (`handler` here), then the wrapped handler. */
  datatype Export = Entry(handler: Handler, errorMessage: string) | Reporting(handler: Handler, errorMessage: string)

  const ToExport: map<string, Export> := map[
    "getAllTodos" := Entry(GetAllTodosHandler, "Could not fetch all todos"),
    "getTodo" := Entry(GetTodoHandler, "Could not fetch todo"),
    "postTodo" := Entry(PostTodoHandler, "Could not post todo"),
    "patchTodo" := Entry(PatchTodoHandler, "Could not patch todo"),
    "deleteAllTodos" := Entry(DeleteAllTodosHandler, "Could not delete all todos"),
    "deleteTodo" := Entry(DeleteTodoHandler, "Could not delete todo"),
    "createUser" := Entry(CreateUserHandler, "Could not create user"),
    "getAssignedUsers" := Entry(GetAssignedUsersHandler, "Could not get assigned users"),
    "assignTodo" := Entry(AssignTodoHandler, "Could not assign todo"),
    "deleteAssign" := Entry(DeleteAssignHandler, "Could not delete assign"),
    "getUsers" := Entry(GetUsersHandler, "Could not retrieve users")
  ]

  /** `addErrorReporting(entry.method, entry.errorMessage)`. */
  function Wrap(e: Export): Export {
    Reporting(e.handler, e.errorMessage)
  }

  /** The settled outcome of every store or identity-provider call a handler may await. */
  datatype StoreAnswers = StoreAnswers(
    rows: Answer<seq<Row>>,
    row: Answer<Option<Row>>,
    uid: Answer<Option<string>>,
    insertedUser: Answer<UserRow>,
    users: Answer<seq<UserRow>>,
    insertedAssignment: Answer<AssignmentRow>,
    assignment: Answer<Option<AssignmentRow>>)

  /** Runs the handler an export entry names on one request. */
  function Handle(h: Handler, req: Request, ans: StoreAnswers): Exchange {
    match h
    case GetAllTodosHandler => GetAllTodos(req, ans.rows)
    case GetTodoHandler => GetTodo(req, ans.row)
    case PostTodoHandler => PostTodo(req, ans.row)
    case PatchTodoHandler => PatchTodo(req, ans.row)
    case DeleteAllTodosHandler => DeleteAllTodos(req, ans.rows)
    case DeleteTodoHandler => DeleteTodo(req, ans.row)
    case CreateUserHandler => CreateUser(req, ans.uid, ans.insertedUser)
    case GetAssignedUsersHandler => GetAssignedUsers(req, ans.assignment)
    case AssignTodoHandler => AssignTodo(req, ans.insertedAssignment)
    case DeleteAssignHandler => DeleteAssign(req, ans.assignment)
    case GetUsersHandler => GetUsers(req, ans.users)
  }

  /** Serving a request through an export entry. */
  function Serve(e: Export, req: Request, ans: StoreAnswers): (x: Exchange)
    ensures e.Entry? ==> x == Handle(e.handler, req, ans)
    ensures e.Reporting? ==> x == AddErrorReporting(Handle(e.handler, req, ans), e.errorMessage)
    ensures e.Reporting? ==> !x.outcome.Threw?
  {
    match e
    case Entry(h, _) => Handle(h, req, ans)
    case Reporting(h, message) => AddErrorReporting(Handle(h, req, ans), message)
  }

  /** The module's exports, rewritten in place by the wrapping loop. */
  class RouteExports {
    var routes: map<string, Export>

    constructor ()
      ensures routes == ToExport
    {
      routes := ToExport;
    }

    /** `for (let route in toExport) toExport[route] = addErrorReporting(...)` */
    method WrapAll()
      requires forall k :: k in routes ==> routes[k].Entry?
      modifies this
      ensures routes.Keys == old(routes).Keys
      ensures forall k :: k in routes ==> routes[k] == Wrap(old(routes)[k])
      ensures forall k, req, ans :: k in routes ==>
        Serve(routes[k], req, ans) == AddErrorReporting(Handle(old(routes)[k].handler, req, ans), old(routes)[k].errorMessage)
      ensures forall k, req, ans :: k in routes ==> !Serve(routes[k], req, ans).outcome.Threw?
    {
      var remaining := routes.Keys;
      while remaining != {}
        invariant remaining <= routes.Keys
        invariant routes.Keys == old(routes).Keys
        invariant forall k :: k in routes ==>
          routes[k] == if k in remaining then old(routes)[k] else Wrap(old(routes)[k])
        decreases remaining
      {
        var k :| k in remaining;
        routes := routes[k := Wrap(routes[k])];
        remaining := remaining - {k};
      }
    }
  }
}
