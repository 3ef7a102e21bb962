# Trello-like to-do app: handlers, reducer and board, modelled in Dafny

This project models the two pieces of sequential logic in a small multi-user
to-do application (an Express REST server over a relational store, and a
React dashboard):

- **Server response shaping and error classification** (`server/server-routes.js`).
  `createToDo` turns a store row into the public todo `{title, order, status, url}`,
  with status defaulting to 0 and the url built as `protocol://host/id`. Each route
  handler is a function from the request and the settled outcomes of its awaited
  store or identity-provider calls to an `Exchange`. An `Exchange` holds the calls the
  handler made, in order, and what became of the response: sent with a status and body,
  never sent, or the handler threw. `addErrorReporting` turns a thrown handler into a
  500 with the body `Opps! {message}.`. The export loop that wraps every route is a
  method of a class holding the export table, which it rewrites in place.
- **Client dashboard state** (`client/src/Dashboard.js`). `appReducer` is a total
  function over a fixed state record. It comes with a frame specification: the fields
  each action may write, and what it writes there. The event handlers are methods of
  a class holding the reducer state, and they dispatch reducer steps one after another.
  The board splits the fetched todos into three status columns, each sorted by `order`.
  The assignee list is appended to and filtered. The todo id is taken back out of its
  url with `url.split("/")[3]`.

The url built by the server and the client's `split("/")[3]` form a round trip,
proved in `Urls.UrlRoundTrip` and `Urls.NumericIdRoundTrip`. JavaScript's `split` is
modelled as `Urls.Split`, with `Urls.Join` as its inverse, proved in both directions.

Modules: `Wrappers` (Option), `Urls`, `Todos` (row and todo shapes),
`ServerRoutes`, `Dashboard`.

Some choices made in the model:

- The store and the identity provider are not modelled. Their outcomes are parameters
  (`Answer<T>`: resolved with a value, or rejected with a message). I/O in the client
  (`fetch`, `toast`, `navigate`) is not modelled either; the server's reply status is
  a parameter of each handler method.
- `server/database/todo-queries.js` is not part of this model. Its `get`, `update` and
  `delete` are taken to return the first matching row, or `undefined`, like the other
  query modules. So a PATCH or DELETE of a missing id makes `createToDo` read `id` of
  `undefined` and throw, and the wrapped route answers 500.
- `getAssignedUsers` is modelled as written. It calls `todosAssignees.get`, which
  filters on the assignment's own `id`, with the `todo_id` parameter, and it returns at
  most one row.
- The assignee select's duplicate guard reads `au.userId`. The entries the client
  builds have `user_id`, so the guard never blocks; `Dashboard.DuplicateGuardNeverBlocks`
  states this.
- Order and status are integers. A null order sorts as 0, as the subtraction in the
  comparator coerces it.

## Model

| member | source | states |
|---|---|---|
| `ServerRoutes.CreateToDo` | server/server-routes.js:8-19 | title and order are copied; status is the row's status when truthy, else 0; url is `protocol://host/` followed by the row id in decimal |
| `ServerRoutes.CreatedUrlNamesRow` | server/server-routes.js:17 | `split("/")[3]` of the built url gives back the row id; rows that differ only in id give todos that differ only in url |
| `ServerRoutes.FreshTodoHasStatusZero` | server/server-routes.js:16 | a row with the column default 0, or a row object lacking the field, is published with status 0 |
| `ServerRoutes.ShapeAll` | server/server-routes.js:23 | mapping `createToDo` over rows gives one todo per row, same length and order |
| `ServerRoutes.ShapeOne` | server/server-routes.js:31-49 | a single row is shaped; `undefined` makes `createToDo` throw |
| `ServerRoutes.GetAllTodos` | server/server-routes.js:21-24 | one store call; 200 with every row shaped in order; a store failure propagates |
| `ServerRoutes.GetTodo` | server/server-routes.js:26-29 | 200 with the row as stored (no url, raw status), or with nothing for a missing id |
| `ServerRoutes.PostTodo` | server/server-routes.js:31-34 | the store receives only title and order; 200 with the created row shaped; `undefined` from the store throws the TypeError; a rejection propagates |
| `ServerRoutes.PostIgnoresStatus` | server/server-routes.js:32 | a status in the POST body changes neither the store call nor the response |
| `ServerRoutes.PatchTodo` | server/server-routes.js:36-39 | the whole body goes to the store as the update; 200 with the patched row shaped; a missing row throws |
| `ServerRoutes.DeleteAllTodos` | server/server-routes.js:41-44 | one clear call; 200 with every removed row shaped in order |
| `ServerRoutes.ClearThenList` | server/tests/todo.test.js:43-46 | an instance of the listing contract: once the table is empty, listing answers 200 with `[]` |
| `ServerRoutes.DeleteTodo` | server/server-routes.js:46-49 | 200 with the removed row shaped; a missing row throws |
| `ServerRoutes.CreateUser` | server/server-routes.js:51-72 | the identity provider is called first; the local user is written if and only if it returned a truthy uid, and only after it; any failure is 400 with its message; a falsy uid sends nothing; after a truthy uid, a rejected insert is 400 with the insert's message and a resolved one is 201 "User registered successfully" with the inserted row |
| `ServerRoutes.GetAssignedUsers` | server/server-routes.js:74-77 | looks up an assignment by its `id` using the `todo_id` parameter; 201 with at most one row |
| `ServerRoutes.AssignTodo` | server/server-routes.js:79-92 | 201 with the inserted row exactly when the insert succeeds; any failure is 404 "Todo not found" |
| `ServerRoutes.DeleteAssign` | server/server-routes.js:94-109 | 201 exactly when the delete succeeds, even if nothing matched; any failure is 404 "Todo not found" |
| `ServerRoutes.AssignmentFailuresLookAlike` | server/server-routes.js:88-91 | the response to a failed assign or unassign does not depend on the cause |
| `ServerRoutes.GetUsers` | server/server-routes.js:111-114 | 201 with all users; a store failure propagates |
| `ServerRoutes.AddErrorReporting` | server/server-routes.js:116-127 | never throws; a handler that did not throw is passed through; one that threw becomes 500 `Opps! {message}.`; the calls made are unchanged |
| `ServerRoutes.ErrorReportingIdempotent` | server/server-routes.js:116-127 | wrapping twice is wrapping once; the failure body never carries the cause |
| `ServerRoutes.MissingRowIsServerError` | server/server-routes.js:8-11 | a patch or delete of a missing id ends, once wrapped, in 500 with the route's message |
| `ServerRoutes.Serve` | server/server-routes.js:116-160 | an unwrapped entry runs exactly the handler it names; a wrapped one runs that handler under `addErrorReporting` with the entry's message, and so never throws |
| `ServerRoutes.RouteExports.constructor` | server/server-routes.js:129-153 | the export table starts with the eleven `{method, errorMessage}` entries |
| `ServerRoutes.RouteExports.WrapAll` | server/server-routes.js:155-160 | every entry is replaced in place by its wrapped handler, keys unchanged; afterwards each route serves exactly its original handler under `addErrorReporting` with its original message, and no route throws |
| `Urls.Split` | client/src/Dashboard.js:171 | one more piece than separators; no piece contains the separator |
| `Urls.JoinSplit` | client/src/Dashboard.js:171 | joining the pieces of a split gives the string back |
| `Urls.SplitJoin` | client/src/Dashboard.js:171 | splitting a join of separator-free pieces gives the pieces back |
| `Urls.DecimalString` | server/server-routes.js:17 | a non-negative id renders as a non-empty run of decimal digits, with no leading zero |
| `Urls.DecimalRoundTrip` | server/server-routes.js:17 | reading the rendered digits back as a decimal number gives the id |
| `Urls.DecimalStringInjective` | server/server-routes.js:17 | distinct ids render as distinct url segments |
| `Urls.IdFromUrl` | client/src/Dashboard.js:194 | defined exactly when the url has at least three slashes; the id has no slash |
| `Urls.UrlRoundTrip` | server/server-routes.js:17 | for slash-free protocol, host and id, `split("/")[3]` of `protocol://host/id` is the id |
| `Urls.NumericIdRoundTrip` | client/src/Dashboard.js:300 | a decimal row id always survives that round trip |
| `Dashboard.Reduce` | client/src/Dashboard.js:27-72 | every field outside the action's write set is unchanged; SET_* writes its payload; the toggles negate their flag; TOGGLE_EDIT_MODAL also stores its payload; RESET_FORM blanks title and order and zeroes status; other types change nothing |
| `Dashboard.ReduceIsDeterminedByItsFrame` | client/src/Dashboard.js:29-56 | the reducer is the only transition that writes only its action's fields, with the action's values |
| `Dashboard.UnknownActionIsIgnored` | client/src/Dashboard.js:69-70 | an unlisted action type returns the state unchanged |
| `Dashboard.TogglesAreInvolutions` | client/src/Dashboard.js:57-66 | applying TOGGLE_MODAL or TOGGLE_DELETE_MODAL twice restores the state; TOGGLE_EDIT_MODAL twice keeps only its payload |
| `Dashboard.ResetFormIsIdempotent` | client/src/Dashboard.js:67-68 | resetting the form twice equals resetting it once |
| `Dashboard.Run` | client/src/Dashboard.js:75 | dispatching a sequence leaves every field outside the union of the actions' write sets unchanged |
| `Dashboard.TitleOrBlank` | client/src/Dashboard.js:290 | falls back to "" exactly when there is no todo or its title is falsy; otherwise it is the title |
| `Dashboard.OrderOrBlank` | client/src/Dashboard.js:291 | falls back to "" exactly when there is no todo or its order is falsy; otherwise it is the order |
| `Dashboard.StatusOrZero` | client/src/Dashboard.js:292 | the todo's status, or 0 without a todo |
| `Dashboard.EditModalLoadsForm` | client/src/Dashboard.js:288-293 | after the four dispatches the editor flag is negated, the todo selected, the form holds its values with falsy fallbacks, and nothing else changed |
| `Dashboard.WithStatus` | client/src/Dashboard.js:404 | keeps every copy of each todo of that status and nothing else |
| `Dashboard.Insert` | client/src/Dashboard.js:405 | inserting into a sorted list keeps it sorted and adds exactly one element |
| `Dashboard.SortByOrder` | client/src/Dashboard.js:405 | sorted by order and a permutation of the input |
| `Dashboard.Column` | client/src/Dashboard.js:403-405 | sorted by order, and holds every copy of each todo whose status is the column index and nothing else |
| `Dashboard.ColumnMembers` | client/src/Dashboard.js:403-404 | a todo is in column `idx` if and only if it is in the list with status `idx` |
| `Dashboard.Board` | client/src/Dashboard.js:395-405 | three columns; column `idx` is sorted by order and holds exactly the todos of status `idx` (To-Do 0, Doing 1, Done 2), with their multiplicities |
| `Dashboard.BoardPartitionsTodos` | client/src/Dashboard.js:395-405 | each copy of a todo with status 0, 1 or 2 appears once over the three columns; other statuses appear nowhere |
| `Dashboard.Assign` | client/src/Dashboard.js:206-209 | the list grows by one entry `{user_id, todo_id}` at the end and is otherwise unchanged |
| `Dashboard.Unassign` | client/src/Dashboard.js:232-234 | removes every entry of that user and keeps every other entry with its multiplicity |
| `Dashboard.UnassignKeepsOrder` | client/src/Dashboard.js:232-234 | unassigning distributes over concatenation, so the kept entries stay in order |
| `Dashboard.UnassignUndoesAssign` | client/src/Dashboard.js:206-234 | unassigning a user after assigning them gives the same list as unassigning before |
| `Dashboard.DuplicateGuardAllows` | client/src/Dashboard.js:515-520 | the guard admits exactly the non-empty selections |
| `Dashboard.DuplicateGuardNeverBlocks` | client/src/Dashboard.js:515-520 | an already assigned user passes the guard and is then listed twice |
| `Dashboard.TargetId` | client/src/Dashboard.js:329-338 | an id is targeted if and only if the todo exists, its url is non-empty, and `split("/")[3]` exists and is non-empty; the target is then that piece |
| `Dashboard.TargetOfPublishedTodo` | client/src/Dashboard.js:300 | a todo whose url the server built for row `n` is targeted as `n` |
| `Dashboard.DashboardPage.constructor` | client/src/Dashboard.js:10-25 | the page starts from `initialState` |
| `Dashboard.DashboardPage.Dispatch` | client/src/Dashboard.js:75 | the new state is the reducer applied to the old state |
| `Dashboard.DashboardPage.ToggleEditModal` | client/src/Dashboard.js:288-293 | the four dispatches in order: editor flag negated, todo selected, form loaded with fallbacks, nothing else changed |
| `Dashboard.DashboardPage.HandleAssignUser` | client/src/Dashboard.js:192-219 | nothing without a selected todo; otherwise it sends the assignment for the url's id, and on 201 it appends the entry |
| `Dashboard.DashboardPage.SelectAssignee` | client/src/Dashboard.js:513-524 | the empty selection changes nothing; any other selection behaves as `handleAssignUser`: nothing without a todo being edited, otherwise the assign request is sent and, on a 201 reply, the user is appended to the assignee list |
| `Dashboard.DashboardPage.HandleUnassignUser` | client/src/Dashboard.js:221-244 | nothing without a selected todo; otherwise it sends the unassignment, and on 201 it drops the user's entries |
| `Dashboard.DashboardPage.HandleSubmit` | client/src/Dashboard.js:246-278 | it posts title or undefined, order or undefined, and status; on success it resets the form and toggles the create modal |
| `Dashboard.DashboardPage.HandleEditSubmit` | client/src/Dashboard.js:327-368 | nothing without a target id; otherwise it patches with title, `Number(order)` and status, and on 200 it closes the editor, clears the selection and resets the form |
| `Dashboard.DashboardPage.HandleDelete` | client/src/Dashboard.js:295-325 | nothing without a target id; otherwise it deletes it, and on success it closes the dialog and clears the selection |

## Left out

- The database and the Knex query modules, including `server/database/todo-queries.js`, which is not part of this model. The store is an abstract outcome. Foreign-key cascades and column defaults belong to the database.
- Firebase: the identity provider's `createUser` is an abstract outcome (a uid or a rejection). `onAuthStateChanged`, `signOut` and the login page are foreign calls.
- Dashboard.DashboardPage.HandleSubmit, Dashboard.DashboardPage.HandleEditSubmit, Dashboard.DashboardPage.HandleDelete: each calls `fetchTodos` after success, which first dispatches `SET_LAST_REQUEST` with "GET at /"; that write to `lastRequest` is not in their new state, because `fetchTodos` is not part of this model.
- Client I/O: `fetch`, `toast`, `navigate`, `useEffect`, `fetchTodos`, `fetchUsers`, the assignee fetch effect and the JSX rendering, including the inline button handlers inside the modals. Each reply a handler awaits is a parameter instead.
- Asynchrony in the client: the model reads the state once; the source's handlers read their render-time snapshot, so races with pending requests are not modelled.
- Strict equality between mixed id types: user ids are strings throughout. The numeric `user_id` of rows fetched from the server is not told apart from the string ids taken from the select.
- The shape `getAssignedUsers` hands to the client (one row or nothing, not an array). The client's list of assignees is modelled as a list of `{user_id, todo_id}` entries.
- Logging (`console.log`, `console.error`) and the contents of the logged cause.
- Express route registration and path matching (`server/server.js`), and the React bootstrap files.
- `Number(...)` conversions and floating-point order keys: order and status are integers, and the form's order is blank or a number.
- Dashboard.SortByOrder: its contract states sortedness and permutation but not stability, although the modelled insertion keeps equal keys in input order, as `Array.prototype.sort` does.
