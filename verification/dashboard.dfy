/**
 * The client dashboard of client/src/Dashboard.js: the reducer over one fixed
 * state record, the board's three status columns, the assignee list updates,
 * and the event handlers that dispatch reducer steps one after another.
 */
module Dashboard {
  import opened Wrappers
  import opened Urls
  import opened Todos

  /** The order form field: `""` or a number. */
  datatype FormOrder = Blank | Entered(n: int)

  /** An entry of `assignedUsers` as the client builds it: `{user_id, todo_id}`. */
  datatype Assignee = Assignee(userId: string, todoId: Option<string>)

  datatype AppState = AppState(
    lastRequest: string,
    id: string,
    title: string,
    order: FormOrder,
    status: int,
    response: seq<PublicTodo>,
    user: Option<string>,
    users: seq<UserRow>,
    assignedUsers: seq<Assignee>,
    showModal: bool,
    showDeleteModal: bool,
    showEditModal: bool,
    todoToEdit: Option<PublicTodo>,
    todoToDelete: Option<PublicTodo>)

  const InitialState := AppState("", "", "", Blank, 0, [], None, [], [], false, false, false, None, None)

  /** The dispatched actions; `Other` is any `type` the reducer's switch does not list. */
  datatype Action =
    | SetLastRequest(lastRequest: string)
    | SetId(id: string)
    | SetTitle(title: string)
    | SetOrder(order: FormOrder)
    | SetStatus(status: int)
    | SetResponse(response: seq<PublicTodo>)
    | SetUser(user: Option<string>)
    | SetUsers(users: seq<UserRow>)
    | SetShowModal(showModal: bool)
    | SetShowDeleteModal(showDeleteModal: bool)
    | SetShowEditModal(showEditModal: bool)
    | SetTodoToEdit(todoToEdit: Option<PublicTodo>)
    | SetTodoToDelete(todoToDelete: Option<PublicTodo>)
    | SetAssignedUsers(assignedUsers: seq<Assignee>)
    | ToggleModal
    | ToggleDeleteModal
    | ToggleEditModal(todo: Option<PublicTodo>)
    | ResetForm
    | Other(kind: string)

  // ---------------------------------------------------------------- frames

  /** The fields of the state record. */
  datatype Field =
    | LastRequestField | IdField | TitleField | OrderField | StatusField | ResponseField | UserField
    | UsersField | AssignedUsersField | ShowModalField | ShowDeleteModalField | ShowEditModalField
    | TodoToEditField | TodoToDeleteField

  /** Every field outside `changed` is the same in `s` and `t`. */
  predicate SameExcept(s: AppState, t: AppState, changed: set<Field>) {
    && (LastRequestField !in changed ==> s.lastRequest == t.lastRequest)
    && (IdField !in changed ==> s.id == t.id)
    && (TitleField !in changed ==> s.title == t.title)
    && (OrderField !in changed ==> s.order == t.order)
    && (StatusField !in changed ==> s.status == t.status)
    && (ResponseField !in changed ==> s.response == t.response)
    && (UserField !in changed ==> s.user == t.user)
    && (UsersField !in changed ==> s.users == t.users)
    && (AssignedUsersField !in changed ==> s.assignedUsers == t.assignedUsers)
    && (ShowModalField !in changed ==> s.showModal == t.showModal)
    && (ShowDeleteModalField !in changed ==> s.showDeleteModal == t.showDeleteModal)
    && (ShowEditModalField !in changed ==> s.showEditModal == t.showEditModal)
    && (TodoToEditField !in changed ==> s.todoToEdit == t.todoToEdit)
    && (TodoToDeleteField !in changed ==> s.todoToDelete == t.todoToDelete)
  }

  /** The fields an action may write. */
  function Writes(a: Action): set<Field> {
    match a
    case SetLastRequest(_) => {LastRequestField}
    case SetId(_) => {IdField}
    case SetTitle(_) => {TitleField}
    case SetOrder(_) => {OrderField}
    case SetStatus(_) => {StatusField}
    case SetResponse(_) => {ResponseField}
    case SetUser(_) => {UserField}
    case SetUsers(_) => {UsersField}
    case SetShowModal(_) => {ShowModalField}
    case SetShowDeleteModal(_) => {ShowDeleteModalField}
    case SetShowEditModal(_) => {ShowEditModalField}
    case SetTodoToEdit(_) => {TodoToEditField}
    case SetTodoToDelete(_) => {TodoToDeleteField}
    case SetAssignedUsers(_) => {AssignedUsersField}
    case ToggleModal => {ShowModalField}
    case ToggleDeleteModal => {ShowDeleteModalField}
    case ToggleEditModal(_) => {ShowEditModalField, TodoToEditField}
    case ResetForm => {TitleField, OrderField, StatusField}
    case Other(_) => {}
  }

  /** What an action establishes in the fields it writes, given the state before it. */
  predicate Establishes(s: AppState, a: Action, r: AppState) {
    match a
    case SetLastRequest(v) => r.lastRequest == v
    case SetId(v) => r.id == v
    case SetTitle(v) => r.title == v
    case SetOrder(v) => r.order == v
    case SetStatus(v) => r.status == v
    case SetResponse(v) => r.response == v
    case SetUser(v) => r.user == v
    case SetUsers(v) => r.users == v
    case SetShowModal(v) => r.showModal == v
    case SetShowDeleteModal(v) => r.showDeleteModal == v
    case SetShowEditModal(v) => r.showEditModal == v
    case SetTodoToEdit(v) => r.todoToEdit == v
    case SetTodoToDelete(v) => r.todoToDelete == v
    case SetAssignedUsers(v) => r.assignedUsers == v
    case ToggleModal => r.showModal == !s.showModal
    case ToggleDeleteModal => r.showDeleteModal == !s.showDeleteModal
    case ToggleEditModal(v) => r.showEditModal == !s.showEditModal && r.todoToEdit == v
    case ResetForm => r.title == "" && r.order == Blank && r.status == 0
    case Other(_) => true
  }

  // ---------------------------------------------------------------- the reducer

  /** `appReducer(state, action)`. */
  function Reduce(s: AppState, a: Action): (r: AppState)
    ensures SameExcept(s, r, Writes(a))
    ensures Establishes(s, a, r)
  {
    match a
    case SetLastRequest(v) => s.(lastRequest := v)
    case SetId(v) => s.(id := v)
    case SetTitle(v) => s.(title := v)
    case SetOrder(v) => s.(order := v)
    case SetStatus(v) => s.(status := v)
    case SetResponse(v) => s.(response := v)
    case SetUser(v) => s.(user := v)
    case SetUsers(v) => s.(users := v)
    case SetShowModal(v) => s.(showModal := v)
    case SetShowDeleteModal(v) => s.(showDeleteModal := v)
    case SetShowEditModal(v) => s.(showEditModal := v)
    case SetTodoToEdit(v) => s.(todoToEdit := v)
    case SetTodoToDelete(v) => s.(todoToDelete := v)
    case SetAssignedUsers(v) => s.(assignedUsers := v)
    case ToggleModal => s.(showModal := !s.showModal)
    case ToggleDeleteModal => s.(showDeleteModal := !s.showDeleteModal)
    case ToggleEditModal(v) => s.(showEditModal := !s.showEditModal, todoToEdit := v)
    case ResetForm => s.(title := "", order := Blank, status := 0)
    case Other(_) => s
  }

  /** The reducer is the only transition that writes just its action's fields with the action's values. */
  lemma ReduceIsDeterminedByItsFrame(s: AppState, a: Action, t: AppState)
    requires SameExcept(s, t, Writes(a)) && Establishes(s, a, t)
    ensures t == Reduce(s, a)
  {
  }

  /** Unlisted action types leave the state as it was. */
  lemma UnknownActionIsIgnored(s: AppState, kind: string)
    ensures Reduce(s, Other(kind)) == s
  {
  }

  /** The two plain toggles undo themselves; toggling the edit modal twice keeps only the last payload. */
  lemma TogglesAreInvolutions(s: AppState, todo: Option<PublicTodo>)
    ensures Reduce(Reduce(s, ToggleModal), ToggleModal) == s
    ensures Reduce(Reduce(s, ToggleDeleteModal), ToggleDeleteModal) == s
    ensures Reduce(Reduce(s, ToggleEditModal(todo)), ToggleEditModal(todo)) == s.(todoToEdit := todo)
  {
  }

  /** Resetting the form twice is resetting it once. */
  lemma ResetFormIsIdempotent(s: AppState)
    ensures Reduce(Reduce(s, ResetForm), ResetForm) == Reduce(s, ResetForm)
  {
  }

  /** The fields a sequence of actions may write. */
  function WritesAll(actions: seq<Action>): set<Field>
    decreases |actions|
  {
    if actions == [] then {} else Writes(actions[0]) + WritesAll(actions[1..])
  }

  /** Dispatching `actions` one after another. */
  function Run(s: AppState, actions: seq<Action>): (r: AppState)
    ensures SameExcept(s, r, WritesAll(actions))
    decreases |actions|
  {
    if actions == [] then s else Run(Reduce(s, actions[0]), actions[1..])
  }

  // ---------------------------------------------------------------- toggleEditModal

  /** `todo?.title || ""` */
  function TitleOrBlank(todo: Option<PublicTodo>): (title: string)
    ensures title == "" <==> todo.None? || !TruthyString(todo.value.title)
    ensures title != "" ==> Some(title) == todo.value.title
  {
    if todo.Some? && todo.value.title.Some? then todo.value.title.value else ""
  }

  /** `todo?.order || ""` */
  function OrderOrBlank(todo: Option<PublicTodo>): (order: FormOrder)
    ensures order == Blank <==> todo.None? || !TruthyInt(todo.value.order)
    ensures order.Entered? ==> Some(order.n) == todo.value.order
  {
    if todo.Some? && TruthyInt(todo.value.order) then Entered(todo.value.order.value) else Blank
  }

  /** `todo?.status || 0` */
  function StatusOrZero(todo: Option<PublicTodo>): (status: int)
    ensures todo.Some? ==> status == todo.value.status
    ensures todo.None? ==> status == 0
  {
    if todo.Some? && todo.value.status != 0 then todo.value.status else 0
  }

  /** The four dispatches of `toggleEditModal(todo)`. */
  function EditModalActions(todo: Option<PublicTodo>): seq<Action> {
    [ToggleEditModal(todo), SetTitle(TitleOrBlank(todo)), SetOrder(OrderOrBlank(todo)), SetStatus(StatusOrZero(todo))]
  }

  /** After `toggleEditModal(todo)` the editor flag is flipped, the todo selected and copied into the form. */
  lemma EditModalLoadsForm(s: AppState, todo: Option<PublicTodo>)
    ensures var r := Run(s, EditModalActions(todo));
      && r.showEditModal == !s.showEditModal
      && r.todoToEdit == todo
      && r.title == TitleOrBlank(todo)
      && r.order == OrderOrBlank(todo)
      && r.status == StatusOrZero(todo)
      && SameExcept(s, r, {ShowEditModalField, TodoToEditField, TitleField, OrderField, StatusField})
    ensures var acts := EditModalActions(todo);
      Run(s, acts) == Reduce(Reduce(Reduce(Reduce(s, acts[0]), acts[1]), acts[2]), acts[3])
  {
    var acts := EditModalActions(todo);
    var s1 := Reduce(s, acts[0]);
    var s2 := Reduce(s1, acts[1]);
    var s3 := Reduce(s2, acts[2]);
    var s4 := Reduce(s3, acts[3]);
    assert acts[1..][0] == acts[1] && acts[2..][0] == acts[2] && acts[3..][0] == acts[3];
    assert acts[1..][1..] == acts[2..] && acts[2..][1..] == acts[3..] && acts[3..][1..] == [];
    calc {
      Run(s, acts);
      Run(s1, acts[1..]);
      Run(s2, acts[2..]);
      Run(s3, acts[3..]);
      Run(s4, []);
    }
  }

  // ---------------------------------------------------------------- board columns

  /** The sort key of `(a, b) => a.order - b.order`; a null order subtracts as 0. */
  function OrderKey(t: PublicTodo): int {
    t.order.GetOr(0)
  }

  predicate SortedByOrder(ts: seq<PublicTodo>) {
    forall i, j :: 0 <= i < j < |ts| ==> OrderKey(ts[i]) <= OrderKey(ts[j])
  }

  /** `todos.filter((todo) => todo.status === idx)` */
  function WithStatus(ts: seq<PublicTodo>, idx: int): (r: seq<PublicTodo>)
    ensures forall t :: multiset(r)[t] == if t.status == idx then multiset(ts)[t] else 0
    decreases |ts|
  {
    if ts == [] then []
    else
      assert ts == [ts[0]] + ts[1..];
      (if ts[0].status == idx then [ts[0]] else []) + WithStatus(ts[1..], idx)
  }

  /** Inserts `t` before the first element with a larger key. */
  function Insert(t: PublicTodo, ts: seq<PublicTodo>): (r: seq<PublicTodo>)
    requires SortedByOrder(ts)
    ensures |r| == |ts| + 1
    ensures r[0] == t || (ts != [] && r[0] == ts[0])
    ensures SortedByOrder(r)
    ensures multiset(r) == multiset(ts) + multiset{t}
    decreases |ts|
  {
    if ts == [] || OrderKey(t) <= OrderKey(ts[0]) then [t] + ts
    else
      var rest := Insert(t, ts[1..]);
      assert ts == [ts[0]] + ts[1..];
      assert OrderKey(ts[0]) <= OrderKey(rest[0]);
      [ts[0]] + rest
  }

  /** `.sort((a, b) => a.order - b.order)`: a stable insertion sort on the order key. */
  function SortByOrder(ts: seq<PublicTodo>): (r: seq<PublicTodo>)
    ensures SortedByOrder(r)
    ensures multiset(r) == multiset(ts)
    decreases |ts|
  {
    if ts == [] then []
    else
      assert ts == [ts[0]] + ts[1..];
      Insert(ts[0], SortByOrder(ts[1..]))
  }

  /** Column `idx` of the board: the todos of that status, by ascending order. */
  function Column(ts: seq<PublicTodo>, idx: int): (col: seq<PublicTodo>)
    ensures SortedByOrder(col)
    ensures forall t :: multiset(col)[t] == if t.status == idx then multiset(ts)[t] else 0
  {
    SortByOrder(WithStatus(ts, idx))
  }

  /**
   * The board: `["To-Do", "Doing", "Done"].map((statusText, idx) => column idx)`.
   * Column `idx` is sorted and holds exactly the todos of status `idx`.
   */
  function Board(ts: seq<PublicTodo>): (columns: seq<seq<PublicTodo>>)
    ensures |columns| == 3
    ensures SortedByOrder(columns[0]) && SortedByOrder(columns[1]) && SortedByOrder(columns[2])
    ensures forall t :: multiset(columns[0])[t] == if t.status == 0 then multiset(ts)[t] else 0
    ensures forall t :: multiset(columns[1])[t] == if t.status == 1 then multiset(ts)[t] else 0
    ensures forall t :: multiset(columns[2])[t] == if t.status == 2 then multiset(ts)[t] else 0
  {
    var toDo, doing, done := Column(ts, 0), Column(ts, 1), Column(ts, 2);
    [toDo, doing, done]
  }

  /**
   * The board partitions the known statuses: every copy of a todo with status 0, 1 or 2
   * is shown once over the three columns; a todo with any other status is shown nowhere.
   */
  lemma BoardPartitionsTodos(ts: seq<PublicTodo>, t: PublicTodo)
    ensures var b := Board(ts);
      multiset(b[0])[t] + multiset(b[1])[t] + multiset(b[2])[t] ==
        if 0 <= t.status <= 2 then multiset(ts)[t] else 0
  {
    var c0, c1, c2 := Column(ts, 0), Column(ts, 1), Column(ts, 2);
    assert Board(ts) == [c0, c1, c2];
    assert multiset(c0)[t] == if t.status == 0 then multiset(ts)[t] else 0;
    assert multiset(c1)[t] == if t.status == 1 then multiset(ts)[t] else 0;
    assert multiset(c2)[t] == if t.status == 2 then multiset(ts)[t] else 0;
  }

  /** Column `idx` shows a todo exactly when the todo is in the list with status `idx`. */
  lemma ColumnMembers(ts: seq<PublicTodo>, idx: int, t: PublicTodo)
    ensures t in Column(ts, idx) <==> t in ts && t.status == idx
  {
    var col := Column(ts, idx);
    assert t in col <==> t in multiset(col);
    assert t in ts <==> t in multiset(ts);
  }

  // ---------------------------------------------------------------- assignee lists

  /** `[...assignedUsers, {user_id, todo_id}]` */
  function Assign(list: seq<Assignee>, userId: string, todoId: Option<string>): (r: seq<Assignee>)
    ensures |r| == |list| + 1 && r[..|list|] == list && r[|list|] == Assignee(userId, todoId)
  {
    list + [Assignee(userId, todoId)]
  }

  /** `assignedUsers.filter((assignee) => assignee.user_id !== userId)` */
  function Unassign(list: seq<Assignee>, userId: string): (r: seq<Assignee>)
    ensures forall e :: multiset(r)[e] == if e.userId == userId then 0 else multiset(list)[e]
    decreases |list|
  {
    if list == [] then []
    else
      assert list == [list[0]] + list[1..];
      (if list[0].userId != userId then [list[0]] else []) + Unassign(list[1..], userId)
  }

  /** Unassigning works entry by entry, so the kept entries stay in their order. */
  lemma {:induction false} UnassignKeepsOrder(a: seq<Assignee>, b: seq<Assignee>, userId: string)
    ensures Unassign(a + b, userId) == Unassign(a, userId) + Unassign(b, userId)
    decreases |a|
  {
    if a == [] {
      assert a + b == b;
    } else {
      var head := if a[0].userId != userId then [a[0]] else [];
      assert (a + b)[0] == a[0];
      assert (a + b)[1..] == a[1..] + b;
      UnassignKeepsOrder(a[1..], b, userId);
      calc {
        Unassign(a + b, userId);
        head + Unassign(a[1..] + b, userId);
        head + (Unassign(a[1..], userId) + Unassign(b, userId));
        (head + Unassign(a[1..], userId)) + Unassign(b, userId);
      }
    }
  }

  /** Unassigning a user undoes assigning that user. */
  lemma UnassignUndoesAssign(list: seq<Assignee>, userId: string, todoId: Option<string>)
    ensures Unassign(Assign(list, userId, todoId), userId) == Unassign(list, userId)
  {
    UnassignKeepsOrder(list, [Assignee(userId, todoId)], userId);
  }

  /** `au.userId` of an entry: the entries carry `user_id`, so this is always undefined. */
  function CamelCaseUserId(e: Assignee): Option<string> {
    None
  }

  /** The select's guard: `selectedUserId && !assignedUsers.some((au) => au.userId === selectedUserId)`. */
  function DuplicateGuardAllows(list: seq<Assignee>, selected: string): (allowed: bool)
    ensures allowed <==> selected != ""
  {
    selected != "" && !(exists i :: 0 <= i < |list| && CamelCaseUserId(list[i]) == Some(selected))
  }

  /** The guard lets an already assigned user through, so assigning twice lists the user twice. */
  lemma DuplicateGuardNeverBlocks(list: seq<Assignee>, selected: string, todoId: Option<string>)
    requires selected != "" && Assignee(selected, todoId) in list
    ensures DuplicateGuardAllows(list, selected)
    ensures multiset(Assign(list, selected, todoId))[Assignee(selected, todoId)] >= 2
  {
    var r := Assign(list, selected, todoId);
    assert r == list + [Assignee(selected, todoId)];
  }

  // ---------------------------------------------------------------- requests the handlers send

  /** The requests the event handlers issue, with the values they carry. */
  datatype Outgoing =
    | PostTodoRequest(newTitle: Option<string>, newOrder: Option<int>, newStatus: int)
    | PatchTodoRequest(target: string, title: string, order: int, status: int)
    | DeleteTodoRequest(target: string)
    | AssignRequest(userId: string, todoId: Option<string>)
    | UnassignRequest(userId: string, todoId: Option<string>)

  /** `Number(state.order)`: the blank field converts to 0. */
  function OrderNumber(order: FormOrder): int {
    match order
    case Blank => 0
    case Entered(n) => n
  }

  /** The id a handler targets for a selected todo, or none when its url is empty or has no fourth piece. */
  function TargetId(todo: Option<PublicTodo>): (id: Option<string>)
    ensures id.Some? ==> id.value != "" && todo.Some? && IdFromUrl(todo.value.url) == id
    ensures todo.Some? && todo.value.url != "" && IdFromUrl(todo.value.url).Some? && IdFromUrl(todo.value.url).value != ""
      ==> id == IdFromUrl(todo.value.url)
  {
    if todo.None? || todo.value.url == "" then None
    else
      match IdFromUrl(todo.value.url)
      case Some(id) => if id != "" then Some(id) else None
      case None => None
  }

  /** A todo the server published for row `n` is addressed by the client as `n`. */
  lemma TargetOfPublishedTodo(protocol: string, host: string, n: nat, todo: PublicTodo)
    requires '/' !in protocol && '/' !in host
    requires todo.url == TodoUrl(protocol, host, DecimalString(n))
    ensures TargetId(Some(todo)) == Some(DecimalString(n))
  {
    NumericIdRoundTrip(protocol, host, n);
  }

  // ---------------------------------------------------------------- the page

  /**
   * The state held by `useReducer` and the handlers that dispatch into it. The
   * server's reply to a handler's request is a parameter (`reply`, its HTTP status,
   * or `ok` when only success is tested); a network failure behaves as a non-matching reply.
   */
  class DashboardPage {
    var state: AppState

    constructor ()
      ensures state == InitialState
    {
      state := InitialState;
    }

    /** `dispatch(action)` */
    method Dispatch(a: Action)
      modifies this
      ensures state == Reduce(old(state), a)
    {
      state := Reduce(state, a);
    }

    /** `toggleEditModal(todo)` */
    method ToggleEditModal(todo: Option<PublicTodo>)
      modifies this
      ensures state == Run(old(state), EditModalActions(todo))
      ensures state.showEditModal == !old(state).showEditModal && state.todoToEdit == todo
      ensures state.title == TitleOrBlank(todo) && state.order == OrderOrBlank(todo)
      ensures state.status == StatusOrZero(todo)
      ensures SameExcept(old(state), state, {ShowEditModalField, TodoToEditField, TitleField, OrderField, StatusField})
    {
      var acts := EditModalActions(todo);
      Dispatch(acts[0]);
      Dispatch(acts[1]);
      Dispatch(acts[2]);
      Dispatch(acts[3]);
      EditModalLoadsForm(old(state), todo);
    }

    /** `handleAssignUser(userId)` */
    method HandleAssignUser(userId: string, reply: int) returns (sent: Option<Outgoing>)
      modifies this
      ensures old(state).todoToEdit.None? ==> sent == None && state == old(state)
      ensures old(state).todoToEdit.Some? ==>
        var todoId := IdFromUrl(old(state).todoToEdit.value.url);
        && sent == Some(AssignRequest(userId, todoId))
        && state == if reply == 201
          then Reduce(old(state), SetAssignedUsers(Assign(old(state).assignedUsers, userId, todoId)))
          else old(state)
    {
      if state.todoToEdit.None? {
        return None;
      }
      var todoId := IdFromUrl(state.todoToEdit.value.url);
      sent := Some(AssignRequest(userId, todoId));
      if reply == 201 {
        Dispatch(SetAssignedUsers(Assign(state.assignedUsers, userId, todoId)));
      }
    }

    /** The assignee select's `onChange`: assigns whenever a user is selected. */
    method SelectAssignee(selected: string, reply: int) returns (sent: Option<Outgoing>)
      modifies this
      ensures selected == "" ==> sent == None && state == old(state)
      ensures selected != "" && old(state).todoToEdit.None? ==> sent == None && state == old(state)
      ensures selected != "" && old(state).todoToEdit.Some? ==>
        var todoId := IdFromUrl(old(state).todoToEdit.value.url);
        && sent == Some(AssignRequest(selected, todoId))
        && state == if reply == 201
          then Reduce(old(state), SetAssignedUsers(Assign(old(state).assignedUsers, selected, todoId)))
          else old(state)
    {
      sent := None;
      if DuplicateGuardAllows(state.assignedUsers, selected) {
        sent := HandleAssignUser(selected, reply);
      }
    }

    /** `handleUnassignUser(userId)` */
    method HandleUnassignUser(userId: string, reply: int) returns (sent: Option<Outgoing>)
      modifies this
      ensures old(state).todoToEdit.None? ==> sent == None && state == old(state)
      ensures old(state).todoToEdit.Some? ==>
        && sent == Some(UnassignRequest(userId, IdFromUrl(old(state).todoToEdit.value.url)))
        && state == if reply == 201
          then Reduce(old(state), SetAssignedUsers(Unassign(old(state).assignedUsers, userId)))
          else old(state)
    {
      if state.todoToEdit.None? {
        return None;
      }
      sent := Some(UnassignRequest(userId, IdFromUrl(state.todoToEdit.value.url)));
      if reply == 201 {
        Dispatch(SetAssignedUsers(Unassign(state.assignedUsers, userId)));
      }
    }

    /** `handleSubmit`: posts the create form; on success resets it and toggles the create modal. */
    method HandleSubmit(ok: bool) returns (sent: Outgoing)
      modifies this
      ensures sent == PostTodoRequest(
        if old(state).title == "" then None else Some(old(state).title),
        if old(state).order == Blank then None else Some(OrderNumber(old(state).order)),
        old(state).status)
      ensures state == if ok then Reduce(Reduce(old(state), ResetForm), ToggleModal) else old(state)
    {
      sent := PostTodoRequest(
        if state.title == "" then None else Some(state.title),
        if state.order == Blank then None else Some(OrderNumber(state.order)),
        state.status);
      if ok {
        Dispatch(ResetForm);
        Dispatch(ToggleModal);
      }
    }

    /** `handleEditSubmit`: patches the selected todo; on success closes the editor and resets the form. */
    method HandleEditSubmit(reply: int) returns (sent: Option<Outgoing>)
      modifies this
      ensures TargetId(old(state).todoToEdit).None? ==> sent == None && state == old(state)
      ensures TargetId(old(state).todoToEdit).Some? ==>
        && sent == Some(PatchTodoRequest(TargetId(old(state).todoToEdit).value,
                          old(state).title, OrderNumber(old(state).order), old(state).status))
        && state == if reply == 200
          then Run(old(state), [SetShowEditModal(false), SetTodoToEdit(None), ResetForm])
          else old(state)
    {
      var target := TargetId(state.todoToEdit);
      if target.None? {
        return None;
      }
      sent := Some(PatchTodoRequest(target.value, state.title, OrderNumber(state.order), state.status));
      if reply == 200 {
        ghost var s0 := state;
        Dispatch(SetShowEditModal(false));
        Dispatch(SetTodoToEdit(None));
        Dispatch(ResetForm);
        ghost var acts := [SetShowEditModal(false), SetTodoToEdit(None), ResetForm];
        assert acts[1..][1..][1..] == [];
        assert Run(s0, acts) == state;
      }
    }

    /** `handleDelete`: deletes the todo chosen for deletion; on success closes the dialog and forgets it. */
    method HandleDelete(ok: bool) returns (sent: Option<Outgoing>)
      modifies this
      ensures TargetId(old(state).todoToDelete).None? ==> sent == None && state == old(state)
      ensures TargetId(old(state).todoToDelete).Some? ==>
        && sent == Some(DeleteTodoRequest(TargetId(old(state).todoToDelete).value))
        && state == if ok
          then old(state).(showDeleteModal := false, todoToDelete := None)
          else old(state)
    {
      var target := TargetId(state.todoToDelete);
      if target.None? {
        return None;
      }
      sent := Some(DeleteTodoRequest(target.value));
      if ok {
        Dispatch(SetShowDeleteModal(false));
        Dispatch(SetTodoToDelete(None));
      }
    }
  }
}
