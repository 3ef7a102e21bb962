/**
 * Record shapes shared by the server and the client: the rows the store
 * returns and the public todo the server sends (server/server-routes.js:13-18).
 * Absent or null columns are `None`.
 */
module Todos {
  import opened Wrappers

  /**
   * A row of the `todos` table. The schema makes `status` non-nullable with default 0;
   * `None` stands for a row object that lacks the field, which `createToDo` also maps to 0.
   */
  datatype Row = Row(id: nat, title: Option<string>, order: Option<int>, status: Option<int>)

  /** The todo as the server publishes it: four fields, the row id only inside `url`. */
  datatype PublicTodo = PublicTodo(title: Option<string>, order: Option<int>, status: int, url: string)

  /** A row of the `users` table. */
  datatype UserRow = UserRow(id: nat, name: Option<string>, email: Option<string>)

  /** A row of the `todos_assignees` table (its `assigned_at` timestamp is not modelled). */
  datatype AssignmentRow = AssignmentRow(id: nat, userId: nat, todoId: nat)

  /** JavaScript truthiness of an optional integer: null, undefined and 0 are falsy. */
  predicate TruthyInt(v: Option<int>) {
    v.Some? && v.value != 0
  }

  /** JavaScript truthiness of an optional string: null, undefined and "" are falsy. */
  predicate TruthyString(v: Option<string>) {
    v.Some? && v.value != ""
  }
}
