/**
  The records the to-do service reads: a stored row of table `todo`, the JSON
  body of POST/PUT requests and the query string of GET requests. A field the
  client leaves out is `undefined` in the service and `None` here.
*/
module Todos {
  import opened Wrappers

  /** One row of `todo(id, todo, priority, status, category, due_date)` as the database driver returns it. */
  datatype Row = Row(id: int, todo: string, priority: string, status: string, category: string, due_date: string)

  /** The fields of `request.body` that the validator and the PUT handler read. */
  datatype Body = Body(
    todo: Option<string>,
    priority: Option<string>,
    status: Option<string>,
    category: Option<string>,
    dueDate: Option<string>)

  /** The fields of `request.query` that the validator and the list handler read. */
  datatype Query = Query(
    search_q: Option<string>,
    priority: Option<string>,
    status: Option<string>,
    category: Option<string>,
    date: Option<string>)

  const Priorities: set<string> := {"HIGH", "MEDIUM", "LOW"}
  const Statuses: set<string> := {"TO DO", "IN PROGRESS", "DONE"}
  const Categories: set<string> := {"WORK", "HOME", "LEARNING"}

  /** An optional field is acceptable when it is absent or one of `values`. */
  predicate Allowed(v: Option<string>, values: set<string>) {
    v.None? || v.value in values
  }

  /**
    The text a JavaScript template literal produces for an interpolated
    field: its string value, or "undefined" when the field is absent.
  */
  function Interpolate(v: Option<string>): string {
    match v
    case Some(text) => text
    case None => "undefined"
  }

  /** JavaScript truthiness of a string: every string but "" is truthy. */
  predicate Truthy(s: string) {
    s != ""
  }
}
