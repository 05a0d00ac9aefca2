/**
  The decisions of `PUT /todos/:todoId/`: which column the reply names as
  updated, and the values the UPDATE statement writes, each body field
  defaulting to the prior row's. Reading the prior row and running the
  UPDATE are database calls and are not modelled; the prior row is a
  parameter, `None` when no row has the id.
*/
module Update {
  import opened Wrappers
  import opened Todos
  import Switch
  import Validation

  /** The cases of the handler's `switch (true)` that sets `updateColumn`, in source order. */
  function LabelCases(b: Body): seq<Switch.Case<string>> {
    [ Switch.Case(b.status != None, "Status"),
      Switch.Case(b.priority != None, "Priority"),
      Switch.Case(b.category != None, "Category"),
      Switch.Case(b.todo != None, "Todo"),
      Switch.Case(b.dueDate != None, "Due Date") ]
  }

  /**
    `updateColumn`: starts as "" and the switch, which has no default, may
    overwrite it. It is one of the five column names or "", and a name it
    gives is that of a field the body carries.
  */
  function UpdateColumn(b: Body): (column: string)
    ensures column in {"", "Status", "Priority", "Category", "Todo", "Due Date"}
    ensures column == "Status" ==> b.status != None
    ensures column == "Priority" ==> b.priority != None
    ensures column == "Category" ==> b.category != None
    ensures column == "Todo" ==> b.todo != None
    ensures column == "Due Date" ==> b.dueDate != None
  {
    var cases := LabelCases(b);
    assert cases[0].test ==> Switch.Selected(cases, 0);
    assert !cases[0].test && cases[1].test ==> Switch.Selected(cases, 1);
    assert !cases[0].test && !cases[1].test && cases[2].test ==> Switch.Selected(cases, 2);
    assert !cases[0].test && !cases[1].test && !cases[2].test && cases[3].test ==> Switch.Selected(cases, 3);
    assert !cases[0].test && !cases[1].test && !cases[2].test && !cases[3].test && cases[4].test ==>
      Switch.Selected(cases, 4);
    assert !cases[0].test && !cases[1].test && !cases[2].test && !cases[3].test && !cases[4].test ==>
      Switch.NoneTrue(cases);
    Switch.SwitchTrue(cases, "")
  }

  /**
    The text of the reply: always ending in " Updated", and exactly
    " Updated" when the body carries none of the five fields.
  */
  function ReplyText(b: Body): (r: string)
    ensures |r| >= 8 && r[|r| - 8..] == " Updated"
    ensures r == " Updated" <==>
      b.status == None && b.priority == None && b.category == None && b.todo == None && b.dueDate == None
  {
    UpdateColumnOrder(b);
    UpdateColumn(b) + " Updated"
  }

  /**
    The reply names the first field present in the order status, priority,
    category, todo, due date, even when the body changes several; it names
    none (the reply is " Updated") when the body has none of them.
  */
  lemma {:induction false} UpdateColumnOrder(b: Body)
    ensures b.status != None ==> UpdateColumn(b) == "Status"
    ensures b.status == None && b.priority != None ==> UpdateColumn(b) == "Priority"
    ensures b.status == None && b.priority == None && b.category != None ==> UpdateColumn(b) == "Category"
    ensures b.status == None && b.priority == None && b.category == None && b.todo != None ==>
      UpdateColumn(b) == "Todo"
    ensures b.status == None && b.priority == None && b.category == None && b.todo == None && b.dueDate != None ==>
      UpdateColumn(b) == "Due Date"
    ensures UpdateColumn(b) == "" <==>
      b.status == None && b.priority == None && b.category == None && b.todo == None && b.dueDate == None
  {
    var cases := LabelCases(b);
    if cases[0].test {
      assert Switch.Selected(cases, 0);
    } else if cases[1].test {
      assert Switch.Selected(cases, 1);
    } else if cases[2].test {
      assert Switch.Selected(cases, 2);
    } else if cases[3].test {
      assert Switch.Selected(cases, 3);
    } else if cases[4].test {
      assert Switch.Selected(cases, 4);
    } else {
      assert Switch.NoneTrue(cases);
    }
  }

  /**
    `prevTodo[key]` on the row object the driver returns: its keys are the
    column names, so any other key reads `undefined`.
  */
  function Property(row: Row, key: string): Option<string> {
    if key == "todo" then Some(row.todo)
    else if key == "priority" then Some(row.priority)
    else if key == "status" then Some(row.status)
    else if key == "category" then Some(row.category)
    else if key == "due_date" then Some(row.due_date)
    else None
  }

  /**
    A destructuring default `field = prevTodo[key]`: the body's value when it
    is present, otherwise the prior row's property (evaluated only then).
  */
  function Default(v: Option<string>, prev: Option<Row>, key: string): Option<string>
    requires v != None || prev != None
  {
    if v != None then v else Property(prev.value, key)
  }

  /** The five values the UPDATE statement interpolates into its SET list. */
  datatype Assignment = Assignment(status: string, priority: string, todo: string, category: string, due_date: string)

  /**
    What the PUT handler does after validation: `Thrown` when a default has
    to read a property of a missing prior row (the handler throws and no
    reply is sent); otherwise the UPDATE it writes and the reply it sends.
  */
  datatype PutOutcome = Thrown | Written(values: Assignment, reply: string)

  predicate Complete(b: Body) {
    b.status != None && b.priority != None && b.todo != None && b.dueDate != None && b.category != None
  }

  /** The handler, with the property name its due-date default reads as a parameter. */
  function PutReading(b: Body, prev: Option<Row>, dueDateKey: string): PutOutcome {
    if prev == None && !Complete(b) then Thrown
    else
      Written(
        Assignment(
          Interpolate(Default(b.status, prev, "status")),
          Interpolate(Default(b.priority, prev, "priority")),
          Interpolate(Default(b.todo, prev, "todo")),
          Interpolate(Default(b.category, prev, "category")),
          Interpolate(Default(b.dueDate, prev, dueDateKey))),
        ReplyText(b))
  }

  /** `PUT /todos/:todoId/` as written: the due-date default reads `prevTodo.dueDate`. */
  function Put(b: Body, prev: Option<Row>): (r: PutOutcome)
    ensures r == Thrown <==> prev == None && !Complete(b)
    ensures r != Thrown ==> r.reply == UpdateColumn(b) + " Updated"
    ensures r != Thrown ==> r.values.status == (if b.status != None then b.status.value else prev.value.status)
    ensures r != Thrown ==> r.values.priority == (if b.priority != None then b.priority.value else prev.value.priority)
    ensures r != Thrown ==> r.values.todo == (if b.todo != None then b.todo.value else prev.value.todo)
    ensures r != Thrown ==> r.values.category == (if b.category != None then b.category.value else prev.value.category)
    ensures r != Thrown ==> r.values.due_date == (if b.dueDate != None then b.dueDate.value else "undefined")
  {
    PutReading(b, prev, "dueDate")
  }

  /** The handler with its due-date default reading the column `due_date`, as evidently intended. */
  function PutCorrected(b: Body, prev: Option<Row>): (r: PutOutcome)
    ensures r == Thrown <==> prev == None && !Complete(b)
    ensures r != Thrown ==> r.reply == UpdateColumn(b) + " Updated"
    ensures r != Thrown ==> r.values.status == (if b.status != None then b.status.value else prev.value.status)
    ensures r != Thrown ==> r.values.priority == (if b.priority != None then b.priority.value else prev.value.priority)
    ensures r != Thrown ==> r.values.todo == (if b.todo != None then b.todo.value else prev.value.todo)
    ensures r != Thrown ==> r.values.category == (if b.category != None then b.category.value else prev.value.category)
    ensures r != Thrown ==> r.values.due_date == (if b.dueDate != None then b.dueDate.value else prev.value.due_date)
  {
    PutReading(b, prev, "due_date")
  }

  /** A stored row whose enumerated columns are in range and whose date parses. */
  predicate ValidRow(row: Row, validDate: string -> bool) {
    row.priority in Priorities && row.status in Statuses && row.category in Categories && validDate(row.due_date)
  }

  predicate ValidAssignment(a: Assignment, validDate: string -> bool) {
    a.priority in Priorities && a.status in Statuses && a.category in Categories && validDate(a.due_date)
  }

  /**
    A body the validator passes, merged into a valid prior row, writes
    in-range priority, status and category; but when the body has no due
    date the written date is the text "undefined", not the stored one.
  */
  lemma PutAfterValidation(b: Body, row: Row, validDate: string -> bool)
    requires Validation.CheckBody(b, validDate) == [Validation.Next] && ValidRow(row, validDate)
    ensures Put(b, Some(row)).values.priority in Priorities
    ensures Put(b, Some(row)).values.status in Statuses
    ensures Put(b, Some(row)).values.category in Categories
    ensures b.dueDate == None ==> Put(b, Some(row)).values.due_date == "undefined"
  {
  }

  /** With the corrected default, a validated PUT on a valid row writes a valid row. */
  lemma PutCorrectedKeepsRowValid(b: Body, row: Row, validDate: string -> bool)
    requires Validation.CheckBody(b, validDate) == [Validation.Next] && ValidRow(row, validDate)
    ensures PutCorrected(b, Some(row)).Written?
    ensures ValidAssignment(PutCorrected(b, Some(row)).values, validDate)
  {
  }

  /**
    Updating only the status: the reply is "Status Updated"; with the
    corrected default every other column keeps its stored value, while as
    written the stored due date is replaced by "undefined".
  */
  lemma StatusOnlyUpdate(row: Row)
    ensures PutCorrected(Body(None, None, Some("DONE"), None, None), Some(row)) ==
      Written(Assignment("DONE", row.priority, row.todo, row.category, row.due_date), "Status Updated")
    ensures Put(Body(None, None, Some("DONE"), None, None), Some(row)) ==
      Written(Assignment("DONE", row.priority, row.todo, row.category, "undefined"), "Status Updated")
  {
  }
}
