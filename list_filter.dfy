/**
  How `GET /todos/` turns its query string into a WHERE clause: six presence
  predicates, a `switch (true)` over them in source order that picks one of
  seven filter shapes, and the clause each shape builds. The SQL text itself
  is not modelled; a `Where` value records what each clause compares.
*/
module ListFilter {
  import opened Wrappers
  import opened Todos
  import Switch

  /**
    The presence predicates test `!== undefined`, not truthiness: a field
    sent empty (`?status=`) counts as present.
  */
  predicate StatusProperty(q: Query)
    ensures StatusProperty(q) ==> q.status != None
    ensures q.status == Some("") ==> StatusProperty(q)
  {
    q.status != None
  }

  predicate PriorityProperty(q: Query)
    ensures PriorityProperty(q) ==> q.priority != None
    ensures q.priority == Some("") ==> PriorityProperty(q)
  {
    q.priority != None
  }

  predicate CategoryProperty(q: Query)
    ensures CategoryProperty(q) ==> q.category != None
    ensures q.category == Some("") ==> CategoryProperty(q)
  {
    q.category != None
  }

  /** Each two-field predicate holds only when both single-field ones do, so an earlier single-field case always catches it. */
  predicate StatusAndPriorityProperty(q: Query)
    ensures StatusAndPriorityProperty(q) <==> StatusProperty(q) && PriorityProperty(q)
  {
    q.status != None && q.priority != None
  }

  predicate StatusAndCategoryProperty(q: Query)
    ensures StatusAndCategoryProperty(q) <==> StatusProperty(q) && CategoryProperty(q)
  {
    q.status != None && q.category != None
  }

  predicate PriorityAndCategoryProperty(q: Query)
    ensures PriorityAndCategoryProperty(q) <==> PriorityProperty(q) && CategoryProperty(q)
  {
    q.priority != None && q.category != None
  }

  datatype Shape =
    | NoFilter
    | StatusOnly
    | PriorityOnly
    | CategoryOnly
    | StatusAndPriority
    | StatusAndCategory
    | PriorityAndCategory

  /** The cases of the list handler's `switch (true)`, in source order. */
  function ShapeCases(q: Query): seq<Switch.Case<Shape>> {
    [ Switch.Case(StatusProperty(q), StatusOnly),
      Switch.Case(PriorityProperty(q), PriorityOnly),
      Switch.Case(StatusAndPriorityProperty(q), StatusAndPriority),
      Switch.Case(StatusAndCategoryProperty(q), StatusAndCategory),
      Switch.Case(CategoryProperty(q), CategoryOnly),
      Switch.Case(PriorityAndCategoryProperty(q), PriorityAndCategory) ]
  }

  /**
    The filter shape the list handler's `switch (true)` picks. The
    single-field cases for status and priority come before the two-field
    cases, so the three two-field shapes are dead code: only four shapes
    are ever chosen.
  */
  function SelectShape(q: Query): (s: Shape)
    ensures s in {NoFilter, StatusOnly, PriorityOnly, CategoryOnly}
  {
    var cases := ShapeCases(q);
    assert StatusProperty(q) ==> Switch.Selected(cases, 0);
    assert !StatusProperty(q) && PriorityProperty(q) ==> Switch.Selected(cases, 1);
    assert !StatusProperty(q) && !PriorityProperty(q) && CategoryProperty(q) ==> Switch.Selected(cases, 4);
    assert !StatusProperty(q) && !PriorityProperty(q) && !CategoryProperty(q) ==> Switch.NoneTrue(cases);
    Switch.SwitchTrue(cases, NoFilter)
  }

  /**
    Status wins over everything, then priority, then category; with none of
    them the handler falls back to the plain text filter. A query carrying
    all three fields is therefore filtered on status alone.
  */
  lemma {:induction false} SelectShapeOrder(q: Query)
    ensures q.status != None ==> SelectShape(q) == StatusOnly
    ensures q.status == None && q.priority != None ==> SelectShape(q) == PriorityOnly
    ensures q.status == None && q.priority == None && q.category != None ==> SelectShape(q) == CategoryOnly
    ensures SelectShape(q) == NoFilter <==> q.status == None && q.priority == None && q.category == None
  {
    var cases := ShapeCases(q);
    if StatusProperty(q) {
      assert Switch.Selected(cases, 0);
    } else if PriorityProperty(q) {
      assert Switch.Selected(cases, 1);
    } else if CategoryProperty(q) {
      assert Switch.Selected(cases, 4);
    } else {
      assert Switch.NoneTrue(cases);
    }
  }

  /** Each of the four live shapes is chosen for some query. */
  lemma LiveShapesReachable()
    ensures SelectShape(Query(None, None, Some("DONE"), None, None)) == StatusOnly
    ensures SelectShape(Query(None, Some("HIGH"), None, None, None)) == PriorityOnly
    ensures SelectShape(Query(None, None, None, Some("WORK"), None)) == CategoryOnly
    ensures SelectShape(Query(None, None, None, None, None)) == NoFilter
  {
    SelectShapeOrder(Query(None, None, Some("DONE"), None, None));
    SelectShapeOrder(Query(None, Some("HIGH"), None, None, None));
    SelectShapeOrder(Query(None, None, None, Some("WORK"), None));
    SelectShapeOrder(Query(None, None, None, None, None));
  }

  /** How a clause tests the free-text column: `todo="x"` or `todo LIKE "%x%"`. */
  datatype TextTest = Equals(text: string) | Contains(text: string)

  /** A WHERE clause: the text test and, for each enumerated column, the value it must equal (if any). */
  datatype Where = Where(todo: TextTest, status: Option<string>, priority: Option<string>, category: Option<string>)

  /** `search_q` with its destructuring default "". */
  function SearchText(q: Query): string {
    q.search_q.GetOr("")
  }

  /** The clause each shape's query string interpolates, field values rendered as a template literal renders them. */
  function WhereFor(shape: Shape, q: Query): (w: Where)
    ensures w.todo.text == SearchText(q)
    ensures w.todo.Contains? <==> shape == NoFilter
    ensures w.status != None <==> shape in {StatusOnly, StatusAndPriority, StatusAndCategory}
    ensures w.priority != None <==> shape in {PriorityOnly, StatusAndPriority, PriorityAndCategory}
    ensures w.category != None <==> shape in {CategoryOnly, StatusAndCategory, PriorityAndCategory}
  {
    var text := SearchText(q);
    match shape
    case StatusOnly => Where(Equals(text), Some(Interpolate(q.status)), None, None)
    case PriorityOnly => Where(Equals(text), None, Some(Interpolate(q.priority)), None)
    case StatusAndPriority => Where(Equals(text), Some(Interpolate(q.status)), Some(Interpolate(q.priority)), None)
    case StatusAndCategory => Where(Equals(text), Some(Interpolate(q.status)), None, Some(Interpolate(q.category)))
    case CategoryOnly => Where(Equals(text), None, None, Some(Interpolate(q.category)))
    case PriorityAndCategory => Where(Equals(text), None, Some(Interpolate(q.priority)), Some(Interpolate(q.category)))
    case NoFilter => Where(Contains(text), None, None, None)
  }

  /**
    The WHERE clause of `GET /todos/`: it constrains at most one enumerated
    column, and a constrained column carries the value the client sent,
    never the text "undefined" of an absent field.
  */
  function TodoWhere(q: Query): (w: Where)
    ensures w.status != None ==> w.priority == None && w.category == None
    ensures w.priority != None ==> w.category == None
    ensures w.status != None ==> w.status == q.status
    ensures w.priority != None ==> w.priority == q.priority
    ensures w.category != None ==> w.category == q.category
  {
    SelectShapeOrder(q);
    WhereFor(SelectShape(q), q)
  }

  /**
    Only the fallback shape searches by substring; every other shape demands
    the text equal `search_q` exactly. The text is always `search_q`, or ""
    when it is absent, and each enumerated column is constrained exactly when
    the chosen shape names it, by the value the client sent.
  */
  lemma {:induction false} TodoWhereClause(q: Query)
    ensures TodoWhere(q).todo.Contains? <==> q.status == None && q.priority == None && q.category == None
    ensures TodoWhere(q).todo.text == SearchText(q)
    ensures q.search_q == None ==> TodoWhere(q).todo.text == ""
    ensures q.status != None ==> TodoWhere(q) == Where(Equals(SearchText(q)), q.status, None, None)
    ensures q.status == None && q.priority != None ==>
      TodoWhere(q) == Where(Equals(SearchText(q)), None, q.priority, None)
    ensures q.status == None && q.priority == None && q.category != None ==>
      TodoWhere(q) == Where(Equals(SearchText(q)), None, None, q.category)
  {
    SelectShapeOrder(q);
  }

  predicate IsPrefix(p: string, s: string) {
    |p| <= |s| && s[..|p|] == p
  }

  /** `p` occurs somewhere in `s`. */
  predicate IsSubstring(p: string, s: string)
    decreases |s|
  {
    IsPrefix(p, s) || (|s| > 0 && IsSubstring(p, s[1..]))
  }

  predicate TextMatches(t: TextTest, text: string) {
    match t
    case Equals(x) => text == x
    case Contains(x) => IsSubstring(x, text)
  }

  predicate ColumnMatches(v: Option<string>, column: string) {
    v.None? || column == v.value
  }

  /** A row satisfies a clause when its text passes the text test and every constrained column is equal. */
  predicate Matches(w: Where, row: Row) {
    TextMatches(w.todo, row.todo) && ColumnMatches(w.status, row.status) &&
    ColumnMatches(w.priority, row.priority) && ColumnMatches(w.category, row.category)
  }

  /**
    As written, `?status=S` lists exactly the rows with status S whose text
    is `search_q` verbatim, and a query without status, priority or category
    lists the rows whose text contains `search_q`.
  */
  lemma {:induction false} ListedRows(q: Query, row: Row)
    ensures q.status != None ==>
      (Matches(TodoWhere(q), row) <==> row.status == q.status.value && row.todo == SearchText(q))
    ensures q.status == None && q.priority == None && q.category == None ==>
      (Matches(TodoWhere(q), row) <==> IsSubstring(SearchText(q), row.todo))
  {
    TodoWhereClause(q);
  }

  /** The fix: the filtered shapes search the text by substring as the fallback does. */
  function TodoWhereCorrected(q: Query): Where {
    TodoWhere(q).(todo := Contains(SearchText(q)))
  }

  /**
    The corrected clause keeps every row the written one lists; the filter
    on status S (or priority, or category) lists exactly the rows with that
    value whose text contains `search_q`, so without `search_q` it lists
    every row with that value.
  */
  lemma {:induction false} CorrectedListedRows(q: Query, row: Row)
    ensures Matches(TodoWhere(q), row) ==> Matches(TodoWhereCorrected(q), row)
    ensures q.status != None ==>
      (Matches(TodoWhereCorrected(q), row) <==> row.status == q.status.value && IsSubstring(SearchText(q), row.todo))
    ensures q.status == None && q.priority != None ==>
      (Matches(TodoWhereCorrected(q), row) <==> row.priority == q.priority.value && IsSubstring(SearchText(q), row.todo))
    ensures q.status == None && q.priority == None && q.category != None ==>
      (Matches(TodoWhereCorrected(q), row) <==> row.category == q.category.value && IsSubstring(SearchText(q), row.todo))
    ensures q.status != None && q.search_q == None ==>
      (Matches(TodoWhereCorrected(q), row) <==> row.status == q.status.value)
  {
    TodoWhereClause(q);
  }

  /**
    Counterexample to the written filter: `?status=DONE` without `search_q`
    leaves out a stored DONE task, because its text is not "".
  */
  lemma StatusFilterMissesDoneTask()
    ensures !Matches(TodoWhere(Query(None, None, Some("DONE"), None, None)),
                     Row(1, "Buy milk", "HIGH", "DONE", "HOME", "2024-05-01"))
    ensures Matches(TodoWhereCorrected(Query(None, None, Some("DONE"), None, None)),
                    Row(1, "Buy milk", "HIGH", "DONE", "HOME", "2024-05-01"))
  {
  }
}
