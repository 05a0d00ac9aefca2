# To-do service: request decisions

A model of the decision logic of a small Express/SQLite to-do service
(`app.js`): the two request validators, the `switch (true)` that picks the
filter for `GET /todos/`, the WHERE clause each filter builds, and the
`PUT /todos/:todoId/` logic that names the updated column and merges the
body into the prior row. All of it is pure branching over optional request
fields and is modelled as Dafny functions; a field the client leaves out
(`undefined`) is `None`.

Modules:

- `Wrappers` (`wrappers.dfy`): `Option`.
- `Switch` (`switch.dfy`): JavaScript's `switch (true)` with a `break` in every
  case, as `SwitchTrue(cases, fallback)`: the first case whose test is true
  selects its branch, `fallback` stands for `default`. Its contract
  (`Selected`, `NoneTrue`) is proved by induction over the case list.
- `Todos` (`todos.dfy`): the stored row, the request body and query records,
  the three enumerations, template-literal interpolation and string truthiness.
- `Validation` (`validation.dfy`): `checkValidityForBody` and
  `checkValidityForQuery` as the sequence of effects they cause:
  `Respond400(message)` for `response.status(400); response.send(message)` and
  `Next` for `next()`.
- `ListFilter` (`list_filter.dfy`): the six presence predicates, the seven
  filter shapes, the selection, the WHERE clause as a `Where` value and what
  it means for one row.
- `Update` (`update.dfy`): `updateColumn`, the reply text and the merge with
  the prior row, including the case where that row does not exist.

Date validity (`Date.parse` / `new Date` followed by date-fns `isValid`) is a
call into code outside the service; every member that needs it takes it as the
parameter `validDate: string -> bool`.

Behaviour of the code worth noting:

- With status, priority and category all present, the code filters on status
  alone (the status case is tested first); it does not fall through to the
  unfiltered query.
- Only the fallback filter searches the text by substring (`LIKE "%...%"`);
  the other six shapes compare the text with `search_q` for equality.
- The query validator's category test is a truthiness test, and an
  unparsable query date both answers 400 and calls `next()`.
- A PUT without `dueDate` writes the text "undefined" as the due date instead
  of keeping the stored one.

## Model

| member | source | states |
|---|---|---|
| `Switch.SwitchTrue` | app.js:144-168 | `switch (true)` yields the body of the first case whose test is true, and the fallback when no test is true |
| `Validation.CheckBody` | app.js:62-96 | exactly one response action; `next()` iff every present priority, status and category is in its enumeration and a present due date parses; each 400 message is sent iff its rule is the first broken one; an absent field never rejects |
| `Validation.CheckBodyFollowsRuleOrder` | app.js:66-95 | the body validator is the rule table priority, status, category, due date tried in that order, first broken rule wins, `next()` when none is broken |
| `Validation.CheckQuery` | app.js:98-139 | as written: priority and status as in the body validator; category passes only for WORK, HOME or ""; an unparsable date gives 400 followed by `next()`; `next()` is called iff the first three checks pass |
| `Validation.QueryCategoryAsWritten` | app.js:118-126 | with priority and status valid, `category=LEARNING` is rejected and `category=` passes, although LEARNING is in the enumeration and "" is not |
| `Validation.QueryInvalidDateContinues` | app.js:127-138 | an unparsable `date` after passing checks produces 400 "Invalid Due Date" and then `next()` |
| `Validation.CheckQueryCorrected` | app.js:98-139 | corrected validator: exactly one action, `next()` iff every present field is in its enumeration and a present date parses |
| `Validation.CorrectedQueryMatchesBody` | app.js:62-139 | the corrected query validator gives the same answer as the body validator on the same four fields |
| `ListFilter.StatusProperty` | app.js:32-34 | presence is `!== undefined`, not truthiness: it holds only when status is present, and a status sent empty counts as present |
| `ListFilter.PriorityProperty` | app.js:36-38 | the same for priority |
| `ListFilter.CategoryProperty` | app.js:40-42 | the same for category |
| `ListFilter.StatusAndPriorityProperty` | app.js:44-48 | holds exactly when both the status and the priority predicates hold |
| `ListFilter.StatusAndCategoryProperty` | app.js:50-54 | holds exactly when both the status and the category predicates hold |
| `ListFilter.PriorityAndCategoryProperty` | app.js:56-60 | holds exactly when both the priority and the category predicates hold |
| `ListFilter.SelectShape` | app.js:144-168 | the shape is always one of no filter, status-only, priority-only, category-only: the three two-field shapes are dead code |
| `ListFilter.SelectShapeOrder` | app.js:144-168 | status present gives the status filter; else priority; else category; the unfiltered shape iff none of the three is present |
| `ListFilter.LiveShapesReachable` | app.js:145-167 | each of the four live shapes is selected by some query |
| `ListFilter.WhereFor` | app.js:146-167 | every shape's clause tests the text against `search_q` ("" when absent); only the fallback shape searches by substring; each shape constrains exactly the enumerated columns it names |
| `ListFilter.TodoWhere` | app.js:143-168 | the clause of `GET /todos/` constrains at most one enumerated column, and that column carries the value the client sent, never the text "undefined" |
| `ListFilter.TodoWhereClause` | app.js:143-167 | the text test is a substring search iff no enum field is present, exact equality otherwise; its text is `search_q`, "" when absent; the constrained column carries the value the client sent |
| `ListFilter.ListedRows` | app.js:146-167 | `?status=S` matches exactly the rows with status S and text equal to `search_q`; a query with no enum field matches exactly the rows whose text contains `search_q` |
| `ListFilter.CorrectedListedRows` | app.js:146-164 | with substring search in every shape, every row the written clause matches is still matched; the status (priority, category) filter matches exactly the rows with that value whose text contains `search_q`, so without `search_q` exactly the rows with that value |
| `ListFilter.StatusFilterMissesDoneTask` | app.js:146 | `?status=DONE` as written does not list a stored DONE task titled "Buy milk"; the corrected clause does |
| `Update.UpdateColumn` | app.js:206-225 | `updateColumn` is "" or one of "Status", "Priority", "Category", "Todo", "Due Date", and a column it names is one the body carries |
| `Update.ReplyText` | app.js:240 | the reply always ends in " Updated", and is exactly " Updated" iff the body carries none of the five fields |
| `Update.UpdateColumnOrder` | app.js:206-225 | the reply names the first present field in the order status, priority, category, todo, due date; the name is "" iff none is present |
| `Update.Put` | app.js:206-240 | the handler throws iff the prior row is missing and some field must default from it; otherwise each of status, priority, todo, category is the body value or the prior row's, the due date is the body value or "undefined", and the reply is the column name + " Updated" |
| `Update.PutCorrected` | app.js:230-240 | as `Put`, but an absent due date keeps the prior row's `due_date` |
| `Update.PutAfterValidation` | app.js:203-238 | after the body validator passes on a valid prior row, the written priority, status and category are in their enumerations, and without `dueDate` in the body the written due date is "undefined" |
| `Update.PutCorrectedKeepsRowValid` | app.js:203-238 | with the corrected default, a validated PUT on a valid row writes a valid row |
| `Update.StatusOnlyUpdate` | app.js:209-240 | for a body `{status: "DONE"}` the reply is "Status Updated"; corrected, the UPDATE is given every other column's stored value; as written, it is given the due date "undefined" |

## Left out

- Express wiring, `app.listen`, opening the database and `process.exit` (app.js:9-30, 250): process lifecycle and I/O.
- Running SQL (`db.all`, `db.get`, `db.run`) and the interpolated SQL text: the database engine is not part of this model. The filter is modelled as a `Where` value, and the merge as the values handed to the UPDATE. Table state is not modelled, so this model makes no claim about which rows the UPDATE touches (its text has no WHERE clause).
- Update.Put: `Put`, `PutCorrected` and the lemmas about them assume that `db.get` and `db.run` resolve. The UPDATE text at app.js:238 writes its SET list as a parenthesised list of assignments, `set(status="…",priority="…",…)`. SQLite's grammar does not appear to accept that form, so `db.run` may reject it. The reply at app.js:240 would then never be sent, and nothing would be written. This comes from reading the grammar, not from running anything.
- ListFilter.ListedRows: the client's values are interpolated into the SQL without escaping. A `"` inside `search_q`, `status`, `priority` or `category` changes the clause itself. `ListedRows` and `CorrectedListedRows` describe the clause as intended for values without such characters.
- ListFilter.ListedRows: reads `LIKE "%x%"` as plain substring containment. SQLite's ASCII case folding and the `%`/`_` wildcards inside `search_q` are not modelled. Neither is SQLite's treatment of a double-quoted word that names a column.
- Date parsing and formatting (`Date.parse`, `new Date`, date-fns `isValid` and `format`): foreign, locale-dependent calls. Validity is the `validDate` parameter; normalisation to `yyyy-MM-dd` is not modelled.
- The get-by-id, agenda, POST and DELETE handlers (app.js:175-201, 243-248): straight-line database calls with no decision logic.
- Request fields that are not strings: JSON numbers, `null` and repeated query keys that Express turns into arrays. Every field is an optional string.
- What happens after a second `response.send` when the query validator has already answered 400 and then calls `next()`: that is Express behaviour, not this service's.
- The unused `bcrypt` import, `console.log` calls and async/await sequencing.

## Findings

| source | as written | input that shows it | evidently intended | confidence | as-written member | corrected member |
|---|---|---|---|---|---|---|
| app.js:118-124 | the category test ends in `category && "LEARNING"`, a truthiness test | `GET /todos/?category=LEARNING` is rejected; `?category=` passes | membership in {WORK, HOME, LEARNING}, as in the body validator | high, not executed | `Validation.QueryCategoryAsWritten` | `Validation.CheckQueryCorrected` |
| app.js:131-135 | an unparsable date sends 400 and still calls `next()` | `GET /agenda/?date=abc` | reject without running the handler | high, not executed | `Validation.QueryInvalidDateContinues` | `Validation.CheckQueryCorrected` |
| app.js:234 | the due-date default reads `prevTodo.dueDate`, but the row's key is `due_date` | `PUT /todos/1/` with body `{"status":"DONE"}` hands the UPDATE the due date "undefined" | keep the stored due date | high, not executed | `Update.Put` | `Update.PutCorrected` |
| app.js:146-164 | the filtered shapes test `todo="search_q"` for equality | `GET /todos/?status=DONE` leaves out a DONE task titled "Buy milk" | substring search, as the fallback shape does | medium, not executed | `ListFilter.StatusFilterMissesDoneTask` | `ListFilter.TodoWhereCorrected` |
