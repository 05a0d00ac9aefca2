/**
  The two request validators of the to-do service, `checkValidityForBody`
  (POST and PUT bodies) and `checkValidityForQuery` (GET query strings).
  Each is modelled by the sequence of calls it makes on the response and on
  `next`: `Respond400(m)` is `response.status(400); response.send(m)` and
  `Next` is `next()`, which runs the route handler.

  Whether a date string parses (`Date.parse`/`new Date` followed by
  date-fns `isValid`) is decided outside the service, so it is the
  parameter `validDate`.
*/
module Validation {
  import opened Wrappers
  import opened Todos
  import Switch

  datatype Effect = Respond400(message: string) | Next

  const PriorityMessage := "Invalid Todo Priority"
  const StatusMessage := "Invalid Todo Status"
  const CategoryMessage := "Invalid Todo Category"
  const DateMessage := "Invalid Due Date"

  /** A present date is acceptable only when it parses. */
  predicate DateAllowed(v: Option<string>, validDate: string -> bool) {
    v.None? || validDate(v.value)
  }

  /** A rule that rejects with `message` when it is broken. */
  function Rule(broken: bool, message: string): Switch.Case<seq<Effect>> {
    Switch.Case(broken, [Respond400(message)])
  }

  /** The four rules of the body validator, in the order it tries them, each with its message. */
  function BodyRules(b: Body, validDate: string -> bool): seq<Switch.Case<seq<Effect>>> {
    [ Rule(!Allowed(b.priority, Priorities), PriorityMessage),
      Rule(!Allowed(b.status, Statuses), StatusMessage),
      Rule(!Allowed(b.category, Categories), CategoryMessage),
      Rule(!DateAllowed(b.dueDate, validDate), DateMessage) ]
  }

  /**
    `checkValidityForBody`: exactly one response action; `next()` exactly when
    every present field is in its enumeration and a present due date parses;
    otherwise a single 400 carrying the message of the first broken rule in
    the order priority, status, category, due date.
  */
  function CheckBody(b: Body, validDate: string -> bool): (r: seq<Effect>)
    ensures |r| == 1
    ensures r == [Next] <==>
      Allowed(b.priority, Priorities) && Allowed(b.status, Statuses) &&
      Allowed(b.category, Categories) && DateAllowed(b.dueDate, validDate)
    ensures r == [Respond400(PriorityMessage)] <==> !Allowed(b.priority, Priorities)
    ensures r == [Respond400(StatusMessage)] <==>
      Allowed(b.priority, Priorities) && !Allowed(b.status, Statuses)
    ensures r == [Respond400(CategoryMessage)] <==>
      Allowed(b.priority, Priorities) && Allowed(b.status, Statuses) && !Allowed(b.category, Categories)
    ensures r == [Respond400(DateMessage)] <==>
      Allowed(b.priority, Priorities) && Allowed(b.status, Statuses) && Allowed(b.category, Categories) &&
      !DateAllowed(b.dueDate, validDate)
  {
    if b.priority != None && b.priority.value != "HIGH" && b.priority.value != "MEDIUM" && b.priority.value != "LOW" then
      [Respond400(PriorityMessage)]
    else if b.status != None && b.status.value != "TO DO" && b.status.value != "IN PROGRESS" && b.status.value != "DONE" then
      [Respond400(StatusMessage)]
    else if b.category != None && b.category.value != "WORK" && b.category.value != "HOME" && b.category.value != "LEARNING" then
      [Respond400(CategoryMessage)]
    else if b.dueDate != None && !validDate(b.dueDate.value) then
      [Respond400(DateMessage)]
    else
      [Next]
  }

  /**
    First broken rule wins: the body validator answers exactly what the rule
    table does when its rules are tried in the order priority, status,
    category, due date.
  */
  lemma {:induction false} CheckBodyFollowsRuleOrder(b: Body, validDate: string -> bool)
    ensures CheckBody(b, validDate) == Switch.SwitchTrue(BodyRules(b, validDate), [Next])
  {
    var rules := BodyRules(b, validDate);
    if rules[0].test {
      assert Switch.Selected(rules, 0);
    } else if rules[1].test {
      assert Switch.Selected(rules, 1);
    } else if rules[2].test {
      assert Switch.Selected(rules, 2);
    } else if rules[3].test {
      assert Switch.Selected(rules, 3);
    } else {
      assert Switch.NoneTrue(rules);
    }
  }

  /**
    The categories `checkValidityForQuery` lets through as written: its test
    ends in `category && "LEARNING"`, a truthiness test rather than a
    comparison, so it accepts "" and rejects "LEARNING".
  */
  const QueryCategoriesAsWritten: set<string> := {"WORK", "HOME", ""}

  /**
    `checkValidityForQuery` as written: the same chain as the body validator
    except for the category test, and a present date that does not parse
    sends the 400 and still calls `next()`.
  */
  function CheckQuery(q: Query, validDate: string -> bool): (r: seq<Effect>)
    ensures 1 <= |r| <= 2
    ensures Next in r <==>
      Allowed(q.priority, Priorities) && Allowed(q.status, Statuses) && Allowed(q.category, QueryCategoriesAsWritten)
    ensures r == [Next] <==>
      Allowed(q.priority, Priorities) && Allowed(q.status, Statuses) &&
      Allowed(q.category, QueryCategoriesAsWritten) && DateAllowed(q.date, validDate)
    ensures r == [Respond400(PriorityMessage)] <==> !Allowed(q.priority, Priorities)
    ensures r == [Respond400(StatusMessage)] <==>
      Allowed(q.priority, Priorities) && !Allowed(q.status, Statuses)
    ensures r == [Respond400(CategoryMessage)] <==>
      Allowed(q.priority, Priorities) && Allowed(q.status, Statuses) && !Allowed(q.category, QueryCategoriesAsWritten)
    ensures r == [Respond400(DateMessage), Next] <==>
      Allowed(q.priority, Priorities) && Allowed(q.status, Statuses) &&
      Allowed(q.category, QueryCategoriesAsWritten) && !DateAllowed(q.date, validDate)
  {
    if q.priority != None && q.priority.value != "HIGH" && q.priority.value != "MEDIUM" && q.priority.value != "LOW" then
      [Respond400(PriorityMessage)]
    else if q.status != None && q.status.value != "TO DO" && q.status.value != "IN PROGRESS" && q.status.value != "DONE" then
      [Respond400(StatusMessage)]
    else if q.category != None && q.category.value != "WORK" && q.category.value != "HOME" &&
            Truthy(q.category.value) && Truthy("LEARNING") then
      [Respond400(CategoryMessage)]
    else if q.date != None then
      (if !validDate(q.date.value) then [Respond400(DateMessage)] else []) + [Next]
    else
      [Next]
  }

  /**
    The category quirk of `checkValidityForQuery`: once priority and status
    pass, `category=LEARNING` is refused and `category=` (empty) is let
    through, the reverse of what the enumeration says.
  */
  lemma QueryCategoryAsWritten(q: Query, validDate: string -> bool)
    requires Allowed(q.priority, Priorities) && Allowed(q.status, Statuses)
    ensures q.category == Some("LEARNING") ==> CheckQuery(q, validDate) == [Respond400(CategoryMessage)]
    ensures q.category == Some("") ==> Next in CheckQuery(q, validDate)
    ensures "LEARNING" in Categories && "" !in Categories
  {
  }

  /** The date quirk of `checkValidityForQuery`: an unparsable date both answers 400 and runs the handler. */
  lemma QueryInvalidDateContinues(q: Query, validDate: string -> bool)
    requires Allowed(q.priority, Priorities) && Allowed(q.status, Statuses) && Allowed(q.category, QueryCategoriesAsWritten)
    requires q.date.Some? && !validDate(q.date.value)
    ensures CheckQuery(q, validDate) == [Respond400(DateMessage), Next]
  {
  }

  /**
    The query validator as its rule set intends it: category is tested for
    membership like in the body validator, and an unparsable date rejects
    without running the handler.
  */
  function CheckQueryCorrected(q: Query, validDate: string -> bool): (r: seq<Effect>)
    ensures |r| == 1
    ensures r == [Next] <==>
      Allowed(q.priority, Priorities) && Allowed(q.status, Statuses) &&
      Allowed(q.category, Categories) && DateAllowed(q.date, validDate)
  {
    if !Allowed(q.priority, Priorities) then [Respond400(PriorityMessage)]
    else if !Allowed(q.status, Statuses) then [Respond400(StatusMessage)]
    else if !Allowed(q.category, Categories) then [Respond400(CategoryMessage)]
    else if !DateAllowed(q.date, validDate) then [Respond400(DateMessage)]
    else [Next]
  }

  /** The corrected query validator applies exactly the body validator's rules, `date` standing for `dueDate`. */
  lemma CorrectedQueryMatchesBody(q: Query, validDate: string -> bool)
    ensures CheckQueryCorrected(q, validDate) ==
      CheckBody(Body(None, q.priority, q.status, q.category, q.date), validDate)
  {
  }
}
