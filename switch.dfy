/**
  The meaning of JavaScript's `switch (true) { case e1: ...; break; ... default: ... }`
  when every case ends in `break`: the case expressions are tried in source
  order, the first one that is `true` selects its branch, and the `default`
  branch (or nothing, when there is none) runs when no case is `true`.
  The handlers of the to-do service use this idiom twice.
*/
module Switch {

  /** One `case test:` clause together with the value its branch produces. */
  datatype Case<T> = Case(test: bool, body: T)

  /** Case `i` is the one `switch (true)` selects: it is true and none before it is. */
  ghost predicate Selected<T>(cases: seq<Case<T>>, i: int) {
    0 <= i < |cases| && cases[i].test && forall j :: 0 <= j < i ==> !cases[j].test
  }

  /** No case is true, so control reaches `default` (or the end of the switch). */
  ghost predicate NoneTrue<T>(cases: seq<Case<T>>) {
    forall i :: 0 <= i < |cases| ==> !cases[i].test
  }

  /** The value produced by `switch (true)` over `cases`, with `fallback` for `default`. */
  function SwitchTrue<T>(cases: seq<Case<T>>, fallback: T): (r: T)
    ensures NoneTrue(cases) ==> r == fallback
    ensures forall i :: Selected(cases, i) ==> r == cases[i].body
    decreases |cases|
  {
    if |cases| == 0 then fallback
    else if cases[0].test then cases[0].body
    else
      assert forall i :: Selected(cases, i) ==> i > 0 && Selected(cases[1..], i - 1);
      SwitchTrue(cases[1..], fallback)
  }
}
