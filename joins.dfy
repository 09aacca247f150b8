/**
 * JavaScript's `Array.prototype.join(',')` on a list of strings, which both
 * stores use to turn a multi-select filter into one comma-separated term.
 */
module Joins {

  /** `xs.join(',')`: the elements in order, a single comma between neighbours. */
  function Join(xs: seq<string>): string
  {
    if |xs| == 0 then ""
    else if |xs| == 1 then xs[0]
    else xs[0] + "," + Join(xs[1..])
  }

  /**
   * The joined string is falsy (empty) exactly when the list is empty or is a
   * single empty string: two or more elements always leave a comma behind.
   */
  lemma JoinEmptyIff(xs: seq<string>)
    ensures Join(xs) == "" <==> (|xs| == 0 || (|xs| == 1 && xs[0] == ""))
  {
    if |xs| >= 2 {
      assert Join(xs)[|xs[0]|] == ',';
    }
  }

  /** Appending one element to a non-empty list appends a comma and that element. */
  lemma {:induction false} JoinSnoc(xs: seq<string>, x: string)
    requires |xs| >= 1
    ensures Join(xs + [x]) == Join(xs) + "," + x
  {
    if |xs| == 1 {
      assert xs + [x] == [xs[0], x];
    } else {
      assert (xs + [x])[1..] == xs[1..] + [x];
      JoinSnoc(xs[1..], x);
    }
  }
}
