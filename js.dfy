/** JavaScript values as the integration sees them.

    A property that may be missing (`undefined`, `null`) is `None`; a string
    property that is present is `Some(s)`. JavaScript's truthiness and its
    short-circuit `||` operator are modelled on these values, since every
    "fill only when absent" rule of the integration is written with `||` or `!`.
 */
module Js {

  datatype Option<+T> = None | Some(value: T) {
    /** The value, or `default` when there is none (`x || default` on objects). */
    function GetOr(default: T): T {
      match this
      case Some(v) => v
      case None => default
    }
  }

  /** A property that holds a string or nothing at all. */
  type JsString = Option<string>

  /** JavaScript truthiness of a possibly missing string: `undefined`, `null`
      and `''` are falsy, every other string is truthy. */
  predicate Truthy(s: JsString) {
    s.Some? && s.value != ""
  }

  /** JavaScript's `a || b`: the left operand when it is truthy, else the right one. */
  function Or(a: JsString, b: JsString): JsString {
    if Truthy(a) then a else b
  }

  /** The value of the chain `xs[0] || xs[1] || ... || xs[n-1]`: the first
      truthy operand, or the last operand when none is truthy. */
  function FirstTruthy(xs: seq<JsString>): (r: JsString)
    requires |xs| > 0
    ensures Truthy(r) <==> exists i :: 0 <= i < |xs| && Truthy(xs[i])
    ensures Truthy(r) ==> exists i :: 0 <= i < |xs| && r == xs[i] && forall j :: 0 <= j < i ==> !Truthy(xs[j])
    ensures !Truthy(r) ==> r == xs[|xs| - 1]
  {
    if |xs| == 1 then xs[0]
    else
      var tail := FirstTruthy(xs[1..]);
      if Truthy(xs[0]) then xs[0]
      else
        assert forall i :: 1 <= i < |xs| ==> xs[i] == xs[1..][i - 1];
        tail
  }

  /** `||` associates to the left in the source (`a || b || c`); the value
      is the same as taking the first truthy operand. */
  lemma {:induction false} OrChain(xs: seq<JsString>)
    requires |xs| > 0
    ensures OrFold(xs) == FirstTruthy(xs)
  {
    if |xs| > 1 {
      if Truthy(xs[0]) {
        OrFoldFirst(xs);
      } else {
        OrFoldSkip(xs);
        OrChain(xs[1..]);
      }
    }
  }

  /** The left-associated chain `((xs[0] || xs[1]) || ...) || xs[n-1]`. */
  function OrFold(xs: seq<JsString>): JsString
    requires |xs| > 0
  {
    if |xs| == 1 then xs[0] else Or(OrFold(xs[..|xs| - 1]), xs[|xs| - 1])
  }

  lemma {:induction false} OrFoldFirst(xs: seq<JsString>)
    requires |xs| > 0 && Truthy(xs[0])
    ensures OrFold(xs) == xs[0]
  {
    if |xs| > 1 {
      OrFoldFirst(xs[..|xs| - 1]);
    }
  }

  lemma {:induction false} OrFoldSkip(xs: seq<JsString>)
    requires |xs| > 1 && !Truthy(xs[0])
    ensures OrFold(xs) == OrFold(xs[1..])
  {
    if |xs| > 2 {
      OrFoldSkip(xs[..|xs| - 1]);
      assert xs[..|xs| - 1][1..] == xs[1..][..|xs| - 2];
    }
  }
}
