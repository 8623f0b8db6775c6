/**
  The small part of JavaScript number semantics that `isCorrect` relies on:
  `Number(...)` applied to an answer, and strict equality `===` on numbers.
  Only integers and NaN are represented; fractional and infinite values are
  not part of this model.
 */
module JsNumbers {
  import opened Wrappers

  /** A JavaScript number restricted to the values this model needs. */
  datatype JsNumber = NaN | Finite(n: int)

  /**
    `Number(answer)`: a numeric answer keeps its value; `None` stands for
    `undefined` or any other value `Number` maps to NaN (such as "abc"),
    and becomes NaN.
   */
  function ToNumber(answer: Option<int>): (x: JsNumber)
    ensures x == NaN <==> answer.None?
    ensures answer.Some? ==> x == Finite(answer.value)
  {
    match answer
    case None => NaN
    case Some(k) => Finite(k)
  }

  /** Strict equality `x === y` on numbers: NaN equals nothing, not even itself. */
  function StrictEquals(x: JsNumber, y: JsNumber): (r: bool)
    ensures r <==> x == y && x != NaN
  {
    x.Finite? && y.Finite? && x.n == y.n
  }
}
