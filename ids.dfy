/**
 * Vertex identifiers. The program keys its Map by plain JavaScript values;
 * the graphs it builds use strings ('A', 'B', ...) and integers (1, 2, ...).
 */
module Ids {

  datatype Id = Str(s: string) | Num(n: int)

  /**
   * JavaScript falsiness restricted to the identifiers above: the empty
   * string and the number 0 (`!vertex` is true exactly for these).
   */
  predicate IsFalsy(v: Id)
  {
    match v
    case Str(s) => s == ""
    case Num(n) => n == 0
  }
}
