/** Nullable columns, SQL comparisons against them and the Python idioms the stores share:
    `min`, `max`, `max(1, n)` and `x or default`. */
module Sql {

  datatype Option<+T> = None | Some(value: T)

  /** `column > now` in a WHERE clause: a comparison with NULL is not true. */
  predicate After(column: Option<int>, now: int) {
    column.Some? && column.value > now
  }

  /** `column <= now` in a WHERE clause. */
  predicate Due(column: Option<int>, now: int) {
    column.Some? && column.value <= now
  }

  function Min(a: int, b: int): int {
    if a <= b then a else b
  }

  function Max(a: int, b: int): int {
    if a >= b then a else b
  }

  /** Python's `max(1, n)`. */
  function AtLeastOne(n: int): (r: int)
    ensures r >= 1
  {
    if n < 1 then 1 else n
  }

  /** Python's `param or fallback`: both None and 0 select the fallback. */
  function OrElse(param: Option<int>, fallback: int): int {
    if param.None? || param.value == 0 then fallback else param.value
  }
}
