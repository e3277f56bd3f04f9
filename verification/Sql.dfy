/** PostgreSQL's NULL semantics, as far as the upsert statements depend on them. */
module Sql {

  /** A nullable column, or an optional Go pointer. */
  datatype Option<+T> = None | Some(value: T)

  /** LEAST skips NULL arguments. */
  function Least(a: Option<int>, b: Option<int>): Option<int> {
    if a.None? then b else if b.None? then a else if a.value <= b.value then a else b
  }

  /** GREATEST skips NULL arguments. */
  function Greatest(a: Option<int>, b: Option<int>): Option<int> {
    if a.None? then b else if b.None? then a else if a.value >= b.value then a else b
  }

  function Coalesce<T>(a: Option<T>, b: Option<T>): Option<T> {
    if a.Some? then a else b
  }

  /** `a < b`, which is NULL as soon as one side is. */
  function Less(a: Option<int>, b: Option<int>): Option<bool> {
    if a.Some? && b.Some? then Some(a.value < b.value) else None
  }

  /** A CASE branch is taken only when its condition is TRUE: NULL falls through. */
  predicate Holds(condition: Option<bool>) {
    condition == Some(true)
  }
}
