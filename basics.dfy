/** Small value types shared by every part of the model. */
module Basics {

  /** A value that may be absent. For ids it stands for the outcome of
      JavaScript's `Number(x)`: `None` is a value that is not a number (NaN). */
  datatype Option<+T> = None | Some(value: T)

  /** JavaScript truthiness of a numeric id: `null`, NaN and 0 are falsy. */
  predicate IsTruthyId(id: Option<int>)
  {
    id.Some? && id.value != 0
  }
}
