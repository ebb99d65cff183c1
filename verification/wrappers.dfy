/** The optional-value wrapper used for JSON keys that may be absent. */
module Wrappers {

  /** `None` stands for a key that is absent (or a value that is falsy, where
      the program tests truthiness); `Some(v)` for a key that is present. */
  datatype Option<+T> = None | Some(value: T) {

    predicate IsFailure() {
      None?
    }

    function PropagateFailure<U>(): Option<U>
      requires None?
    {
      None
    }

    function Extract(): T
      requires Some?
    {
      value
    }
  }
}
