/** A value that may be missing; the parsers of this model chain it with `:-`. */
module Options {

  datatype Option<+T> = None | Some(value: T) {

    /** A None stops a `:-` chain. */
    predicate IsFailure() {
      None?
    }

    /** Carries a None over to an Option of another value type. */
    function PropagateFailure<U>(): Option<U>
      requires None?
    {
      None
    }

    /** The value held by a Some. */
    function Extract(): T
      requires Some?
    {
      value
    }
  }
}
