/** Failure-compatible result and option types, and the error taxonomy of the
    fault data model. Each `Error` stands for one kind of exception the Python
    constructors raise; message text is not modelled. */
module Results {

  datatype Error =
    /** ValueError: a preferred-minimum-maximum tuple has the wrong length */
    | ShapeError
    /** ValueError: the minimum of a tuple is greater than its maximum */
    | RangeError
    /** TypeError: `>` applied to two values Python cannot order */
    | Incomparable
    /** AssertionError from `_assert_assign`: the value is not a Parameter */
    | NotParameter
    /** KeyError: the attribute dictionary has no entry for `key` */
    | MissingKey(key: string)
    /** AssertionError: an observation location is not a Point */
    | NotPoint
    /** AssertionError: a trace geometry is not a Line */
    | NotLine
    /** TypeError: a tuple was called like a function (code as written only) */
    | NotCallable
    /** NameError: a name that is bound nowhere was read (code as written only) */
    | UnboundName(name: string)
    /** TypeError: a call passed more arguments than the callee accepts (code as written only) */
    | ArgumentCount

  datatype Result<+T> = Ok(value: T) | Err(error: Error) {

    predicate IsFailure() {
      Err?
    }

    function PropagateFailure<U>(): Result<U>
      requires Err?
    {
      Err(error)
    }

    function Extract(): T
      requires Ok?
    {
      value
    }
  }

  datatype Option<+T> = None | Some(value: T)
}
