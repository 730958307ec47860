/** Outcomes of the gas-sensor operations. The source reports failure by raising
    an exception that nobody in the core catches; here an operation returns
    `Err` with the kind of exception instead, and `:-` propagates it the way the
    exception would propagate. */
module Results {

  datatype Error =
    | ReadFailure   // the analog channel could not deliver a sample
    | ZeroDivision  // a division by a zero float (ZeroDivisionError)
    | MathDomain    // the natural logarithm of a non-positive number (ValueError)

  datatype Result<+T> = Ok(value: T) | Err(error: Error) {

    predicate IsFailure() {
      Err?
    }

    function PropagateFailure<U>(): Result<U>
      requires Err?
    {
      Err(error)
    }

    function Extract(): T
      requires Ok?
    {
      value
    }
  }
}
