/** Optional values and results with the failure kinds the model distinguishes. */
module Wrappers {

  datatype Option<+T> = None | Some(value: T)

  /**
   * What goes wrong where the original code throws, trips an Eigen assertion
   * or has undefined behaviour.
   */
  datatype Error =
    | Truncated      // a chunk header or payload runs past the end of its scope
    | Overflow       // `ReadAll` copies more bytes than the destination holds
    | Indeterminate  // an uninitialised local is used
    | BadIndex       // a subscript or `at()` out of range, or a key missing from a map
    | BadShape       // matrix dimensions that Eigen refuses
    | BadPointer     // a null or placeholder pointer dereferenced
    | Unbound        // a `std::function` or function pointer never assigned
    | DivideByZero   // an integer division by zero
    | NotANumber     // a float `0 / 0`, which gives NaN instead of a value
    | Infinite       // a float `x / 0` with `x != 0`, which gives an infinity instead of a value

  datatype Result<+T> = Success(value: T) | Failure(error: Error)
}
