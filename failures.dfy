/** Optional values, results and the exceptions the episodic engine can raise. */
module Failures {

  datatype Option<+T> = None | Some(value: T)

  datatype Result<+R> = Ok(value: R) | Err(error: Error)

  /** The failures of the engine, one per Python exception it can raise. */
  datatype Error =
    | ShapeError                      // a `view`/`topk`/`argmax`/`==` whose sizes do not fit
    | IndexError                      // `x[0]` on an empty list of modalities
    | TypeError                       // two-axis slicing of a list-shaped feature batch
    | NegativeRepeat                  // `np.repeat` with a negative repeat count
    | ZeroDivision                    // `correct_this / count_this` with a zero count
    | UnboundLocal                    // `correct_this` read before any assignment
    | UnsupportedCorrelation(kind: string)
    | FeatureNotFixed                 // the assertion at the head of `set_forward_adaptation`
}
