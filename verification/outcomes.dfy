/** Optional values and the Python exceptions that escape the watcher's operations. */
module Outcomes {

  datatype Option<+T> = None | Some(value: T)

  /** The exception a failing call raises. */
  datatype Error =
    | AssertionFailed   // the `assert` on conflicting count filters
    | TypeError         // iterating, or testing membership in, something that is not a container
    | AttributeError    // calling `.copy()` on a watched-model set that was never created
    | KeyError          // looking up a model that has no change list
    | NotImplemented    // calling a guarded manager method while its model is watched

  datatype Result<+T> = Ok(value: T) | Err(error: Error)
}
