/** Failure-carrying values shared by every module of the model. */
module Wrappers {

  datatype Option<+T> = None | Some(value: T)

  /** A computation that either produced a value or stopped the program:
      a thrown `std::runtime_error`, a failed `assert`, or a dereference
      the C++ code leaves undefined. */
  datatype Outcome<+T> = Done(value: T) | Aborted(reason: string)
}
