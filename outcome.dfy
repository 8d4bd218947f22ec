/** Outcomes of the operations: a value, or the Ruby exception that aborts the request. */
module Outcome {

  datatype Option<+T> = None | Some(value: T)

  /** The exceptions the handlers can raise. None of them is rescued: each one aborts the request. */
  datatype Failure =
    | RuntimeError(message: string)  // `raise "..."` in the token handling
    | KeyError(key: string)          // Hash#fetch on a key the reply lacks
    | TypeError                      // dig or [] on a value that cannot be indexed by a string, Time.parse(nil)
    | NoMethodError                  // a method the value's class does not have (nil * 0.9, 5.delete(...))
    | ArgumentError                  // Time.parse on a string that is not a time
    | WrongType                      // the Redis WRONGTYPE reply: a string command on a hash or the reverse

  datatype Result<+T> = Ok(value: T) | Err(failure: Failure)
}
