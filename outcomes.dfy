/** Option and Result wrappers shared by every module of the model. */
module Outcomes {

  datatype Option<+T> = None | Some(value: T)

  /** A call that either succeeds with a value or fails with an error message. */
  datatype Result<+T> = Success(value: T) | Failure(error: string)

  /**
   * How a JavaScript call of the engine ends: it throws synchronously,
   * or it returns a promise that rejects or resolves.
   */
  datatype Call<+T> = Throws(message: string) | Rejects(reason: string) | Resolves(value: T)
}
