/** The record the whole front end passes around, and the two wrappers the model uses
    for values that may be missing (`undefined`) and for calls that may throw. */
module Exercises {

  /** An exercise as the upstream catalogue returns it. Only `id` is used for identity;
      the other fields are shown and searched. */
  datatype Exercise = Exercise(
    id: string,
    name: string,
    bodyPart: string,
    target: string,
    equipment: string,
    gifUrl: string)

  datatype Option<+T> = None | Some(value: T)

  /** The outcome of a call that either returns a value or throws `error`. */
  datatype Result<+T, +E> = Success(value: T) | Failure(error: E)

  /** What an axios request rejects with; its content is never inspected. */
  datatype ApiError = ApiError(message: string)
}
