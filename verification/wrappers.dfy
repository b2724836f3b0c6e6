/** Helper datatypes shared by the modules of this model.
    `Option` stands for the source's `null` / `undefined`; `Result` for a
    value-or-thrown-error outcome. */
module Wrappers {

  datatype Option<+T> = None | Some(value: T)

  datatype Result<+R, +E> = Success(value: R) | Failure(error: E)
}
