/** Values that stand for a JavaScript `null`/`undefined`, a Java `Optional`, or a thrown
    exception: the model returns them instead of throwing. */
module Wrappers {

  datatype Option<+T> = None | Some(value: T)

  datatype Result<+R, +E> = Success(value: R) | Failure(error: E)
}
