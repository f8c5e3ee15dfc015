/** Small wrapper types shared by every module of the model. */
module Base {

  /** An optional value: a JavaScript `undefined`, or a present value. */
  datatype Option<+T> = None | Some(value: T)

  /** The outcome of a parse: the parsed value, or the reasons it was refused. */
  datatype Result<+T, +E> = Success(value: T) | Failure(error: E)

  /** One field of a partial update: the new value when one is given, else the current one. */
  function Pick<T>(current: T, change: Option<T>): (r: T)
    ensures change.None? ==> r == current
    ensures change.Some? ==> r == change.value
  {
    if change.Some? then change.value else current
  }
}
