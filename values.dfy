/** Value wrappers shared by the whole model: JavaScript's `null`/`undefined`
    becomes `None`, a thrown exception becomes `Fail`/`Err` carrying its message. */
module Values {

  /** A nullable value: `None` stands for `null` (and `undefined` where the
      source does not tell the two apart). */
  datatype Option<+T> = None | Some(value: T)

  /** The outcome of an awaited call that returns nothing: it either resolves
      or rejects with an error whose `message` is carried. */
  datatype Outcome = Pass | Fail(message: string)

  /** The outcome of an awaited call that returns a value or rejects. */
  datatype Result<+T> = Ok(value: T) | Err(message: string)
}
