/** Datatypes shared by the components of the model. */
module Common {

  /** A nullable value: a column, a dictionary lookup, an optional field. */
  datatype Option<+T> = None | Some(value: T)

  /** A computation that may raise. */
  datatype Result<+T> = Ok(value: T) | Raised

  datatype Severity = Info | Low | Medium | High | Critical
}
