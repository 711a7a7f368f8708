/** The two result shapes shared by the models: an absent value, and a value or an error code. */
module Options {
  datatype Option<+T> = None | Some(value: T)

  datatype Result<+T> = Ok(value: T) | Err(code: string)
}
