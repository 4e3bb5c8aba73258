/** Optional values and results with an error message, for the source's `NaN`,
    `undefined` and thrown errors. */
module Options {

  datatype Option<T> = None | Some(value: T)
  {
    function GetOr(default: T): T
    {
      match this
      case Some(v) => v
      case None => default
    }
  }

  datatype Result<T> = Ok(value: T) | Err(message: string)
}
