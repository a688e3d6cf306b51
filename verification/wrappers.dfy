/** Failure-carrying values shared by every component. */
module Wrappers {

  datatype Option<+T> = None | Some(value: T)

  /** The error kinds the daemon tells apart. Database and archive failures are not modelled. */
  datatype Error = Config | Auth | Unparseable | Delivery | NotFound

  datatype Result<+T> = Ok(value: T) | Err(error: Error)
}
