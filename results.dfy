/** Failure-carrying wrappers shared by every module of the model.
    A JavaScript `throw new Error(msg)` is modelled as `Err(msg)`; the
    message is what the route handler finally reports. */
module Results {

  datatype Option<+T> = None | Some(value: T)

  datatype Result<+T> = Ok(value: T) | Err(message: string)
}
