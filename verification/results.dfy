/** The outcomes the formatter reports: an optional value, the reasons
    formatting stops, and a result carrying one or the other. */
module Results {

  datatype Option<+T> = None | Some(value: T)

  /** Why formatting stops. The source returns -1 for each of them. */
  datatype Error = CapacityQueryFailed | VolumeTooLarge | VolumeTooSmall | WriteFailed

  datatype Result<+T> = Ok(value: T) | Err(error: Error)
}
