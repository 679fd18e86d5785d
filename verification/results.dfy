/** Result and Option types for the domain layer, and the rejections a write or a lookup can end in. */
module Results {

  datatype Option<+T> = None | Some(value: T)

  /** The rejections of the domain layer: a lookup miss, a field that fails its declared
      constraint, a value outside a choice set, a duplicate unique code, and the date-range
      error raised by `Reservation.clean`. */
  datatype Error =
    | NotFound
    | InvalidField(field: string)
    | InvalidChoice(field: string)
    | NotUnique(field: string)
    | InvalidDateRange

  datatype Result<+T> = Ok(value: T) | Err(error: Error)
}
