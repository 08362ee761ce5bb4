/** Small value types shared by every module of the project. */
module Common {

  datatype Option<+T> = None | Some(value: T)

  datatype Result<+T> = Ok(value: T) | Err(error: Error)

  /** The sentinel errors that the modelled code distinguishes. */
  datatype Error =
    | Unavailable        // audit.ErrUnavailable
    | Integrity          // audit.ErrIntegrity
    | Legacy             // audit.ErrLegacy
    | Policy             // audit.ErrPolicy
    | NotFound           // gorm.ErrRecordNotFound
    | Duplicate          // a unique index rejected an insert
    | Service(name: string)    // an error of the service layer, by sentinel name

  /** Decimal digits of a number. */
  function Digits(n: nat): string {
    if n < 10 then [['0', '1', '2', '3', '4', '5', '6', '7', '8', '9'][n]] else Digits(n / 10) + Digits(n % 10)
  }
}
