/** The enumerations of the ASCOM telescope interface that the driver's core uses. */
module DeviceInterface {

  /** `TelescopeAxes`: the mount's axes; the TTS-160 drives the first two. */
  datatype Axis = AxisPrimary | AxisSecondary | AxisTertiary

  /** `GuideDirections`: the four directions of a guide pulse. */
  datatype GuideDirection = GuideNorth | GuideSouth | GuideEast | GuideWest

  /** `DriveRates`: the tracking rates the interface knows of. */
  datatype DriveRate = DriveSidereal | DriveLunar | DriveSolar | DriveKing
}

/** The exceptions the driver raises, as values. */
module Outcomes {

  datatype Error =
    | NotConnected      // ASCOM.NotConnectedException
    | InvalidValue      // ASCOM.InvalidValueException
    | InvalidOperation  // System.InvalidOperationException
    | TargetNotSet      // "Target not set"
    | InvalidTarget     // the mount answered '0' to a set-target command
    | UnableToSlew      // the mount answered '1' to the slew command
    | IndexOutOfRange   // a 1-based index outside a rate collection

  /** The result of an operation that returns a value or throws. */
  datatype Result<T> = Ok(value: T) | Err(error: Error)

  /** The result of an operation that returns nothing or throws. */
  datatype Outcome = Pass | Fail(error: Error)
}
