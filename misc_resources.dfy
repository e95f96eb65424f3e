/**
 * The driver's process-wide motion and target bookkeeping (MiscResources.cs).
 * The firmware reports neither slews nor guiding, so the driver keeps these
 * flags itself. In the source they are static properties whose setters
 * overwrite one backing field without any check; here they are the fields of
 * one shared MotionState object, and a setter is an assignment to its field.
 */
module MiscResources {

  /** A C# `short`. */
  newtype Int16 = x: int | -0x8000 <= x < 0x8000

  /** The tick count of `DateTime.MinValue`, which marks "no settle timer running". */
  const DateTimeMinValue: int := 0

  /** `EquatorialCoordinates`: a mutable right ascension (hours) and declination (degrees). */
  class EquatorialCoordinates {
    var rightAscension: real
    var declination: real

    constructor ()
      ensures rightAscension == 0.0 && declination == 0.0
    {
      rightAscension, declination := 0.0, 0.0;
    }
  }

  /** The shared motion state. */
  class MotionState {
    var movingPrimary: bool
    var movingSecondary: bool
    var isGuiding: bool
    var isSlewing: bool
    var isPulseGuideInProgress: bool
    var isSlewingToTarget: bool
    var isTargetRASet: bool
    var isTargetDecSet: bool
    var isTargetSet: bool
    var target: EquatorialCoordinates
    var settleTime: Int16
    var isSlewingAsync: bool
    var slewSettleStart: int

    /**
     * Every field starts at its default (MiscResources.cs:7-103): nothing
     * moving, guiding or slewing, no target coordinate set, a fresh target at
     * RA = Dec = 0, a settle time of 2 seconds and no settle timer running.
     */
    constructor ()
      ensures !movingPrimary && !movingSecondary && !isGuiding && !isSlewing
      ensures !isPulseGuideInProgress && !isSlewingToTarget && !isSlewingAsync
      ensures !isTargetRASet && !isTargetDecSet && !isTargetSet
      ensures fresh(target) && target.rightAscension == 0.0 && target.declination == 0.0
      ensures settleTime == 2 && slewSettleStart == DateTimeMinValue
      ensures TargetConsistent()
    {
      movingPrimary, movingSecondary, isGuiding, isSlewing := false, false, false, false;
      isPulseGuideInProgress, isSlewingToTarget := false, false;
      isTargetRASet, isTargetDecSet, isTargetSet := false, false, false;
      target := new EquatorialCoordinates();
      settleTime := 2;
      isSlewingAsync := false;
      slewSettleStart := DateTimeMinValue;
    }

    /**
     * The target is complete exactly when both of its coordinates are. Nothing
     * here enforces this: IsTargetSet is a field of its own, and the
     * operations that change the target flags have to keep it.
     */
    predicate TargetConsistent()
      reads this
    {
      isTargetSet == (isTargetRASet && isTargetDecSet)
    }
  }
}
