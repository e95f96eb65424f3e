/** The rate collections the driver hands to clients (Rates.cs). */
module Rates {
  import opened DeviceInterface
  import opened Outcomes

  /** `Rate`: a range of jog rates in degrees per second; both ends can be overwritten. */
  class Rate {
    var minimum: real
    var maximum: real

    constructor (minimum: real, maximum: real)
      ensures this.minimum == minimum && this.maximum == maximum
    {
      this.minimum, this.maximum := minimum, maximum;
    }

    method SetMaximum(value: real)
      modifies this
      ensures maximum == value && minimum == old(minimum)
    {
      maximum := value;
    }

    method SetMinimum(value: real)
      modifies this
      ensures minimum == value && maximum == old(maximum)
    {
      minimum := value;
    }
  }

  /** The guide rate, one arc-second per second, as the literal the driver uses. */
  const GuideRate: real := 0.000277777777777778

  /** The jog rates of the primary and secondary axes, slowest first. */
  const JogRates: seq<real> := [GuideRate, 1.4, 2.2, 3.0]

  /** The number of jog rates an axis offers. */
  function RateCount(axis: Axis): nat
  {
    if axis == AxisTertiary then 0 else |JogRates|
  }

  /** `AxisRates`: the fixed, 1-based collection of jog rates of one axis. */
  class AxisRates {
    const axis: Axis
    const rates: seq<Rate>

    ghost predicate Valid()
    {
      |rates| == RateCount(axis)
    }

    /**
     * The primary and secondary axes get four fresh, distinct single-value
     * rates, in the order of JogRates; the tertiary axis gets none.
     */
    constructor (axis: Axis)
      ensures this.axis == axis && Valid()
      ensures forall k :: 0 <= k < |rates| ==> fresh(rates[k])
      ensures forall k :: 0 <= k < |rates| ==> rates[k].minimum == JogRates[k] == rates[k].maximum
      ensures forall i, j :: 0 <= i < j < |rates| ==> rates[i] != rates[j]
    {
      this.axis := axis;
      if axis == AxisTertiary {
        rates := [];
      } else {
        var guide := new Rate(GuideRate, GuideRate);
        var slow := new Rate(1.4, 1.4);
        var medium := new Rate(2.2, 2.2);
        var fast := new Rate(3.0, 3.0);
        rates := [guide, slow, medium, fast];
      }
    }

    /** `Count`: four rates on a driven axis, none on the tertiary one. */
    function Count(): (n: nat)
      requires Valid()
      ensures n == |rates|
      ensures n == 0 <==> axis == AxisTertiary
    {
      |rates|
    }

    /** The 1-based indexer: indices 1..Count give the rates in order, any other index throws. */
    function Item(index: int): (r: Result<Rate>)
      ensures r.Ok? <==> 1 <= index <= |rates|
      ensures r.Ok? ==> r.value == rates[index - 1]
      ensures r.Err? ==> r.error == IndexOutOfRange
    {
      if 1 <= index <= |rates| then Ok(rates[index - 1]) else Err(IndexOutOfRange)
    }
  }

  /**
   * `TrackingRates`: the fixed, 1-based collection of tracking rates, which is
   * also its own enumerator. The enumerator's position is a plain field here.
   */
  class TrackingRates {
    const trackingRates: seq<DriveRate> := [DriveSidereal, DriveLunar, DriveSolar]
    var pos: int

    /** A new collection's enumerator stands before the first element. */
    constructor ()
      ensures pos == -1
    {
      pos := -1;
    }

    /** `Count`: three rates, and King's rate is not among them. */
    function Count(): (n: nat)
      ensures n == |trackingRates| == 3
      ensures DriveKing !in trackingRates
    {
      |trackingRates|
    }

    /** The 1-based indexer: indices 1..3 give Sidereal, Lunar, Solar, any other index throws. */
    function Item(index: int): (r: Result<DriveRate>)
      ensures r.Ok? <==> 1 <= index <= 3
      ensures index == 1 ==> r == Ok(DriveSidereal)
      ensures index == 2 ==> r == Ok(DriveLunar)
      ensures index == 3 ==> r == Ok(DriveSolar)
      ensures r.Err? ==> r.error == IndexOutOfRange
    {
      if 1 <= index <= |trackingRates| then Ok(trackingRates[index - 1]) else Err(IndexOutOfRange)
    }

    /** `GetEnumerator` rewinds this object and returns it. */
    method GetEnumerator() returns (e: TrackingRates)
      modifies this
      ensures e == this && pos == -1
    {
      pos := -1;
      e := this;
    }

    /** `Reset` rewinds the enumerator. */
    method Reset()
      modifies this
      ensures pos == -1
    {
      pos := -1;
    }

    /**
     * `MoveNext` always advances, and reports whether the new position holds
     * an element; once it has reported false it never reports true again.
     */
    method MoveNext() returns (more: bool)
      modifies this
      ensures pos == old(pos) + 1
      ensures more <==> pos < Count()
      ensures old(pos) >= -1 ==> (more <==> 0 <= pos < Count())
      ensures old(pos) >= Count() - 1 ==> !more
    {
      pos := pos + 1;
      more := pos < |trackingRates|;
    }

    /** `Current` throws unless the position holds an element. */
    function Current(): (r: Result<DriveRate>)
      reads this
      ensures r.Ok? <==> 0 <= pos < Count()
      ensures r.Ok? ==> r.value == trackingRates[pos]
      ensures r.Err? ==> r.error == InvalidOperation
    {
      if pos < 0 || pos >= |trackingRates| then Err(InvalidOperation) else Ok(trackingRates[pos])
    }
  }
}
