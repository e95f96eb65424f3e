/**
 * The motion and command core of the TTS-160 telescope driver
 * (TelescopeDriver.cs): the connection gate and the three command primitives,
 * axis jogging, pulse guiding, the slew target and the blocking slew.
 *
 * The serial link is the log `sent` of command strings written to it; what the
 * mount answers is a parameter of the operation that reads it.
 */
module TelescopeDriver {
  import opened DeviceInterface
  import opened Outcomes
  import opened Lx200
  import opened Convergence
  import opened MiscResources
  import Rates

  /**
   * `char.GetNumericValue` on the characters a serial reply can hold: the
   * value of a decimal digit, -1 for anything that is not a number.
   */
  function NumericValue(c: char): int
  {
    if '0' <= c <= '9' then c as int - '0' as int else -1
  }

  /** How CommandBool reads its one-character reply: true exactly for '1'. */
  function BoolReply(reply: char): (b: bool)
    ensures b <==> reply == '1'
  {
    NumericValue(reply) == 1
  }

  /** `CanMoveAxis`: the primary and secondary axes can be jogged, the tertiary cannot. */
  function CanMoveAxis(axis: Axis): (can: bool)
    ensures can <==> AxisDirections(axis) != []
  {
    match axis
    case AxisPrimary => true
    case AxisSecondary => true
    case AxisTertiary => false
  }

  /** The axis a guide pulse jogs: east and west move the primary axis, north and south the secondary. */
  function GuideAxis(d: GuideDirection): Axis
  {
    match d
    case GuideEast => AxisPrimary
    case GuideWest => AxisPrimary
    case GuideNorth => AxisSecondary
    case GuideSouth => AxisSecondary
  }

  /** The rate a guide pulse jogs at: +1 for east and north, -1 for west and south. */
  function GuideSign(d: GuideDirection): real
  {
    match d
    case GuideEast => 1.0
    case GuideNorth => 1.0
    case GuideWest => -1.0
    case GuideSouth => -1.0
  }

  /** The mount direction a guide direction names. */
  function Towards(d: GuideDirection): Direction
  {
    match d
    case GuideEast => East
    case GuideWest => West
    case GuideNorth => North
    case GuideSouth => South
  }

  /** A pulse jogs its axis towards the direction it names, and its halt stops that jog. */
  lemma PulseJogsTowardsItsDirection(d: GuideDirection)
    ensures MoveAxisCommands(GuideAxis(d), GuideSign(d)) == [Move(Towards(d))]
    ensures Halt(Towards(d)) in MoveAxisCommands(GuideAxis(d), 0.0)
  {
  }

  /** The commands `n` reads of the mount's position send: `:GR#` then `:GD#`, n times. */
  function PositionReads(n: nat): (cmds: seq<string>)
    ensures |cmds| == 2 * n
    ensures forall k :: 0 <= k < n ==> cmds[2 * k] == GetRightAscension && cmds[2 * k + 1] == GetDeclination
  {
    if n == 0 then [] else PositionReads(n - 1) + [GetRightAscension, GetDeclination]
  }

  /** The commands of a pulse that is not rejected: read position, jog, halt, read position. */
  function PulseGuideCommands(d: GuideDirection): seq<string>
  {
    PositionReads(1) + MoveAxisCommands(GuideAxis(d), GuideSign(d))
      + MoveAxisCommands(GuideAxis(d), 0.0) + PositionReads(1)
  }

  /**
   * A pulse that is not rejected sends one move and two halts on its own
   * axis, between two position reads, and no command for the other axis.
   */
  lemma PulseCommandsStayOnTheirAxis(d: GuideDirection)
    ensures |PulseGuideCommands(d)| == 7
    ensures PulseGuideCommands(d)[2] == Move(Towards(d))
    ensures Halt(Towards(d)) in PulseGuideCommands(d)[3..5]
    ensures forall c :: c in PulseGuideCommands(d)[2..5] ==> c in MoveAxisCommands(GuideAxis(d), GuideSign(d)) + MoveAxisCommands(GuideAxis(d), 0.0)
  {
  }

  /** What SlewToTarget leaves in the log, since it never throws. */
  datatype SlewReport =
    | Logged(error: Error)  // the exception it caught and only logged
    | Arrived(polls: nat)   // the counter reached 0 after this many position samples
    | StillSlewing          // the samples ran out first; the source would keep polling

  /** The report of a slew whose `:MS#` was accepted, for the given samples. */
  function SlewResult(samples: seq<bool>): SlewReport
  {
    if Final(Start, samples) == 0 then Arrived(Polls(Start, samples)) else StillSlewing
  }

  /** An accepted slew arrives after three or more samples; with three settled samples in a row it always arrives. */
  lemma SlewResultArrival(samples: seq<bool>, j: nat)
    ensures SlewResult(samples).Arrived? ==> SlewResult(samples).polls >= 3
    ensures j + 3 <= |samples| && samples[j] && samples[j + 1] && samples[j + 2] ==>
      SlewResult(samples).Arrived? && SlewResult(samples).polls <= j + 3
  {
    if Final(Start, samples) == 0 {
      ArrivalTakesThreeSamples(samples);
    }
    if j + 3 <= |samples| && samples[j] && samples[j + 1] && samples[j + 2] {
      ThreeInARowArrive(Start, samples, j);
    }
  }

  /** The driver object, holding the connection and sharing the process-wide motion state. */
  class Telescope {
    /** Whether the serial port is open (`connectedState`). */
    var connected: bool
    /** Every command string written to the serial link, oldest first. */
    var sent: seq<string>
    /** The static MiscResources state. */
    const flags: MotionState

    /** A new driver is not connected and has sent nothing. */
    constructor (flags: MotionState)
      ensures this.flags == flags && !connected && sent == []
    {
      this.flags := flags;
      connected := false;
      sent := [];
    }

    /** `CheckConnected`: throws NotConnected unless the port is open. */
    function CheckConnected(): (r: Outcome)
      reads this
      ensures r.Pass? <==> connected
      ensures r.Fail? ==> r.error == NotConnected
    {
      if connected then Pass else Fail(NotConnected)
    }

    /**
     * `CommandBlind`: sends the command exactly as given (the raw flag is
     * ignored) and reads nothing; when not connected, sends nothing.
     */
    method CommandBlind(command: string, raw: bool) returns (r: Outcome)
      modifies this
      ensures connected == old(connected)
      ensures r == old(CheckConnected())
      ensures sent == if r.Pass? then old(sent) + [command] else old(sent)
    {
      r := CheckConnected();
      if r.Pass? {
        sent := sent + [command];
      }
    }

    /**
     * `CommandBool`: sends the command as given and reads one character, true
     * exactly when it is '1'; when not connected, sends nothing.
     */
    method CommandBool(command: string, raw: bool, reply: char) returns (r: Result<bool>)
      modifies this
      ensures connected == old(connected)
      ensures !old(connected) ==> r == Err(NotConnected) && sent == old(sent)
      ensures old(connected) ==> r == Ok(reply == '1') && sent == old(sent) + [command]
    {
      if !connected {
        return Err(NotConnected);
      }
      sent := sent + [command];
      r := Ok(BoolReply(reply));
    }

    /**
     * `CommandString`: sends the command as given and returns the reply read
     * up to its '#'; when not connected, sends nothing.
     */
    method CommandString(command: string, raw: bool, reply: string) returns (r: Result<string>)
      modifies this
      ensures connected == old(connected)
      ensures !old(connected) ==> r == Err(NotConnected) && sent == old(sent)
      ensures old(connected) ==> r == Ok(reply) && sent == old(sent) + [command]
    {
      if !connected {
        return Err(NotConnected);
      }
      sent := sent + [command];
      r := Ok(reply);
    }

    /**
     * The `Connected` setter: setting the current value does nothing;
     * connecting opens the port, or throws NotConnected and stays
     * disconnected when it cannot; disconnecting closes it. No command is sent
     * and the motion state is untouched.
     */
    method SetConnected(value: bool, portOpens: bool) returns (r: Outcome)
      modifies this
      ensures sent == old(sent)
      ensures value == old(connected) ==> r == Pass && connected == old(connected)
      ensures value && !old(connected) ==>
        if portOpens then r == Pass && connected else r == Fail(NotConnected) && !connected
      ensures !value && old(connected) ==> r == Pass && !connected
    {
      if value == connected {
        return Pass;
      }
      if value {
        if !portOpens {
          return Fail(NotConnected);
        }
        connected := true;
      } else {
        connected := false;
      }
      r := Pass;
    }

    /** `AbortSlew`: sends `:Q#` and nothing else; it clears none of the motion flags. */
    method AbortSlew() returns (r: Outcome)
      modifies this
      ensures connected == old(connected)
      ensures r == old(CheckConnected())
      ensures sent == if r.Pass? then old(sent) + [HaltAll] else old(sent)
    {
      r := CheckConnected();
      if r.Pass? {
        r := CommandBlind(HaltAll, true);
      }
    }

    /** `AxisRates`: a new rate collection for the axis, empty exactly for an axis that cannot be jogged. */
    method AxisRates(axis: Axis) returns (rates: Rates.AxisRates)
      ensures fresh(rates) && rates.axis == axis && rates.Valid()
      ensures rates.Count() == 0 <==> !CanMoveAxis(axis)
      ensures forall k :: 0 <= k < |rates.rates| ==> fresh(rates.rates[k])
      ensures forall k :: 0 <= k < |rates.rates| ==>
        rates.rates[k].minimum == Rates.JogRates[k] == rates.rates[k].maximum
      ensures forall i, j :: 0 <= i < j < |rates.rates| ==> rates.rates[i] != rates.rates[j]
    {
      rates := new Rates.AxisRates(axis);
    }

    /**
     * `MoveAxis`: a non-zero rate jogs the axis in the direction of its sign
     * and marks it moving; rate 0 halts both directions of the axis. The
     * secondary halt clears MovingSecondary first; the primary halt leaves
     * MovingPrimary as it was. The rate's magnitude is never checked. The
     * tertiary axis is refused with nothing sent. Only the two moving flags
     * can change.
     */
    method MoveAxis(axis: Axis, rate: real) returns (r: Outcome)
      modifies this, flags`movingPrimary, flags`movingSecondary
      ensures connected == old(connected)
      ensures !old(connected) ==> r == Fail(NotConnected) && sent == old(sent)
      ensures old(connected) ==> r == (if CanMoveAxis(axis) then Pass else Fail(InvalidValue))
      ensures old(connected) ==> sent == old(sent) + MoveAxisCommands(axis, rate)
      ensures flags.movingPrimary ==
        (old(flags.movingPrimary) || (old(connected) && axis == AxisPrimary && rate != 0.0))
      ensures flags.movingSecondary ==
        if old(connected) && axis == AxisSecondary then rate != 0.0 else old(flags.movingSecondary)
    {
      r := CheckConnected();
      if r.Fail? {
        return;
      }
      if axis == AxisPrimary {
        if rate == 0.0 {
          r := CommandBlind(":Qe#", true);
          r := CommandBlind(":Qw#", true);
        } else if rate > 0.0 {
          r := CommandBlind(":Me#", true);
          flags.movingPrimary := true;
        } else {
          r := CommandBlind(":Mw#", true);
          flags.movingPrimary := true;
        }
      } else if axis == AxisSecondary {
        if rate == 0.0 {
          flags.movingSecondary := false;
          r := CommandBlind(":Qn#", true);
          r := CommandBlind(":Qs#", true);
        } else if rate > 0.0 {
          r := CommandBlind(":Mn#", true);
          flags.movingSecondary := true;
        } else {
          r := CommandBlind(":Ms#", true);
          flags.movingSecondary := true;
        }
      } else {
        r := Fail(InvalidValue);
      }
    }

    /** The `IsPulseGuiding` getter: the IsPulseGuideInProgress flag, not a device query. */
    function IsPulseGuiding(): (guiding: bool)
      reads this, flags
      ensures guiding == flags.isPulseGuideInProgress
    {
      flags.isPulseGuideInProgress
    }

    /** Whether a jog already holds the axis a pulse in direction d would use. */
    predicate AxisBusy(d: GuideDirection)
      reads this, flags
    {
      if GuideAxis(d) == AxisPrimary then flags.movingPrimary else flags.movingSecondary
    }

    /**
     * `GetTelescopeRaAndDec`: reads the right ascension and then the
     * declination through CommandString. Their replies go to external
     * sexagesimal parsers, so only the two commands are modelled.
     */
    method ReadPosition()
      requires connected
      modifies this
      ensures connected && sent == old(sent) + PositionReads(1)
    {
      var ra := CommandString(GetRightAscension, true, "");
      var dec := CommandString(GetDeclination, true, "");
    }

    /**
     * `PulseGuide`: refused while slewing to the target, and refused when a
     * jog holds the pulse's axis. Otherwise it reads the position, jogs the
     * axis through MoveAxis (rate +1 or -1), marks a pulse in progress, waits,
     * halts the axis through MoveAxis (rate 0), clears the pulse mark and reads
     * the position again. Every exit after the slewing check clears IsGuiding.
     * `pulsingDuringWait` says whether a reader during the wait would see a
     * pulse in progress, guiding on, and the pulse's axis moving.
     */
    method PulseGuide(direction: GuideDirection, duration: int) returns (r: Outcome, ghost pulsingDuringWait: bool)
      modifies this, flags`movingPrimary, flags`movingSecondary, flags`isGuiding, flags`isPulseGuideInProgress
      ensures connected == old(connected)
      ensures !old(connected) ==> r == Fail(NotConnected)
      ensures old(connected) && old(flags.isSlewingToTarget) ==> r == Fail(InvalidOperation)
      ensures old(connected) && !old(flags.isSlewingToTarget) && old(AxisBusy(direction)) ==> r == Fail(InvalidOperation)
      ensures r.Pass? <==> old(connected) && !old(flags.isSlewingToTarget) && !old(AxisBusy(direction))
      ensures r.Fail? ==>
        && sent == old(sent)
        && flags.movingPrimary == old(flags.movingPrimary) && flags.movingSecondary == old(flags.movingSecondary)
        && flags.isPulseGuideInProgress == old(flags.isPulseGuideInProgress)
      ensures old(connected) && !old(flags.isSlewingToTarget) ==> !flags.isGuiding
      ensures !(old(connected) && !old(flags.isSlewingToTarget)) ==> flags.isGuiding == old(flags.isGuiding)
      ensures r.Pass? ==>
        && sent == old(sent) + PulseGuideCommands(direction)
        && pulsingDuringWait
        && !flags.isPulseGuideInProgress
        && flags.movingPrimary == (old(flags.movingPrimary) || GuideAxis(direction) == AxisPrimary)
        && flags.movingSecondary == (old(flags.movingSecondary) && GuideAxis(direction) != AxisSecondary)
      ensures r.Pass? ==> forall d :: GuideAxis(d) == GuideAxis(direction) ==>
        (AxisBusy(d) <==> GuideAxis(direction) == AxisPrimary)
    {
      pulsingDuringWait := false;
      r := CheckConnected();
      if r.Fail? {
        return;
      }
      if flags.isSlewingToTarget {
        r := Fail(InvalidOperation);
        return;
      }
      flags.isGuiding := true;
      if (flags.movingPrimary && (direction == GuideEast || direction == GuideWest))
        || (flags.movingSecondary && (direction == GuideNorth || direction == GuideSouth))
      {
        flags.isGuiding := false;
        r := Fail(InvalidOperation);
        return;
      }
      ReadPosition();
      var axis := GuideAxis(direction);
      r := MoveAxis(axis, GuideSign(direction));
      flags.isPulseGuideInProgress := true;
      pulsingDuringWait := flags.isPulseGuideInProgress && flags.isGuiding && AxisBusy(direction);
      // the wait of `duration` milliseconds happens here
      r := MoveAxis(axis, 0.0);
      flags.isPulseGuideInProgress := false;
      ReadPosition();
      flags.isGuiding := false;
    }

    /** The `TargetDeclination` getter: the stored declination, or TargetNotSet until one has been set. */
    function TargetDeclination(): (r: Result<real>)
      reads this, flags, flags.target
      ensures r.Ok? <==> flags.isTargetDecSet
      ensures r.Ok? ==> r.value == flags.target.declination
      ensures r.Err? ==> r.error == TargetNotSet
    {
      if flags.isTargetDecSet then Ok(flags.target.declination) else Err(TargetNotSet)
    }

    /** The `TargetRightAscension` getter: the stored right ascension, or TargetNotSet until one has been set. */
    function TargetRightAscension(): (r: Result<real>)
      reads this, flags, flags.target
      ensures r.Ok? <==> flags.isTargetRASet
      ensures r.Ok? ==> r.value == flags.target.rightAscension
      ensures r.Err? ==> r.error == TargetNotSet
    {
      if flags.isTargetRASet then Ok(flags.target.rightAscension) else Err(TargetNotSet)
    }

    /**
     * The `TargetDeclination` setter: sends `:Sd+<dms>#`, `dms` being the
     * value as the external formatter writes it. On the mount's '1' it stores
     * the value, marks the declination set and completes the target if the
     * right ascension is set; otherwise it throws and changes nothing.
     */
    method SetTargetDeclination(value: real, dms: string, reply: char) returns (r: Outcome)
      modifies this, flags`isTargetDecSet, flags`isTargetSet, flags.target`declination
      ensures connected == old(connected)
      ensures !old(connected) ==> r == Fail(NotConnected) && sent == old(sent)
      ensures old(connected) ==> sent == old(sent) + [Lx200.SetTargetDeclination(dms)]
      ensures old(connected) && reply != '1' ==> r == Fail(InvalidTarget)
      ensures r.Pass? <==> old(connected) && reply == '1'
      ensures flags.target.declination == if r.Pass? then value else old(flags.target.declination)
      ensures flags.isTargetDecSet == (old(flags.isTargetDecSet) || r.Pass?)
      ensures flags.isTargetSet == (old(flags.isTargetSet) || (r.Pass? && old(flags.isTargetRASet)))
      ensures r.Pass? ==> TargetDeclination() == Ok(value)
      ensures r.Pass? ==> TargetRightAscension() == old(TargetRightAscension())
      ensures old(flags.TargetConsistent()) ==> flags.TargetConsistent()
    {
      r := CheckConnected();
      if r.Fail? {
        return;
      }
      var accepted := CommandBool(Lx200.SetTargetDeclination(dms), true, reply);
      if !accepted.value {
        return Fail(InvalidTarget);
      }
      flags.target.declination := value;
      if !flags.isTargetDecSet {
        flags.isTargetDecSet := true;
      }
      if flags.isTargetRASet && !flags.isTargetSet {
        flags.isTargetSet := true;
      }
    }

    /**
     * The `TargetRightAscension` setter: sends `:Sr<hms>#`, `hms` being the
     * value as the external formatter writes it. On the mount's '1' it stores
     * the value, marks the right ascension set and completes the target if the
     * declination is set; otherwise it throws and changes nothing.
     */
    method SetTargetRightAscension(value: real, hms: string, reply: char) returns (r: Outcome)
      modifies this, flags`isTargetRASet, flags`isTargetSet, flags.target`rightAscension
      ensures connected == old(connected)
      ensures !old(connected) ==> r == Fail(NotConnected) && sent == old(sent)
      ensures old(connected) ==> sent == old(sent) + [Lx200.SetTargetRightAscension(hms)]
      ensures old(connected) && reply != '1' ==> r == Fail(InvalidTarget)
      ensures r.Pass? <==> old(connected) && reply == '1'
      ensures flags.target.rightAscension == if r.Pass? then value else old(flags.target.rightAscension)
      ensures flags.isTargetRASet == (old(flags.isTargetRASet) || r.Pass?)
      ensures flags.isTargetSet == (old(flags.isTargetSet) || (r.Pass? && old(flags.isTargetDecSet)))
      ensures r.Pass? ==> TargetRightAscension() == Ok(value)
      ensures r.Pass? ==> TargetDeclination() == old(TargetDeclination())
      ensures old(flags.TargetConsistent()) ==> flags.TargetConsistent()
    {
      r := CheckConnected();
      if r.Fail? {
        return;
      }
      var accepted := CommandBool(Lx200.SetTargetRightAscension(hms), true, reply);
      if !accepted.value {
        return Fail(InvalidTarget);
      }
      flags.target.rightAscension := value;
      if !flags.isTargetRASet {
        flags.isTargetRASet := true;
      }
      if flags.isTargetDecSet && !flags.isTargetSet {
        flags.isTargetSet := true;
      }
    }

    /** The `Slewing` getter: the IsSlewing flag as it stands; no device query and no settle timer. */
    function Slewing(): (slewing: bool)
      reads this, flags
      ensures slewing == flags.isSlewing
    {
      flags.isSlewing
    }

    /**
     * `SlewToTarget`. Without a complete target, or when not connected, it
     * sends nothing. It sends `:MS#`; the mount's '1' means it cannot slew.
     * Otherwise it marks the mount slewing to the target, reads the position,
     * and then reads it once per sample until the counter of the Convergence
     * module reaches 0. The branch that would clear the slew flags is never
     * reached, so both flags stay set after arrival. Every error is caught and
     * only logged: the call always returns normally.
     */
    method SlewToTarget(msReply: char, samples: seq<bool>) returns (report: SlewReport)
      modifies this, flags`isSlewing, flags`isSlewingToTarget
      ensures connected == old(connected)
      ensures !old(flags.isTargetSet) ==> report == Logged(TargetNotSet) && sent == old(sent)
      ensures old(flags.isTargetSet) && !old(connected) ==> report == Logged(NotConnected) && sent == old(sent)
      ensures old(flags.isTargetSet) && old(connected) && msReply == '1' ==>
        report == Logged(UnableToSlew) && sent == old(sent) + [Lx200.SlewToTarget]
      ensures old(flags.isTargetSet) && old(connected) && msReply != '1' ==>
        && report == SlewResult(samples)
        && sent == old(sent) + [Lx200.SlewToTarget] + PositionReads(1 + Polls(Start, samples))
      ensures var started := old(flags.isTargetSet) && old(connected) && msReply != '1';
        && flags.isSlewing == (old(flags.isSlewing) || started)
        && flags.isSlewingToTarget == (old(flags.isSlewingToTarget) || started)
    {
      if !flags.isTargetSet {
        return Logged(TargetNotSet);
      }
      if !connected {
        return Logged(NotConnected);
      }
      var unable := CommandBool(Lx200.SlewToTarget, true, msReply);
      if unable.value {
        return Logged(UnableToSlew);
      }
      flags.isSlewing := true;
      flags.isSlewingToTarget := true;
      ghost var before := sent;
      ReadPosition();
      var inc := Start;
      var i := 0;
      while inc > 0 && i < |samples|
        invariant 0 <= i <= |samples| && 0 <= inc <= Start
        invariant Polls(Start, samples) == i + Polls(inc, samples[i..])
        invariant Final(Start, samples) == Final(inc, samples[i..])
        invariant connected && sent == before + PositionReads(1 + i)
        invariant flags.isSlewing && flags.isSlewingToTarget
        decreases |samples| - i
      {
        ReadPosition();
        if samples[i] {
          if inc == 0 {
            // the source clears the slew flags here; the loop guard keeps inc > 0
            assert false;
          }
          inc := inc - 1;
        } else if inc < Start {
          inc := inc + 1;
        }
        assert samples[i..][1..] == samples[i + 1..];
        i := i + 1;
      }
      report := SlewResult(samples);
    }

    /**
     * `SlewToCoordinates`: sets the target declination, then its right
     * ascension, and slews to it. A refused coordinate throws, leaving what
     * was set before it in place; the slew itself never throws.
     */
    method SlewToCoordinates(rightAscension: real, declination: real, hms: string, dms: string,
                             decReply: char, raReply: char, msReply: char, samples: seq<bool>)
      returns (r: Outcome, report: SlewReport)
      modifies this, flags`isTargetDecSet, flags`isTargetRASet, flags`isTargetSet
      modifies flags.target`declination, flags.target`rightAscension
      modifies flags`isSlewing, flags`isSlewingToTarget
      ensures connected == old(connected)
      ensures !old(connected) ==> r == Fail(NotConnected) && sent == old(sent)
      ensures old(connected) && decReply != '1' ==>
        r == Fail(InvalidTarget) && sent == old(sent) + [Lx200.SetTargetDeclination(dms)]
      ensures old(connected) && decReply == '1' && raReply != '1' ==>
        && r == Fail(InvalidTarget)
        && sent == old(sent) + [Lx200.SetTargetDeclination(dms), Lx200.SetTargetRightAscension(hms)]
        && TargetDeclination() == Ok(declination)
        && TargetRightAscension() == old(TargetRightAscension())
      ensures r.Pass? <==> old(connected) && decReply == '1' && raReply == '1'
      ensures r.Pass? ==>
        && TargetDeclination() == Ok(declination) && TargetRightAscension() == Ok(rightAscension)
        && flags.isTargetSet
        && report == (if msReply == '1' then Logged(UnableToSlew) else SlewResult(samples))
        && sent == old(sent) + [Lx200.SetTargetDeclination(dms), Lx200.SetTargetRightAscension(hms), Lx200.SlewToTarget]
             + (if msReply == '1' then [] else PositionReads(1 + Polls(Start, samples)))
      ensures flags.target.declination ==
        if old(connected) && decReply == '1' then declination else old(flags.target.declination)
      ensures flags.target.rightAscension ==
        if old(connected) && decReply == '1' && raReply == '1' then rightAscension else old(flags.target.rightAscension)
      ensures flags.isTargetDecSet == (old(flags.isTargetDecSet) || (old(connected) && decReply == '1'))
      ensures flags.isTargetRASet == (old(flags.isTargetRASet) || (old(connected) && decReply == '1' && raReply == '1'))
      ensures flags.isTargetSet ==
        (old(flags.isTargetSet) || (old(connected) && decReply == '1' && (old(flags.isTargetRASet) || raReply == '1')))
      ensures var started := r.Pass? && msReply != '1';
        && flags.isSlewing == (old(flags.isSlewing) || started)
        && flags.isSlewingToTarget == (old(flags.isSlewingToTarget) || started)
      ensures old(flags.TargetConsistent()) ==> flags.TargetConsistent()
    {
      report := Logged(NotConnected);
      r := CheckConnected();
      if r.Fail? {
        return;
      }
      r := SetTargetDeclination(declination, dms, decReply);
      if r.Fail? {
        return;
      }
      r := SetTargetRightAscension(rightAscension, hms, raReply);
      if r.Fail? {
        return;
      }
      report := SlewToTarget(msReply, samples);
    }

    /** `SyncToTarget`: without a complete target it throws before anything else; otherwise sends `:CM#`. */
    method SyncToTarget() returns (r: Outcome)
      modifies this
      ensures connected == old(connected)
      ensures !flags.isTargetSet ==> r == Fail(TargetNotSet) && sent == old(sent)
      ensures flags.isTargetSet ==> r == old(CheckConnected())
      ensures flags.isTargetSet && old(connected) ==> sent == old(sent) + [Lx200.SyncToTarget]
      ensures flags.isTargetSet && !old(connected) ==> sent == old(sent)
    {
      if !flags.isTargetSet {
        return Fail(TargetNotSet);
      }
      r := CheckConnected();
      if r.Fail? {
        return;
      }
      r := CommandBlind(Lx200.SyncToTarget, true);
    }

    /**
     * `SyncToCoordinates`: sets the target declination, then its right
     * ascension, then sends `:CM#`; a refused coordinate throws before the sync.
     */
    method SyncToCoordinates(rightAscension: real, declination: real, hms: string, dms: string,
                             decReply: char, raReply: char) returns (r: Outcome)
      modifies this, flags`isTargetDecSet, flags`isTargetRASet, flags`isTargetSet
      modifies flags.target`declination, flags.target`rightAscension
      ensures connected == old(connected)
      ensures !old(connected) ==> r == Fail(NotConnected) && sent == old(sent)
      ensures r.Pass? <==> old(connected) && decReply == '1' && raReply == '1'
      ensures old(connected) && !r.Pass? ==> r == Fail(InvalidTarget)
      ensures old(connected) && decReply != '1' ==> sent == old(sent) + [Lx200.SetTargetDeclination(dms)]
      ensures old(connected) && decReply == '1' && raReply != '1' ==>
        sent == old(sent) + [Lx200.SetTargetDeclination(dms), Lx200.SetTargetRightAscension(hms)]
      ensures flags.target.declination ==
        if old(connected) && decReply == '1' then declination else old(flags.target.declination)
      ensures flags.target.rightAscension ==
        if old(connected) && decReply == '1' && raReply == '1' then rightAscension else old(flags.target.rightAscension)
      ensures flags.isTargetDecSet == (old(flags.isTargetDecSet) || (old(connected) && decReply == '1'))
      ensures flags.isTargetRASet == (old(flags.isTargetRASet) || (old(connected) && decReply == '1' && raReply == '1'))
      ensures flags.isTargetSet ==
        (old(flags.isTargetSet) || (old(connected) && decReply == '1' && (old(flags.isTargetRASet) || raReply == '1')))
      ensures r.Pass? ==>
        && sent == old(sent) + [Lx200.SetTargetDeclination(dms), Lx200.SetTargetRightAscension(hms), Lx200.SyncToTarget]
        && TargetDeclination() == Ok(declination) && TargetRightAscension() == Ok(rightAscension)
        && flags.isTargetSet
      ensures old(flags.TargetConsistent()) ==> flags.TargetConsistent()
    {
      r := CheckConnected();
      if r.Fail? {
        return;
      }
      r := SetTargetDeclination(declination, dms, decReply);
      if r.Fail? {
        return;
      }
      r := SetTargetRightAscension(rightAscension, hms, raReply);
      if r.Fail? {
        return;
      }
      r := CommandBlind(Lx200.SyncToTarget, true);
    }

    /**
     * The `TrackingRates` getter: a new collection, enumerated once with
     * foreach for the log. The enumeration lists Sidereal, Lunar and Solar,
     * MoveNext answering true three times and then false, and leaves the
     * returned collection's enumerator past its end.
     */
    method TrackingRates() returns (rates: Rates.TrackingRates, listed: seq<DriveRate>)
      ensures fresh(rates)
      ensures listed == [DriveSidereal, DriveLunar, DriveSolar]
      ensures rates.pos == rates.Count() && rates.Current() == Err(InvalidOperation)
    {
      rates := new Rates.TrackingRates();
      var e := rates.GetEnumerator();
      listed := [];
      var more := e.MoveNext();
      while more
        invariant e == rates && 0 <= rates.pos <= 3
        invariant more <==> rates.pos < 3
        invariant listed == rates.trackingRates[..rates.pos]
        decreases 3 - rates.pos
      {
        var current := e.Current();
        listed := listed + [current.value];
        more := e.MoveNext();
      }
    }
  }

  /**
   * Two east pulses in a row: the first succeeds and leaves the primary axis
   * marked moving, so the second is refused with nothing sent.
   */
  method RepeatedEastPulse(t: Telescope) returns (first: Outcome, second: Outcome)
    requires t.connected && !t.flags.isSlewingToTarget && !t.flags.movingPrimary
    modifies t, t.flags
    ensures first == Pass && second == Fail(InvalidOperation)
    ensures t.sent == old(t.sent) + PulseGuideCommands(GuideEast)
    ensures t.flags.movingPrimary && !t.flags.isGuiding
  {
    ghost var w;
    first, w := t.PulseGuide(GuideEast, 100);
    second, w := t.PulseGuide(GuideEast, 100);
  }

  /**
   * Two north pulses in a row: the halt of the first clears the secondary
   * axis's moving flag, so the second is accepted as well.
   */
  method RepeatedNorthPulse(t: Telescope) returns (first: Outcome, second: Outcome)
    requires t.connected && !t.flags.isSlewingToTarget && !t.flags.movingSecondary
    modifies t, t.flags
    ensures first == Pass && second == Pass
    ensures t.sent == old(t.sent) + PulseGuideCommands(GuideNorth) + PulseGuideCommands(GuideNorth)
    ensures !t.flags.movingSecondary && !t.flags.isGuiding && !t.IsPulseGuiding()
  {
    ghost var w;
    first, w := t.PulseGuide(GuideNorth, 100);
    second, w := t.PulseGuide(GuideNorth, 100);
  }
}
