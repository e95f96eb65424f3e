/**
 * The part of the Meade LX200 serial command set that the motion core sends.
 * Every command is framed as `:<code>#`.
 */
module Lx200 {
  import opened DeviceInterface

  /** The four jog directions of the mount. */
  datatype Direction = East | West | North | South

  /** The letter the command set uses for a direction. */
  function Letter(d: Direction): char
  {
    match d
    case East => 'e'
    case West => 'w'
    case North => 'n'
    case South => 's'
  }

  /** `:M<d>#`: start moving towards d at the current slew rate. */
  function Move(d: Direction): string
  {
    ":M" + [Letter(d)] + "#"
  }

  /** `:Q<d>#`: halt motion towards d. */
  function Halt(d: Direction): string
  {
    ":Q" + [Letter(d)] + "#"
  }

  /** `:Q#`: halt all motion. */
  const HaltAll: string := ":Q#"
  /** `:MS#`: slew to the stored target; the reply '0' means the slew started. */
  const SlewToTarget: string := ":MS#"
  /** `:CM#`: synchronise the mount's position to the stored target. */
  const SyncToTarget: string := ":CM#"
  /** `:GR#` and `:GD#`: read the current right ascension and declination. */
  const GetRightAscension: string := ":GR#"
  const GetDeclination: string := ":GD#"

  /** `:Sr<hh:mm:ss>#`: store the target right ascension, formatted by the caller. */
  function SetTargetRightAscension(hms: string): string
  {
    ":Sr" + hms + "#"
  }

  /** `:Sd+<dd*mm:ss>#`: store the target declination, formatted by the caller. */
  function SetTargetDeclination(dms: string): string
  {
    ":Sd+" + dms + "#"
  }

  /** The move and halt commands spelled out, as the driver's source writes them. */
  lemma Spelling()
    ensures Move(East) == ":Me#" && Move(West) == ":Mw#" && Move(North) == ":Mn#" && Move(South) == ":Ms#"
    ensures Halt(East) == ":Qe#" && Halt(West) == ":Qw#" && Halt(North) == ":Qn#" && Halt(South) == ":Qs#"
  {
  }

  /** The directions an axis can be jogged in, the one a positive rate selects first. */
  function AxisDirections(axis: Axis): (ds: seq<Direction>)
    ensures axis == AxisTertiary <==> ds == []
    ensures ds != [] ==> |ds| == 2 && ds[0] != ds[1]
  {
    match axis
    case AxisPrimary => [East, West]
    case AxisSecondary => [North, South]
    case AxisTertiary => []
  }

  /** The direction a non-zero rate jogs a driven axis in. */
  function JogDirection(axis: Axis, rate: real): Direction
    requires axis != AxisTertiary && rate != 0.0
  {
    if rate > 0.0 then AxisDirections(axis)[0] else AxisDirections(axis)[1]
  }

  /**
   * The commands MoveAxis sends for an axis and a rate: a move towards the
   * direction the rate's sign selects, or, for rate 0, a halt of both of the
   * axis's directions. Nothing for the tertiary axis.
   */
  function MoveAxisCommands(axis: Axis, rate: real): (cmds: seq<string>)
    ensures axis == AxisTertiary ==> cmds == []
    ensures axis != AxisTertiary && rate != 0.0 ==> cmds == [Move(JogDirection(axis, rate))]
    ensures axis != AxisTertiary && rate == 0.0 ==>
      cmds == [Halt(AxisDirections(axis)[0]), Halt(AxisDirections(axis)[1])]
  {
    Spelling();
    match axis
    case AxisPrimary =>
      if rate == 0.0 then [":Qe#", ":Qw#"] else if rate > 0.0 then [":Me#"] else [":Mw#"]
    case AxisSecondary =>
      if rate == 0.0 then [":Qn#", ":Qs#"] else if rate > 0.0 then [":Mn#"] else [":Ms#"]
    case AxisTertiary => []
  }

  /** A halt (rate 0) on an axis stops every jog a non-zero rate can start on it. */
  lemma HaltStopsEveryJog(axis: Axis, rate: real)
    requires axis != AxisTertiary && rate != 0.0
    ensures exists d :: MoveAxisCommands(axis, rate) == [Move(d)] && Halt(d) in MoveAxisCommands(axis, 0.0)
  {
    var d := JogDirection(axis, rate);
    assert MoveAxisCommands(axis, rate) == [Move(d)];
  }

  /** No command of one axis moves or halts the other: the two axes are driven separately. */
  lemma AxesAreSeparate(rate1: real, rate2: real)
    ensures forall c :: c in MoveAxisCommands(AxisPrimary, rate1) ==> c !in MoveAxisCommands(AxisSecondary, rate2)
  {
  }
}
