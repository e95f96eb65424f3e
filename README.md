# TTS-160 telescope driver: motion and command core

This project models the motion and command core of the ASCOM driver for the
TTS-160 mount. The driver speaks a subset of the Meade LX200 serial protocol.
The model covers:

- the connection gate and the three command primitives (`CommandBlind`,
  `CommandBool`, `CommandString`);
- axis jogging (`MoveAxis`) and pulse guiding (`PulseGuide`);
- the slew target: its getters and setters, `SlewToTarget`,
  `SlewToCoordinates`, `SyncToTarget` and `SyncToCoordinates`;
- the process-wide flag store (`MiscResources`);
- the rate collections (`Rate`, `AxisRates`, `TrackingRates` and its
  enumerator).

The serial link is a log, `Telescope.sent`, of the command strings written to
it. What the mount answers is a parameter of the operation that reads it:

- a character for `CommandBool`;
- a string for `CommandString`;
- for the blocking slew, a sequence of position samples, each abstracted to
  whether its step from the previous sample was within the threshold. The
  threshold is 0.5/3600, compared against the square root of the squared RA
  and Dec steps, which mixes units: RA is in hours and Dec in degrees. So it
  is about 0.5 seconds of time (7.5 arc-seconds) on RA and 0.5 arc-seconds on
  Dec.

The static `MiscResources` properties are the fields of one shared
`MotionState` object. A property setter is a plain assignment to its field.
Each driver method's `modifies` clause names the individual fields it may
write, so "nothing else changes" is part of every contract.

Modules:

| file | module | contents |
|---|---|---|
| device_interface.dfy | `DeviceInterface`, `Outcomes` | ASCOM enumerations; the exceptions as an `Error` value, `Result`, `Outcome` |
| lx200.dfy | `Lx200` | the command strings and the command table of `MoveAxis` |
| convergence.dfy | `Convergence` | the arrival counter of the blocking slew, as functions and lemmas |
| misc_resources.dfy | `MiscResources` | `MotionState`, `EquatorialCoordinates` |
| rates.dfy | `Rates` | `Rate`, `AxisRates`, `TrackingRates` |
| telescope_driver.dfy | `TelescopeDriver` | the `Telescope` class and the properties that relate its operations |

Behaviour kept as the code has it:

- the `raw` flag of the command primitives is ignored, and commands are sent
  exactly as given;
- `MoveAxis` does not validate the rate's magnitude, and nothing checks for a
  parked mount;
- the slew arrival counter needs three settled samples net; they need not be
  consecutive (`Convergence.InterruptedRunArrives`);
- `SlewToTarget` stops only when the counter reaches 0, with no timeout, and
  never clears the slew flags;
- `AbortSlew` sends `:Q#` and clears no flag;
- a pulse waits for exactly the duration it is given, unchecked;
- the target flags are never reset.

## Model

| member | source | states |
|---|---|---|
| Lx200.Spelling | TelescopeDriver.cs:1068-1119 | the move and halt commands are `:Me# :Mw# :Mn# :Ms#` and `:Qe# :Qw# :Qn# :Qs#` |
| Lx200.AxisDirections | TelescopeDriver.cs:1055-1125 | only the tertiary axis has no jog directions; the others have two distinct ones (east/west, north/south) |
| Lx200.MoveAxisCommands | TelescopeDriver.cs:1055-1125 | nothing for the tertiary axis; a non-zero rate moves towards the direction its sign selects; rate 0 halts both of the axis's directions |
| Lx200.HaltStopsEveryJog | TelescopeDriver.cs:1055-1125 | every jog a non-zero rate starts is one move, and the rate-0 call halts that same direction |
| Lx200.AxesAreSeparate | TelescopeDriver.cs:1055-1125 | no command for the primary axis is a command for the secondary axis |
| Convergence.Polls | TelescopeDriver.cs:1651-1695 | the loop takes no more samples than there are |
| Convergence.Final | TelescopeDriver.cs:1586-1695 | the counter stays within 0..3, and the loop stops short of the last sample only by reaching 0 |
| Convergence.ArrivalNeedsSettledSamples | TelescopeDriver.cs:1651-1695 | reaching 0 from counter n takes at least n settled samples among those polled |
| Convergence.ArrivalTakesThreeSamples | TelescopeDriver.cs:1586-1695 | an arrival from the start takes at least three polls, three of them settled |
| Convergence.LastPollSettled | TelescopeDriver.cs:1658-1675 | the sample that brings the counter to 0 is a settled one |
| Convergence.PositiveBeforeStop | TelescopeDriver.cs:1651 | the counter is positive after every prefix shorter than the polled samples, so the loop ends exactly when it first reaches 0 |
| Convergence.SettledRunArrives | TelescopeDriver.cs:1658-1675 | from counter n, n settled samples in a row arrive after exactly n polls |
| Convergence.ThreeInARowArrive | TelescopeDriver.cs:1651-1695 | three settled samples in a row anywhere end the loop by the third of them, whatever the counter was |
| Convergence.InterruptedRunArrives | TelescopeDriver.cs:1676-1691 | settled, settled, unsettled, settled, settled also arrives, after 5 polls: the settled samples need not be consecutive |
| MiscResources.EquatorialCoordinates.constructor | MiscResources.cs:33-37 | a new coordinate pair is RA = Dec = 0 |
| MiscResources.MotionState.constructor | MiscResources.cs:7-108 | every flag starts false, the target is a fresh pair at RA = Dec = 0, the settle time is 2, the settle timer is unset, and the target flags are consistent |
| Rates.Rate.constructor | Rates.cs:33-37 | stores the minimum and maximum as given |
| Rates.Rate.SetMaximum | Rates.cs:46-50 | replaces the maximum and leaves the minimum |
| Rates.Rate.SetMinimum | Rates.cs:52-56 | replaces the minimum and leaves the maximum |
| Rates.AxisRates.constructor | Rates.cs:84-125 | four fresh, distinct rates for the primary and secondary axes, each with minimum = maximum, in order 1/3600, 1.4, 2.2, 3; none for the tertiary axis |
| Rates.AxisRates.Count | Rates.cs:129 | the number of stored rates, zero exactly for the tertiary axis |
| Rates.AxisRates.Item | Rates.cs:141-144 | index i in 1..Count gives rate i-1; any other index throws |
| Rates.TrackingRates.constructor | Rates.cs:172-187 | the enumerator starts before the first element |
| Rates.TrackingRates.Count | Rates.cs:186-194 | three rates, King's rate not among them |
| Rates.TrackingRates.Item | Rates.cs:207-210 | indices 1, 2, 3 give Sidereal, Lunar, Solar; any other index throws |
| Rates.TrackingRates.GetEnumerator | Rates.cs:196-200 | rewinds the position to -1 and returns the collection itself |
| Rates.TrackingRates.Reset | Rates.cs:243-246 | rewinds the position to -1 |
| Rates.TrackingRates.MoveNext | Rates.cs:231-241 | always advances the position and answers true iff the new position is below Count; from a position of -1 or more that means the new position holds an element; after the last element it answers false |
| Rates.TrackingRates.Current | Rates.cs:216-229 | the element at the position, or InvalidOperation before the first element or past the last |
| TelescopeDriver.BoolReply | TelescopeDriver.cs:263 | a one-character reply means true exactly when it is '1' |
| TelescopeDriver.CanMoveAxis | TelescopeDriver.cs:648-658 | the axes that can be moved are exactly those with jog directions: primary and secondary |
| TelescopeDriver.PositionReads | TelescopeDriver.cs:1234-1241 | n position reads send `:GR#` then `:GD#`, n times |
| TelescopeDriver.PulseJogsTowardsItsDirection | TelescopeDriver.cs:1180-1208 | a pulse jogs its axis towards the direction it names, and the rate-0 call halts that direction |
| TelescopeDriver.PulseCommandsStayOnTheirAxis | TelescopeDriver.cs:1176-1213 | an accepted pulse sends seven commands: a position read, one move towards its direction, two halts of its own axis, and a position read |
| TelescopeDriver.SlewResultArrival | TelescopeDriver.cs:1586-1695 | an accepted slew that arrives has taken at least three samples; three settled samples in a row make it arrive by the third |
| TelescopeDriver.Telescope.constructor | TelescopeDriver.cs:128-142 | a new driver is disconnected and has sent nothing |
| TelescopeDriver.Telescope.CheckConnected | TelescopeDriver.cs:2089-2095 | passes exactly when connected, and otherwise fails with NotConnected |
| TelescopeDriver.Telescope.CommandBlind | TelescopeDriver.cs:207-233 | when connected it sends the command unchanged; otherwise it fails with NotConnected and sends nothing |
| TelescopeDriver.Telescope.CommandBool | TelescopeDriver.cs:247-273 | when connected it sends the command and answers whether the reply is '1'; otherwise it fails and sends nothing |
| TelescopeDriver.Telescope.CommandString | TelescopeDriver.cs:287-316 | when connected it sends the command and returns the reply; otherwise it fails and sends nothing |
| TelescopeDriver.Telescope.SetConnected | TelescopeDriver.cs:344-392 | setting the current value changes nothing; connecting succeeds or fails with NotConnected, as the port does; disconnecting always succeeds; nothing is sent |
| TelescopeDriver.Telescope.AbortSlew | TelescopeDriver.cs:470-489 | sends `:Q#` when connected, nothing otherwise, and changes no flag |
| TelescopeDriver.Telescope.AxisRates | TelescopeDriver.cs:593-596 | a fresh collection for the axis, empty exactly when the axis cannot be moved, otherwise four fresh, distinct rates with minimum = maximum = 1/3600, 1.4, 2.2, 3 in order |
| TelescopeDriver.Telescope.MoveAxis | TelescopeDriver.cs:1012-1134 | refuses when disconnected (NotConnected) and for the tertiary axis (InvalidValue); otherwise sends the axis's command table. A non-zero rate sets the axis's moving flag. Rate 0 clears MovingSecondary but leaves MovingPrimary. No other flag changes |
| TelescopeDriver.Telescope.IsPulseGuiding | TelescopeDriver.cs:988-1004 | the pulse-in-progress flag |
| TelescopeDriver.Telescope.ReadPosition | TelescopeDriver.cs:1234-1241 | sends `:GR#` then `:GD#` |
| TelescopeDriver.Telescope.PulseGuide | TelescopeDriver.cs:1152-1232 | refused while slewing to the target or while a jog holds the pulse's axis, sending nothing. Otherwise it sends the seven pulse commands, is pulse-guiding during the wait and not after, and leaves guiding off on every exit past the slew check. East/west marks the primary axis moving, so the next east/west pulse is refused; north/south frees its axis |
| TelescopeDriver.Telescope.TargetDeclination | TelescopeDriver.cs:1786-1809 | the stored declination once set, TargetNotSet before |
| TelescopeDriver.Telescope.SetTargetDeclination | TelescopeDriver.cs:1810-1839 | sends `:Sd+<dms>#`. On '1' it stores the value, marks the declination set and completes the target if the RA is set; otherwise it fails and changes nothing. The RA is untouched and target consistency is preserved |
| TelescopeDriver.Telescope.TargetRightAscension | TelescopeDriver.cs:1845-1866 | the stored right ascension once set, TargetNotSet before |
| TelescopeDriver.Telescope.SetTargetRightAscension | TelescopeDriver.cs:1867-1895 | sends `:Sr<hms>#`. On '1' it stores the value, marks the RA set and completes the target if the declination is set; otherwise it fails and changes nothing. The declination is untouched and target consistency is preserved |
| TelescopeDriver.Telescope.Slewing | TelescopeDriver.cs:1719-1732 | the IsSlewing flag, with no device query |
| TelescopeDriver.Telescope.SlewToTarget | TelescopeDriver.cs:1569-1701 | never fails: without a target or a connection it sends nothing; on the mount's '1' it sends only `:MS#`. Otherwise it sets both slew flags, then sends one position read plus one per polled sample, and reports arrival as the counter says. The flags stay set after arrival |
| TelescopeDriver.Telescope.SlewToCoordinates | TelescopeDriver.cs:1535-1551 | sets the declination, then the RA, then slews. Disconnected, it sends nothing and changes nothing. A refused declination sends only `:Sd+…#` and leaves the target as it was. A refused RA sends the two set commands and keeps the new declination, with the RA as it was. Otherwise the target is complete, the slew runs as above, and target consistency is preserved |
| TelescopeDriver.Telescope.SyncToTarget | TelescopeDriver.cs:1766-1781 | without a complete target it fails with nothing sent; otherwise it sends `:CM#` when connected |
| TelescopeDriver.Telescope.SyncToCoordinates | TelescopeDriver.cs:1746-1761 | sets the declination and RA, then sends `:CM#`; it succeeds exactly when connected and both are accepted. Disconnected, it sends nothing and changes nothing. A refused declination sends only `:Sd+…#` and leaves the target as it was. A refused RA sends the two set commands and keeps the new declination, with the RA as it was. Target consistency is preserved |
| TelescopeDriver.Telescope.TrackingRates | TelescopeDriver.cs:1950-1962 | the foreach enumeration lists Sidereal, Lunar, Solar and leaves the enumerator past its end |
| TelescopeDriver.RepeatedEastPulse | TelescopeDriver.cs:1168-1187 | of two east pulses in a row, the first is accepted and the second refused |
| TelescopeDriver.RepeatedNorthPulse | TelescopeDriver.cs:1172-1194 | two north pulses in a row are both accepted |

## Left out

- Serial transport: `Serial`, `ClearBuffers`, `Transmit`, `ReceiveCounted`, `ReceiveTerminated`. The link is the `sent` log; the replies are parameters.
- Concurrency: the serial mutex, and the `ThreadLocal` position and lock in `TrackingRates`, which is a plain field here.
- Sleeps: `WaitForMilliseconds` in `PulseGuide` and `SlewToTarget` takes no time.
- Floating point: the step residual of `SlewToTarget` (square root of squared differences) is abstracted to a boolean per sample. Rates and coordinates are `real`.
- TelescopeDriver.Telescope.MoveAxis: `Rate.Compare(0)` is an extension method defined in none of TelescopeDriver.cs, Rates.cs or MiscResources.cs. The model assumes it is an exact three-way sign test against 0 (equal, greater, lower), with no tolerance.
- Foreign formatters and parsers:
  - `HoursToHMS` and `DegreesToDMS` are replaced by the text they produce, a parameter;
  - `HMSToHours`, `DMSToDegrees` and the `RightAscension`/`Declination` getters behind a position read are left out, so only the read's commands are modelled.
- TelescopeDriver.Telescope.ReadPosition: does not model a malformed position reply. The parsers that would throw on one are foreign code.
- TelescopeDriver.BoolReply: models `char.GetNumericValue` on ASCII only. In the source, any non-ASCII character whose numeric value is 1 would also read as true, digit or not (a superscript one, the Roman numeral one, a circled one).
- TelescopeDriver.CanMoveAxis: does not model the out-of-range enumeration value that the `default` branch rejects. `Axis` has only the three values.
- Rates.TrackingRates.MoveNext: does not model the 32-bit wrap-around of the position after 2^31 calls.
- TelescopeDriver.Telescope.SlewToTarget: the model stops polling when the samples run out and reports `StillSlewing`; the source would keep polling forever. `TelescopeDriver.SlewResultArrival` states when arrival happens within the samples given.
- SlewToTarget's unreachable `case 0` branch, which would clear the slew flags, appears in the model as a dead branch.
- The `IsPulseGuiding` and `Slewing` setters, and the `Target` setter of `MotionState`, are direct field assignments. `Target` is never replaced in the core.
- `AxisRates.GetEnumerator` returns the array's own enumerator and is not modelled. `HorizonCoordinates` is unused in the core and not modelled.
- Logging, the profile store, COM registration, the setup dialog, `Dispose`, the constant `Can*` getters and the not-implemented stubs are plumbing.
