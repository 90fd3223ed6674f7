# RespDuino cycle controller in Dafny

A model of the control firmware of RespDuino, a two-chamber bellows
ventilator simulator. The firmware reads the water level of two vessels
with ultrasonic range sensors. It ramps two reversible pumps through a
fixed soft-start curve and switches two solenoid valves between an inhale
and an exhale phase. A debounced button starts and stops the device.

The model covers the firmware's only logic:

- `Ultrasonic` (`ultrasonic.dfy`): `microsecondsToCentimeters`, with C++
  truncating division written out (`CDiv`).
- `Levels` (`levels.dfy`): the vessel constants and the marks derived from
  them. It also holds the water-level estimate of `getWaterLevelA/B`, with
  the measured distance as a parameter.
- `MotorRamp` (`motor_ramp.dfy`): the 14-entry motor curve, the saturating
  index step of `runPumpA/B` and the drive value written to a winding.
- `Cycle` (`cycle.dfy`): the firmware's globals as one value
  (`ControllerState`) and one pass of `loop()` as a function (`Tick`). It
  is built from the button debounce, the per-vessel threshold rule, the
  phase choice (`inhale`/`exhale`) and the two pump steps. The lemmas about
  `Tick` and about `Run` (many passes in a row) hold the properties.
- `Firmware` (`firmware.dfy`): class `Controller`, whose fields are the
  globals of `src/main.cpp`. Its methods `RunPumpA`, `RunPumpB`, `Inhale`,
  `Exhale` and `Loop` update those fields in place, as the firmware does.
  Each is proved to have exactly the effect of its `Cycle` counterpart.
  `Loop` also keeps the invariant `Cycle.Inv`.

The model follows the code as written, including these points:

- The curve has 14 entries while `motor_curve_len` is 13. The constant is
  the largest index, so indices run 0..13 and index 13 reads 255.
- Direction 0 writes 0 to both windings and leaves the ramp indices where
  they are. Direction -1 at index 0 writes the curve's first entry, 1,
  not 0.
- When stopped, the firmware assigns `raisingA = 0` twice and never clears
  `raisingB`. Pump B therefore keeps ramping in its last direction while
  the device is stopped (`Cycle.StoppedTick`).
- The debounce accepts a reading only after strictly more than 150 ms.
  `buttonState` starts LOW, as a zero-initialised global.
- The button pin is configured `INPUT_PULLUP` (src/main.cpp:197), so HIGH
  is its released level and a press reads LOW. The firmware toggles
  `running` when an accepted reading is HIGH. That happens on release of
  the button. It also happens once about 150 ms after power-up with the
  button untouched, because the accepted state starts LOW. The lemmas
  therefore speak of HIGH and LOW readings, not of presses.
- The phase decision reads only vessel A's level.

Hardware writes (`analogWrite`, `digitalWrite`) become fields that hold the
last value written to each pin. The distance readings, the button reading
and the clock are parameters of `Loop`. `millis()` returns a 32-bit
`unsigned long`, so `millis() - lastDebounceTime` is computed modulo 2^32
(`Cycle.Elapsed`). The C `int` flags `running` and `ledState` become a
`bool` and a `PinLevel`.

## Model

| member | source | states |
|---|---|---|
| Ultrasonic.CDiv | src/ultrasonic.cpp:5 | C++ integer division truncates toward zero: for a non-negative dividend the quotient q is non-negative with q*b <= a < q*b + b; for a negative one q <= 0 with q*b - b < a <= q*b |
| Ultrasonic.MicrosecondsToCentimeters | src/ultrasonic.cpp:4-6 | for a non-negative echo time the distance r is non-negative and 58*r <= us < 58*(r+1); for a negative one r <= 0 and 58*r - 58 < us <= 58*r |
| Ultrasonic.NestedDivision | src/ultrasonic.cpp:5 | dividing by 29 and then by 2 equals one division by 58: us / 58 for us >= 0, and -((-us) / 58) for us < 0 |
| Ultrasonic.Monotone | src/ultrasonic.cpp:5 | a longer echo never gives a shorter distance |
| Ultrasonic.OddSymmetry | src/ultrasonic.cpp:5 | the conversion of -us is minus the conversion of us |
| Ultrasonic.TimeoutRange | src/ultrasonic.cpp:4-18 | echoes of 0..57 us give 0; any echo up to the 10000 us timeout gives a distance in [0, 172], and 10000 us gives 172 |
| Levels.MarksOrdered | src/main.cpp:12-17 | high mark 16, low mark 4, centre mark 10, and 0 < low < centre < high < vessel height 20 |
| Levels.WaterLevel | src/main.cpp:114-127 | the level is max(vesselHeight - distance, 0): never negative, at least vesselHeight - distance, equal to one of the two, and at most 20 for a non-negative distance |
| Levels.WaterLevelAntitone | src/main.cpp:114-118 | a larger distance never gives a higher level |
| Levels.LevelFromEcho | src/main.cpp:115 | a level computed from any non-negative echo time lies in [0, 20], and echoes of 1160 us or more read as an empty vessel |
| MotorRamp.CurveShape | src/main.cpp:36-37 | the curve has motor_curve_len + 1 = 14 entries, rises strictly, starts at 1 and ends at 255 |
| MotorRamp.NextIndex | src/main.cpp:66-82 | a ramp index stays in [0, 13]; direction 0 keeps it; a positive direction raises it by one exactly when it is below 13 and holds it at 13; a negative one lowers it by one exactly when it is above 0 and holds it at 0 |
| MotorRamp.DriveLevel | src/main.cpp:65-83 | the value written to a winding is a byte; it is 0 exactly when the direction is 0, and otherwise the curve entry at the stepped index |
| MotorRamp.Ramp | src/main.cpp:66-78 | any number of steps from an index in range leaves the index in range |
| MotorRamp.RampSaturates | src/main.cpp:66-78 | k raising steps from index i give min(i + k, 13), k lowering steps give max(i - k, 0), and direction 0 keeps i |
| MotorRamp.FullRampTakesThirteenSteps | src/main.cpp:36-78 | from rest a raising pump is written 255 exactly from its 13th call on; from the top a lowering pump is written 1 exactly from its 13th call on |
| Cycle.Toggle | src/main.cpp:248 | toggling the LED always changes its level |
| Cycle.Elapsed | src/main.cpp:238 | unsigned 32-bit `millis() - lastDebounceTime`: the plain difference when the clock has not wrapped, the difference plus 2^32 when it has |
| Cycle.Initial | src/main.cpp:40-58 | the initial globals satisfy the invariant: stopped, both directions 0, all indices 0, button, last reading and LED all LOW |
| Cycle.PumpA | src/main.cpp:65-83 | runPumpA changes only pump A's two indices and two outputs; each new index is NextIndex of the old one in the given direction, so it stays in range, and the two stay in lockstep; direction 0 writes 0 to both and keeps the indices; otherwise each output is the curve entry at its new index |
| Cycle.PumpB | src/main.cpp:90-109 | the same as PumpA for pump B's indices and outputs |
| Cycle.Debounce | src/main.cpp:232-257 | the button handling changes only running, the LED, the accepted state and the debounce time; the debounce time becomes now exactly when the reading differs from the last one; the accepted state changes only to the reading, and only when more than 150 ms have elapsed since the debounce time, and after such an elapse it equals the reading; running toggles exactly when the accepted state goes from LOW to HIGH, and the LED toggles exactly when running does |
| Cycle.StopAtMark | src/main.cpp:262-287 | a filling vessel stops exactly when its level is at or above 16; an emptying one exactly when at or below 4; otherwise the direction is kept |
| Cycle.Decide | src/main.cpp:259-302 | the phase logic changes only the two directions and the two solenoids, and keeps directions in {-1, 0, 1}; in a running pass where the vessels do not both stop, each direction is the threshold rule on its own vessel's level and the solenoids are kept |
| Cycle.Tick | src/main.cpp:208-313 | a pass of loop() keeps the invariant (directions in {-1, 0, 1}, indices in [0, 13] and equal per pump, outputs are bytes) and remembers the reading as lastButtonState |
| Cycle.ChangedReadingRestartsWindow | src/main.cpp:232-238 | a reading that differs from the last one restarts the window at now and is not accepted in that pass |
| Cycle.RunningTickKeepsAPumpCommanded | src/main.cpp:260-298 | after a running pass both directions are in {-1, 0, 1} and not both 0 |
| Cycle.VesselAStopsAtMarks | src/main.cpp:262-273 | while running, a filling vessel A is still filling after the pass exactly when its level is below 16, and an emptying one is still emptying exactly when its level is above 4 |
| Cycle.VesselBStopsAtMarks | src/main.cpp:276-298 | while running, vessel B keeps its direction while short of its mark, and stops at its mark unless A stopped too, in which case the phase choice sets it |
| Cycle.WaitingVesselHolds | src/main.cpp:260-298 | in a running pass where the vessels do not both stop, each new direction is the threshold rule on its own vessel alone, so a vessel already waiting at 0 stays at 0 while the other is still moving |
| Cycle.PumpsFollowDirections | src/main.cpp:305-306 | every pass steps each pump in the direction that pass decided: each index moves to NextIndex of its old value in that direction and each winding is written the DriveLevel for it (0 for direction 0) |
| Cycle.PhaseDecision | src/main.cpp:290-298 | when both vessels stop in a running pass: level A above 10 starts exhale (both -1, solenoid A HIGH, B LOW), otherwise inhale (both 1, A LOW, B HIGH); in every other pass the solenoids keep their values |
| Cycle.StoppedTick | src/main.cpp:299-306 | a stopped pass sets raisingA to 0 and writes 0 to pump A without moving its index, but keeps raisingB, so pump B steps and is driven with a non-zero value whenever raisingB is not 0; the solenoids keep their values |
| Cycle.Run | src/main.cpp:208-313 | any number of passes keeps the invariant and ends with the last reading remembered |
| Cycle.LastChange | src/main.cpp:232-235 | the start of the current stretch of equal readings, a 32-bit clock value: the time of the last sample whose reading differs from the one before it, or the stored debounce time if none did |
| Cycle.WindowStartsAtLastChange | src/main.cpp:232-235 | after any number of passes, lastDebounceTime is the time the reading last changed |
| Cycle.AcceptedOnlyWhenStableForDelay | src/main.cpp:232-257 | after any run, the next pass toggles running and the LED exactly when its reading has stayed unchanged for strictly more than 150 ms since it last changed, differs from the accepted state and is HIGH; the accepted state becomes the reading exactly when it has stayed unchanged that long |
| Cycle.ChatterNeverToggles | src/main.cpp:231-257 | when no stretch of equal readings lasts more than 150 ms, whatever the readings, running, the LED and the accepted button state never change |
| Cycle.HeldReadingNeverRefires | src/main.cpp:243-257 | a reading held at the accepted level never toggles running or the LED, over any number of passes |
| Cycle.HighHeldForDelayNotAccepted | src/main.cpp:238 | a HIGH reading after an accepted LOW, held for exactly 150 ms, has not toggled running: the comparison is strict |
| Cycle.HeldHighTogglesOnce | src/main.cpp:232-257 | a HIGH reading after an accepted LOW, held for 151 ms, toggles running, and it toggles no further however long it is held |
| Cycle.IdleButtonStartsInhale | src/main.cpp:197-306 | from power-up, the released (HIGH, pull-up) button read for 151 ms with vessel A at level 10 starts an inhale: running, both vessels filling, solenoid A LOW and B HIGH, both pumps at index 1 driven with 3 |
| Firmware.Controller.constructor | src/main.cpp:39-58 | the fields start at the globals' initial values |
| Firmware.Controller.RunPumpA | src/main.cpp:65-83 | the in-place runPumpA touches only pump A's indices and outputs and has the effect of Cycle.PumpA |
| Firmware.Controller.RunPumpB | src/main.cpp:90-109 | the in-place runPumpB touches only pump B's indices and outputs and has the effect of Cycle.PumpB |
| Firmware.Controller.Inhale | src/main.cpp:151-160 | inhale has exactly the effect of Cycle.InhaleState: both directions 1, solenoid A LOW and solenoid B HIGH, nothing else touched |
| Firmware.Controller.Exhale | src/main.cpp:169-179 | exhale has exactly the effect of Cycle.ExhaleState: both directions -1, solenoid A HIGH and solenoid B LOW, nothing else touched |
| Firmware.Controller.CheckButton | src/main.cpp:231-257 | the in-place debounce touches only the debounce time, the accepted state, the LED and running, with the effect of Cycle.Debounce |
| Firmware.Controller.UpdatePhase | src/main.cpp:259-302 | the in-place phase logic touches only the directions and solenoids, with the effect of Cycle.Decide |
| Firmware.Controller.Loop | src/main.cpp:208-313 | one in-place pass of loop() has exactly the effect of Cycle.Tick and keeps the invariant |

## Left out

- `setup()` (src/main.cpp:182-206): pin modes and the first writes to the LED and pumps are hardware configuration. The pin output fields start at 0 and LOW.
- `Serial.print` logging (src/main.cpp:213-222): console output with no effect on the state.
- `pingVessel` and `getDistance` (src/ultrasonic.cpp:8-19): pulse triggering and `pulseIn` are hardware calls. The distances are parameters of `Loop`; `pulseIn`'s behaviour on timeout is not modelled.
- `digitalRead`, `analogWrite`, `digitalWrite` and `delay(10)`: hardware side effects. Writes are recorded in fields, the reading is a parameter and the delay has no effect on the state.
- The LED pin itself: it is written with `ledState` whenever `ledState` changes, so `ledState` stands for it.
- `millis()` is called twice per pass (src/main.cpp:234, 238). The model uses one time value for both calls.
- Unused declarations: `motor_inc`, `water_hi_a`, `water_hi_b` and `button_2` (src/main.cpp:29-30, 33, 48) take no part in the logic.
- The width of C `long`: every value the conversion and the level clamp handle is far inside 32 bits, so they are modelled on unbounded integers.
