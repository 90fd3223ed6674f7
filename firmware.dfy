/** The firmware's global state and the routines of src/main.cpp that update
    it in place. Each routine is proved to have the effect its counterpart in
    module Cycle describes, so the properties proved there hold of the
    in-place code. Pin writes are recorded in the `drive*` and `solenoid*`
    fields instead of going to the hardware. */
module Firmware {
  import opened Levels
  import opened MotorRamp
  import opened Cycle

  class Controller {
    var running: bool
    var raisingA: int
    var raisingB: int
    var motorA2fIndex: int
    var motorA2eIndex: int
    var motorB2fIndex: int
    var motorB2eIndex: int
    var ledState: PinLevel
    var buttonState: PinLevel
    var lastButtonState: PinLevel
    var lastDebounceTime: int
    var driveA2f: int
    var driveA2e: int
    var driveB2f: int
    var driveB2e: int
    var solenoidA: PinLevel
    var solenoidB: PinLevel

    /** The fields as one value. */
    ghost function State(): ControllerState
      reads this
    {
      ControllerState(running, raisingA, raisingB,
                      motorA2fIndex, motorA2eIndex, motorB2fIndex, motorB2eIndex,
                      ledState, buttonState, lastButtonState, lastDebounceTime,
                      driveA2f, driveA2e, driveB2f, driveB2e, solenoidA, solenoidB)
    }

    ghost predicate Valid()
      reads this
    {
      Inv(State())
    }

    /** The globals' initial values. */
    constructor ()
      ensures Valid() && State() == Initial()
    {
      running := false;
      raisingA, raisingB := 0, 0;
      motorA2fIndex, motorA2eIndex, motorB2fIndex, motorB2eIndex := 0, 0, 0, 0;
      ledState := Low;
      buttonState := Low;
      lastButtonState := Low;
      lastDebounceTime := 0;
      driveA2f, driveA2e, driveB2f, driveB2e := 0, 0, 0, 0;
      solenoidA, solenoidB := Low, Low;
    }

    /** `runPumpA`: only pump A's indices and outputs change. */
    method RunPumpA(direction: int)
      requires IndexInRange(motorA2fIndex) && IndexInRange(motorA2eIndex)
      modifies this`motorA2fIndex, this`motorA2eIndex, this`driveA2f, this`driveA2e
      ensures State() == PumpA(old(State()), direction)
    {
      if direction > 0 {
        motorA2fIndex := if motorA2fIndex < MotorCurveLen then motorA2fIndex + 1 else MotorCurveLen;
        driveA2f := MotorCurve[motorA2fIndex];

        motorA2eIndex := if motorA2eIndex < MotorCurveLen then motorA2eIndex + 1 else MotorCurveLen;
        driveA2e := MotorCurve[motorA2eIndex];
      } else if direction < 0 {
        motorA2fIndex := if motorA2fIndex > 0 then motorA2fIndex - 1 else 0;
        driveA2f := MotorCurve[motorA2fIndex];

        motorA2eIndex := if motorA2eIndex > 0 then motorA2eIndex - 1 else 0;
        driveA2e := MotorCurve[motorA2eIndex];
      } else {
        driveA2f := 0;
        driveA2e := 0;
      }
    }

    /** `runPumpB`: only pump B's indices and outputs change. */
    method RunPumpB(direction: int)
      requires IndexInRange(motorB2fIndex) && IndexInRange(motorB2eIndex)
      modifies this`motorB2fIndex, this`motorB2eIndex, this`driveB2f, this`driveB2e
      ensures State() == PumpB(old(State()), direction)
    {
      if direction > 0 {
        motorB2fIndex := if motorB2fIndex < MotorCurveLen then motorB2fIndex + 1 else MotorCurveLen;
        driveB2f := MotorCurve[motorB2fIndex];

        motorB2eIndex := if motorB2eIndex < MotorCurveLen then motorB2eIndex + 1 else MotorCurveLen;
        driveB2e := MotorCurve[motorB2eIndex];
      } else if direction < 0 {
        motorB2fIndex := if motorB2fIndex > 0 then motorB2fIndex - 1 else 0;
        driveB2f := MotorCurve[motorB2fIndex];

        motorB2eIndex := if motorB2eIndex > 0 then motorB2eIndex - 1 else 0;
        driveB2e := MotorCurve[motorB2eIndex];
      } else {
        driveB2f := 0;
        driveB2e := 0;
      }
    }

    /** `inhale`: both vessels fill, solenoid A closes and B opens. */
    method Inhale()
      modifies this`raisingA, this`raisingB, this`solenoidA, this`solenoidB
      ensures State() == InhaleState(old(State()))
    {
      raisingA := 1;
      raisingB := 1;
      solenoidA := Low;
      solenoidB := High;
    }

    /** `exhale`: both vessels empty, solenoid A opens and B closes. */
    method Exhale()
      modifies this`raisingA, this`raisingB, this`solenoidA, this`solenoidB
      ensures State() == ExhaleState(old(State()))
    {
      raisingA := -1;
      raisingB := -1;
      solenoidA := High;
      solenoidB := Low;
    }

    /** The button handling at the head of `loop()` (its first block). */
    method CheckButton(reading: PinLevel, now: int)
      requires IsMillis(now) && IsMillis(lastDebounceTime)
      modifies this`lastDebounceTime, this`buttonState, this`ledState, this`running
      ensures State() == Debounce(old(State()), reading, now)
    {
      if reading != lastButtonState {
        lastDebounceTime := now;
      }
      if Elapsed(now, lastDebounceTime) > DebounceDelay {
        if reading != buttonState {
          buttonState := reading;
          if buttonState == High {
            ledState := Toggle(ledState);
            running := !running;
          }
        }
      }
    }

    /** The phase logic in the middle of `loop()`, given both levels. */
    method UpdatePhase(heightA: int, heightB: int)
      modifies this`raisingA, this`raisingB, this`solenoidA, this`solenoidB
      ensures State() == Decide(old(State()), heightA, heightB)
    {
      if running {
        if raisingA == 1 {
          if heightA >= HighWaterMark {
            raisingA := 0;
          }
        } else if raisingA == -1 {
          if heightA <= LowWaterMark {
            raisingA := 0;
          }
        }

        if raisingB == 1 {
          if heightB >= HighWaterMark {
            raisingB := 0;
          }
        } else if raisingB == -1 {
          if heightB <= LowWaterMark {
            raisingB := 0;
          }
        }

        if raisingA == 0 && raisingB == 0 {
          if heightA > CenterWaterMark {
            Exhale();
          } else {
            Inhale();
          }
        }
      } else {
        // The stop branch assigns raisingA twice; raisingB keeps its value.
        raisingA := 0;
        raisingA := 0;
      }
    }

    /** One pass of `loop()`, given the two measured distances, the button
        reading and the time. Its effect is exactly `Cycle.Tick`, and it keeps
        the controller's invariant. */
    method Loop(distA: int, distB: int, reading: PinLevel, now: int)
      requires Valid() && IsMillis(now)
      modifies this
      ensures Valid()
      ensures State() == Tick(old(State()), distA, distB, reading, now)
    {
      var heightA := WaterLevel(distA);
      var heightB := WaterLevel(distB);

      CheckButton(reading, now);
      UpdatePhase(heightA, heightB);

      RunPumpA(raisingA);
      RunPumpB(raisingB);

      lastButtonState := reading;
    }
  }
}
