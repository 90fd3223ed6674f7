/** The soft-start ramp behind runPumpA/B (src/main.cpp): each motor winding
    keeps an index into a fixed curve of drive levels and moves it by one step
    per call. */
module MotorRamp {

  /** Drive levels written with analogWrite, indexed by the ramp index. */
  const MotorCurve: seq<int> := [1, 3, 8, 18, 38, 78, 128, 177, 217, 237, 247, 252, 254, 255]

  /** The firmware's `motor_curve_len`: it is the largest index, not the
      number of entries, so the top index 13 reads the last entry, 255. */
  const MotorCurveLen: int := 13

  predicate IndexInRange(index: int)
  {
    0 <= index <= MotorCurveLen
  }

  /** The curve has one entry per index, rises strictly and stays within a byte. */
  lemma CurveShape()
    ensures |MotorCurve| == MotorCurveLen + 1
    ensures forall i :: 0 <= i < MotorCurveLen ==> MotorCurve[i] < MotorCurve[i + 1]
    ensures MotorCurve[0] == 1 && MotorCurve[MotorCurveLen] == 255
    ensures forall i :: 0 <= i < MotorCurveLen ==> MotorCurve[i] < 255
    ensures forall i :: 0 < i <= MotorCurveLen ==> MotorCurve[i] > 1
  {
  }

  /** The index a winding moves to when its pump runs with `direction`:
      up one step for a positive direction, down one for a negative one,
      holding at the ends of the curve; direction 0 leaves it where it is. */
  function NextIndex(index: int, direction: int): (next: int)
    ensures IndexInRange(index) ==> IndexInRange(next)
    ensures direction == 0 ==> next == index
    ensures IndexInRange(index) && direction > 0 ==>
              (next == index + 1 <==> index < MotorCurveLen) && (next == index <==> index == MotorCurveLen)
    ensures IndexInRange(index) && direction < 0 ==>
              (next == index - 1 <==> index > 0) && (next == index <==> index == 0)
  {
    if direction > 0 then
      (if index < MotorCurveLen then index + 1 else MotorCurveLen)
    else if direction < 0 then
      (if index > 0 then index - 1 else 0)
    else
      index
  }

  /** The value written to a winding's pin: 0 for direction 0, otherwise the
      curve entry at the stepped index. A ramping pump is never written 0,
      even at the bottom of the curve, whose entry is 1. */
  function DriveLevel(index: int, direction: int): (drive: int)
    requires IndexInRange(index)
    ensures 0 <= drive <= 255
    ensures drive == 0 <==> direction == 0
    ensures direction != 0 ==> drive == MotorCurve[NextIndex(index, direction)]
  {
    if direction == 0 then 0 else MotorCurve[NextIndex(index, direction)]
  }

  /** The index after `ticks` consecutive calls with the same direction. */
  function Ramp(index: int, direction: int, ticks: nat): (last: int)
    ensures IndexInRange(index) ==> IndexInRange(last)
  {
    if ticks == 0 then index else NextIndex(Ramp(index, direction, ticks - 1), direction)
  }

  /** Repeated steps saturate: raising moves the index up one per call until
      it reaches the top of the curve, lowering moves it down until 0. */
  lemma {:induction false} RampSaturates(index: int, direction: int, ticks: nat)
    requires IndexInRange(index)
    ensures direction > 0 ==>
              Ramp(index, direction, ticks) == if index + ticks < MotorCurveLen then index + ticks else MotorCurveLen
    ensures direction < 0 ==>
              Ramp(index, direction, ticks) == if index - ticks > 0 then index - ticks else 0
    ensures direction == 0 ==> Ramp(index, direction, ticks) == index
  {
    if ticks > 0 {
      RampSaturates(index, direction, ticks - 1);
    }
  }

  /** From rest, a raising pump reaches full drive 255 on its 13th call and
      not before; from the top, a lowering pump reaches the bottom entry 1
      on its 13th call and is never written 0. */
  lemma {:induction false} FullRampTakesThirteenSteps(ticks: nat)
    requires 0 < ticks
    ensures DriveLevel(Ramp(0, 1, ticks - 1), 1) == 255 <==> ticks >= MotorCurveLen
    ensures DriveLevel(Ramp(MotorCurveLen, -1, ticks - 1), -1) == 1 <==> ticks >= MotorCurveLen
  {
    RampSaturates(0, 1, ticks - 1);
    RampSaturates(MotorCurveLen, -1, ticks - 1);
    CurveShape();
    var up := Ramp(0, 1, ticks - 1);
    var down := Ramp(MotorCurveLen, -1, ticks - 1);
    if ticks < MotorCurveLen {
      assert NextIndex(up, 1) == ticks && ticks < MotorCurveLen;
      assert NextIndex(down, -1) == MotorCurveLen - ticks && MotorCurveLen - ticks > 0;
    }
  }
}
