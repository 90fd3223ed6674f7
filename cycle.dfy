/** One pass of the firmware's `loop()` (src/main.cpp) as a function on the
    controller's state: debounce the start/stop button, stop a vessel that
    reached its mark, pick the next phase when both have stopped, and step
    both pumps. The class in module Firmware runs the same pass in place and
    is proved equal to `Tick`. */
module Cycle {
  import opened Levels
  import opened MotorRamp

  /** A digital pin level, `LOW` or `HIGH`. */
  datatype PinLevel = Low | High

  /** The C expression `!ledState` on a pin level. */
  function Toggle(p: PinLevel): (q: PinLevel)
    ensures q != p
  {
    if p == Low then High else Low
  }

  /** The reading must stay unchanged for strictly longer than this many
      milliseconds before it is accepted. */
  const DebounceDelay: int := 150

  /** `millis()` and `lastDebounceTime` are 32-bit `unsigned long`. */
  const MillisModulus: int := 0x1_0000_0000

  predicate IsMillis(t: int)
  {
    0 <= t < MillisModulus
  }

  /** `millis() - lastDebounceTime` in unsigned 32-bit arithmetic: the plain
      difference, or the difference wrapped once around when the clock has
      passed its maximum since. */
  function Elapsed(now: int, since: int): (e: int)
    requires IsMillis(now) && IsMillis(since)
    ensures IsMillis(e)
    ensures now >= since ==> e == now - since
    ensures now < since ==> e == now - since + MillisModulus
  {
    (now - since) % MillisModulus
  }

  /** The firmware's global variables, together with the value last written
      to each actuator pin (analogWrite to the four motor windings,
      digitalWrite to the two solenoids). `running` is the C int 0/1. */
  datatype ControllerState = ControllerState(
    running: bool,
    raisingA: int,
    raisingB: int,
    motorA2fIndex: int,
    motorA2eIndex: int,
    motorB2fIndex: int,
    motorB2eIndex: int,
    ledState: PinLevel,
    buttonState: PinLevel,
    lastButtonState: PinLevel,
    lastDebounceTime: int,
    driveA2f: int,
    driveA2e: int,
    driveB2f: int,
    driveB2e: int,
    solenoidA: PinLevel,
    solenoidB: PinLevel)

  /** A vessel direction: 1 raising, -1 emptying, 0 stopped. */
  predicate IsDirection(d: int)
  {
    d == -1 || d == 0 || d == 1
  }

  predicate IsDrive(v: int)
  {
    0 <= v <= 255
  }

  /** What every reachable state satisfies: directions are -1, 0 or 1, every
      ramp index is inside the curve, the two windings of a pump share one
      index, the debounce time is a clock value and every motor output is a
      byte. */
  predicate Inv(s: ControllerState)
  {
    IsDirection(s.raisingA) && IsDirection(s.raisingB) &&
    IndexInRange(s.motorA2fIndex) && s.motorA2eIndex == s.motorA2fIndex &&
    IndexInRange(s.motorB2fIndex) && s.motorB2eIndex == s.motorB2fIndex &&
    IsMillis(s.lastDebounceTime) &&
    IsDrive(s.driveA2f) && IsDrive(s.driveA2e) && IsDrive(s.driveB2f) && IsDrive(s.driveB2e)
  }

  /** The globals as the firmware initialises them (`buttonState` is a
      zero-initialised global, hence LOW); no actuator has been driven yet. */
  function Initial(): (s: ControllerState)
    ensures Inv(s) && !s.running && s.raisingA == 0 && s.raisingB == 0
    ensures s.buttonState == Low && s.lastButtonState == Low && s.ledState == Low
    ensures s.motorA2fIndex == 0 && s.motorB2fIndex == 0
  {
    ControllerState(false, 0, 0, 0, 0, 0, 0, Low, Low, Low, 0, 0, 0, 0, 0, Low, Low)
  }

  /** `runPumpA(direction)`: step both A windings and write their drive. */
  function PumpA(s: ControllerState, direction: int): (t: ControllerState)
    requires IndexInRange(s.motorA2fIndex) && IndexInRange(s.motorA2eIndex)
    ensures t.(motorA2fIndex := s.motorA2fIndex, motorA2eIndex := s.motorA2eIndex,
               driveA2f := s.driveA2f, driveA2e := s.driveA2e) == s
    ensures t.motorA2fIndex == NextIndex(s.motorA2fIndex, direction) &&
            t.motorA2eIndex == NextIndex(s.motorA2eIndex, direction)
    ensures IndexInRange(t.motorA2fIndex) && IndexInRange(t.motorA2eIndex)
    ensures s.motorA2fIndex == s.motorA2eIndex ==> t.motorA2fIndex == t.motorA2eIndex
    ensures direction == 0 ==>
              t.driveA2f == 0 && t.driveA2e == 0 &&
              t.motorA2fIndex == s.motorA2fIndex && t.motorA2eIndex == s.motorA2eIndex
    ensures direction != 0 ==>
              t.driveA2f == MotorCurve[t.motorA2fIndex] && t.driveA2e == MotorCurve[t.motorA2eIndex]
    ensures IsDrive(t.driveA2f) && IsDrive(t.driveA2e)
  {
    s.(motorA2fIndex := NextIndex(s.motorA2fIndex, direction),
       driveA2f := DriveLevel(s.motorA2fIndex, direction),
       motorA2eIndex := NextIndex(s.motorA2eIndex, direction),
       driveA2e := DriveLevel(s.motorA2eIndex, direction))
  }

  /** `runPumpB(direction)`: step both B windings and write their drive. */
  function PumpB(s: ControllerState, direction: int): (t: ControllerState)
    requires IndexInRange(s.motorB2fIndex) && IndexInRange(s.motorB2eIndex)
    ensures t.(motorB2fIndex := s.motorB2fIndex, motorB2eIndex := s.motorB2eIndex,
               driveB2f := s.driveB2f, driveB2e := s.driveB2e) == s
    ensures t.motorB2fIndex == NextIndex(s.motorB2fIndex, direction) &&
            t.motorB2eIndex == NextIndex(s.motorB2eIndex, direction)
    ensures IndexInRange(t.motorB2fIndex) && IndexInRange(t.motorB2eIndex)
    ensures s.motorB2fIndex == s.motorB2eIndex ==> t.motorB2fIndex == t.motorB2eIndex
    ensures direction == 0 ==>
              t.driveB2f == 0 && t.driveB2e == 0 &&
              t.motorB2fIndex == s.motorB2fIndex && t.motorB2eIndex == s.motorB2eIndex
    ensures direction != 0 ==>
              t.driveB2f == MotorCurve[t.motorB2fIndex] && t.driveB2e == MotorCurve[t.motorB2eIndex]
    ensures IsDrive(t.driveB2f) && IsDrive(t.driveB2e)
  {
    s.(motorB2fIndex := NextIndex(s.motorB2fIndex, direction),
       driveB2f := DriveLevel(s.motorB2fIndex, direction),
       motorB2eIndex := NextIndex(s.motorB2eIndex, direction),
       driveB2e := DriveLevel(s.motorB2eIndex, direction))
  }

  /** `inhale()`: both vessels fill; solenoid A closed, solenoid B open. */
  function InhaleState(s: ControllerState): ControllerState
  {
    s.(raisingA := 1, raisingB := 1, solenoidA := Low, solenoidB := High)
  }

  /** `exhale()`: both vessels empty; solenoid A open, solenoid B closed. */
  function ExhaleState(s: ControllerState): ControllerState
  {
    s.(raisingA := -1, raisingB := -1, solenoidA := High, solenoidB := Low)
  }

  /** The debounce at the head of `loop()`: a change of reading restarts the
      window; a reading that has then been stable for longer than the delay
      and differs from the accepted state becomes the accepted state, and if
      it is HIGH it toggles the LED and `running`. */
  function Debounce(s: ControllerState, reading: PinLevel, now: int): (t: ControllerState)
    requires IsMillis(now) && IsMillis(s.lastDebounceTime)
    ensures t.(running := s.running, ledState := s.ledState, buttonState := s.buttonState,
               lastDebounceTime := s.lastDebounceTime) == s
    ensures IsMillis(t.lastDebounceTime)
    ensures t.lastDebounceTime == if reading != s.lastButtonState then now else s.lastDebounceTime
    ensures t.buttonState != s.buttonState ==>
              t.buttonState == reading && Elapsed(now, t.lastDebounceTime) > DebounceDelay
    ensures Elapsed(now, t.lastDebounceTime) > DebounceDelay ==> t.buttonState == reading
    ensures t.running != s.running <==> s.buttonState == Low && t.buttonState == High
    ensures t.ledState != s.ledState <==> t.running != s.running
  {
    var since := if reading != s.lastButtonState then now else s.lastDebounceTime;
    var s1 := s.(lastDebounceTime := since);
    if Elapsed(now, since) > DebounceDelay && reading != s1.buttonState then
      var s2 := s1.(buttonState := reading);
      if reading == High then s2.(ledState := Toggle(s2.ledState), running := !s2.running) else s2
    else
      s1
  }

  /** The per-vessel threshold rule: a filling vessel stops at the high mark
      or above, an emptying one at the low mark or below (both inclusive);
      any other direction is kept. */
  function StopAtMark(direction: int, level: int): (d: int)
    ensures direction == 1 ==> (d == 0 <==> level >= HighWaterMark)
    ensures direction == -1 ==> (d == 0 <==> level <= LowWaterMark)
    ensures d == direction || d == 0
    ensures direction != 1 && direction != -1 ==> d == direction
  {
    if direction == 1 then
      (if level >= HighWaterMark then 0 else direction)
    else if direction == -1 then
      (if level <= LowWaterMark then 0 else direction)
    else
      direction
  }

  /** The phase logic of `loop()`. While running: apply the threshold rule to
      each vessel, and once both have stopped, exhale if A is above the centre
      mark and inhale otherwise. While stopped: clear `raisingA` (the
      firmware assigns it twice and never clears `raisingB`). */
  function Decide(s: ControllerState, heightA: int, heightB: int): (t: ControllerState)
    ensures t.(raisingA := s.raisingA, raisingB := s.raisingB,
               solenoidA := s.solenoidA, solenoidB := s.solenoidB) == s
    ensures IsDirection(s.raisingA) && IsDirection(s.raisingB) ==>
              IsDirection(t.raisingA) && IsDirection(t.raisingB)
    ensures s.running && !(StopAtMark(s.raisingA, heightA) == 0 && StopAtMark(s.raisingB, heightB) == 0) ==>
              t.raisingA == StopAtMark(s.raisingA, heightA) && t.raisingB == StopAtMark(s.raisingB, heightB) &&
              t.solenoidA == s.solenoidA && t.solenoidB == s.solenoidB
  {
    if s.running then
      var s1 := s.(raisingA := StopAtMark(s.raisingA, heightA), raisingB := StopAtMark(s.raisingB, heightB));
      if s1.raisingA == 0 && s1.raisingB == 0 then
        if heightA > CenterWaterMark then ExhaleState(s1) else InhaleState(s1)
      else
        s1
    else
      s.(raisingA := 0)
  }

  /** One whole `loop()` pass, with the two sensor distances, the button
      reading and the clock as inputs. */
  function Tick(s: ControllerState, distA: int, distB: int, reading: PinLevel, now: int): (t: ControllerState)
    requires Inv(s) && IsMillis(now)
    ensures Inv(t)
    ensures t.lastButtonState == reading
  {
    var heightA := WaterLevel(distA);
    var heightB := WaterLevel(distB);
    var s1 := Debounce(s, reading, now);
    assert Inv(s1);
    var s2 := Decide(s1, heightA, heightB);
    assert Inv(s2);
    var s3 := PumpB(PumpA(s2, s2.raisingA), s2.raisingB);
    s3.(lastButtonState := reading)
  }

  /** The button fields after a pass are those the debounce left: the phase
      logic and the pump steps never touch them. */
  lemma TickButton(s: ControllerState, distA: int, distB: int, reading: PinLevel, now: int)
    requires Inv(s) && IsMillis(now)
    ensures var t := Tick(s, distA, distB, reading, now);
            var d := Debounce(s, reading, now);
            t.running == d.running && t.ledState == d.ledState &&
            t.buttonState == d.buttonState && t.lastDebounceTime == d.lastDebounceTime
  {
  }

  /** Every pass steps each pump in the direction that pass decided: pump A's
      indices move by `NextIndex` and its windings are written the matching
      `DriveLevel` (0 for direction 0), and likewise for pump B. */
  lemma PumpsFollowDirections(s: ControllerState, distA: int, distB: int, reading: PinLevel, now: int)
    requires Inv(s) && IsMillis(now)
    ensures var t := Tick(s, distA, distB, reading, now);
            t.motorA2fIndex == NextIndex(s.motorA2fIndex, t.raisingA) &&
            t.motorA2eIndex == NextIndex(s.motorA2eIndex, t.raisingA) &&
            t.driveA2f == DriveLevel(s.motorA2fIndex, t.raisingA) &&
            t.driveA2e == DriveLevel(s.motorA2eIndex, t.raisingA) &&
            t.motorB2fIndex == NextIndex(s.motorB2fIndex, t.raisingB) &&
            t.motorB2eIndex == NextIndex(s.motorB2eIndex, t.raisingB) &&
            t.driveB2f == DriveLevel(s.motorB2fIndex, t.raisingB) &&
            t.driveB2e == DriveLevel(s.motorB2eIndex, t.raisingB)
  {
  }

  /** A reading that differs from the previous pass's is never accepted in the
      same pass: it only restarts the window. */
  lemma ChangedReadingRestartsWindow(s: ControllerState, distA: int, distB: int, reading: PinLevel, now: int)
    requires Inv(s) && IsMillis(now)
    requires reading != s.lastButtonState
    ensures var t := Tick(s, distA, distB, reading, now);
            t.running == s.running && t.ledState == s.ledState &&
            t.buttonState == s.buttonState && t.lastDebounceTime == now
  {
  }

  /** A running pass always leaves both directions in {-1, 0, 1} and never both
      at 0: when both vessels stop, a new phase starts in the same pass. */
  lemma RunningTickKeepsAPumpCommanded(s: ControllerState, distA: int, distB: int, reading: PinLevel, now: int)
    requires Inv(s) && IsMillis(now)
    ensures var t := Tick(s, distA, distB, reading, now);
            t.running ==> IsDirection(t.raisingA) && IsDirection(t.raisingB) && !(t.raisingA == 0 && t.raisingB == 0)
  {
  }

  /** While running, a filling vessel A keeps filling exactly while its level
      is below the high mark, and an emptying one keeps emptying exactly while
      its level is above the low mark. */
  lemma VesselAStopsAtMarks(s: ControllerState, distA: int, distB: int, reading: PinLevel, now: int)
    requires Inv(s) && IsMillis(now)
    requires Debounce(s, reading, now).running
    ensures var t := Tick(s, distA, distB, reading, now);
            (s.raisingA == 1 ==> (t.raisingA == 1 <==> WaterLevel(distA) < HighWaterMark)) &&
            (s.raisingA == -1 ==> (t.raisingA == -1 <==> WaterLevel(distA) > LowWaterMark))
  {
    MarksOrdered();
  }

  /** While running, vessel B keeps its direction as long as it is short of
      its mark; once it reaches the mark it stops unless A has also stopped,
      in which case the new phase decides. */
  lemma VesselBStopsAtMarks(s: ControllerState, distA: int, distB: int, reading: PinLevel, now: int)
    requires Inv(s) && IsMillis(now)
    requires Debounce(s, reading, now).running
    ensures var t := Tick(s, distA, distB, reading, now);
            var aStopped := StopAtMark(s.raisingA, WaterLevel(distA)) == 0;
            (s.raisingB == 1 && WaterLevel(distB) < HighWaterMark ==> t.raisingB == 1) &&
            (s.raisingB == -1 && WaterLevel(distB) > LowWaterMark ==> t.raisingB == -1) &&
            (s.raisingB == 1 && WaterLevel(distB) >= HighWaterMark && !aStopped ==> t.raisingB == 0) &&
            (s.raisingB == -1 && WaterLevel(distB) <= LowWaterMark && !aStopped ==> t.raisingB == 0)
  {
  }

  /** In a running pass where the vessels do not both stop, each vessel's new
      direction is the threshold rule applied to its own level alone. In
      particular a vessel that is already waiting at direction 0 stays at 0
      for as long as the other is still moving towards its mark. */
  lemma WaitingVesselHolds(s: ControllerState, distA: int, distB: int, reading: PinLevel, now: int)
    requires Inv(s) && IsMillis(now)
    requires Debounce(s, reading, now).running
    requires !(StopAtMark(s.raisingA, WaterLevel(distA)) == 0 && StopAtMark(s.raisingB, WaterLevel(distB)) == 0)
    ensures var t := Tick(s, distA, distB, reading, now);
            t.raisingA == StopAtMark(s.raisingA, WaterLevel(distA)) &&
            t.raisingB == StopAtMark(s.raisingB, WaterLevel(distB)) &&
            (s.raisingA == 0 ==> t.raisingA == 0) && (s.raisingB == 0 ==> t.raisingB == 0)
  {
  }

  /** When both vessels have stopped in a running pass, vessel A's level alone
      picks the phase: above the centre mark both empty with solenoid A open
      and B closed (exhale), otherwise both fill with A closed and B open
      (inhale). Otherwise the solenoids keep their last setting. */
  lemma PhaseDecision(s: ControllerState, distA: int, distB: int, reading: PinLevel, now: int)
    requires Inv(s) && IsMillis(now)
    ensures var t := Tick(s, distA, distB, reading, now);
            var flips := Debounce(s, reading, now).running &&
                         StopAtMark(s.raisingA, WaterLevel(distA)) == 0 &&
                         StopAtMark(s.raisingB, WaterLevel(distB)) == 0;
            (flips && WaterLevel(distA) > CenterWaterMark ==>
               t.raisingA == -1 && t.raisingB == -1 && t.solenoidA == High && t.solenoidB == Low) &&
            (flips && WaterLevel(distA) <= CenterWaterMark ==>
               t.raisingA == 1 && t.raisingB == 1 && t.solenoidA == Low && t.solenoidB == High) &&
            (!flips ==> t.solenoidA == s.solenoidA && t.solenoidB == s.solenoidB)
  {
  }

  /** A stopped pass clears `raisingA` and switches pump A's outputs to 0, but
      leaves `raisingB` as it was, so pump B keeps ramping in its old
      direction. */
  lemma StoppedTick(s: ControllerState, distA: int, distB: int, reading: PinLevel, now: int)
    requires Inv(s) && IsMillis(now)
    requires !Debounce(s, reading, now).running
    ensures var t := Tick(s, distA, distB, reading, now);
            t.raisingA == 0 && t.driveA2f == 0 && t.driveA2e == 0 &&
            t.motorA2fIndex == s.motorA2fIndex &&
            t.raisingB == s.raisingB &&
            t.motorB2fIndex == NextIndex(s.motorB2fIndex, s.raisingB) &&
            t.driveB2f == DriveLevel(s.motorB2fIndex, s.raisingB) &&
            (s.raisingB != 0 ==> t.driveB2f > 0 && t.driveB2e > 0) &&
            t.solenoidA == s.solenoidA && t.solenoidB == s.solenoidB
  {
  }

  /** One pass's inputs. */
  datatype Sample = Sample(distA: int, distB: int, reading: PinLevel, now: int)

  predicate ClockSamples(samples: seq<Sample>)
  {
    forall i :: 0 <= i < |samples| ==> IsMillis(samples[i].now)
  }

  /** The state after the firmware has run `loop()` once per sample. */
  function Run(s: ControllerState, samples: seq<Sample>): (t: ControllerState)
    requires Inv(s) && ClockSamples(samples)
    ensures Inv(t)
    ensures |samples| > 0 ==> t.lastButtonState == samples[|samples| - 1].reading
    decreases |samples|
  {
    if samples == [] then s
    else
      var x := samples[0];
      Run(Tick(s, x.distA, x.distB, x.reading, x.now), samples[1..])
  }

  lemma RunCons(s: ControllerState, x: Sample, rest: seq<Sample>)
    requires Inv(s) && IsMillis(x.now) && ClockSamples(rest)
    ensures ClockSamples([x] + rest)
    ensures Run(s, [x] + rest) == Run(Tick(s, x.distA, x.distB, x.reading, x.now), rest)
  {
    assert ([x] + rest)[0] == x;
    assert ([x] + rest)[1..] == rest;
  }

  lemma {:induction false} RunAppend(s: ControllerState, a: seq<Sample>, b: seq<Sample>)
    requires Inv(s) && ClockSamples(a) && ClockSamples(b)
    ensures ClockSamples(a + b)
    ensures Run(s, a + b) == Run(Run(s, a), b)
    decreases |a|
  {
    if a != [] {
      var x := a[0];
      var s1 := Tick(s, x.distA, x.distB, x.reading, x.now);
      assert a == [x] + a[1..];
      assert a + b == [x] + (a[1..] + b);
      RunAppend(s1, a[1..], b);
      RunCons(s, x, a[1..] + b);
      RunCons(s, x, a[1..]);
    } else {
      assert a + b == b;
    }
  }

  /** The reading a sample is compared with: the previous sample's, or for the
      first sample the reading remembered in `s`. */
  function PreviousReading(s: ControllerState, samples: seq<Sample>, i: int): PinLevel
    requires 0 <= i < |samples|
  {
    if i == 0 then s.lastButtonState else samples[i - 1].reading
  }

  /** The time of the last sample whose reading differs from the one before
      it, or `s.lastDebounceTime` when no reading in `samples` changed: the
      start of the stretch of equal readings the last sample belongs to. */
  function LastChange(s: ControllerState, samples: seq<Sample>): (t: int)
    requires IsMillis(s.lastDebounceTime) && ClockSamples(samples)
    ensures IsMillis(t)
    decreases |samples|
  {
    if samples == [] then s.lastDebounceTime
    else
      var k := |samples| - 1;
      if samples[k].reading != PreviousReading(s, samples, k) then samples[k].now
      else LastChange(s, samples[..k])
  }

  /** After any run, `lastDebounceTime` is the time the reading last changed. */
  lemma {:induction false} WindowStartsAtLastChange(s: ControllerState, samples: seq<Sample>)
    requires Inv(s) && ClockSamples(samples)
    ensures Run(s, samples).lastDebounceTime == LastChange(s, samples)
    decreases |samples|
  {
    if samples != [] {
      var k := |samples| - 1;
      var pre := samples[..k];
      var x := samples[k];
      assert samples == pre + [x];
      WindowStartsAtLastChange(s, pre);
      var u := Run(s, pre);
      RunAppend(s, pre, [x]);
      RunCons(u, x, []);
      assert [x] + [] == [x];
      TickButton(u, x.distA, x.distB, x.reading, x.now);
      if k > 0 {
        assert pre[k - 1] == samples[k - 1];
      }
      assert u.lastButtonState == PreviousReading(s, samples, k);
      assert pre == samples[..k];
    }
  }

  /** The debounce's promise over a whole run: the last pass toggles `running`
      and the LED exactly when its reading has stayed unchanged for strictly
      longer than the delay, differs from the accepted state and is HIGH. */
  lemma AcceptedOnlyWhenStableForDelay(s: ControllerState, samples: seq<Sample>, x: Sample)
    requires Inv(s) && ClockSamples(samples) && IsMillis(x.now)
    ensures ClockSamples(samples + [x])
    ensures var u := Run(s, samples);
            var t := Run(s, samples + [x]);
            var stable := Elapsed(x.now, LastChange(s, samples + [x])) > DebounceDelay;
            (t.running != u.running <==> stable && x.reading != u.buttonState && x.reading == High) &&
            (t.ledState != u.ledState <==> stable && x.reading != u.buttonState && x.reading == High) &&
            t.buttonState == (if stable then x.reading else u.buttonState)
  {
    var u := Run(s, samples);
    RunAppend(s, samples, [x]);
    RunCons(u, x, []);
    assert [x] + [] == [x];
    WindowStartsAtLastChange(s, samples + [x]);
    TickButton(u, x.distA, x.distB, x.reading, x.now);
  }

  /** Contact bounce: when every stretch of equal readings lasts at most the
      debounce delay, no reading is ever accepted, so `running`, the LED and
      the accepted state never change. */
  lemma {:induction false} ChatterNeverToggles(s: ControllerState, samples: seq<Sample>)
    requires Inv(s) && ClockSamples(samples)
    requires forall i :: 0 <= i < |samples| ==>
               Elapsed(samples[i].now, LastChange(s, samples[..i + 1])) <= DebounceDelay
    ensures var t := Run(s, samples);
            t.running == s.running && t.ledState == s.ledState && t.buttonState == s.buttonState
    decreases |samples|
  {
    if samples != [] {
      var k := |samples| - 1;
      var pre := samples[..k];
      var x := samples[k];
      assert samples == pre + [x];
      ChatterOnPrefix(s, samples, k);
      ChatterNeverToggles(s, pre);
      assert samples[..k + 1] == samples;
      assert Elapsed(x.now, LastChange(s, pre + [x])) <= DebounceDelay;
      AcceptedOnlyWhenStableForDelay(s, pre, x);
    }
  }

  /** The bounce condition of `ChatterNeverToggles` holds of every prefix. */
  lemma ChatterOnPrefix(s: ControllerState, samples: seq<Sample>, k: int)
    requires Inv(s) && ClockSamples(samples) && 0 <= k <= |samples|
    requires forall i :: 0 <= i < |samples| ==>
               Elapsed(samples[i].now, LastChange(s, samples[..i + 1])) <= DebounceDelay
    ensures forall i :: 0 <= i < k ==>
              Elapsed(samples[..k][i].now, LastChange(s, samples[..k][..i + 1])) <= DebounceDelay
  {
    forall i | 0 <= i < k
      ensures Elapsed(samples[..k][i].now, LastChange(s, samples[..k][..i + 1])) <= DebounceDelay
    {
      assert samples[..k][..i + 1] == samples[..i + 1];
    }
  }

  /** A reading held at the level already accepted never fires again, however
      long it is held. */
  lemma {:induction false} HeldReadingNeverRefires(s: ControllerState, samples: seq<Sample>)
    requires Inv(s) && ClockSamples(samples)
    requires forall i :: 0 <= i < |samples| ==> samples[i].reading == s.buttonState
    ensures var t := Run(s, samples);
            t.running == s.running && t.ledState == s.ledState && t.buttonState == s.buttonState
    decreases |samples|
  {
    if samples != [] {
      var x := samples[0];
      var s1 := Tick(s, x.distA, x.distB, x.reading, x.now);
      TickButton(s, x.distA, x.distB, x.reading, x.now);
      HeldReadingNeverRefires(s1, samples[1..]);
    }
  }

  /** A HIGH reading after an accepted LOW that has been held for exactly the
      debounce delay is not yet accepted: the comparison is strict. */
  lemma HighHeldForDelayNotAccepted(s: ControllerState, t0: int, d1: int, d2: int)
    requires Inv(s) && s.lastButtonState == Low && s.buttonState == Low
    requires 0 <= t0 && t0 + DebounceDelay < MillisModulus
    ensures Run(s, [Sample(d1, d2, High, t0), Sample(d1, d2, High, t0 + DebounceDelay)]).running == s.running
  {
    var rise := Sample(d1, d2, High, t0);
    var early := Sample(d1, d2, High, t0 + DebounceDelay);
    var s1 := Tick(s, d1, d2, High, t0);
    ChangedReadingRestartsWindow(s, d1, d2, High, t0);
    TickButton(s1, d1, d2, High, t0 + DebounceDelay);
    RunCons(s, rise, [early]);
    RunCons(s1, early, []);
    assert [rise] + [early] == [rise, early];
    assert [early] + [] == [early];
  }

  /** A HIGH reading after an accepted LOW, held one millisecond past the
      debounce delay, toggles `running`; holding it longer toggles nothing
      more. */
  lemma {:induction false} HeldHighTogglesOnce(s: ControllerState, t0: int, d1: int, d2: int, held: seq<Sample>)
    requires Inv(s) && s.lastButtonState == Low && s.buttonState == Low
    requires 0 <= t0 && t0 + DebounceDelay + 1 < MillisModulus
    requires ClockSamples(held)
    requires forall i :: 0 <= i < |held| ==> held[i].reading == High
    ensures Run(s, [Sample(d1, d2, High, t0), Sample(d1, d2, High, t0 + DebounceDelay + 1)] + held).running
            == !s.running
  {
    var rise := Sample(d1, d2, High, t0);
    var late := Sample(d1, d2, High, t0 + DebounceDelay + 1);
    var s1 := Tick(s, d1, d2, High, t0);
    ChangedReadingRestartsWindow(s, d1, d2, High, t0);
    var s2 := Tick(s1, d1, d2, High, t0 + DebounceDelay + 1);
    TickButton(s1, d1, d2, High, t0 + DebounceDelay + 1);
    assert Run(s, [rise, late]) == s2 by {
      RunCons(s, rise, [late]);
      RunCons(s1, late, []);
      assert [rise] + [late] == [rise, late];
      assert [late] + [] == [late];
    }
    RunAppend(s, [rise, late], held);
    HeldReadingNeverRefires(s2, held);
  }

  /** The button input has a pull-up, so HIGH is its released level, while the
      accepted state starts LOW. From power-up, an untouched button reading
      HIGH for just over the debounce delay therefore starts the device; with
      vessel A at the centre mark (distance 10) it starts with an inhale: both
      vessels filling, solenoid A closed and B open. */
  lemma {:induction false} IdleButtonStartsInhale(t0: int, distB: int)
    requires 0 <= t0 && t0 + DebounceDelay + 1 < MillisModulus
    ensures var t := Run(Initial(), [Sample(10, distB, High, t0), Sample(10, distB, High, t0 + DebounceDelay + 1)]);
            t.running && t.raisingA == 1 && t.raisingB == 1 && t.solenoidA == Low && t.solenoidB == High &&
            t.motorA2fIndex == 1 && t.driveA2f == 3 && t.motorB2fIndex == 1 && t.driveB2f == 3
  {
    var s0 := Initial();
    var s1 := Tick(s0, 10, distB, High, t0);
    var s2 := Tick(s1, 10, distB, High, t0 + DebounceDelay + 1);
    var first := Sample(10, distB, High, t0);
    var second := Sample(10, distB, High, t0 + DebounceDelay + 1);
    RunCons(s0, first, [second]);
    RunCons(s1, second, []);
    assert [first] + [second] == [first, second];
    assert [second] + [] == [second];
    assert !s1.running && s1.raisingA == 0 && s1.raisingB == 0 && s1.motorA2fIndex == 0;
  }
}
