/** Vessel geometry, the fill and empty marks, and the water-level estimate
    (src/main.cpp, the constants at the top and getWaterLevelA/B). */
module Levels {
  import Ultrasonic

  /** Height of each vessel in centimetres. */
  const VesselHeight: int := 20
  /** Volume moved per half-cycle, as a height. */
  const Tidal: int := 12
  /** Headroom kept below the rim. */
  const Safety: int := 4

  const HighWaterMark: int := VesselHeight - Safety
  const LowWaterMark: int := VesselHeight - Safety - Tidal
  /** Both operands are positive, so C++ and Dafny division agree here. */
  const CenterWaterMark: int := VesselHeight / 2

  /** The marks the controller compares against, and their order. */
  lemma MarksOrdered()
    ensures HighWaterMark == 16 && LowWaterMark == 4 && CenterWaterMark == 10
    ensures 0 < LowWaterMark < CenterWaterMark < HighWaterMark < VesselHeight
  {
  }

  /** Level of water in a vessel given the sensor's distance to the surface:
      the vessel height minus the distance, clamped at zero by Arduino's
      `max` macro, `(a) > (b) ? (a) : (b)`. */
  function WaterLevel(distance: int): (level: int)
    ensures level >= 0
    ensures level >= VesselHeight - distance
    ensures level == 0 || level == VesselHeight - distance
    ensures distance >= 0 ==> level <= VesselHeight
  {
    var height := VesselHeight - distance;
    if height > 0 then height else 0
  }

  /** A surface further from the sensor never reads as a higher level. */
  lemma WaterLevelAntitone(d1: int, d2: int)
    requires d1 <= d2
    ensures WaterLevel(d2) <= WaterLevel(d1)
  {
  }

  /** Along the sensor path, any echo up to the timeout gives a level within
      the vessel, and an echo of at least 20 * 58 microseconds reads as empty. */
  lemma LevelFromEcho(microseconds: int)
    requires 0 <= microseconds
    ensures 0 <= WaterLevel(Ultrasonic.MicrosecondsToCentimeters(microseconds)) <= VesselHeight
    ensures microseconds >= 58 * VesselHeight ==>
              WaterLevel(Ultrasonic.MicrosecondsToCentimeters(microseconds)) == 0
  {
  }
}
