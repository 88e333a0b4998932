/** The Log app's motion manager: a one-pole low-pass filter with factor 0.2
    applied separately to pitch and roll on every device-motion sample. */
module Motion {
  import opened Common

  /** `filterFactor`. */
  const FilterFactor: real := 0.2

  /** `applyLowPassFilter(input:filtered:)`. Each step moves the filtered value
      a fifth of the way towards the input, so the new value lies between the
      old one and the input, and an input equal to the filtered value is a
      fixed point. */
  function LowPass(input: real, filtered: real): (r: real)
    ensures r - filtered == FilterFactor * (input - filtered)
    ensures Min(filtered, input) <= r <= Max(filtered, input)
    ensures input == filtered ==> r == filtered
  {
    filtered * (1.0 - FilterFactor) + input * FilterFactor
  }

  /** The filtered value after `n` samples that all read `input`. */
  function Settle(start: real, input: real, n: nat): real
  {
    if n == 0 then start else LowPass(input, Settle(start, input, n - 1))
  }

  /** `(1 - filterFactor)^n`: the share of the initial gap still left after
      `n` samples. */
  function Retained(n: nat): (r: real)
    ensures 0.0 < r <= 1.0
  {
    if n == 0 then 1.0 else (1.0 - FilterFactor) * Retained(n - 1)
  }

  /** Under a steady input the gap to the input shrinks geometrically:
      after `n` samples it is `0.8^n` of the initial gap. */
  lemma {:induction false} SettleGeometric(start: real, input: real, n: nat)
    ensures Settle(start, input, n) - input == Retained(n) * (start - input)
  {
    if n > 0 {
      SettleGeometric(start, input, n - 1);
    }
  }

  /** Under a steady input the filtered value never overshoots: it stays
      between the starting value and the input. */
  lemma {:induction false} SettleStaysBetween(start: real, input: real, n: nat)
    ensures Min(start, input) <= Settle(start, input, n) <= Max(start, input)
  {
    if n > 0 {
      SettleStaysBetween(start, input, n - 1);
    }
  }

  /** `motion.attitude`, in radians. */
  datatype Attitude = Attitude(pitch: real, roll: real)

  class MotionManager {
    /** The published, filtered readings in degrees. */
    var pitch: real
    var roll: real
    var filteredPitch: real
    var filteredRoll: real

    /** The published values always mirror the filter state. */
    ghost predicate Valid()
      reads this
    {
      pitch == filteredPitch && roll == filteredRoll
    }

    constructor ()
      ensures Valid()
      ensures pitch == 0.0 && roll == 0.0
      ensures filteredPitch == 0.0 && filteredRoll == 0.0
    {
      pitch, roll := 0.0, 0.0;
      filteredPitch, filteredRoll := 0.0, 0.0;
    }

    /** The device-motion handler. A callback with an error or without a
        motion value changes nothing; otherwise each channel is converted to
        degrees and filtered on its own, and the published values take the
        new filtered ones. `degreesPerRadian` stands for `180 / .pi`. */
    method OnDeviceMotion(motion: Option<Attitude>, failed: bool, degreesPerRadian: real)
      requires Valid()
      modifies this
      ensures Valid()
      ensures motion.None? || failed ==>
                filteredPitch == old(filteredPitch) && filteredRoll == old(filteredRoll)
      ensures motion.Some? && !failed ==>
                && filteredPitch == LowPass(motion.value.pitch * degreesPerRadian, old(filteredPitch))
                && filteredRoll == LowPass(motion.value.roll * degreesPerRadian, old(filteredRoll))
    {
      if motion.None? || failed {
        return;
      }
      var currentPitch := motion.value.pitch * degreesPerRadian;
      var currentRoll := motion.value.roll * degreesPerRadian;
      filteredPitch := LowPass(currentPitch, filteredPitch);
      filteredRoll := LowPass(currentRoll, filteredRoll);
      pitch := filteredPitch;
      roll := filteredRoll;
    }
  }
}
