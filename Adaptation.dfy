/** The eye-adaptation filter of RenderWindow::EyeAdaptation over the reals:
    one step moves the adapted brightness toward the frame's measured
    brightness by the fraction 1 - exp(-time / speed) of the gap. */
module Adaptation {
  import opened Direct3D

  /** The fraction of the gap closed in one frame of `time` seconds. */
  function Factor(exp: real -> real, time: real, speed: real): real
    requires speed != 0.0
  {
    1.0 - exp(-time / speed)
  }

  /** One adaptation step from `adapted` toward `target`. */
  function Adapted(adapted: real, target: real, factor: real): real
  {
    adapted + (target - adapted) * factor
  }

  /** For a non-negative frame time and a positive speed the factor lies in
      [0, 1), and it is 0 for a frame of no time. */
  lemma FactorInUnitInterval(exp: real -> real, time: real, speed: real)
    requires ExpBounded(exp) && time >= 0.0 && speed > 0.0
    ensures 0.0 <= Factor(exp, time, speed) < 1.0
    ensures time == 0.0 ==> Factor(exp, time, speed) == 0.0
  {
    assert -time / speed <= 0.0 by {
      assert time / speed >= 0.0;
    }
  }

  /** A frame of no time, or a measurement equal to the adapted value,
      leaves the adapted value as it was. */
  lemma AdaptedUnchanged(exp: real -> real, adapted: real, target: real, time: real, speed: real)
    requires ExpBounded(exp) && speed != 0.0
    requires time == 0.0 || target == adapted
    ensures Adapted(adapted, target, Factor(exp, time, speed)) == adapted
  {
    if time == 0.0 {
      assert -time / speed == 0.0;
    }
  }

  /** With a factor in [0, 1] the new value lies between the old value and
      the target, and its distance to the target shrinks by 1 - factor. */
  lemma AdaptedBetween(adapted: real, target: real, factor: real)
    requires 0.0 <= factor <= 1.0
    ensures adapted <= target ==> adapted <= Adapted(adapted, target, factor) <= target
    ensures target <= adapted ==> target <= Adapted(adapted, target, factor) <= adapted
    ensures target - Adapted(adapted, target, factor) == (target - adapted) * (1.0 - factor)
  {
    var gap := target - adapted;
    var moved := gap * factor;
    assert gap - moved == gap * (1.0 - factor);
    if gap >= 0.0 {
      NonNegativeProduct(gap, factor);
      NonNegativeProduct(gap, 1.0 - factor);
    } else {
      NonNegativeProduct(-gap, factor);
      NonNegativeProduct(-gap, 1.0 - factor);
    }
  }

  lemma NonNegativeProduct(a: real, b: real)
    requires a >= 0.0 && b >= 0.0
    ensures a * b >= 0.0
  {
  }

  /** The eye-adaptation step as the source runs it each frame: for a
      non-negative frame time and a positive speed the new value lies
      between the old one and the measurement. */
  lemma AdaptationStepBetween(exp: real -> real, adapted: real, target: real, time: real, speed: real)
    requires ExpBounded(exp) && time >= 0.0 && speed > 0.0
    ensures var r := Adapted(adapted, target, Factor(exp, time, speed));
      (adapted <= target ==> adapted <= r <= target) && (target <= adapted ==> target <= r <= adapted)
  {
    FactorInUnitInterval(exp, time, speed);
    AdaptedBetween(adapted, target, Factor(exp, time, speed));
  }

  /** The filter does not depend on how time is cut into frames: toward a
      fixed measurement, frames of t1 and t2 seconds reach the same value as
      one frame of t1 + t2 seconds. */
  lemma AdaptationComposes(exp: real -> real, adapted: real, target: real, t1: real, t2: real, speed: real)
    requires ExpAdditive(exp) && speed != 0.0
    ensures Adapted(Adapted(adapted, target, Factor(exp, t1, speed)), target, Factor(exp, t2, speed))
         == Adapted(adapted, target, Factor(exp, t1 + t2, speed))
  {
    var e1, e2 := exp(-t1 / speed), exp(-t2 / speed);
    assert -(t1 + t2) / speed == -t1 / speed + -t2 / speed;
    assert exp(-(t1 + t2) / speed) == e1 * e2;
    var mid := Adapted(adapted, target, 1.0 - e1);
    assert target - mid == (target - adapted) * e1;
    assert target - Adapted(mid, target, 1.0 - e2) == (target - mid) * e2;
    assert (target - adapted) * e1 * e2 == (target - adapted) * (e1 * e2);
  }
}
