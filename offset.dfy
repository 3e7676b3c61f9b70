/** The offset animator's value side: the horizontal target offset picked from
    the slice's mid-angle, and the clamped step that moves the current offset
    towards it. */
module OffsetAnimator {
  import opened Geometry

  /** The state object shared by `offset` and `predictedOffset`. */
  class Offset {
    var x: real
    var y: real

    constructor (x: real, y: real)
      ensures this.x == x && this.y == y
    {
      this.x := x;
      this.y := y;
    }
  }

  /** Truncation towards zero (`Math.trunc`). */
  function Trunc(x: real): (r: int)
    ensures 0.0 <= x ==> 0 <= r && r as real <= x < r as real + 1.0
    ensures x < 0.0 ==> r <= 0 && r as real - 1.0 < x <= r as real
  {
    if x >= 0.0 then x.Floor else -((-x).Floor)
  }

  /** The target offset for a slice whose mid-angle divided by -pi is `angle`;
      `current` is the target before (kept in the band the rules leave out). */
  function TargetOffsetX(angle: real, width: real, current: real): (r: real)
    ensures r == 0.0 || r == width / 2.0 || r == -width / 2.0 || r == current
  {
    var val := Abs(angle - Trunc(angle) as real);
    if 0.45 < val < 0.55 then 0.0
    else if angle <= 0.45 && angle >= -0.45 then width / 2.0
    else if angle >= -1.45 && angle <= -0.55 then -width / 2.0
    else current
  }

  /** The same rule written as plain bands of `angle` (mid angle divided by
      -pi) on the open interval (-2, 2), that is for mid angles strictly
      between -2pi and 2pi: centred within 0.05 of -1.5, -0.5, 0.5 and 1.5
      (mid angles at the odd multiples of pi/2), pushed right on
      [-0.45, 0.45], pushed left on [-1.45, -0.55], unchanged elsewhere. */
  function TargetByBands(angle: real, width: real, current: real): real
  {
    if (0.45 < angle < 0.55) || (-0.55 < angle < -0.45)
       || (1.45 < angle < 1.55) || (-1.55 < angle < -1.45) then 0.0
    else if -0.45 <= angle <= 0.45 then width / 2.0
    else if -1.45 <= angle <= -0.55 then -width / 2.0
    else current
  }

  lemma TargetMatchesBands(angle: real, width: real, current: real)
    requires -2.0 < angle < 2.0
    ensures TargetOffsetX(angle, width, current) == TargetByBands(angle, width, current)
  {
    var t := Trunc(angle);
    if angle >= 1.0 {
      assert t == 1;
    } else if angle >= 0.0 {
      assert t == 0;
    } else if angle > -1.0 {
      assert t == 0;
    } else {
      assert t == -1;
    }
  }

  /** For a slice of a full circle that starts at the top of the chart (mid
      angle in (-pi/2, 3pi/2], so `angle` in [-1.5, 0.5)), the rule always
      picks a target: the previous target never survives. */
  lemma FullTurnAlwaysPicksTarget(angle: real, width: real, c1: real, c2: real)
    requires -1.5 <= angle < 0.5
    ensures TargetOffsetX(angle, width, c1) == TargetOffsetX(angle, width, c2)
  {
    TargetMatchesBands(angle, width, c1);
    TargetMatchesBands(angle, width, c2);
  }

  /** One animator step (the body of `moveLabelToOffset`): move `x` towards
      `target` by `step`, clamped at the target. */
  function StepToward(x: real, target: real, step: real): (r: real)
    ensures r == x || r == target || r == x - step || r == x + step
  {
    if target <= 0.0 && x > target then
      (if x - step <= target then target else x - step)
    else if target >= 0.0 && x < target then
      (if x + step >= target then target else x + step)
    else x
  }

  /** A step never passes the target: the new offset lies between the old one
      and the target. */
  lemma StepStaysBetween(x: real, target: real, step: real)
    requires step >= 0.0
    ensures x <= target ==> x <= StepToward(x, target, step) <= target
    ensures target <= x ==> target <= StepToward(x, target, step) <= x
  {
  }

  /** A step changes the offset by at most `step`. */
  lemma StepBounded(x: real, target: real, step: real)
    requires step >= 0.0
    ensures Abs(StepToward(x, target, step) - x) <= step
  {
  }

  /** At the target a step is a no-op. */
  lemma StepAtTarget(x: real, step: real)
    ensures StepToward(x, x, step) == x
  {
  }

  /** A positive step leaves the offset where it is exactly when it already is
      at the target or lies beyond a target of the same sign: an offset past
      its target, away from zero, is never pulled back. */
  lemma StepStallsPastTarget(x: real, target: real, step: real)
    requires step > 0.0
    ensures StepToward(x, target, step) == x <==>
            x == target || 0.0 < target < x || x < target < 0.0
  {
  }

  /** `n` successive steps from `x`. */
  function Steps(x: real, target: real, step: real, n: nat): real
    decreases n
  {
    if n == 0 then x else Steps(StepToward(x, target, step), target, step, n - 1)
  }

  lemma {:induction false} StepsAtTarget(target: real, step: real, n: nat)
    ensures Steps(target, target, step, n) == target
  {
    if n > 0 {
      StepAtTarget(target, step);
      StepsAtTarget(target, step, n - 1);
    }
  }

  /** The distance `n` unclamped steps cover. */
  function Travel(n: nat, step: real): (d: real)
    ensures d == n as real * step
  {
    if n == 0 then 0.0 else Travel(n - 1, step) + step
  }

  /** Starting anywhere below a non-negative target, the offset grows linearly
      by `step` per call until the steps cover the distance, and from then on
      it sits at the target: it reaches the target within
      ceil((target - x) / step) calls. */
  lemma {:induction false} StepsLinearUp(x: real, target: real, step: real, n: nat)
    requires x <= target && 0.0 <= target && step > 0.0
    decreases n
    ensures Steps(x, target, step, n)
            == if x + Travel(n, step) >= target then target else x + Travel(n, step)
  {
    if n > 0 {
      var x' := StepToward(x, target, step);
      TravelGrows(n, step);
      if x + step >= target {
        assert x' == target;
        StepsAtTarget(target, step, n - 1);
      } else {
        assert x' == x + step;
        StepsLinearUp(x', target, step, n - 1);
        TravelSplit(n, step);
      }
    }
  }

  /** The mirror image: starting anywhere above a non-positive target. */
  lemma {:induction false} StepsLinearDown(x: real, target: real, step: real, n: nat)
    requires target <= x && target <= 0.0 && step > 0.0
    decreases n
    ensures Steps(x, target, step, n)
            == if x - Travel(n, step) <= target then target else x - Travel(n, step)
  {
    if n > 0 {
      var x' := StepToward(x, target, step);
      TravelGrows(n, step);
      if x - step <= target {
        assert x' == target;
        StepsAtTarget(target, step, n - 1);
      } else {
        assert x' == x - step;
        StepsLinearDown(x', target, step, n - 1);
        TravelSplit(n, step);
      }
    }
  }

  lemma {:induction false} TravelGrows(n: nat, step: real)
    requires n >= 1 && step >= 0.0
    decreases n
    ensures Travel(n, step) >= step
  {
    if n > 1 {
      TravelGrows(n - 1, step);
    }
  }

  lemma TravelSplit(n: nat, step: real)
    requires n >= 1
    ensures Travel(n, step) == step + Travel(n - 1, step)
  {
  }
}
