/**
  `Animation.slide_in` (p4.py:47-60): a widget is placed at `steps` evenly
  spaced positions between `start` and `end`, one per timer tick, and on the
  last tick is placed once more at exactly `end`.

  Positions are exact reals here; the source uses floats, which is why it
  places the widget at `end` again after the last step.
 */
module Animation {

  const DefaultSteps := 20
  const DefaultDurationMs := 300

  /** What one animation does: every vertical placement, and every follow-up delay it schedules. */
  datatype Trace = Trace(placements: seq<real>, delays: seq<int>)

  /** `steps == 0` raises ZeroDivisionError when `delta` is computed, before any placement. */
  datatype SlideOutcome = Animated(trace: Trace) | ZeroSteps

  /** The reference position after `k` of `steps` equal increments from `start` to `end`. */
  function Interpolate(start: real, end: real, steps: int, k: int): real
    requires steps != 0
  {
    start + (end - start) * (k as real) / (steps as real)
  }

  /** True iff `y` lies between `a` and `b`, whichever order they come in. */
  predicate Between(y: real, a: real, b: real) {
    (a <= y <= b) || (b <= y <= a)
  }

  /** The code's `start_y + delta * current_step` is the reference interpolation. */
  lemma StepPosition(start: real, end: real, steps: int, k: int)
    requires steps != 0
    ensures start + (end - start) / (steps as real) * (k as real) == Interpolate(start, end, steps, k)
  {
  }

  /** The last of `steps` increments lands exactly on `end`. */
  lemma LastStepReachesEnd(start: real, end: real, steps: int)
    requires steps != 0
    ensures Interpolate(start, end, steps, steps) == end
  {
  }

  /** Positions part way along stay between the two ends. */
  lemma InterpolateBetween(start: real, end: real, steps: int, k: int)
    requires 0 <= k <= steps && steps > 0
    ensures Between(Interpolate(start, end, steps, k), start, end)
  {
    var t := (k as real) / (steps as real);
    assert 0.0 <= t <= 1.0;
    assert Interpolate(start, end, steps, k) == start + (end - start) * t;
    var d := end - start;
    assert d * t == d - d * (1.0 - t);
    if start <= end {
      ProductNonNegative(d, t);
      ProductNonNegative(d, 1.0 - t);
    } else {
      ProductNonNegative(-d, t);
      ProductNonNegative(-d, 1.0 - t);
    }
  }

  lemma ProductNonNegative(a: real, b: real)
    requires 0.0 <= a && 0.0 <= b
    ensures 0.0 <= a * b
  {
  }

  /**
    Runs the `_animate` closure to completion: the first call happens at
    once, every later one `durationMs // steps` milliseconds after the
    previous, and each call places the widget once, the last call twice.
   */
  method SlideIn(start: real, end: real, steps: int, durationMs: int) returns (r: SlideOutcome)
    ensures r.ZeroSteps? <==> steps == 0
    ensures r.Animated? ==> |r.trace.placements| == (if steps > 0 then steps + 1 else 2)
    ensures r.Animated? ==> |r.trace.delays| == (if steps > 0 then steps - 1 else 0)
    // the closing placement is exactly `end`, and so is the last stepped one
    ensures r.Animated? ==> r.trace.placements[|r.trace.placements| - 1] == end
    ensures r.Animated? && steps > 0 ==> r.trace.placements[steps - 1] == end
    // each stepped placement is the interpolated position for its step
    ensures r.Animated? ==> forall k :: 0 <= k < |r.trace.placements| - 1 ==>
              r.trace.placements[k] == Interpolate(start, end, steps, k + 1)
    ensures r.Animated? && steps > 0 ==> forall k :: 0 <= k < |r.trace.placements| ==>
              Between(r.trace.placements[k], start, end)
    // every follow-up waits `durationMs // steps` (Dafny's `/` floors for a positive divisor, as `//` does)
    ensures r.Animated? ==> forall i :: 0 <= i < |r.trace.delays| ==> r.trace.delays[i] == durationMs / steps
  {
    if steps == 0 {
      return ZeroSteps;
    }
    var delta := (end - start) / (steps as real);
    var currentStep := 1;
    StepPosition(start, end, steps, 1);
    var placements := [start + delta * 1.0];
    var delays := [];
    while currentStep < steps
      invariant 1 <= currentStep
      invariant steps > 0 ==> currentStep <= steps
      invariant steps < 0 ==> currentStep == 1
      invariant |placements| == currentStep
      invariant |delays| == currentStep - 1
      invariant forall k :: 0 <= k < currentStep ==> placements[k] == Interpolate(start, end, steps, k + 1)
      invariant forall i :: 0 <= i < |delays| ==> delays[i] == durationMs / steps
      decreases steps - currentStep
    {
      delays := delays + [durationMs / steps];
      currentStep := currentStep + 1;
      StepPosition(start, end, steps, currentStep);
      placements := placements + [start + delta * (currentStep as real)];
    }
    placements := placements + [end];
    if steps > 0 {
      LastStepReachesEnd(start, end, steps);
      forall k | 0 <= k < |placements|
        ensures Between(placements[k], start, end)
      {
        if k < steps {
          InterpolateBetween(start, end, steps, k + 1);
        }
      }
    }
    return Animated(Trace(placements, delays));
  }
}
