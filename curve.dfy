/**
 * The easing curves of src/curve.rs. `calculate_with_curve` is floating-point
 * easing over an external library, so the model takes it as a parameter of
 * this arrow type: (curve, duration, from, to, current tick) -> colour.
 */
module Curve {
  import opened Color

  datatype Curve = Linear | Step | EaseIn | EaseOut | EaseInOut

  type CurveFn = (Curve, nat, HsvColor, HsvColor, nat) -> HsvColor
}
