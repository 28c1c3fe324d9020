/**
 * The shared animation types of src/animation/mod.rs: the iteration state a
 * processor hands to every animation, and where a fade takes its start colour
 * from.
 */
module Animation {
  import opened Color
  import opened Strip

  const U32Max := 0xFFFF_FFFF

  /** `u32`, the type of `Tick`, `Ticks` and the iteration counters. */
  type U32 = i: int | 0 <= i <= U32Max

  /** `IterationState` */
  datatype IterationState =
    | First(remainingIterations: U32)
    | Looping(iterationIndex: U32, remainingIterations: U32)
    | Last(iterationIndex: U32)
    | Single

  /**
   * `IterationState::new`: the first pass is the one with index 0, the last
   * the one with no iterations remaining; a pass that is both is `Single`.
   */
  function NewIterationState(iterationIndex: U32, remainingIterations: U32): (r: IterationState)
    ensures r.Single? <==> iterationIndex == 0 && remainingIterations == 0
    ensures r.First? <==> iterationIndex == 0 && remainingIterations > 0
    ensures r.Last? <==> iterationIndex > 0 && remainingIterations == 0
    ensures r.Looping? <==> iterationIndex > 0 && remainingIterations > 0
  {
    if iterationIndex == 0 && remainingIterations == 0 then Single
    else if iterationIndex == 0 then First(remainingIterations)
    else if remainingIterations == 0 then Last(iterationIndex)
    else Looping(iterationIndex, remainingIterations)
  }

  /** The pass index a state stands for (0 for `First` and `Single`). */
  function IterationIndexOf(st: IterationState): U32 {
    match st
    case First(_) => 0
    case Looping(i, _) => i
    case Last(i) => i
    case Single => 0
  }

  /** The iterations a state says remain (0 for `Last` and `Single`). */
  function RemainingOf(st: IterationState): U32 {
    match st
    case First(r) => r
    case Looping(_, r) => r
    case Last(_) => 0
    case Single => 0
  }

  /** `new` loses nothing: both counters can be read back from the state it builds. */
  lemma NewIterationStateRoundTrip(i: U32, r: U32)
    ensures IterationIndexOf(NewIterationState(i, r)) == i
    ensures RemainingOf(NewIterationState(i, r)) == r
  {
  }

  /** ... and every well-formed state is built by `new` from its own counters. */
  lemma NewIterationStateCanonical(st: IterationState)
    requires st.First? ==> st.remainingIterations > 0
    requires st.Looping? ==> st.iterationIndex > 0 && st.remainingIterations > 0
    requires st.Last? ==> st.iterationIndex > 0
    ensures NewIterationState(IterationIndexOf(st), RemainingOf(st)) == st
  {
  }

  /** `IterationState::single` */
  function SingleIteration(): (r: IterationState)
    ensures r == Single
  {
    NewIterationState(0, 0)
  }

  /** `AnimationMeta` */
  datatype AnimationMeta = AnimationMeta(iterationState: IterationState)

  /** `FromColoring`: a fade starts from the colour the strip shows (`Dynamic`) or from a fixed colour. */
  datatype FromColoring = Dynamic | Fixed(color: HsvColor)

  /**
   * What a processor sees of an animation through `Box<dyn Animation>`: the
   * colourings `animate` produces for a tick local to the animation, given the
   * strip and the iteration state, and `duration`. The concrete animations
   * (`RunningLight`, `StaticAnimation`) are modelled in their own modules.
   */
  type RenderFn = (U32, StripState, AnimationMeta) -> seq<LedColoring>

  /** `BoxedAnimation`: an animation behind dynamic dispatch. */
  datatype BoxedAnimation = BoxedAnimation(duration: U32, render: RenderFn)

  /** `TimedAnimation(at_tick, animation)`: an animation scheduled to start at `at_tick`. */
  datatype TimedAnimation = TimedAnimation(atTick: U32, animation: BoxedAnimation)

  /** `TimedAt::at_tick` */
  function AtTick(t: TimedAnimation): U32 {
    t.atTick
  }

  /** `Animation::duration` of a `TimedAnimation` (and `animation_duration`). */
  function Duration(t: TimedAnimation): U32 {
    t.animation.duration
  }

  /** `Animation::animate` of a `TimedAnimation`. */
  function Animate(t: TimedAnimation, tick: U32, strip: StripState, meta: AnimationMeta): seq<LedColoring> {
    t.animation.render(tick, strip, meta)
  }

  /**
   * `TimedAnimation::new(at, a)` remembers `at` as its start, and its
   * `duration` and `animate` are those of `a`.
   */
  lemma TimedAnimationDelegates(at: U32, a: BoxedAnimation, tick: U32, strip: StripState, meta: AnimationMeta)
    ensures AtTick(TimedAnimation(at, a)) == at
    ensures Duration(TimedAnimation(at, a)) == a.duration
    ensures Animate(TimedAnimation(at, a), tick, strip, meta) == a.render(tick, strip, meta)
  {
  }
}
