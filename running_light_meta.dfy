/**
 * The pure part of src/animation/running_light.rs: the animation shapes and
 * their lengths, the jump arithmetic that places the window, and the choice of
 * curve call that `FadeIter::map_led_idx_to_color` makes for one progress
 * index. `calculate_with_curve` itself stays a parameter (a `CurveFn`); here a
 * curve call is first computed as data (`CurveCall`) and only then evaluated.
 */
module RunningLightMeta {
  import opened Indexing
  import opened Color
  import opened Curve
  import opened ActiveRange

  const I16Min := -0x8000
  const I16Max := 0x7FFF

  /** `i16`, the type of `start_offset` and of the raw jump. */
  type I16 = i: int | I16Min <= i <= I16Max

  datatype FadeToAnimationMeta = FadeToAnimationMeta(toColor: HsvColor, fadeLen: U16, curve: Curve)

  datatype AnimationPart = AnimationPart(curve: Curve, fadeLen: U16)

  /** `Symmetric(curve, fade_len)` uses one part on both sides; `Asymmetric(first, second)` two. */
  datatype AnimationSymmetry = Symmetric(curve: Curve, fadeLen: U16) | Asymmetric(first: AnimationPart, second: AnimationPart)

  datatype HilledAnimationMeta = HilledAnimationMeta(symmetry: AnimationSymmetry, peakLen: U16, peakColor: HsvColor)

  datatype AnimationType = FadeToColor(fade: FadeToAnimationMeta) | Hilled(hill: HilledAnimationMeta)

  /** The `(front_fade, front_curve, back_fade, back_curve)` tuple `map_led_idx_to_color` reads off a symmetry. */
  datatype Fades = Fades(frontFade: U16, frontCurve: Curve, backFade: U16, backCurve: Curve)

  function FadesOf(sym: AnimationSymmetry): Fades {
    match sym
    case Symmetric(c, f) => Fades(f, c, f, c)
    case Asymmetric(p1, p2) => Fades(p1.fadeLen, p1.curve, p2.fadeLen, p2.curve)
  }

  /** What the `animation_len` functions compute before u16 overflow is taken into account. */
  function RawAnimationLen(t: AnimationType): nat {
    match t
    case FadeToColor(m) => m.fadeLen + 2
    case Hilled(m) =>
      var fade := match m.symmetry
        case Asymmetric(p1, p2) => p1.fadeLen + p2.fadeLen
        case Symmetric(_, f) => f * 2;
      fade + 2 + m.peakLen
  }

  /** `animation_len` does not overflow u16 (every partial sum is below the total). */
  predicate LenFits(t: AnimationType) {
    RawAnimationLen(t) <= MaxIndex
  }

  /**
   * `AnimationType::animation_len`: a fade and its two end LEDs; a hill is its
   * front fade, back fade, peak and two end LEDs, a symmetric hill counting its
   * one fade twice.
   */
  function AnimationLen(t: AnimationType): (r: U16)
    requires LenFits(t)
    ensures r >= 2
    ensures t.FadeToColor? ==> r == t.fade.fadeLen + 2
    ensures t.Hilled? ==> r == FadesOf(t.hill.symmetry).frontFade + FadesOf(t.hill.symmetry).backFade + 2 + t.hill.peakLen
  {
    RawAnimationLen(t)
  }

  // ---------------------------------------------------------------------------------------------
  // Placing the window

  /** `map_len() as u16`: a truncating cast. */
  function Trunc16(n: nat): U16 {
    n % 0x1_0000
  }

  /** `calc_animation_jumps` neither under- nor overflows and its border is implemented. */
  predicate JumpsDefined(mapLen: nat, animationLen: U16, border: BorderType) {
    match border
    case ClosedStartEnd => animationLen >= 2 && Trunc16(mapLen) + (animationLen - 2) <= MaxIndex
    case WrappingStartEnd => Trunc16(mapLen) >= 1
    case _ => false
  }

  /**
   * `calc_animation_jumps`: how many steps the window takes through the strip.
   * With a closed border the window enters and leaves the strip completely;
   * a wrapping window steps once per LED.
   */
  function CalcAnimationJumps(mapLen: nat, animationLen: U16, border: BorderType): (r: U16)
    requires JumpsDefined(mapLen, animationLen, border)
    ensures mapLen <= MaxIndex && border == ClosedStartEnd ==> r + 2 == mapLen + animationLen
    ensures mapLen <= MaxIndex && border == WrappingStartEnd ==> r + 1 == mapLen
  {
    var ledRangeLen := Trunc16(mapLen);
    match border
    case ClosedStartEnd => ledRangeLen + (animationLen - 2)
    case WrappingStartEnd => ledRangeLen - 1
  }

  /** `jumps as i16`: a wrapping cast. */
  function AsI16(x: U16): I16 {
    if x > I16Max then x - 0x1_0000 else x
  }

  /** The raw jump does not panic: `% 0` when it exceeds the jumps, `jumps - |jump|` underflow or `i16::MIN.abs()`. */
  predicate NormaliseDefined(jump: I16, jumps: U16) {
    if jump > AsI16(jumps) then jumps > 0
    else if jump < 0 then jump != I16Min && -jump <= jumps
    else true
  }

  /**
   * The integer part of `scale_time_to_jump`: a raw jump is brought back into
   * 0..=jumps. A jump in range is kept as it is, `jump == jumps` included.
   */
  function NormaliseJump(jump: I16, jumps: U16): (r: U16)
    requires NormaliseDefined(jump, jumps)
    ensures r <= jumps
    ensures 0 <= jump <= jumps <= I16Max ==> r == jump
  {
    if jump > AsI16(jumps) then Abs(jump) % jumps
    else if jump < 0 then jumps - Abs(jump)
    else jump
  }

  /** For jump counts i16 can hold, normalising is reduction modulo the jumps (with `jumps` kept for 0). */
  lemma NormaliseJumpIsModular(jump: I16, jumps: U16)
    requires NormaliseDefined(jump, jumps) && 0 < jumps <= I16Max
    ensures NormaliseJump(jump, jumps) % jumps == jump % jumps
  {
    var r := NormaliseJump(jump, jumps);
    if jump > jumps {
      ModUnique(r, jumps, 0, r);
    } else if jump < 0 {
      ModUnique(r, jumps, 0, r);
      ModUnique(jump, jumps, -1, r);
    }
  }

  lemma Trunc16Small(n: nat)
    requires n <= MaxIndex
    ensures Trunc16(n) == n
  {
    ModUnique(n, 0x1_0000, 0, n);
  }

  /**
   * `scale_time_to_jump`. The floating-point quotient `time / (duration / jumps)`
   * is not modelled; `scaled` is its value after the `as i16` cast.
   */
  function ScaleTimeToJump(scaled: I16, jumps: U16, startOffset: I16): (r: U16)
    requires I16Min <= scaled + startOffset <= I16Max
    requires NormaliseDefined(scaled + startOffset, jumps)
    ensures r <= jumps
  {
    NormaliseJump(scaled + startOffset, jumps)
  }

  /** `scale_jump_to_animation_start`: the anchor of the window's first LED. */
  function ScaleJumpToAnimationStart(animationLen: U16, actJump: U16): (r: int)
    requires animationLen >= 1
    ensures r + animationLen - 1 == actJump
  {
    0 - (animationLen - 1) + actJump
  }

  /**
   * Jump 0 puts the window's last LED on LED 0. Under a closed border the last
   * jump puts the window's first LED on LED L-1, so every jump overlaps the
   * strip. Under a wrapping border the window never sticks out past L.
   */
  lemma JumpPlacesWindow(l: U16, animationLen: U16, border: BorderType, jump: U16)
    requires animationLen >= 1 && JumpsDefined(l, animationLen, border) && jump <= CalcAnimationJumps(l, animationLen, border)
    ensures ScaleJumpToAnimationStart(animationLen, 0) + animationLen == 1
    ensures border == ClosedStartEnd ==>
              ScaleJumpToAnimationStart(animationLen, CalcAnimationJumps(l, animationLen, border)) == l - 1
    ensures 1 <= ScaleJumpToAnimationStart(animationLen, jump) + animationLen
    ensures ScaleJumpToAnimationStart(animationLen, jump) <= l - 1
    ensures border == WrappingStartEnd ==> ScaleJumpToAnimationStart(animationLen, jump) + animationLen <= l
  {
    Trunc16Small(l);
  }

  /**
   * A wrapping running light whose window fits in the strip never panics in
   * `ActiveRangeIter`, and renders every progress index 0..W exactly once.
   */
  lemma WrapRenderIsTotal(l: U16, w: U16, jump: U16)
    requires 0 < w <= l && JumpsDefined(l, w, WrappingStartEnd) && jump <= CalcAnimationJumps(l, w, WrappingStartEnd)
    ensures Chunks(Fresh(ScaleJumpToAnimationStart(w, jump), w, l, WrappingStartEnd)).Some?
    ensures Progress(Chunks(Fresh(ScaleJumpToAnimationStart(w, jump), w, l, WrappingStartEnd)).value) == Interval(0, w)
  {
    var a := ScaleJumpToAnimationStart(w, jump);
    JumpPlacesWindow(l, w, WrappingStartEnd, jump);
    WrapAtMostTwoChunks(a, w, l);
  }

  /**
   * A closed running light panics in `ActiveRangeIter` exactly when its window
   * sticks out at both ends, which needs a window longer than L + 1 (for
   * L + W above u16::MAX the last jump also overflows `anchor + rem`).
   */
  lemma ClampRenderPanicsIffBothOutside(l: U16, w: U16, jump: U16)
    requires 0 < w && l + w <= MaxIndex && JumpsDefined(l, w, ClosedStartEnd) && jump <= CalcAnimationJumps(l, w, ClosedStartEnd)
    ensures var a := ScaleJumpToAnimationStart(w, jump);
            Chunks(Fresh(a, w, l, ClosedStartEnd)).None? <==> a < 0 && a + w > l
    ensures w <= l + 1 ==> Chunks(Fresh(ScaleJumpToAnimationStart(w, jump), w, l, ClosedStartEnd)).Some?
  {
    var a := ScaleJumpToAnimationStart(w, jump);
    JumpPlacesWindow(l, w, ClosedStartEnd, jump);
    if a < 0 && a + w > l {
      BothOutsidePanics(a, w, l, ClosedStartEnd);
    } else if a < 0 {
      ClampStartOutside(a, w, l);
    } else if a + w <= l {
      InsideWindowSingleChunk(a, w, l, ClosedStartEnd);
    } else {
      ClampEndOutside(a, w, l);
    }
  }

  // ---------------------------------------------------------------------------------------------
  // The colour of one progress index

  /** One call of `calculate_with_curve`, or the peak colour returned as it is. */
  datatype CurveCall =
    | CurveCall(curve: Curve, duration: nat, from: HsvColor, to: HsvColor, tick: nat)
    | PeakColor(color: HsvColor)

  /**
   * The curve call `map_led_idx_to_color` makes for progress index `idx`.
   * A fade runs from `from` to the target colour, its tick counting down as
   * the index goes up. A hill rises from `from` to the peak over the low
   * indexes (the end section), keeps the peak colour between the fades, and
   * falls from the peak back to `from` over the high indexes (the first
   * section, which wins where the two meet). Every tick lies within its
   * call's duration.
   */
  function SectionCall(t: AnimationType, from: HsvColor, idx: U16): (c: CurveCall)
    requires LenFits(t) && idx < AnimationLen(t)
    ensures c.CurveCall? ==> c.tick <= c.duration
    ensures t.FadeToColor? ==>
              c.CurveCall? && c.curve == t.fade.curve && c.from == from && c.to == t.fade.toColor &&
              c.duration == t.fade.fadeLen + 1 && c.tick + idx == c.duration
    ensures t.Hilled? ==>
              (c.PeakColor? <==> FadesOf(t.hill.symmetry).backFade + 1 < idx < AnimationLen(t) - (FadesOf(t.hill.symmetry).frontFade + 1))
    ensures t.Hilled? && c.PeakColor? ==> c.color == t.hill.peakColor
    ensures t.Hilled? && idx >= AnimationLen(t) - (FadesOf(t.hill.symmetry).frontFade + 1) ==>
              c.CurveCall? && c.curve == FadesOf(t.hill.symmetry).backCurve && c.from == t.hill.peakColor && c.to == from &&
              c.duration == FadesOf(t.hill.symmetry).frontFade + 1 && 1 <= c.tick &&
              c.tick + FadesOf(t.hill.symmetry).backFade + t.hill.peakLen == idx
    ensures t.Hilled? && idx <= FadesOf(t.hill.symmetry).backFade + 1 && idx < AnimationLen(t) - (FadesOf(t.hill.symmetry).frontFade + 1) ==>
              c == CurveCall(FadesOf(t.hill.symmetry).frontCurve, FadesOf(t.hill.symmetry).backFade + 1, from, t.hill.peakColor, idx)
  {
    match t
    case FadeToColor(m) =>
      CurveCall(m.curve, m.fadeLen + 1, from, m.toColor, AnimationLen(t) - 1 - idx)
    case Hilled(m) =>
      var f := FadesOf(m.symmetry);
      var endSection := idx <= f.backFade + 1;
      var firstSection := idx >= AnimationLen(t) - (f.frontFade + 1);
      if firstSection then
        CurveCall(f.backCurve, f.frontFade + 1, m.peakColor, from, idx - (AnimationLen(t) - (f.frontFade + 1) - 1))
      else if endSection then
        CurveCall(f.frontCurve, f.backFade + 1, from, m.peakColor, idx)
      else
        PeakColor(m.peakColor)
  }

  /** Evaluates a curve call with the easing function. */
  function Eval(c: CurveCall, curveFn: CurveFn): HsvColor {
    match c
    case CurveCall(curve, d, from, to, tick) => curveFn(curve, d, from, to, tick)
    case PeakColor(p) => p
  }

  /** The colour `map_led_idx_to_color` computes, once the start colour is known. */
  function SectionColor(t: AnimationType, from: HsvColor, idx: U16, curveFn: CurveFn): HsvColor
    requires LenFits(t) && idx < AnimationLen(t)
  {
    Eval(SectionCall(t, from, idx), curveFn)
  }

  /** A fade shows its target colour (full duration) at index 0 and its start colour (tick 0) at the last index. */
  lemma FadeToEnds(m: FadeToAnimationMeta, from: HsvColor, curveFn: CurveFn)
    requires LenFits(FadeToColor(m))
    ensures SectionColor(FadeToColor(m), from, 0, curveFn) == curveFn(m.curve, m.fadeLen + 1, from, m.toColor, m.fadeLen + 1)
    ensures SectionColor(FadeToColor(m), from, m.fadeLen + 1, curveFn) == curveFn(m.curve, m.fadeLen + 1, from, m.toColor, 0)
  {
    var c0 := SectionCall(FadeToColor(m), from, 0);
    assert c0.tick == m.fadeLen + 1;
    var c1 := SectionCall(FadeToColor(m), from, m.fadeLen + 1);
    assert c1.tick == 0;
  }

  /**
   * A hill of at least one peak LED starts its rise at tick 0 at index 0 and
   * ends its fall at full duration at the last index.
   */
  lemma HilledEnds(m: HilledAnimationMeta, from: HsvColor, curveFn: CurveFn)
    requires LenFits(Hilled(m)) && m.peakLen >= 1
    ensures var f := FadesOf(m.symmetry);
            SectionColor(Hilled(m), from, 0, curveFn) == curveFn(f.frontCurve, f.backFade + 1, from, m.peakColor, 0)
    ensures var f := FadesOf(m.symmetry);
            SectionColor(Hilled(m), from, AnimationLen(Hilled(m)) - 1, curveFn) ==
            curveFn(f.backCurve, f.frontFade + 1, m.peakColor, from, f.frontFade + 1)
  {
    var c := SectionCall(Hilled(m), from, AnimationLen(Hilled(m)) - 1);
    assert c.tick == FadesOf(m.symmetry).frontFade + 1;
  }

  /** Between the fades a hill shows its peak colour as it is, whatever the curve function. */
  lemma HilledPlateau(m: HilledAnimationMeta, from: HsvColor, idx: U16, curveFn: CurveFn)
    requires LenFits(Hilled(m)) && idx < AnimationLen(Hilled(m))
    requires FadesOf(m.symmetry).backFade + 1 < idx < FadesOf(m.symmetry).backFade + 1 + m.peakLen
    ensures SectionColor(Hilled(m), from, idx, curveFn) == m.peakColor
  {
    var c := SectionCall(Hilled(m), from, idx);
    assert c.PeakColor?;
  }

  /**
   * The fade of the tests at src/animation/running_light.rs:659-700: a fade
   * of length 1 runs over 3 LEDs, whose curve calls over length 2 take ticks
   * 2, 1 and 0 (the target colour, halfway, the start colour).
   */
  lemma FadeToExample(from: HsvColor, to: HsvColor, curveFn: CurveFn)
    ensures AnimationLen(FadeToColor(FadeToAnimationMeta(to, 1, Linear))) == 3
    ensures SectionCall(FadeToColor(FadeToAnimationMeta(to, 1, Linear)), from, 0) == CurveCall(Linear, 2, from, to, 2)
    ensures SectionCall(FadeToColor(FadeToAnimationMeta(to, 1, Linear)), from, 1) == CurveCall(Linear, 2, from, to, 1)
    ensures SectionCall(FadeToColor(FadeToAnimationMeta(to, 1, Linear)), from, 2) == CurveCall(Linear, 2, from, to, 0)
  {
  }
}
