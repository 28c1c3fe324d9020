/**
 * `ActiveRangeIter` of src/animation/running_light.rs (a byte-identical copy
 * lives in src/animation/iterators.rs): the window of a running light, W LEDs
 * long and anchored at a signed position, split against the L addressable
 * LEDs of the animation's range. Every chunk it yields is a progress sub-range
 * of the window together with the strip ordinal its first LED lands on.
 *
 * The iterator is specified by the pure `Step`, whose `Panic` outcome stands
 * for every way `next` panics (the `unimplemented!` arms, a failed
 * `u16::try_from`, u16/i32 overflow and underflow). `Chunks` is the whole run
 * of `next` calls, `None` if one of them panics. The class `ActiveRangeIter`
 * does what the source does, field by field, and is proved against `Step`.
 */
module ActiveRange {
  import opened Wrappers
  import opened Indexing

  const I32Min := -0x8000_0000
  const I32Max := 0x7FFF_FFFF

  predicate IsI32(x: int) {
    I32Min <= x <= I32Max
  }

  /** `BorderType`; `RunningLight::new` only ever picks `ClosedStartEnd` or `WrappingStartEnd`. */
  datatype BorderType = ClosedStartEnd | WrappingStart | WrappingEnd | WrappingStartEnd

  /** `AnchoredRange { anchor, range: start..end }`: progress indexes start..end, drawn from strip ordinal `anchor`. */
  datatype AnchoredRange = AnchoredRange(anchor: U16, start: U16, end: U16)

  /** How many items `start..end` yields (none when start >= end). */
  function ChunkLen(c: AnchoredRange): nat {
    if c.start < c.end then c.end - c.start else 0
  }

  /** The fields of an `ActiveRangeIter`: anchor, W, L, border and offset into the window. */
  datatype WindowState = WindowState(anchor: int, activeLen: U16, generalLen: U16, border: BorderType, offset: U16)

  /** `ActiveRangeIter::new`: offset 0. */
  function Fresh(anchor: int, activeLen: U16, generalLen: U16, border: BorderType): WindowState {
    WindowState(anchor, activeLen, generalLen, border, 0)
  }

  datatype StepOutcome = Finished | Yield(chunk: AnchoredRange, next: WindowState) | Panic

  /** A `WrappingStartEnd` window over zero LEDs never finishes; every other window does. */
  predicate Terminates(s: WindowState) {
    s.border == WrappingStartEnd ==> s.generalLen > 0
  }

  /** Twice the items left in the window, plus one while the anchor is not 0. */
  function Measure(s: WindowState): nat {
    if s.offset <= s.activeLen then 2 * (s.activeLen - s.offset) + (if s.anchor != 0 then 1 else 0) else 0
  }

  /**
   * One call of `ActiveRangeIter::next`. Every yielded chunk lands inside the
   * L addressable LEDs, a step never changes W, L or the border nor moves the
   * offset back, and a terminating window makes progress.
   */
  function Step(s: WindowState): (r: StepOutcome)
    ensures r.Yield? ==> r.chunk.anchor + ChunkLen(r.chunk) <= s.generalLen
    ensures r.Yield? ==> (r.next.activeLen == s.activeLen && r.next.generalLen == s.generalLen &&
                          r.next.border == s.border && r.next.offset >= s.offset && IsI32(r.next.anchor))
    ensures r.Yield? && Terminates(s) ==> Measure(r.next) < Measure(s)
    ensures r.Finished? <==> s.offset == s.activeLen
  {
    if s.offset > s.activeLen then Panic                                   // u16 `W - offset`
    else
      var rem := s.activeLen - s.offset;
      if rem == 0 then Finished
      else if !IsI32(s.anchor + rem) then Panic                            // i32 `anchor + rem`
      else
        var startOut := s.anchor < 0;
        var endOut := s.anchor + rem > s.generalLen;
        if startOut && endOut then Panic                                   // unimplemented!()
        else if startOut then
          if -s.anchor > MaxIndex then Panic                               // u16::try_from(anchor.abs())
          else
            var out := -s.anchor;
            match s.border
            case ClosedStartEnd =>
              if out + s.offset > MaxIndex then Panic                      // u16 `outside + offset`
              else Yield(AnchoredRange(0, out + s.offset, s.activeLen), s.(offset := s.activeLen, anchor := 0))
            case WrappingStartEnd =>
              var len := if s.offset < out then out - s.offset else 0;
              if len > s.generalLen then Panic                             // u16 `L - len`
              else Yield(AnchoredRange(s.generalLen - len, s.offset, out), s.(offset := s.offset + len, anchor := 0))
            case _ => Panic                                                // unimplemented!()
        else if endOut then
          if s.anchor + rem > MaxIndex then Panic                          // try_from(anchor) / u16 `anchor + rem`
          else
            var out := s.anchor + rem - s.generalLen;
            if out > s.activeLen then Panic                                // u16 `W - outside`
            else
              var e := s.activeLen - out;
              var len := if s.offset < e then e - s.offset else 0;
              if len > s.generalLen then Panic                             // u16 `L - len`
              else
                match s.border
                case ClosedStartEnd =>
                  Yield(AnchoredRange(s.generalLen - len, s.offset, e), s.(offset := s.activeLen, anchor := s.generalLen))
                case WrappingStartEnd =>
                  Yield(AnchoredRange(s.generalLen - len, s.offset, e), s.(offset := s.offset + len, anchor := 0))
                case _ => Panic                                            // unimplemented!()
        else
          Yield(AnchoredRange(s.anchor, s.offset, s.activeLen), s.(offset := s.activeLen, anchor := rem))
  }

  /** Every chunk the iterator yields before `None`, or `None` if a call of `next` panics. */
  function Chunks(s: WindowState): Option<seq<AnchoredRange>>
    requires Terminates(s)
    decreases Measure(s)
  {
    match Step(s)
    case Finished => Some([])
    case Panic => None
    case Yield(c, n) =>
      match Chunks(n)
      case None => None
      case Some(cs) => Some([c] + cs)
  }

  // ---------------------------------------------------------------------------------------------
  // Progress indexes covered by the chunks

  /** The progress indexes one chunk yields. */
  function ChunkProgress(c: AnchoredRange): (r: seq<int>)
    ensures |r| == ChunkLen(c)
    ensures forall k :: 0 <= k < |r| ==> r[k] == c.start + k
  {
    seq(ChunkLen(c), k => c.start + k)
  }

  function Progress(cs: seq<AnchoredRange>): seq<int> {
    if cs == [] then [] else ChunkProgress(cs[0]) + Progress(cs[1..])
  }

  /** The integers a..b-1 in order. */
  function Interval(a: int, b: int): (r: seq<int>)
    ensures |r| == if a < b then b - a else 0
    ensures forall k :: 0 <= k < |r| ==> r[k] == a + k
  {
    seq(if a < b then b - a else 0, k => a + k)
  }

  lemma IntervalSplit(a: int, b: int, c: int)
    requires a <= b <= c
    ensures Interval(a, b) + Interval(b, c) == Interval(a, c)
  {
  }

  /** Every chunk of a run lands inside the L addressable LEDs and ends inside the window. */
  lemma {:induction false} ChunksFitStrip(s: WindowState)
    requires Terminates(s) && Chunks(s).Some?
    ensures forall k :: 0 <= k < |Chunks(s).value| ==>
              Chunks(s).value[k].anchor + ChunkLen(Chunks(s).value[k]) <= s.generalLen &&
              Chunks(s).value[k].end <= s.activeLen
    decreases Measure(s)
  {
    if Step(s).Yield? {
      var n := Step(s).next;
      ChunksFitStrip(n);
      assert !Step(n).Panic?;
      assert n.offset <= n.activeLen;
      assert Chunks(s).value == [Step(s).chunk] + Chunks(n).value;
    }
  }

  /**
   * Under Wrap the chunks' progress indexes are exactly offset..W in order:
   * no LED of the window is lost or repeated.
   */
  lemma {:induction false} WrapCoversWindow(s: WindowState)
    requires s.border == WrappingStartEnd && s.generalLen > 0 && Chunks(s).Some?
    ensures Progress(Chunks(s).value) == Interval(s.offset, s.activeLen)
    decreases Measure(s)
  {
    match Step(s)
    case Finished =>
    case Yield(c, n) =>
      WrapCoversWindow(n);
      assert !Step(n).Panic?;
      assert n.offset <= n.activeLen;
      assert ChunkProgress(c) == Interval(s.offset, n.offset);
      IntervalSplit(s.offset, n.offset, s.activeLen);
      assert Chunks(s).value == [c] + Chunks(n).value;
      assert Chunks(s).value[1..] == Chunks(n).value;
  }

  /** Under Clamp there is at most one chunk: every yielding arm moves the offset to W. */
  lemma ClampAtMostOneChunk(s: WindowState)
    requires s.border == ClosedStartEnd && Chunks(s).Some?
    ensures |Chunks(s).value| <= 1
  {
    if Step(s).Yield? {
      assert Step(Step(s).next).Finished?;
    }
  }

  // ---------------------------------------------------------------------------------------------
  // A fresh window, case by case

  lemma EmptyWindow(a: int, l: U16, b: BorderType)
    requires Terminates(Fresh(a, 0, l, b))
    ensures Chunks(Fresh(a, 0, l, b)) == Some([])
  {
  }

  /** A window inside 0..L yields the single chunk {A, 0..W}, then `None`, under any border. */
  lemma InsideWindowSingleChunk(a: int, w: U16, l: U16, b: BorderType)
    requires 0 <= a && a + w <= l && w > 0
    ensures Chunks(Fresh(a, w, l, b)) == Some([AnchoredRange(a, 0, w)])
  {
    var n := WindowState(w, w, l, b, w);
    assert Step(Fresh(a, w, l, b)) == Yield(AnchoredRange(a, 0, w), n);
    assert Chunks(n) == Some([]);
    assert [AnchoredRange(a, 0, w)] + [] == [AnchoredRange(a, 0, w)];
  }

  /** A window sticking out at both ends panics (`unimplemented!`). */
  lemma BothOutsidePanics(a: int, w: U16, l: U16, b: BorderType)
    requires a < 0 && a + w > l && Terminates(Fresh(a, w, l, b))
    ensures Chunks(Fresh(a, w, l, b)) == None
  {
    assert Step(Fresh(a, w, l, b)) == Panic;
  }

  /** Clamp, start outside: the part before LED 0 is cut off, one chunk {0, |A|..W}. */
  lemma ClampStartOutside(a: int, w: U16, l: U16)
    requires a < 0 && a + w <= l && -a <= MaxIndex && w > 0
    ensures Chunks(Fresh(a, w, l, ClosedStartEnd)) == Some([AnchoredRange(0, -a, w)])
  {
    var n := WindowState(0, w, l, ClosedStartEnd, w);
    assert Step(Fresh(a, w, l, ClosedStartEnd)) == Yield(AnchoredRange(0, -a, w), n);
    assert Chunks(n) == Some([]);
    assert [AnchoredRange(0, -a, w)] + [] == [AnchoredRange(0, -a, w)];
  }

  /**
   * Clamp, end outside with `out = A + W - L`: one chunk {L - (W - out), 0..W - out};
   * an anchor beyond L makes `W - out` underflow.
   */
  lemma ClampEndOutside(a: int, w: U16, l: U16)
    requires 0 <= a && a + w > l && a + w <= MaxIndex && w > 0
    ensures a <= l ==> (Chunks(Fresh(a, w, l, ClosedStartEnd)) ==
                        Some([AnchoredRange(l - (w - (a + w - l)), 0, w - (a + w - l))]))
    ensures a > l ==> Chunks(Fresh(a, w, l, ClosedStartEnd)) == None
  {
    if a <= l {
      var n := WindowState(l, w, l, ClosedStartEnd, w);
      assert Step(Fresh(a, w, l, ClosedStartEnd)) == Yield(AnchoredRange(l - (w - (a + w - l)), 0, w - (a + w - l)), n);
      assert Chunks(n) == Some([]);
      assert [AnchoredRange(a, 0, l - a)] + [] == [AnchoredRange(a, 0, l - a)];
    } else {
      assert Step(Fresh(a, w, l, ClosedStartEnd)) == Panic;
    }
  }

  /** Wrap, start outside: the part before LED 0 is drawn from the end of the strip, then the rest from 0. */
  lemma WrapStartOutside(a: int, w: U16, l: U16)
    requires a < 0 && 0 < a + w <= l && -a <= l
    ensures Chunks(Fresh(a, w, l, WrappingStartEnd)) ==
            Some([AnchoredRange(l + a, 0, -a), AnchoredRange(0, -a, w)])
  {
    var n := WindowState(0, w, l, WrappingStartEnd, -a);
    var n2 := WindowState(w + a, w, l, WrappingStartEnd, w);
    assert Step(Fresh(a, w, l, WrappingStartEnd)) == Yield(AnchoredRange(l + a, 0, -a), n);
    assert Step(n) == Yield(AnchoredRange(0, -a, w), n2);
    assert Chunks(n2) == Some([]);
    assert Chunks(n) == Some([AnchoredRange(0, -a, w)] + []);
    assert [AnchoredRange(0, -a, w)] + [] == [AnchoredRange(0, -a, w)];
    assert Chunks(Fresh(a, w, l, WrappingStartEnd)) == Some([AnchoredRange(l + a, 0, -a)] + [AnchoredRange(0, -a, w)]);
    assert [AnchoredRange(l + a, 0, -a)] + [AnchoredRange(0, -a, w)] == [AnchoredRange(l + a, 0, -a), AnchoredRange(0, -a, w)];
  }

  /** Wrap, end outside with W <= L: the part up to L, then the rest from strip ordinal 0. */
  lemma WrapEndOutside(a: int, w: U16, l: U16)
    requires 0 <= a <= l && a + w > l && a + w <= MaxIndex && w <= l
    ensures Chunks(Fresh(a, w, l, WrappingStartEnd)) ==
            Some([AnchoredRange(a, 0, l - a), AnchoredRange(0, l - a, w)])
  {
    var n := WindowState(0, w, l, WrappingStartEnd, l - a);
    var n2 := WindowState(a + w - l, w, l, WrappingStartEnd, w);
    assert Step(Fresh(a, w, l, WrappingStartEnd)) == Yield(AnchoredRange(a, 0, l - a), n);
    assert Step(n) == Yield(AnchoredRange(0, l - a, w), n2);
    assert Chunks(n2) == Some([]);
    assert Chunks(n) == Some([AnchoredRange(0, l - a, w)] + []);
    assert [AnchoredRange(0, l - a, w)] + [] == [AnchoredRange(0, l - a, w)];
    assert Chunks(Fresh(a, w, l, WrappingStartEnd)) == Some([AnchoredRange(a, 0, l - a)] + [AnchoredRange(0, l - a, w)]);
    assert [AnchoredRange(a, 0, l - a)] + [AnchoredRange(0, l - a, w)] == [AnchoredRange(a, 0, l - a), AnchoredRange(0, l - a, w)];
  }

  /**
   * Wrap, W <= L and the window overlapping 0..L: at most two chunks, whose
   * progress indexes are exactly 0..W and which all land inside the strip;
   * after the wrapped part the anchor is 0.
   */
  lemma WrapAtMostTwoChunks(a: int, w: U16, l: U16)
    requires 0 < w <= l && 0 < a + w && a <= l && a + w <= MaxIndex
    ensures Chunks(Fresh(a, w, l, WrappingStartEnd)).Some?
    ensures |Chunks(Fresh(a, w, l, WrappingStartEnd)).value| <= 2
    ensures |Chunks(Fresh(a, w, l, WrappingStartEnd)).value| == 2 ==> Chunks(Fresh(a, w, l, WrappingStartEnd)).value[1].anchor == 0
    ensures Progress(Chunks(Fresh(a, w, l, WrappingStartEnd)).value) == Interval(0, w)
    ensures forall c :: c in Chunks(Fresh(a, w, l, WrappingStartEnd)).value ==> c.anchor + ChunkLen(c) <= l
  {
    var s := Fresh(a, w, l, WrappingStartEnd);
    if a < 0 {
      WrapStartOutside(a, w, l);
    } else if a + w <= l {
      InsideWindowSingleChunk(a, w, l, WrappingStartEnd);
    } else {
      WrapEndOutside(a, w, l);
    }
    WrapCoversWindow(s);
    ChunksFitStrip(s);
  }

  /** The closed-border cases of the test at running_light.rs:587-612 (L = 7, W = 5). */
  lemma ClosedExamples()
    ensures Chunks(Fresh(-2, 5, 7, ClosedStartEnd)) == Some([AnchoredRange(0, 2, 5)])
    ensures Chunks(Fresh(1, 5, 7, ClosedStartEnd)) == Some([AnchoredRange(1, 0, 5)])
    ensures Chunks(Fresh(5, 5, 7, ClosedStartEnd)) == Some([AnchoredRange(5, 0, 2)])
  {
    ClampStartOutside(-2, 5, 7);
    InsideWindowSingleChunk(1, 5, 7, ClosedStartEnd);
    ClampEndOutside(5, 5, 7);
  }

  /** The wrapping cases of the test at running_light.rs:615-636 (L = 7, W = 4). */
  lemma WrappingExamples()
    ensures Chunks(Fresh(-2, 4, 7, WrappingStartEnd)) == Some([AnchoredRange(5, 0, 2), AnchoredRange(0, 2, 4)])
    ensures Chunks(Fresh(5, 4, 7, WrappingStartEnd)) == Some([AnchoredRange(5, 0, 2), AnchoredRange(0, 2, 4)])
  {
    WrapStartOutside(-2, 4, 7);
    WrapEndOutside(5, 4, 7);
  }

  // ---------------------------------------------------------------------------------------------
  // The iterator object

  /** `ActiveRangeIter`: `next` rewrites `anchor` and `animation_offset` through `update`. */
  class ActiveRangeIter {
    var anchor: int
    const activeAnimationLen: U16
    const generalAnimationLen: U16
    const borderType: BorderType
    var animationOffset: U16

    function State(): WindowState
      reads this
    {
      WindowState(anchor, activeAnimationLen, generalAnimationLen, borderType, animationOffset)
    }

    /** `ActiveRangeIter::new` */
    constructor (anchor: int, activeLen: U16, generalLen: U16, border: BorderType)
      ensures State() == Fresh(anchor, activeLen, generalLen, border)
    {
      this.anchor := anchor;
      activeAnimationLen := activeLen;
      generalAnimationLen := generalLen;
      borderType := border;
      animationOffset := 0;
    }

    /** `update`: `animation_offset += used` (a u16 add) and the new anchor. */
    method Update(used: U16, anchorTo: int)
      requires animationOffset + used <= MaxIndex
      modifies this
      ensures animationOffset == old(animationOffset) + used && anchor == anchorTo
    {
      animationOffset := animationOffset + used;
      anchor := anchorTo;
    }

    /** `next`: the chunk `Step` yields and the state it moves to; `None` leaves the state alone. */
    method Next() returns (r: Option<AnchoredRange>)
      requires !Step(State()).Panic?
      modifies this
      ensures Step(old(State())).Finished? ==> r == None && State() == old(State())
      ensures Step(old(State())).Yield? ==> r == Some(Step(old(State())).chunk) && State() == Step(old(State())).next
    {
      var rem := activeAnimationLen - animationOffset;
      if rem == 0 {
        return None;
      }
      var startOutside := anchor < 0;
      var endOutside := anchor + rem > generalAnimationLen;
      if startOutside && endOutside {
        assert false;
        r := None;
      } else if startOutside {
        var outsideLen := -anchor;
        if borderType == ClosedStartEnd {
          var part := AnchoredRange(0, outsideLen + animationOffset, activeAnimationLen);
          Update(rem, 0);
          r := Some(part);
        } else if borderType == WrappingStartEnd {
          var partLen := if animationOffset < outsideLen then outsideLen - animationOffset else 0;
          var part := AnchoredRange(generalAnimationLen - partLen, animationOffset, outsideLen);
          Update(partLen, 0);
          r := Some(part);
        } else {
          assert false;
          r := None;
        }
      } else if endOutside {
        var outsideLen := anchor + rem - generalAnimationLen;
        var partEnd := activeAnimationLen - outsideLen;
        var partLen := if animationOffset < partEnd then partEnd - animationOffset else 0;
        var part := AnchoredRange(generalAnimationLen - partLen, animationOffset, partEnd);
        if borderType == ClosedStartEnd {
          Update(rem, generalAnimationLen);
          r := Some(part);
        } else if borderType == WrappingStartEnd {
          Update(partLen, 0);
          r := Some(part);
        } else {
          assert false;
          r := None;
        }
      } else {
        var part := AnchoredRange(anchor, animationOffset, activeAnimationLen);
        Update(rem, 0 + rem);
        r := Some(part);
      }
    }
  }
}
