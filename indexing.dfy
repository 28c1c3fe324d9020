/**
 * The index-mapping algebra of src/indexing.rs. An index map sends an
 * animation-local ordinal to one or two physical LED ids, or to a mapping
 * error. The base maps are `Range<u16>` and LED arrays; every combinator wraps
 * an inner map, so a composed map is a value of the recursive datatype
 * `IndexMap`.
 *
 * Rust's u16 arithmetic panics on overflow and underflow, and `unwrap` panics
 * on a failed conversion. Panics that depend only on how a map was built are
 * excluded by `Valid`; those that depend on the ordinal asked for are excluded
 * by `Safe`. Both are preconditions of `Index`.
 */
module Indexing {
  import opened Wrappers

  /** Largest u16 value. */
  const MaxIndex := 0xFFFF

  /** `u16`, the source's `Index` type; `LedId` is the same type. */
  type U16 = i: int | 0 <= i <= MaxIndex
  type LedId = U16

  datatype MappingError = NotInMappingRange | IndexOutOfBounds

  datatype Result<+T> = Ok(value: T) | Err(error: MappingError)

  /** A front or end bound of `BoundedIndexed` (`None` is named `NoBound` here). */
  datatype Bound = Relative(off: nat) | Absolute(off: nat) | NoBound

  datatype UnevenBehavior = Exclude | ToLower | ToUpper

  datatype IndexMap =
    | RangeMap(start: U16, end: U16)                           // Range<u16>
    | ArrayMap(ids: seq<LedId>)                                      // [LedId; N], &[LedId; N], &[LedId]
    | Reversed(inner: IndexMap)                                      // ReversedIndexed
    | EveryNth(inner: IndexMap, nth: nat)                            // EveryNthIndexed
    | Circular(inner: IndexMap, offset: int)                         // CircularIndexed
    | Bounded(inner: IndexMap, front: Bound, back: Bound)            // BoundedIndexed
    | Half(inner: IndexMap, lower: bool, uneven: UnevenBehavior)     // HalfIndexed
    | SplitMirrored(inner: IndexMap, uneven: UnevenBehavior)         // SplitMirroredIndexed

  function Abs(x: int): nat {
    if x < 0 then -x else x
  }

  /** How many LED ids one ordinal maps to: 1 (`SingleIndexed`) or 2 (`ManyIndexed<2>`). */
  function Arity(m: IndexMap): nat {
    match m
    case RangeMap(_, _) => 1
    case ArrayMap(_) => 1
    case SplitMirrored(_, _) => 2
    case Reversed(inner) => Arity(inner)
    case EveryNth(inner, _) => Arity(inner)
    case Circular(inner, _) => Arity(inner)
    case Bounded(inner, _, _) => Arity(inner)
    case Half(inner, _, _) => Arity(inner)
  }

  /** `BoundedIndexed::front_off` */
  function FrontOff(front: Bound): nat {
    match front
    case NoBound => 0
    case Relative(o) => o
    case Absolute(o) => o
  }

  /**
   * The construction-level conditions under which `len` does not panic and
   * the type constraints of the source hold: an EveryNth stride is non-zero
   * (division by zero), a circular offset is below the inner length (the
   * assert in `CircularIndexed::new`), the usize subtractions in
   * `BoundedIndexed::end_off` and `len` do not underflow, and a split-mirrored
   * map wraps a map whose output is a `SingleIndexed`.
   */
  ghost predicate Valid(m: IndexMap)
    decreases m, 0
  {
    match m
    case RangeMap(_, _) => true
    case ArrayMap(_) => true
    case Reversed(inner) => Valid(inner)
    case EveryNth(inner, n) => Valid(inner) && n > 0
    case Circular(inner, off) => Valid(inner) && Abs(off) < Len(inner)
    case Bounded(inner, front, back) =>
      Valid(inner) && (back.Absolute? ==> back.off + 1 <= Len(inner)) &&
      FrontOff(front) + EndOffRaw(Len(inner), back) <= Len(inner)
    case Half(inner, _, _) => Valid(inner)
    case SplitMirrored(inner, _) => Valid(inner) && Arity(inner) == 1
  }

  /** `BoundedIndexed::end_off`, given the inner length; an Absolute bound counts from the start. */
  function EndOffRaw(innerLen: nat, back: Bound): int {
    match back
    case NoBound => 0
    case Relative(o) => o
    case Absolute(o) => innerLen - o - 1
  }

  function EndOff(innerLen: nat, back: Bound): nat
    requires back.Absolute? ==> back.off + 1 <= innerLen
  {
    EndOffRaw(innerLen, back)
  }

  /** `HalfIndexed::len` of one half, given the inner length. */
  function HalfLen(n: nat, lower: bool, uneven: UnevenBehavior): (r: nat)
    ensures r <= n
  {
    if n % 2 != 0 then
      if lower then (if uneven == ToLower then n / 2 + 1 else n / 2)
      else (if uneven == ToUpper then n / 2 + 1 else n / 2)
    else n / 2
  }

  /** `SplitMirroredIndexed::len`, given the inner length. */
  function MirroredLen(n: nat, uneven: UnevenBehavior): (r: nat)
    ensures r <= n
  {
    if n % 2 != 0 then (if uneven == Exclude then n / 2 else (n + 1) / 2) else n / 2
  }

  /** `Indexing::len` */
  function Len(m: IndexMap): nat
    requires Valid(m)
    decreases m, 1
  {
    match m
    case RangeMap(a, b) => if a < b then b - a else 0
    case ArrayMap(ids) => |ids|
    case Reversed(inner) => Len(inner)
    case EveryNth(inner, n) => Len(inner) / n
    case Circular(inner, _) => Len(inner)
    case Bounded(inner, front, back) => Len(inner) - FrontOff(front) - EndOff(Len(inner), back)
    case Half(inner, lower, uneven) => HalfLen(Len(inner), lower, uneven)
    case SplitMirrored(inner, uneven) => MirroredLen(Len(inner), uneven)
  }

  /** The inner ordinal `CircularIndexed::index` forwards to, for `i < len`. */
  function CircularTarget(i: nat, off: int, len: nat): (r: int)
    requires i < len && Abs(off) < len
    ensures 0 <= r < len
  {
    if i + off < 0 then len - Abs(i + off) else (i + off) % len
  }

  /**
   * The ordinal-level conditions under which `index(i)` does not panic: no u16
   * overflow or underflow (`len - index - 1`, `index * nth`, `index + front`),
   * no failed `Index::try_from(...).unwrap()`, and no array index out of bounds.
   * Each case follows the evaluation order of the source, so a check that the
   * source never reaches (after an early `return Err(..)` or `?`) is not asked.
   */
  ghost predicate Safe(m: IndexMap, i: U16)
    requires Valid(m)
    decreases m, 0
  {
    match m
    case RangeMap(_, _) => true
    case ArrayMap(ids) => i < |ids|
    case Reversed(inner) =>
      Len(inner) <= MaxIndex && i + 1 <= Len(inner) && Safe(inner, Len(inner) - i - 1)
    case EveryNth(inner, n) =>
      n <= MaxIndex && i * n <= MaxIndex && Safe(inner, i * n)
    case Circular(inner, off) =>
      Len(inner) <= MaxIndex &&
      (i < Len(inner) ==>
        (i + off >= 0 ==> i + off <= MaxIndex) &&
        Safe(inner, CircularTarget(i, off, Len(inner))))
    case Bounded(inner, front, _) =>
      (Len(m) <= MaxIndex && i < Len(m)) ==>
        FrontOff(front) <= MaxIndex && i + FrontOff(front) <= MaxIndex &&
        Safe(inner, i + FrontOff(front))
    case Half(inner, lower, _) =>
      if lower then Safe(inner, i)
      else
        Len(inner) - Len(m) <= MaxIndex && i + (Len(inner) - Len(m)) <= MaxIndex &&
        Safe(inner, i + (Len(inner) - Len(m)))
    case SplitMirrored(inner, _) =>
      Len(m) <= MaxIndex &&
      (i < Len(m) ==>
        Len(inner) <= MaxIndex && Safe(inner, i) &&
        (Index(inner, i).Ok? ==> Safe(inner, Len(inner) - i - 1)))
  }

  /** `Indexing::index`: the LED ids ordinal `i` maps to, in output order. */
  function Index(m: IndexMap, i: U16): (r: Result<seq<LedId>>)
    requires Valid(m) && Safe(m, i)
    ensures r.Ok? ==> |r.value| == Arity(m)
    decreases m, 2
  {
    match m
    case RangeMap(a, b) =>
      if a + i > MaxIndex then Err(NotInMappingRange)         // checked_add failed
      else if a + i >= b then Err(NotInMappingRange)
      else Ok([a + i])
    case ArrayMap(ids) => Ok([ids[i]])
    case Reversed(inner) => Index(inner, Len(inner) - i - 1)
    case EveryNth(inner, n) => Index(inner, i * n)
    case Circular(inner, off) =>
      if i >= Len(inner) then Err(IndexOutOfBounds)
      else Index(inner, CircularTarget(i, off, Len(inner)))
    case Bounded(_, _, _) => BoundedIndex(m, i)
    case Half(_, _, _) => HalfIndex(m, i)
    case SplitMirrored(_, _) => MirroredIndex(m, i)
  }

  /** `BoundedIndexed::index`: ordinals past `len` are refused, the rest shift by the front offset. */
  function BoundedIndex(m: IndexMap, i: U16): (r: Result<seq<LedId>>)
    requires m.Bounded? && Valid(m) && Safe(m, i)
    ensures r.Ok? ==> |r.value| == Arity(m)
    decreases m, 1
  {
    if Len(m) > MaxIndex then Err(IndexOutOfBounds)
    else if i >= Len(m) then Err(NotInMappingRange)
    else Index(m.inner, i + FrontOff(m.front))
  }

  /** `HalfIndexed::index`: the upper half starts `len(inner) - len` ordinals in. */
  function HalfIndex(m: IndexMap, i: U16): (r: Result<seq<LedId>>)
    requires m.Half? && Valid(m) && Safe(m, i)
    ensures r.Ok? ==> |r.value| == Arity(m)
    decreases m, 1
  {
    if m.lower then Index(m.inner, i) else Index(m.inner, i + (Len(m.inner) - Len(m)))
  }

  /** `SplitMirroredIndexed::index`: the LED of ordinal `i` and the LED mirrored to it. */
  function MirroredIndex(m: IndexMap, i: U16): (r: Result<seq<LedId>>)
    requires m.SplitMirrored? && Valid(m) && Safe(m, i)
    ensures r.Ok? ==> |r.value| == 2
    decreases m, 1
  {
    var inner := m.inner;
    if i >= Len(m) then Err(NotInMappingRange)
    else
      match Index(inner, i)
      case Err(e) => Err(e)
      case Ok(f) =>
        match Index(inner, Len(inner) - i - 1)
        case Err(e) => Err(e)
        case Ok(b) => Ok([f[0], b[0]])
  }

  /** `CircularIndexed::new`: asserts that the offset is below the inner length. */
  function NewCircular(inner: IndexMap, offset: int): (m: IndexMap)
    requires Valid(inner) && Abs(offset) < Len(inner)
    ensures Valid(m) && Len(m) == Len(inner)
  {
    Circular(inner, offset)
  }

  /** `divided_indexing` / `split_into_half`: the lower and the upper half of `m`. */
  function DividedIndexing(m: IndexMap, uneven: UnevenBehavior): (halves: (IndexMap, IndexMap))
    requires Valid(m)
    ensures Valid(halves.0) && Valid(halves.1)
    ensures Len(halves.0) + Len(halves.1) == (if Len(m) % 2 != 0 && uneven == Exclude then Len(m) - 1 else Len(m))
    ensures Len(halves.0) <= Len(m) && Len(halves.1) <= Len(m)
  {
    (Half(m, true, uneven), Half(m, false, uneven))
  }

  /** `BoundedIndexed::from_range(inner, a..b)`: bounds `Absolute(a)` and `Absolute(b - 1)`. */
  function FromRange(inner: IndexMap, a: U16, b: U16): (m: IndexMap)
    requires Valid(inner) && 1 <= b && a <= b <= Len(inner)
    ensures Valid(m) && Len(m) == b - a
  {
    Bounded(inner, CoreBoundToBound(Included(a), true), CoreBoundToBound(Excluded(b), false))
  }

  // ---------------------------------------------------------------------------------------------
  // from_range over any RangeBounds: the conversion as written, and as intended

  /** `core::ops::Bound<&LedId>` */
  datatype CoreBound = Included(o: U16) | Excluded(o: U16) | Unbounded

  /**
   * `core_bounds_to_bounds` as written: `Included(o)` becomes `Absolute(o + off)` and
   * `Excluded(o)` becomes `Absolute(o - off)`, with `off = 0` for a start and 1 for an end.
   */
  function CoreBoundToBound(b: CoreBound, start: bool): (r: Bound)
    requires b.Included? && !start ==> b.o + 1 <= MaxIndex
    requires b.Excluded? && !start ==> b.o >= 1
    ensures b.Unbounded? <==> r.NoBound?
    ensures start && b.Included? ==> r == Absolute(b.o)
    ensures !start && b.Excluded? ==> r == Absolute(b.o - 1)
  {
    var off := if start then 0 else 1;
    match b
    case Included(o) => Absolute(o + off)
    case Excluded(o) => Absolute(o - off)
    case Unbounded => NoBound
  }

  /**
   * The conversion as intended: an end bound `Absolute(o)` keeps ordinal `o` as the
   * last one and a front bound `Absolute(o)` keeps `o` as the first one, so an
   * included end is kept as is and an excluded start moves one up.
   */
  function CoreBoundToBoundIntended(b: CoreBound, start: bool): (r: Bound)
    requires b.Excluded? && start ==> b.o + 1 <= MaxIndex
    requires b.Excluded? && !start ==> b.o >= 1
  {
    match b
    case Included(o) => Absolute(o)
    case Excluded(o) => if start then Absolute(o + 1) else Absolute(o - 1)
    case Unbounded => NoBound
  }

  /** `from_range(inner, a..=b)` as written. */
  function FromInclusiveRangeAsWritten(inner: IndexMap, a: U16, b: U16): IndexMap
    requires b + 1 <= MaxIndex
  {
    Bounded(inner, CoreBoundToBound(Included(a), true), CoreBoundToBound(Included(b), false))
  }

  /** `from_range(inner, a..=b)` with the intended conversion. */
  function FromInclusiveRange(inner: IndexMap, a: U16, b: U16): IndexMap {
    Bounded(inner, CoreBoundToBoundIntended(Included(a), true), CoreBoundToBoundIntended(Included(b), false))
  }

  /**
   * As written, `from_range(&[0, 1, .., 9], 0..=4)` has length 6 and its ordinal 5
   * maps to LED 5, one past the inclusive end.
   */
  lemma InclusiveRangeAsWrittenKeepsOneMore()
    ensures var m := FromInclusiveRangeAsWritten(ArrayMap([0, 1, 2, 3, 4, 5, 6, 7, 8, 9]), 0, 4);
            Valid(m) && Len(m) == 6 && Safe(m, 5) && Index(m, 5) == Ok([5])
  {
    var m := FromInclusiveRangeAsWritten(ArrayMap([0, 1, 2, 3, 4, 5, 6, 7, 8, 9]), 0, 4);
    assert m == Bounded(ArrayMap([0, 1, 2, 3, 4, 5, 6, 7, 8, 9]), Absolute(0), Absolute(5));
  }

  /**
   * With the intended conversion `from_range(inner, a..=b)` keeps exactly the
   * inner ordinals a..=b: its length is `b - a + 1`, its first ordinal maps like
   * inner ordinal `a` and its last like inner ordinal `b`.
   */
  lemma InclusiveRangeIntended(inner: IndexMap, a: U16, b: U16)
    requires Valid(inner) && a <= b < Len(inner) && Len(inner) <= MaxIndex
    ensures var m := FromInclusiveRange(inner, a, b);
            Valid(m) && Len(m) == b - a + 1 &&
            (Safe(inner, a) ==> Safe(m, 0) && Index(m, 0) == Index(inner, a)) &&
            (Safe(inner, b) ==> Safe(m, b - a) && Index(m, b - a) == Index(inner, b))
  {
  }

  /** `from_range(inner, (Excluded(a), Excluded(b)))` as written. */
  function FromExcludedRangeAsWritten(inner: IndexMap, a: U16, b: U16): IndexMap
    requires 1 <= b
  {
    Bounded(inner, CoreBoundToBound(Excluded(a), true), CoreBoundToBound(Excluded(b), false))
  }

  /** `from_range(inner, (Excluded(a), Excluded(b)))` with the intended conversion. */
  function FromExcludedRange(inner: IndexMap, a: U16, b: U16): IndexMap
    requires a + 1 <= MaxIndex && 1 <= b
  {
    Bounded(inner, CoreBoundToBoundIntended(Excluded(a), true), CoreBoundToBoundIntended(Excluded(b), false))
  }

  /**
   * As written, an excluded start is kept: `from_range(&[0, 1, .., 9],
   * (Excluded(2), Excluded(6)))` has length 4 and its ordinal 0 maps to LED 2.
   */
  lemma ExcludedStartAsWrittenKeepsStart()
    ensures var m := FromExcludedRangeAsWritten(ArrayMap([0, 1, 2, 3, 4, 5, 6, 7, 8, 9]), 2, 6);
            Valid(m) && Len(m) == 4 && Safe(m, 0) && Index(m, 0) == Ok([2])
  {
    var m := FromExcludedRangeAsWritten(ArrayMap([0, 1, 2, 3, 4, 5, 6, 7, 8, 9]), 2, 6);
    assert m == Bounded(ArrayMap([0, 1, 2, 3, 4, 5, 6, 7, 8, 9]), Absolute(2), Absolute(5));
  }

  /**
   * With the intended conversion `from_range(inner, (Excluded(a), Excluded(b)))`
   * keeps exactly the inner ordinals strictly between `a` and `b`.
   */
  lemma ExcludedRangeIntended(inner: IndexMap, a: U16, b: U16)
    requires Valid(inner) && a + 1 < b <= Len(inner) && Len(inner) <= MaxIndex
    ensures var m := FromExcludedRange(inner, a, b);
            Valid(m) && Len(m) == b - a - 1 &&
            (Safe(inner, a + 1) ==> Safe(m, 0) && Index(m, 0) == Index(inner, a + 1)) &&
            (Safe(inner, b - 1) ==> Safe(m, b - a - 2) && Index(m, b - a - 2) == Index(inner, b - 1))
  {
  }

  /** For the exclusive `a..b` used by `IndexingExt::bounded` both conversions agree. */
  lemma ExclusiveRangeConversionsAgree(a: U16, b: U16)
    requires 1 <= b
    ensures CoreBoundToBound(Included(a), true) == CoreBoundToBoundIntended(Included(a), true)
    ensures CoreBoundToBound(Excluded(b), false) == CoreBoundToBoundIntended(Excluded(b), false)
  {
  }

  // ---------------------------------------------------------------------------------------------
  // Properties of the algebra

  /**
   * Every level of `m` is addressable by u16 ordinals: each length is at most
   * `u16::MAX`, an EveryNth stride fits a u16, and a positive circular offset
   * added to the largest ordinal does not overflow.
   */
  ghost predicate Fits(m: IndexMap)
    requires Valid(m)
  {
    Len(m) <= MaxIndex &&
    match m
    case RangeMap(_, _) => true
    case ArrayMap(_) => true
    case Reversed(inner) => Fits(inner)
    case EveryNth(inner, n) => Fits(inner) && n <= MaxIndex
    case Circular(inner, off) => Fits(inner) && Len(inner) + off <= MaxIndex + 1
    case Bounded(inner, _, _) => Fits(inner)
    case Half(inner, _, _) => Fits(inner)
    case SplitMirrored(inner, _) => Fits(inner)
  }

  lemma StrideBelow(i: nat, n: nat, len: nat)
    requires n > 0 && i < len / n
    ensures i * n < len
  {
    assert len == (len / n) * n + len % n;
    assert i * n <= (len / n - 1) * n by {
      assert i <= len / n - 1;
    }
  }

  /** Every ordinal below `len` of a map that fits u16 maps, without panicking, to `Arity` LED ids. */
  lemma {:induction false} InDomainMapsOk(m: IndexMap, i: U16)
    requires Valid(m) && Fits(m) && i < Len(m)
    ensures Safe(m, i) && Index(m, i).Ok? && |Index(m, i).value| == Arity(m)
    decreases m, 1
  {
    match m
    case RangeMap(_, _) =>
    case ArrayMap(_) =>
    case Reversed(inner) =>
      InDomainMapsOk(inner, Len(inner) - i - 1);
    case EveryNth(inner, n) =>
      InDomainEveryNth(inner, n, i);
    case Circular(inner, off) =>
      InDomainCircular(inner, off, i);
    case Bounded(inner, front, back) =>
      InDomainBounded(inner, front, back, i);
    case Half(inner, lower, uneven) =>
      InDomainHalf(inner, lower, uneven, i);
    case SplitMirrored(inner, uneven) =>
      InDomainSplitMirrored(inner, uneven, i);
  }

  lemma {:induction false} InDomainEveryNth(inner: IndexMap, n: nat, i: U16)
    requires Valid(EveryNth(inner, n)) && Fits(EveryNth(inner, n)) && i < Len(EveryNth(inner, n))
    ensures Safe(EveryNth(inner, n), i) && Index(EveryNth(inner, n), i).Ok?
    ensures |Index(EveryNth(inner, n), i).value| == Arity(inner)
    decreases EveryNth(inner, n), 0
  {
    StrideBelow(i, n, Len(inner));
    InDomainMapsOk(inner, i * n);
  }

  lemma {:induction false} InDomainCircular(inner: IndexMap, off: int, i: U16)
    requires Valid(Circular(inner, off)) && Fits(Circular(inner, off)) && i < Len(Circular(inner, off))
    ensures Safe(Circular(inner, off), i) && Index(Circular(inner, off), i).Ok?
    ensures |Index(Circular(inner, off), i).value| == Arity(inner)
    decreases Circular(inner, off), 0
  {
    InDomainMapsOk(inner, CircularTarget(i, off, Len(inner)));
  }

  lemma {:induction false} InDomainBounded(inner: IndexMap, front: Bound, back: Bound, i: U16)
    requires Valid(Bounded(inner, front, back)) && Fits(Bounded(inner, front, back))
    requires i < Len(Bounded(inner, front, back))
    ensures Safe(Bounded(inner, front, back), i) && Index(Bounded(inner, front, back), i).Ok?
    ensures |Index(Bounded(inner, front, back), i).value| == Arity(inner)
    decreases Bounded(inner, front, back), 0
  {
    InDomainMapsOk(inner, i + FrontOff(front));
  }

  lemma {:induction false} InDomainHalf(inner: IndexMap, lower: bool, uneven: UnevenBehavior, i: U16)
    requires Valid(Half(inner, lower, uneven)) && Fits(Half(inner, lower, uneven))
    requires i < Len(Half(inner, lower, uneven))
    ensures Safe(Half(inner, lower, uneven), i) && Index(Half(inner, lower, uneven), i).Ok?
    ensures |Index(Half(inner, lower, uneven), i).value| == Arity(inner)
    decreases Half(inner, lower, uneven), 0
  {
    if lower {
      InDomainMapsOk(inner, i);
    } else {
      InDomainMapsOk(inner, i + (Len(inner) - Len(Half(inner, lower, uneven))));
    }
  }

  lemma {:induction false} InDomainSplitMirrored(inner: IndexMap, uneven: UnevenBehavior, i: U16)
    requires Valid(SplitMirrored(inner, uneven)) && Fits(SplitMirrored(inner, uneven))
    requires i < Len(SplitMirrored(inner, uneven))
    ensures Safe(SplitMirrored(inner, uneven), i) && Index(SplitMirrored(inner, uneven), i).Ok?
    ensures |Index(SplitMirrored(inner, uneven), i).value| == 2
    ensures Safe(inner, i) && Index(inner, i).Ok?
    ensures Safe(inner, Len(inner) - i - 1) && Index(inner, Len(inner) - i - 1).Ok?
    ensures Index(SplitMirrored(inner, uneven), i).value
         == Index(inner, i).value + Index(inner, Len(inner) - i - 1).value
    decreases SplitMirrored(inner, uneven), 0
  {
    InDomainMapsOk(inner, i);
    InDomainMapsOk(inner, Len(inner) - i - 1);
  }

  /** The base map (a `Range<u16>` or an LED array) at the bottom of `m`. */
  function Base(m: IndexMap): (b: IndexMap)
    ensures b.RangeMap? || b.ArrayMap?
  {
    match m
    case RangeMap(_, _) => m
    case ArrayMap(_) => m
    case Reversed(inner) => Base(inner)
    case EveryNth(inner, _) => Base(inner)
    case Circular(inner, _) => Base(inner)
    case Bounded(inner, _, _) => Base(inner)
    case Half(inner, _, _) => Base(inner)
    case SplitMirrored(inner, _) => Base(inner)
  }

  /** `id` is one of the LEDs the base map `b` names. */
  predicate InBase(b: IndexMap, id: LedId)
    requires b.RangeMap? || b.ArrayMap?
  {
    if b.RangeMap? then b.start <= id < b.end else id in b.ids
  }

  /** All ids of `r`, when it is `Ok`, are LEDs of the base map `b`. */
  predicate AllInBase(b: IndexMap, r: Result<seq<LedId>>)
    requires b.RangeMap? || b.ArrayMap?
  {
    r.Ok? ==> forall k :: 0 <= k < |r.value| ==> InBase(b, r.value[k])
  }

  /** Combinators only select and reorder: every LED id they produce is one of the base map's. */
  lemma {:induction false} IndexWithinBase(m: IndexMap, i: U16)
    requires Valid(m) && Safe(m, i)
    ensures AllInBase(Base(m), Index(m, i))
    decreases m, 1
  {
    match m
    case RangeMap(_, _) =>
    case ArrayMap(_) =>
    case Reversed(inner) =>
      IndexWithinBase(inner, Len(inner) - i - 1);
    case EveryNth(inner, n) =>
      IndexWithinBase(inner, i * n);
    case Circular(inner, off) =>
      WithinBaseCircular(inner, off, i);
    case Bounded(inner, front, back) =>
      WithinBaseBounded(inner, front, back, i);
    case Half(inner, lower, uneven) =>
      WithinBaseHalf(inner, lower, uneven, i);
    case SplitMirrored(inner, uneven) =>
      WithinBaseSplitMirrored(inner, uneven, i);
  }

  lemma {:induction false} WithinBaseCircular(inner: IndexMap, off: int, i: U16)
    requires Valid(Circular(inner, off)) && Safe(Circular(inner, off), i)
    ensures AllInBase(Base(inner), Index(Circular(inner, off), i))
    decreases Circular(inner, off), 0
  {
    if i < Len(inner) {
      IndexWithinBase(inner, CircularTarget(i, off, Len(inner)));
    }
  }

  lemma {:induction false} WithinBaseBounded(inner: IndexMap, front: Bound, back: Bound, i: U16)
    requires Valid(Bounded(inner, front, back)) && Safe(Bounded(inner, front, back), i)
    ensures AllInBase(Base(inner), Index(Bounded(inner, front, back), i))
    decreases Bounded(inner, front, back), 0
  {
    var m := Bounded(inner, front, back);
    if Len(m) <= MaxIndex && i < Len(m) {
      IndexWithinBase(inner, i + FrontOff(front));
    }
  }

  lemma {:induction false} WithinBaseHalf(inner: IndexMap, lower: bool, uneven: UnevenBehavior, i: U16)
    requires Valid(Half(inner, lower, uneven)) && Safe(Half(inner, lower, uneven), i)
    ensures AllInBase(Base(inner), Index(Half(inner, lower, uneven), i))
    decreases Half(inner, lower, uneven), 0
  {
    if lower {
      IndexWithinBase(inner, i);
    } else {
      IndexWithinBase(inner, i + (Len(inner) - Len(Half(inner, lower, uneven))));
    }
  }

  lemma {:induction false} WithinBaseSplitMirrored(inner: IndexMap, uneven: UnevenBehavior, i: U16)
    requires Valid(SplitMirrored(inner, uneven)) && Safe(SplitMirrored(inner, uneven), i)
    ensures AllInBase(Base(inner), Index(SplitMirrored(inner, uneven), i))
    decreases SplitMirrored(inner, uneven), 0
  {
    if i < Len(SplitMirrored(inner, uneven)) {
      IndexWithinBase(inner, i);
      if Index(inner, i).Ok? {
        IndexWithinBase(inner, Len(inner) - i - 1);
      }
    }
  }

  /** A range `a..b` maps ordinal `i` to LED `a + i` exactly when that is below `b`, also on overflow. */
  lemma RangeMapsOrdinals(a: U16, b: U16, i: U16)
    ensures Len(RangeMap(a, b)) == if a < b then b - a else 0
    ensures Index(RangeMap(a, b), i).Ok? <==> i < Len(RangeMap(a, b))
    ensures Index(RangeMap(a, b), i).Ok? ==> Index(RangeMap(a, b), i).value == [a + i]
    ensures Index(RangeMap(a, b), i).Err? ==> Index(RangeMap(a, b), i).error == NotInMappingRange
  {
  }

  /** Reversing twice gives back the original mapping on every in-domain ordinal. */
  lemma ReversedTwice(m: IndexMap, i: U16)
    requires Valid(m) && Len(m) <= MaxIndex && i < Len(m)
    ensures Len(Reversed(Reversed(m))) == Len(m)
    ensures Safe(m, i) ==> Safe(Reversed(Reversed(m)), i) && Index(Reversed(Reversed(m)), i) == Index(m, i)
  {
  }

  /** A reversed map's first ordinal is the inner map's last, and its last the inner map's first. */
  lemma ReversedEnds(m: IndexMap)
    requires Valid(m) && Fits(m) && Len(m) > 0
    ensures Safe(Reversed(m), 0) && Index(Reversed(m), 0) == Index(m, Len(m) - 1)
    ensures Safe(Reversed(m), Len(m) - 1) && Index(Reversed(m), Len(m) - 1) == Index(m, 0)
  {
    InDomainMapsOk(m, Len(m) - 1);
    InDomainMapsOk(m, 0);
  }

  /** EveryNth keeps the inner ordinals `0, n, 2n, ..`; the in-domain ones lie below the inner length. */
  lemma EveryNthStrides(inner: IndexMap, n: nat, i: U16)
    requires Valid(EveryNth(inner, n)) && Fits(EveryNth(inner, n)) && i < Len(EveryNth(inner, n))
    ensures i * n < Len(inner)
    ensures Safe(EveryNth(inner, n), i) && Index(EveryNth(inner, n), i) == Index(inner, i * n)
  {
    StrideBelow(i, n, Len(inner));
    InDomainEveryNth(inner, n, i);
  }

  /** Euclidean division has one quotient and remainder. */
  lemma ModUnique(x: int, n: int, q: int, rem: int)
    requires n > 0 && 0 <= rem < n && x == q * n + rem
    ensures x % n == rem
  {
    var q' := x / n;
    var r' := x % n;
    assert (q - q') * n == r' - rem;
    if q - q' >= 1 {
      MulAtLeast(q - q', n);
    } else if q' - q >= 1 {
      MulAtLeast(q' - q, n);
    }
  }

  lemma MulAtLeast(d: int, n: int)
    requires d >= 1 && n > 0
    ensures d * n >= n
  {
    assert d * n == (d - 1) * n + n;
  }

  /** The ordinal a circular map forwards to is `(i + offset) mod len`, the mathematical remainder. */
  lemma CircularIsRotation(i: nat, off: int, len: nat)
    requires i < len && Abs(off) < len
    ensures CircularTarget(i, off, len) == (i + off) % len
  {
    if i + off < 0 {
      assert (i + off) + len == len - Abs(i + off);
      ModUnique(i + off, len, -1, (i + off) + len);
    }
  }

  /** The circular target is the shifted ordinal, moved by at most one full turn. */
  lemma CircularTargetShift(i: nat, off: int, len: nat)
    requires i < len && Abs(off) < len
    ensures var t := CircularTarget(i, off, len);
            t == i + off || t == i + off + len || t == i + off - len
  {
    var x := i + off;
    if 0 <= x {
      if x < len {
        ModUnique(x, len, 0, x);
      } else {
        ModUnique(x, len, 1, x - len);
      }
    }
  }

  /** Two distinct ordinals of a circular map forward to distinct inner ordinals. */
  lemma CircularInjective(i: nat, j: nat, off: int, len: nat)
    requires i < len && j < len && Abs(off) < len && i != j
    ensures CircularTarget(i, off, len) != CircularTarget(j, off, len)
  {
    CircularTargetShift(i, off, len);
    CircularTargetShift(j, off, len);
  }

  /** Ordinals at or past the length of a circular map are `IndexOutOfBounds`. */
  lemma CircularOutOfBounds(inner: IndexMap, off: int, i: U16)
    requires Valid(Circular(inner, off)) && Len(inner) <= MaxIndex && i >= Len(inner)
    ensures Safe(Circular(inner, off), i) && Index(Circular(inner, off), i) == Err(IndexOutOfBounds)
  {
  }

  /**
   * A bounded map is the window of inner ordinals from `front_off` to
   * `len - end_off`: in-domain ordinals shift by `front_off`, and every other
   * ordinal is `NotInMappingRange`.
   */
  lemma BoundedWindow(inner: IndexMap, front: Bound, back: Bound, i: U16)
    requires Valid(Bounded(inner, front, back)) && Fits(Bounded(inner, front, back))
    ensures var m := Bounded(inner, front, back);
            Len(m) == Len(inner) - FrontOff(front) - EndOff(Len(inner), back) &&
            Safe(m, i) &&
            (i < Len(m) ==> i + FrontOff(front) < Len(inner) - EndOff(Len(inner), back) &&
                            Index(m, i) == Index(inner, i + FrontOff(front)) && Index(m, i).Ok?) &&
            (i >= Len(m) ==> Index(m, i) == Err(NotInMappingRange))
  {
    if i < Len(Bounded(inner, front, back)) {
      InDomainMapsOk(Bounded(inner, front, back), i);
    }
  }

  /** `from_range(inner, a..b)` maps its ordinal `k` like inner ordinal `a + k`, and has `b - a` ordinals. */
  lemma FromRangeSlice(inner: IndexMap, a: U16, b: U16, k: U16)
    requires Valid(inner) && Fits(inner) && 1 <= b && a <= b <= Len(inner)
    ensures var m := FromRange(inner, a, b);
            Len(m) == b - a && Safe(m, k) &&
            (k < b - a ==> Index(m, k) == Index(inner, a + k) && Index(m, k).Ok?) &&
            (k >= b - a ==> Index(m, k) == Err(NotInMappingRange))
  {
    BoundedWindow(inner, Absolute(a), Absolute(b - 1), k);
  }

  /**
   * A split-mirrored map sends ordinal `i` to the pair of the inner map's `i`-th
   * LED and its mirror image `n - 1 - i`, front first. The two coincide only for
   * the middle LED of an odd-length inner map when it is not excluded.
   */
  lemma SplitMirroredPairs(inner: IndexMap, uneven: UnevenBehavior, i: U16)
    requires Valid(SplitMirrored(inner, uneven)) && Fits(SplitMirrored(inner, uneven))
    ensures var m := SplitMirrored(inner, uneven);
            var n := Len(inner);
            Safe(m, i) &&
            (i < Len(m) ==>
              i <= n - 1 - i && Index(inner, i).Ok? && Index(inner, n - 1 - i).Ok? &&
              Index(m, i) == Ok(Index(inner, i).value + Index(inner, n - 1 - i).value) &&
              (i == n - 1 - i <==> n % 2 == 1 && uneven != Exclude && i == Len(m) - 1)) &&
            (i >= Len(m) ==> Index(m, i) == Err(NotInMappingRange))
  {
    if i < Len(SplitMirrored(inner, uneven)) {
      InDomainSplitMirrored(inner, uneven, i);
    }
  }

  /** Ordinal `k` is in `a`'s index domain and maps to `leds`. */
  ghost predicate MapsTo(a: IndexMap, k: int, leds: Result<seq<LedId>>)
    requires Valid(a)
  {
    0 <= k <= MaxIndex && Safe(a, k) && Index(a, k) == leds
  }

  /**
   * The two halves of `divided_indexing` together cover every inner ordinal
   * except the middle one of an odd length under `Exclude`: the lower half maps
   * `j` like the inner map, the upper half maps `j - (n - upper_len)` like inner `j`.
   */
  lemma HalvesCover(m: IndexMap, uneven: UnevenBehavior, j: U16)
    requires Valid(m) && Fits(m) && j < Len(m)
    requires !(Len(m) % 2 == 1 && uneven == Exclude && j == Len(m) / 2)
    ensures Safe(m, j)
    ensures var leds := Index(m, j);
            var (lo, hi) := DividedIndexing(m, uneven);
            var start := Len(m) - Len(hi);
            if j < Len(lo) then MapsTo(lo, j, leds) else start <= j && MapsTo(hi, j - start, leds)
  {
    InDomainMapsOk(m, j);
    var (lo, hi) := DividedIndexing(m, uneven);
    var start := Len(m) - Len(hi);
    if j < Len(lo) {
      LowerHalfIndex(m, uneven, j);
    } else {
      UpperHalfIndex(m, uneven, j - start, j);
    }
  }

  /** The lower half maps ordinal `j` exactly like the map it halves. */
  lemma LowerHalfIndex(m: IndexMap, uneven: UnevenBehavior, j: U16)
    requires Valid(m) && Safe(m, j) && j < HalfLen(Len(m), true, uneven)
    ensures MapsTo(Half(m, true, uneven), j, Index(m, j))
  {
    assert Index(Half(m, true, uneven), j) == HalfIndex(Half(m, true, uneven), j);
  }

  /** The upper half maps ordinal `k` like the map it halves maps `k` plus the lower length. */
  lemma UpperHalfIndex(m: IndexMap, uneven: UnevenBehavior, k: U16, j: U16)
    requires Valid(m) && Safe(m, j) && j < Len(m) && j == k + (Len(m) - HalfLen(Len(m), false, uneven))
    ensures MapsTo(Half(m, false, uneven), k, Index(m, j))
  {
    assert Index(Half(m, false, uneven), k) == HalfIndex(Half(m, false, uneven), k);
  }

  // Examples from the crate's tests

  lemma BoundedExampleRelativeEnd()
    ensures var b := Bounded(ArrayMap([0, 1, 2, 3, 4, 5, 6, 7, 8]), NoBound, Relative(2));
            Valid(b) && Len(b) == 7 && Index(b, 0) == Ok([0]) && Index(b, 6) == Ok([6]) &&
            Index(b, 7) == Err(NotInMappingRange)
  {
  }

  lemma BoundedExampleBothBounds()
    ensures var b := Bounded(ArrayMap([0, 1, 2, 3, 4, 5, 6, 7, 8]), Absolute(2), Relative(2));
            Valid(b) && Len(b) == 5 && Index(b, 0) == Ok([2]) && Index(b, 4) == Ok([6]) &&
            Index(b, 5) == Err(NotInMappingRange)
  {
  }

  lemma BoundedExampleAbsoluteEnd()
    ensures var b := Bounded(ArrayMap([0, 1, 2, 3, 4, 5, 6, 7, 8]), Absolute(2), Absolute(4));
            Valid(b) && Len(b) == 3 && Index(b, 0) == Ok([2]) && Index(b, 2) == Ok([4]) &&
            Index(b, 5) == Err(NotInMappingRange)
  {
  }

  lemma BoundedExampleFromRange()
    ensures var b := FromRange(ArrayMap([0, 1, 2, 3, 4, 5, 6, 7, 8]), 2, 7);
            Valid(b) && Len(b) == 5 && Index(b, 0) == Ok([2]) && Index(b, 4) == Ok([6]) &&
            Index(b, 5) == Err(NotInMappingRange)
  {
  }

  lemma SplitMirroredExampleEven()
    ensures var s := SplitMirrored(ArrayMap([0, 1, 2, 3, 4, 5, 6, 7, 8, 9]), Exclude);
            Valid(s) && Len(s) == 5 && Index(s, 0) == Ok([0, 9]) && Index(s, 4) == Ok([4, 5])
  {
  }

  lemma SplitMirroredExampleOddExcluded()
    ensures var s := SplitMirrored(ArrayMap([0, 1, 2, 3, 4, 5, 6, 7, 8]), Exclude);
            Valid(s) && Len(s) == 4 && Index(s, 0) == Ok([0, 8]) && Index(s, 3) == Ok([3, 5]) &&
            Index(s, 4) == Err(NotInMappingRange)
  {
  }

  lemma SplitMirroredExampleOddKept()
    ensures var s := SplitMirrored(ArrayMap([0, 1, 2, 3, 4, 5, 6, 7, 8]), ToLower);
            Valid(s) && Index(s, 4) == Ok([4, 4])
    ensures var s := SplitMirrored(ArrayMap([0, 1, 2, 3, 4, 5, 6, 7, 8]), ToUpper);
            Valid(s) && Index(s, 4) == Ok([4, 4])
  {
  }

  lemma ExtTraitMirroredExample()
    ensures var a := ArrayMap([0, 1, 2, 3, 4, 5, 6, 7, 8, 9]);
            var (h1, h2) := DividedIndexing(a, Exclude);
            var mirrored := SplitMirrored(h1, ToLower);
            Len(h1) == 5 && Len(h2) == 5 && Valid(mirrored) && Len(mirrored) == 3 &&
            Index(mirrored, 0) == Ok([0, 4]) && Index(mirrored, 2) == Ok([2, 2]) &&
            Index(Reversed(mirrored), 0) == Ok([2, 2]) && Index(Reversed(mirrored), 2) == Ok([0, 4])
  {
  }

  lemma ExtTraitReversedExample()
    ensures var a := ArrayMap([0, 1, 2, 3, 4, 5, 6, 7, 8, 9]);
            var h2 := DividedIndexing(a, Exclude).1;
            Len(Reversed(h2)) == 5 && Index(Reversed(h2), 0) == Ok([9]) && Index(Reversed(h2), 4) == Ok([5])
  {
  }

  lemma CircularExamples()
    ensures var a := ArrayMap([0, 1, 2, 3, 4, 5, 6, 7, 8]);
            Valid(Circular(a, 2)) && Index(Circular(a, 2), 0) == Ok([2]) && Index(Circular(a, 2), 8) == Ok([1]) &&
            Valid(Circular(a, -2)) && Index(Circular(a, -2), 0) == Ok([7]) && Index(Circular(a, -2), 8) == Ok([6])
  {
  }

  // ---------------------------------------------------------------------------------------------
  // The iterators `index` returns

  /** `SingleIndexed`: yields its one LED id once, then `None`. */
  class SingleIndexed {
    const index: LedId
    var called: bool

    constructor (index: LedId)
      ensures this.index == index && !called
    {
      this.index := index;
      called := false;
    }

    /** The ids still to come. */
    function Remaining(): (r: seq<LedId>)
      reads this
      ensures |r| <= 1
    {
      if called then [] else [index]
    }

    method Next() returns (r: Option<LedId>)
      modifies this
      ensures old(Remaining()) == [] ==> r == None && Remaining() == []
      ensures old(Remaining()) != [] ==> r == Some(old(Remaining())[0]) && Remaining() == old(Remaining())[1..]
    {
      if called {
        r := None;
      } else {
        called := true;
        r := Some(index);
      }
    }
  }

  /** `ManyIndexed<N>`: yields its N LED ids in array order, then `None`. */
  class ManyIndexed {
    const indexes: seq<LedId>
    var index: nat

    constructor (indexes: seq<LedId>)
      ensures this.indexes == indexes && index == 0
    {
      this.indexes := indexes;
      index := 0;
    }

    /** The ids still to come. */
    function Remaining(): (r: seq<LedId>)
      reads this
      ensures |r| <= |indexes|
      ensures index <= |indexes| ==> r == indexes[index..]
    {
      if index <= |indexes| then indexes[index..] else []
    }

    method Next() returns (r: Option<LedId>)
      modifies this
      ensures index == if old(index) < |indexes| then old(index) + 1 else old(index)
      ensures old(Remaining()) == [] ==> r == None && Remaining() == []
      ensures old(Remaining()) != [] ==> r == Some(old(Remaining())[0]) && Remaining() == old(Remaining())[1..]
    {
      if |indexes| > index {
        var i := index;
        index := index + 1;
        r := Some(indexes[i]);
      } else {
        r := None;
      }
    }
  }

  /** Drains a `ManyIndexed` of length N: exactly its ids in order, then `None`. */
  method DrainMany(it: ManyIndexed) returns (out: seq<LedId>, last: Option<LedId>)
    requires it.index == 0
    modifies it
    ensures out == it.indexes && last == None
  {
    out := [];
    var next := it.Next();
    while next.Some?
      invariant it.index <= |it.indexes|
      invariant next.Some? ==> 1 <= it.index && out == it.indexes[..it.index - 1] && next.value == it.indexes[it.index - 1]
      invariant next.None? ==> out == it.indexes
      decreases |it.indexes| - it.index + (if next.Some? then 1 else 0)
    {
      assert it.indexes[..it.index - 1] + [it.indexes[it.index - 1]] == it.indexes[..it.index];
      out := out + [next.value];
      next := it.Next();
      if next.None? {
        assert it.indexes[..it.index] == it.indexes;
      }
    }
    last := next;
  }
}
