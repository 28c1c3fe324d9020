/**
 * `StaticAnimation` of src/animation/static_animation.rs: fades every LED of
 * an index map from its colour on the strip to one target colour.
 *
 * On its first `animate` the animation offers every mapped LED, with its
 * strip colour, to a colour cache of its own. The cache keeps one colour
 * only, so every LED fades from the strip colour of the first mapped LED.
 * The `SingleBatchIterator` it returns then yields one colouring per mapped
 * LED, in order.
 *
 * The colour curve (`calculate_with_curve`) is the `CurveFn` parameter.
 */
module StaticAnimation {
  import opened Wrappers
  import opened Indexing
  import opened Color
  import opened Curve
  import opened Strip
  import opened Animation
  import opened ColorCache

  /** Every ordinal that maps yields at least one LED id. */
  lemma ArityPositive(m: IndexMap)
    ensures Arity(m) >= 1
  {
  }

  /** `range.index(i).unwrap().next().unwrap()`: the first LED id ordinal `i` maps to. */
  function LedAt(range: IndexMap, i: U16): LedId
    requires Indexing.Valid(range) && Fits(range) && i < Len(range)
  {
    InDomainMapsOk(range, i);
    ArityPositive(range);
    Index(range, i).value[0]
  }

  /** The LEDs the animation colours, in the order of their ordinals `0..range.len()`. */
  function MappedLeds(range: IndexMap): (leds: seq<LedId>)
    requires Indexing.Valid(range) && Fits(range)
    ensures |leds| == Len(range)
    ensures forall i :: 0 <= i < |leds| ==> leds[i] == LedAt(range, i)
  {
    seq(Len(range), i requires 0 <= i < Len(range) => LedAt(range, i))
  }

  /** The colourings still to come from ordinal `from` on, every LED in colour `c`. */
  function Emitted(range: IndexMap, from: nat, c: HsvColor): (cs: seq<LedColoring>)
    requires Indexing.Valid(range) && Fits(range) && from <= Len(range)
    ensures |cs| == Len(range) - from
    ensures forall k :: 0 <= k < |cs| ==> cs[k].led == MappedLeds(range)[from + k] && cs[k].color == c
  {
    seq(Len(range) - from, k requires 0 <= k < Len(range) - from => LedColoring(LedAt(range, from + k), c))
  }

  /** The first colouring from ordinal `i` is the LED at `i`; the rest start at `i + 1`. */
  lemma EmittedStep(range: IndexMap, i: nat, c: HsvColor)
    requires Indexing.Valid(range) && Fits(range) && i < Len(range)
    ensures Emitted(range, i, c) == [LedColoring(LedAt(range, i), c)] + Emitted(range, i + 1, c)
  {
    var cs := Emitted(range, i, c);
    assert cs[0].led == MappedLeds(range)[i];
    assert cs[1..] == Emitted(range, i + 1, c);
  }

  // ---------------------------------------------------------------------------------------------
  // Seeding the cache

  /** The lists after `cache_color(led, ..)`: unchanged for a cached LED, else `led` is added. */
  ghost function Offer(st: Store, led: LedId): Store
    requires led !in Leds(st) ==> CacheLedSafe(st, led)
  {
    if led in Leds(st) then st else CacheLedSpec(st, led)
  }

  /** Offering `leds` one after another to lists `st` does not panic. */
  ghost predicate SeedOk(st: Store, leds: seq<LedId>)
    decreases |leds|
  {
    leds == [] ||
    ((leds[0] !in Leds(st) ==> CacheLedSafe(st, leds[0])) && SeedOk(Offer(st, leds[0]), leds[1..]))
  }

  /** The lists after offering `leds` one after another to lists `st`. */
  ghost function Seed(st: Store, leds: seq<LedId>): Store
    requires SeedOk(st, leds)
    decreases |leds|
  {
    if leds == [] then st else Seed(Offer(st, leds[0]), leds[1..])
  }

  /** The bucket colour after offering `leds` with their strip colours: the first colour offered wins. */
  function SeedBucket(bucket: Option<HsvColor>, leds: seq<LedId>, strip: StripState): (b: Option<HsvColor>)
    ensures leds != [] ==> b.Some?
    ensures bucket.Some? ==> b == bucket
  {
    if bucket.Some? || leds == [] then bucket else Some(GetColorOfLed(strip, leds[0]))
  }

  /** Seeding keeps the lists well formed, and afterwards they hold exactly the LEDs held before and those offered. */
  lemma {:induction false} SeedCachesAll(st: Store, leds: seq<LedId>)
    requires Inv(st) && SeedOk(st, leds)
    ensures Inv(Seed(st, leds))
    ensures Leds(Seed(st, leds)) == Leds(st) + set l | l in leds
    decreases |leds|
  {
    if leds != [] {
      if leds[0] !in Leds(st) {
        CacheLedAddsLed(st, leds[0]);
      }
      SeedCachesAll(Offer(st, leds[0]), leds[1..]);
      assert (set l | l in leds) == {leds[0]} + set l | l in leds[1..];
    }
  }

  /** The empty lists hold no LED. */
  lemma EmptyStoreHoldsNothing()
    ensures Inv(Store([], [])) && Leds(Store([], [])) == {}
  {
    assert RangesLeds([]) == {};
  }

  /** The LED ids `a, .., b - 1`. */
  function Run(a: LedId, b: LedId): (leds: seq<LedId>)
    requires a <= b
  {
    seq(b - a, i requires 0 <= i < b - a => a + i)
  }

  /** A plain range `a..b` colours the LEDs `a, .., b - 1` in order. */
  lemma RangeMapLeds(a: LedId, b: LedId)
    requires a <= b
    ensures MappedLeds(RangeMap(a, b)) == Run(a, b)
  {
    var leds := MappedLeds(RangeMap(a, b));
    forall i | 0 <= i < b - a
      ensures leds[i] == a + i
    {
      assert Index(RangeMap(a, b), i) == Ok([a + i]);
    }
  }

  /** Offering `k, .., b - 1` to a bucket holding the single range `a..k` grows that range to `a..b`. */
  lemma {:induction false} SeedExtends(a: LedId, k: LedId, b: LedId)
    requires a + 2 <= k <= b
    ensures SeedOk(Store([LedRange(a, k)], []), Run(k, b))
    ensures Seed(Store([LedRange(a, k)], []), Run(k, b)) == Store([LedRange(a, b)], [])
    decreases b - k
  {
    var st := Store([LedRange(a, k)], []);
    if k < b {
      var leds := Run(k, b);
      assert leds[0] == k && leds[1..] == Run(k + 1, b);
      assert !Covers(st.ranges, k);
      assert k !in Leds(st);
      assert FindRangeToExtend(st.ranges, k) == Some((0, false));
      assert Offer(st, k) == Store([LedRange(a, k + 1)], []);
      SeedExtends(a, k + 1, b);
    } else {
      assert Run(k, b) == [];
    }
  }

  /**
   * Seeding an empty cache from a plain range of at least two LEDs leaves one
   * range covering exactly it: the first LED becomes a single, the second
   * groups with it into a range, and every further LED extends that range.
   */
  lemma SeedRangeMap(a: LedId, b: LedId)
    requires a + 2 <= b
    ensures SeedOk(Store([], []), MappedLeds(RangeMap(a, b)))
    ensures Seed(Store([], []), MappedLeds(RangeMap(a, b))) == Store([LedRange(a, b)], [])
  {
    RangeMapLeds(a, b);
    var leds := Run(a, b);
    assert leds[0] == a && leds[1..][0] == a + 1 && leds[1..][1..] == Run(a + 2, b);
    SeedFirstTwo(a);
    SeedExtends(a, a + 2, b);
    var st1, st2 := Store([], [a]), Store([LedRange(a, a + 2)], []);
    var rest := leds[1..];
    assert SeedOk(st1, rest) && Seed(st1, rest) == Seed(st2, rest[1..]);
    assert SeedOk(Store([], []), leds) && Seed(Store([], []), leds) == Seed(st1, rest);
  }

  /** The first LED offered to an empty cache becomes a single; its successor then groups with it into a range. */
  lemma SeedFirstTwo(a: LedId)
    requires a + 2 <= MaxIndex
    ensures a !in Leds(Store([], [])) && Offer(Store([], []), a) == Store([], [a])
    ensures a + 1 !in Leds(Store([], [a])) && CacheLedSafe(Store([], [a]), a + 1)
    ensures Offer(Store([], [a]), a + 1) == Store([LedRange(a, a + 2)], [])
  {
    EmptyStoreHoldsNothing();
    var st1 := Store([], [a]);
    assert Offer(Store([], []), a) == st1;
    assert a + 1 !in Leds(st1) by {
      assert !Covers(st1.ranges, a + 1);
    }
    assert FindAdjacentSingle([a], a + 1) == Some((0, false));
  }

  /**
   * The example of `switch_leds_on`: the range `0..6` colours LEDs 0 to 5 in
   * order.
   */
  lemma SwitchLedsOnExample(c: HsvColor)
    ensures MappedLeds(RangeMap(0, 6)) == [0, 1, 2, 3, 4, 5]
    ensures Emitted(RangeMap(0, 6), 0, c) ==
            [LedColoring(0, c), LedColoring(1, c), LedColoring(2, c), LedColoring(3, c), LedColoring(4, c), LedColoring(5, c)]
  {
    RangeMapLeds(0, 6);
    assert Run(0, 6) == [0, 1, 2, 3, 4, 5];
  }

  /** Seeding an empty cache with the LEDs of `switch_leds_on` leaves a single range `0..6`. */
  lemma SwitchLedsOnSeedExample()
    ensures SeedOk(Store([], []), [0, 1, 2, 3, 4, 5])
    ensures Seed(Store([], []), [0, 1, 2, 3, 4, 5]) == Store([LedRange(0, 6)], [])
  {
    RangeMapLeds(0, 6);
    assert Run(0, 6) == [0, 1, 2, 3, 4, 5];
    SeedRangeMap(0, 6);
  }

  // ---------------------------------------------------------------------------------------------
  // The animation and its iterator

  /**
   * What an animation's cache can hold: nothing and no bucket before the
   * first `animate`, and afterwards a bucket and exactly the mapped LEDs.
   */
  ghost predicate SeedState(range: IndexMap, bucket: Option<HsvColor>, cached: set<LedId>) {
    (cached == {} && bucket == None) ||
    (Indexing.Valid(range) && Fits(range) && Len(range) > 0 && bucket.Some? &&
     cached == set l | l in MappedLeds(range))
  }

  /** What an iterator at ordinal `index` needs: every LED still to come is cached under an existing bucket. */
  ghost predicate IterReady(range: IndexMap, index: nat, bucket: Option<HsvColor>, cached: set<LedId>) {
    Indexing.Valid(range) && Fits(range) && index <= Len(range) &&
    (index < Len(range) ==> bucket.Some?) &&
    forall i :: index <= i < Len(range) ==> MappedLeds(range)[i] in cached
  }

  /** A cache that holds nothing has not been seeded, so it has no bucket either. */
  lemma UnseededHasNoBucket(range: IndexMap, bucket: Option<HsvColor>, cached: set<LedId>)
    requires SeedState(range, bucket, cached) && cached == {}
    ensures bucket == None
  {
    if Indexing.Valid(range) && Fits(range) && Len(range) > 0 {
      var leds := MappedLeds(range);
      var all := set l | l in leds;
      assert leds[0] in all && leds[0] !in cached;
    }
  }

  /** Seeding an empty cache from the mapped LEDs reaches a seeded state. */
  lemma SeedingReachesSeedState(range: IndexMap, strip: StripState)
    requires Indexing.Valid(range) && Fits(range) && SeedOk(Store([], []), MappedLeds(range))
    ensures var leds := MappedLeds(range);
            SeedState(range, SeedBucket(None, leds, strip), Leds(Seed(Store([], []), leds)))
  {
    EmptyStoreHoldsNothing();
    SeedCachesAll(Store([], []), MappedLeds(range));
  }

  /** Once the bucket exists, or the range is empty, an iterator can start from ordinal 0 over the range. */
  lemma SeedStateReady(range: IndexMap, bucket: Option<HsvColor>, cached: set<LedId>)
    requires Indexing.Valid(range) && Fits(range) && SeedState(range, bucket, cached)
    requires Len(range) > 0 ==> bucket.Some?
    ensures IterReady(range, 0, bucket, cached)
  {
  }

  /** `StaticAnimation`: duration, index map, target colour, curve and a colour cache of its own. */
  class StaticAnimation {
    const duration: U32
    const range: IndexMap
    const to: HsvColor
    const curve: Curve
    const fadeCache: ColorCache

    /** `StaticAnimation::new`: a fresh, empty colour cache. */
    constructor (duration: U32, range: IndexMap, to: HsvColor, curve: Curve)
      ensures this.duration == duration && this.range == range && this.to == to && this.curve == curve
      ensures fresh(fadeCache) && fresh(fadeCache.Repr)
      ensures fadeCache.Cached() == {} && fadeCache.BucketColor() == None
      ensures Valid()
    {
      this.duration := duration;
      this.range := range;
      this.to := to;
      this.curve := curve;
      fadeCache := new ColorCache();
    }

    /**
     * The cache is either untouched (no bucket, nothing cached) or seeded:
     * it has a bucket and holds exactly the mapped LEDs.
     */
    ghost predicate Valid()
      reads this, fadeCache, fadeCache.Repr
    {
      fadeCache.Valid() && SeedState(range, fadeCache.BucketColor(), fadeCache.Cached())
    }

    /** `duration` */
    function Duration(): (d: U32)
      reads this
      ensures d == duration
    {
      duration
    }

    /**
     * `animate`: when the cache is empty, every mapped LED is offered to it
     * with its colour on `strip`, in ordinal order, so the bucket takes the
     * strip colour of the first mapped LED. The iterator yields every mapped
     * LED in order, coloured by the curve from the bucket colour towards `to`.
     */
    method Animate(currentTick: U32, strip: StripState, curveFn: CurveFn) returns (it: SingleBatchIterator)
      requires Valid() && Indexing.Valid(range) && Fits(range)
      requires fadeCache.Cached() == {} ==> SeedOk(Store([], []), MappedLeds(range))
      modifies fadeCache.Repr
      ensures Valid() && fresh(fadeCache.Repr - old(fadeCache.Repr))
      ensures old(fadeCache.Cached()) == {} ==>
                fadeCache.Lists() == Seed(Store([], []), MappedLeds(range)) &&
                fadeCache.BucketColor() == SeedBucket(None, MappedLeds(range), strip)
      ensures old(fadeCache.Cached()) != {} ==> fadeCache.View() == old(fadeCache.View())
      ensures fresh(it) && it.Valid() && it.fadeCache == fadeCache
      ensures it.range == range && it.toColor == to && it.duration == duration && it.curve == curve
      ensures it.currentTick == currentTick && it.curveFn == curveFn && it.index == 0
      ensures Len(range) > 0 ==>
                fadeCache.BucketColor().Some? &&
                it.Remaining() == Emitted(range, 0, curveFn(curve, duration, fadeCache.BucketColor().value, to, currentTick))
    {
      var size := fadeCache.CacheSize();
      if size == 0 {
        UnseededHasNoBucket(range, fadeCache.BucketColor(), fadeCache.Cached());
        SeedAll(strip);
        SeedingReachesSeedState(range, strip);
      }
      SeedStateReady(range, fadeCache.BucketColor(), fadeCache.Cached());
      it := new SingleBatchIterator(range, to, duration, curve, fadeCache, currentTick, curveFn);
    }

    /** The `for i in 0..self.range.len()` loop of `animate`, on an empty cache. */
    method SeedAll(strip: StripState)
      requires fadeCache.Valid() && Indexing.Valid(range) && Fits(range)
      requires fadeCache.Lists() == Store([], []) && fadeCache.BucketColor() == None
      requires SeedOk(Store([], []), MappedLeds(range))
      modifies fadeCache.Repr
      ensures fadeCache.Valid() && fresh(fadeCache.Repr - old(fadeCache.Repr))
      ensures fadeCache.Lists() == Seed(Store([], []), MappedLeds(range))
      ensures fadeCache.BucketColor() == SeedBucket(None, MappedLeds(range), strip)
    {
      ghost var leds := MappedLeds(range);
      var i: nat := 0;
      while i < Len(range)
        invariant i <= Len(range)
        invariant fadeCache.Valid() && fresh(fadeCache.Repr - old(fadeCache.Repr))
        invariant SeedOk(fadeCache.Lists(), leds[i..])
        invariant Seed(fadeCache.Lists(), leds[i..]) == Seed(Store([], []), leds)
        invariant fadeCache.BucketColor() == if i == 0 then None else Some(GetColorOfLed(strip, leds[0]))
      {
        var ledIdx := LedAt(range, i);
        SeedUnfold(fadeCache.Lists(), leds, i);
        var _ := fadeCache.CacheColor(ledIdx, GetColorOfLed(strip, ledIdx));
        i := i + 1;
      }
      assert leds[i..] == [];
    }
  }

  /** Offering the `i`-th of `leds` is the first step of offering `leds[i..]`. */
  lemma SeedUnfold(st: Store, leds: seq<LedId>, i: nat)
    requires i < |leds| && SeedOk(st, leds[i..])
    ensures leds[i] !in Leds(st) ==> CacheLedSafe(st, leds[i])
    ensures SeedOk(Offer(st, leds[i]), leds[i + 1..])
    ensures Seed(Offer(st, leds[i]), leds[i + 1..]) == Seed(st, leds[i..])
  {
    assert leds[i..][0] == leds[i] && leds[i..][1..] == leds[i + 1..];
  }

  /** `SingleBatchIterator`: walks the ordinals of the range, colouring each LED from the cached colour. */
  class SingleBatchIterator {
    const range: IndexMap
    const toColor: HsvColor
    const duration: U32
    var index: U16
    const fadeCache: ColorCache
    const curve: Curve
    const currentTick: U32
    const curveFn: CurveFn

    /** `SingleBatchIterator::from_batch`: starts at ordinal 0. */
    constructor (range: IndexMap, toColor: HsvColor, duration: U32, curve: Curve, fadeCache: ColorCache,
                 currentTick: U32, curveFn: CurveFn)
      ensures this.range == range && this.toColor == toColor && this.duration == duration
      ensures this.curve == curve && this.fadeCache == fadeCache && this.currentTick == currentTick
      ensures this.curveFn == curveFn && index == 0
    {
      this.range := range;
      this.toColor := toColor;
      this.duration := duration;
      this.curve := curve;
      this.fadeCache := fadeCache;
      this.currentTick := currentTick;
      this.curveFn := curveFn;
      index := 0;
    }

    /** The range maps, and every LED still to come is cached under an existing bucket. */
    ghost predicate Valid()
      reads this, fadeCache, fadeCache.Repr
    {
      fadeCache.Valid() && IterReady(range, index, fadeCache.BucketColor(), fadeCache.Cached())
    }

    /** The colour every LED gets: the curve from the bucket colour towards `toColor` at `currentTick`. */
    function FadeColor(): HsvColor
      reads this, fadeCache
      requires fadeCache.BucketColor().Some?
    {
      curveFn(curve, duration, fadeCache.BucketColor().value, toColor, currentTick)
    }

    /** The colourings still to come. */
    function Remaining(): seq<LedColoring>
      reads this, fadeCache, fadeCache.Repr
      requires Valid()
    {
      if index == Len(range) then [] else Emitted(range, index, FadeColor())
    }

    /** `next`: the colouring of the next ordinal's LED, and `None`, changing nothing, after the last one. */
    method Next() returns (r: Option<LedColoring>)
      requires Valid()
      modifies this`index
      ensures Valid()
      ensures old(Remaining()) == [] ==> r == None && index == old(index)
      ensures old(Remaining()) != [] ==> r == Some(old(Remaining())[0]) && Remaining() == old(Remaining())[1..]
    {
      if index >= Len(range) {
        return None;
      }
      ghost var c := FadeColor();
      EmittedStep(range, index, c);
      var ledIdx := LedAt(range, index);
      assert ledIdx == MappedLeds(range)[index] && ledIdx in fadeCache.Cached();
      var fromColor := fadeCache.LoadColor(ledIdx);
      var nextColor := curveFn(curve, duration, fromColor.value, toColor, currentTick);
      r := Some(LedColoring(ledIdx, nextColor));
      index := index + 1;
    }
  }
}
