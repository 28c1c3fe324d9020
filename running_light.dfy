/**
 * The render engine of src/animation/running_light.rs (its iterators are
 * repeated byte for byte in src/animation/iterators.rs): `CurveBatchIterator`
 * walks the window's chunks and maps every (strip ordinal, progress index)
 * pair through the animation's index map; each mapped ordinal becomes a
 * `FadeIter` that colours its one or two LEDs; `Flatten` chains the fade
 * iterators into the stream of colourings `RunningLight::animate` returns.
 *
 * Each class is proved against a ghost list of what is still to come:
 * `CurveBatchIterator.Remaining()` (pairs), `FadeIter.Pending()` and
 * `RenderIter.Pending()` (LEDs with their progress index).
 */
module RunningLight {
  import opened Wrappers
  import opened Indexing
  import opened Color
  import opened Curve
  import opened Animation
  import opened ColorCache
  import opened Strip
  import opened ActiveRange
  import opened RunningLightMeta

  /** A pair the batch iterator produces: strip ordinal `anchor + item_idx` and progress index. */
  datatype Item = Item(ordinal: int, progress: U16)

  /** The k-th item of chunk {a, s..e} is (a + k, s + k). */
  function ChunkItems(c: AnchoredRange): (r: seq<Item>)
    ensures |r| == ChunkLen(c)
    ensures forall k :: 0 <= k < |r| ==> r[k] == Item(c.anchor + k, c.start + k)
  {
    seq(ChunkLen(c), k requires 0 <= k < ChunkLen(c) => Item(c.anchor + k, c.start + k))
  }

  function Items(cs: seq<AnchoredRange>): seq<Item> {
    if cs == [] then [] else ChunkItems(cs[0]) + Items(cs[1..])
  }

  lemma ItemsCons(c: AnchoredRange, cs: seq<AnchoredRange>)
    ensures Items([c] + cs) == ChunkItems(c) + Items(cs)
  {
    assert ([c] + cs)[1..] == cs;
  }

  /** The item index the next item of the current part gets: one more than the last, or 0. */
  function NextK(itemIdx: Option<U16>): nat {
    if itemIdx.None? then 0 else itemIdx.value + 1
  }

  /** What is left of the part being walked, whose range start has been advanced past the items taken. */
  function PartItems(part: Option<AnchoredRange>, itemIdx: Option<U16>): (r: seq<Item>)
    ensures part.None? ==> r == []
    ensures part.Some? ==> |r| == ChunkLen(part.value)
    ensures part.Some? ==> forall j :: 0 <= j < |r| ==>
              r[j] == Item(part.value.anchor + NextK(itemIdx) + j, part.value.start + j)
  {
    match part
    case None => []
    case Some(p) => seq(ChunkLen(p), j requires 0 <= j < ChunkLen(p) => Item(p.anchor + NextK(itemIdx) + j, p.start + j))
  }

  /** The ordinal is a u16 that `m` maps without panicking and without error. */
  ghost predicate MapsOk(m: IndexMap, ordinal: int)
    requires Valid(m)
  {
    0 <= ordinal <= MaxIndex && Safe(m, ordinal) && Index(m, ordinal).Ok?
  }

  /** Every ordinal of `items` lies in the domain of `m`, a map whose lengths fit u16. */
  ghost predicate Mappable(m: IndexMap, items: seq<Item>) {
    Valid(m) && Fits(m) && forall k :: 0 <= k < |items| ==> 0 <= items[k].ordinal < Len(m)
  }

  /** An LED to colour and the progress index it is coloured for. */
  datatype Lit = Lit(led: LedId, progress: U16)

  function LitsOf(ids: seq<LedId>, progress: U16): (r: seq<Lit>)
    ensures |r| == |ids|
    ensures forall k :: 0 <= k < |r| ==> r[k] == Lit(ids[k], progress)
  {
    seq(|ids|, k requires 0 <= k < |ids| => Lit(ids[k], progress))
  }

  /** The LEDs the items map to, each with its item's progress index, in order. */
  ghost function Expand(m: IndexMap, items: seq<Item>): seq<Lit>
    requires Mappable(m, items)
  {
    if items == [] then []
    else
      MappableTail(m, items);
      LitsOf(Index(m, items[0].ordinal).value, items[0].progress) + Expand(m, items[1..])
  }

  /** Expanding mappable items: the head's LEDs, then the rest expanded. */
  lemma ExpandHead(m: IndexMap, items: seq<Item>)
    requires Mappable(m, items) && items != []
    ensures Mappable(m, items[1..]) && MapsOk(m, items[0].ordinal)
    ensures Expand(m, items) == LitsOf(Index(m, items[0].ordinal).value, items[0].progress) + Expand(m, items[1..])
  {
    MappableTail(m, items);
  }

  /** The head of mappable items maps, and the rest stay mappable. */
  lemma MappableTail(m: IndexMap, items: seq<Item>)
    requires Mappable(m, items) && items != []
    ensures Mappable(m, items[1..]) && MapsOk(m, items[0].ordinal)
  {
    forall k | 0 <= k < |items[1..]| ensures items[1..][k] == items[k + 1] { }
    InDomainMapsOk(m, items[0].ordinal);
  }

  /**
   * Items of chunks that land inside a map's domain are mappable, when the map
   * is valid and its lengths fit u16.
   */
  lemma {:induction false} InDomainItemsMappable(m: IndexMap, cs: seq<AnchoredRange>)
    requires Valid(m) && Fits(m)
    requires forall k :: 0 <= k < |cs| ==> cs[k].anchor + ChunkLen(cs[k]) <= Len(m)
    ensures Mappable(m, Items(cs))
  {
    if cs != [] {
      InDomainItemsMappable(m, cs[1..]);
      var head, its := ChunkItems(cs[0]), Items(cs);
      forall k | 0 <= k < |its| ensures 0 <= its[k].ordinal < Len(m) {
        if k < |head| {
          assert its[k] == head[k];
        } else {
          assert its[k] == Items(cs[1..])[k - |head|];
        }
      }
    }
  }

  /** Taking one item from a non-empty part: its head pair, and the part with its start advanced. */
  lemma PartAdvance(p: AnchoredRange, itemIdx: Option<U16>)
    requires p.start < p.end && NextK(itemIdx) <= p.start
    ensures PartItems(Some(p), itemIdx) != []
    ensures PartItems(Some(p), itemIdx)[0] == Item(p.anchor + NextK(itemIdx), p.start)
    ensures PartItems(Some(p), itemIdx)[1..] == PartItems(Some(p.(start := p.start + 1)), Some(NextK(itemIdx) as U16))
  {
    var xs := PartItems(Some(p), itemIdx);
    var ys := PartItems(Some(p.(start := p.start + 1)), Some(NextK(itemIdx) as U16));
    assert |xs[1..]| == |ys|;
    forall j | 0 <= j < |ys| ensures xs[1..][j] == ys[j] {
      assert xs[1..][j] == xs[j + 1];
    }
  }

  /**
   * One step of a window with chunks: it does not panic, it is finished only
   * when no chunk is left, and otherwise the chunk it yields moves its items,
   * unchanged, into the current part.
   */
  lemma FetchChunk(w: WindowState)
    requires Terminates(w) && Chunks(w).Some?
    ensures !ActiveRange.Step(w).Panic?
    ensures ActiveRange.Step(w).Finished? ==> Items(Chunks(w).value) == []
    ensures ActiveRange.Step(w).Yield? ==>
              Chunks(ActiveRange.Step(w).next).Some? &&
              Items(Chunks(w).value) == PartItems(Some(ActiveRange.Step(w).chunk), None) + Items(Chunks(ActiveRange.Step(w).next).value)
  {
    if ActiveRange.Step(w).Yield? {
      var c := ActiveRange.Step(w).chunk;
      ItemsCons(c, Chunks(ActiveRange.Step(w).next).value);
      assert PartItems(Some(c), None) == ChunkItems(c);
    }
  }

  // ---------------------------------------------------------------------------------------------
  // CurveBatchIterator

  /**
   * `CurveBatchIterator`: takes chunks from the window iterator and walks
   * their ranges; its `next` maps `anchor + item_idx` through the range and
   * returns a `FadeIter` over the LED ids it maps to.
   */
  class CurveBatchIterator {
    const animationIter: ActiveRangeIter
    var actualAnimationPart: Option<AnchoredRange>
    var animationPartItemIdx: Option<U16>
    const animation: AnimationType
    const animationRange: IndexMap
    const fromColor: FromColoring
    const fadeCache: ColorCache?
    const curveFn: CurveFn

    /** The window does not panic, and the item index never runs ahead of the part's advanced start. */
    ghost predicate Valid()
      reads this, animationIter
    {
      Terminates(animationIter.State()) && Chunks(animationIter.State()).Some? &&
      (actualAnimationPart.Some? ==> NextK(animationPartItemIdx) <= actualAnimationPart.value.start)
    }

    /** The pairs still to come: the rest of the current part, then every chunk the window has left. */
    ghost function Remaining(): seq<Item>
      requires Valid()
      reads this, animationIter
    {
      PartItems(actualAnimationPart, animationPartItemIdx) + Items(Chunks(animationIter.State()).value)
    }

    /** `CurveBatchIterator::new` */
    constructor (animationIter: ActiveRangeIter, animationRange: IndexMap, animation: AnimationType,
                 fadeCache: ColorCache?, fromColor: FromColoring, curveFn: CurveFn)
      requires Terminates(animationIter.State()) && Chunks(animationIter.State()).Some?
      ensures Valid()
      ensures Remaining() == Items(Chunks(animationIter.State()).value)
      ensures this.animationIter == animationIter && this.animationRange == animationRange
      ensures this.animation == animation && this.fadeCache == fadeCache
      ensures this.fromColor == fromColor && this.curveFn == curveFn
    {
      this.animationIter := animationIter;
      actualAnimationPart := None;
      this.animation := animation;
      this.animationRange := animationRange;
      animationPartItemIdx := None;
      this.fadeCache := fadeCache;
      this.fromColor := fromColor;
      this.curveFn := curveFn;
      new;
      assert PartItems(actualAnimationPart, animationPartItemIdx) == [];
    }

    /**
     * `update_current_iter_state`: the next pair as (anchor, progress index),
     * the item index standing in `animation_part_item_idx`; `None` once the
     * window is exhausted.
     */
    method UpdateCurrentIterState() returns (r: Option<(U16, U16)>)
      requires Valid()
      modifies this, animationIter
      ensures Valid()
      ensures old(Remaining()) == [] ==> r.None? && Remaining() == []
      ensures old(Remaining()) != [] ==>
                r.Some? && animationPartItemIdx.Some? &&
                r.value.0 + animationPartItemIdx.value == old(Remaining())[0].ordinal &&
                r.value.1 == old(Remaining())[0].progress &&
                Remaining() == old(Remaining())[1..]
    {
      while true
        invariant Valid()
        invariant Remaining() == old(Remaining())
        decreases 2 * Measure(animationIter.State()) + (if actualAnimationPart.Some? then 1 else 0)
      {
        if actualAnimationPart.Some? {
          r := TakeFromPart();
          if r.Some? {
            return;
          }
        } else {
          var more := FetchPart();
          if !more {
            return None;
          }
        }
      }
    }

    /** The `Some(part)` arm of the loop: the part's next pair, or the part dropped once it is used up. */
    method TakeFromPart() returns (r: Option<(U16, U16)>)
      requires Valid() && actualAnimationPart.Some?
      modifies this
      ensures Valid()
      ensures r.None? ==> actualAnimationPart.None? && Remaining() == old(Remaining())
      ensures r.Some? ==>
                old(Remaining()) != [] && animationPartItemIdx.Some? &&
                r.value.0 + animationPartItemIdx.value == old(Remaining())[0].ordinal &&
                r.value.1 == old(Remaining())[0].progress &&
                Remaining() == old(Remaining())[1..]
    {
      var a := actualAnimationPart.value;
      ghost var idxBefore := animationPartItemIdx;
      ghost var rest := Items(Chunks(animationIter.State()).value);
      actualAnimationPart := None;
      animationPartItemIdx := Some(if animationPartItemIdx.Some? then animationPartItemIdx.value + 1 else 0);
      if a.start < a.end {
        actualAnimationPart := Some(a.(start := a.start + 1));
        PartAdvance(a, idxBefore);
        return Some((a.anchor, a.start));
      }
      assert PartItems(Some(a), idxBefore) == [];
      r := None;
    }

    /** The `None` arm of the loop: the window's next chunk becomes the current part. */
    method FetchPart() returns (more: bool)
      requires Valid() && actualAnimationPart.None?
      modifies this, animationIter
      ensures Valid() && Remaining() == old(Remaining())
      ensures more ==> actualAnimationPart.Some? && Measure(animationIter.State()) < old(Measure(animationIter.State()))
      ensures !more ==> Remaining() == []
    {
      ghost var before := animationIter.State();
      FetchChunk(before);
      var next := animationIter.Next();
      animationPartItemIdx := None;
      more := next.Some?;
      if more {
        actualAnimationPart := Some(next.value);
      }
    }

    /**
     * `next`: the `FadeIter` for the next pair, over the LED ids its ordinal
     * maps to and carrying its progress index; `None` once the window is exhausted.
     */
    method Next() returns (r: FadeIter?)
      requires Valid() && Mappable(animationRange, Remaining())
      modifies this, animationIter
      ensures Valid() && Mappable(animationRange, Remaining())
      ensures old(Remaining()) == [] ==> r == null && Remaining() == []
      ensures old(Remaining()) != [] ==> MapsOk(animationRange, old(Remaining())[0].ordinal)
      ensures old(Remaining()) != [] ==>
                r != null && fresh(r) && fresh(r.innerIter) &&
                r.innerIter.Remaining() == Index(animationRange, old(Remaining())[0].ordinal).value &&
                r.innerIter.index == 0 &&
                r.animationLedIndex == old(Remaining())[0].progress &&
                r.fadeCache == fadeCache && r.fromColor == fromColor &&
                r.animation == animation && r.curveFn == curveFn &&
                Remaining() == old(Remaining())[1..]
    {
      ghost var items := Remaining();
      var currentState := UpdateCurrentIterState();
      if currentState.None? {
        return null;
      }
      MappableTail(animationRange, items);
      var (anchor, ledIdx) := currentState.value;
      r := NewFade(anchor + animationPartItemIdx.value, ledIdx);
    }

    /** The `FadeIter` over the LED ids `ordinal` maps to, coloured for progress index `progress`. */
    method NewFade(ordinal: U16, progress: U16) returns (r: FadeIter)
      requires Indexing.Valid(animationRange) && MapsOk(animationRange, ordinal)
      ensures fresh(r) && fresh(r.innerIter)
      ensures r.innerIter.Remaining() == Index(animationRange, ordinal).value && r.innerIter.index == 0
      ensures r.animationLedIndex == progress
      ensures r.fadeCache == fadeCache && r.fromColor == fromColor && r.animation == animation && r.curveFn == curveFn
    {
      var ledFinalIdx := Index(animationRange, ordinal);
      var inner := new ManyIndexed(ledFinalIdx.value);
      r := new FadeIter(inner, progress, fadeCache, fromColor, animation, curveFn);
    }
  }

  // ---------------------------------------------------------------------------------------------
  // FadeIter

  /** The bucket colour once `seed` has been offered to the cache: the first colour offered wins. */
  function Seeded(bucket: Option<HsvColor>, seed: HsvColor): HsvColor {
    if bucket.Some? then bucket.value else seed
  }

  /** The start colour of a fade: the bucket colour for `Dynamic`, else the fixed colour. */
  function StartColor(from: FromColoring, bucket: HsvColor): HsvColor {
    match from
    case Dynamic => bucket
    case Fixed(c) => c
  }

  /** The cached LEDs after rendering `led` at progress `progress`: cached, and evicted again at progress 0. */
  function AfterRender(cached: set<LedId>, led: LedId, progress: U16): set<LedId> {
    if progress == 0 then cached - {led} else cached + {led}
  }

  /** What the colour cache holds, if there is one. */
  function ViewOf(cache: ColorCache?): Option<CacheView>
    reads cache, if cache != null then {cache.singleColorCache} else {}
  {
    if cache == null then None else Some(cache.View())
  }

  /** `cache_color` does not panic when `led` is rendered while the cache holds `c`. */
  ghost predicate Renderable(c: Option<CacheView>, led: LedId) {
    c.Some? && led !in Leds(c.value.lists) ==> CacheLedSafe(c.value.lists, led)
  }

  /** The bucket colour a fade of `led` starts from while the cache holds `c`: black without a cache. */
  function BucketOf(c: Option<CacheView>, led: LedId, strip: StripState): HsvColor {
    if c.None? then Black else Seeded(c.value.bucket, GetColorOfLed(strip, led))
  }

  /**
   * The cache after `map_led_idx_to_color` renders `h` from `strip`: the
   * bucket is seeded with the strip's colour of the LED, the LED is cached
   * unless it already is, and it is evicted again at progress 0.
   */
  ghost function AfterLit(c: Option<CacheView>, h: Lit, strip: StripState): Option<CacheView>
    requires Renderable(c, h.led)
  {
    if c.None? then None
    else
      var lists := c.value.lists;
      var cached := if h.led in Leds(lists) then lists else CacheLedSpec(lists, h.led);
      Some(CacheView(Some(BucketOf(c, h.led, strip)), if h.progress == 0 then UncacheLedSpec(cached, h.led).0 else cached))
  }

  /** Rendering keeps the bucket's lists well formed, and they then cache exactly what `AfterRender` says. */
  lemma AfterLitCaches(c: Option<CacheView>, h: Lit, strip: StripState)
    requires Renderable(c, h.led) && c.Some? && Inv(c.value.lists)
    ensures AfterLit(c, h, strip).Some?
    ensures Inv(AfterLit(c, h, strip).value.lists)
    ensures Leds(AfterLit(c, h, strip).value.lists) == AfterRender(Leds(c.value.lists), h.led, h.progress)
  {
    var lists := c.value.lists;
    if h.led !in Leds(lists) {
      CacheLedAddsLed(lists, h.led);
    }
    var cached := if h.led in Leds(lists) then lists else CacheLedSpec(lists, h.led);
    UncacheLedRemovesLed(cached, h.led);
  }

  /** `FadeIter`: colours the LED ids of one mapped ordinal, all at the same progress index. */
  class FadeIter {
    const innerIter: ManyIndexed
    const animationLedIndex: U16
    const fadeCache: ColorCache?
    const fromColor: FromColoring
    const animation: AnimationType
    const curveFn: CurveFn

    constructor (innerIter: ManyIndexed, animationLedIndex: U16, fadeCache: ColorCache?, fromColor: FromColoring,
                 animation: AnimationType, curveFn: CurveFn)
      ensures this.innerIter == innerIter && this.animationLedIndex == animationLedIndex
      ensures this.fadeCache == fadeCache && this.fromColor == fromColor
      ensures this.animation == animation && this.curveFn == curveFn
    {
      this.innerIter := innerIter;
      this.animationLedIndex := animationLedIndex;
      this.fadeCache := fadeCache;
      this.fromColor := fromColor;
      this.animation := animation;
      this.curveFn := curveFn;
    }

    /** The LEDs still to colour. */
    function Pending(): seq<Lit>
      reads this, innerIter
    {
      LitsOf(innerIter.Remaining(), animationLedIndex)
    }

    /** The cache, if any, is valid and does not own the id iterator; a `Dynamic` fade has a cache. */
    ghost predicate Valid()
      reads this, fadeCache, if fadeCache != null then fadeCache.Repr else {}
    {
      (fadeCache != null ==> fadeCache.Valid() && innerIter !in fadeCache.Repr) &&
      (fromColor.Dynamic? ==> fadeCache != null) &&
      LenFits(animation) && animationLedIndex < AnimationLen(animation)
    }

    /** `cache_led_color`: offers the strip's colour of the LED to the cache. */
    method CacheLedColor(cache: ColorCache, generalIdx: LedId, strip: StripState)
      requires cache.Valid() && (generalIdx !in cache.Cached() ==> cache.CanCache(generalIdx))
      modifies cache.Repr
      ensures cache.Valid() && fresh(cache.Repr - old(cache.Repr))
      ensures cache.BucketColor() == Some(Seeded(old(cache.BucketColor()), GetColorOfLed(strip, generalIdx)))
      ensures cache.Lists() == if generalIdx in old(cache.Cached()) then old(cache.Lists())
                               else CacheLedSpec(old(cache.Lists()), generalIdx)
      ensures generalIdx in cache.Cached()
    {
      var _ := cache.CacheColor(generalIdx, GetColorOfLed(strip, generalIdx));
    }

    /**
     * `map_led_idx_to_color`: with a cache the LED is cached from the strip
     * first, the start colour is loaded from the cache, and at progress 0 the
     * LED is evicted again. The colour is the section's curve call evaluated
     * from that start colour.
     */
    method MapLedIdxToColor(generalIdx: LedId, idx: U16, strip: StripState) returns (c: HsvColor)
      requires Valid() && idx == animationLedIndex && Renderable(ViewOf(fadeCache), generalIdx)
      modifies if fadeCache != null then fadeCache.Repr else {}
      ensures Valid()
      ensures fadeCache != null ==> fresh(fadeCache.Repr - old(fadeCache.Repr))
      ensures ViewOf(fadeCache) == AfterLit(old(ViewOf(fadeCache)), Lit(generalIdx, idx), strip)
      ensures c == SectionColor(animation, StartColor(fromColor, BucketOf(old(ViewOf(fadeCache)), generalIdx, strip)),
                                idx, curveFn)
    {
      if fadeCache != null {
        CacheLedColor(fadeCache, generalIdx, strip);
      }
      var fromC: HsvColor;
      match fromColor {
        case Dynamic =>
          var loaded := fadeCache.LoadColor(generalIdx);
          fromC := loaded.value;
        case Fixed(color) =>
          fromC := color;
      }
      c := SectionColor(animation, fromC, idx, curveFn);
      if fadeCache != null {
        if idx == 0 {
          var _ := fadeCache.RemoveCache(generalIdx);
        }
      }
    }

    /** `next`: the next LED id, coloured; `None`, touching nothing, once the ids are used up. */
    method Next(strip: StripState) returns (r: Option<LedColoring>)
      requires Valid()
      requires Pending() != [] ==> Renderable(ViewOf(fadeCache), Pending()[0].led)
      modifies innerIter, if fadeCache != null then fadeCache.Repr else {}
      ensures Valid()
      ensures fadeCache != null ==> fresh(fadeCache.Repr - old(fadeCache.Repr))
      ensures old(Pending()) == [] ==> r == None && Pending() == [] && ViewOf(fadeCache) == old(ViewOf(fadeCache))
      ensures old(Pending()) != [] ==>
                var h := old(Pending())[0];
                var bucket := BucketOf(old(ViewOf(fadeCache)), h.led, strip);
                r == Some(LedColoring(h.led, SectionColor(animation, StartColor(fromColor, bucket), h.progress, curveFn))) &&
                Pending() == old(Pending())[1..] &&
                ViewOf(fadeCache) == AfterLit(old(ViewOf(fadeCache)), h, strip)
    {
      var ledId := innerIter.Next();
      if ledId.Some? {
        var color := MapLedIdxToColor(ledId.value, animationLedIndex, strip);
        return Some(LedColoring(ledId.value, color));
      }
      return None;
    }
  }

  // ---------------------------------------------------------------------------------------------
  // Flatten<CurveBatchIterator>

  /** Every pair of the items has a progress index below `w`. */
  ghost predicate ProgressBelow(items: seq<Item>, w: nat) {
    forall k :: 0 <= k < |items| ==> items[k].progress < w
  }

  /** The first item of a sequence below `w` is below `w`, and so is the rest. */
  lemma ProgressBelowTail(items: seq<Item>, w: nat)
    requires ProgressBelow(items, w) && items != []
    ensures items[0].progress < w && ProgressBelow(items[1..], w)
  {
    forall k | 0 <= k < |items[1..]| ensures items[1..][k].progress < w {
      assert items[1..][k] == items[k + 1];
    }
  }

  /** Items of chunks that end within the window carry progress indices inside the window. */
  lemma {:induction false} ItemsProgressBelow(cs: seq<AnchoredRange>, w: nat)
    requires forall k :: 0 <= k < |cs| ==> cs[k].end <= w
    ensures ProgressBelow(Items(cs), w)
  {
    if cs != [] {
      ItemsProgressBelow(cs[1..], w);
      var its := Items(cs);
      forall k | 0 <= k < |its| ensures its[k].progress < w {
        if k >= |ChunkItems(cs[0])| {
          assert its[k] == Items(cs[1..])[k - |ChunkItems(cs[0])|];
        }
      }
    }
  }

  /** What a set gained since `start` it gained either since `mid` or between `start` and `mid`. */
  lemma FreshSplit<T>(now: set<T>, mid: set<T>, start: set<T>)
    ensures now - start <= (now - mid) + (mid - start)
  {
  }

  lemma TailOfConcat<T>(a: seq<T>, b: seq<T>)
    requires a != []
    ensures (a + b)[0] == a[0] && (a + b)[1..] == a[1..] + b
  {
  }

  ghost predicate LitsBelow(lits: seq<Lit>, w: nat) {
    forall k :: 0 <= k < |lits| ==> lits[k].progress < w
  }

  /** Expanding keeps every progress index of the items. */
  lemma {:induction false} ExpandProgressBelow(m: IndexMap, items: seq<Item>, w: nat)
    requires Mappable(m, items) && ProgressBelow(items, w)
    ensures LitsBelow(Expand(m, items), w)
  {
    if items != [] {
      ExpandHead(m, items);
      assert ProgressBelow(items[1..], w) by {
        forall k | 0 <= k < |items[1..]| ensures items[1..][k] == items[k + 1] { }
      }
      ExpandProgressBelow(m, items[1..], w);
      var head := LitsOf(Index(m, items[0].ordinal).value, items[0].progress);
      var lits := Expand(m, items);
      forall k | 0 <= k < |lits| ensures lits[k].progress < w {
        if k >= |head| {
          assert lits[k] == Expand(m, items[1..])[k - |head|];
        }
      }
    }
  }

  /**
   * `Flatten<CurveBatchIterator>`, the iterator `RunningLight::animate`
   * returns: the colourings of the current fade iterator, then those of the
   * fade iterators the batch iterator makes next.
   */
  class RenderIter {
    const batch: CurveBatchIterator
    var frontIter: FadeIter?

    /** `Iterator::flatten` over a batch iterator that can run to its end. */
    constructor (batch: CurveBatchIterator)
      requires batch.Valid() && Mappable(batch.animationRange, batch.Remaining())
      requires LenFits(batch.animation) && ProgressBelow(batch.Remaining(), AnimationLen(batch.animation))
      requires batch.fromColor.Dynamic? ==> batch.fadeCache != null
      requires batch.fadeCache != null ==>
                 batch.fadeCache.Valid() && batch !in batch.fadeCache.Repr && batch.animationIter !in batch.fadeCache.Repr
      ensures this.batch == batch && frontIter == null
      ensures Valid() && Pending() == Expand(batch.animationRange, batch.Remaining())
    {
      this.batch := batch;
      frontIter := null;
    }

    /**
     * The batch iterator can go on without panicking, every ordinal it has
     * left maps and every progress index is inside the animation.
     */
    ghost predicate BatchOk()
      reads batch, batch.animationIter
    {
      batch.Valid() && Mappable(batch.animationRange, batch.Remaining()) &&
      LenFits(batch.animation) && ProgressBelow(batch.Remaining(), AnimationLen(batch.animation))
    }

    /** The colour cache, shared by all fade iterators, owns neither this iterator nor the batch iterator. */
    ghost predicate CacheOk()
      reads batch.fadeCache, if batch.fadeCache != null then batch.fadeCache.Repr else {}
    {
      (batch.fromColor.Dynamic? ==> batch.fadeCache != null) &&
      (batch.fadeCache != null ==> batch.fadeCache.Valid() && this !in batch.fadeCache.Repr &&
                                   batch !in batch.fadeCache.Repr && batch.animationIter !in batch.fadeCache.Repr)
    }

    /** The front fade iterator is one the batch iterator made. */
    ghost predicate FrontOk()
      reads this, frontIter, batch.fadeCache, if batch.fadeCache != null then batch.fadeCache.Repr else {}
    {
      frontIter != null ==>
        frontIter.fadeCache == batch.fadeCache && frontIter.fromColor == batch.fromColor &&
        frontIter.animation == batch.animation && frontIter.curveFn == batch.curveFn &&
        frontIter.Valid()
    }

    ghost predicate Valid()
      reads this, batch, batch.animationIter, frontIter, batch.fadeCache
      reads if batch.fadeCache != null then batch.fadeCache.Repr else {}
    {
      BatchOk() && CacheOk() && FrontOk()
    }

    /** What the front fade iterator has left. */
    function Front(): seq<Lit>
      reads this, frontIter, if frontIter != null then {frontIter.innerIter} else {}
    {
      if frontIter != null then frontIter.Pending() else []
    }

    /** What the batch iterator has left, expanded to LEDs. */
    ghost function Rest(): seq<Lit>
      requires BatchOk()
      reads batch, batch.animationIter
    {
      Expand(batch.animationRange, batch.Remaining())
    }

    /** The colourings still to come, as LEDs with their progress index. */
    ghost function Pending(): seq<Lit>
      requires BatchOk()
      reads this, batch, batch.animationIter, frontIter
      reads if frontIter != null then {frontIter.innerIter} else {}
    {
      Front() + Rest()
    }

    /** The colouring of `h` by this animation, from a fade whose cache bucket holds `bucket`. */
    function Colouring(h: Lit, bucket: HsvColor): LedColoring
      requires LenFits(batch.animation) && h.progress < AnimationLen(batch.animation)
    {
      LedColoring(h.led, SectionColor(batch.animation, StartColor(batch.fromColor, bucket), h.progress, batch.curveFn))
    }

    /** What the shared colour cache holds. */
    function CacheState(): Option<CacheView>
      reads batch.fadeCache, if batch.fadeCache != null then {batch.fadeCache.singleColorCache} else {}
    {
      ViewOf(batch.fadeCache)
    }

    /** Every LED still to come is coloured for a progress index inside the animation. */
    lemma PendingInWindow()
      requires Valid()
      ensures LenFits(batch.animation) && LitsBelow(Pending(), AnimationLen(batch.animation))
    {
      ExpandProgressBelow(batch.animationRange, batch.Remaining(), AnimationLen(batch.animation));
    }

    /** `FadeIter::next` on the front fade iterator, which leaves the rest of the batch alone. */
    method FrontNext(strip: StripState) returns (r: Option<LedColoring>)
      requires Valid() && frontIter != null
      requires Front() != [] ==> Renderable(CacheState(), Front()[0].led)
      modifies frontIter.innerIter, if batch.fadeCache != null then batch.fadeCache.Repr else {}
      ensures Valid() && Rest() == old(Rest())
      ensures batch.fadeCache != null ==> fresh(batch.fadeCache.Repr - old(batch.fadeCache.Repr))
      ensures old(Front()) == [] ==> r == None && Front() == [] && CacheState() == old(CacheState())
      ensures old(Front()) != [] ==>
                var h := old(Front())[0];
                h.progress < AnimationLen(batch.animation) &&
                r == Some(Colouring(h, BucketOf(old(CacheState()), h.led, strip))) &&
                Front() == old(Front())[1..] &&
                CacheState() == AfterLit(old(CacheState()), h, strip)
    {
      r := frontIter.Next(strip);
      assert BatchOk() && CacheOk() && FrontOk();
    }

    /** The next colouring of the front fade iterator, which is dropped when it has none left. */
    method TakeFront(strip: StripState) returns (r: Option<LedColoring>)
      requires Valid() && frontIter != null
      requires Pending() != [] ==> Renderable(CacheState(), Pending()[0].led)
      modifies this, frontIter.innerIter, if batch.fadeCache != null then batch.fadeCache.Repr else {}
      ensures Valid()
      ensures batch.fadeCache != null ==> fresh(batch.fadeCache.Repr - old(batch.fadeCache.Repr))
      ensures LenFits(batch.animation) && LitsBelow(old(Pending()), AnimationLen(batch.animation))
      ensures r.None? ==> frontIter == null && Pending() == old(Pending()) && CacheState() == old(CacheState())
      ensures r.Some? ==>
                frontIter == old(frontIter) && old(Pending()) != [] &&
                var h := old(Pending())[0];
                r == Some(Colouring(h, BucketOf(old(CacheState()), h.led, strip))) &&
                Pending() == old(Pending())[1..] &&
                CacheState() == AfterLit(old(CacheState()), h, strip)
    {
      PendingInWindow();
      ghost var front := Front();
      ghost var rest := Rest();
      r := FrontNext(strip);
      if r.None? {
        Install(null);
      } else {
        TailOfConcat(front, rest);
      }
    }

    /**
     * The batch iterator's next fade iterator: its LEDs come first in what
     * the batch has left; `null` once the batch is exhausted.
     */
    method NextFade() returns (f: FadeIter?)
      requires BatchOk() && CacheOk()
      modifies batch, batch.animationIter
      ensures BatchOk() && CacheOk() && CacheState() == old(CacheState())
      ensures f == null ==> old(Rest()) == [] && Rest() == []
      ensures f != null ==>
                fresh(f) && fresh(f.innerIter) && f.Valid() &&
                f.fadeCache == batch.fadeCache && f.fromColor == batch.fromColor &&
                f.animation == batch.animation && f.curveFn == batch.curveFn &&
                old(Rest()) == f.Pending() + Rest() && |batch.Remaining()| < old(|batch.Remaining()|)
    {
      ghost var items := batch.Remaining();
      ghost var cache := CacheState();
      f := batch.Next();
      assert CacheOk() && CacheState() == cache;
      if f != null {
        ExpandHead(batch.animationRange, items);
        ProgressBelowTail(items, AnimationLen(batch.animation));
        assert f.Pending() == LitsOf(Index(batch.animationRange, items[0].ordinal).value, items[0].progress);
        assert Rest() == Expand(batch.animationRange, items[1..]);
      }
    }

    /** Makes `f`, one the batch iterator made, the front fade iterator. */
    method Install(f: FadeIter?)
      requires BatchOk() && CacheOk()
      requires f != null ==>
                 f.Valid() && f.fadeCache == batch.fadeCache && f.fromColor == batch.fromColor &&
                 f.animation == batch.animation && f.curveFn == batch.curveFn
      modifies this`frontIter
      ensures Valid() && frontIter == f
      ensures Front() == (if f != null then f.Pending() else [])
      ensures Rest() == old(Rest()) && CacheState() == old(CacheState())
    {
      ghost var rest := Rest();
      ghost var cache := CacheState();
      frontIter := f;
      assert CacheState() == cache;
      assert BatchOk() && CacheOk();
      assert Rest() == rest;
      assert FrontOk();
    }

    /** The batch iterator's next fade iterator becomes the front one; `false` once the batch is exhausted. */
    method Refill() returns (more: bool)
      requires Valid() && frontIter == null
      modifies this`frontIter, batch, batch.animationIter
      ensures Valid() && Pending() == old(Pending()) && CacheState() == old(CacheState())
      ensures more ==> frontIter != null && fresh(frontIter.innerIter) &&
                       |batch.Remaining()| < old(|batch.Remaining()|)
      ensures !more ==> frontIter == null && Pending() == []
    {
      var f := NextFade();
      Install(f);
      more := f != null;
    }

    /**
     * One turn of `Flatten::next`'s loop: take from the front fade iterator,
     * dropping it when it has nothing left, then, unless a colouring was
     * found, move on to the batch iterator's next one. `stop` when the turn
     * found a colouring or the batch is exhausted; otherwise nothing that is
     * to come has changed and the batch iterator is one fade iterator shorter.
     */
    method Advance(strip: StripState) returns (r: Option<LedColoring>, stop: bool)
      requires Valid()
      requires Pending() != [] ==> Renderable(CacheState(), Pending()[0].led)
      modifies this, batch, batch.animationIter, if frontIter != null then {frontIter.innerIter} else {}
      modifies if batch.fadeCache != null then batch.fadeCache.Repr else {}
      ensures Valid()
      ensures batch.fadeCache != null ==> fresh(batch.fadeCache.Repr - old(batch.fadeCache.Repr))
      ensures frontIter != null ==> fresh(frontIter.innerIter) || frontIter == old(frontIter)
      ensures LenFits(batch.animation) && LitsBelow(old(Pending()), AnimationLen(batch.animation))
      ensures !stop ==> Pending() == old(Pending()) && CacheState() == old(CacheState()) &&
                        |batch.Remaining()| < old(|batch.Remaining()|)
      ensures stop && r.None? ==> old(Pending()) == [] && Pending() == [] && CacheState() == old(CacheState())
      ensures stop && r.Some? ==>
                old(Pending()) != [] &&
                var h := old(Pending())[0];
                r == Some(Colouring(h, BucketOf(old(CacheState()), h.led, strip))) &&
                Pending() == old(Pending())[1..] &&
                CacheState() == AfterLit(old(CacheState()), h, strip)
    {
      PendingInWindow();
      if frontIter != null {
        r := TakeFront(strip);
        if r.Some? {
          return r, true;
        }
      }
      var more := Refill();
      r := None;
      stop := !more;
    }

    /**
     * `Flatten::next`: the next LED with its colour. With a colour cache the
     * LED is cached from the strip first and evicted again at progress 0;
     * `None`, touching nothing, once every pair is rendered.
     */
    method Next(strip: StripState) returns (r: Option<LedColoring>)
      requires Valid()
      requires Pending() != [] ==> Renderable(CacheState(), Pending()[0].led)
      modifies this, batch, batch.animationIter, if frontIter != null then {frontIter.innerIter} else {}
      modifies if batch.fadeCache != null then batch.fadeCache.Repr else {}
      ensures Valid()
      ensures LenFits(batch.animation) && LitsBelow(old(Pending()), AnimationLen(batch.animation))
      ensures old(Pending()) == [] ==> r == None && Pending() == [] && CacheState() == old(CacheState())
      ensures old(Pending()) != [] ==>
                var h := old(Pending())[0];
                r == Some(Colouring(h, BucketOf(old(CacheState()), h.led, strip))) &&
                Pending() == old(Pending())[1..] &&
                CacheState() == AfterLit(old(CacheState()), h, strip)
    {
      PendingInWindow();
      ghost var pending := Pending();
      ghost var cache := CacheState();
      while true
        invariant Valid() && Pending() == pending && CacheState() == cache
        invariant batch.fadeCache != null ==> fresh(batch.fadeCache.Repr - old(batch.fadeCache.Repr))
        invariant frontIter != null ==> fresh(frontIter.innerIter) || frontIter == old(frontIter)
        decreases |batch.Remaining()|
      {
        ghost var reprBefore := if batch.fadeCache != null then batch.fadeCache.Repr else {};
        var stop;
        r, stop := Advance(strip);
        if batch.fadeCache != null {
          FreshSplit(batch.fadeCache.Repr, reprBefore, old(batch.fadeCache.Repr));
        }
        if stop {
          return;
        }
      }
    }
  }

  // ---------------------------------------------------------------------------------------------
  // RunningLight

  /** The `as i16` value of the floating-point quotient `time / (duration / jumps)`. */
  type ScaleFn = (U32, U32, U16) -> I16

  /** `RunningLight`: a window of `animation_len` LEDs that travels along `range` once per `duration` ticks. */
  class RunningLight {
    const duration: U32
    const range: IndexMap
    const fromColor: FromColoring
    const startOffset: I16
    const animation: AnimationType
    const borderWrapping: BorderType
    const fadeCache: ColorCache?

    /** `RunningLight::new`: a circle wraps at both ends, and only a `Dynamic` start colour gets a colour cache. */
    constructor (duration: U32, range: IndexMap, fromColor: FromColoring, startOffset: I16, circle: bool,
                 animation: AnimationType)
      ensures this.duration == duration && this.range == range && this.fromColor == fromColor
      ensures this.startOffset == startOffset && this.animation == animation
      ensures borderWrapping == if circle then WrappingStartEnd else ClosedStartEnd
      ensures fadeCache != null <==> fromColor.Dynamic?
      ensures fadeCache != null ==>
                fresh(fadeCache.Repr) && fadeCache.Valid() && fadeCache.Cached() == {} && fadeCache.BucketColor() == None
      ensures Valid()
    {
      this.duration := duration;
      this.range := range;
      this.fromColor := fromColor;
      this.startOffset := startOffset;
      this.animation := animation;
      borderWrapping := if circle then WrappingStartEnd else ClosedStartEnd;
      match fromColor {
        case Dynamic =>
          var c := new ColorCache();
          fadeCache := c;
        case Fixed(_) =>
          fadeCache := null;
      }
    }

    /** Only a `Dynamic` running light has a colour cache, and it is valid. */
    ghost predicate Valid()
      reads this, fadeCache, if fadeCache != null then fadeCache.Repr else {}
    {
      (fadeCache != null <==> fromColor.Dynamic?) && (fadeCache != null ==> fadeCache.Valid())
    }

    /**
     * The range maps without overflowing u16, and the jump count of the
     * window (`calc_animation_jumps`) is defined for its length and border.
     */
    ghost predicate JumpsOk()
    {
      Indexing.Valid(range) && Fits(range) &&
      LenFits(animation) && JumpsDefined(Len(range), AnimationLen(animation), borderWrapping)
    }

    /** `scale_time_to_jump` does not panic at `tick`. */
    ghost predicate ScaleOk(tick: U32, scale: ScaleFn)
      requires JumpsOk()
    {
      var jumps := CalcAnimationJumps(Len(range), AnimationLen(animation), borderWrapping);
      I16Min <= scale(tick, duration, jumps) + startOffset <= I16Max &&
      NormaliseDefined(scale(tick, duration, jumps) + startOffset, jumps)
    }

    /** The anchor the window starts at for `tick`: the jump of the tick, turned into the first LED's position. */
    function StartAnchor(tick: U32, scale: ScaleFn): int
      requires JumpsOk() && ScaleOk(tick, scale)
    {
      var jumps := CalcAnimationJumps(Len(range), AnimationLen(animation), borderWrapping);
      ScaleJumpToAnimationStart(AnimationLen(animation), ScaleTimeToJump(scale(tick, duration, jumps), jumps, startOffset))
    }

    /** The fresh window iterator `animate` builds for `tick`. */
    function WindowAt(tick: U32, scale: ScaleFn): WindowState
      requires JumpsOk() && ScaleOk(tick, scale) && Len(range) <= MaxIndex
    {
      Fresh(StartAnchor(tick, scale), AnimationLen(animation), Len(range), borderWrapping)
    }

    /** The window for `tick` can run to its end without panicking. */
    ghost predicate RendersAt(tick: U32, scale: ScaleFn)
    {
      JumpsOk() && ScaleOk(tick, scale) && Terminates(WindowAt(tick, scale)) && Chunks(WindowAt(tick, scale)).Some?
    }

    /**
     * The LEDs this light colours at `tick`, in order, each with its progress
     * index: the window's chunks, mapped through the range.
     */
    ghost function FrameAt(tick: U32, scale: ScaleFn): seq<Lit>
      requires RendersAt(tick, scale)
    {
      ChunksFitStrip(WindowAt(tick, scale));
      InDomainItemsMappable(range, Chunks(WindowAt(tick, scale)).value);
      Expand(range, Items(Chunks(WindowAt(tick, scale)).value))
    }

    /**
     * `animate`: the colourings for `tick` are, in order, the LEDs that the
     * window's chunks map to through the range, each coloured for the
     * progress index of its place in the window.
     */
    method Animate(tick: U32, scale: ScaleFn, curveFn: CurveFn) returns (it: RenderIter)
      requires Valid() && RendersAt(tick, scale)
      ensures fresh(it) && fresh(it.batch) && fresh(it.batch.animationIter)
      ensures it.Valid() && it.frontIter == null
      ensures it.batch.fadeCache == fadeCache && it.batch.fromColor == fromColor && it.batch.animation == animation &&
              it.batch.curveFn == curveFn
      ensures it.Pending() == FrameAt(tick, scale)
    {
      var animationLen := AnimationLen(animation);
      var jumps := CalcAnimationJumps(Len(range), animationLen, borderWrapping);
      var actJump := ScaleTimeToJump(scale(tick, duration, jumps), jumps, startOffset);
      var startLedId := ScaleJumpToAnimationStart(animationLen, actJump);
      var animationIter := new ActiveRangeIter(startLedId, animationLen, Len(range), borderWrapping);
      ghost var w := animationIter.State();
      assert w == WindowAt(tick, scale);
      ghost var cs := Chunks(w).value;
      ChunksFitStrip(w);
      InDomainItemsMappable(range, cs);
      ItemsProgressBelow(cs, animationLen);
      var batch := new CurveBatchIterator(animationIter, range, animation, fadeCache, fromColor, curveFn);
      assert batch.Remaining() == Items(cs);
      it := new RenderIter(batch);
    }
  }

  // ---------------------------------------------------------------------------------------------
  // Frames of the crate's running-light tests

  /** Over a plain range `a..b`, the item with ordinal `k` lights LED `a + k` with the item's progress. */
  lemma {:induction false} ExpandRangeMap(a: U16, b: U16, items: seq<Item>)
    requires Mappable(RangeMap(a, b), items)
    ensures |Expand(RangeMap(a, b), items)| == |items|
    ensures forall k :: 0 <= k < |items| ==>
              a + items[k].ordinal < b &&
              Expand(RangeMap(a, b), items)[k] == Lit(a + items[k].ordinal, items[k].progress)
    decreases |items|
  {
    if items != [] {
      var m := RangeMap(a, b);
      ExpandHead(m, items);
      RangeMapsOrdinals(a, b, items[0].ordinal);
      ExpandRangeMap(a, b, items[1..]);
      var e := Expand(m, items);
      forall k | 0 <= k < |items|
        ensures a + items[k].ordinal < b && e[k] == Lit(a + items[k].ordinal, items[k].progress)
      {
        if k > 0 {
          assert items[k] == items[1..][k - 1];
        }
      }
    }
  }

  /**
   * The light of the crate's fade tests: a fade of length 1 over LEDs 6..10,
   * a window of 3 LEDs with 3 jumps when wrapping and 5 when closed.
   */
  lemma FadeTestLight(l: RunningLight, to: HsvColor)
    requires l.range == RangeMap(6, 10) && l.startOffset == 0
    requires l.animation == FadeToColor(FadeToAnimationMeta(to, 1, Linear))
    requires l.borderWrapping == WrappingStartEnd || l.borderWrapping == ClosedStartEnd
    ensures AnimationLen(l.animation) == 3 && Len(l.range) == 4 && l.JumpsOk()
    ensures CalcAnimationJumps(4, 3, l.borderWrapping) == if l.borderWrapping == WrappingStartEnd then 3 else 5
  {
    assert Trunc16(4) == 4;
  }

  /** When the window for `tick` yields the chunks `cs`, the light's frame is their items mapped through its range. */
  lemma FrameOfChunks(l: RunningLight, tick: U32, scale: ScaleFn, cs: seq<AnchoredRange>)
    requires l.JumpsOk() && l.ScaleOk(tick, scale) && Len(l.range) <= MaxIndex
    requires Terminates(l.WindowAt(tick, scale)) && Chunks(l.WindowAt(tick, scale)) == Some(cs)
    ensures l.RendersAt(tick, scale) && Mappable(l.range, Items(cs))
    ensures l.FrameAt(tick, scale) == Expand(l.range, Items(cs))
  {
    ChunksFitStrip(l.WindowAt(tick, scale));
    InDomainItemsMappable(l.range, cs);
  }

  /** The wrapped fade at tick 0: the window's first LEDs wrap to the range's end, so LEDs 8 and 9 take progress 0 and 1 and LED 6 takes progress 2. */
  lemma WrappedTickZeroExample(l: RunningLight, to: HsvColor, scale: ScaleFn)
    requires l.range == RangeMap(6, 10) && l.borderWrapping == WrappingStartEnd && l.startOffset == 0
    requires l.animation == FadeToColor(FadeToAnimationMeta(to, 1, Linear))
    requires scale(0, l.duration, 3) == 0
    ensures l.RendersAt(0, scale)
    ensures l.FrameAt(0, scale) == [Lit(8, 0), Lit(9, 1), Lit(6, 2)]
  {
    FadeTestLight(l, to);
    assert l.StartAnchor(0, scale) == -2;
    WrapStartOutside(-2, 3, 4);
    var items := Items([AnchoredRange(2, 0, 2), AnchoredRange(0, 2, 3)]);
    FrameOfChunks(l, 0, scale, [AnchoredRange(2, 0, 2), AnchoredRange(0, 2, 3)]);
    ItemsCons(AnchoredRange(2, 0, 2), [AnchoredRange(0, 2, 3)]);
    ItemsCons(AnchoredRange(0, 2, 3), []);
    assert items == [Item(2, 0), Item(3, 1), Item(0, 2)];
    ExpandRangeMap(6, 10, items);
  }

  /** The wrapped fade at tick 14, one jump on: LED 9 first, then LEDs 6 and 7. */
  lemma WrappedTick14Example(l: RunningLight, to: HsvColor, scale: ScaleFn)
    requires l.range == RangeMap(6, 10) && l.borderWrapping == WrappingStartEnd && l.startOffset == 0
    requires l.animation == FadeToColor(FadeToAnimationMeta(to, 1, Linear))
    requires scale(14, l.duration, 3) == 1
    ensures l.RendersAt(14, scale)
    ensures l.FrameAt(14, scale) == [Lit(9, 0), Lit(6, 1), Lit(7, 2)]
  {
    FadeTestLight(l, to);
    assert l.StartAnchor(14, scale) == -1;
    WrapStartOutside(-1, 3, 4);
    var items := Items([AnchoredRange(3, 0, 1), AnchoredRange(0, 1, 3)]);
    FrameOfChunks(l, 14, scale, [AnchoredRange(3, 0, 1), AnchoredRange(0, 1, 3)]);
    ItemsCons(AnchoredRange(3, 0, 1), [AnchoredRange(0, 1, 3)]);
    ItemsCons(AnchoredRange(0, 1, 3), []);
    assert items == [Item(3, 0), Item(0, 1), Item(1, 2)];
    ExpandRangeMap(6, 10, items);
  }

  /** The wrapped fade at tick 40, the last jump: the window lies inside the range on LEDs 7 to 9. */
  lemma WrappedTick40Example(l: RunningLight, to: HsvColor, scale: ScaleFn)
    requires l.range == RangeMap(6, 10) && l.borderWrapping == WrappingStartEnd && l.startOffset == 0
    requires l.animation == FadeToColor(FadeToAnimationMeta(to, 1, Linear))
    requires scale(40, l.duration, 3) == 3
    ensures l.RendersAt(40, scale)
    ensures l.FrameAt(40, scale) == [Lit(7, 0), Lit(8, 1), Lit(9, 2)]
  {
    FadeTestLight(l, to);
    assert l.StartAnchor(40, scale) == 1;
    InsideWindowSingleChunk(1, 3, 4, WrappingStartEnd);
    var items := Items([AnchoredRange(1, 0, 3)]);
    FrameOfChunks(l, 40, scale, [AnchoredRange(1, 0, 3)]);
    ItemsCons(AnchoredRange(1, 0, 3), []);
    assert items == [Item(1, 0), Item(2, 1), Item(3, 2)];
    ExpandRangeMap(6, 10, items);
  }

  /** The closed fade at tick 0: only the window's last LED has entered the range, on LED 6. */
  lemma FadeToTick0Example(l: RunningLight, to: HsvColor, scale: ScaleFn)
    requires l.range == RangeMap(6, 10) && l.borderWrapping == ClosedStartEnd && l.startOffset == 0
    requires l.animation == FadeToColor(FadeToAnimationMeta(to, 1, Linear))
    requires scale(0, l.duration, 5) == 0
    ensures l.RendersAt(0, scale)
    ensures l.FrameAt(0, scale) == [Lit(6, 2)]
  {
    FadeTestLight(l, to);
    assert l.StartAnchor(0, scale) == -2;
    ClampStartOutside(-2, 3, 4);
    var items := Items([AnchoredRange(0, 2, 3)]);
    FrameOfChunks(l, 0, scale, [AnchoredRange(0, 2, 3)]);
    ItemsCons(AnchoredRange(0, 2, 3), []);
    assert items == [Item(0, 2)];
    ExpandRangeMap(6, 10, items);
  }

  /** The closed fade at tick 8: the window's last two LEDs are on LEDs 6 and 7. */
  lemma FadeToTick8Example(l: RunningLight, to: HsvColor, scale: ScaleFn)
    requires l.range == RangeMap(6, 10) && l.borderWrapping == ClosedStartEnd && l.startOffset == 0
    requires l.animation == FadeToColor(FadeToAnimationMeta(to, 1, Linear))
    requires scale(8, l.duration, 5) == 1
    ensures l.RendersAt(8, scale)
    ensures l.FrameAt(8, scale) == [Lit(6, 1), Lit(7, 2)]
  {
    FadeTestLight(l, to);
    assert l.StartAnchor(8, scale) == -1;
    ClampStartOutside(-1, 3, 4);
    var items := Items([AnchoredRange(0, 1, 3)]);
    FrameOfChunks(l, 8, scale, [AnchoredRange(0, 1, 3)]);
    ItemsCons(AnchoredRange(0, 1, 3), []);
    assert items == [Item(0, 1), Item(1, 2)];
    ExpandRangeMap(6, 10, items);
  }

  /** The closed fade at tick 16: the whole window on LEDs 6 to 8. */
  lemma FadeToTick16Example(l: RunningLight, to: HsvColor, scale: ScaleFn)
    requires l.range == RangeMap(6, 10) && l.borderWrapping == ClosedStartEnd && l.startOffset == 0
    requires l.animation == FadeToColor(FadeToAnimationMeta(to, 1, Linear))
    requires scale(16, l.duration, 5) == 2
    ensures l.RendersAt(16, scale)
    ensures l.FrameAt(16, scale) == [Lit(6, 0), Lit(7, 1), Lit(8, 2)]
  {
    FadeTestLight(l, to);
    assert l.StartAnchor(16, scale) == 0;
    InsideWindowSingleChunk(0, 3, 4, ClosedStartEnd);
    var items := Items([AnchoredRange(0, 0, 3)]);
    FrameOfChunks(l, 16, scale, [AnchoredRange(0, 0, 3)]);
    ItemsCons(AnchoredRange(0, 0, 3), []);
    assert items == [Item(0, 0), Item(1, 1), Item(2, 2)];
    ExpandRangeMap(6, 10, items);
  }

  /** The closed fade at tick 32: the window leaves the range, its first two LEDs on LEDs 8 and 9. */
  lemma FadeToTick32Example(l: RunningLight, to: HsvColor, scale: ScaleFn)
    requires l.range == RangeMap(6, 10) && l.borderWrapping == ClosedStartEnd && l.startOffset == 0
    requires l.animation == FadeToColor(FadeToAnimationMeta(to, 1, Linear))
    requires scale(32, l.duration, 5) == 4
    ensures l.RendersAt(32, scale)
    ensures l.FrameAt(32, scale) == [Lit(8, 0), Lit(9, 1)]
  {
    FadeTestLight(l, to);
    assert l.StartAnchor(32, scale) == 2;
    ClampEndOutside(2, 3, 4);
    var items := Items([AnchoredRange(2, 0, 2)]);
    FrameOfChunks(l, 32, scale, [AnchoredRange(2, 0, 2)]);
    ItemsCons(AnchoredRange(2, 0, 2), []);
    assert items == [Item(2, 0), Item(3, 1)];
    ExpandRangeMap(6, 10, items);
  }

  /** The closed fade at tick 40, the last jump: only the window's first LED is left, on LED 9. */
  lemma FadeToTick40Example(l: RunningLight, to: HsvColor, scale: ScaleFn)
    requires l.range == RangeMap(6, 10) && l.borderWrapping == ClosedStartEnd && l.startOffset == 0
    requires l.animation == FadeToColor(FadeToAnimationMeta(to, 1, Linear))
    requires scale(40, l.duration, 5) == 5
    ensures l.RendersAt(40, scale)
    ensures l.FrameAt(40, scale) == [Lit(9, 0)]
  {
    FadeTestLight(l, to);
    assert l.StartAnchor(40, scale) == 3;
    ClampEndOutside(3, 3, 4);
    var items := Items([AnchoredRange(3, 0, 1)]);
    FrameOfChunks(l, 40, scale, [AnchoredRange(3, 0, 1)]);
    ItemsCons(AnchoredRange(3, 0, 1), []);
    assert items == [Item(3, 0)];
    ExpandRangeMap(6, 10, items);
  }
}
