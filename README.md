# led-strip-animations in Dafny

A Dafny model of the logic of `led-strip-animations`, a tick-driven engine that renders animations
onto an addressable LED strip. One module per piece of the crate:

- `Indexing` (`src/indexing.rs`): the index-mapping algebra. It covers the base maps `Range<u16>` and
  LED arrays and the combinators `Reversed`, `EveryNth`, `Circular`, `Bounded`, `Half` and
  `SplitMirrored`, as one recursive datatype `IndexMap` with `Len` and `Index`. A map turns an
  animation-local ordinal into one or two LED ids, or into a `MappingError`. The `SingleIndexed` and
  `ManyIndexed` iterators that `index` returns are classes with cursor fields.
- `ColorCache` (`src/color_cache.rs`): the colour cache. `SingleColor` keeps a set of LED ids as
  disjoint ranges plus isolated singles (`seq` fields updated in place). A value-level `Store` with
  the ghost set `Leds` is its specification. `ColorCache` wraps one lazily created bucket whose colour
  is fixed by the first `cache_color`.
- `ActiveRange` (`src/animation/running_light.rs`, and its copy `src/animation/iterators.rs`): the
  border window iterator. It cuts a window of W LEDs anchored at a signed position against a strip of
  L LEDs under the Clamp (`ClosedStartEnd`) or Wrap (`WrappingStartEnd`) policy. A pure `Step`/`Chunks`
  specification is paired with the `ActiveRangeIter` class.
- `RunningLightMeta` and `RunningLight` (`src/animation/running_light.rs`):
  - the integer helpers `animation_len`, `calc_animation_jumps`, the jump normalisation of
    `scale_time_to_jump` and `scale_jump_to_animation_start`;
  - the curve section each progress index uses;
  - the iterators `CurveBatchIterator`, `FadeIter` and the flattened render iterator `animate` returns.
- `StaticAnimation` (`src/animation/static_animation.rs`): seeds the cache from the strip once, then
  emits one colouring per mapped LED.
- `Animation` (`src/animation/mod.rs`): `IterationState::new` and the `TimedAnimation` delegation.
- `Timeline` (`src/timeline.rs`) and `Processing` (`src/processing.rs`): the builder, the stable sort
  by start tick, the active-entry iterator, `has_finished`/`should_repeat`, and the
  `TimelineProcessor` state machine that renders the active entries onto the strip.
- `Strip` (`src/strip.rs`): the strip as a total map from LED id to colour.
- `Color` and `Curve`: opaque colours, and `calculate_with_curve` as a function parameter `CurveFn`.
- `Wrappers`: `Option` and `Result`.

Rust panics become preconditions. These include u16/u32 overflow and underflow, `unwrap` on a failed
conversion, `unimplemented!` and `unreachable!`. Where a panic depends on the input (an index error, a
window with both ends outside the strip), the model represents the panic as an outcome, and the callers
require that it does not occur.

Where the crate's documentation and its code differ, the model follows the code:

- `DynTimelineIter` yields an entry when `start < tick <= start + duration`, not on `[start, start + duration)`.
- `has_finished` looks only at the last entry by start tick. A timeline can therefore report finished
  while an earlier, longer entry is still active (`Timeline.FinishedWhileActiveExample`).
- The colour cache keeps a single bucket, so every cached LED loads the colour of the first LED cached.
- `cache_led` merges with one neighbour only, so the stored ranges are not always maximal
  (`ColorCache.NotMaximalExample`).

## Model

| member | source | states |
|---|---|---|
| Indexing.HalfLen | src/indexing.rs:336-353 | a half of an n-LED map never has more than n ordinals |
| Indexing.MirroredLen | src/indexing.rs:307-318 | a mirrored map never has more ordinals than its inner map |
| Indexing.CircularTarget | src/indexing.rs:151-156 | the inner ordinal a circular map forwards to lies in `[0, len)` |
| Indexing.Index | src/indexing.rs:17-18 | a successful `index` returns exactly as many LED ids as the map's arity (1, or 2 for a mirrored map) |
| Indexing.NewCircular | src/indexing.rs:138-142 | a circular map built with `abs(offset) < len` is well formed and keeps the inner length |
| Indexing.DividedIndexing | src/indexing.rs:356-364 | the two halves are well formed, and their lengths add up to n, or to n - 1 when n is odd under `Exclude` |
| Indexing.FromRange | src/indexing.rs:202-208 | `from_range(a..b)` is well formed with `b - a` ordinals |
| Indexing.CoreBoundToBound | src/indexing.rs:242-248 | `Unbounded` becomes no bound; an included start `o` becomes `Absolute(o)`; an excluded end `o` becomes `Absolute(o - 1)` |
| Indexing.InclusiveRangeAsWrittenKeepsOneMore | src/indexing.rs:242-248 | as written, `from_range(&[0..9], 0..=4)` has 6 ordinals, and ordinal 5 maps to LED 5 |
| Indexing.InclusiveRangeIntended | src/indexing.rs:202-208 | with `Included(o)` as end bound `Absolute(o)`, `a..=b` has `b - a + 1` ordinals, its first maps like inner `a` and its last like inner `b` |
| Indexing.ExclusiveRangeConversionsAgree | src/indexing.rs:242-248 | for the exclusive `a..b` the as-written and the intended conversions coincide |
| Indexing.ExcludedStartAsWrittenKeepsStart | src/indexing.rs:242-247 | as written, an excluded start LED is kept: `(Excluded(2), Excluded(6))` over ten LEDs has 4 ordinals, the first on LED 2 |
| Indexing.ExcludedRangeIntended | src/indexing.rs:202-208 | with `Excluded(o)` as start bound `Absolute(o + 1)`, `(Excluded(a), Excluded(b))` has `b - a - 1` ordinals, its first maps like inner `a + 1` and its last like inner `b - 1` |
| Indexing.InDomainMapsOk | src/indexing.rs:17-18 | every ordinal below `len` of a map that fits u16 maps without panicking to `Arity` LED ids |
| Indexing.InDomainEveryNth | src/indexing.rs:105-115 | in-domain ordinals of `EveryNth` map successfully |
| Indexing.InDomainCircular | src/indexing.rs:144-166 | in-domain ordinals of `Circular` map successfully |
| Indexing.InDomainBounded | src/indexing.rs:251-266 | in-domain ordinals of `Bounded` map successfully |
| Indexing.InDomainHalf | src/indexing.rs:324-354 | in-domain ordinals of a half map successfully |
| Indexing.InDomainSplitMirrored | src/indexing.rs:289-318 | in-domain ordinal i of `SplitMirrored` maps to exactly `[inner(i), inner(n-1-i)]` |
| Indexing.IndexWithinBase | src/indexing.rs:440-494 | combinators only select and reorder: every id produced is an LED of the base range or array |
| Indexing.WithinBaseCircular | src/indexing.rs:144-166 | a circular map only produces LEDs of its base map |
| Indexing.WithinBaseBounded | src/indexing.rs:251-266 | a bounded map only produces LEDs of its base map |
| Indexing.WithinBaseHalf | src/indexing.rs:324-354 | a half only produces LEDs of its base map |
| Indexing.WithinBaseSplitMirrored | src/indexing.rs:289-318 | a mirrored map only produces LEDs of its base map |
| Indexing.RangeMapsOrdinals | src/indexing.rs:440-458 | `a..b` has `b - a` ordinals; ordinal i is `Ok([a+i])` iff `a + i < b`, and `NotInMappingRange` otherwise, also when `a + i` overflows |
| Indexing.ReversedTwice | src/indexing.rs:79-90 | reversing twice keeps the length and the mapping of every in-domain ordinal |
| Indexing.ReversedEnds | src/indexing.rs:82-85 | a reversed map's first ordinal is the inner map's last, and its last is the inner map's first |
| Indexing.EveryNthStrides | src/indexing.rs:105-115 | `EveryNth(n)` maps ordinal i to inner ordinal `i*n`, which is below the inner length |
| Indexing.CircularIsRotation | src/indexing.rs:147-161 | the circular target is `(i + offset) mod len` |
| Indexing.CircularTargetShift | src/indexing.rs:151-156 | the circular target is the shifted ordinal, moved by at most one full turn |
| Indexing.CircularInjective | src/indexing.rs:147-161 | distinct ordinals forward to distinct inner ordinals |
| Indexing.CircularOutOfBounds | src/indexing.rs:148-150 | ordinals at or past the inner length are `IndexOutOfBounds` |
| Indexing.BoundedWindow | src/indexing.rs:226-266 | `len = inner.len - front - end` (an Absolute end `o` counts `inner.len - o - 1`); ordinal i maps like inner `i + front` when `i < len`, and is `NotInMappingRange` otherwise |
| Indexing.FromRangeSlice | src/indexing.rs:202-208 | `from_range(a..b)` maps ordinal k like inner `a + k` for `k < b - a`, and is `NotInMappingRange` otherwise |
| Indexing.SplitMirroredPairs | src/indexing.rs:292-318 | ordinal i maps to `[inner(i), inner(n-1-i)]`, both equal only for the middle LED of an odd map kept by `ToLower`/`ToUpper`; past `len` it is `NotInMappingRange` |
| Indexing.HalvesCover | src/indexing.rs:327-364 | every ordinal of the map, except the dropped middle under `Exclude`, is reached by the lower half at i or by the upper half at `i - (n - upper_len)` |
| Indexing.BoundedExampleRelativeEnd | src/indexing.rs:504-533 | the crate's bounded test with a relative end bound |
| Indexing.BoundedExampleBothBounds | src/indexing.rs:504-533 | the crate's bounded test with both bounds |
| Indexing.BoundedExampleAbsoluteEnd | src/indexing.rs:504-533 | the crate's bounded test with an absolute end bound |
| Indexing.BoundedExampleFromRange | src/indexing.rs:504-533 | the crate's `from_range(2..7)` test |
| Indexing.SplitMirroredExampleEven | src/indexing.rs:536-577 | mirroring 0..9 pairs `[0,9]` … `[4,5]` |
| Indexing.SplitMirroredExampleOddExcluded | src/indexing.rs:536-577 | mirroring 0..8 under `Exclude` drops the middle LED |
| Indexing.SplitMirroredExampleOddKept | src/indexing.rs:536-577 | under `ToLower`/`ToUpper` the middle LED is paired with itself |
| Indexing.ExtTraitMirroredExample | src/indexing.rs:580-609 | the crate's test of halving then mirroring the lower half, and reversing the mirror |
| Indexing.ExtTraitReversedExample | src/indexing.rs:580-614 | the crate's test of reversing the upper half: its first ordinal is LED 9, its last LED 5 |
| Indexing.CircularExamples | src/indexing.rs:617-627 | the crate's circular tests with offsets 2 and -2 |
| Indexing.SingleIndexed.constructor | src/indexing.rs:403-410 | a new `SingleIndexed` has not been called |
| Indexing.SingleIndexed.Remaining | src/indexing.rs:420-432 | a `SingleIndexed` has at most one id left |
| Indexing.SingleIndexed.Next | src/indexing.rs:423-432 | yields its one id once, then `None` |
| Indexing.ManyIndexed.constructor | src/indexing.rs:371-375 | a new `ManyIndexed` starts at its first id |
| Indexing.ManyIndexed.Remaining | src/indexing.rs:377-389 | the ids still to come are the array from the cursor on |
| Indexing.ManyIndexed.Next | src/indexing.rs:380-389 | yields the next id in array order and advances the cursor, or `None` at the end |
| Indexing.DrainMany | src/indexing.rs:377-396 | draining a fresh `ManyIndexed<N>` yields exactly its N ids in order, then `None` |
| ColorCache.RemoveAt | src/color_cache.rs:95-98 | `Vec::remove(k)`: one element shorter; elements before k kept, later ones shifted down |
| ColorCache.FindRangeToExtend | src/color_cache.rs:28-36 | finds the first range that `led` extends at its start or end, and reports which end |
| ColorCache.FindAdjacentSingle | src/color_cache.rs:105-113 | finds the first single adjacent to `led`, and on which side |
| ColorCache.FindRangeContaining | src/color_cache.rs:90-94 | finds the first range containing `led` |
| ColorCache.FindSingle | src/color_cache.rs:63-67 | finds the first single equal to `led`; `None` iff `led` is not a single |
| ColorCache.RangesLedsOfSnoc | src/color_cache.rs:44-45 | appending a range adds exactly its LEDs |
| ColorCache.RangesLedsOfWidened | src/color_cache.rs:38-43 | widening a range by `led` adds exactly `{led}` |
| ColorCache.SinglesOfRemoveAt | src/color_cache.rs:68-70 | removing a distinct single removes exactly that LED |
| ColorCache.RangesLedsOfRemoveAt | src/color_cache.rs:95-98 | removing one of disjoint ranges removes exactly its LEDs |
| ColorCache.CacheExtendAtStart | src/color_cache.rs:39-40 | extending a range whose start is `led + 1` keeps the invariant and adds exactly `{led}` |
| ColorCache.CacheExtendAtEnd | src/color_cache.rs:41-43 | extending a range whose end is `led` keeps the invariant and adds exactly `{led}` |
| ColorCache.CacheGroup | src/color_cache.rs:104-124 | joining `led` with an adjacent single into a 2-range keeps the invariant and adds exactly `{led}` |
| ColorCache.CachePushSingle | src/color_cache.rs:46-47 | pushing a new single keeps the invariant and adds exactly `{led}` |
| ColorCache.CacheLedAddsLed | src/color_cache.rs:27-49 | `cache_led` of an uncached LED keeps ranges and singles disjoint and grows the stored set by exactly `{led}` |
| ColorCache.PushPieceAdds | src/color_cache.rs:53-60 | pushing a split piece (dropped if empty, a single if of length 1) adds exactly its LEDs |
| ColorCache.RemoveRange | src/color_cache.rs:96-97 | removing the range that holds `led` keeps the invariant and forgets exactly that range's LEDs |
| ColorCache.UncacheFromRange | src/color_cache.rs:51-61 | splitting a range at `led` into `start..led` and `led+1..end` keeps the invariant and removes exactly `{led}` |
| ColorCache.UncacheSingle | src/color_cache.rs:62-73 | removing a single keeps the invariant and removes exactly `{led}` |
| ColorCache.UncacheLedRemovesLed | src/color_cache.rs:51-75 | `uncache_led` keeps the invariant, shrinks the set by exactly `{led}`, returns whether `led` was cached, and changes nothing otherwise |
| ColorCache.RangeLedsCount | src/color_cache.rs:77-87 | a range `a..b` holds `b - a` LEDs |
| ColorCache.RangesLedsCount | src/color_cache.rs:77-87 | disjoint ranges hold the sum of their lengths |
| ColorCache.SinglesCount | src/color_cache.rs:77-87 | distinct singles hold as many LEDs as there are singles |
| ColorCache.CachedSizeCounts | src/color_cache.rs:77-87 | range lengths plus singles is the number of distinct cached LEDs |
| ColorCache.GroupedExample | src/color_cache.rs:250-262 | caching 4 then 5 groups them into `4..6`; removing 4 then 5 leaves nothing |
| ColorCache.NotMaximalExample | src/color_cache.rs:27-49 | caching 7 next to `5..7` and single 8 gives `5..8` plus single 8: ranges need not be maximal |
| ColorCache.SingleColor.constructor | src/color_cache.rs:15-21 | a new bucket stores no LEDs |
| ColorCache.SingleColor.ContainsLedId | src/color_cache.rs:23-25 | true iff `led` is in the stored set |
| ColorCache.SingleColor.CacheLed | src/color_cache.rs:27-49 | the new ranges and singles are those the `cache_led` specification gives |
| ColorCache.SingleColor.GroupingSingleLed | src/color_cache.rs:104-124 | removes an adjacent single and returns the 2-range, or returns `None` and changes nothing |
| ColorCache.SingleColor.UngroupLeds | src/color_cache.rs:89-102 | removes the range containing `led` and returns its two pieces, or returns `None` and changes nothing |
| ColorCache.SingleColor.UncacheLed | src/color_cache.rs:51-75 | new state and result are those the `uncache_led` specification gives |
| ColorCache.SingleColor.CachedSize | src/color_cache.rs:77-87 | the size is the number of stored LEDs |
| ColorCache.ColorCache.constructor | src/color_cache.rs:133-137 | a new cache holds no LEDs and has no bucket |
| ColorCache.ColorCache.Init | src/color_cache.rs:192-197 | creates the bucket with `color` only when there is none; an existing bucket keeps its colour |
| ColorCache.ColorCache.CacheColor | src/color_cache.rs:143-155 | a cached LED returns the bucket colour and changes nothing; an uncached one returns `None` and is added; the bucket colour is the first one ever given |
| ColorCache.ColorCache.LoadColor | src/color_cache.rs:157-166 | the bucket colour iff `led` is cached, else `None`; before initialisation it panics |
| ColorCache.ColorCache.RemoveCache | src/color_cache.rs:169-180 | removes exactly `led`, returns the bucket colour iff it was cached, and never changes the bucket colour |
| ColorCache.ColorCache.CacheSize | src/color_cache.rs:182-188 | the number of distinct cached LEDs, 0 before initialisation |
| ActiveRange.Step | src/animation/running_light.rs:473-561 | one `next`: nothing is left iff the offset reached the window length; a yielded chunk lies inside the strip and strictly decreases the remaining work |
| ActiveRange.ChunksFitStrip | src/animation/running_light.rs:473-561 | every chunk of a terminating window lies inside the strip and inside the window |
| ActiveRange.WrapCoversWindow | src/animation/running_light.rs:501-514 | under Wrap the chunks' progress indices are exactly `offset..W`, in order |
| ActiveRange.ClampAtMostOneChunk | src/animation/running_light.rs:488-500 | under Clamp there is at most one chunk |
| ActiveRange.EmptyWindow | src/animation/running_light.rs:474-477 | an empty window yields nothing |
| ActiveRange.InsideWindowSingleChunk | src/animation/running_light.rs:553-561 | a window inside `[0, L)` yields the single chunk `{anchor, 0..W}` |
| ActiveRange.BothOutsidePanics | src/animation/iterators.rs:280-281 | a window with both ends outside the strip panics |
| ActiveRange.ClampStartOutside | src/animation/iterators.rs:285-297 | Clamp with the start outside yields `{0, abs(A)..W}` only |
| ActiveRange.ClampEndOutside | src/animation/iterators.rs:318-333 | Clamp with the end outside yields `{L-(W-out), 0..W-out}` only; past the strip it panics |
| ActiveRange.WrapStartOutside | src/animation/running_light.rs:501-514 | Wrap with the start outside yields the wrapped part at the strip's end, then the rest from 0 |
| ActiveRange.WrapEndOutside | src/animation/iterators.rs:334-347 | Wrap with the end outside yields the part up to L, then the rest from anchor 0 |
| ActiveRange.WrapAtMostTwoChunks | src/animation/running_light.rs:537-550 | with `W <= L`, Wrap yields at most two chunks, the second anchored at 0, covering exactly `0..W` in order, each inside the strip |
| ActiveRange.ClosedExamples | src/animation/running_light.rs:587-612 | the crate's Clamp test |
| ActiveRange.WrappingExamples | src/animation/running_light.rs:615-636 | the crate's Wrap test |
| ActiveRange.ActiveRangeIter.constructor | src/animation/running_light.rs:449-462 | a new iterator starts at offset 0 with the given anchor, lengths and border |
| ActiveRange.ActiveRangeIter.Update | src/animation/running_light.rs:464-468 | advances the offset by the used length and moves the anchor |
| ActiveRange.ActiveRangeIter.Next | src/animation/running_light.rs:473-561 | returns the chunk and next state the `Step` specification gives, or `None` with nothing changed |
| RunningLightMeta.AnimationLen | src/animation/running_light.rs:24-88 | `fade_len + 2` for FadeTo, `front_fade + back_fade + 2 + peak_len` for Hilled, always at least 2 |
| RunningLightMeta.CalcAnimationJumps | src/animation/running_light.rs:184-191 | `L + (len - 2)` jumps under Clamp and `L - 1` under Wrap |
| RunningLightMeta.NormaliseJump | src/animation/running_light.rs:195-201 | the normalised jump is at most `jumps`, and a jump already in `0..=jumps` is kept |
| RunningLightMeta.NormaliseJumpIsModular | src/animation/running_light.rs:195-201 | normalising does not change the jump modulo `jumps` |
| RunningLightMeta.ScaleTimeToJump | src/animation/running_light.rs:193-202 | the jump for a tick is at most `jumps` |
| RunningLightMeta.ScaleJumpToAnimationStart | src/animation/running_light.rs:204-209 | jump `j` puts the window's last LED on LED `j` (its first LED `len - 1` before it) |
| RunningLightMeta.JumpPlacesWindow | src/animation/running_light.rs:184-209 | jump 0 places the window's last LED on LED 0, the last Clamp jump places its first LED on `L - 1`, and under Wrap every window starts inside the strip |
| RunningLightMeta.WrapRenderIsTotal | src/animation/running_light.rs:501-550 | under Wrap every jump renders without panicking, covering progress indices `0..W` |
| RunningLightMeta.ClampRenderPanicsIffBothOutside | src/animation/running_light.rs:483-484 | under Clamp a jump panics iff its window sticks out at both ends, which cannot happen when `W <= L + 1` |
| RunningLightMeta.SectionCall | src/animation/running_light.rs:348-417 | the curve call for a progress index: FadeTo counts down to 0 over `fade_len + 1`; Hilled rises to the peak, keeps `peak_color` on the plateau, and falls back |
| RunningLightMeta.FadeToEnds | src/animation/running_light.rs:363-370 | FadeTo starts at curve tick `fade_len + 1` and ends at tick 0 |
| RunningLightMeta.HilledEnds | src/animation/running_light.rs:384-402 | the Hilled window starts and ends at the from-colour end of the curve |
| RunningLightMeta.HilledPlateau | src/animation/running_light.rs:403-405 | the Hilled middle section returns `peak_color` unchanged |
| RunningLightMeta.FadeToExample | src/animation/running_light.rs:659-700 | the fade of length 1 of the fade tests spans 3 LEDs, whose curve calls over length 2 take ticks 2, 1, 0, so the window's first LED shows the target colour and its last the start colour |
| RunningLight.ChunkItems | src/animation/running_light.rs:258-291 | the k-th item of chunk `{a, s..e}` is ordinal `a + k` with progress `s + k` |
| RunningLight.ItemsCons | src/animation/running_light.rs:299-321 | the items of chunks are the chunks' items concatenated |
| RunningLight.PartItems | src/animation/running_light.rs:258-291 | the items left in the current chunk start at the chunk's start |
| RunningLight.LitsOf | src/animation/running_light.rs:426-436 | every LED id of one ordinal carries that ordinal's progress |
| RunningLight.MappableTail | src/animation/running_light.rs:299-321 | the LEDs of the items are the first item's LEDs followed by the rest |
| RunningLight.InDomainItemsMappable | src/animation/running_light.rs:305-308 | items whose ordinals lie inside the strip map without error |
| RunningLight.PartAdvance | src/animation/running_light.rs:258-291 | taking an item advances the chunk's start by one |
| RunningLight.FetchChunk | src/animation/running_light.rs:258-291 | fetching a chunk never panics in a terminating window, and the items are the fetched chunk's followed by the rest |
| RunningLight.CurveBatchIterator.constructor | src/animation/running_light.rs:235-255 | the remaining items are the window's chunks flattened |
| RunningLight.CurveBatchIterator.UpdateCurrentIterState | src/animation/running_light.rs:258-291 | returns the next item's anchor part and progress and drops it from the items, or `None` when none are left |
| RunningLight.CurveBatchIterator.TakeFromPart | src/animation/running_light.rs:260-277 | takes the next item of the current chunk, or clears an exhausted chunk |
| RunningLight.CurveBatchIterator.FetchPart | src/animation/running_light.rs:278-287 | fetches the next chunk from the window iterator without changing the items left |
| RunningLight.CurveBatchIterator.Next | src/animation/running_light.rs:299-321 | returns a `FadeIter` over the LEDs of the next item's ordinal with that item's progress |
| RunningLight.AfterLitCaches | src/animation/running_light.rs:348-413 | lighting an LED keeps the cache invariant; it caches the LED, or evicts it when its progress is 0 |
| RunningLight.FadeIter.constructor | src/animation/running_light.rs:310-317 | a new `FadeIter` holds the LEDs and progress of one item |
| RunningLight.FadeIter.CacheLedColor | src/animation/running_light.rs:337-346 | caches `led` with its strip colour; the bucket colour is the first one seeded |
| RunningLight.FadeIter.MapLedIdxToColor | src/animation/running_light.rs:348-417 | the colour is the section colour of the progress index from the start colour, with the cache caching or evicting the LED |
| RunningLight.FadeIter.Next | src/animation/running_light.rs:426-436 | colours the next LED of the item and advances, or `None` when none are left |
| RunningLight.ItemsProgressBelow | src/animation/running_light.rs:258-291 | all progress indices of chunks inside the window are below its length |
| RunningLight.ExpandProgressBelow | src/animation/running_light.rs:426-436 | mapping items through the range keeps their progress indices |
| RunningLight.RenderIter.constructor | src/animation/running_light.rs:176 | the flattened iterator's pending LEDs are the batch's items mapped through the range |
| RunningLight.RenderIter.PendingInWindow | src/animation/running_light.rs:176 | every pending progress index is inside the window |
| RunningLight.RenderIter.FrontNext | src/animation/running_light.rs:426-436 | the current `FadeIter` yields its next LED's colouring |
| RunningLight.RenderIter.TakeFront | src/animation/running_light.rs:426-436 | takes from the current `FadeIter`, or drops it when empty |
| RunningLight.RenderIter.Install | src/animation/running_light.rs:176 | the flattening's front iterator becomes the given one (or none) while what the batch has left and the colour cache stay as they were |
| RunningLight.RenderIter.NextFade | src/animation/running_light.rs:299-321 | the batch's next `FadeIter` covers exactly the first LEDs of what the batch has left, shrinking the batch; `None` only when the batch has nothing left |
| RunningLight.RenderIter.Refill | src/animation/running_light.rs:299-321 | fetches the next `FadeIter` from the batch, or reports that all items are done |
| RunningLight.RenderIter.Advance | src/animation/running_light.rs:176 | one step of the flattening: yield a colouring, or refill while the batch shrinks |
| RunningLight.RenderIter.Next | src/animation/running_light.rs:176 | yields the first pending LED with its section colour and updates the cache, or `None` when nothing is pending |
| RunningLight.RunningLight.constructor | src/animation/running_light.rs:112-138 | a circle wraps at both ends; only a `Dynamic` from-colour gets a (fresh, empty) cache |
| RunningLight.RunningLight.Animate | src/animation/running_light.rs:149-177 | the colourings are, in order, the LEDs the window's chunks map to, each with the progress of its place in the window |
| RunningLight.ExpandRangeMap | src/indexing.rs:440-458 | over a plain range `a..b`, the item with ordinal `k` lights LED `a + k` with its progress, and every such LED lies below `b` |
| RunningLight.FadeTestLight | src/animation/running_light.rs:660-679 | the light of the fade tests has a 3-LED window over 4 LEDs, 3 jumps when wrapping and 5 when closed |
| RunningLight.FrameOfChunks | src/animation/running_light.rs:149-177 | when the window for a tick yields given chunks, the frame is their items mapped through the range |
| RunningLight.WrappedTickZeroExample | src/animation/running_light.rs:705-734 | the wrapped fade over 6..10 at tick 0 lights LEDs 8, 9, 6 with progress 0, 1, 2 (target colour, halfway, start colour by `FadeToExample`) |
| RunningLight.WrappedTick14Example | src/animation/running_light.rs:736-743 | at tick 14 it lights LEDs 9, 6, 7 with progress 0, 1, 2 |
| RunningLight.WrappedTick40Example | src/animation/running_light.rs:745-752 | at tick 40 it lights LEDs 7, 8, 9 with progress 0, 1, 2 |
| RunningLight.FadeToTick0Example | src/animation/running_light.rs:660-681 | the closed fade over 6..10 at tick 0 lights LED 6 alone, with progress 2 (the start colour) |
| RunningLight.FadeToTick8Example | src/animation/running_light.rs:683-686 | at tick 8 it lights LEDs 6 and 7 with progress 1 and 2 |
| RunningLight.FadeToTick16Example | src/animation/running_light.rs:688-695 | at tick 16 it lights LEDs 6, 7, 8 with progress 0, 1, 2 |
| RunningLight.FadeToTick32Example | src/animation/running_light.rs:697-700 | at tick 32 it lights LEDs 8 and 9 with progress 0 and 1 |
| RunningLight.FadeToTick40Example | src/animation/running_light.rs:702 | at tick 40 it lights LED 9 alone, with progress 0 (the target colour) |
| StaticAnimation.MappedLeds | src/animation/static_animation.rs:57-69 | the LEDs the range maps its ordinals `0..len` to, in order |
| StaticAnimation.Emitted | src/animation/static_animation.rs:123-143 | the colourings from ordinal `from` on: the i-th for LED `range.index(from+i)`, all in the same colour |
| StaticAnimation.SeedBucket | src/color_cache.rs:192-197 | seeding a non-empty LED list fixes a bucket colour; an existing one is kept |
| StaticAnimation.SeedCachesAll | src/animation/static_animation.rs:57-70 | seeding keeps the cache invariant and caches exactly the seeded LEDs |
| StaticAnimation.EmptyStoreHoldsNothing | src/color_cache.rs:133-137 | an empty store is well formed and holds no LEDs |
| StaticAnimation.RangeMapLeds | src/indexing.rs:440-458 | the range `a..b` maps its ordinals to `a, a+1, .., b-1` |
| StaticAnimation.SeedExtends | src/color_cache.rs:37-40 | seeding `k..b` into the cached range `a..k` grows it to `a..b` |
| StaticAnimation.SeedFirstTwo | src/color_cache.rs:27-48 | the first LED offered to an empty cache is pushed as a single, and its successor groups with it into the range `a..a+2` |
| StaticAnimation.SeedRangeMap | src/animation/static_animation.rs:57-70 | seeding a range of at least two LEDs into an empty cache gives one range |
| StaticAnimation.SwitchLedsOnExample | src/animation/static_animation.rs:159-168 | range 0..6 emits LEDs 0..5 in order, each with the given colour |
| StaticAnimation.SwitchLedsOnSeedExample | src/animation/static_animation.rs:159-168 | caching LEDs 0..5 in an empty cache leaves the one range `0..6` and no single LED |
| StaticAnimation.SeedState | src/animation/static_animation.rs:57-70 | the cache is empty without a bucket, or holds all mapped LEDs under a bucket |
| StaticAnimation.IterReady | src/animation/static_animation.rs:123-130 | every LED still to emit is cached under a bucket colour |
| StaticAnimation.UnseededHasNoBucket | src/animation/static_animation.rs:57 | an empty cache of a static animation has no bucket |
| StaticAnimation.SeedingReachesSeedState | src/animation/static_animation.rs:57-70 | seeding an empty cache from the strip reaches the seeded state |
| StaticAnimation.SeedStateReady | src/animation/static_animation.rs:71-78 | after seeding, a fresh iterator can load every LED's colour |
| StaticAnimation.StaticAnimation.constructor | src/animation/static_animation.rs:30-39 | a new static animation has a fresh, empty cache |
| StaticAnimation.StaticAnimation.Duration | src/animation/static_animation.rs:81-83 | the duration given at construction |
| StaticAnimation.StaticAnimation.Animate | src/animation/static_animation.rs:51-79 | seeds the cache from the strip only when it is empty; the iterator then emits every mapped LED in the colour of the curve from the bucket colour |
| StaticAnimation.StaticAnimation.SeedAll | src/animation/static_animation.rs:58-69 | the loop caches every mapped LED with its strip colour; the bucket is the first LED's colour |
| StaticAnimation.SeedUnfold | src/animation/static_animation.rs:58-69 | one loop step offers the next LED to the cache |
| StaticAnimation.SingleBatchIterator.constructor | src/animation/static_animation.rs:97-114 | a new iterator starts at ordinal 0 |
| StaticAnimation.SingleBatchIterator.Next | src/animation/static_animation.rs:123-143 | yields the next mapped LED's colouring and advances, or `None` at the end |
| Animation.NewIterationState | src/animation/mod.rs:37-52 | `Single` iff both are 0, `First` iff only the remaining count is positive, `Last` iff only the index is positive, `Looping` iff both are |
| Animation.NewIterationStateRoundTrip | src/animation/mod.rs:37-52 | the index and remaining count read back from the state are those it was made from |
| Animation.NewIterationStateCanonical | src/animation/mod.rs:37-52 | every well-formed state is the one `new` builds from its own fields |
| Animation.SingleIteration | src/animation/mod.rs:54-57 | `IterationState::single()` is `Single` |
| Animation.TimedAnimationDelegates | src/animation/mod.rs:155-178 | `at_tick` is the stored start; `duration` and `animate` are the wrapped animation's |
| Strip.SetLedToColor | src/strip.rs:36-39 | sets `led` to the colour and leaves every other LED unchanged |
| Strip.LastWrite | src/processing.rs:69-73 | the position of the last colouring for `led`, or -1 when there is none |
| Strip.ApplyWritesLastWins | src/processing.rs:69-73 | after writing colourings in order, each LED has the colour of its last colouring, or its old colour |
| Strip.ApplyWritesAppend | src/processing.rs:64-74 | writing two batches one after the other is writing their concatenation |
| Timeline.Active | src/timeline.rs:105-125 | the active entries (`start < tick <= start + duration`), a sub-list of the entries |
| Timeline.NewBuilder | src/timeline.rs:35-40 | a new builder is empty and not repeating |
| Timeline.AddAnimation | src/timeline.rs:42-51 | appends the entry and keeps the repeat flag |
| Timeline.Repeating | src/timeline.rs:53-56 | sets the repeat flag and keeps the entries |
| Timeline.InsertByStart | src/timeline.rs:60 | inserting adds exactly one entry |
| Timeline.InsertSorted | src/timeline.rs:60 | inserting into a sorted list keeps it sorted and adds the entry to the multiset |
| Timeline.InsertStable | src/timeline.rs:60 | an inserted entry goes after the entries with the same start |
| Timeline.SortByStart | src/timeline.rs:60 | sorting keeps the number of entries |
| Timeline.SortIsStable | src/timeline.rs:60 | the sort orders by start, is a permutation, and keeps the order of entries with equal starts |
| Timeline.Finish | src/timeline.rs:58-65 | the timeline's entries are the builder's, stably sorted by start, with the same repeat flag |
| Timeline.NewTimeline | src/timeline.rs:74-78 | a new timeline is empty with the given repeat flag |
| Timeline.RepeatFlag | src/timeline.rs:147-149 | `should_repeat` is false by default, true after `repeating()`, and unaffected by `add_animation` |
| Timeline.HasFinishedMonotone | src/timeline.rs:139-145 | once finished, a timeline stays finished at later ticks |
| Timeline.LastActiveNotFinished | src/timeline.rs:139-145 | while the last entry is active the timeline has not finished |
| Timeline.NoneActiveAfterEnds | src/timeline.rs:106-116 | after every entry has ended, none is active |
| Timeline.FinishedIsIdle | src/timeline.rs:139-145 | when the last entry ends last, a finished timeline has no active entries |
| Timeline.FinishedWhileActiveExample | src/timeline.rs:139-145 | a 100-tick entry at 0 and a 5-tick entry at 10: finished at tick 20, yet the first entry is still active |
| Timeline.SortedIsFixed | src/timeline.rs:60 | sorting a sorted list changes nothing |
| Timeline.FirstUnexpired | src/timeline.rs:106-116 | the scan skips exactly the expired entries and stops at the first unexpired one |
| Timeline.NextSpec | src/timeline.rs:105-125 | `next` skips expired entries and yields the first unexpired one iff it has started, moving past it either way |
| Timeline.Drain | src/timeline.rs:105-125 | the items before the first `None` are all active |
| Timeline.SkipExpired | src/timeline.rs:111-112 | skipping expired entries does not change the active ones |
| Timeline.NoneStarted | src/timeline.rs:119-123 | when no entry has started, none is active |
| Timeline.DrainIsActive | src/timeline.rs:105-125 | on sorted entries the items before the first `None` are exactly the active entries, in order |
| Timeline.SortedStaysExhausted | src/timeline.rs:105-125 | on sorted entries, after one `None` the next call is `None` too |
| Timeline.NotFusedExample | src/timeline.rs:105-125 | on unsorted entries a `None` can be followed by an entry: the iterator is not fused |
| Timeline.DynTimelineIter.constructor | src/timeline.rs:87-97 | a new iterator starts at the first entry |
| Timeline.DynTimelineIter.Next | src/timeline.rs:105-125 | returns the entry and position the `next` specification gives |
| Processing.NoWorkSticky | src/processing.rs:48-55 | `no_work` never returns to false, and becomes true exactly when a finished timeline does not repeat |
| Processing.BookkeepAdvances | src/processing.rs:48-55 | the offset only moves forward, up to the current tick; the index grows by one iff a finished timeline repeats, and then the offset becomes the current tick |
| Processing.PassState | src/processing.rs:61 | the iteration state is `First` on the first pass and `Looping` afterwards |
| Processing.DrainStep | src/processing.rs:64 | the entries rendered are the next active one followed by those after it |
| Processing.RenderEntriesCons | src/processing.rs:64-74 | rendering entries is rendering the first, then the rest on the updated strip |
| Processing.DrainAtStart | src/processing.rs:57-58 | at tick 0 no entry is rendered |
| Processing.SingleEntryLastWins | src/processing.rs:64-74 | after one entry, each LED has its last colouring's colour, or keeps its old one |
| Processing.TwoAnimationScenario | src/processing.rs:47-74 | two 5-tick entries at 0 and 10: only the first renders at 3, only the second at 12, and at 20 the processor has no work |
| Processing.TwoAnimationDrains | src/timeline.rs:105-125 | of two 5-tick entries at 0 and 10, only the first is drained at tick 3 and only the second at tick 12 |
| Processing.TwoAnimationTimeline | src/timeline.rs:42-65 | building two entries gives them in start order, not repeating |
| Processing.RenderSortedIsActive | src/processing.rs:57-74 | on a sorted timeline the processor renders exactly the active entries, in order |
| Processing.TimelineProcessor.constructor | src/processing.rs:29-38 | a new processor has offset 0, index 0 and work to do |
| Processing.TimelineProcessor.Update | src/processing.rs:47-75 | bookkeeping as specified, then every active entry rendered at `(current - offset) - start` with `IterationState::new(index, u32::MAX)`, writes in order |
| Processing.TimelineProcessor.DoBookkeeping | src/processing.rs:48-55 | the new offset, index and `no_work` are those bookkeeping gives |
| Processing.TimelineProcessor.RenderCurrent | src/processing.rs:57-74 | renders at tick `current - offset` with `IterationState::new(index, u32::MAX)`, the new strip being the old one with the drained entries' writes applied in order |
| Processing.TimelineProcessor.RenderAt | src/processing.rs:57-74 | the strip afterwards is the old one with the entries the iterator yields rendered in order |
| Processing.TimelineProcessor.RenderAndAdvance | src/processing.rs:64-74 | renders one entry and fetches the next, keeping what is left to render |
| Processing.TimelineProcessor.RenderEntry | src/processing.rs:65-73 | writes the entry's colourings for its local tick onto the strip |
| Processing.TimelineProcessor.WriteColorings | src/processing.rs:69-73 | writes the colourings onto the strip in order |

## Left out

- Colour maths (`src/color.rs`): RGB/HSV conversion, easing and `f32` arithmetic. Colours are opaque values.
- Easing curves (`src/curve.rs`): `calculate_with_curve` is the function parameter `CurveFn`.
- The time-to-jump division of `scale_time_to_jump` (`src/animation/running_light.rs:194`) is floating
  point. It is the parameter `ScaleFn`; only the integer normalisation after it is modelled.
- `src/controller.rs`, `src/pattern.rs`, `src/util.rs`, `src/animation/testing.rs` and `src/lib.rs`
  are not part of this model (handles, `f32` patterns, test harness, module declarations).
- The strip hardware (`update_leds`, `set_leds_to_color`) is not modelled; the strip is a total map
  from LED id to colour.
- `Rc<RefCell<…>>` sharing: the cache is owned by its animation. The strip is a value that the processor
  owns and passes to each animation. The processor sees each animation as an opaque function from local
  tick, strip and meta to a list of colourings. The aliasing and borrow checks are not modelled.
- `RunningLight::duration` and `TimedAnimation::animation_duration` return a stored value; they are fields of the model.
- RunningLight.RunningLight.Animate: requires that the whole window renders without panicking (`RendersAt`);
  this is sufficient for the source not to panic, not the exact panic condition.
- StaticAnimation.StaticAnimation.Animate: requires that the range fits u16 and that seeding never adds
  `led + 1` past u16 (`SeedOk`); this is sufficient for the source not to panic, not the exact panic condition.
- Processing.TimelineProcessor.Update: requires that the iteration index does not overflow u32 when a
  finished timeline repeats; the source would panic there in debug builds and wrap in release builds.
- Timeline.HasFinished: no contract of its own; its meaning is stated by `HasFinishedMonotone`,
  `LastActiveNotFinished` and `FinishedIsIdle`.

## Findings

| source | as written | input that shows it | evidently intended | confidence | as-written member | corrected member |
|---|---|---|---|---|---|---|
| src/indexing.rs:242-248 | an `Included(o)` end bound becomes `Absolute(o + 1)`, one past the last included LED | `BoundedIndexed::from_range(&[0, 1, 2, 3, 4, 5, 6, 7, 8, 9], 0..=4)` has `len` 6, and ordinal 5 maps to LED 5 | `Included(o)` as end becomes `Absolute(o)`, so `0..=4` has 5 ordinals ending at LED 4 | not executed | Indexing.InclusiveRangeAsWrittenKeepsOneMore | Indexing.InclusiveRangeIntended |
| src/indexing.rs:242-247 | an `Excluded(o)` start bound becomes `Absolute(o - 0)`, so LED `o` is kept as the first one | `BoundedIndexed::from_range(&[0, 1, 2, 3, 4, 5, 6, 7, 8, 9], (Bound::Excluded(2), Bound::Excluded(6)))` has `len` 4, and ordinal 0 maps to LED 2 | `Excluded(o)` as start becomes `Absolute(o + 1)`, so the range keeps LEDs 3 to 5 | not executed | Indexing.ExcludedStartAsWrittenKeepsStart | Indexing.ExcludedRangeIntended |
