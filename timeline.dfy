/**
 * The timeline of src/timeline.rs: a builder collects animations with their
 * start ticks, `finish` sorts them by start tick, and at each tick
 * `DynTimelineIter` hands out the entries that are running.
 *
 * An entry runs at tick t when `start < t <= start + duration`. The u32 sum
 * `start + duration` panics on overflow; `EndsFit` excludes that.
 */
module Timeline {
  import opened Wrappers
  import opened Animation

  /** `e.0 + e.animation_duration()`: the last tick at which the entry runs. */
  function EndTick(e: TimedAnimation): nat {
    e.atTick + e.animation.duration
  }

  /** No entry's end tick overflows u32. */
  predicate EndsFit(es: seq<TimedAnimation>) {
    forall k :: 0 <= k < |es| ==> EndTick(es[k]) <= U32Max
  }

  /** The entry is over at `tick`: the iterator skips it. */
  predicate Expired(e: TimedAnimation, tick: U32) {
    tick > EndTick(e)
  }

  /** The entry runs at `tick`: it has started and is not over. */
  predicate IsActive(e: TimedAnimation, tick: U32) {
    e.atTick < tick <= EndTick(e)
  }

  /** Entries in ascending order of start tick. */
  predicate SortedByStart(es: seq<TimedAnimation>) {
    forall j, k :: 0 <= j < k < |es| ==> es[j].atTick <= es[k].atTick
  }

  /** The entries running at `tick`, in timeline order. */
  function Active(es: seq<TimedAnimation>, tick: U32): (r: seq<TimedAnimation>)
    ensures |r| <= |es|
    ensures forall k :: 0 <= k < |r| ==> IsActive(r[k], tick) && r[k] in es
  {
    if es == [] then []
    else (if IsActive(es[0], tick) then [es[0]] else []) + Active(es[1..], tick)
  }

  /** The entries that start at `tick`, in timeline order. */
  function StartingAt(es: seq<TimedAnimation>, tick: U32): seq<TimedAnimation> {
    if es == [] then []
    else StartingAt(es[..|es| - 1], tick) + (if es[|es| - 1].atTick == tick then [es[|es| - 1]] else [])
  }

  // ---------------------------------------------------------------------------------------------
  // DynTimelineBuilder

  /** `DynTimelineBuilder`: consumed and returned by each builder call. */
  datatype DynTimelineBuilder = DynTimelineBuilder(animations: seq<TimedAnimation>, repeating: bool)

  /** `DynTimeline`: entries sorted by start tick, and the repeat flag. */
  datatype DynTimeline = DynTimeline(entries: seq<TimedAnimation>, repeating: bool)

  /** `DynTimelineBuilder::new`: no animations and no repetition. */
  function NewBuilder(): (b: DynTimelineBuilder)
    ensures b.animations == [] && !b.repeating
  {
    DynTimelineBuilder([], false)
  }

  /** `add_animation`: appends the animation, to start at `start`. */
  function AddAnimation(b: DynTimelineBuilder, start: U32, animation: BoxedAnimation): (r: DynTimelineBuilder)
    ensures r.animations == b.animations + [TimedAnimation(start, animation)]
    ensures r.repeating == b.repeating
  {
    b.(animations := b.animations + [TimedAnimation(start, animation)])
  }

  /** `repeating`: sets the repeat flag and keeps the animations. */
  function Repeating(b: DynTimelineBuilder): (r: DynTimelineBuilder)
    ensures r.animations == b.animations && r.repeating
  {
    b.(repeating := true)
  }

  /**
   * Puts `x` after the last entry of `s` that starts no later than `x` does:
   * one step of a stable insertion sort.
   */
  function InsertByStart(s: seq<TimedAnimation>, x: TimedAnimation): (r: seq<TimedAnimation>)
    ensures |r| == |s| + 1
    decreases |s|
  {
    if s == [] then [x]
    else if s[|s| - 1].atTick <= x.atTick then s + [x]
    else InsertByStart(s[..|s| - 1], x) + [s[|s| - 1]]
  }

  /** Inserting into a sorted sequence keeps it sorted, and adds `x` and nothing else. */
  lemma {:induction false} InsertSorted(s: seq<TimedAnimation>, x: TimedAnimation)
    requires SortedByStart(s)
    ensures SortedByStart(InsertByStart(s, x))
    ensures multiset(InsertByStart(s, x)) == multiset(s) + multiset{x}
    decreases |s|
  {
    if s == [] {
    } else if s[|s| - 1].atTick <= x.atTick {
      SnocSorted(s, x);
    } else {
      var init, last := s[..|s| - 1], s[|s| - 1];
      assert s == init + [last];
      InsertSorted(init, x);
      var r' := InsertByStart(init, x);
      forall k | 0 <= k < |r'| ensures r'[k].atTick <= last.atTick {
        assert r'[k] in multiset(r');
        assert r'[k] == x || r'[k] in multiset(init);
      }
      SnocSorted(r', last);
      assert InsertByStart(s, x) == r' + [last];
    }
  }

  /** Appending an entry that starts no earlier than any other keeps a sequence sorted. */
  lemma SnocSorted(s: seq<TimedAnimation>, x: TimedAnimation)
    requires SortedByStart(s) && (s != [] ==> s[|s| - 1].atTick <= x.atTick)
    ensures SortedByStart(s + [x])
  {
    var r := s + [x];
    forall j, k | 0 <= j < k < |r| ensures r[j].atTick <= r[k].atTick {
      if k == |s| {
        assert r[j] == s[j] && r[k] == x;
        assert s[j].atTick <= s[|s| - 1].atTick;
      } else {
        assert r[j] == s[j] && r[k] == s[k];
      }
    }
  }

  /** Inserting keeps the order of the entries that start at any one tick, with `x` last among its own. */
  lemma {:induction false} InsertStable(s: seq<TimedAnimation>, x: TimedAnimation, t: U32)
    ensures StartingAt(InsertByStart(s, x), t) == StartingAt(s, t) + (if x.atTick == t then [x] else [])
    decreases |s|
  {
    if s == [] {
      assert [x][..0] == [];
    } else if s[|s| - 1].atTick <= x.atTick {
      assert (s + [x])[..|s|] == s;
    } else {
      var init, last := s[..|s| - 1], s[|s| - 1];
      InsertStable(init, x, t);
      var r' := InsertByStart(init, x);
      assert (r' + [last])[..|r'|] == r';
    }
  }

  /**
   * The stable sort of `sort_by(|a, b| a.0.cmp(&b.0))`, as an insertion sort
   * from the front.
   */
  function SortByStart(s: seq<TimedAnimation>): (r: seq<TimedAnimation>)
    ensures |r| == |s|
    decreases |s|
  {
    if s == [] then [] else InsertByStart(SortByStart(s[..|s| - 1]), s[|s| - 1])
  }

  /**
   * The sort yields a sorted permutation, and entries with the same start
   * tick stay in their original order.
   */
  lemma {:induction false} SortIsStable(s: seq<TimedAnimation>)
    ensures SortedByStart(SortByStart(s))
    ensures multiset(SortByStart(s)) == multiset(s)
    ensures forall t: U32 :: StartingAt(SortByStart(s), t) == StartingAt(s, t)
    decreases |s|
  {
    if s != [] {
      var init, last := s[..|s| - 1], s[|s| - 1];
      assert s == init + [last];
      SortIsStable(init);
      InsertSorted(SortByStart(init), last);
      forall t: U32 ensures StartingAt(SortByStart(s), t) == StartingAt(s, t) {
        InsertStable(SortByStart(init), last, t);
      }
    }
  }

  /** `finish`: the builder's animations, stably sorted by start tick, and its repeat flag. */
  function Finish(b: DynTimelineBuilder): (t: DynTimeline)
    ensures SortedByStart(t.entries)
    ensures multiset(t.entries) == multiset(b.animations)
    ensures forall tick: U32 :: StartingAt(t.entries, tick) == StartingAt(b.animations, tick)
    ensures t.repeating == b.repeating
  {
    SortIsStable(b.animations);
    DynTimeline(SortByStart(b.animations), b.repeating)
  }

  /** `DynTimeline::new`: an empty timeline. */
  function NewTimeline(repeating: bool): (t: DynTimeline)
    ensures t.entries == [] && t.repeating == repeating
  {
    DynTimeline([], repeating)
  }

  // ---------------------------------------------------------------------------------------------
  // has_finished, should_repeat

  /**
   * `has_finished`: an empty timeline has finished; otherwise only the entry
   * that sorts last is consulted, and the timeline has finished once that
   * entry is over.
   */
  function HasFinished(t: DynTimeline, tick: U32): bool
    requires EndsFit(t.entries)
  {
    if t.entries == [] then true
    else EndTick(t.entries[|t.entries| - 1]) < tick
  }

  /** `should_repeat` */
  function ShouldRepeat(t: DynTimeline): bool {
    t.repeating
  }

  /** The repeat flag is off unless `repeating()` is called, and `should_repeat` reports it. */
  lemma RepeatFlag(b: DynTimelineBuilder, start: U32, a: BoxedAnimation)
    ensures !ShouldRepeat(Finish(NewBuilder()))
    ensures ShouldRepeat(Finish(Repeating(b)))
    ensures ShouldRepeat(Finish(AddAnimation(b, start, a))) == ShouldRepeat(Finish(b))
    ensures ShouldRepeat(Finish(b)) == b.repeating
  {
  }

  /** Once finished, a timeline stays finished at every later tick. */
  lemma HasFinishedMonotone(t: DynTimeline, a: U32, b: U32)
    requires EndsFit(t.entries) && a <= b && HasFinished(t, a)
    ensures HasFinished(t, b)
  {
  }

  /** A timeline whose last entry is running has not finished. */
  lemma LastActiveNotFinished(t: DynTimeline, tick: U32)
    requires EndsFit(t.entries) && t.entries != [] && IsActive(t.entries[|t.entries| - 1], tick)
    ensures !HasFinished(t, tick)
  {
  }

  /** No entry of `es` runs at a tick after all their ends. */
  lemma {:induction false} NoneActiveAfterEnds(es: seq<TimedAnimation>, tick: U32)
    requires forall k :: 0 <= k < |es| ==> EndTick(es[k]) < tick
    ensures Active(es, tick) == []
    decreases |es|
  {
    if es != [] {
      NoneActiveAfterEnds(es[1..], tick);
    }
  }

  /**
   * When no entry ends after the entry that sorts last, a finished timeline
   * has no entry running.
   */
  lemma FinishedIsIdle(t: DynTimeline, tick: U32)
    requires EndsFit(t.entries) && t.entries != []
    requires forall k :: 0 <= k < |t.entries| ==> EndTick(t.entries[k]) <= EndTick(t.entries[|t.entries| - 1])
    requires HasFinished(t, tick)
    ensures Active(t.entries, tick) == []
  {
    NoneActiveAfterEnds(t.entries, tick);
  }

  /**
   * Only the last entry is consulted: an earlier, longer entry can still be
   * running when `has_finished` already reports true.
   */
  lemma FinishedWhileActiveExample(a: BoxedAnimation, b: BoxedAnimation)
    requires a.duration == 100 && b.duration == 5
    ensures var t := Finish(AddAnimation(AddAnimation(NewBuilder(), 0, a), 10, b));
            EndsFit(t.entries) && HasFinished(t, 20) && Active(t.entries, 20) == [TimedAnimation(0, a)]
  {
    var s := [TimedAnimation(0, a), TimedAnimation(10, b)];
    assert AddAnimation(AddAnimation(NewBuilder(), 0, a), 10, b).animations == s;
    SortedIsFixed(s);
    assert Active(s[1..], 20) == [];
  }

  /** Sorting a sorted sequence changes nothing. */
  lemma {:induction false} SortedIsFixed(s: seq<TimedAnimation>)
    requires SortedByStart(s)
    ensures SortByStart(s) == s
    decreases |s|
  {
    if s != [] {
      var init := s[..|s| - 1];
      SortedIsFixed(init);
      assert s == init + [s[|s| - 1]];
    }
  }

  // ---------------------------------------------------------------------------------------------
  // DynTimelineIter

  /** The first entry at or after `i` that is not over at `tick`, or `|s|`. */
  function FirstUnexpired(s: seq<TimedAnimation>, i: nat, tick: U32): (j: nat)
    requires i <= |s|
    ensures i <= j <= |s|
    ensures forall k :: i <= k < j ==> Expired(s[k], tick)
    ensures j < |s| ==> !Expired(s[j], tick)
    decreases |s| - i
  {
    if i == |s| then i
    else if Expired(s[i], tick) then FirstUnexpired(s, i + 1, tick)
    else i
  }

  /**
   * One `next` from cursor `i`: skip the entries that are over; at the end,
   * `None` with the cursor at the end; otherwise step past the entry found and
   * yield it if it has started, else `None`.
   */
  function NextSpec(s: seq<TimedAnimation>, i: nat, tick: U32): (r: (Option<TimedAnimation>, nat))
    requires i <= |s|
    ensures i <= r.1 <= |s|
    ensures r.0.Some? ==> i < r.1 && r.0.value == s[r.1 - 1] && IsActive(r.0.value, tick)
    ensures r.0.Some? ==> forall k :: i <= k < r.1 - 1 ==> Expired(s[k], tick)
    ensures r.0.None? && r.1 < |s| ==> i < r.1 && !Expired(s[r.1 - 1], tick) && s[r.1 - 1].atTick >= tick
    ensures r.0.None? && r.1 == |s| ==> forall k :: i <= k < |s| ==> Expired(s[k], tick) || s[k].atTick >= tick
  {
    var j := FirstUnexpired(s, i, tick);
    if j == |s| then (None, j)
    else if s[j].atTick < tick then (Some(s[j]), j + 1)
    else (None, j + 1)
  }

  /** What the iterator yields from cursor `i` until its first `None`. */
  function Drain(s: seq<TimedAnimation>, i: nat, tick: U32): (r: seq<TimedAnimation>)
    requires i <= |s|
    ensures forall k :: 0 <= k < |r| ==> IsActive(r[k], tick)
    decreases |s| - i
  {
    var (e, j) := NextSpec(s, i, tick);
    if e.None? then [] else [e.value] + Drain(s, j, tick)
  }

  /** Skipping entries that are over does not change what runs. */
  lemma {:induction false} SkipExpired(s: seq<TimedAnimation>, i: nat, j: nat, tick: U32)
    requires i <= j <= |s|
    requires forall k :: i <= k < j ==> Expired(s[k], tick)
    ensures Active(s[i..], tick) == Active(s[j..], tick)
    decreases j - i
  {
    if i < j {
      assert s[i..][1..] == s[i + 1..];
      SkipExpired(s, i + 1, j, tick);
    }
  }

  /** Entries that have not started by `tick` do not run. */
  lemma {:induction false} NoneStarted(s: seq<TimedAnimation>, tick: U32)
    requires forall k :: 0 <= k < |s| ==> s[k].atTick >= tick
    ensures Active(s, tick) == []
    decreases |s|
  {
    if s != [] {
      NoneStarted(s[1..], tick);
    }
  }

  /**
   * Over sorted entries, the iterator yields, before its first `None`,
   * exactly the entries running at `tick`, in order.
   */
  lemma {:induction false} DrainIsActive(s: seq<TimedAnimation>, i: nat, tick: U32)
    requires SortedByStart(s) && i <= |s|
    ensures Drain(s, i, tick) == Active(s[i..], tick)
    decreases |s| - i
  {
    var j := FirstUnexpired(s, i, tick);
    DrainAtFirstUnexpired(s, i, tick);
    ActiveAtFirstUnexpired(s, i, tick);
    if j < |s| {
      if s[j].atTick < tick {
        DrainIsActive(s, j + 1, tick);
      } else {
        NotYetStarted(s, j, tick);
      }
    }
  }

  /** What runs from `i` on is what runs from the first entry there that is not over. */
  lemma ActiveAtFirstUnexpired(s: seq<TimedAnimation>, i: nat, tick: U32)
    requires i <= |s|
    ensures var j := FirstUnexpired(s, i, tick);
            Active(s[i..], tick) ==
              if j == |s| then []
              else if s[j].atTick < tick then [s[j]] + Active(s[j + 1..], tick)
              else Active(s[j..], tick)
  {
    var j := FirstUnexpired(s, i, tick);
    SkipExpired(s, i, j, tick);
    var rest := s[j..];
    if j < |s| {
      assert rest[0] == s[j] && rest[1..] == s[j + 1..];
      if s[j].atTick < tick {
        assert Active(rest, tick) == [s[j]] + Active(s[j + 1..], tick);
      }
    } else {
      assert rest == [];
    }
  }

  /**
   * The iterator yields, from cursor `i`, the first entry that is not over
   * followed by what it yields after it, when that entry has started; else nothing.
   */
  lemma DrainAtFirstUnexpired(s: seq<TimedAnimation>, i: nat, tick: U32)
    requires i <= |s|
    ensures var j := FirstUnexpired(s, i, tick);
            Drain(s, i, tick) == if j < |s| && s[j].atTick < tick then [s[j]] + Drain(s, j + 1, tick) else []
  {
    var j := FirstUnexpired(s, i, tick);
    if j == |s| {
      assert NextSpec(s, i, tick).0.None?;
    } else if s[j].atTick < tick {
      assert NextSpec(s, i, tick) == (Some(s[j]), j + 1);
    } else {
      assert NextSpec(s, i, tick) == (None, j + 1);
    }
  }

  /** In sorted entries, nothing from an entry that has not started by `tick` on runs. */
  lemma NotYetStarted(s: seq<TimedAnimation>, j: nat, tick: U32)
    requires SortedByStart(s) && j < |s| && s[j].atTick >= tick
    ensures Active(s[j..], tick) == []
  {
    var rest := s[j..];
    forall k | 0 <= k < |rest| ensures rest[k].atTick >= tick {
      assert rest[k] == s[j + k];
    }
    NoneStarted(rest, tick);
  }

  /** Over sorted entries a `None` is final: the next call yields `None` too. */
  lemma SortedStaysExhausted(s: seq<TimedAnimation>, i: nat, tick: U32)
    requires SortedByStart(s) && i <= |s| && NextSpec(s, i, tick).0.None?
    ensures NextSpec(s, NextSpec(s, i, tick).1, tick).0.None?
  {
  }

  /**
   * The iterator is not fused: over unsorted entries a `None` for an entry
   * that has not started can be followed by an entry that runs.
   */
  lemma NotFusedExample(a: BoxedAnimation, b: BoxedAnimation)
    requires a.duration == 10 && b.duration == 10
    ensures var s := [TimedAnimation(5, a), TimedAnimation(0, b)];
            NextSpec(s, 0, 3) == (None, 1) && NextSpec(s, 1, 3) == (Some(TimedAnimation(0, b)), 2)
  {
    var s := [TimedAnimation(5, a), TimedAnimation(0, b)];
    assert FirstUnexpired(s, 0, 3) == 0;
    assert FirstUnexpired(s, 1, 3) == 1;
  }

  /** `DynTimelineIter`: a cursor over the entries, for one tick. */
  class DynTimelineIter {
    const s: seq<TimedAnimation>
    var actIndex: nat
    const withinTick: U32

    /** `DynTimelineIter::new` (`get_current_entries`): the cursor starts at the first entry. */
    constructor (animations: seq<TimedAnimation>, withinTick: U32)
      ensures s == animations && actIndex == 0 && this.withinTick == withinTick
    {
      s := animations;
      actIndex := 0;
      this.withinTick := withinTick;
    }

    /** `next`: skips the entries that are over, then yields the entry found if it has started. */
    method Next() returns (r: Option<TimedAnimation>)
      requires EndsFit(s) && actIndex <= |s|
      modifies this
      ensures (r, actIndex) == NextSpec(s, old(actIndex), withinTick)
    {
      while actIndex < |s| && withinTick > s[actIndex].atTick + s[actIndex].animation.duration
        invariant old(actIndex) <= actIndex <= |s|
        invariant FirstUnexpired(s, actIndex, withinTick) == FirstUnexpired(s, old(actIndex), withinTick)
        decreases |s| - actIndex
      {
        actIndex := actIndex + 1;
      }
      if actIndex == |s| {
        return None;
      }
      var an := s[actIndex];
      actIndex := actIndex + 1;
      if an.atTick < withinTick {
        r := Some(an);
      } else {
        r := None;
      }
    }
  }
}
