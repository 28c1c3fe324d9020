/**
 * `TimelineProcessor` of src/processing.rs: once per tick it does the repeat
 * bookkeeping of its timeline, then renders every running entry at the
 * entry's local tick and writes each colouring to the strip.
 *
 * The strip, shared through `Rc<RefCell<S>>` in the source, is owned by the
 * processor here. Each animation is seen only through `animate` and
 * `duration` (`Box<dyn Animation>`).
 */
module Processing {
  import opened Wrappers
  import opened Indexing
  import opened Color
  import opened Strip
  import opened Animation
  import opened Timeline

  /** The processor's bookkeeping: `tick_offset`, `iteration_index`, `no_work`. */
  datatype Bookkeeping = Bookkeeping(tickOffset: U32, iterationIndex: U32, noWork: bool)

  /**
   * The first half of `update`: when the timeline has finished at the local
   * tick, a repeating timeline starts over at `currentTick` with the next
   * iteration index, and any other timeline marks the processor as out of work.
   */
  function Bookkeep(st: Bookkeeping, finished: bool, repeat: bool, currentTick: U32): (r: Bookkeeping)
    requires finished && repeat ==> st.iterationIndex < U32Max
  {
    if finished then
      if repeat then Bookkeeping(currentTick, st.iterationIndex + 1, st.noWork)
      else st.(noWork := true)
    else st
  }

  /** `no_work` never goes back to false. */
  lemma NoWorkSticky(st: Bookkeeping, finished: bool, repeat: bool, currentTick: U32)
    requires finished && repeat ==> st.iterationIndex < U32Max
    ensures st.noWork ==> Bookkeep(st, finished, repeat, currentTick).noWork
    ensures Bookkeep(st, finished, repeat, currentTick).noWork <==> st.noWork || (finished && !repeat)
  {
  }

  /**
   * The bookkeeping moves the offset only forward, to the current tick and
   * only on a repeat, and counts one more iteration exactly then.
   */
  lemma BookkeepAdvances(st: Bookkeeping, finished: bool, repeat: bool, currentTick: U32)
    requires finished && repeat ==> st.iterationIndex < U32Max
    requires st.tickOffset <= currentTick
    ensures var r := Bookkeep(st, finished, repeat, currentTick);
            st.tickOffset <= r.tickOffset <= currentTick &&
            (r.iterationIndex == st.iterationIndex + 1 <==> finished && repeat) &&
            (r.iterationIndex != st.iterationIndex ==> r.tickOffset == currentTick)
  {
  }

  /** The iteration state a processor hands out: `First` on the first pass, `Looping` on every later one. */
  lemma PassState(iterationIndex: U32)
    ensures iterationIndex == 0 ==> NewIterationState(iterationIndex, U32Max) == First(U32Max)
    ensures iterationIndex > 0 ==> NewIterationState(iterationIndex, U32Max) == Looping(iterationIndex, U32Max)
  {
  }

  /** Every entry of `es` has started by `tick`, so `tick - start` does not underflow. */
  predicate StartedBy(es: seq<TimedAnimation>, tick: U32) {
    forall k :: 0 <= k < |es| ==> es[k].atTick <= tick
  }

  /**
   * The strip after the entries `es` are rendered one after another at
   * `tick`: each entry sees the strip its predecessors left, and all its
   * colourings are written in order.
   */
  function RenderEntries(s: StripState, es: seq<TimedAnimation>, tick: U32, meta: AnimationMeta): StripState
    requires StartedBy(es, tick)
    decreases |es|
  {
    if es == [] then s
    else RenderEntries(ApplyWrites(s, Animate(es[0], tick - es[0].atTick, s, meta)), es[1..], tick, meta)
  }

  /** One `next` from cursor `i` is the first of what the iterator yields from there. */
  lemma DrainStep(s: seq<TimedAnimation>, i: nat, tick: U32)
    requires i <= |s|
    ensures var (e, j) := NextSpec(s, i, tick);
            Drain(s, i, tick) == if e.None? then [] else [e.value] + Drain(s, j, tick)
  {
  }

  /** Rendering `e` first and then `rest`. */
  lemma RenderEntriesCons(s: StripState, e: TimedAnimation, rest: seq<TimedAnimation>, tick: U32, meta: AnimationMeta)
    requires e.atTick <= tick && StartedBy(rest, tick)
    ensures RenderEntries(s, [e] + rest, tick, meta) ==
            RenderEntries(ApplyWrites(s, Animate(e, tick - e.atTick, s, meta)), rest, tick, meta)
  {
    assert ([e] + rest)[1..] == rest;
  }

  /** At local tick 0 no entry has started, so the iterator yields nothing. */
  lemma DrainAtStart(s: seq<TimedAnimation>)
    ensures Drain(s, 0, 0) == []
  {
  }

  /**
   * When only the entry `e` runs, the processor leaves an LED that none of its
   * colourings addresses as it was, and gives every other LED the colour of
   * its last colouring.
   */
  lemma SingleEntryLastWins(s: StripState, e: TimedAnimation, tick: U32, meta: AnimationMeta, led: LedId)
    requires e.atTick <= tick
    ensures var cs := Animate(e, tick - e.atTick, s, meta);
            var after := RenderEntries(s, [e], tick, meta);
            (LastWrite(cs, led) >= 0 ==> GetColorOfLed(after, led) == cs[LastWrite(cs, led)].color) &&
            (LastWrite(cs, led) < 0 ==> GetColorOfLed(after, led) == GetColorOfLed(s, led))
  {
    var cs := Animate(e, tick - e.atTick, s, meta);
    assert RenderEntries(s, [e], tick, meta) == ApplyWrites(s, cs) by {
      assert [e][1..] == [];
    }
    ApplyWritesLastWins(s, cs, led);
  }

  /**
   * The scenario of two animations of 5 ticks starting at ticks 0 and 10 in a
   * timeline that does not repeat: only the first runs at tick 3, only the
   * second at tick 12, and at tick 20 the timeline has finished, so the
   * processor runs out of work.
   */
  lemma TwoAnimationScenario(a: BoxedAnimation, b: BoxedAnimation, st: Bookkeeping)
    requires a.duration == 5 && b.duration == 5 && st.tickOffset == 0
    ensures var t := Finish(AddAnimation(AddAnimation(NewBuilder(), 0, a), 10, b));
            EndsFit(t.entries) &&
            Drain(t.entries, 0, 3) == [TimedAnimation(0, a)] &&
            Drain(t.entries, 0, 12) == [TimedAnimation(10, b)] &&
            HasFinished(t, 20) && !ShouldRepeat(t) &&
            Bookkeep(st, HasFinished(t, 20), ShouldRepeat(t), 20).noWork
  {
    TwoAnimationTimeline(a, b);
    TwoAnimationDrains(a, b);
  }

  /** Which of the scenario's two entries run at ticks 3 and 12. */
  lemma TwoAnimationDrains(a: BoxedAnimation, b: BoxedAnimation)
    requires a.duration == 5 && b.duration == 5
    ensures var s := [TimedAnimation(0, a), TimedAnimation(10, b)];
            Drain(s, 0, 3) == [TimedAnimation(0, a)] && Drain(s, 0, 12) == [TimedAnimation(10, b)]
  {
    var s := [TimedAnimation(0, a), TimedAnimation(10, b)];
    DrainIsActive(s, 0, 3);
    DrainIsActive(s, 0, 12);
    assert s[0..] == s && s[1..] == [TimedAnimation(10, b)] && s[1..][1..] == [];
    assert Active(s[1..], 3) == [] + Active([], 3);
    assert Active(s, 3) == [TimedAnimation(0, a)] + Active(s[1..], 3);
    assert Active(s[1..], 12) == [TimedAnimation(10, b)] + Active([], 12);
    assert Active(s, 12) == [] + Active(s[1..], 12);
  }

  /** The timeline of the scenario above, as `finish` builds it. */
  lemma TwoAnimationTimeline(a: BoxedAnimation, b: BoxedAnimation)
    ensures Finish(AddAnimation(AddAnimation(NewBuilder(), 0, a), 10, b)) ==
            DynTimeline([TimedAnimation(0, a), TimedAnimation(10, b)], false)
  {
    var s := [TimedAnimation(0, a), TimedAnimation(10, b)];
    assert AddAnimation(AddAnimation(NewBuilder(), 0, a), 10, b).animations == s;
    SortedIsFixed(s);
  }

  /**
   * Over a timeline sorted by start tick, what `update` renders is exactly
   * the running entries, in timeline order.
   */
  lemma RenderSortedIsActive(s0: StripState, entries: seq<TimedAnimation>, tick: U32, meta: AnimationMeta)
    requires EndsFit(entries) && SortedByStart(entries)
    ensures StartedBy(Active(entries, tick), tick)
    ensures RenderEntries(s0, Drain(entries, 0, tick), tick, meta) ==
            RenderEntries(s0, Active(entries, tick), tick, meta)
  {
    DrainIsActive(entries, 0, tick);
    assert entries[0..] == entries;
  }

  /** `TimelineProcessor`: a timeline, the strip it draws on, and the repeat bookkeeping. */
  class TimelineProcessor {
    const timeline: DynTimeline
    var strip: StripState
    var noWork: bool
    var tickOffset: U32
    var iterationIndex: U32

    /** `TimelineProcessor::new`: offset 0, iteration 0, work to do. */
    constructor (timeline: DynTimeline, strip: StripState)
      ensures this.timeline == timeline && this.strip == strip
      ensures State() == Bookkeeping(0, 0, false)
    {
      this.timeline := timeline;
      this.strip := strip;
      noWork := false;
      tickOffset := 0;
      iterationIndex := 0;
    }

    function State(): Bookkeeping
      reads this
    {
      Bookkeeping(tickOffset, iterationIndex, noWork)
    }

    /** `has_no_work` */
    function HasNoWork(): (b: bool)
      reads this
    {
      noWork
    }

    /**
     * `update`: the repeat bookkeeping for the local tick `currentTick -
     * tick_offset`, then every entry the timeline iterator yields is animated
     * at its own local tick with the iteration state of the current pass, and
     * its colourings are written to the strip in order. Rendering happens also
     * on the tick the processor runs out of work. `RenderSortedIsActive` says
     * which entries these are over a sorted timeline.
     */
    method Update(currentTick: U32)
      requires EndsFit(timeline.entries)
      requires tickOffset <= currentTick
      requires HasFinished(timeline, currentTick - tickOffset) && timeline.repeating ==> iterationIndex < U32Max
      modifies this
      ensures State() == Bookkeep(old(State()), HasFinished(timeline, currentTick - old(tickOffset)),
                                  ShouldRepeat(timeline), currentTick)
      ensures tickOffset <= currentTick
      ensures strip == RenderEntries(old(strip), Drain(timeline.entries, 0, currentTick - tickOffset),
                                     currentTick - tickOffset, AnimationMeta(NewIterationState(iterationIndex, U32Max)))
    {
      DoBookkeeping(currentTick);
      RenderCurrent(currentTick);
    }

    /** The second half of `update`: renders at the tick local to the current iteration. */
    method RenderCurrent(currentTick: U32)
      requires EndsFit(timeline.entries) && tickOffset <= currentTick
      modifies this`strip
      ensures strip == RenderEntries(old(strip), Drain(timeline.entries, 0, currentTick - tickOffset),
                                     currentTick - tickOffset, AnimationMeta(NewIterationState(iterationIndex, U32Max)))
    {
      var tick := currentTick - tickOffset;
      var meta := AnimationMeta(NewIterationState(iterationIndex, U32Max));
      RenderAt(tick, meta);
    }

    /** The first half of `update`, on the processor's own fields. */
    method DoBookkeeping(currentTick: U32)
      requires EndsFit(timeline.entries)
      requires tickOffset <= currentTick
      requires HasFinished(timeline, currentTick - tickOffset) && timeline.repeating ==> iterationIndex < U32Max
      modifies this`tickOffset, this`iterationIndex, this`noWork
      ensures State() == Bookkeep(old(State()), HasFinished(timeline, currentTick - old(tickOffset)),
                                  ShouldRepeat(timeline), currentTick)
      ensures tickOffset <= currentTick
    {
      if HasFinished(timeline, currentTick - tickOffset) {
        if ShouldRepeat(timeline) {
          tickOffset := currentTick;
          iterationIndex := iterationIndex + 1;
        } else {
          noWork := true;
        }
      }
    }

    /** The `for anim in animations` loop of `update`, at local tick `tick`. */
    method RenderAt(tick: U32, meta: AnimationMeta)
      requires EndsFit(timeline.entries)
      modifies this`strip
      ensures strip == RenderEntries(old(strip), Drain(timeline.entries, 0, tick), tick, meta)
    {
      var animations := new DynTimelineIter(timeline.entries, tick);
      ghost var target := RenderEntries(strip, Drain(timeline.entries, 0, tick), tick, meta);
      var anim := animations.Next();
      DrainStep(timeline.entries, 0, tick);
      while anim.Some?
        invariant animations.s == timeline.entries && animations.withinTick == tick
        invariant animations.actIndex <= |animations.s|
        invariant anim.Some? ==> IsActive(anim.value, tick)
        invariant RenderEntries(strip, Pending(anim, animations.actIndex, tick), tick, meta) == target
        decreases |animations.s| - animations.actIndex + (if anim.Some? then 1 else 0)
      {
        anim := RenderAndAdvance(animations, anim.value, tick, meta, target);
      }
    }

    /**
     * One turn of the `for anim in animations` loop: render the entry in hand,
     * then ask the iterator for the next one. What is still to render shrinks
     * by that entry, and its writes are on the strip.
     */
    method RenderAndAdvance(animations: DynTimelineIter, e: TimedAnimation, tick: U32, meta: AnimationMeta,
                            ghost target: StripState) returns (next: Option<TimedAnimation>)
      requires EndsFit(timeline.entries)
      requires animations.s == timeline.entries && animations.withinTick == tick
      requires animations.actIndex <= |animations.s| && IsActive(e, tick)
      requires RenderEntries(strip, Pending(Some(e), animations.actIndex, tick), tick, meta) == target
      modifies this`strip, animations
      ensures animations.actIndex <= |animations.s|
      ensures |animations.s| - animations.actIndex + (if next.Some? then 1 else 0) < |animations.s| - old(animations.actIndex) + 1
      ensures next.Some? ==> IsActive(next.value, tick)
      ensures RenderEntries(strip, Pending(next, animations.actIndex, tick), tick, meta) == target
    {
      ghost var rest := Drain(timeline.entries, animations.actIndex, tick);
      RenderEntriesCons(strip, e, rest, tick, meta);
      RenderEntry(e, tick, meta);
      ghost var at := animations.actIndex;
      next := animations.Next();
      DrainStep(timeline.entries, at, tick);
    }

    /** One turn of the `for anim in animations` loop: animate `e` at its local tick and write its colourings. */
    method RenderEntry(e: TimedAnimation, tick: U32, meta: AnimationMeta)
      requires e.atTick <= tick
      modifies this`strip
      ensures strip == ApplyWrites(old(strip), Animate(e, tick - e.atTick, old(strip), meta))
    {
      var startTime := AtTick(e);
      var animationStep := Animate(e, tick - startTime, strip, meta);
      WriteColorings(animationStep);
    }

    /** What the loop still has to render: the entry in hand and what the iterator yields after it. */
    ghost function Pending(anim: Option<TimedAnimation>, at: nat, tick: U32): seq<TimedAnimation>
      requires at <= |timeline.entries|
    {
      if anim.Some? then [anim.value] + Drain(timeline.entries, at, tick) else []
    }

    /** The `for coloring in animation_step` loop: `set_led_to_color` for each colouring in order. */
    method WriteColorings(cs: seq<LedColoring>)
      modifies this`strip
      ensures strip == ApplyWrites(old(strip), cs)
    {
      var k := 0;
      while k < |cs|
        invariant 0 <= k <= |cs|
        invariant ApplyWrites(strip, cs[k..]) == ApplyWrites(old(strip), cs)
      {
        assert cs[k..][1..] == cs[k + 1..];
        strip := SetLedToColor(strip, cs[k].led, cs[k].color);
        k := k + 1;
      }
      assert cs[k..] == [];
    }
  }
}
