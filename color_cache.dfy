/**
 * The colour cache of src/color_cache.rs. A `SingleColor` bucket stores a set
 * of LED ids as a list of `Range`s plus a list of isolated LEDs, all under one
 * colour; `ColorCache` holds at most one bucket, created lazily by the first
 * `cache_color` call with that call's colour.
 *
 * The first half of this file is the value-level description: `Store` is the
 * pair of lists, `Leds` the set it stands for, `Inv` the shape the bucket
 * keeps, and `CacheLedSpec`/`UncacheLedSpec` the effect of the two updates.
 * The classes below update the lists in place and are proved to have exactly
 * these effects.
 */
module ColorCache {
  import opened Wrappers
  import opened Indexing
  import opened Color

  /** `Range<LedId>`: the LEDs `start, .., end - 1`. */
  datatype LedRange = LedRange(start: LedId, end: LedId)

  predicate InRange(r: LedRange, l: int) {
    r.start <= l < r.end
  }

  /** `ExactSizeIterator::len` of a `Range<u16>`: zero when `start >= end`. */
  function RangeLen(r: LedRange): nat {
    if r.start < r.end then r.end - r.start else 0
  }

  /** Two ranges share no LED. */
  predicate Apart(a: LedRange, b: LedRange) {
    a.end <= b.start || b.end <= a.start
  }

  /** The two lists of a bucket: `ranges` and `single_led`. */
  datatype Store = Store(ranges: seq<LedRange>, singles: seq<LedId>)

  /** Some range of `rs` contains `l`. */
  ghost predicate Covers(rs: seq<LedRange>, l: int) {
    exists k :: 0 <= k < |rs| && InRange(rs[k], l)
  }

  ghost function RangesLeds(rs: seq<LedRange>): set<LedId> {
    set l: LedId | 0 <= l <= MaxIndex && Covers(rs, l)
  }

  ghost function SinglesLeds(ss: seq<LedId>): set<LedId> {
    set l | l in ss
  }

  /** The set of LEDs a bucket stores. */
  ghost function Leds(st: Store): set<LedId> {
    RangesLeds(st.ranges) + SinglesLeds(st.singles)
  }

  /**
   * The shape every bucket keeps: each range holds at least two LEDs, ranges
   * do not overlap, singles are distinct and no single lies inside a range.
   */
  ghost predicate Inv(st: Store) {
    (forall k :: 0 <= k < |st.ranges| ==> st.ranges[k].start + 2 <= st.ranges[k].end) &&
    (forall j, k :: 0 <= j < |st.ranges| && 0 <= k < |st.ranges| && j != k ==> Apart(st.ranges[j], st.ranges[k])) &&
    (forall j, k :: 0 <= j < |st.singles| && 0 <= k < |st.singles| && j != k ==> st.singles[j] != st.singles[k]) &&
    (forall j, k :: 0 <= j < |st.singles| && 0 <= k < |st.ranges| ==> !InRange(st.ranges[k], st.singles[j]))
  }

  function RemoveAt<T>(s: seq<T>, k: nat): (r: seq<T>)
    requires k < |s|
    ensures |r| == |s| - 1
    ensures forall i :: 0 <= i < k ==> r[i] == s[i]
    ensures forall i :: k <= i < |r| ==> r[i] == s[i + 1]
  {
    s[..k] + s[k + 1..]
  }

  // ---------------------------------------------------------------------------------------------
  // The searches (`find`, `find_map`) the bucket methods run

  /** `range` can take `led` at one of its ends: `start == led + 1` or `end == led`. */
  predicate Extends(r: LedRange, led: LedId) {
    r.start == led + 1 || r.end == led
  }

  /** The `find_map` of `cache_led`: the first range `led` extends, and whether at its start. */
  function FindRangeToExtend(rs: seq<LedRange>, led: LedId): (r: Option<(nat, bool)>)
    ensures r.Some? ==> r.value.0 < |rs| && Extends(rs[r.value.0], led) &&
                        r.value.1 == (rs[r.value.0].start == led + 1)
    ensures r.Some? ==> forall j :: 0 <= j < r.value.0 ==> !Extends(rs[j], led)
    ensures r.None? ==> forall j :: 0 <= j < |rs| ==> !Extends(rs[j], led)
  {
    if rs == [] then None
    else if rs[0].start == led + 1 then Some((0, true))
    else if rs[0].end == led then Some((0, false))
    else match FindRangeToExtend(rs[1..], led)
      case None => None
      case Some((k, atStart)) => Some((k + 1, atStart))
  }

  /** `single` is a neighbour of `led`: `led + 1`, or `led - 1` when `led > 0`. */
  predicate Adjacent(single: LedId, led: LedId) {
    single == led + 1 || (led > 0 && single == led - 1)
  }

  /** The `find_map` of `grouping_single_led`: the first neighbouring single, and whether it is `led + 1`. */
  function FindAdjacentSingle(ss: seq<LedId>, led: LedId): (r: Option<(nat, bool)>)
    ensures r.Some? ==> r.value.0 < |ss| && Adjacent(ss[r.value.0], led) &&
                        r.value.1 == (ss[r.value.0] == led + 1)
    ensures r.Some? ==> forall j :: 0 <= j < r.value.0 ==> !Adjacent(ss[j], led)
    ensures r.None? ==> forall j :: 0 <= j < |ss| ==> !Adjacent(ss[j], led)
  {
    if ss == [] then None
    else if ss[0] == led + 1 then Some((0, true))
    else if led > 0 && ss[0] == led - 1 then Some((0, false))
    else match FindAdjacentSingle(ss[1..], led)
      case None => None
      case Some((k, up)) => Some((k + 1, up))
  }

  /** The `find` of `ungroup_leds`: the first range that contains `led`. */
  function FindRangeContaining(rs: seq<LedRange>, led: LedId): (r: Option<nat>)
    ensures r.Some? ==> r.value < |rs| && InRange(rs[r.value], led)
    ensures r.Some? ==> forall j :: 0 <= j < r.value ==> !InRange(rs[j], led)
    ensures r.None? ==> forall j :: 0 <= j < |rs| ==> !InRange(rs[j], led)
  {
    if rs == [] then None
    else if InRange(rs[0], led) then Some(0)
    else match FindRangeContaining(rs[1..], led)
      case None => None
      case Some(k) => Some(k + 1)
  }

  /** The `find` of `uncache_led` over the singles: the first position holding `led`. */
  function FindSingle(ss: seq<LedId>, led: LedId): (r: Option<nat>)
    ensures r.Some? ==> r.value < |ss| && ss[r.value] == led
    ensures r.Some? ==> forall j :: 0 <= j < r.value ==> ss[j] != led
    ensures r.None? ==> led !in ss
  {
    if ss == [] then None
    else if ss[0] == led then Some(0)
    else match FindSingle(ss[1..], led)
      case None => None
      case Some(k) => Some(k + 1)
  }

  // ---------------------------------------------------------------------------------------------
  // The effect of the updates

  /**
   * `grouping_single_led` panics on `with_led_id + 1` when the single it joins
   * is u16::MAX, and on `led_id + 1` when `led_id` is u16::MAX and a single exists.
   */
  predicate GroupingSafe(ss: seq<LedId>, led: LedId) {
    (led == MaxIndex ==> ss == []) &&
    (FindAdjacentSingle(ss, led).Some? && FindAdjacentSingle(ss, led).value.1 ==> led + 2 <= MaxIndex)
  }

  /** `cache_led` does not panic: `led_id + 1` overflows only for u16::MAX with a range present. */
  predicate CacheLedSafe(st: Store, led: LedId) {
    (led == MaxIndex ==> st.ranges == []) &&
    (FindRangeToExtend(st.ranges, led).None? ==> GroupingSafe(st.singles, led))
  }

  /** `grouping_single_led`: the range formed with a neighbouring single (now removed), if any. */
  function GroupingSpec(ss: seq<LedId>, led: LedId): (Option<LedRange>, seq<LedId>)
    requires GroupingSafe(ss, led)
  {
    match FindAdjacentSingle(ss, led)
    case None => (None, ss)
    case Some((k, up)) =>
      if up then (Some(LedRange(led, ss[k] + 1)), RemoveAt(ss, k))
      else (Some(LedRange(ss[k], led + 1)), RemoveAt(ss, k))
  }

  /** `cache_led`: extend the first range `led` borders, else group with a single, else add a single. */
  function CacheLedSpec(st: Store, led: LedId): Store
    requires CacheLedSafe(st, led)
  {
    match FindRangeToExtend(st.ranges, led)
    case Some((k, atStart)) =>
      if atStart then Store(st.ranges[k := LedRange(led, st.ranges[k].end)], st.singles)
      else Store(st.ranges[k := LedRange(st.ranges[k].start, led + 1)], st.singles)
    case None =>
      match GroupingSpec(st.singles, led)
      case (Some(r), ss) => Store(st.ranges + [r], ss)
      case (None, ss) => Store(st.ranges, ss + [led])
  }

  /** One `match range.len()` arm of `uncache_led`: a one-LED piece becomes a single, a longer one a range. */
  function PushPiece(st: Store, p: LedRange): Store {
    if RangeLen(p) == 1 then Store(st.ranges, st.singles + [p.start])
    else if RangeLen(p) > 1 then Store(st.ranges + [p], st.singles)
    else st
  }

  /** `ungroup_leds`: removes the first range holding `led` and returns its two pieces around `led`. */
  function UngroupSpec(rs: seq<LedRange>, led: LedId): (Option<(LedRange, LedRange)>, seq<LedRange>) {
    match FindRangeContaining(rs, led)
    case None => (None, rs)
    case Some(k) => (Some((LedRange(rs[k].start, led), LedRange(led + 1, rs[k].end))), RemoveAt(rs, k))
  }

  /** `uncache_led`: the new lists, and whether something was removed. */
  function UncacheLedSpec(st: Store, led: LedId): (Store, bool) {
    match UngroupSpec(st.ranges, led)
    case (Some((a, b)), rs) => (PushPiece(PushPiece(Store(rs, st.singles), a), b), true)
    case (None, _) =>
      match FindSingle(st.singles, led)
      case Some(k) => (Store(st.ranges, RemoveAt(st.singles, k)), true)
      case None => (st, false)
  }

  /** The fold of `cached_size` over the ranges. */
  function SumLens(rs: seq<LedRange>): nat {
    if rs == [] then 0 else SumLens(rs[..|rs| - 1]) + RangeLen(rs[|rs| - 1])
  }

  // ---------------------------------------------------------------------------------------------
  // What the updates do to the stored set

  /** The LEDs of one range. */
  ghost function RangeLeds(r: LedRange): set<LedId> {
    set l: LedId | 0 <= l <= MaxIndex && InRange(r, l)
  }

  lemma RangesLedsOfSnoc(rs: seq<LedRange>, r: LedRange)
    ensures RangesLeds(rs + [r]) == RangesLeds(rs) + RangeLeds(r)
  {
    var rs' := rs + [r];
    forall l: LedId ensures Covers(rs', l) <==> Covers(rs, l) || InRange(r, l) {
      if Covers(rs, l) {
        var k :| 0 <= k < |rs| && InRange(rs[k], l);
        assert InRange(rs'[k], l);
      }
      if InRange(r, l) {
        assert InRange(rs'[|rs|], l);
      }
      if Covers(rs', l) {
        var k :| 0 <= k < |rs'| && InRange(rs'[k], l);
        if k < |rs| {
          assert InRange(rs[k], l);
        }
      }
    }
  }

  /** Replacing range `k` by a range `r` that covers it and `led` besides. */
  lemma RangesLedsOfWidened(rs: seq<LedRange>, k: nat, r: LedRange, led: LedId)
    requires k < |rs|
    requires forall l :: InRange(r, l) <==> InRange(rs[k], l) || l == led
    ensures RangesLeds(rs[k := r]) == RangesLeds(rs) + {led}
  {
    var rs' := rs[k := r];
    forall l: LedId ensures Covers(rs', l) <==> Covers(rs, l) || l == led {
      if Covers(rs, l) {
        var j :| 0 <= j < |rs| && InRange(rs[j], l);
        assert InRange(rs'[j], l);
      }
      if l == led {
        assert InRange(rs'[k], l);
      }
      if Covers(rs', l) {
        var j :| 0 <= j < |rs'| && InRange(rs'[j], l);
        if j != k {
          assert InRange(rs[j], l);
        }
      }
    }
  }

  /** Removing one of several distinct singles removes exactly that LED. */
  lemma SinglesOfRemoveAt(ss: seq<LedId>, k: nat)
    requires k < |ss|
    requires forall i, j :: 0 <= i < |ss| && 0 <= j < |ss| && i != j ==> ss[i] != ss[j]
    ensures SinglesLeds(RemoveAt(ss, k)) == SinglesLeds(ss) - {ss[k]}
  {
    var ss' := RemoveAt(ss, k);
    forall l | l in ss ensures l in ss' <==> l != ss[k] {
      var i :| 0 <= i < |ss| && ss[i] == l;
      if i < k {
        assert ss'[i] == l;
      } else if i > k {
        assert ss'[i - 1] == l;
      }
    }
  }

  /** Removing range `k` of a shaped bucket removes exactly that range's LEDs. */
  lemma RangesLedsOfRemoveAt(rs: seq<LedRange>, k: nat)
    requires k < |rs|
    requires forall i, j :: 0 <= i < |rs| && 0 <= j < |rs| && i != j ==> Apart(rs[i], rs[j])
    ensures RangesLeds(RemoveAt(rs, k)) == RangesLeds(rs) - RangeLeds(rs[k])
  {
    var rs' := RemoveAt(rs, k);
    forall l: LedId ensures Covers(rs', l) <==> Covers(rs, l) && !InRange(rs[k], l) {
      if Covers(rs', l) {
        var j :| 0 <= j < |rs'| && InRange(rs'[j], l);
        var j0 := if j < k then j else j + 1;
        assert InRange(rs[j0], l) && Apart(rs[j0], rs[k]);
      }
      if Covers(rs, l) && !InRange(rs[k], l) {
        var j :| 0 <= j < |rs| && InRange(rs[j], l);
        if j < k {
          assert InRange(rs'[j], l);
        } else {
          assert InRange(rs'[j - 1], l);
        }
      }
    }
  }

  lemma CacheExtendAtStart(st: Store, led: LedId, k: nat)
    requires Inv(st) && led !in Leds(st)
    requires k < |st.ranges| && st.ranges[k].start == led + 1
    ensures var st' := Store(st.ranges[k := LedRange(led, st.ranges[k].end)], st.singles);
            Inv(st') && Leds(st') == Leds(st) + {led}
  {
    var rs := st.ranges;
    var r := LedRange(led, rs[k].end);
    RangesLedsOfWidened(rs, k, r, led);
    forall j | 0 <= j < |rs| && j != k ensures Apart(r, rs[j]) {
      assert Apart(rs[k], rs[j]);
    }
  }

  lemma CacheExtendAtEnd(st: Store, led: LedId, k: nat)
    requires Inv(st) && led !in Leds(st) && led < MaxIndex
    requires k < |st.ranges| && st.ranges[k].end == led
    ensures var st' := Store(st.ranges[k := LedRange(st.ranges[k].start, led + 1)], st.singles);
            Inv(st') && Leds(st') == Leds(st) + {led}
  {
    var rs := st.ranges;
    var r := LedRange(rs[k].start, led + 1);
    RangesLedsOfWidened(rs, k, r, led);
    forall j | 0 <= j < |rs| && j != k ensures Apart(r, rs[j]) {
      assert Apart(rs[k], rs[j]);
      assert led !in RangesLeds(rs);
      assert !InRange(rs[j], led);
    }
  }

  /** Joining `led` with the single `ss[k]` next to it into the range `r` of both. */
  lemma CacheGroup(st: Store, led: LedId, k: nat, r: LedRange)
    requires Inv(st) && led !in Leds(st)
    requires k < |st.singles| && Adjacent(st.singles[k], led)
    requires r.start + 2 == r.end && forall l :: InRange(r, l) <==> l == led || l == st.singles[k]
    ensures var st' := Store(st.ranges + [r], RemoveAt(st.singles, k));
            Inv(st') && Leds(st') == Leds(st) + {led}
  {
    var rs, ss := st.ranges, st.singles;
    var st' := Store(rs + [r], RemoveAt(ss, k));
    RangesLedsOfSnoc(rs, r);
    SinglesOfRemoveAt(ss, k);
    assert RangeLeds(r) == {led, ss[k]};
    forall j | 0 <= j < |rs| ensures Apart(r, rs[j]) {
      assert !InRange(rs[j], ss[k]);
    }
    forall i | 0 <= i < |st'.singles| ensures !InRange(r, st'.singles[i]) {
      var i0 := if i < k then i else i + 1;
      assert st'.singles[i] == ss[i0] && i0 != k;
      assert ss[i0] in ss;
    }
  }

  lemma CachePushSingle(st: Store, led: LedId)
    requires Inv(st) && led !in Leds(st)
    ensures var st' := Store(st.ranges, st.singles + [led]);
            Inv(st') && Leds(st') == Leds(st) + {led}
  {
    var st' := Store(st.ranges, st.singles + [led]);
    assert SinglesLeds(st'.singles) == SinglesLeds(st.singles) + {led};
    forall k | 0 <= k < |st.ranges| ensures !InRange(st.ranges[k], led) {
      if InRange(st.ranges[k], led) {
        assert Covers(st.ranges, led);
        assert false;
      }
    }
  }

  /**
   * `cache_led` on an LED the bucket does not hold adds exactly that LED and
   * keeps the bucket's shape.
   */
  lemma CacheLedAddsLed(st: Store, led: LedId)
    requires Inv(st) && led !in Leds(st) && CacheLedSafe(st, led)
    ensures Inv(CacheLedSpec(st, led)) && Leds(CacheLedSpec(st, led)) == Leds(st) + {led}
  {
    match FindRangeToExtend(st.ranges, led)
    case Some((k, atStart)) =>
      if atStart {
        CacheExtendAtStart(st, led, k);
      } else {
        CacheExtendAtEnd(st, led, k);
      }
    case None =>
      match FindAdjacentSingle(st.singles, led)
      case None =>
        CachePushSingle(st, led);
      case Some((k, up)) =>
        if up {
          CacheGroup(st, led, k, LedRange(led, st.singles[k] + 1));
        } else {
          CacheGroup(st, led, k, LedRange(st.singles[k], led + 1));
        }
  }

  /** A piece pushed by `uncache_led` adds its LEDs, which the bucket did not hold, and keeps the shape. */
  lemma PushPieceAdds(st: Store, p: LedRange)
    requires Inv(st) && RangeLeds(p) !! Leds(st)
    ensures Inv(PushPiece(st, p)) && Leds(PushPiece(st, p)) == Leds(st) + RangeLeds(p)
  {
    var st' := PushPiece(st, p);
    if RangeLen(p) == 1 {
      assert RangeLeds(p) == {p.start};
      CachePushSingle(st, p.start);
    } else if RangeLen(p) > 1 {
      RangesLedsOfSnoc(st.ranges, p);
      forall j | 0 <= j < |st.ranges| ensures Apart(p, st.ranges[j]) {
        var r := st.ranges[j];
        var l := if p.start <= r.start then r.start else p.start;
        if InRange(r, l) {
          assert Covers(st.ranges, l);
          assert l in Leds(st);
        }
        assert !(InRange(p, l) && InRange(r, l));
      }
      forall i | 0 <= i < |st.singles| ensures !InRange(p, st.singles[i]) {
        assert st.singles[i] in st.singles;
        assert st.singles[i] in Leds(st);
      }
    } else {
      assert RangeLeds(p) == {};
    }
  }

  /** Uncaching an LED of range `k`: the range goes, its two pieces around `led` come back. */
  lemma UncacheFromRange(st: Store, led: LedId, k: nat)
    requires Inv(st) && k < |st.ranges| && InRange(st.ranges[k], led)
    ensures var r := st.ranges[k];
            var st' := PushPiece(PushPiece(Store(RemoveAt(st.ranges, k), st.singles), LedRange(r.start, led)),
                                 LedRange(led + 1, r.end));
            Inv(st') && Leds(st') == Leds(st) - {led}
  {
    var r := st.ranges[k];
    var a, b := LedRange(r.start, led), LedRange(led + 1, r.end);
    var st1 := Store(RemoveAt(st.ranges, k), st.singles);
    RemoveRange(st, k);
    assert RangeLeds(r) == RangeLeds(a) + {led} + RangeLeds(b);
    PushPieceAdds(st1, a);
    PushPieceAdds(PushPiece(st1, a), b);
  }

  /** Dropping the `k`-th range keeps the invariant and forgets exactly that range's LEDs. */
  lemma RemoveRange(st: Store, k: nat)
    requires Inv(st) && k < |st.ranges|
    ensures var st1 := Store(RemoveAt(st.ranges, k), st.singles);
            Inv(st1) && Leds(st1) == Leds(st) - RangeLeds(st.ranges[k])
  {
    var r := st.ranges[k];
    var st1 := Store(RemoveAt(st.ranges, k), st.singles);
    RangesLedsOfRemoveAt(st.ranges, k);
    forall i | 0 <= i < |st.singles| ensures st.singles[i] !in RangeLeds(r) {
    }
    assert SinglesLeds(st.singles) !! RangeLeds(r) by {
      forall l | l in st.singles ensures l !in RangeLeds(r) {
        var i :| 0 <= i < |st.singles| && st.singles[i] == l;
      }
    }
    assert Leds(st1) == Leds(st) - RangeLeds(r);
    forall i, j | 0 <= i < |st1.ranges| && 0 <= j < |st1.ranges| && i != j ensures Apart(st1.ranges[i], st1.ranges[j]) {
      var i0, j0 := if i < k then i else i + 1, if j < k then j else j + 1;
      assert Apart(st.ranges[i0], st.ranges[j0]);
    }
    forall i, j | 0 <= i < |st1.singles| && 0 <= j < |st1.ranges| ensures !InRange(st1.ranges[j], st1.singles[i]) {
      var j0 := if j < k then j else j + 1;
      assert !InRange(st.ranges[j0], st.singles[i]);
    }
  }

  lemma UncacheSingle(st: Store, led: LedId, k: nat)
    requires Inv(st) && k < |st.singles| && st.singles[k] == led
    ensures var st' := Store(st.ranges, RemoveAt(st.singles, k));
            Inv(st') && Leds(st') == Leds(st) - {led}
  {
    SinglesOfRemoveAt(st.singles, k);
    assert !Covers(st.ranges, led);
    var st' := Store(st.ranges, RemoveAt(st.singles, k));
    forall i, j | 0 <= i < |st'.singles| && 0 <= j < |st'.singles| && i != j ensures st'.singles[i] != st'.singles[j] {
      var i0, j0 := if i < k then i else i + 1, if j < k then j else j + 1;
      assert st.singles[i0] != st.singles[j0];
    }
  }

  /**
   * `uncache_led` removes exactly `led`, keeps the bucket's shape, and reports
   * whether `led` was stored; an LED that was not stored changes nothing.
   */
  lemma UncacheLedRemovesLed(st: Store, led: LedId)
    requires Inv(st)
    ensures var (st', removed) := UncacheLedSpec(st, led);
            Inv(st') && Leds(st') == Leds(st) - {led} && removed == (led in Leds(st)) &&
            (!removed ==> st' == st)
  {
    match FindRangeContaining(st.ranges, led)
    case Some(k) =>
      UncacheFromRange(st, led, k);
      assert Covers(st.ranges, led);
    case None =>
      assert !Covers(st.ranges, led);
      match FindSingle(st.singles, led)
      case Some(k) =>
        UncacheSingle(st, led, k);
      case None =>
  }

  // The size of a bucket

  lemma {:induction false} RangeLedsCount(r: LedRange)
    ensures |RangeLeds(r)| == RangeLen(r)
    decreases RangeLen(r)
  {
    if r.start < r.end {
      var r' := LedRange(r.start, r.end - 1);
      assert RangeLeds(r) == RangeLeds(r') + {r.end - 1};
      RangeLedsCount(r');
    } else {
      assert RangeLeds(r) == {};
    }
  }

  lemma {:induction false} RangesLedsCount(rs: seq<LedRange>)
    requires forall i, j :: 0 <= i < |rs| && 0 <= j < |rs| && i != j ==> Apart(rs[i], rs[j])
    ensures |RangesLeds(rs)| == SumLens(rs)
    decreases |rs|
  {
    if rs == [] {
      assert RangesLeds(rs) == {};
    } else {
      var init, last := rs[..|rs| - 1], rs[|rs| - 1];
      assert rs == init + [last];
      RangesLedsOfSnoc(init, last);
      RangesLedsCount(init);
      RangeLedsCount(last);
      forall l | l in RangesLeds(init) ensures l !in RangeLeds(last) {
        var k :| 0 <= k < |init| && InRange(init[k], l);
        assert Apart(rs[k], rs[|rs| - 1]);
      }
    }
  }

  lemma {:induction false} SinglesCount(ss: seq<LedId>)
    requires forall i, j :: 0 <= i < |ss| && 0 <= j < |ss| && i != j ==> ss[i] != ss[j]
    ensures |SinglesLeds(ss)| == |ss|
    decreases |ss|
  {
    if ss != [] {
      var init := ss[..|ss| - 1];
      assert SinglesLeds(ss) == SinglesLeds(init) + {ss[|ss| - 1]};
      assert ss[|ss| - 1] !in init;
      assert SinglesLeds(init) !! {ss[|ss| - 1]};
      SinglesCount(init);
    }
  }

  /** `cached_size` counts every stored LED exactly once. */
  lemma CachedSizeCounts(st: Store)
    requires Inv(st)
    ensures SumLens(st.ranges) + |st.singles| == |Leds(st)|
  {
    RangesLedsCount(st.ranges);
    SinglesCount(st.singles);
    forall l | l in st.singles ensures l !in RangesLeds(st.ranges) {
      var i :| 0 <= i < |st.singles| && st.singles[i] == l;
    }
    assert RangesLeds(st.ranges) !! SinglesLeds(st.singles);
  }

  /** The crate's grouped test: caching 4 and 5 forms the range 4..6; removing 4 leaves the single 5. */
  lemma GroupedExample()
    ensures CacheLedSpec(Store([], []), 4) == Store([], [4])
    ensures CacheLedSpec(Store([], [4]), 5) == Store([LedRange(4, 6)], [])
    ensures UncacheLedSpec(Store([LedRange(4, 6)], []), 4) == (Store([], [5]), true)
    ensures UncacheLedSpec(Store([], [5]), 5) == (Store([], []), true)
  {
    assert CacheLedSpec(Store([], [4]), 5) == Store([] + [LedRange(4, 6)], RemoveAt([4], 0));
    assert UncacheLedSpec(Store([], [5]), 5).0 == Store([], RemoveAt([5], 0));
    var st := Store([LedRange(4, 6)], []);
    assert FindRangeContaining(st.ranges, 4) == Some(0);
    assert UncacheLedSpec(st, 4).0 == PushPiece(PushPiece(Store([], []), LedRange(4, 4)), LedRange(5, 6));
    assert UncacheLedSpec(st, 4).0 == Store([], [5]);
  }

  /** Caching is not maximal: extending a range does not absorb a single that now touches it. */
  lemma NotMaximalExample()
    ensures CacheLedSpec(Store([LedRange(5, 7)], [8]), 7) == Store([LedRange(5, 8)], [8])
  {
  }

  // ---------------------------------------------------------------------------------------------
  // The bucket and the cache as objects

  /** `SingleColor`: one colour and the LEDs stored under it. */
  class SingleColor {
    var ranges: seq<LedRange>
    var singleLed: seq<LedId>
    const color: HsvColor

    /** `SingleColor::new` */
    constructor (color: HsvColor)
      ensures State() == Store([], []) && this.color == color
    {
      ranges := [];
      singleLed := [];
      this.color := color;
    }

    function State(): Store
      reads this
    {
      Store(ranges, singleLed)
    }

    /** `contains_led_id`: some range contains `led`, or it is a single. */
    method ContainsLedId(led: LedId) returns (b: bool)
      ensures b == (led in Leds(State()))
    {
      var i := 0;
      while i < |ranges| && !InRange(ranges[i], led)
        invariant 0 <= i <= |ranges|
        invariant forall k :: 0 <= k < i ==> !InRange(ranges[k], led)
      {
        i := i + 1;
      }
      if i < |ranges| {
        assert Covers(ranges, led);
        return true;
      }
      var j := 0;
      while j < |singleLed| && singleLed[j] != led
        invariant 0 <= j <= |singleLed|
        invariant forall k :: 0 <= k < j ==> singleLed[k] != led
      {
        j := j + 1;
      }
      b := j < |singleLed|;
    }

    /** `cache_led` */
    method CacheLed(led: LedId)
      requires CacheLedSafe(State(), led)
      modifies this
      ensures State() == CacheLedSpec(old(State()), led)
    {
      var i := 0;
      while i < |ranges| && !Extends(ranges[i], led)
        invariant 0 <= i <= |ranges|
        invariant forall j :: 0 <= j < i ==> !Extends(ranges[j], led)
      {
        i := i + 1;
      }
      if i < |ranges| {
        assert FindRangeToExtend(ranges, led).Some? && FindRangeToExtend(ranges, led).value.0 == i;
        if ranges[i].start == led + 1 {
          ranges := ranges[i := LedRange(led, ranges[i].end)];
        } else {
          ranges := ranges[i := LedRange(ranges[i].start, led + 1)];
        }
      } else {
        var grouped := GroupingSingleLed(led);
        if grouped.Some? {
          ranges := ranges + [grouped.value];
        } else {
          singleLed := singleLed + [led];
        }
      }
    }

    /** `grouping_single_led` */
    method GroupingSingleLed(led: LedId) returns (r: Option<LedRange>)
      requires GroupingSafe(singleLed, led)
      modifies this
      ensures (r, singleLed) == GroupingSpec(old(singleLed), led) && ranges == old(ranges)
    {
      var i := 0;
      while i < |singleLed| && !Adjacent(singleLed[i], led)
        invariant 0 <= i <= |singleLed|
        invariant forall j :: 0 <= j < i ==> !Adjacent(singleLed[j], led)
      {
        i := i + 1;
      }
      if i < |singleLed| {
        assert FindAdjacentSingle(singleLed, led).Some? && FindAdjacentSingle(singleLed, led).value.0 == i;
        var up := singleLed[i] == led + 1;
        var withLed := singleLed[i];
        singleLed := RemoveAt(singleLed, i);
        if up {
          r := Some(LedRange(led, withLed + 1));
        } else {
          r := Some(LedRange(withLed, led + 1));
        }
      } else {
        r := None;
      }
    }

    /** `ungroup_leds`: the two pieces of the first range holding `led`, which is removed. */
    method UngroupLeds(led: LedId) returns (r: Option<(LedRange, LedRange)>)
      modifies this
      ensures (r, ranges) == UngroupSpec(old(ranges), led) && singleLed == old(singleLed)
    {
      var i := 0;
      while i < |ranges| && !InRange(ranges[i], led)
        invariant 0 <= i <= |ranges|
        invariant forall j :: 0 <= j < i ==> !InRange(ranges[j], led)
      {
        i := i + 1;
      }
      if i < |ranges| {
        assert FindRangeContaining(ranges, led) == Some(i);
        var range := ranges[i];
        r := Some((LedRange(range.start, led), LedRange(led + 1, range.end)));
        ranges := RemoveAt(ranges, i);
      } else {
        r := None;
      }
    }

    /** `uncache_led`: whether `led` was removed. */
    method UncacheLed(led: LedId) returns (removed: bool)
      modifies this
      ensures (State(), removed) == UncacheLedSpec(old(State()), led)
    {
      var r := UngroupLeds(led);
      if r.Some? {
        var pieces := [r.value.0, r.value.1];
        ghost var st0 := State();
        for p := 0 to 2
          invariant State() == if p == 0 then st0
                               else if p == 1 then PushPiece(st0, pieces[0])
                               else PushPiece(PushPiece(st0, pieces[0]), pieces[1])
        {
          var piece := pieces[p];
          var len := if piece.start < piece.end then piece.end - piece.start else 0;
          if len == 1 {
            singleLed := singleLed + [piece.start];
          } else if len > 1 {
            ranges := ranges + [piece];
          }
        }
        removed := true;
      } else {
        var i := 0;
        while i < |singleLed| && singleLed[i] != led
          invariant 0 <= i <= |singleLed|
          invariant forall j :: 0 <= j < i ==> singleLed[j] != led
        {
          i := i + 1;
        }
        if i < |singleLed| {
          assert FindSingle(singleLed, led) == Some(i);
          singleLed := RemoveAt(singleLed, i);
          removed := true;
        } else {
          removed := false;
        }
      }
    }

    /** `cached_size`: the range lengths plus the number of singles. */
    method CachedSize() returns (n: nat)
      ensures n == SumLens(ranges) + |singleLed|
      ensures Inv(State()) ==> n == |Leds(State())|
    {
      var sum := 0;
      var i := 0;
      while i < |ranges|
        invariant 0 <= i <= |ranges|
        invariant sum == SumLens(ranges[..i])
      {
        assert ranges[..i + 1][..i] == ranges[..i];
        var range := ranges[i];
        sum := sum + if range.start < range.end then range.end - range.start else 0;
        i := i + 1;
      }
      assert ranges[..|ranges|] == ranges;
      n := sum + |singleLed|;
      if Inv(State()) {
        CachedSizeCounts(State());
      }
    }
  }

  /** What a colour cache holds: the bucket's colour, once there is a bucket, and the bucket's lists. */
  datatype CacheView = CacheView(bucket: Option<HsvColor>, lists: Store)

  /** `ColorCache`: no bucket until the first `cache_color`, then exactly one. */
  class ColorCache {
    var singleColorCache: SingleColor?
    ghost var Repr: set<object>

    ghost predicate Valid()
      reads this, Repr
    {
      this in Repr &&
      (singleColorCache != null ==> singleColorCache in Repr && Inv(singleColorCache.State()))
    }

    /** The bucket's lists; an absent bucket stores nothing. */
    function Lists(): Store
      reads this, singleColorCache
    {
      if singleColorCache == null then Store([], []) else singleColorCache.State()
    }

    /** The LEDs whose colour is cached. */
    ghost function Cached(): set<LedId>
      reads this, singleColorCache
    {
      Leds(Lists())
    }

    /** The bucket's colour, once there is a bucket. */
    function BucketColor(): Option<HsvColor>
      reads this
    {
      if singleColorCache == null then None else Some(singleColorCache.color)
    }

    /** The bucket's colour and lists together. */
    function View(): CacheView
      reads this, singleColorCache
    {
      CacheView(BucketColor(), Lists())
    }

    /** `cache_color` does not panic for `led`. */
    predicate CanCache(led: LedId)
      reads this, singleColorCache
    {
      CacheLedSafe(Lists(), led)
    }

    /** `ColorCache::new` */
    constructor ()
      ensures Valid() && fresh(Repr) && singleColorCache == null
      ensures Cached() == {} && BucketColor() == None
    {
      singleColorCache := null;
      Repr := {this};
    }

    /** `init`: creates the bucket with `color` unless one exists. */
    method Init(color: HsvColor)
      requires Valid()
      modifies Repr
      ensures Valid() && fresh(Repr - old(Repr))
      ensures singleColorCache != null
      ensures BucketColor() == if old(singleColorCache) == null then Some(color) else old(BucketColor())
      ensures Lists() == old(Lists())
    {
      if singleColorCache == null {
        singleColorCache := new SingleColor(color);
        Repr := Repr + {singleColorCache};
      }
    }

    /**
     * `cache_color`: for a cached LED, the bucket's colour and no change; else
     * `None`, and the LED is cached under the bucket's colour. Only the first
     * call's `color` is ever stored.
     */
    method CacheColor(led: LedId, color: HsvColor) returns (r: Option<HsvColor>)
      requires Valid() && (led !in Cached() ==> CanCache(led))
      modifies Repr
      ensures Valid() && fresh(Repr - old(Repr))
      ensures BucketColor() == if old(BucketColor()).None? then Some(color) else old(BucketColor())
      ensures led in old(Cached()) ==> r == BucketColor() && Lists() == old(Lists())
      ensures led !in old(Cached()) ==> r == None && Lists() == CacheLedSpec(old(Lists()), led)
      ensures Cached() == old(Cached()) + {led}
    {
      Init(color);
      var cache := singleColorCache;
      var contained := cache.ContainsLedId(led);
      if contained {
        r := Some(cache.color);
      } else {
        CacheLedAddsLed(cache.State(), led);
        cache.CacheLed(led);
        r := None;
      }
    }

    /** `load_color` panics when no bucket exists; otherwise the bucket's colour iff `led` is cached. */
    method LoadColor(led: LedId) returns (r: Option<HsvColor>)
      requires Valid() && singleColorCache != null
      ensures r == if led in Cached() then BucketColor() else None
    {
      var contained := singleColorCache.ContainsLedId(led);
      if contained {
        r := Some(singleColorCache.color);
      } else {
        r := None;
      }
    }

    /** `remove_cache`: the bucket's colour iff `led` was cached, which it no longer is. */
    method RemoveCache(led: LedId) returns (r: Option<HsvColor>)
      requires Valid()
      modifies Repr
      ensures Valid() && Repr == old(Repr)
      ensures BucketColor() == old(BucketColor())
      ensures Lists() == UncacheLedSpec(old(Lists()), led).0
      ensures Cached() == old(Cached()) - {led}
      ensures r == if led in old(Cached()) then BucketColor() else None
    {
      if singleColorCache != null {
        UncacheLedRemovesLed(singleColorCache.State(), led);
        var removed := singleColorCache.UncacheLed(led);
        r := if removed then Some(singleColorCache.color) else None;
      } else {
        r := None;
      }
    }

    /** `cache_size`: the number of cached LEDs, 0 without a bucket. */
    method CacheSize() returns (n: nat)
      requires Valid()
      ensures n == |Cached()|
    {
      if singleColorCache != null {
        n := singleColorCache.CachedSize();
      } else {
        n := 0;
      }
    }
  }
}
