/**
 * The hardware strip of src/strip.rs, reduced to what the engine uses of it:
 * `get_color_of_led` and `set_led_to_color`. The strip is a total map from
 * every LedId to the colour the LED currently shows.
 */
module Strip {
  import opened Indexing
  import opened Color

  const Black := HsvColor(0, 0, 0)

  ghost predicate Total(m: map<LedId, HsvColor>) {
    forall id: LedId :: id in m
  }

  type StripState = m: map<LedId, HsvColor> | Total(m)
    witness map id: LedId | 0 <= id <= MaxIndex :: Black

  /** `Strip::get_color_of_led` */
  function GetColorOfLed(s: StripState, led: LedId): HsvColor {
    s[led]
  }

  /** `Strip::set_led_to_color`: only `led` changes. */
  function SetLedToColor(s: StripState, led: LedId, c: HsvColor): (r: StripState)
    ensures GetColorOfLed(r, led) == c
    ensures forall other: LedId :: other != led ==> GetColorOfLed(r, other) == GetColorOfLed(s, other)
  {
    s[led := c]
  }

  /** The strip after the colourings are written one after another, as the processor does. */
  function ApplyWrites(s: StripState, cs: seq<LedColoring>): StripState
    decreases |cs|
  {
    if cs == [] then s else ApplyWrites(SetLedToColor(s, cs[0].led, cs[0].color), cs[1..])
  }

  /** The index of the last colouring in `cs` that addresses `led`, if any. */
  function LastWrite(cs: seq<LedColoring>, led: LedId): (r: int)
    ensures -1 <= r < |cs|
    ensures r >= 0 ==> cs[r].led == led
    ensures forall k :: r < k < |cs| ==> cs[k].led != led
  {
    if cs == [] then -1
    else if cs[|cs| - 1].led == led then |cs| - 1
    else LastWrite(cs[..|cs| - 1], led)
  }

  /**
   * Last writer wins: after a sequence of writes an LED shows the colour of the
   * last colouring for it, and an LED that no colouring addresses is unchanged.
   */
  lemma {:induction false} ApplyWritesLastWins(s: StripState, cs: seq<LedColoring>, led: LedId)
    ensures LastWrite(cs, led) >= 0 ==> GetColorOfLed(ApplyWrites(s, cs), led) == cs[LastWrite(cs, led)].color
    ensures LastWrite(cs, led) < 0 ==> GetColorOfLed(ApplyWrites(s, cs), led) == GetColorOfLed(s, led)
    decreases |cs|
  {
    if cs != [] {
      var s' := SetLedToColor(s, cs[0].led, cs[0].color);
      ApplyWritesLastWins(s', cs[1..], led);
      LastWriteOfTail(cs, led);
    }
  }

  lemma {:induction false} LastWriteOfTail(cs: seq<LedColoring>, led: LedId)
    requires cs != []
    ensures LastWrite(cs[1..], led) >= 0 ==> LastWrite(cs, led) == LastWrite(cs[1..], led) + 1
    ensures LastWrite(cs[1..], led) < 0 ==> LastWrite(cs, led) == (if cs[0].led == led then 0 else -1)
    decreases |cs|
  {
    if |cs| > 1 && cs[|cs| - 1].led != led {
      assert cs[..|cs| - 1][1..] == cs[1..][..|cs[1..]| - 1];
      LastWriteOfTail(cs[..|cs| - 1], led);
    }
  }

  /** Writing `cs` and then `ds` is writing `cs + ds`. */
  lemma {:induction false} ApplyWritesAppend(s: StripState, cs: seq<LedColoring>, ds: seq<LedColoring>)
    ensures ApplyWrites(s, cs + ds) == ApplyWrites(ApplyWrites(s, cs), ds)
    decreases |cs|
  {
    if cs == [] {
      assert cs + ds == ds;
    } else {
      assert (cs + ds)[1..] == cs[1..] + ds;
      ApplyWritesAppend(SetLedToColor(s, cs[0].led, cs[0].color), cs[1..], ds);
    }
  }
}
