/**
 * Colour values as the engine sees them. The HSV <-> RGB conversion and the
 * tweening arithmetic of src/color.rs are not part of this model: colours are
 * opaque values that are only copied, compared and handed to the curve function.
 */
module Color {
  import opened Indexing

  /** `HSVColor { h: u16, s: u8, v: u8 }`, compared and copied as a whole. */
  datatype HsvColor = HsvColor(h: nat, s: nat, v: nat)

  /** `LedColoring<HSVColor>`: one LED and the colour an animation gives it. */
  datatype LedColoring = LedColoring(led: LedId, color: HsvColor)

  function LedsOf(cs: seq<LedColoring>): (r: seq<LedId>)
    ensures |r| == |cs|
    ensures forall k :: 0 <= k < |cs| ==> r[k] == cs[k].led
  {
    if cs == [] then [] else [cs[0].led] + LedsOf(cs[1..])
  }
}
