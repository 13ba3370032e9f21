/**
 * The status LED: `urgb_u32` packs a colour into the 24-bit GRB word the
 * WS2812 expects, and `RGB_Lives_Display` picks the colour for a life count.
 */
module Colour {

  import opened Wrappers

  /** `urgb_u32`: green in bits 16..23, red in bits 8..15, blue in bits 0..7. */
  function Urgb(r: bv8, g: bv8, b: bv8): (c: bv32)
    ensures c < 0x100_0000
    ensures Red(c) == r && Green(c) == g && Blue(c) == b
  {
    ((r as bv32) << 8) | ((g as bv32) << 16) | (b as bv32)
  }

  function Red(c: bv32): bv8 { ((c >> 8) & 0xFF) as bv8 }
  function Green(c: bv32): bv8 { ((c >> 16) & 0xFF) as bv8 }
  function Blue(c: bv32): bv8 { (c & 0xFF) as bv8 }

  /** Two colours pack to the same word only if they are the same colour. */
  lemma UrgbInjective(r1: bv8, g1: bv8, b1: bv8, r2: bv8, g2: bv8, b2: bv8)
    requires Urgb(r1, g1, b1) == Urgb(r2, g2, b2)
    ensures r1 == r2 && g1 == g2 && b1 == b2
  {
    var c := Urgb(r1, g1, b1);
    assert Red(c) == r1 && Red(c) == r2;
    assert Green(c) == g1 && Green(c) == g2;
  }

  /** Three lives, and the colour `gameStart` sets. */
  const GreenPixel := Urgb(0x00, 0x7F, 0x00)
  /** Two lives. */
  const YellowPixel := Urgb(0xFF, 0xA5, 0x00)
  /** One life. */
  const OrangePixel := Urgb(0xFF, 0x55, 0x00)
  /** No lives left. */
  const RedPixel := Urgb(0x7F, 0x00, 0x00)
  /** The colour `main` shows before a level is chosen. */
  const BluePixel := Urgb(0x00, 0x00, 0x7F)

  /**
   * The colour choice of `RGB_Lives_Display`: one colour per life count
   * 0..3; any other count only prints an error and leaves the LED as it was.
   */
  function LivesColour(lives: int): (c: Option<bv32>)
    ensures c.Some? <==> 0 <= lives <= 3
  {
    if lives == 0 then Some(RedPixel)
    else if lives == 1 then Some(OrangePixel)
    else if lives == 2 then Some(YellowPixel)
    else if lives == 3 then Some(GreenPixel)
    else None
  }

  /** Each life count 0..3 has its own colour, and none of them is the start-up blue. */
  lemma LivesColoursDistinct(a: int, b: int)
    requires 0 <= a <= 3 && 0 <= b <= 3
    ensures LivesColour(a) != Some(BluePixel)
    ensures a != b ==> LivesColour(a) != LivesColour(b)
  {
  }
}
