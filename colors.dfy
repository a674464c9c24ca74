/**
 * Colours and brushes, and the shading rule used for the side faces of a
 * pie chart drawn in perspective (WPieChart::darken).
 */
module Colors {

  /** One 8-bit colour channel, as stored by WColor. */
  type Channel = x: int | 0 <= x <= 255

  datatype Color = Color(red: Channel, green: Channel, blue: Channel, alpha: Channel)

  datatype BrushStyle = NoBrush | SolidPattern

  /** A fill: its style and its colour. */
  datatype Brush = Brush(style: BrushStyle, color: Color)

  /** A default-constructed WBrush: no fill, opaque black. */
  const DefaultBrush := Brush(NoBrush, Color(0, 0, 0, 255))

  /** `d` is the integer part of three quarters of `c`. */
  predicate ThreeQuartersOf(c: Channel, d: Channel)
  {
    4 * d <= 3 * c < 4 * d + 4
  }

  /**
   * The shaded variant of a brush: every colour channel is scaled by 3/4 with
   * integer division (multiply first, then divide), alpha and style are kept.
   */
  function Darken(brush: Brush): (result: Brush)
    ensures result.style == brush.style
    ensures result.color.alpha == brush.color.alpha
    ensures ThreeQuartersOf(brush.color.red, result.color.red)
    ensures ThreeQuartersOf(brush.color.green, result.color.green)
    ensures ThreeQuartersOf(brush.color.blue, result.color.blue)
    ensures result.color.red <= brush.color.red
    ensures result.color.green <= brush.color.green
    ensures result.color.blue <= brush.color.blue
  {
    var c := brush.color;
    brush.(color := Color(c.red * 3 / 4, c.green * 3 / 4, c.blue * 3 / 4, c.alpha))
  }

  /** Darkening never reorders two values of the same channel. */
  lemma DarkenMonotone(a: Brush, b: Brush)
    requires a.color.red <= b.color.red
    requires a.color.green <= b.color.green
    requires a.color.blue <= b.color.blue
    ensures Darken(a).color.red <= Darken(b).color.red
    ensures Darken(a).color.green <= Darken(b).color.green
    ensures Darken(a).color.blue <= Darken(b).color.blue
  {
  }

  /** Every channel of 2 or more gets strictly darker, so the shading is visible. */
  lemma DarkenStrictlyFades(brush: Brush)
    ensures brush.color.red >= 2 ==> Darken(brush).color.red < brush.color.red
    ensures brush.color.green >= 2 ==> Darken(brush).color.green < brush.color.green
    ensures brush.color.blue >= 2 ==> Darken(brush).color.blue < brush.color.blue
  {
  }
}
