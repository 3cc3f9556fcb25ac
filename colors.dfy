/**
 * Colours as the application hands them to the WebGL add-on.
 *
 * A colour object carries integer channels r, g, b in 0..255 and an alpha in
 * [0, 1]; every colour setter of the layer renderer and of the route symbols
 * also stores the "WGL" form of the colour, a four-number array whose first
 * three entries are the channels divided by 255 and whose last is the alpha.
 */
module Colors {

  /** A parsed colour: byte channels and an alpha. */
  datatype Color = Color(r: int, g: int, b: int, a: real)

  /** The four-number WebGL colour array [r, g, b, a]. */
  datatype Rgba = Rgba(r: real, g: real, b: real, a: real)

  predicate IsByteColor(c: Color)
  {
    0 <= c.r <= 255 && 0 <= c.g <= 255 && 0 <= c.b <= 255 && 0.0 <= c.a <= 1.0
  }

  predicate IsUnitRgba(w: Rgba)
  {
    0.0 <= w.r <= 1.0 && 0.0 <= w.g <= 1.0 && 0.0 <= w.b <= 1.0 && 0.0 <= w.a <= 1.0
  }

  /** The channel/255 conversion every colour setter performs. */
  function ToWGL(c: Color): (w: Rgba)
    ensures IsByteColor(c) ==> IsUnitRgba(w)
    ensures w.a == c.a
  {
    Rgba(c.r as real / 255.0, c.g as real / 255.0, c.b as real / 255.0, c.a)
  }

  /** Scales a WebGL colour back to byte channels (the inverse of ToWGL). */
  function FromWGL(w: Rgba): Color
  {
    Color((w.r * 255.0).Floor, (w.g * 255.0).Floor, (w.b * 255.0).Floor, w.a)
  }

  /** No information is lost by the conversion: it can be undone exactly. */
  lemma WGLRoundTrip(c: Color)
    ensures FromWGL(ToWGL(c)) == c
  {
  }

  /** Distinct colours have distinct WebGL forms. */
  lemma ToWGLInjective(c: Color, d: Color)
    ensures ToWGL(c) == ToWGL(d) ==> c == d
  {
    WGLRoundTrip(c);
    WGLRoundTrip(d);
  }

  /** "#d9832e", the default marker colour. */
  const DefaultBirdColor: Color := Color(0xd9, 0x83, 0x2e, 1.0)
  /** "#ffffff", the default line colour. */
  const DefaultLineColor: Color := Color(0xff, 0xff, 0xff, 1.0)
  /** "cyan", the route renderer's initial selection colour. */
  const Cyan: Color := Color(0x00, 0xff, 0xff, 1.0)
}
