/** The bilinear colour interpolator of color_interpolator.js: the `Color`
    constructor with its JavaScript falsy-defaulting, and `findRGB`, which
    blends four corner colours at an offset inside a rectangle.
    Numbers are reals; IEEE-754 rounding, NaN and Infinity are not modelled. */
module ColorInterpolator {
  import opened Wrappers

  /** An RGBA value. Channels are not clamped; callers normally keep them in [0, 1]. */
  datatype Color = Color(r: real, g: real, b: real, a: real) {
    function At(ch: Channel): real {
      match ch
      case Red => r
      case Green => g
      case Blue => b
      case Alpha => a
    }
  }

  datatype Channel = Red | Green | Blue | Alpha

  /** A JavaScript number argument: `None` when it is omitted (`undefined`). */
  type Arg = Option<real>

  /** JavaScript truthiness of a number argument (NaN is not modelled). */
  predicate Truthy(v: Arg) {
    v.Some? && v.value != 0.0
  }

  /** `v ? v : dflt` */
  function OrElse(v: Arg, dflt: real): real {
    if Truthy(v) then v.value else dflt
  }

  /** `new Color(r, g, b, a)`: a falsy red, green or blue becomes 0.0, which
      leaves every given number unchanged; a falsy alpha becomes 1.0, so a
      constructed colour is never fully transparent. */
  function NewColor(r: Arg, g: Arg, b: Arg, a: Arg): (c: Color)
    ensures c.r == r.GetOr(0.0) && c.g == g.GetOr(0.0) && c.b == b.GetOr(0.0)
    ensures a.Some? && a.value != 0.0 ==> c.a == a.value
    ensures a.None? || a.value == 0.0 ==> c.a == 1.0
    ensures c.a != 0.0
  {
    Color(OrElse(r, 0.0), OrElse(g, 0.0), OrElse(b, 0.0), OrElse(a, 1.0))
  }

  /** The colour `new Color(c.r, c.g, c.b, c.a)` builds from the four numbers of `c`. */
  function Rebuild(c: Color): Color {
    NewColor(Some(c.r), Some(c.g), Some(c.b), Some(c.a))
  }

  /** Re-constructing a colour from its own channels changes nothing exactly
      when its alpha is nonzero; in particular the constructor is idempotent. */
  lemma RebuildFixesExactlyNonTransparent(c: Color, r: Arg, g: Arg, b: Arg, a: Arg)
    ensures Rebuild(c) == c <==> c.a != 0.0
    ensures Rebuild(NewColor(r, g, b, a)) == NewColor(r, g, b, a)
  {}

  /** The four corner colours, counterclockwise from the lower left; in the
      source they are `colors[0]` .. `colors[3]`. */
  datatype Corners = Corners(lowerLeft: Color, lowerRight: Color, upperRight: Color, upperLeft: Color)

  /** JavaScript `ToNumber` of a boolean. */
  function B2R(b: bool): real {
    if b then 1.0 else 0.0
  }

  /** The bounds check of `findRGB` as written. `0 <= x <= width` parses as
      `(0 <= x) <= width`: the boolean becomes 0 or 1 and is compared with
      `width`, so the check only looks at the signs of `x` and `y`, and never
      compares them with the extents. */
  predicate GuardPasses(x: real, y: real, width: real, height: real)
    ensures GuardPasses(x, y, width, height) <==>
              (if 0.0 <= x then width >= 1.0 else width >= 0.0) &&
              (if 0.0 <= y then height >= 1.0 else height >= 0.0)
    ensures width >= 1.0 && height >= 1.0 ==> GuardPasses(x, y, width, height)
  {
    B2R(0.0 <= x) <= width && B2R(0.0 <= y) <= height
  }

  /** One channel of the blend: the lower-left value plus the X-extreme's and
      the Y-extreme's differences from it, weighted by the two fractions. */
  function Mix(base: real, towardX: real, towardY: real, pctX: real, pctY: real): real {
    base + (towardX - base) * pctX + (towardY - base) * pctY
  }

  /** The four blended channels of `findRGB`, before they pass through the
      `Color` constructor. The extremes depend on which side of the line
      `y = x` (in raw, unnormalised coordinates) the offset lies: above it
      they are the upper-right and upper-left corners, otherwise the
      lower-right and upper-right corners. */
  function Blend(x: real, y: real, width: real, height: real, colors: Corners): (c: Color)
    requires width != 0.0 && height != 0.0
    ensures x == 0.0 && y == 0.0 ==> c == colors.lowerLeft
  {
    var maxX := if y > x then colors.upperRight else colors.lowerRight;
    var maxY := if y > x then colors.upperLeft else colors.upperRight;
    var pctY := y / height;
    var pctX := x / width;
    var c0 := colors.lowerLeft;
    Color(Mix(c0.r, maxX.r, maxY.r, pctX, pctY),
          Mix(c0.g, maxX.g, maxY.g, pctX, pctY),
          Mix(c0.b, maxX.b, maxY.b, pctX, pctY),
          Mix(c0.a, maxX.a, maxY.a, pctX, pctY))
  }

  /** `findRGB(x, y, width, height, colors)`: `None` is the source's `null`.
      The source ends with `return Color(r, g, b, a)` WITHOUT `new`, which in
      JavaScript writes the channels onto the global object and returns
      `undefined`; the model returns what `new Color(r, g, b, a)` would build,
      the evident intent, including the defaulting of a zero alpha to 1.0.
      The divisions by `width` and `height` happen only once the check has
      passed, so a zero extent is excluded only where the check lets it through. */
  function FindRGB(x: real, y: real, width: real, height: real, colors: Corners): (res: Option<Color>)
    requires GuardPasses(x, y, width, height) ==> width != 0.0 && height != 0.0
    ensures res.None? <==> B2R(0.0 <= x) > width || B2R(0.0 <= y) > height
    ensures width >= 1.0 && height >= 1.0 ==> res.Some?
    ensures res.Some? ==> res.value.a != 0.0
    ensures res.Some? ==> var raw := Blend(x, y, width, height, colors);
              && res.value.r == raw.r && res.value.g == raw.g && res.value.b == raw.b
              && res.value.a == (if raw.a != 0.0 then raw.a else 1.0)
  {
    if !GuardPasses(x, y, width, height) then None
    else
      var raw := Blend(x, y, width, height, colors);
      Some(NewColor(Some(raw.r), Some(raw.g), Some(raw.b), Some(raw.a)))
  }
}
