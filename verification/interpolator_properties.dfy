/** Properties of the colour interpolator of color_interpolator.js: which
    corners the blend uses, where it reproduces a corner (and where it does
    not), that it is affine on each side of the diagonal and never mixes
    channels, and how the as-written bounds check behaves. */
module InterpolatorProperties {
  import opened Wrappers
  import opened ColorInterpolator

  /** The convex combination `t*p + (1-t)*q`, channel by channel. */
  function Combine(t: real, p: Color, q: Color): Color {
    Color(t * p.r + (1.0 - t) * q.r, t * p.g + (1.0 - t) * q.g,
          t * p.b + (1.0 - t) * q.b, t * p.a + (1.0 - t) * q.a)
  }

  /** Swaps one corner for another colour. */
  function WithLowerRight(colors: Corners, c: Color): Corners {
    colors.(lowerRight := c)
  }

  function WithUpperLeft(colors: Corners, c: Color): Corners {
    colors.(upperLeft := c)
  }

  // ---------------------------------------------------------------- corners

  /** On or below the diagonal `y <= x` the upper-left corner plays no part. */
  lemma UpperLeftIgnoredOnOrBelowDiagonal(x: real, y: real, width: real, height: real,
                                          colors: Corners, other: Color)
    requires width != 0.0 && height != 0.0
    requires y <= x
    ensures Blend(x, y, width, height, WithUpperLeft(colors, other)) == Blend(x, y, width, height, colors)
  {}

  /** Above the diagonal `y > x` the lower-right corner plays no part. */
  lemma LowerRightIgnoredAboveDiagonal(x: real, y: real, width: real, height: real,
                                       colors: Corners, other: Color)
    requires width != 0.0 && height != 0.0
    requires y > x
    ensures Blend(x, y, width, height, WithLowerRight(colors, other)) == Blend(x, y, width, height, colors)
  {}

  /** At the far end of the base the blend is exactly the lower-right corner. */
  lemma BlendAtLowerRight(width: real, height: real, colors: Corners)
    requires width > 0.0 && height != 0.0
    ensures Blend(width, 0.0, width, height, colors) == colors.lowerRight
  {}

  /** At the top of the left side the blend is exactly the upper-left corner. */
  lemma BlendAtUpperLeft(width: real, height: real, colors: Corners)
    requires width != 0.0 && height > 0.0
    ensures Blend(0.0, height, width, height, colors) == colors.upperLeft
  {}

  /** The upper-right corner is NOT reproduced at `(width, height)`: the two
      differences are both added in full on top of the lower-left colour. */
  lemma BlendAtUpperRight(width: real, height: real, colors: Corners)
    requires width != 0.0 && height != 0.0
    ensures var c := Blend(width, height, width, height, colors);
            var ll := colors.lowerLeft;
            var far := if height > width then colors.upperLeft else colors.lowerRight;
            c.r == far.r + colors.upperRight.r - ll.r &&
            c.g == far.g + colors.upperRight.g - ll.g &&
            c.b == far.b + colors.upperRight.b - ll.b &&
            c.a == far.a + colors.upperRight.a - ll.a
  {
    assert width / width == 1.0;
    assert height / height == 1.0;
  }

  /** Along the base (`y = 0`, `x >= 0`) each channel interpolates linearly
      between the lower-left and lower-right corners. */
  lemma BaseIsLinear(x: real, width: real, height: real, colors: Corners, ch: Channel)
    requires width != 0.0 && height != 0.0
    requires x >= 0.0
    ensures var ll := colors.lowerLeft.At(ch);
            Blend(x, 0.0, width, height, colors).At(ch) ==
              ll + (colors.lowerRight.At(ch) - ll) * (x / width)
  {}

  /** Along the left side (`x = 0`, `y > 0`) each channel interpolates linearly
      between the lower-left and upper-left corners. */
  lemma LeftSideIsLinear(y: real, width: real, height: real, colors: Corners, ch: Channel)
    requires width != 0.0 && height != 0.0
    requires y > 0.0
    ensures var ll := colors.lowerLeft.At(ch);
            Blend(0.0, y, width, height, colors).At(ch) ==
              ll + (colors.upperLeft.At(ch) - ll) * (y / height)
  {}

  // --------------------------------------------------------------- channels

  /** Channels never mix: one output channel depends only on the same channel
      of the four corners, both before and after the `Color` constructor. */
  lemma ChannelsDoNotMix(x: real, y: real, width: real, height: real,
                         colors: Corners, colors': Corners, ch: Channel)
    requires width != 0.0 && height != 0.0
    requires colors.lowerLeft.At(ch) == colors'.lowerLeft.At(ch)
    requires colors.lowerRight.At(ch) == colors'.lowerRight.At(ch)
    requires colors.upperRight.At(ch) == colors'.upperRight.At(ch)
    requires colors.upperLeft.At(ch) == colors'.upperLeft.At(ch)
    ensures Blend(x, y, width, height, colors).At(ch) == Blend(x, y, width, height, colors').At(ch)
    ensures FindRGB(x, y, width, height, colors).Some? ==>
              FindRGB(x, y, width, height, colors).value.At(ch) ==
              FindRGB(x, y, width, height, colors').value.At(ch)
  {}

  /** Corners that are all fully opaque give a fully opaque result. */
  lemma OpaqueCornersGiveOpaqueResult(x: real, y: real, width: real, height: real, colors: Corners)
    requires width != 0.0 && height != 0.0
    requires colors.lowerLeft.a == 1.0 && colors.lowerRight.a == 1.0
    requires colors.upperRight.a == 1.0 && colors.upperLeft.a == 1.0
    ensures Blend(x, y, width, height, colors).a == 1.0
    ensures FindRGB(x, y, width, height, colors).Some? ==> FindRGB(x, y, width, height, colors).value.a == 1.0
  {}

  // ---------------------------------------------------------------- affinity

  /** With its extremes fixed, one channel's formula is affine in the two
      fractions. */
  lemma MixAffine(base: real, towardX: real, towardY: real, t: real,
                  px1: real, py1: real, px2: real, py2: real, px: real, py: real)
    requires px == t * px1 + (1.0 - t) * px2 && py == t * py1 + (1.0 - t) * py2
    ensures Mix(base, towardX, towardY, px, py) ==
            t * Mix(base, towardX, towardY, px1, py1) + (1.0 - t) * Mix(base, towardX, towardY, px2, py2)
  {}

  lemma DivAffine(t: real, a: real, b: real, d: real)
    requires d != 0.0
    ensures (t * a + (1.0 - t) * b) / d == t * (a / d) + (1.0 - t) * (b / d)
  {}

  lemma PosTimesPos(a: real, b: real)
    requires a > 0.0 && b > 0.0
    ensures a * b > 0.0
  {}

  lemma NonNegTimesNonNeg(a: real, b: real)
    requires a >= 0.0 && b >= 0.0
    ensures a * b >= 0.0
  {}

  lemma NonNegTimesNonPos(a: real, b: real)
    requires a >= 0.0 && b <= 0.0
    ensures a * b <= 0.0
  {}

  /** A convex combination of two numbers of the same sign (positive, or
      not positive) has that sign. */
  lemma ConvexKeepsSign(t: real, d1: real, d2: real)
    requires 0.0 <= t <= 1.0
    requires (d1 > 0.0) == (d2 > 0.0)
    ensures (t * d1 + (1.0 - t) * d2 > 0.0) == (d1 > 0.0)
  {
    if d1 > 0.0 {
      if t > 0.0 {
        PosTimesPos(t, d1);
        NonNegTimesNonNeg(1.0 - t, d2);
      } else {
        assert t * d1 + (1.0 - t) * d2 == d2;
      }
    } else {
      NonNegTimesNonPos(t, d1);
      NonNegTimesNonPos(1.0 - t, d2);
    }
  }

  /** A convex combination of two points on the same side of the diagonal
      stays on that side. */
  lemma ConvexStaysOnSide(t: real, x1: real, y1: real, x2: real, y2: real)
    requires 0.0 <= t <= 1.0
    requires (y1 > x1) == (y2 > x2)
    ensures (t * y1 + (1.0 - t) * y2 > t * x1 + (1.0 - t) * x2) == (y1 > x1)
  {
    ConvexKeepsSign(t, y1 - x1, y2 - x2);
    assert (t * y1 + (1.0 - t) * y2) - (t * x1 + (1.0 - t) * x2) ==
           t * (y1 - x1) + (1.0 - t) * (y2 - x2);
  }

  /** The four blended channels for fixed extremes `cx` and `cy`. */
  function MixColor(c0: Color, cx: Color, cy: Color, pctX: real, pctY: real): Color {
    Color(Mix(c0.r, cx.r, cy.r, pctX, pctY), Mix(c0.g, cx.g, cy.g, pctX, pctY),
          Mix(c0.b, cx.b, cy.b, pctX, pctY), Mix(c0.a, cx.a, cy.a, pctX, pctY))
  }

  /** One channel's formula, taken at a convex combination of two offsets,
      is the same convex combination of the formula at the two offsets. */
  lemma MixAtConvex(base: real, cx: real, cy: real, t: real,
                    x1: real, y1: real, x2: real, y2: real, width: real, height: real)
    requires width != 0.0 && height != 0.0
    ensures Mix(base, cx, cy, (t * x1 + (1.0 - t) * x2) / width, (t * y1 + (1.0 - t) * y2) / height) ==
            t * Mix(base, cx, cy, x1 / width, y1 / height) + (1.0 - t) * Mix(base, cx, cy, x2 / width, y2 / height)
  {
    DivAffine(t, x1, x2, width);
    DivAffine(t, y1, y2, height);
    MixAffine(base, cx, cy, t, x1 / width, y1 / height, x2 / width, y2 / height,
              (t * x1 + (1.0 - t) * x2) / width, (t * y1 + (1.0 - t) * y2) / height);
  }

  /** With the extremes fixed, the four blended channels at a convex
      combination of two offsets are that combination of their blends. */
  lemma BlendAffineBetween(t: real, x1: real, y1: real, x2: real, y2: real,
                           width: real, height: real, c0: Color, cx: Color, cy: Color)
    requires width != 0.0 && height != 0.0
    ensures MixColor(c0, cx, cy, (t * x1 + (1.0 - t) * x2) / width, (t * y1 + (1.0 - t) * y2) / height) ==
            Combine(t, MixColor(c0, cx, cy, x1 / width, y1 / height), MixColor(c0, cx, cy, x2 / width, y2 / height))
  {
    MixAtConvex(c0.r, cx.r, cy.r, t, x1, y1, x2, y2, width, height);
    MixAtConvex(c0.g, cx.g, cy.g, t, x1, y1, x2, y2, width, height);
    MixAtConvex(c0.b, cx.b, cy.b, t, x1, y1, x2, y2, width, height);
    MixAtConvex(c0.a, cx.a, cy.a, t, x1, y1, x2, y2, width, height);
  }

  /** On each side of the diagonal the blend is an affine function of the
      offset: blending at a convex combination of two offsets on the same
      side gives the same convex combination of the two blends. */
  lemma BlendAffineOnEachSide(t: real, x1: real, y1: real, x2: real, y2: real,
                              width: real, height: real, colors: Corners)
    requires width != 0.0 && height != 0.0
    requires 0.0 <= t <= 1.0
    requires (y1 > x1) == (y2 > x2)
    ensures Blend(t * x1 + (1.0 - t) * x2, t * y1 + (1.0 - t) * y2, width, height, colors) ==
            Combine(t, Blend(x1, y1, width, height, colors), Blend(x2, y2, width, height, colors))
  {
    ConvexStaysOnSide(t, x1, y1, x2, y2);
    if y1 > x1 {
      BlendAffineBetween(t, x1, y1, x2, y2, width, height, colors.lowerLeft, colors.upperRight, colors.upperLeft);
    } else {
      BlendAffineBetween(t, x1, y1, x2, y2, width, height, colors.lowerLeft, colors.lowerRight, colors.upperRight);
    }
  }

  // ------------------------------------------------------------ bounds check

  /** At the origin `findRGB` returns the lower-left corner (through the
      `Color` constructor), but only when the rectangle is at least 1 wide
      and 1 high: otherwise the as-written check rejects the origin. */
  lemma FindRGBAtOrigin(width: real, height: real, colors: Corners)
    ensures FindRGB(0.0, 0.0, width, height, colors) ==
            if width >= 1.0 && height >= 1.0 then Some(Rebuild(colors.lowerLeft)) else None
  {}

  /** The as-written check accepts a point far outside the rectangle ... */
  lemma GuardAcceptsPointOutside(colors: Corners)
    ensures FindRGB(15.0, 2.0, 10.0, 10.0, colors).Some?
  {}

  /** ... and rejects a point strictly inside a rectangle narrower than 1. */
  lemma GuardRejectsPointInside(colors: Corners)
    ensures FindRGB(0.25, 0.25, 0.5, 0.5, colors).None?
  {}

  /** A sample: a 10 x 10 square with black, red, yellow and green
      corners, sampled at (5, 2), which lies below the diagonal. */
  lemma WorkedExample()
    ensures var colors := Corners(Color(0.0, 0.0, 0.0, 1.0), Color(1.0, 0.0, 0.0, 1.0),
                                  Color(1.0, 1.0, 0.0, 1.0), Color(0.0, 1.0, 0.0, 1.0));
            FindRGB(5.0, 2.0, 10.0, 10.0, colors) == Some(Color(0.7, 0.2, 0.0, 1.0))
  {}
}
