# cs336 colour interpolation and angle conversion, in Dafny

This project models the two pure computations of a small WebGL course repository:

- **`color_interpolator.js`**:
  - `Color` is an RGBA value constructor. A falsy red, green or blue defaults to 0.0, and a falsy alpha defaults to 1.0.
  - `findRGB` blends four corner colours at an offset `(x, y)` inside a `width` x `height` rectangle. The corners are given counterclockwise from the lower left. The result is `null` when the bounds check fails.
- **`cs336util.js`**: `toRadians` and `toDegrees`.

Numbers are Dafny `real`s. A JavaScript argument that may be omitted is an `Option<real>`: `None` stands for `undefined`, and `Some(0.0)` is the other falsy case modelled. The four corners are the datatype `Corners`, whose fields are `colors[0]` to `colors[3]` of the source. `findRGB`'s `null` is `None`.

Files:
- `wrappers.dfy`: the `Option` datatype.
- `color_interpolator.dfy`: module `ColorInterpolator`, holding the data model and operations.
- `interpolator_properties.dfy`: module `InterpolatorProperties`, holding the lemmas about the blend.
- `angle_units.dfy`: module `AngleUnits`.

## Two quirks of `findRGB`

1. **The bounds check (color_interpolator.js:34), kept as written.** The source writes `0<= x <= width`. JavaScript parses this as `(0 <= x) <= width`: the boolean becomes 0 or 1 and is then compared with `width`.
   - `GuardPasses` models this literally. Its contract shows that the check depends only on the signs of `x` and `y`: it passes iff `width >= 1` when `x >= 0` (and `width >= 0` otherwise), and likewise for `y` and `height`.
   - So for any rectangle at least 1 wide and 1 high it never rejects. `GuardAcceptsPointOutside` shows that `(15, 2)` is accepted in a 10 x 10 square.
   - It also rejects points inside a rectangle narrower than 1. `GuardRejectsPointInside` shows this for `(0.25, 0.25)` in a 0.5 x 0.5 square.
   - `findRGB`'s doc comment (color_interpolator.js:20-21) says an offset outside the rectangle yields `null`. The model follows the code, not that comment.
2. **The missing `new` (color_interpolator.js:56), modelled as intended.** The function ends with `return Color(r, g, b, a)`, so in JavaScript it writes the channels onto the global object and returns `undefined`. The model returns what `new Color(r, g, b, a)` builds, which is the evident intent. This includes replacing a blended alpha of 0 with 1.0.

The corner selection compares raw `y` with raw `x`, not the fractions `y/height` and `x/width`. The blend is anchored at the lower-left corner and adds both differences in full. As a result the upper-right corner is not reproduced at `(width, height)`; `BlendAtUpperRight` states what is returned there instead.

## Model

| member | source | states |
|---|---|---|
| ColorInterpolator.NewColor | color_interpolator.js:9-15 | A given red, green or blue is kept, including 0. An omitted one yields 0.0. A nonzero alpha is kept, and a zero or omitted alpha yields 1.0. So a constructed colour never has alpha 0. |
| ColorInterpolator.RebuildFixesExactlyNonTransparent | color_interpolator.js:11-14 | Re-constructing a colour from its own four channels leaves it unchanged iff its alpha is nonzero. Constructing is therefore idempotent. |
| ColorInterpolator.GuardPasses | color_interpolator.js:34 | The as-written check `(0<=x) <= width && (0<=y) <= height` holds iff `width >= 1` (when `x >= 0`) or `width >= 0` (when `x < 0`), and likewise for y and height. It always holds when both extents are at least 1. |
| ColorInterpolator.Blend | color_interpolator.js:36-54 | The raw blended channels. At the origin they are exactly the lower-left corner. |
| ColorInterpolator.FindRGB | color_interpolator.js:32-57 | Returns null iff `ToNumber(0<=x) > width` or `ToNumber(0<=y) > height`. It never returns null when width and height are both at least 1. A returned colour has the blended red, green and blue. Its alpha is the blended alpha when that is nonzero and 1.0 otherwise, so it is never 0. Nonzero extents are required only when the check passes, because only then does the source divide. |
| InterpolatorProperties.UpperLeftIgnoredOnOrBelowDiagonal | color_interpolator.js:36-37 | When `y <= x`, the extremes are the lower-right and upper-right corners: changing the upper-left corner does not change the blend. |
| InterpolatorProperties.LowerRightIgnoredAboveDiagonal | color_interpolator.js:36-37 | When `y > x`, the extremes are the upper-right and upper-left corners: changing the lower-right corner does not change the blend. |
| InterpolatorProperties.BlendAtLowerRight | color_interpolator.js:36-54 | At `(width, 0)` with `width > 0`, the blend is exactly the lower-right corner. |
| InterpolatorProperties.BlendAtUpperLeft | color_interpolator.js:36-54 | At `(0, height)` with `height > 0`, the blend is exactly the upper-left corner. |
| InterpolatorProperties.BlendAtUpperRight | color_interpolator.js:36-54 | At `(width, height)`, each channel is `far + upperRight - lowerLeft`. Here `far` is the upper-left corner when `height > width`, and the lower-right corner otherwise. |
| InterpolatorProperties.BaseIsLinear | color_interpolator.js:36-54 | Along `y = 0` with `x >= 0`, each channel is `c0 + (c1 - c0) * x/width`. |
| InterpolatorProperties.LeftSideIsLinear | color_interpolator.js:36-54 | Along `x = 0` with `y > 0`, each channel is `c0 + (c3 - c0) * y/height`. |
| InterpolatorProperties.BlendAffineOnEachSide | color_interpolator.js:36-54 | Take two offsets on the same side of the diagonal `y = x`. The blend at any convex combination of them is the same convex combination of their blends. |
| InterpolatorProperties.ChannelsDoNotMix | color_interpolator.js:39-56 | Each output channel depends only on the same channel of the four corners. This holds for the raw blend and for the returned colour. |
| InterpolatorProperties.OpaqueCornersGiveOpaqueResult | color_interpolator.js:45-56 | If all four corners have alpha 1, the blend and the returned colour have alpha 1. |
| InterpolatorProperties.FindRGBAtOrigin | color_interpolator.js:34-56 | At `(0, 0)`, the result is the lower-left corner passed through the constructor when width and height are at least 1, and null otherwise. This includes zero extents. |
| InterpolatorProperties.GuardAcceptsPointOutside | color_interpolator.js:34 | `(15, 2)` in a 10 x 10 rectangle is not rejected. |
| InterpolatorProperties.GuardRejectsPointInside | color_interpolator.js:34 | `(0.25, 0.25)` in a 0.5 x 0.5 rectangle is rejected. |
| InterpolatorProperties.WorkedExample | color_interpolator.js:32-57 | Corners black, red, yellow and green in a 10 x 10 square, sampled at `(5, 2)`, give `Color(0.7, 0.2, 0, 1)`. |
| AngleUnits.PiIsPositive | cs336util.js:135 | The modelled `Math.PI` lies between 3.14 and 3.15, so it is positive. |
| AngleUnits.ToRadians | cs336util.js:133-136 | The result has the sign of its argument, and `radians * 180 == degrees * PI`. |
| AngleUnits.ToDegrees | cs336util.js:138-141 | The result has the sign of its argument, and `degrees * PI == radians * 180`. |
| AngleUnits.DegreesRoundTrip | cs336util.js:133-141 | `toDegrees(toRadians(d)) == d` for every d. |
| AngleUnits.RadiansRoundTrip | cs336util.js:133-141 | `toRadians(toDegrees(r)) == r` for every r. |
| AngleUnits.StraightAngle | cs336util.js:133-141 | `toRadians(180) == PI` and `toDegrees(PI) == 180`. |
| AngleUnits.ToRadiansLinear | cs336util.js:133-136 | `toRadians` maps 0 to 0, respects sums and commutes with scaling. |
| AngleUnits.ToDegreesLinear | cs336util.js:138-141 | `toDegrees` maps 0 to 0, respects sums and commutes with scaling. |
| AngleUnits.ConversionsStrictlyIncreasing | cs336util.js:133-141 | Both conversions are strictly increasing: `a < b` iff the converted values are ordered the same way. |

## Left out

- The WebGL helpers of cs336util.js (`getGraphicsContext`, `loadAndCompileShader`, `createProgram`, `createAndLoadBuffer`, `createAndLoadIndexBuffer`) are calls into the browser and the GPU with no logic of their own.
- homework1a.js and problem4.js are left out. They hold per-frame drawing, the `requestAnimationFrame` loop, DOM input parsing, trigonometric vertex maths and mutable globals. All of it exists only to feed WebGL draw calls and to read DOM input.
- IEEE-754 arithmetic is not modelled: rounding, NaN and Infinity are absent. Arithmetic is over the reals, so the angle round trips hold exactly here but only approximately in JavaScript. `Math.PI` is the exact rational value of the double it denotes.
- ColorInterpolator.FindRGB requires nonzero extents only when the bounds check passes: a zero width with `x < 0`, or a zero height with `y < 0`. There JavaScript divides by zero and gets Infinity or NaN, which real arithmetic cannot express. A zero extent that the check rejects still yields null. ColorInterpolator.Blend, the division step itself, always requires nonzero extents.
- ColorInterpolator.NewColor models only `undefined` and 0 as falsy. NaN, `null`, `""` and non-number arguments are not modelled.
- ColorInterpolator.FindRGB does not model the real effect of the missing `new`: the global-object write and the `undefined` return value. It models the colour that `new Color` would build.
- The corners form a fixed four-field datatype, so two failure cases are not modelled. The first is the `TypeError` raised, once the bounds check has passed, when a corner that is read is `undefined` or `null`. The corners read are `colors[0]` and `colors[2]`, plus `colors[1]` or `colors[3]` depending on the side of the diagonal. The second is the NaN channels produced by a corner without numeric `r`/`g`/`b`/`a`.
