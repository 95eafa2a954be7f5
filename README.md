# PaletteBar colour picker, modelled in Dafny

PaletteBar is an Android view: a horizontal rainbow bar over which the user
drags a finger to pick a colour. Horizontally the bar is divided into seven
hue gradients (grey to brown, brown to red, red to yellow, yellow to green,
green to cyan, cyan to blue, blue to violet). Vertically it is divided into two
tint gradients: the upper half lightens towards white and the lower half
darkens towards black. A margin of `colorMargin` pixels surrounds the palette.

The model has two modules:

- `ColorMapping` (ColorMapping.dfy) holds `getColorFromCoords` as pure
  functions over `real`, which stands in for Java `float`. The Java `(int)`
  cast is `Trunc`, which truncates toward zero. The Java `% 1` is `Frac`, the
  part that truncation drops. Both are defined for negative values too,
  because `getColorFromCoords` is public and can be called outside the
  palette. The function is split into `Hue` (the seven formulas), `Tint` (the
  white/black blend) and `ToArgb` (truncation and alpha 255). The geometry is
  passed explicitly as a `Geometry` value.
- `PaletteView` (PaletteView.dfy) holds the class `PaletteBar`. Its fields are
  `colorMargin`, `paletteWidth`, `paletteHeight` and `currentColor`. Its
  methods are `OnSizeChanged`, `OnTouch` (clamp the touch point, then store the
  mapped colour) and `GetCurrentColor`. The invariant `Valid()` says the
  current colour is always opaque with every channel in 0..255.

The model follows the formulas, not the named colour constants. Gradient 0
starts at (127,127,127), not GRAY (128,128,128). Gradient 4 ramps to cyan
(0,255,255), not TEAL (128,255,255). `PickedFollowsDrawnGradient` proves that,
at both ends of every gradient, the picked colour is within one unit per
channel of the colour the view draws there, except at the TEAL ends of
gradients 4 and 5, which are 128 units of red away. How the drawn gradient
blends between its two ends is not modelled.

The class comment (PaletteBar.java:15-17) says colours darken into black from
the centre down. The code does not quite do that, and it has some other
behaviour worth knowing:

- For an even palette height, the bottom edge is not black. At a relative y
  equal to the palette height, the vertical index is 2 and the fraction is 0,
  so the hue comes back unchanged (`WholeTintStepKeepsHue` with n = 2).
- On an odd palette height, the last row that a touch can be clamped to has
  vertical index 2. That row shows the undarkened hue
  (`OddHeightLastRowKeepsHue`). This is because line 274 halves the height in
  integer arithmetic.
- A worked example: on a 700 by 200 palette each hue gradient is 100 pixels
  wide, so x = 350 lies halfway along gradient 3 (yellow to green). On the
  midline it gives (127,255,0) (`YellowGreenHalfway`).
- `getColorFromCoords` is public and also maps points outside the palette.
  Left of the palette the hue stays in range (`HueAt`). More than one tint
  gradient above the top edge, the vertical index is negative. Between whole
  steps the darkening branch runs with a negative fraction and lifts the
  channels, which can go past 255 (`FarAboveTopEdgeExceedsByte`).
  `Color.argb` would then pack overlapping bits. The touch handler never gets there, because it clamps y first.
- Touch coordinates are floats. A coordinate in [margin + size - 1,
  margin + size) is not moved by the clamp. So after clamping the point lies in
  the half-open range [margin, margin + size), not in
  [margin, margin + size - 1].

## Model

| member | source | states |
|---|---|---|
| `ColorMapping.Trunc` | PaletteBar.java:233 | the `(int)` cast truncates toward zero: for v >= 0 the result n satisfies n <= v < n + 1, and for v < 0 it satisfies n - 1 < v <= n |
| `ColorMapping.Frac` | PaletteBar.java:236 | `% 1` lies in [0,1) for non-negative v and in (-1,0] for negative v, and v minus the result is a whole number |
| `ColorMapping.Hue` | PaletteBar.java:242-271 | for a fraction in [0,1], every hue channel lies in [0,255], whichever gradient index is given; so it does for index 0 or below with a fraction in (-1,0], the case of points left of the palette |
| `ColorMapping.Tint` | PaletteBar.java:278-288 | gradient 0 never darkens an in-range colour and caps at 255; any other index floors at 0 and, for a fraction of 0 or more, never brightens; fraction 0 gives white in gradient 0 and the hue unchanged elsewhere; an in-range colour stays in range |
| `ColorMapping.HueAt` | PaletteBar.java:224-271 | every x, inside the palette or not, gets a hue with every channel in [0,255] |
| `ColorMapping.ToArgb` | PaletteBar.java:290 | alpha is 255, and in-range float channels give byte channels |
| `ColorMapping.ColorFromCoords` | PaletteBar.java:221-291 | alpha is always 255; every point at or below the palette's top edge, at any x, gets channels in [0,255] |
| `ColorMapping.HueIsInterpolation` | PaletteBar.java:243-271 | each gradient's formula is the straight line between its start and end colour; indices of 6 or more stay on the blue-to-violet line |
| `ColorMapping.HueSeamsMeet` | PaletteBar.java:243-271 | the end of gradient k-1 and the start of gradient k differ by at most 1 per channel, and by nothing at the seams into gradients 3 to 6 |
| `ColorMapping.PickedFollowsDrawnGradient` | PaletteBar.java:29-47 | the mapping's end colours are within 1 per channel of the drawn gradients' colours, except the TEAL end of gradients 4 and 5, which is 128 units of red away |
| `ColorMapping.HueIndexInPalette` | PaletteBar.java:228-233 | a point inside the palette falls in gradient k with 0 <= k <= 6, and k is the seventh of the width that holds the point |
| `ColorMapping.LastHueRamp` | PaletteBar.java:267-271 | from six sevenths of the width on, including past the palette end, the hue is (m*255, 0, 255) with m in [0,1) |
| `ColorMapping.UpperHalfLightens` | PaletteBar.java:274-282 | in vertical gradient 0 each channel is the truncation of min(255, hue + 255*(1-m)) |
| `ColorMapping.TopEdgeIsWhite` | PaletteBar.java:278-282 | the top row of the palette is (255,255,255) at every x |
| `ColorMapping.LowerPartDarkens` | PaletteBar.java:283-287 | below the upper tint gradient, including index 2, no channel exceeds that of the hue |
| `ColorMapping.WholeTintStepKeepsHue` | PaletteBar.java:274-287 | n >= 1 whole tint gradients below the top edge, the vertical index is n and the hue is returned unchanged |
| `ColorMapping.OddHeightLastRowKeepsHue` | PaletteBar.java:274-276 | on an odd palette height, the last row has vertical index 2 and shows the undarkened hue |
| `ColorMapping.MidlineRed` | PaletteBar.java:251-254 | the start of gradient 2 on the midline is pure red (255,0,0) |
| `ColorMapping.FarAboveTopEdgeExceedsByte` | PaletteBar.java:274-290 | on a 700 by 200 palette, the point 199 pixels above the top edge at the left edge maps to channels of 379, past the byte range, because the vertical index there is -1 and the darkening branch runs with fraction -0.99 |
| `ColorMapping.YellowGreenHalfway` | PaletteBar.java:255-258 | on a 700 by 200 palette, the point (350, 100) is (127,255,0) |
| `PaletteView.ClampCoord` | PaletteBar.java:196-206 | the clamped coordinate lies in [margin, margin + size); a coordinate already in that range is unchanged; one below the margin becomes the first pixel; one at or past the palette end becomes the last pixel |
| `PaletteView.TouchAboveTopEdgePicksWhite` | PaletteBar.java:202-209 | a touch on or above the palette's top edge is clamped to the top row and picks white |
| `PaletteView.PaletteBar.constructor` | PaletteBar.java:55-63 | a new bar has no palette size yet and has picked black, with the given margin |
| `PaletteView.PaletteBar.GetCurrentColor` | PaletteBar.java:151-153 | returns the stored colour, which is always opaque with byte channels |
| `PaletteView.PaletteBar.OnSizeChanged` | PaletteBar.java:179-183 | the palette size becomes the view size less twice the margin; margin and colour are unchanged |
| `PaletteView.PaletteBar.OnTouch` | PaletteBar.java:189-218 | the current colour becomes the mapped colour of the clamped point; the geometry is unchanged; the touch is consumed; the colour stays opaque and in range |
| `PaletteView.PickRed` | PaletteBar.java:209 | a client that sizes the bar, touches the red start on the midline and reads (255,255,0,0) back through `GetCurrentColor` |

## Left out

- View construction in `init` is not modelled: the layouts, the `GradientDrawable` arrays, `setBackgroundDrawable` and `addView`. These are rendering through Android APIs.
- The margin default is not derived from display density. The constructor takes the resolved margin in pixels.
- `setColorMarginPx` is not modelled. It stores the margin and then re-runs `init`, which is rendering.
- `setListener` is not modelled, and neither are the listener callback and background-colour updates inside `onTouch`. These are UI callbacks.
- The kind of touch action (down, move, up) is not modelled. It only selects between those callbacks.
- Instance-state save and restore (`PaletteBarSavedState`) is not modelled. It is Android `Parcel` plumbing.
- `Color.argb` bit-packing is not modelled. The colour is returned as an (alpha, red, green, blue) record.
- IEEE-754 `float` rounding is not modelled, and neither is the saturation of the `(int)` cast on huge values. Floats are modelled as exact reals.
- ColorMapping.ColorFromCoords: requires a palette width above 0 and a height of at least 2. A width of 0, or a height from -1 to 1, gives a gradient size of 0, and lines 233/236 (`x / gradientSize`) or 275/276 (`y / gradientSize`) divide by zero in float; the infinities and NaNs that follow are not modelled. A negative width or a height of -2 or less happens when the view is smaller than twice the margin; lines 233/236 or 275/276 then divide by a negative gradient size, and that case is not modelled either.
- Java `int` wrap-around is not modelled. Integers are unbounded, so overflow in `w - mColorMargin * 2` (lines 181-182) and in `mPaletteWidth + mColorMargin` (lines 198 and 204) is not captured.
- PaletteView.PaletteBar.OnTouch: requires the same palette size as the mapping.
