/**
 The coordinate-to-colour mapping of the palette bar: a point of the view is
 shifted by the margin, its horizontal position picks one of seven hue ramps
 and its vertical position one of two tint ramps (towards white above the
 midline, towards black below it). Java `float` is modelled as `real`, the
 `(int)` cast as truncation toward zero, and `% 1` as the remainder of that
 truncation.
 */
module ColorMapping {

  /** Number of horizontal hue gradients (COLOR_GRADIENTS.length). */
  const HueSegmentCount: int := 7

  /** A colour with `float` channels, as the locals r, g, b hold it. */
  datatype Rgb = Rgb(r: real, g: real, b: real)

  /** The colour handed to Color.argb: alpha and three truncated channels. */
  datatype Argb = Argb(alpha: int, red: int, green: int, blue: int)

  /** Margin and palette size in pixels, as the view holds them. */
  datatype Geometry = Geometry(margin: int, width: int, height: int)

  /** The sizes the divisions of the mapping need: a non-empty hue range and a tint half of at least one pixel. */
  predicate Drawable(geo: Geometry) {
    geo.width > 0 && geo.height >= 2
  }

  predicate InUnit(m: real) {
    0.0 <= m <= 1.0
  }

  predicate ChannelsInRange(c: Rgb) {
    0.0 <= c.r <= 255.0 && 0.0 <= c.g <= 255.0 && 0.0 <= c.b <= 255.0
  }

  predicate ChannelsNonNegative(c: Rgb) {
    0.0 <= c.r && 0.0 <= c.g && 0.0 <= c.b
  }

  /** Every channel of `hi` is at least the matching channel of `lo`. */
  predicate Dominates(hi: Rgb, lo: Rgb) {
    lo.r <= hi.r && lo.g <= hi.g && lo.b <= hi.b
  }

  /** A fully opaque colour whose channels are all valid bytes. */
  predicate IsOpaqueColor(c: Argb) {
    c.alpha == 255 &&
    0 <= c.red <= 255 && 0 <= c.green <= 255 && 0 <= c.blue <= 255
  }

  const White: Rgb := Rgb(255.0, 255.0, 255.0)

  /** Java's `(int)` cast of a float: truncation toward zero. */
  function Trunc(v: real): (n: int)
    ensures 0.0 <= v ==> 0 <= n && n as real <= v < n as real + 1.0
    ensures v < 0.0 ==> n <= 0 && n as real - 1.0 < v <= n as real
  {
    if v >= 0.0 then v.Floor else -((-v).Floor)
  }

  /** Java's `v % 1` on a float: the part of `v` that truncation drops, with the sign of `v`. */
  function Frac(v: real): (f: real)
    ensures 0.0 <= v ==> 0.0 <= f < 1.0
    ensures v < 0.0 ==> -1.0 < f <= 0.0
    ensures (v - f).Floor as real == v - f
  {
    v - Trunc(v) as real
  }

  function Min(a: real, b: real): real {
    if a <= b then a else b
  }

  function Max(a: real, b: real): real {
    if a >= b then a else b
  }

  /**
   The hue at fraction `m` of horizontal gradient `idx`; an index of six or
   more continues the blue-to-violet ramp, a negative index matches no
   branch and leaves the channels at zero.
   */
  function Hue(idx: int, m: real): (h: Rgb)
    ensures InUnit(m) ==> ChannelsInRange(h)
    ensures idx <= 0 && -1.0 < m <= 0.0 ==> ChannelsInRange(h)
  {
    if idx == 0 then Rgb(127.0, 127.0 - m * 63.0, 127.0 - m * 127.0)
    else if idx == 1 then Rgb(127.0 + m * 127.0, 63.0 - m * 63.0, 0.0)
    else if idx == 2 then Rgb(255.0, m * 255.0, 0.0)
    else if idx == 3 then Rgb(255.0 - m * 255.0, 255.0, 0.0)
    else if idx == 4 then Rgb(0.0, 255.0, m * 255.0)
    else if idx == 5 then Rgb(0.0, 255.0 - m * 255.0, 255.0)
    else if idx >= 6 then Rgb(m * 255.0, 0.0, 255.0)
    else Rgb(0.0, 0.0, 0.0)
  }

  /**
   Tint `c` at fraction `m` of vertical gradient `idx`: gradient 0 adds
   whiteness `255 * (1 - m)` capped at 255, every other index subtracts
   blackness `255 * m` floored at 0.
   */
  function Tint(c: Rgb, idx: int, m: real): (t: Rgb)
    ensures idx == 0 && InUnit(m) ==> Dominates(t, c) || !ChannelsInRange(c)
    ensures idx == 0 ==> t.r <= 255.0 && t.g <= 255.0 && t.b <= 255.0
    ensures idx != 0 ==> ChannelsNonNegative(t)
    ensures idx != 0 && 0.0 <= m && ChannelsNonNegative(c) ==> Dominates(c, t)
    ensures idx == 0 && m == 0.0 && ChannelsNonNegative(c) ==> t == White
    ensures idx != 0 && m == 0.0 && ChannelsNonNegative(c) ==> t == c
    ensures ChannelsInRange(c) && InUnit(m) ==> ChannelsInRange(t)
  {
    if idx == 0 then
      var whiteness := 255.0 - m * 255.0;
      Rgb(Min(255.0, c.r + whiteness), Min(255.0, c.g + whiteness), Min(255.0, c.b + whiteness))
    else
      var blackness := m * 255.0;
      Rgb(Max(c.r - blackness, 0.0), Max(c.g - blackness, 0.0), Max(c.b - blackness, 0.0))
  }

  /** Position of `x` in units of one hue gradient, measured from the palette's left edge. */
  function HueCoord(geo: Geometry, x: real): real
    requires geo.width > 0
  {
    (x - geo.margin as real) / (geo.width as real / HueSegmentCount as real)
  }

  /** Height of one tint gradient: half the palette height, halved in integer arithmetic. */
  function TintSize(geo: Geometry): int {
    geo.height / 2
  }

  /** Position of `y` in units of one tint gradient, measured from the palette's top edge. */
  function TintCoord(geo: Geometry, y: real): real
    requires geo.height >= 2
  {
    (y - geo.margin as real) / TintSize(geo) as real
  }

  /** The hue (before tinting) under the view coordinate `x`, left of the palette too. */
  function HueAt(geo: Geometry, x: real): (h: Rgb)
    requires geo.width > 0
    ensures ChannelsInRange(h)
  {
    var v := HueCoord(geo, x);
    Hue(Trunc(v), Frac(v))
  }

  /** Color.argb(255, (int) r, (int) g, (int) b), kept as a record. */
  function ToArgb(c: Rgb): (a: Argb)
    ensures ChannelsInRange(c) ==> IsOpaqueColor(a)
    ensures a.alpha == 255
  {
    Argb(255, Trunc(c.r), Trunc(c.g), Trunc(c.b))
  }

  /**
   The colour the palette shows at view coordinates (x, y). Points at or
   below the top edge get byte channels at any x; more than one tint
   gradient above the top edge they need not (see FarAboveTopEdgeExceedsByte).
   */
  function ColorFromCoords(geo: Geometry, x: real, y: real): (c: Argb)
    requires Drawable(geo)
    ensures c.alpha == 255
    ensures y >= geo.margin as real ==> IsOpaqueColor(c)
  {
    var v := TintCoord(geo, y);
    ToArgb(Tint(HueAt(geo, x), Trunc(v), Frac(v)))
  }

  // ---------------------------------------------------------------------
  // A reference definition of the hue ramps: straight-line interpolation
  // between the two end colours of each gradient.
  // ---------------------------------------------------------------------

  function Lerp(from: Rgb, to: Rgb, m: real): Rgb {
    Rgb(from.r + (to.r - from.r) * m, from.g + (to.g - from.g) * m, from.b + (to.b - from.b) * m)
  }

  /** The colour gradient `k` (0..6) starts from in the mapping. */
  function SegmentStart(k: int): Rgb
    requires 0 <= k < HueSegmentCount
  {
    [Rgb(127.0, 127.0, 127.0), Rgb(127.0, 63.0, 0.0), Rgb(255.0, 0.0, 0.0), Rgb(255.0, 255.0, 0.0),
     Rgb(0.0, 255.0, 0.0), Rgb(0.0, 255.0, 255.0), Rgb(0.0, 0.0, 255.0)][k]
  }

  /** The colour gradient `k` (0..6) ramps towards in the mapping. */
  function SegmentEnd(k: int): Rgb
    requires 0 <= k < HueSegmentCount
  {
    [Rgb(127.0, 64.0, 0.0), Rgb(254.0, 0.0, 0.0), Rgb(255.0, 255.0, 0.0), Rgb(0.0, 255.0, 0.0),
     Rgb(0.0, 255.0, 255.0), Rgb(0.0, 0.0, 255.0), Rgb(255.0, 0.0, 255.0)][k]
  }

  /** The end colours of the gradients the view draws (GRAY, BROWN, RED, ...), per gradient. */
  function DrawnStart(k: int): Rgb
    requires 0 <= k < HueSegmentCount
  {
    [Gray, Brown, Red, Yellow, Green, Teal, Blue][k]
  }

  function DrawnEnd(k: int): Rgb
    requires 0 <= k < HueSegmentCount
  {
    [Brown, Red, Yellow, Green, Teal, Blue, Violet][k]
  }

  const Gray: Rgb := Rgb(128.0, 128.0, 128.0)
  const Brown: Rgb := Rgb(128.0, 64.0, 0.0)
  const Red: Rgb := Rgb(255.0, 0.0, 0.0)
  const Yellow: Rgb := Rgb(255.0, 255.0, 0.0)
  const Green: Rgb := Rgb(0.0, 255.0, 0.0)
  const Teal: Rgb := Rgb(128.0, 255.0, 255.0)
  const Blue: Rgb := Rgb(0.0, 0.0, 255.0)
  const Violet: Rgb := Rgb(255.0, 0.0, 255.0)

  function Abs(v: real): real {
    if v < 0.0 then -v else v
  }

  /** No channel of `a` and `b` differs by more than `d`. */
  predicate Near(a: Rgb, b: Rgb, d: real) {
    Abs(a.r - b.r) <= d && Abs(a.g - b.g) <= d && Abs(a.b - b.b) <= d
  }

  /** Every hue ramp is the straight line between its two end colours; indices past six stay on the last ramp. */
  lemma HueIsInterpolation(idx: int, m: real)
    requires idx >= 0
    ensures var k := if idx < HueSegmentCount then idx else HueSegmentCount - 1;
            Hue(idx, m) == Lerp(SegmentStart(k), SegmentEnd(k), m)
  {
    if idx == 0 {
      assert Hue(idx, m) == Lerp(SegmentStart(0), SegmentEnd(0), m);
    } else if idx == 1 {
      assert Hue(idx, m) == Lerp(SegmentStart(1), SegmentEnd(1), m);
    } else if idx == 2 {
      assert Hue(idx, m) == Lerp(SegmentStart(2), SegmentEnd(2), m);
    } else if idx == 3 {
      assert Hue(idx, m) == Lerp(SegmentStart(3), SegmentEnd(3), m);
    } else if idx == 4 {
      assert Hue(idx, m) == Lerp(SegmentStart(4), SegmentEnd(4), m);
    } else if idx == 5 {
      assert Hue(idx, m) == Lerp(SegmentStart(5), SegmentEnd(5), m);
    } else {
      assert Hue(idx, m) == Lerp(SegmentStart(6), SegmentEnd(6), m);
    }
  }

  /** Neighbouring ramps meet: the end of gradient k-1 and the start of gradient k differ by at most one per channel, and not at all from the seam into gradient 3 on. */
  lemma HueSeamsMeet(k: int)
    requires 1 <= k < HueSegmentCount
    ensures Near(Hue(k - 1, 1.0), Hue(k, 0.0), 1.0)
    ensures k >= 3 ==> Hue(k - 1, 1.0) == Hue(k, 0.0)
  {
    HueIsInterpolation(k - 1, 1.0);
    HueIsInterpolation(k, 0.0);
  }

  /**
   The picked colour follows the drawn gradients within one unit per channel,
   except where the view draws TEAL (128, 255, 255): the mapping ramps to and
   from cyan (0, 255, 255) there, 128 units of red apart.
   */
  lemma PickedFollowsDrawnGradient(k: int)
    requires 0 <= k < HueSegmentCount
    ensures k != 5 ==> Near(SegmentStart(k), DrawnStart(k), 1.0)
    ensures k != 4 ==> Near(SegmentEnd(k), DrawnEnd(k), 1.0)
    ensures k == 4 ==> SegmentEnd(k).r + 128.0 == DrawnEnd(k).r
    ensures k == 5 ==> SegmentStart(k).r + 128.0 == DrawnStart(k).r
  {
  }

  // ---------------------------------------------------------------------
  // Where a point falls.
  // ---------------------------------------------------------------------

  /** Scaling by a positive factor keeps the order of two reals. */
  lemma ScaleMonotone(p: real, q: real, d: real)
    requires d > 0.0
    ensures p <= q ==> p * d <= q * d
    ensures p < q ==> p * d < q * d
  {
  }

  /** Where a quotient by a positive divisor lies, in terms of the dividend. */
  lemma QuotientBounds(a: real, d: real, lo: real, hi: real)
    requires d > 0.0
    ensures lo <= a / d <==> lo * d <= a
    ensures a / d < hi <==> a < hi * d
  {
    assert (a / d) * d == a;
    ScaleMonotone(lo, a / d, d);
    ScaleMonotone(a / d, lo, d);
    ScaleMonotone(a / d, hi, d);
    ScaleMonotone(hi, a / d, d);
  }

  /** A whole multiple of a positive divisor divides back exactly. */
  lemma ExactQuotient(q: real, d: real)
    requires d > 0.0
    ensures (q * d) / d == q
  {
    var r := (q * d) / d;
    assert r * d == q * d;
    ScaleMonotone(r, q, d);
    ScaleMonotone(q, r, d);
  }

  /** A point of the palette falls in gradient k = 0..6, the k-th seventh of the palette width. */
  lemma HueIndexInPalette(geo: Geometry, x: real)
    requires geo.width > 0
    requires geo.margin as real <= x < (geo.margin + geo.width) as real
    ensures var k := Trunc(HueCoord(geo, x));
            0 <= k < HueSegmentCount &&
            geo.margin as real + k as real * (geo.width as real / 7.0) <= x &&
            x < geo.margin as real + (k + 1) as real * (geo.width as real / 7.0)
  {
    var d := geo.width as real / 7.0;
    var rel := x - geo.margin as real;
    var k := Trunc(HueCoord(geo, x));
    QuotientBounds(rel, d, k as real, (k + 1) as real);
    QuotientBounds(rel, d, 0.0, 7.0);
  }

  /** A point at or beyond six sevenths of the palette width takes the blue-to-violet ramp. */
  lemma LastHueRamp(geo: Geometry, x: real)
    requires geo.width > 0
    requires x >= geo.margin as real + 6.0 * (geo.width as real / 7.0)
    ensures var m := Frac(HueCoord(geo, x));
            0.0 <= m < 1.0 && HueAt(geo, x) == Rgb(m * 255.0, 0.0, 255.0)
  {
    QuotientBounds(x - geo.margin as real, geo.width as real / 7.0, 6.0, 7.0);
  }

  /** In the upper half every channel is its hue plus whiteness 255 * (1 - m), capped at 255. */
  lemma UpperHalfLightens(geo: Geometry, x: real, y: real)
    requires Drawable(geo)
    requires geo.margin as real <= y < (geo.margin + TintSize(geo)) as real
    ensures var h := HueAt(geo, x);
            var m := Frac(TintCoord(geo, y));
            var c := ColorFromCoords(geo, x, y);
            0.0 <= m < 1.0 &&
            c.red == Trunc(Min(255.0, h.r + 255.0 * (1.0 - m))) &&
            c.green == Trunc(Min(255.0, h.g + 255.0 * (1.0 - m))) &&
            c.blue == Trunc(Min(255.0, h.b + 255.0 * (1.0 - m)))
  {
    QuotientBounds(y - geo.margin as real, TintSize(geo) as real, 0.0, 1.0);
  }

  /** The top edge of the palette is white, whatever the hue. */
  lemma TopEdgeIsWhite(geo: Geometry, x: real)
    requires Drawable(geo)
    ensures ColorFromCoords(geo, x, geo.margin as real) == Argb(255, 255, 255, 255)
  {
    assert TintCoord(geo, geo.margin as real) == 0.0;
  }

  /** Below the upper half, no channel ever exceeds that of the hue under the point. */
  lemma LowerPartDarkens(geo: Geometry, x: real, y: real)
    requires Drawable(geo)
    requires y >= (geo.margin + TintSize(geo)) as real
    ensures var h := HueAt(geo, x);
            var c := ColorFromCoords(geo, x, y);
            c.red <= Trunc(h.r) && c.green <= Trunc(h.g) && c.blue <= Trunc(h.b)
  {
    QuotientBounds(y - geo.margin as real, TintSize(geo) as real, 1.0, 1.0);
  }

  /** One tint gradient below the top edge (the midline, and the edge below a whole second gradient) the hue is shown unchanged. */
  lemma WholeTintStepKeepsHue(geo: Geometry, x: real, n: int)
    requires Drawable(geo)
    requires n >= 1
    ensures Trunc(TintCoord(geo, (geo.margin + n * TintSize(geo)) as real)) == n
    ensures ColorFromCoords(geo, x, (geo.margin + n * TintSize(geo)) as real) == ToArgb(HueAt(geo, x))
  {
    var s := TintSize(geo);
    var y := (geo.margin + n * s) as real;
    assert y - geo.margin as real == n as real * s as real;
    ExactQuotient(n as real, s as real);
    assert TintCoord(geo, y) == n as real;
  }

  /**
   On an odd palette height the integer halving leaves one row over: the last
   row lies in tint gradient 2 at fraction 0 and shows the hue undarkened.
   */
  lemma OddHeightLastRowKeepsHue(geo: Geometry, x: real)
    requires Drawable(geo) && geo.height % 2 == 1
    ensures var y := (geo.margin + geo.height - 1) as real;
            Trunc(TintCoord(geo, y)) == 2 &&
            ColorFromCoords(geo, x, y) == ToArgb(HueAt(geo, x))
  {
    assert geo.margin + geo.height - 1 == geo.margin + 2 * TintSize(geo);
    WholeTintStepKeepsHue(geo, x, 2);
  }

  /** The start of the red-to-yellow gradient on the midline is pure red. */
  lemma MidlineRed(geo: Geometry)
    requires Drawable(geo)
    ensures ColorFromCoords(geo, geo.margin as real + 2.0 * geo.width as real / 7.0,
                            (geo.margin + TintSize(geo)) as real) == Argb(255, 255, 0, 0)
  {
    var x := geo.margin as real + 2.0 * geo.width as real / 7.0;
    var d := geo.width as real / 7.0;
    assert x - geo.margin as real == 2.0 * d;
    ExactQuotient(2.0, d);
    assert HueCoord(geo, x) == 2.0;
    WholeTintStepKeepsHue(geo, x, 1);
  }

  /** A 700 by 200 palette: x = 350 is halfway along the yellow-to-green gradient, so on the midline it gives (127, 255, 0). */
  lemma YellowGreenHalfway(margin: int)
    ensures ColorFromCoords(Geometry(margin, 700, 200), (margin + 350) as real, (margin + 100) as real)
            == Argb(255, 127, 255, 0)
  {
    var geo := Geometry(margin, 700, 200);
    assert HueCoord(geo, (margin + 350) as real) == 3.5;
    assert TintCoord(geo, (margin + 100) as real) == 1.0;
  }

  /**
   More than one tint gradient above the top edge the vertical index is
   negative; between whole steps the darkening branch runs with a negative
   fraction and lifts the channels, which can go past 255, as here. The touch
   handler never gets there, since it clamps y.
   */
  lemma FarAboveTopEdgeExceedsByte(margin: int)
    ensures ColorFromCoords(Geometry(margin, 700, 200), margin as real, (margin - 199) as real)
            == Argb(255, 379, 379, 379)
  {
    var geo := Geometry(margin, 700, 200);
    assert HueCoord(geo, margin as real) == 0.0;
    assert TintCoord(geo, (margin - 199) as real) == -1.99;
  }
}
