/**
 The view state of the palette bar: the margin, the palette size derived from
 the view size, and the colour picked by the last touch.
 */
module PaletteView {
  import opened ColorMapping

  /** Color.BLACK, the colour before any touch. */
  const Black: Argb := Argb(255, 0, 0, 0)

  /**
   Where the touch handler moves a coordinate that lies in the margin: below
   the palette start it snaps to the start, at or past the palette end it
   snaps to the last pixel, and otherwise it is left as it is.
   */
  function ClampCoord(v: real, margin: int, size: int): (c: real)
    ensures size >= 1 ==> margin as real <= c < (margin + size) as real
    ensures margin as real <= v < (margin + size) as real ==> c == v
    ensures v < margin as real ==> c == margin as real
    ensures margin as real <= v && (margin + size) as real <= v ==> c == (margin + size - 1) as real
  {
    if v < margin as real then margin as real
    else if v >= (size + margin) as real then (size + margin - 1) as real
    else v
  }

  /** A touch on or above the top edge of the palette is snapped to the top row and picks white. */
  lemma TouchAboveTopEdgePicksWhite(geo: Geometry, x: real, y: real)
    requires Drawable(geo)
    requires y <= geo.margin as real
    ensures ColorFromCoords(geo, ClampCoord(x, geo.margin, geo.width), ClampCoord(y, geo.margin, geo.height))
            == Argb(255, 255, 255, 255)
  {
    TopEdgeIsWhite(geo, ClampCoord(x, geo.margin, geo.width));
  }

  class PaletteBar {
    var colorMargin: int
    var paletteWidth: int
    var paletteHeight: int
    var currentColor: Argb

    /** The picked colour is always an opaque colour with byte-sized channels. */
    ghost predicate Valid()
      reads this
    {
      IsOpaqueColor(currentColor)
    }

    /** The margin and palette size the colour mapping reads. */
    function Geo(): Geometry
      reads this
    {
      Geometry(colorMargin, paletteWidth, paletteHeight)
    }

    /** A freshly constructed bar: margin already resolved, no size yet, black selected. */
    constructor (colorMarginPx: nat)
      ensures Valid()
      ensures colorMargin == colorMarginPx && paletteWidth == 0 && paletteHeight == 0
      ensures currentColor == Black
    {
      colorMargin := colorMarginPx;
      paletteWidth := 0;
      paletteHeight := 0;
      currentColor := Black;
    }

    method GetCurrentColor() returns (c: Argb)
      requires Valid()
      ensures c == currentColor
      ensures IsOpaqueColor(c)
    {
      c := currentColor;
    }

    /** The palette is the view less a margin on each side. */
    method OnSizeChanged(w: int, h: int)
      requires Valid()
      modifies this`paletteWidth, this`paletteHeight
      ensures Valid()
      ensures paletteWidth == w - 2 * colorMargin && paletteHeight == h - 2 * colorMargin
      ensures colorMargin == old(colorMargin) && currentColor == old(currentColor)
    {
      paletteWidth := w - (colorMargin * 2);
      paletteHeight := h - (colorMargin * 2);
    }

    /**
     A touch at view coordinates (x, y): the point is moved into the palette
     if it lies in the margin, and the colour under it becomes the current
     colour. The touch is always consumed.
     */
    method OnTouch(x: real, y: real) returns (handled: bool)
      requires Valid()
      requires Drawable(Geo())
      modifies this`currentColor
      ensures colorMargin == old(colorMargin) && paletteWidth == old(paletteWidth)
      ensures paletteHeight == old(paletteHeight)
      ensures Valid() && handled
      ensures currentColor == ColorFromCoords(Geo(), ClampCoord(x, colorMargin, paletteWidth),
                                              ClampCoord(y, colorMargin, paletteHeight))
    {
      var px := x;
      var py := y;

      if px < colorMargin as real {
        px := colorMargin as real;
      } else if px >= (paletteWidth + colorMargin) as real {
        px := (paletteWidth + colorMargin - 1) as real;
      }

      if py < colorMargin as real {
        py := colorMargin as real;
      } else if py >= (paletteHeight + colorMargin) as real {
        py := (paletteHeight + colorMargin - 1) as real;
      }

      currentColor := ColorFromCoords(Geo(), px, py);
      handled := true;
    }
  }

  /** A client of the bar: size it, touch the start of the red ramp on the midline, read red back. */
  method PickRed(margin: nat) returns (c: Argb)
    ensures c == Argb(255, 255, 0, 0)
  {
    var bar := new PaletteBar(margin);
    bar.OnSizeChanged(700 + 2 * margin, 200 + 2 * margin);
    var geo := bar.Geo();
    MidlineRed(geo);
    assert ClampCoord(margin as real + 200.0, margin, 700) == margin as real + 200.0;
    var handled := bar.OnTouch(margin as real + 200.0, (margin + 100) as real);
    c := bar.GetCurrentColor();
  }
}
