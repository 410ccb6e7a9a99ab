/** The geometry behind the main window's zoom: the three scalers that turn
    the size of the central widget and of the pixmap into a scale factor,
    Python's round(), and the scroll-bar shift that keeps the point under the
    mouse pointer in place when the canvas grows or shrinks.

    Widget, pixmap and canvas sizes, pointer coordinates and scroll-bar values
    are Qt integers; everything Python computes from them as a float is an
    exact `real` here. */
module ViewTransform {

  /** The three zoom modes of the main window. */
  datatype ZoomMode = FitWindow | FitWidth | ManualZoom

  /** What the scalers read: the central widget's size and the pixmap's size. */
  datatype Geometry = Geometry(containerWidth: int, containerHeight: int,
                               pixmapWidth: int, pixmapHeight: int)

  /** Subtracted from the container's sides so that no scroll bar appears. */
  const Margin: real := 2.0

  /** Multiplicative zoom steps of the zoom-in and zoom-out actions and of the wheel. */
  const ZoomInStep: real := 1.1
  const ZoomOutStep: real := 0.9

  /** The container's usable width and height. */
  function UsableWidth(g: Geometry): real { g.containerWidth as real - Margin }
  function UsableHeight(g: Geometry): real { g.containerHeight as real - Margin }

  /** A realized container (larger than the margin) and a non-empty pixmap. */
  predicate Positive(g: Geometry) {
    g.containerWidth > 2 && g.containerHeight > 2 && g.pixmapWidth > 0 && g.pixmapHeight > 0
  }

  /** At scale `s` the pixmap lies inside the usable part of the container. */
  predicate FitsInside(g: Geometry, s: real) {
    s * g.pixmapWidth as real <= UsableWidth(g) && s * g.pixmapHeight as real <= UsableHeight(g)
  }

  /** At scale `s` the pixmap fills the usable width or the usable height exactly. */
  predicate TouchesBoundary(g: Geometry, s: real) {
    s * g.pixmapWidth as real == UsableWidth(g) || s * g.pixmapHeight as real == UsableHeight(g)
  }

  /** The inputs on which the fit-window computation divides by nothing that is
      zero: the usable height and the pixmap height always, the pixmap width
      when the width is the binding side. Elsewhere Python raises ZeroDivisionError. */
  predicate FitWindowDefined(g: Geometry) {
    && UsableHeight(g) != 0.0
    && g.pixmapHeight != 0
    && (g.pixmapWidth as real / g.pixmapHeight as real >= UsableWidth(g) / UsableHeight(g) ==> g.pixmapWidth != 0)
  }

  /** w1 * h2 <= h1 * w2 follows from comparing the two aspect ratios. */
  lemma AspectCompare(w1: real, h1: real, w2: real, h2: real)
    requires h1 > 0.0 && h2 > 0.0
    ensures w2 / h2 >= w1 / h1 <==> w1 * h2 <= h1 * w2
  {
  }

  lemma MulMonotone(a: real, b: real, c: real)
    requires c > 0.0
    ensures a >= b <==> a * c >= b * c
  {
  }

  /** The fit-window scaler: compares the container's aspect ratio with the
      pixmap's and divides along the binding side. For a positive geometry the
      result fits the pixmap inside the container and touches it on one side. */
  function ScaleFitWindow(g: Geometry): (s: real)
    requires FitWindowDefined(g)
    ensures Positive(g) ==> 0.0 < s && FitsInside(g, s) && TouchesBoundary(g, s)
  {
    var w1 := UsableWidth(g);
    var h1 := UsableHeight(g);
    var a1 := w1 / h1;
    var w2 := g.pixmapWidth as real;
    var h2 := g.pixmapHeight as real;
    var a2 := w2 / h2;
    var s := if a2 >= a1 then w1 / w2 else h1 / h2;
    assert Positive(g) ==> 0.0 < s && FitsInside(g, s) && TouchesBoundary(g, s) by {
      if Positive(g) {
        AspectCompare(w1, h1, w2, h2);
        if a2 >= a1 {
          assert s * w2 == w1;
          MulMonotone(h1, s * h2, w2);
          assert s * h2 * w2 == w1 * h2;
        } else {
          assert s * h2 == h1;
          MulMonotone(w1, s * w2, h2);
          assert s * w2 * h2 == h1 * w2;
        }
      }
    }
    s
  }

  /** Of all scales at which the pixmap fits inside the container, the
      fit-window scale is the largest. */
  lemma FitWindowIsLargest(g: Geometry, t: real)
    requires Positive(g) && FitsInside(g, t)
    ensures t <= ScaleFitWindow(g)
  {
  }

  /** The fit-width scaler: the pixmap's width fills the container's width
      less the margin; the height is not constrained. */
  function ScaleFitWidth(g: Geometry): (s: real)
    requires g.pixmapWidth != 0
    ensures s * g.pixmapWidth as real == UsableWidth(g)
  {
    UsableWidth(g) / g.pixmapWidth as real
  }

  /** What each mode's scaler may be asked without dividing by zero. */
  predicate ScalerDefined(mode: ZoomMode, g: Geometry) {
    match mode
    case FitWindow => FitWindowDefined(g)
    case FitWidth => g.pixmapWidth != 0
    case ManualZoom => true
  }

  /** The scaler table: one scaler per mode; manual zoom scales to 100%. */
  function Scaler(mode: ZoomMode, g: Geometry): (s: real)
    requires ScalerDefined(mode, g)
    ensures mode == ManualZoom ==> s == 1.0
    ensures mode == FitWidth ==> s * g.pixmapWidth as real == UsableWidth(g)
    ensures mode == FitWindow && Positive(g) ==> 0.0 < s && FitsInside(g, s) && TouchesBoundary(g, s)
  {
    match mode
    case FitWindow => ScaleFitWindow(g)
    case FitWidth => ScaleFitWidth(g)
    case ManualZoom => 1.0
  }

  /** The fit-window scale of an 800x600 container and a 1600x1200 pixmap:
      the container (798/598) is slightly wider than the pixmap (4/3), so the
      height binds and the scale is 598/1200. */
  lemma FitWindowExample()
    ensures ScaleFitWindow(Geometry(800, 600, 1600, 1200)) == 598.0 / 1200.0
  {
  }

  function Abs(x: real): real { if x < 0.0 then -x else x }

  /** Python's round() of a float to an int: to the nearest integer, halves
      to the even neighbour. */
  function RoundHalfEven(x: real): (n: int)
    ensures Abs(n as real - x) <= 0.5
    ensures Abs(n as real - x) == 0.5 ==> n % 2 == 0
  {
    var f := x.Floor;
    var d := x - f as real;
    if d < 0.5 then f
    else if d > 0.5 then f + 1
    else if f % 2 == 0 then f
    else f + 1
  }

  /** No integer is closer to x than its rounding. */
  lemma RoundIsNearest(x: real, m: int)
    ensures Abs(RoundHalfEven(x) as real - x) <= Abs(m as real - x)
  {
    var n := RoundHalfEven(x);
    if m != n {
      if m < n {
        assert m as real <= n as real - 1.0;
      } else {
        assert m as real >= n as real + 1.0;
      }
    }
  }

  /** The two properties of RoundHalfEven determine it: an integer within a
      half of x, even in the tie, is the rounding of x. */
  lemma RoundUnique(x: real, m: int)
    requires Abs(m as real - x) <= 0.5
    requires Abs(m as real - x) == 0.5 ==> m % 2 == 0
    ensures m == RoundHalfEven(x)
  {
  }

  /** Rounding an integer gives it back. */
  lemma RoundOfInt(k: int)
    ensures RoundHalfEven(k as real) == k
  {
  }

  /** The wheel's zoom step: 0.9 for a negative delta, 1.1 otherwise, a zero
      delta included. */
  function WheelStep(delta: int): (k: real)
    ensures k == ZoomOutStep <==> delta < 0
    ensures k == ZoomInStep <==> delta >= 0
  {
    if delta < 0 then ZoomOutStep else ZoomInStep
  }

  /** The domain of the scroll shift: Python divides by the old canvas width
      only when the width changed. */
  predicate ShiftDefined(widthBefore: int, widthAfter: int) {
    widthBefore != widthAfter ==> widthBefore != 0
  }

  /** How far one scroll bar moves when the canvas width changes from
      `widthBefore` to `widthAfter` and the pointer is at `p` on that axis;
      no move when the width did not change. The shifted coordinate is the
      scaled coordinate rounded half to even (see RoundUnique). */
  function ScrollShift(p: int, widthBefore: int, widthAfter: int): (shift: int)
    requires ShiftDefined(widthBefore, widthAfter)
    ensures widthBefore == widthAfter ==> shift == 0
    ensures widthBefore != widthAfter ==>
      Abs((p + shift) as real - p as real * (widthAfter as real / widthBefore as real)) <= 0.5
    ensures widthBefore != widthAfter &&
      Abs((p + shift) as real - p as real * (widthAfter as real / widthBefore as real)) == 0.5
      ==> (p + shift) % 2 == 0
  {
    if widthBefore == widthAfter then 0
    else RoundHalfEven(p as real * (widthAfter as real / widthBefore as real)) - p
  }

  /** A tie: a pointer at 1 on a canvas halving from width 2 to 1 scales to
      0.5, which rounds to the even 0, so the scroll bar moves by -1. */
  lemma ScrollShiftTie()
    ensures ScrollShift(1, 2, 1) == -1
  {
    RoundUnique(0.5, 0);
  }

  /** Where content appears on screen: its canvas coordinate less the scroll value. */
  function ScreenPosition(canvasCoordinate: real, scroll: int): real {
    canvasCoordinate - scroll as real
  }

  /** Zooming around the pointer: the content under the pointer at canvas
      coordinate p moves to p * widthAfter / widthBefore; after the scroll bar
      moves by the shift it is on screen within half a pixel of where it was. */
  lemma PointerStaysPut(p: int, scroll: int, widthBefore: int, widthAfter: int)
    requires widthBefore != 0
    ensures Abs(ScreenPosition(p as real * (widthAfter as real / widthBefore as real),
                               scroll + ScrollShift(p, widthBefore, widthAfter))
                - ScreenPosition(p as real, scroll)) <= 0.5
  {
  }

  /** Skipping the shift when the width is unchanged loses nothing: the
      rounding formula would give a shift of zero there too. */
  lemma UnchangedWidthFormulaIsZero(p: int, width: int)
    requires width != 0
    ensures RoundHalfEven(p as real * (width as real / width as real)) - p == 0
  {
    assert width as real / width as real == 1.0;
    RoundOfInt(p);
  }
}
