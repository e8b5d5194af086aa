// The compositing half of `RView::Update` (src/RView.cc 265-450): every
// viewport's colour buffer is filled pixel by pixel from the resampled target
// and source rasters under the current view mode, then the segmentation labels
// and the contour selection are painted over it, all in place.
//
// A colour buffer is an `array2` indexed by row and column; the source walks the
// same `width * height` pixels with one pointer, row after row. Rasters are the
// grey values of one viewport as a sequence of rows. Lookup tables are functions from grey value to
// colour. The colour channels are 8-bit: `int(x)` truncates toward zero and
// storing the `int` keeps its low eight bits.
module Compositor {
  import opened Types

  /** C++ `int(x)` of a `double`: truncation toward zero. */
  function Trunc(x: real): (n: int)
    ensures 0.0 <= x ==> n as real <= x < n as real + 1.0
    ensures x < 0.0 ==> n as real - 1.0 < x <= n as real
  {
    if x >= 0.0 then x.Floor else -((-x).Floor)
  }

  /** The value an 8-bit colour channel holds after `channel = int(x)`. */
  function Channel(x: real): (c: int)
    ensures 0 <= c < 256
    ensures 0.0 <= x < 256.0 ==> c == Trunc(x)
  {
    Trunc(x) % 256
  }

  predicate IsByte(n: int)
  {
    0 <= n < 256
  }

  /** All three colour channels hold 8-bit values. */
  predicate InRange(c: Color)
  {
    IsByte(c.r) && IsByte(c.g) && IsByte(c.b)
  }

  /**
   * The weighted sum `wa * ca + wb * cb` channel by channel, written into the
   * pixel `prev`: only `r`, `g` and `b` are assigned, so `prev`'s alpha stays.
   */
  function Mix(prev: Color, wa: real, ca: Color, wb: real, cb: Color): (c: Color)
    ensures c.a == prev.a && InRange(c)
  {
    Color(
      Channel(wa * ca.r as real + wb * cb.r as real),
      Channel(wa * ca.g as real + wb * cb.g as real),
      Channel(wa * ca.b as real + wb * cb.b as real),
      prev.a)
  }

  /**
   * The base colour of pixel `(i, j)` of a `w` by `h` viewport whose first and
   * second rasters hold `t` and `s` there, as the blending table of the view
   * modes gives it; `prev` is what the buffer held before.
   */
  function BasePixel(mode: ViewMode, mix: real, w: nat, h: nat, i: nat, j: nat, t: int, s: int,
                     lut1: int -> Color, lut2: int -> Color, sub: int -> Color, empty: Color,
                     prev: Color): Color
  {
    match mode
    case ViewA => lut1(t)
    case ViewB => lut2(s)
    case VShutter => if (i as real) < mix * (w as real) then lut1(t) else lut2(s)
    case HShutter => if (j as real) < mix * (h as real) then lut1(t) else lut2(s)
    case Subtraction => if t >= 0 && s >= 0 then sub(t - s) else empty
    case Checkerboard => Mix(prev, mix, lut1(t), 1.0 - mix, lut2(s))
    case AoverB => Mix(prev, lut1(t).a, lut1(t), 1.0 - lut1(t).a, lut2(s))
    case BoverA => Mix(prev, 1.0 - lut2(s).a, lut1(t), lut2(s).a, lut2(s))
  }

  /**
   * `BasePixel` on a viewport: a source viewport swaps the rasters and the
   * lookup tables before blending, so that it shows the source first.
   */
  function ViewportPixel(source: bool, mode: ViewMode, mix: real, w: nat, h: nat, i: nat, j: nat,
                         t: int, s: int, targetLut: int -> Color, sourceLut: int -> Color,
                         sub: int -> Color, empty: Color, prev: Color): Color
  {
    if source then BasePixel(mode, mix, w, h, i, j, s, t, sourceLut, targetLut, sub, empty, prev)
    else BasePixel(mode, mix, w, h, i, j, t, s, targetLut, sourceLut, sub, empty, prev)
  }

  /** One entry of the segment table: whether the label is shown, its opacity and colour. */
  datatype Segment = Segment(visible: bool, trans: real, color: Color)

  /** The segmentation overlay of one pixel of colour `c` labelled `labelId`. */
  function LabelPixel(c: Color, labelId: int, segments: int -> Segment): (r: Color)
    ensures !(labelId >= 0 && segments(labelId).visible) ==> r == c
    ensures r.a == c.a
  {
    if labelId >= 0 && segments(labelId).visible then
      var e := segments(labelId);
      Mix(c, 1.0 - e.trans, c, e.trans, e.color)
    else c
  }

  /** The selection tint of one pixel of colour `c` whose selection raster value is `sel`. */
  function TintPixel(c: Color, sel: int): (r: Color)
    ensures sel <= 0 ==> r == c
    ensures r.a == c.a
  {
    if sel > 0 then
      Color(Channel(0.5 * c.r as real + 0.5 * 255.0), Channel(0.5 * c.g as real + 0.5 * 255.0),
            Channel(0.5 * c.b as real), c.a)
    else c
  }

  // ---------------------------------------------------------------------------
  // The loops of one viewport.

  /** `r` holds `h` rows of `w` grey values. */
  predicate IsRaster(r: seq<seq<int>>, w: nat, h: nat)
  {
    |r| == h && forall j :: 0 <= j < h ==> |r[j]| == w
  }

  /**
   * The `switch (_viewMode)` of `Update` on one pixel: the colour written at
   * pixel `(i, j)` over the colour `prev` the buffer held there.
   */
  method Blend(mode: ViewMode, mix: real, w: nat, h: nat, i: nat, j: nat, t: int, s: int,
               lut1: int -> Color, lut2: int -> Color, sub: int -> Color, empty: Color, prev: Color)
    returns (c: Color)
    ensures c == BasePixel(mode, mix, w, h, i, j, t, s, lut1, lut2, sub, empty, prev)
  {
    match mode {
      case ViewA =>
        c := lut1(t);
      case ViewB =>
        c := lut2(s);
      case VShutter =>
        if (i as real) < mix * (w as real) {
          c := lut1(t);
        } else {
          c := lut2(s);
        }
      case HShutter =>
        if (j as real) < mix * (h as real) {
          c := lut1(t);
        } else {
          c := lut2(s);
        }
      case Subtraction =>
        if t >= 0 && s >= 0 {
          c := sub(t - s);
        } else {
          c := empty;
        }
      case Checkerboard =>
        var blendA := mix;
        var blendB := 1.0 - blendA;
        c := Mix(prev, blendA, lut1(t), blendB, lut2(s));
      case AoverB =>
        var a := lut1(t).a;
        c := Mix(prev, a, lut1(t), 1.0 - a, lut2(s));
      case BoverA =>
        var a := lut2(s).a;
        c := Mix(prev, 1.0 - a, lut1(t), a, lut2(s));
    }
  }

  /**
   * The blending loops of `Update` for one viewport whose rasters and lookup
   * tables are already swapped: pixel by pixel, row by row.
   */
  method Composite(d: array2<Color>, mode: ViewMode, mix: real,
                   r1: seq<seq<int>>, r2: seq<seq<int>>, lut1: int -> Color, lut2: int -> Color,
                   sub: int -> Color, empty: Color)
    requires IsRaster(r1, d.Length1, d.Length0) && IsRaster(r2, d.Length1, d.Length0)
    modifies d
    ensures forall j, i :: 0 <= j < d.Length0 && 0 <= i < d.Length1 ==>
      d[j, i] == BasePixel(mode, mix, d.Length1, d.Length0, i, j, r1[j][i], r2[j][i],
                           lut1, lut2, sub, empty, old(d[j, i]))
  {
    var w, h := d.Length1, d.Length0;
    var j := 0;
    while j < h
      invariant j <= h
      invariant forall y, x :: 0 <= y < j && 0 <= x < w ==>
        d[y, x] == BasePixel(mode, mix, w, h, x, y, r1[y][x], r2[y][x], lut1, lut2, sub, empty, old(d[y, x]))
      invariant forall y, x :: j <= y < h && 0 <= x < w ==> d[y, x] == old(d[y, x])
    {
      var i := 0;
      while i < w
        invariant i <= w
        invariant forall y, x :: 0 <= y < j && 0 <= x < w ==>
          d[y, x] == BasePixel(mode, mix, w, h, x, y, r1[y][x], r2[y][x], lut1, lut2, sub, empty, old(d[y, x]))
        invariant forall x :: 0 <= x < i ==>
          d[j, x] == BasePixel(mode, mix, w, h, x, j, r1[j][x], r2[j][x], lut1, lut2, sub, empty, old(d[j, x]))
        invariant forall y, x :: j <= y < h && 0 <= x < w && (y > j || x >= i) ==> d[y, x] == old(d[y, x])
      {
        d[j, i] := Blend(mode, mix, w, h, i, j, r1[j][i], r2[j][i], lut1, lut2, sub, empty, d[j, i]);
        i := i + 1;
      }
      j := j + 1;
    }
  }

  /** The segmentation overlay loops: the buffer and the label raster advance together. */
  method OverlayLabels(d: array2<Color>, labels: seq<seq<int>>, segments: int -> Segment)
    requires IsRaster(labels, d.Length1, d.Length0)
    modifies d
    ensures forall j, i :: 0 <= j < d.Length0 && 0 <= i < d.Length1 ==>
      d[j, i] == LabelPixel(old(d[j, i]), labels[j][i], segments)
  {
    var w, h := d.Length1, d.Length0;
    var j := 0;
    while j < h
      invariant j <= h
      invariant forall y, x :: 0 <= y < j && 0 <= x < w ==> d[y, x] == LabelPixel(old(d[y, x]), labels[y][x], segments)
      invariant forall y, x :: j <= y < h && 0 <= x < w ==> d[y, x] == old(d[y, x])
    {
      var i := 0;
      while i < w
        invariant i <= w
        invariant forall y, x :: 0 <= y < j && 0 <= x < w ==> d[y, x] == LabelPixel(old(d[y, x]), labels[y][x], segments)
        invariant forall x :: 0 <= x < i ==> d[j, x] == LabelPixel(old(d[j, x]), labels[j][x], segments)
        invariant forall y, x :: j <= y < h && 0 <= x < w && (y > j || x >= i) ==> d[y, x] == old(d[y, x])
      {
        var labelId := labels[j][i];
        if labelId >= 0 {
          if segments(labelId).visible {
            var a := segments(labelId).trans;
            d[j, i] := Mix(d[j, i], 1.0 - a, d[j, i], a, segments(labelId).color);
          }
        }
        i := i + 1;
      }
      j := j + 1;
    }
  }

  /** The three channel assignments of the selection tint on one pixel. */
  method Highlight(c: Color) returns (r: Color)
    ensures r == TintPixel(c, 1)
  {
    r := c;
    r := r.(r := Channel(0.5 * c.r as real + 0.5 * 255.0));
    r := r.(g := Channel(0.5 * c.g as real + 0.5 * 255.0));
    r := r.(b := Channel(0.5 * c.b as real));
  }

  /** The selection tint loops: the buffer and the selection raster advance together. */
  method TintSelection(d: array2<Color>, selection: seq<seq<int>>)
    requires IsRaster(selection, d.Length1, d.Length0)
    modifies d
    ensures forall j, i :: 0 <= j < d.Length0 && 0 <= i < d.Length1 ==>
      d[j, i] == TintPixel(old(d[j, i]), selection[j][i])
  {
    var w, h := d.Length1, d.Length0;
    var j := 0;
    while j < h
      invariant j <= h
      invariant forall y, x :: 0 <= y < j && 0 <= x < w ==> d[y, x] == TintPixel(old(d[y, x]), selection[y][x])
      invariant forall y, x :: j <= y < h && 0 <= x < w ==> d[y, x] == old(d[y, x])
    {
      var i := 0;
      while i < w
        invariant i <= w
        invariant forall y, x :: 0 <= y < j && 0 <= x < w ==> d[y, x] == TintPixel(old(d[y, x]), selection[y][x])
        invariant forall x :: 0 <= x < i ==> d[j, x] == TintPixel(old(d[j, x]), selection[j][x])
        invariant forall y, x :: j <= y < h && 0 <= x < w && (y > j || x >= i) ==> d[y, x] == old(d[y, x])
      {
        if selection[j][i] > 0 {
          d[j, i] := Highlight(d[j, i]);
        }
        i := i + 1;
      }
      j := j + 1;
    }
  }

  // ---------------------------------------------------------------------------
  // One viewport, from rasters to colours.

  /** The resampled rasters of one viewport. */
  datatype Rasters = Rasters(target: seq<seq<int>>, source: seq<seq<int>>,
                             segmentation: seq<seq<int>>, selection: seq<seq<int>>)

  /** Everything besides the rasters that the colours of a viewport depend on. */
  datatype Scene = Scene(
    mode: ViewMode, mix: real,
    targetLut: int -> Color, sourceLut: int -> Color, subtractionLut: int -> Color, empty: Color,
    showLabels: bool, segments: int -> Segment, contourSize: nat)

  /** All four rasters of a viewport hold `h` rows of `w` values. */
  predicate RastersFit(r: Rasters, w: nat, h: nat)
  {
    IsRaster(r.target, w, h) && IsRaster(r.source, w, h)
    && IsRaster(r.segmentation, w, h) && IsRaster(r.selection, w, h)
  }

  /** The colour pixel `(i, j)` of a `w` by `h` viewport ends up with, starting from `prev`. */
  function ShownPixel(sc: Scene, source: bool, w: nat, h: nat, r: Rasters, i: nat, j: nat, prev: Color): Color
    requires RastersFit(r, w, h) && i < w && j < h
  {
    var base := ViewportPixel(source, sc.mode, sc.mix, w, h, i, j, r.target[j][i], r.source[j][i],
                              sc.targetLut, sc.sourceLut, sc.subtractionLut, sc.empty, prev);
    var labelled := if sc.showLabels then LabelPixel(base, r.segmentation[j][i], sc.segments) else base;
    if sc.contourSize > 0 then TintPixel(labelled, r.selection[j][i]) else labelled
  }

  /**
   * The body of `Update`'s per-viewport loop: swap on source viewports, blend,
   * then the label overlay when labels are displayed and the selection tint
   * while a contour is being drawn.
   */
  method ComposeViewport(d: array2<Color>, source: bool, sc: Scene, r: Rasters)
    requires RastersFit(r, d.Length1, d.Length0)
    modifies d
    ensures forall j, i :: 0 <= j < d.Length0 && 0 <= i < d.Length1 ==>
      d[j, i] == ShownPixel(sc, source, d.Length1, d.Length0, r, i, j, old(d[j, i]))
  {
    var r1, r2 := r.target, r.source;
    var lut1, lut2 := sc.targetLut, sc.sourceLut;
    if source {
      r1, r2 := r2, r1;
      lut1, lut2 := lut2, lut1;
    }
    Composite(d, sc.mode, sc.mix, r1, r2, lut1, lut2, sc.subtractionLut, sc.empty);
    if sc.showLabels {
      OverlayLabels(d, r.segmentation, sc.segments);
    }
    if sc.contourSize > 0 {
      TintSelection(d, r.selection);
    }
  }

  // ---------------------------------------------------------------------------
  // What the view modes show.

  /** The smallest natural number at or above `x`. */
  function Ceiling(x: real): (n: nat)
    ensures x <= n as real
    ensures n > 0 ==> (n - 1) as real < x
  {
    if x <= 0.0 then 0 else -((-x).Floor)
  }

  function Min(a: int, b: int): int
  {
    if a <= b then a else b
  }

  /**
   * The vertical shutter at `mix` shows the first image in the columns left
   * of `Ceiling(mix * w)` and the second image in the others; the horizontal
   * shutter does the same with the rows and `Ceiling(mix * h)`.
   */
  lemma ShutterSplit(mix: real, w: nat, h: nat, i: nat, j: nat, t: int, s: int,
                     lut1: int -> Color, lut2: int -> Color, sub: int -> Color, empty: Color, prev: Color)
    ensures BasePixel(VShutter, mix, w, h, i, j, t, s, lut1, lut2, sub, empty, prev)
            == if i < Ceiling(mix * w as real) then lut1(t) else lut2(s)
    ensures BasePixel(HShutter, mix, w, h, i, j, t, s, lut1, lut2, sub, empty, prev)
            == if j < Ceiling(mix * h as real) then lut1(t) else lut2(s)
  {
  }

  /** How many of the columns `0 .. n - 1` lie left of a shutter edge at `x`. */
  function ColumnsLeftOf(x: real, n: nat): nat
  {
    if n == 0 then 0
    else ColumnsLeftOf(x, n - 1) + if ((n - 1) as real) < x then 1 else 0
  }

  /**
   * A row of `w` pixels under the vertical shutter shows the first image in
   * `Min(w, Ceiling(mix * w))` of its pixels: none for `mix <= 0`, all for
   * `mix >= 1`.
   */
  lemma {:induction false} ColumnsLeftOfCount(x: real, n: nat)
    ensures ColumnsLeftOf(x, n) == Min(n, Ceiling(x))
  {
    if n > 0 {
      ColumnsLeftOfCount(x, n - 1);
      assert ((n - 1) as real) < x <==> n - 1 < Ceiling(x);
    }
  }

  /** A source viewport shows the source where a target viewport shows the target, and back. */
  lemma SourceViewportSwaps(w: nat, h: nat, i: nat, j: nat, mix: real, t: int, s: int,
                            targetLut: int -> Color, sourceLut: int -> Color, sub: int -> Color,
                            empty: Color, prev: Color)
    ensures ViewportPixel(true, ViewA, mix, w, h, i, j, t, s, targetLut, sourceLut, sub, empty, prev) == sourceLut(s)
    ensures ViewportPixel(true, ViewB, mix, w, h, i, j, t, s, targetLut, sourceLut, sub, empty, prev) == targetLut(t)
    ensures ViewportPixel(true, Subtraction, mix, w, h, i, j, t, s, targetLut, sourceLut, sub, empty, prev)
            == if t >= 0 && s >= 0 then sub(s - t) else empty
  {
  }

  /**
   * On a source viewport the checkerboard at `mix` is the target viewport's
   * checkerboard at `1 - mix`, and A over B is the target viewport's B over A.
   */
  lemma SourceViewportBlends(w: nat, h: nat, i: nat, j: nat, mix: real, t: int, s: int,
                             targetLut: int -> Color, sourceLut: int -> Color, sub: int -> Color,
                             empty: Color, prev: Color)
    ensures ViewportPixel(true, Checkerboard, mix, w, h, i, j, t, s, targetLut, sourceLut, sub, empty, prev)
            == ViewportPixel(false, Checkerboard, 1.0 - mix, w, h, i, j, t, s, targetLut, sourceLut, sub, empty, prev)
    ensures ViewportPixel(true, AoverB, mix, w, h, i, j, t, s, targetLut, sourceLut, sub, empty, prev)
            == ViewportPixel(false, BoverA, mix, w, h, i, j, t, s, targetLut, sourceLut, sub, empty, prev)
  {
    var a, b := targetLut(t), sourceLut(s);
    assert mix * b.r as real + (1.0 - mix) * a.r as real == (1.0 - mix) * a.r as real + (1.0 - (1.0 - mix)) * b.r as real;
    assert mix * b.g as real + (1.0 - mix) * a.g as real == (1.0 - mix) * a.g as real + (1.0 - (1.0 - mix)) * b.g as real;
    assert mix * b.b as real + (1.0 - mix) * a.b as real == (1.0 - mix) * a.b as real + (1.0 - (1.0 - mix)) * b.b as real;
  }

  /** `c` and `d` agree in their colour channels. */
  predicate SameRgb(c: Color, d: Color)
  {
    c.r == d.r && c.g == d.g && c.b == d.b
  }

  /** A blend that gives all the weight to one colour reproduces that colour's channels. */
  lemma MixAllWeight(prev: Color, ca: Color, cb: Color)
    requires InRange(ca) && InRange(cb)
    ensures SameRgb(Mix(prev, 1.0, ca, 0.0, cb), ca)
    ensures SameRgb(Mix(prev, 0.0, ca, 1.0, cb), cb)
  {
  }

  /**
   * The end points of the blending modes: the checkerboard at mix 1 (0) shows
   * the first (second) image's colour; A over B with an opaque first colour
   * shows it, with a transparent one the second; B over A likewise with the
   * second colour's alpha. Every blend keeps the alpha the buffer held.
   */
  lemma BlendEnds(w: nat, h: nat, i: nat, j: nat, mix: real, t: int, s: int,
                  lut1: int -> Color, lut2: int -> Color, sub: int -> Color, empty: Color, prev: Color)
    requires InRange(lut1(t)) && InRange(lut2(s))
    ensures mix == 1.0 ==> SameRgb(BasePixel(Checkerboard, mix, w, h, i, j, t, s, lut1, lut2, sub, empty, prev), lut1(t))
    ensures mix == 0.0 ==> SameRgb(BasePixel(Checkerboard, mix, w, h, i, j, t, s, lut1, lut2, sub, empty, prev), lut2(s))
    ensures lut1(t).a == 1.0 ==> SameRgb(BasePixel(AoverB, mix, w, h, i, j, t, s, lut1, lut2, sub, empty, prev), lut1(t))
    ensures lut1(t).a == 0.0 ==> SameRgb(BasePixel(AoverB, mix, w, h, i, j, t, s, lut1, lut2, sub, empty, prev), lut2(s))
    ensures lut2(s).a == 1.0 ==> SameRgb(BasePixel(BoverA, mix, w, h, i, j, t, s, lut1, lut2, sub, empty, prev), lut2(s))
    ensures lut2(s).a == 0.0 ==> SameRgb(BasePixel(BoverA, mix, w, h, i, j, t, s, lut1, lut2, sub, empty, prev), lut1(t))
    ensures forall m | m in {Checkerboard, AoverB, BoverA} ::
      BasePixel(m, mix, w, h, i, j, t, s, lut1, lut2, sub, empty, prev).a == prev.a
  {
    MixAllWeight(prev, lut1(t), lut2(s));
  }

  /**
   * A visible label of opacity 1 paints its own colour over the pixel, and one
   * of opacity 0 leaves the pixel as it was.
   */
  lemma LabelOpacity(c: Color, labelId: int, segments: int -> Segment)
    requires labelId >= 0 && segments(labelId).visible
    requires InRange(c) && InRange(segments(labelId).color)
    ensures segments(labelId).trans == 1.0 ==> SameRgb(LabelPixel(c, labelId, segments), segments(labelId).color)
    ensures segments(labelId).trans == 0.0 ==> LabelPixel(c, labelId, segments) == c
  {
    MixAllWeight(c, c, segments(labelId).color);
  }

  /** Halving towards 255: the selection tint in integer terms. */
  lemma TintHalves(c: Color, sel: int)
    requires sel > 0 && InRange(c)
    ensures TintPixel(c, sel) == Color((c.r + 255) / 2, (c.g + 255) / 2, c.b / 2, c.a)
  {
    HalfFloor(c.r + 255);
    HalfFloor(c.g + 255);
    HalfFloor(c.b);
    assert 0.5 * c.r as real + 0.5 * 255.0 == 0.5 * (c.r + 255) as real;
    assert 0.5 * c.g as real + 0.5 * 255.0 == 0.5 * (c.g + 255) as real;
  }

  lemma HalfFloor(n: nat)
    ensures Trunc(0.5 * n as real) == n / 2
  {
    var q := n / 2;
    assert n == 2 * q || n == 2 * q + 1;
    assert q as real <= 0.5 * n as real < q as real + 1.0;
  }
}
