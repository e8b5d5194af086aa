// The `RView` object of src/RView.cc: the per-viewer grids, resampled rasters
// and colour buffers, the origin, the region of interest, the contour being
// drawn, and the four dirty flags that every mutator sets and `Update`
// consumes. The image library, the resampling filters, the contour editor and
// the viewers' own sizing are foreign and enter as parameters.
module RViewModel {
  import opened Types
  import opened Screen
  import Compositor
  import Orientation
  import Layout
  import Controls
  import opened Regions

  /** The output grid of one viewer: its size, the origin it is centred on and its slice geometry. */
  datatype Grid = Grid(width: nat, height: nat, origin: Point, slice: Layout.Slice)

  /** What the model sees of an image: its size and voxel spacing. */
  datatype Volume = Volume(x: nat, y: nat, z: nat, t: nat, voxel: Layout.VoxelSize)
  {
    predicate IsEmpty()
    {
      x == 0 || y == 0 || z == 0 || t == 0
    }

    function Voxels(): nat
    {
      x * y * z * t
    }
  }

  /**
   * The coordinate conversions of the image library: between a viewer's
   * output grid and world space, and between the target image's voxel
   * coordinates and world space.
   */
  datatype Maps = Maps(
    gridToWorld: (Grid, Point) -> Point,
    worldToGrid: (Grid, Point) -> Point,
    targetToWorld: Point -> Point,
    worldToTarget: Point -> Point)

  /** Converting a voxel of the target to world space and back gives the voxel again. */
  ghost predicate TargetRoundTrip(m: Maps)
  {
    forall p :: m.worldToTarget(m.targetToWorld(p)) == p
  }

  function RoundPoint(p: Point): Point
  {
    Point(Round(p.x) as real, Round(p.y) as real, Round(p.z) as real)
  }

  /** The world position of the target voxel nearest to `p`. */
  function Snapped(m: Maps, p: Point): (q: Point)
    ensures TargetRoundTrip(m) ==> m.worldToTarget(q) == RoundPoint(m.worldToTarget(p))
  {
    m.targetToWorld(RoundPoint(m.worldToTarget(p)))
  }

  /** Snapping twice is snapping once, when voxel coordinates survive the round trip. */
  lemma SnapIdempotent(m: Maps, p: Point)
    requires TargetRoundTrip(m)
    ensures Snapped(m, Snapped(m, p)) == Snapped(m, p)
  {
    var v := RoundPoint(m.worldToTarget(p));
    RoundWhole(Round(m.worldToTarget(p).x));
    RoundWhole(Round(m.worldToTarget(p).y));
    RoundWhole(Round(m.worldToTarget(p).z));
    assert RoundPoint(v) == v;
  }

  /** The contour being drawn: its point count and its raster, flattened. */
  datatype Contour = Contour(size: nat, raster: seq<int>)

  /**
   * The contour editor's operations (`VoxelContour`), whose internals are
   * not part of this model: each yields the contour after the operation.
   */
  datatype Editor = Editor(
    initialise: (Contour, Grid) -> Contour,
    addPointSet: (Contour, Point, int) -> Contour,
    addPoint: (Contour, Point, int) -> Contour,
    close: (Contour, Point, int) -> Contour,
    fillArea: (Contour, Point) -> Contour,
    regionGrow: (Contour, Point, int, int, RegionGrowingMode) -> Contour,
    undo: Contour -> Contour,
    clear: Contour -> Contour)

  /** The four resampling filters of a viewer. */
  datatype Role = TargetRole | SourceRole | SegmentationRole | SelectionRole

  /** The lookup tables and the segment table the compositor reads. */
  datatype Palette = Palette(
    targetLut: int -> Color, sourceLut: int -> Color, subtractionLut: int -> Color,
    empty: Color, segments: int -> Compositor.Segment)

  /** The displacement cache of the source transformation. */
  datatype Cache = NoCache | Cached(onTargetGrid: bool, modified: bool)

  /** What `Initialize` learns from the source image and transformation. */
  datatype CacheQuery = CacheQuery(haveSource: bool, haveTransform: bool, requiresCaching: bool, haveTarget: bool)

  /** The pixel size a viewer gets on a screen of the given size (`Viewer::SetScreen`). */
  datatype Size = Size(width: nat, height: nat)

  // ---------------------------------------------------------------------------
  // The viewport loops, as instances of `Screen.Scan`.

  function PointOf(p: Point): Point
  {
    p
  }

  /** A point of viewer `k`'s own pixels, in world space. */
  function ViewerToWorld(vs: seq<Viewer>, gs: seq<Grid>, m: Maps, k: nat, p: Point): Point
    requires k < |vs| && k < |gs| && Proper(vs[k].viewport)
  {
    m.gridToWorld(gs[k], ToLocal(vs[k].viewport, p.x, p.y, vs[k].width, vs[k].height))
  }

  /** `SetOrigin`'s conversion: the probe becomes the world point under it. */
  function OriginStep(vs: seq<Viewer>, gs: seq<Grid>, m: Maps): (nat, Point) --> Point
  {
    (k: nat, p: Point) requires k < |vs| && k < |gs| && Proper(vs[k].viewport) => ViewerToWorld(vs, gs, m, k, p)
  }

  /** `MouseWheel`'s conversion: the viewer's origin, moved `wheel` slices along its normal. */
  function WheelStep(gs: seq<Grid>, m: Maps, wheel: int): (nat, Point) --> Point
  {
    (k: nat, p: Point) requires k < |gs| =>
      var o := m.worldToGrid(gs[k], gs[k].origin);
      m.gridToWorld(gs[k], o.(z := o.z + wheel as real))
  }

  /** The state of `MousePosition`'s loop: the probe and the last viewer hit. */
  datatype Pointer = Pointer(point: Point, viewer: int)

  function PointerAt(s: Pointer): Point
  {
    s.point
  }

  function PointerStep(vs: seq<Viewer>, gs: seq<Grid>, m: Maps): (nat, Pointer) --> Pointer
  {
    (k: nat, s: Pointer) requires k < |vs| && k < |gs| && Proper(vs[k].viewport) =>
      Pointer(ViewerToWorld(vs, gs, m, k, s.point), k)
  }

  /**
   * The state of the region-of-interest loops: the probe tested against the
   * next viewport, the corner being edited (world space) and the other corner
   * as the loop last left it.
   */
  datatype Corners = Corners(probe: Point, corner: Point, other: Point)

  function ProbeOf(s: Corners): Point
  {
    s.probe
  }

  /**
   * The corner a click at `click` (normalised) in viewer `k` points at, in
   * target voxels: the click in the viewer's pixels, at the depth the current
   * corner has in the viewer's grid.
   */
  function ClickedVoxel(vs: seq<Viewer>, gs: seq<Grid>, m: Maps, click: Point, k: nat, corner: Point): Point
    requires k < |vs| && k < |gs| && Proper(vs[k].viewport)
  {
    var depth := m.worldToGrid(gs[k], corner).z;
    var local := ToLocal(vs[k].viewport, click.x, click.y, vs[k].width, vs[k].height);
    m.worldToTarget(m.gridToWorld(gs[k], Point(local.x, local.y, depth)))
  }

  /** The first corner clamped against the second, axis by axis, in voxels. */
  function FirstCorner(c: Point, other: Point): Point
  {
    Point(ClampFirst(c.x, other.x), ClampFirst(c.y, other.y), ClampFirst(c.z, other.z))
  }

  /** The second corner clamped against the image and the first corner, axis by axis, in voxels. */
  function SecondCorner(c: Point, other: Point, target: Volume): Point
  {
    Point(ClampSecond(c.x, other.x, target.x), ClampSecond(c.y, other.y, target.y),
          ClampSecond(c.z, other.z, target.z))
  }

  /**
   * `UpdateROI1`'s conversion. The other corner is converted from world to
   * voxels on every hit, also when an earlier hit already converted it.
   */
  function FirstCornerStep(vs: seq<Viewer>, gs: seq<Grid>, m: Maps, click: Point): (nat, Corners) --> Corners
  {
    (k: nat, s: Corners) requires k < |vs| && k < |gs| && Proper(vs[k].viewport) =>
      var o := m.worldToTarget(s.other);
      var c := m.targetToWorld(FirstCorner(ClickedVoxel(vs, gs, m, click, k, s.corner), o));
      Corners(c, c, o)
  }

  /** `UpdateROI2`'s conversion, likewise. */
  function SecondCornerStep(vs: seq<Viewer>, gs: seq<Grid>, m: Maps, click: Point, target: Volume)
    : (nat, Corners) --> Corners
  {
    (k: nat, s: Corners) requires k < |vs| && k < |gs| && Proper(vs[k].viewport) =>
      var o := m.worldToTarget(s.other);
      var c := m.targetToWorld(SecondCorner(ClickedVoxel(vs, gs, m, click, k, s.corner), o, target));
      Corners(c, c, o)
  }

  // ---------------------------------------------------------------------------
  // Pure descriptions of what the methods compute.

  /** Viewer `l`'s rasters after `Update`'s filter loop. */
  function Refreshed(r: Compositor.Rasters, l: nat, run: (Role, nat) -> seq<seq<int>>,
                     target: bool, source: bool, segmentation: bool, selection: bool): Compositor.Rasters
  {
    Compositor.Rasters(
      if target then run(TargetRole, l) else r.target,
      if source then run(SourceRole, l) else r.source,
      if segmentation then run(SegmentationRole, l) else r.segmentation,
      if selection then run(SelectionRole, l) else r.selection)
  }

  /** Every viewer's rasters after `Update`'s filter loop. */
  function RefreshAll(outs: seq<Compositor.Rasters>, run: (Role, nat) -> seq<seq<int>>,
                      target: bool, source: bool, segmentation: bool, selection: bool): (rs: seq<Compositor.Rasters>)
    ensures |rs| == |outs|
    ensures forall l :: 0 <= l < |outs| ==> rs[l] == Refreshed(outs[l], l, run, target, source, segmentation, selection)
  {
    seq(|outs|, l requires 0 <= l < |outs| => Refreshed(outs[l], l, run, target, source, segmentation, selection))
  }

  /** The grid `Initialize` gives a viewer. */
  function GridFor(v: Viewer, origin: Point, axes: Orientation.Axes, resolution: real, voxel: Layout.VoxelSize): Grid
    requires resolution != 0.0
  {
    Grid(v.width, v.height, origin, Layout.SliceOf(v.mode, axes, resolution, voxel))
  }

  /** A `w` by `h` raster of zeros. */
  function Blank(w: nat, h: nat): (r: seq<seq<int>>)
    ensures Compositor.IsRaster(r, w, h)
  {
    seq(h, _ => seq(w, _ => 0))
  }

  function BlankRasters(v: Viewer): (r: Compositor.Rasters)
    ensures Compositor.RastersFit(r, v.width, v.height)
  {
    var b := Blank(v.width, v.height);
    Compositor.Rasters(b, b, b, b)
  }

  /** The new state of the displacement cache. */
  function NextCache(c: Cache, step: Layout.CacheStep): Cache
  {
    match step
    case Untouched => c
    case Rebuild(fromTarget) => Cached(fromTarget, true)
    case Cleared => NoCache
  }

  /** The viewer a contour-opening click picks: the last one under it, else the old one. */
  function PickedViewer(vs: seq<Viewer>, x: real, y: real, old_: int): int
  {
    match LastHit(vs, x, y)
    case Some(k) => k
    case None => old_
  }

  function PickedMode(vs: seq<Viewer>, x: real, y: real, old_: ViewerMode): ViewerMode
  {
    match LastHit(vs, x, y)
    case Some(k) => vs[k].mode
    case None => old_
  }

  /** A point added to the contour as `mode` says; the last point closes it only outside segmentation mode. */
  function AddPointTo(e: Editor, c: Contour, mode: ContourMode, p: Point, brush: int, segmentationMode: int): Contour
  {
    match mode
    case FirstPoint => e.addPointSet(c, p, brush)
    case NewPoint => e.addPoint(c, p, brush)
    case LastPoint => if segmentationMode == 0 then e.close(c, p, brush) else e.addPoint(c, p, brush)
  }

  /** Whether raster voxel `n` (of the first `upTo`) is painted and lands on segmentation voxel `v`. */
  ghost predicate PaintedBefore(raster: seq<int>, voxelOf: nat -> int, v: int, upTo: nat)
    requires upTo <= |raster|
  {
    exists n :: 0 <= n < upTo && raster[n] > 0 && voxelOf(n) == v
  }

  ghost predicate Painted(raster: seq<int>, voxelOf: nat -> int, v: int)
  {
    PaintedBefore(raster, voxelOf, v, |raster|)
  }

  /** Regenerated rasters have the viewer's size, so the rasters of a viewer keep fitting it. */
  lemma RefreshedFits(r: Compositor.Rasters, l: nat, run: (Role, nat) -> seq<seq<int>>,
                      target: bool, source: bool, segmentation: bool, selection: bool, w: nat, h: nat)
    requires Compositor.RastersFit(r, w, h)
    requires forall role :: Compositor.IsRaster(run(role, l), w, h)
    ensures Compositor.RastersFit(Refreshed(r, l, run, target, source, segmentation, selection), w, h)
  {
    assert Compositor.IsRaster(run(TargetRole, l), w, h) && Compositor.IsRaster(run(SourceRole, l), w, h);
    assert Compositor.IsRaster(run(SegmentationRole, l), w, h) && Compositor.IsRaster(run(SelectionRole, l), w, h);
  }

  /** Every grid re-centred on `p` (`PutOrigin` on the four outputs of every viewer). */
  function Recentred(gs: seq<Grid>, p: Point): (r: seq<Grid>)
    ensures |r| == |gs|
    ensures forall k :: 0 <= k < |gs| ==> r[k].origin == p
    ensures forall k :: 0 <= k < |gs| ==> r[k].(origin := gs[k].origin) == gs[k]
  {
    seq(|gs|, k requires 0 <= k < |gs| => gs[k].(origin := p))
  }

  /** Every viewport spans an area and has a grid. */
  predicate Hittable(vs: seq<Viewer>, gs: seq<Grid>)
  {
    |gs| == |vs| && forall k :: 0 <= k < |vs| ==> Proper(vs[k].viewport)
  }

  /** The origin a click sets: the point under it in the last viewer hit, snapped to a voxel on request. */
  function ClickedOrigin(vs: seq<Viewer>, gs: seq<Grid>, m: Maps, start: Point, snap: bool): Point
    requires Hittable(vs, gs)
  {
    var p := Scan(vs, 0, start, PointOf, OriginStep(vs, gs, m));
    if snap then Snapped(m, p) else p
  }

  /** The origin a wheel turn sets, likewise. */
  function WheeledOrigin(vs: seq<Viewer>, gs: seq<Grid>, m: Maps, wheel: int, start: Point, snap: bool): Point
    requires Hittable(vs, gs)
  {
    var p := Scan(vs, 0, start, PointOf, WheelStep(gs, m, wheel));
    if snap then Snapped(m, p) else p
  }

  /** Where `MousePosition`'s loop ends. */
  function PointerScan(vs: seq<Viewer>, gs: seq<Grid>, m: Maps, start: Pointer): Pointer
    requires Hittable(vs, gs)
  {
    Scan(vs, 0, start, PointerAt, PointerStep(vs, gs, m))
  }

  /** The voxel of the target nearest to world point `p`. */
  function VoxelAt(m: Maps, p: Point): (int, int, int)
  {
    var v := m.worldToTarget(p);
    (Round(v.x), Round(v.y), Round(v.z))
  }

  predicate InVolume(v: (int, int, int), vol: Volume)
  {
    0 <= v.0 < vol.x && 0 <= v.1 < vol.y && 0 <= v.2 < vol.z
  }

  function FirstCornerScan(vs: seq<Viewer>, gs: seq<Grid>, m: Maps, click: Point, roi1: Point, roi2: Point): Corners
    requires Hittable(vs, gs)
  {
    Scan(vs, 0, Corners(click, roi1, roi2), ProbeOf, FirstCornerStep(vs, gs, m, click))
  }

  function SecondCornerScan(vs: seq<Viewer>, gs: seq<Grid>, m: Maps, click: Point, roi2: Point, roi1: Point,
                            target: Volume): Corners
    requires Hittable(vs, gs)
  {
    Scan(vs, 0, Corners(click, roi2, roi1), ProbeOf, SecondCornerStep(vs, gs, m, click, target))
  }

  // ---------------------------------------------------------------------------
  // The viewport loops themselves.

  /** `SetOrigin`'s loop: every viewer containing the probe converts it to world space. */
  method ScanOrigin(vs: seq<Viewer>, gs: seq<Grid>, m: Maps, start: Point) returns (p: Point)
    requires Hittable(vs, gs)
    ensures p == Scan(vs, 0, start, PointOf, OriginStep(vs, gs, m))
  {
    p := start;
    var k := 0;
    while k < |vs|
      invariant k <= |vs|
      invariant Scan(vs, k, p, PointOf, OriginStep(vs, gs, m)) == Scan(vs, 0, start, PointOf, OriginStep(vs, gs, m))
    {
      var v := vs[k].viewport;
      if p.x >= v.x1 && p.x < v.x2 && p.y >= v.y1 && p.y < v.y2 {
        var local := ToLocal(v, p.x, p.y, vs[k].width, vs[k].height);
        p := m.gridToWorld(gs[k], local);
      }
      k := k + 1;
    }
  }

  /** `MouseWheel`'s loop: every viewer containing the probe replaces it by its moved origin. */
  method ScanWheel(vs: seq<Viewer>, gs: seq<Grid>, m: Maps, wheel: int, start: Point) returns (p: Point)
    requires Hittable(vs, gs)
    ensures p == Scan(vs, 0, start, PointOf, WheelStep(gs, m, wheel))
  {
    p := start;
    var k := 0;
    while k < |vs|
      invariant k <= |vs|
      invariant Scan(vs, k, p, PointOf, WheelStep(gs, m, wheel)) == Scan(vs, 0, start, PointOf, WheelStep(gs, m, wheel))
    {
      var v := vs[k].viewport;
      if p.x >= v.x1 && p.x < v.x2 && p.y >= v.y1 && p.y < v.y2 {
        var o := m.worldToGrid(gs[k], gs[k].origin);
        p := m.gridToWorld(gs[k], Point(o.x, o.y, o.z + wheel as real));
      }
      k := k + 1;
    }
  }

  /** `MousePosition`'s loop: as `SetOrigin`'s, also recording the viewer. */
  method ScanPointer(vs: seq<Viewer>, gs: seq<Grid>, m: Maps, start: Pointer) returns (s: Pointer)
    requires Hittable(vs, gs)
    ensures s == PointerScan(vs, gs, m, start)
  {
    s := start;
    var k := 0;
    while k < |vs|
      invariant k <= |vs|
      invariant Scan(vs, k, s, PointerAt, PointerStep(vs, gs, m)) == PointerScan(vs, gs, m, start)
    {
      var v := vs[k].viewport;
      if s.point.x >= v.x1 && s.point.x < v.x2 && s.point.y >= v.y1 && s.point.y < v.y2 {
        var local := ToLocal(v, s.point.x, s.point.y, vs[k].width, vs[k].height);
        s := Pointer(m.gridToWorld(gs[k], local), k);
      }
      k := k + 1;
    }
  }

  /** `UpdateROI1`'s loop. */
  method ScanFirstCorner(vs: seq<Viewer>, gs: seq<Grid>, m: Maps, click: Point, roi1: Point, roi2: Point)
    returns (s: Corners)
    requires Hittable(vs, gs)
    ensures s == FirstCornerScan(vs, gs, m, click, roi1, roi2)
  {
    s := Corners(click, roi1, roi2);
    var k := 0;
    while k < |vs|
      invariant k <= |vs|
      invariant Scan(vs, k, s, ProbeOf, FirstCornerStep(vs, gs, m, click)) == FirstCornerScan(vs, gs, m, click, roi1, roi2)
    {
      var v := vs[k].viewport;
      if s.probe.x >= v.x1 && s.probe.x < v.x2 && s.probe.y >= v.y1 && s.probe.y < v.y2 {
        var depth := m.worldToGrid(gs[k], s.corner).z;
        var local := ToLocal(v, click.x, click.y, vs[k].width, vs[k].height);
        var c := m.worldToTarget(m.gridToWorld(gs[k], Point(local.x, local.y, depth)));
        var o := m.worldToTarget(s.other);
        var x := ClampFirst(c.x, o.x);
        var y := ClampFirst(c.y, o.y);
        var z := ClampFirst(c.z, o.z);
        assert c == ClickedVoxel(vs, gs, m, click, k, s.corner) && Point(x, y, z) == FirstCorner(c, o);
        var w := m.targetToWorld(Point(x, y, z));
        s := Corners(w, w, o);
      }
      k := k + 1;
    }
  }

  /** `UpdateROI2`'s loop. */
  method ScanSecondCorner(vs: seq<Viewer>, gs: seq<Grid>, m: Maps, click: Point, roi2: Point, roi1: Point,
                          target: Volume) returns (s: Corners)
    requires Hittable(vs, gs)
    ensures s == SecondCornerScan(vs, gs, m, click, roi2, roi1, target)
  {
    s := Corners(click, roi2, roi1);
    var k := 0;
    while k < |vs|
      invariant k <= |vs|
      invariant Scan(vs, k, s, ProbeOf, SecondCornerStep(vs, gs, m, click, target))
                == SecondCornerScan(vs, gs, m, click, roi2, roi1, target)
    {
      var v := vs[k].viewport;
      if s.probe.x >= v.x1 && s.probe.x < v.x2 && s.probe.y >= v.y1 && s.probe.y < v.y2 {
        var depth := m.worldToGrid(gs[k], s.corner).z;
        var local := ToLocal(v, click.x, click.y, vs[k].width, vs[k].height);
        var c := m.worldToTarget(m.gridToWorld(gs[k], Point(local.x, local.y, depth)));
        var o := m.worldToTarget(s.other);
        var x := ClampSecond(c.x, o.x, target.x);
        var y := ClampSecond(c.y, o.y, target.y);
        var z := ClampSecond(c.z, o.z, target.z);
        assert c == ClickedVoxel(vs, gs, m, click, k, s.corner) && Point(x, y, z) == SecondCorner(c, o, target);
        var w := m.targetToWorld(Point(x, y, z));
        s := Corners(w, w, o);
      }
      k := k + 1;
    }
  }

  // ---------------------------------------------------------------------------
  // What the viewport loops decide.

  /**
   * A click outside every viewport leaves the probe itself, the normalised
   * click, as the new origin (snapped on request).
   */
  lemma ClickedOriginMiss(vs: seq<Viewer>, gs: seq<Grid>, m: Maps, start: Point, snap: bool)
    requires Hittable(vs, gs)
    requires forall k :: 0 <= k < |vs| ==> !Inside(vs[k].viewport, start.x, start.y)
    ensures ClickedOrigin(vs, gs, m, start, snap) == if snap then Snapped(m, start) else start
  {
    ScanMisses(vs, 0, start, PointOf, OriginStep(vs, gs, m));
  }

  /**
   * A click in viewer `k` and in no viewer before it, whose world point lies
   * in no later viewport, moves the origin to the point under the click in
   * viewer `k` (snapped on request).
   */
  lemma ClickedOriginHit(vs: seq<Viewer>, gs: seq<Grid>, m: Maps, start: Point, snap: bool, k: nat)
    requires Hittable(vs, gs)
    requires k < |vs| && Inside(vs[k].viewport, start.x, start.y)
    requires forall k' :: 0 <= k' < k ==> !Inside(vs[k'].viewport, start.x, start.y)
    requires forall k' :: k < k' < |vs| ==>
      !Inside(vs[k'].viewport, ViewerToWorld(vs, gs, m, k, start).x, ViewerToWorld(vs, gs, m, k, start).y)
    ensures ClickedOrigin(vs, gs, m, start, snap)
            == if snap then Snapped(m, ViewerToWorld(vs, gs, m, k, start)) else ViewerToWorld(vs, gs, m, k, start)
  {
    ScanSkips(vs, k, start, PointOf, OriginStep(vs, gs, m));
    ScanSettles(vs, k, start, PointOf, OriginStep(vs, gs, m));
  }

  /** The point `wheel` slices along viewer `k`'s normal from its grid's origin. */
  function WheelTarget(gs: seq<Grid>, m: Maps, wheel: int, k: nat): Point
    requires k < |gs|
  {
    var o := m.worldToGrid(gs[k], gs[k].origin);
    m.gridToWorld(gs[k], o.(z := o.z + wheel as real))
  }

  /**
   * A wheel turn over viewer `k` and no viewer before it, whose moved point
   * lies in no later viewport, moves the origin `wheel` slices along that
   * viewer's normal (snapped on request); over no viewport at all, the probe
   * itself becomes the origin.
   */
  lemma WheeledOriginHit(vs: seq<Viewer>, gs: seq<Grid>, m: Maps, wheel: int, start: Point, snap: bool, k: nat)
    requires Hittable(vs, gs)
    requires k < |vs| && Inside(vs[k].viewport, start.x, start.y)
    requires forall k' :: 0 <= k' < k ==> !Inside(vs[k'].viewport, start.x, start.y)
    requires forall k' :: k < k' < |vs| ==>
      !Inside(vs[k'].viewport, WheelTarget(gs, m, wheel, k).x, WheelTarget(gs, m, wheel, k).y)
    ensures WheeledOrigin(vs, gs, m, wheel, start, snap)
            == if snap then Snapped(m, WheelTarget(gs, m, wheel, k)) else WheelTarget(gs, m, wheel, k)
  {
    ScanSkips(vs, k, start, PointOf, WheelStep(gs, m, wheel));
    ScanSettles(vs, k, start, PointOf, WheelStep(gs, m, wheel));
  }

  lemma WheeledOriginMiss(vs: seq<Viewer>, gs: seq<Grid>, m: Maps, wheel: int, start: Point, snap: bool)
    requires Hittable(vs, gs)
    requires forall k :: 0 <= k < |vs| ==> !Inside(vs[k].viewport, start.x, start.y)
    ensures WheeledOrigin(vs, gs, m, wheel, start, snap) == if snap then Snapped(m, start) else start
  {
    ScanMisses(vs, 0, start, PointOf, WheelStep(gs, m, wheel));
  }

  /**
   * The viewer `MousePosition`'s loop records is one of the viewers, or the
   * one it started with when no viewport contains the probe.
   */
  lemma {:induction false} PointerScanViewer(vs: seq<Viewer>, gs: seq<Grid>, m: Maps, k: nat, s: Pointer)
    requires Hittable(vs, gs)
    ensures Scan(vs, k, s, PointerAt, PointerStep(vs, gs, m)) == s
            || k <= Scan(vs, k, s, PointerAt, PointerStep(vs, gs, m)).viewer < |vs|
    decreases |vs| - k
  {
    if k < |vs| {
      var step := PointerStep(vs, gs, m);
      if Inside(vs[k].viewport, s.point.x, s.point.y) {
        PointerScanViewer(vs, gs, m, k + 1, step(k, s));
      } else {
        PointerScanViewer(vs, gs, m, k + 1, s);
      }
    }
  }

  /** The first corner after a hit: at or before the other corner and at or after voxel 0, axis by axis, in voxels. */
  ghost predicate FirstOrdered(m: Maps, s: Corners)
  {
    var v := m.worldToTarget(s.corner);
    Round(v.x) <= Round(s.other.x) && Round(v.y) <= Round(s.other.y) && Round(v.z) <= Round(s.other.z)
    && (Round(s.other.x) >= 0 ==> Round(v.x) >= 0)
    && (Round(s.other.y) >= 0 ==> Round(v.y) >= 0)
    && (Round(s.other.z) >= 0 ==> Round(v.z) >= 0)
  }

  /** The second corner after a hit: at or after the other corner and before the image's end, in voxels. */
  ghost predicate SecondOrdered(m: Maps, s: Corners, target: Volume)
  {
    var v := m.worldToTarget(s.corner);
    Round(v.x) >= Round(s.other.x) && Round(v.y) >= Round(s.other.y) && Round(v.z) >= Round(s.other.z)
    && (Round(s.other.x) < target.x ==> Round(v.x) < target.x)
    && (Round(s.other.y) < target.y ==> Round(v.y) < target.y)
    && (Round(s.other.z) < target.z ==> Round(v.z) < target.z)
  }

  /**
   * `UpdateROI1` either meets no viewport and keeps the corner, or ends with
   * the first corner clamped against the other corner as the last hit
   * converted it, when target voxels survive the round trip through world
   * space.
   */
  lemma {:induction false} FirstCornerScanOrdered(vs: seq<Viewer>, gs: seq<Grid>, m: Maps, click: Point, k: nat,
                                                  s: Corners)
    requires TargetRoundTrip(m) && Hittable(vs, gs)
    ensures Scan(vs, k, s, ProbeOf, FirstCornerStep(vs, gs, m, click)) == s
            || FirstOrdered(m, Scan(vs, k, s, ProbeOf, FirstCornerStep(vs, gs, m, click)))
    decreases |vs| - k
  {
    if k < |vs| {
      var step := FirstCornerStep(vs, gs, m, click);
      if Inside(vs[k].viewport, s.probe.x, s.probe.y) {
        var t := step(k, s);
        var c := ClickedVoxel(vs, gs, m, click, k, s.corner);
        assert m.worldToTarget(t.corner) == FirstCorner(c, t.other);
        ClampFirstOrders(c.x, t.other.x);
        ClampFirstOrders(c.y, t.other.y);
        ClampFirstOrders(c.z, t.other.z);
        FirstCornerScanOrdered(vs, gs, m, click, k + 1, t);
      } else {
        FirstCornerScanOrdered(vs, gs, m, click, k + 1, s);
      }
    }
  }

  /** `UpdateROI2` likewise, against the other corner and the image's end. */
  lemma {:induction false} SecondCornerScanOrdered(vs: seq<Viewer>, gs: seq<Grid>, m: Maps, click: Point,
                                                   target: Volume, k: nat, s: Corners)
    requires TargetRoundTrip(m) && Hittable(vs, gs)
    ensures Scan(vs, k, s, ProbeOf, SecondCornerStep(vs, gs, m, click, target)) == s
            || SecondOrdered(m, Scan(vs, k, s, ProbeOf, SecondCornerStep(vs, gs, m, click, target)), target)
    decreases |vs| - k
  {
    if k < |vs| {
      var step := SecondCornerStep(vs, gs, m, click, target);
      if Inside(vs[k].viewport, s.probe.x, s.probe.y) {
        var t := step(k, s);
        var c := ClickedVoxel(vs, gs, m, click, k, s.corner);
        assert m.worldToTarget(t.corner) == SecondCorner(c, t.other, target);
        ClampSecondOrders(c.x, t.other.x, target.x);
        ClampSecondOrders(c.y, t.other.y, target.y);
        ClampSecondOrders(c.z, t.other.z, target.z);
        SecondCornerScanOrdered(vs, gs, m, click, target, k + 1, t);
      } else {
        SecondCornerScanOrdered(vs, gs, m, click, target, k + 1, s);
      }
    }
  }

  /** A click outside every viewport leaves both corners where they were. */
  lemma CornerMissKeeps(vs: seq<Viewer>, gs: seq<Grid>, m: Maps, click: Point, roi1: Point, roi2: Point,
                        target: Volume)
    requires Hittable(vs, gs)
    requires forall k :: 0 <= k < |vs| ==> !Inside(vs[k].viewport, click.x, click.y)
    ensures FirstCornerScan(vs, gs, m, click, roi1, roi2).corner == roi1
    ensures SecondCornerScan(vs, gs, m, click, roi2, roi1, target).corner == roi2
  {
    ScanMisses(vs, 0, Corners(click, roi1, roi2), ProbeOf, FirstCornerStep(vs, gs, m, click));
    ScanMisses(vs, 0, Corners(click, roi2, roi1), ProbeOf, SecondCornerStep(vs, gs, m, click, target));
  }

  /** The viewer a contour operation works in: the one just picked for a new contour, else the contour's own. */
  function ContourViewerFor(vs: seq<Viewer>, x: real, y: real, c: Contour, cv: int): int
  {
    if c.size == 0 then PickedViewer(vs, x, y, cv) else cv
  }

  /** The contour, initialised on viewer grid `g` when it has no point yet. */
  function Opened(e: Editor, c: Contour, g: Grid): Contour
  {
    if c.size == 0 then e.initialise(c, g) else c
  }

  /** The contour-opening loop: the last viewer under the click and its plane. */
  method PickViewer(vs: seq<Viewer>, x: real, y: real, cv: int, mode: ViewerMode)
    returns (cv': int, mode': ViewerMode)
    ensures cv' == PickedViewer(vs, x, y, cv) && mode' == PickedMode(vs, x, y, mode)
  {
    cv', mode' := cv, mode;
    var k := 0;
    while k < |vs|
      invariant k <= |vs|
      invariant cv' == PickedViewer(vs[..k], x, y, cv) && mode' == PickedMode(vs[..k], x, y, mode)
    {
      LastHitStep(vs, k, x, y);
      var v := vs[k].viewport;
      if x >= v.x1 && x < v.x2 && y >= v.y1 && y < v.y2 {
        cv' := k;
        mode' := vs[k].mode;
      }
      assert vs[..k + 1][k] == vs[k];
      k := k + 1;
    }
    assert vs[..k] == vs;
  }

  /** Raster voxel `q` is one more voxel a painted segmentation voxel may come from. */
  lemma PaintedStep(raster: seq<int>, voxelOf: nat -> int, q: nat)
    requires q < |raster|
    ensures forall v :: PaintedBefore(raster, voxelOf, v, q + 1)
                        <==> PaintedBefore(raster, voxelOf, v, q) || (raster[q] > 0 && voxelOf(q) == v)
  {
    forall v | PaintedBefore(raster, voxelOf, v, q + 1)
      ensures PaintedBefore(raster, voxelOf, v, q) || (raster[q] > 0 && voxelOf(q) == v)
    {
      var n :| 0 <= n < q + 1 && raster[n] > 0 && voxelOf(n) == v;
      if n < q {
        assert PaintedBefore(raster, voxelOf, v, q);
      }
    }
  }

  /** The zero fill of a new segmentation. */
  method Zero(a: array<int>)
    modifies a
    ensures forall v :: 0 <= v < a.Length ==> a[v] == 0
  {
    var v := 0;
    while v < a.Length
      invariant v <= a.Length
      invariant forall v' :: 0 <= v' < v ==> a[v'] == 0
    {
      a[v] := 0;
      v := v + 1;
    }
  }

  /** Some raster voxel above zero lands outside a segmentation of `size` voxels. */
  ghost predicate Overruns(raster: seq<int>, voxelOf: nat -> int, size: nat)
  {
    exists n :: 0 <= n < |raster| && raster[n] > 0 && !(0 <= voxelOf(n) < size)
  }

  /**
   * `FillContour`'s loop over the contour raster as written: every raster
   * voxel above zero writes `fill` wherever it lands, without a bounds check,
   * so the write is only defined when no such voxel overruns the segmentation.
   */
  method PaintUnchecked(seg: array<int>, raster: seq<int>, voxelOf: nat -> int, fill: int)
    requires !Overruns(raster, voxelOf, seg.Length)
    modifies seg
    ensures forall v :: 0 <= v < seg.Length ==>
      seg[v] == if Painted(raster, voxelOf, v) then fill else old(seg[v])
  {
    var q := 0;
    while q < |raster|
      invariant q <= |raster|
      invariant forall v :: 0 <= v < seg.Length ==>
        seg[v] == if PaintedBefore(raster, voxelOf, v, q) then fill else old(seg[v])
    {
      PaintedStep(raster, voxelOf, q);
      if raster[q] > 0 {
        seg[voxelOf(q)] := fill;
      }
      q := q + 1;
    }
  }

  /**
   * A contour raster larger than the segmentation: its one voxel is above
   * zero and lands one past the segmentation's last voxel, so the unchecked
   * loop writes outside the segmentation.
   */
  lemma ContourOverrun(size: nat)
    ensures Overruns([1], (n: nat) => size, size)
  {
    var voxelOf := (n: nat) => size;
    assert [1][0] > 0 && !(0 <= voxelOf(0) < size);
  }

  /**
   * `FillContour`'s loop with the bounds check the write needs: every raster
   * voxel above zero that lands inside the segmentation writes `fill` there;
   * one that lands outside changes nothing.
   */
  method Paint(seg: array<int>, raster: seq<int>, voxelOf: nat -> int, fill: int)
    modifies seg
    ensures forall v :: 0 <= v < seg.Length ==>
      seg[v] == if Painted(raster, voxelOf, v) then fill else old(seg[v])
  {
    var q := 0;
    while q < |raster|
      invariant q <= |raster|
      invariant forall v :: 0 <= v < seg.Length ==>
        seg[v] == if PaintedBefore(raster, voxelOf, v, q) then fill else old(seg[v])
    {
      PaintedStep(raster, voxelOf, q);
      if raster[q] > 0 && 0 <= voxelOf(q) < seg.Length {
        seg[voxelOf(q)] := fill;
      }
      q := q + 1;
    }
  }

  /** An `int` stored into a 16-bit signed `GreyPixel`: two's-complement wrap-around. */
  function Grey(x: int): (g: int)
    ensures -0x8000 <= g < 0x8000
    ensures (g - x) % 0x1_0000 == 0
    ensures -0x8000 <= x < 0x8000 ==> g == x
  {
    (x + 0x8000) % 0x1_0000 - 0x8000
  }

  /** `Initialize`'s default argument: the cache is re-initialised. */
  const InitializeCacheByDefault := true

  /** Every viewer's grid after `Initialize`. */
  function GridsFor(vs: seq<Viewer>, origin: Point, axes: Orientation.Axes, resolution: real,
                    voxel: Layout.VoxelSize): (gs: seq<Grid>)
    requires resolution != 0.0
    ensures |gs| == |vs|
    ensures forall k :: 0 <= k < |vs| ==> gs[k] == GridFor(vs[k], origin, axes, resolution, voxel)
  {
    seq(|vs|, k requires 0 <= k < |vs| => GridFor(vs[k], origin, axes, resolution, voxel))
  }

  function BlanksFor(vs: seq<Viewer>): (rs: seq<Compositor.Rasters>)
    ensures |rs| == |vs|
    ensures forall k :: 0 <= k < |vs| ==> rs[k] == BlankRasters(vs[k])
  {
    seq(|vs|, k requires 0 <= k < |vs| => BlankRasters(vs[k]))
  }

  /** `Initialize`'s loop: a grid and blank rasters for every viewer. */
  method InitializeViewers(vs: seq<Viewer>, origin: Point, axes: Orientation.Axes, resolution: real,
                           voxel: Layout.VoxelSize) returns (gs: seq<Grid>, rs: seq<Compositor.Rasters>)
    requires resolution != 0.0
    ensures gs == GridsFor(vs, origin, axes, resolution, voxel) && rs == BlanksFor(vs)
  {
    gs, rs := [], [];
    var k := 0;
    while k < |vs|
      invariant k <= |vs| && |gs| == k && |rs| == k
      invariant forall k' :: 0 <= k' < k ==> gs[k'] == GridFor(vs[k'], origin, axes, resolution, voxel)
      invariant forall k' :: 0 <= k' < k ==> rs[k'] == BlankRasters(vs[k'])
    {
      var slice := match vs[k].mode
        case ViewerXY => Layout.Slice(axes, 1.0 / resolution, 1.0 / resolution, voxel.z)
        case ViewerXZ => Layout.Slice(Orientation.Axes(axes.x, axes.z, axes.y), 1.0 / resolution, 1.0 / resolution, voxel.y)
        case ViewerYZ => Layout.Slice(Orientation.Axes(axes.y, axes.z, axes.x), 1.0 / resolution, 1.0 / resolution, voxel.x);
      gs := gs + [Grid(vs[k].width, vs[k].height, origin, slice)];
      rs := rs + [BlankRasters(vs[k])];
      k := k + 1;
    }
  }

  /** The viewer a layout row describes on a `screenX` by `screenY` window. */
  function ViewerOf(c: Layout.ViewerConfig, sizeOf: (Viewport, int, int) -> Size, screenX: int, screenY: int): Viewer
  {
    var v := Viewport(c.xmin, c.ymin, c.xmax, c.ymax);
    Viewer(v, sizeOf(v, screenX, screenY).width, sizeOf(v, screenX, screenY).height, c.mode)
  }

  /** The viewers on a resized window. */
  function Resized(vs: seq<Viewer>, sizeOf: (Viewport, int, int) -> Size, screenX: int, screenY: int): (r: seq<Viewer>)
    ensures |r| == |vs|
    ensures forall k :: 0 <= k < |vs| ==> r[k].viewport == vs[k].viewport && r[k].mode == vs[k].mode
  {
    seq(|vs|, k requires 0 <= k < |vs| =>
      vs[k].(width := sizeOf(vs[k].viewport, screenX, screenY).width,
             height := sizeOf(vs[k].viewport, screenX, screenY).height))
  }

  /** The viewers after `Resize`: resized when the window size changed, as they were otherwise. */
  function AfterResize(vs: seq<Viewer>, sizeOf: (Viewport, int, int) -> Size, screenX: int, screenY: int,
                       w: int, h: int): (r: seq<Viewer>)
    ensures |r| == |vs|
    ensures forall k :: 0 <= k < |vs| ==> r[k].viewport == vs[k].viewport && r[k].mode == vs[k].mode
    ensures w == screenX && h == screenY ==> r == vs
  {
    if w != screenX || h != screenY then Resized(vs, sizeOf, w, h) else vs
  }

  function Modes(vs: seq<Viewer>): (ms: seq<ViewerMode>)
    ensures |ms| == |vs| && forall k :: 0 <= k < |vs| ==> ms[k] == vs[k].mode
  {
    seq(|vs|, k requires 0 <= k < |vs| => vs[k].mode)
  }

  /** The layout rows before the sentinel describe viewports that span an area. */
  predicate ProperRows(config: seq<Layout.ViewerConfig>)
    requires Layout.Terminated(config)
  {
    forall k :: 0 <= k < Layout.ViewerCount(config) ==> config[k].xmin < config[k].xmax && config[k].ymin < config[k].ymax
  }

  /**
   * Where an open contour goes on a new layout: to the last viewer of its
   * plane, or nowhere (-1) when none shows it; without one it stays at -1.
   */
  function Remapped(contourViewer: int, vs: seq<Viewer>, mode: ViewerMode): (r: int)
    ensures -1 <= r < |vs| || r == contourViewer
  {
    if contourViewer == -1 then -1 else Layout.LastOfMode(Modes(vs), mode)
  }

  /** One viewer per row of a layout table before its sentinel row. */
  function Configured(config: seq<Layout.ViewerConfig>, sizeOf: (Viewport, int, int) -> Size,
                      screenX: int, screenY: int): (vs: seq<Viewer>)
    requires Layout.Terminated(config)
    ensures |vs| == Layout.ViewerCount(config)
    ensures forall k :: 0 <= k < |vs| ==> vs[k] == ViewerOf(config[k], sizeOf, screenX, screenY)
  {
    seq(Layout.ViewerCount(config), k requires 0 <= k < Layout.ViewerCount(config) =>
      ViewerOf(config[k], sizeOf, screenX, screenY))
  }

  /** `Configure`'s viewer loop. */
  method BuildViewers(config: seq<Layout.ViewerConfig>, n: nat, sizeOf: (Viewport, int, int) -> Size,
                      screenX: int, screenY: int) returns (vs: seq<Viewer>)
    requires Layout.Terminated(config) && n == Layout.ViewerCount(config)
    ensures vs == Configured(config, sizeOf, screenX, screenY)
  {
    vs := [];
    var k := 0;
    while k < n
      invariant k <= n && |vs| == k
      invariant forall k' :: 0 <= k' < k ==> vs[k'] == ViewerOf(config[k'], sizeOf, screenX, screenY)
    {
      vs := vs + [ViewerOf(config[k], sizeOf, screenX, screenY)];
      k := k + 1;
    }
  }

  /** `Reset`'s axis switches and flips. */
  method DisplayAxes(current: Orientation.Axes, image: Orientation.Axes, i: OrientationCode, j: OrientationCode,
                     k: OrientationCode, mode: DisplayMode, flipX: bool, flipY: bool, flipZ: bool)
    returns (a: Orientation.Axes)
    ensures a == Orientation.Flip(Orientation.Resolve(current, image, i, j, k, mode), flipX, flipY, flipZ)
  {
    a := if mode == Native then image else current;
    if mode != Native {
      a := Orientation.Place(a, i, image.x, mode);
      a := Orientation.Place(a, j, image.y, mode);
      a := Orientation.Place(a, k, image.z, mode);
    }
    if flipX {
      a := a.(x := a.x.Neg());
    }
    if flipY {
      a := a.(y := a.y.Neg());
    }
    if flipZ {
      a := a.(z := a.z.Neg());
    }
  }

  /**
   * A well-formed viewer layout: the per-viewer sequences line up, every
   * viewport spans an area, and every viewer has a colour buffer of its size,
   * no two viewers the same one.
   */
  predicate WellLaidOut(vs: seq<Viewer>, roles: seq<bool>, ds: seq<array2<Color>>, screenX: int, screenY: int,
                        resolution: real)
  {
    |roles| == |vs| && |ds| == |vs|
    && screenX > 0 && screenY > 0 && resolution != 0.0
    && (forall k :: 0 <= k < |vs| ==> Proper(vs[k].viewport))
    && (forall k :: 0 <= k < |vs| ==> ds[k].Length0 == vs[k].height && ds[k].Length1 == vs[k].width)
    && (forall a, b :: 0 <= a < b < |ds| ==> ds[a] != ds[b])
  }

  /** Every viewer's grid and rasters have the viewer's size. */
  predicate Fitting(vs: seq<Viewer>, gs: seq<Grid>, outs: seq<Compositor.Rasters>)
  {
    |gs| == |vs| && |outs| == |vs|
    && (forall k :: 0 <= k < |vs| ==> gs[k].width == vs[k].width && gs[k].height == vs[k].height)
    && (forall k :: 0 <= k < |vs| ==> Compositor.RastersFit(outs[k], vs[k].width, vs[k].height))
  }

  class RView {
    // Which resampled images the next `Update` recomputes.
    var targetUpdate: bool
    var sourceUpdate: bool
    var segmentationUpdate: bool
    var selectionUpdate: bool

    var screenX: int
    var screenY: int

    // One entry per viewer.
    var viewers: seq<Viewer>
    var isSourceViewer: seq<bool>
    var grids: seq<Grid>
    var outputs: seq<Compositor.Rasters>
    var drawable: seq<array2<Color>>

    var target: Volume
    var source: Volume
    var segmentation: array<int>

    var viewMode: ViewMode
    var viewMix: real
    var displayLabels: bool

    var origin: Point
    var roi1: Point
    var roi2: Point
    var snapToGrid: bool
    var resolution: real
    var axes: Orientation.Axes
    var displayMode: DisplayMode
    var flipX: bool
    var flipY: bool
    var flipZ: bool

    var contour: Contour
    var contourViewer: int
    var contourViewerMode: ViewerMode
    var segmentationMode: int
    var paintBrushWidth: int
    var regionGrowingMin: int
    var regionGrowingMax: int
    var regionGrowingMode: RegionGrowingMode

    var targetFrame: int
    var sourceFrame: int
    var sourceTransformApply: bool
    var sourceTransformInvert: bool
    var targetInterpolator: string
    var sourceInterpolator: string
    var cacheDisplacements: bool
    var cache: Cache

    var mouseViewer: int
    var mouseX: int
    var mouseY: int
    var mouseZ: int
    var mouseTargetIntensity: real

    /** The viewer layout is well formed (`WellLaidOut`). */
    predicate Framed()
      reads this`viewers, this`isSourceViewer, this`drawable, this`screenX, this`screenY, this`resolution
    {
      WellLaidOut(viewers, isSourceViewer, drawable, screenX, screenY, resolution)
    }

    /** The layout is well formed and every viewer's grid and rasters have its size (`Fitting`). */
    predicate Valid()
      reads this`viewers, this`isSourceViewer, this`grids, this`outputs, this`drawable
      reads this`screenX, this`screenY, this`resolution
    {
      Framed() && Fitting(viewers, grids, outputs)
    }

    predicate AllDirty()
      reads this`targetUpdate, this`sourceUpdate, this`segmentationUpdate, this`selectionUpdate
    {
      targetUpdate && sourceUpdate && segmentationUpdate && selectionUpdate
    }

    predicate AllClean()
      reads this`targetUpdate, this`sourceUpdate, this`segmentationUpdate, this`selectionUpdate
    {
      !targetUpdate && !sourceUpdate && !segmentationUpdate && !selectionUpdate
    }

    /** Whether `Update` regenerates a role: its flag is set and its input is not empty. */
    predicate TargetDue()
      reads this`targetUpdate, this`target
    {
      targetUpdate && !target.IsEmpty()
    }

    predicate SourceDue()
      reads this`sourceUpdate, this`source
    {
      sourceUpdate && !source.IsEmpty()
    }

    predicate SegmentationDue()
      reads this`segmentationUpdate, this`segmentation
    {
      segmentationUpdate && segmentation.Length > 0
    }

    predicate SelectionDue()
      reads this`selectionUpdate, this`contour
    {
      selectionUpdate && |contour.raster| > 0
    }

    /** Everything besides the rasters that the colours depend on. */
    function SceneOf(p: Palette): (sc: Compositor.Scene)
      reads this`viewMode, this`viewMix, this`displayLabels, this`contour
      ensures sc.mode == viewMode && sc.contourSize == contour.size && sc.showLabels == displayLabels
    {
      Compositor.Scene(viewMode, viewMix, p.targetLut, p.sourceLut, p.subtractionLut, p.empty,
                       displayLabels, p.segments, contour.size)
    }

    method MarkAllDirty()
      modifies this`targetUpdate, this`sourceUpdate, this`segmentationUpdate, this`selectionUpdate
      ensures AllDirty()
    {
      targetUpdate := true;
      sourceUpdate := true;
      segmentationUpdate := true;
      selectionUpdate := true;
    }

    // -------------------------------------------------------------------------
    // Update (233-451).

    /**
     * The filter loop of `Update`: viewer `l`'s raster of a role is
     * regenerated (`run`) exactly when that role is dirty and its input is not
     * empty; then every flag is cleared.
     */
    method RunFilters(run: (Role, nat) -> seq<seq<int>>)
      requires Valid()
      requires forall role, l :: 0 <= l < |viewers| ==> Compositor.IsRaster(run(role, l), viewers[l].width, viewers[l].height)
      modifies this`outputs, this`targetUpdate, this`sourceUpdate, this`segmentationUpdate, this`selectionUpdate
      ensures Valid() && AllClean()
      ensures outputs == RefreshAll(old(outputs), run, old(TargetDue()), old(SourceDue()), old(SegmentationDue()),
                                    old(SelectionDue()))
    {
      var t, s, g, sel := TargetDue(), SourceDue(), SegmentationDue(), SelectionDue();
      var outs := outputs;
      var rs := RunViewers(outs, run, t, s, g, sel);
      forall l' | 0 <= l' < |rs|
        ensures Compositor.RastersFit(rs[l'], viewers[l'].width, viewers[l'].height)
      {
        RefreshedFits(outs[l'], l', run, t, s, g, sel, viewers[l'].width, viewers[l'].height);
      }
      outputs := rs;
      targetUpdate := false;
      sourceUpdate := false;
      segmentationUpdate := false;
      selectionUpdate := false;
    }

    /** The filter loop over all viewers. */
    static method RunViewers(outs: seq<Compositor.Rasters>, run: (Role, nat) -> seq<seq<int>>,
                             target: bool, source: bool, segmentation: bool, selection: bool)
      returns (rs: seq<Compositor.Rasters>)
      ensures rs == RefreshAll(outs, run, target, source, segmentation, selection)
    {
      rs := outs;
      var l := 0;
      while l < |outs|
        invariant l <= |outs| && |rs| == |outs|
        invariant forall l' :: 0 <= l' < l ==> rs[l'] == Refreshed(outs[l'], l', run, target, source, segmentation, selection)
        invariant forall l' :: l <= l' < |outs| ==> rs[l'] == outs[l']
      {
        var r := RunViewer(rs[l], l, run, target, source, segmentation, selection);
        rs := rs[l := r];
        l := l + 1;
      }
      assert rs == RefreshAll(outs, run, target, source, segmentation, selection);
    }

    /** One pass of the filter loop: the filters of viewer `l` whose role is to be refreshed run. */
    static method RunViewer(r: Compositor.Rasters, l: nat, run: (Role, nat) -> seq<seq<int>>,
                            target: bool, source: bool, segmentation: bool, selection: bool)
      returns (r': Compositor.Rasters)
      ensures r' == Refreshed(r, l, run, target, source, segmentation, selection)
    {
      r' := r;
      if target {
        r' := r'.(target := run(TargetRole, l));
      }
      if source {
        r' := r'.(source := run(SourceRole, l));
      }
      if segmentation {
        r' := r'.(segmentation := run(SegmentationRole, l));
      }
      if selection {
        r' := r'.(selection := run(SelectionRole, l));
      }
    }

    /** The colour loop of `Update`: every viewer's buffer is composed from its rasters. */
    method ComposeAll(p: Palette)
      requires Valid()
      modifies set k | 0 <= k < |drawable| :: drawable[k]
      ensures forall k :: 0 <= k < |drawable| ==>
        forall j, i :: 0 <= j < viewers[k].height && 0 <= i < viewers[k].width ==>
          drawable[k][j, i] == Compositor.ShownPixel(SceneOf(p), isSourceViewer[k], viewers[k].width,
                                                     viewers[k].height, outputs[k], i, j, old(drawable[k][j, i]))
    {
      var sc := SceneOf(p);
      var k := 0;
      while k < |drawable|
        invariant k <= |drawable|
        invariant forall k' :: 0 <= k' < k ==>
          forall j, i :: 0 <= j < viewers[k'].height && 0 <= i < viewers[k'].width ==>
            drawable[k'][j, i] == Compositor.ShownPixel(sc, isSourceViewer[k'], viewers[k'].width,
                                                        viewers[k'].height, outputs[k'], i, j, old(drawable[k'][j, i]))
        invariant forall k' :: k <= k' < |drawable| ==>
          forall j, i :: 0 <= j < viewers[k'].height && 0 <= i < viewers[k'].width ==>
            drawable[k'][j, i] == old(drawable[k'][j, i])
      {
        Compositor.ComposeViewport(drawable[k], isSourceViewer[k], sc, outputs[k]);
        k := k + 1;
      }
    }

    /**
     * `Update`: regenerate the dirty rasters, clear the flags, and compose
     * every viewer's colour buffer from its rasters.
     */
    method Update(run: (Role, nat) -> seq<seq<int>>, p: Palette)
      requires Valid()
      requires forall role, l :: 0 <= l < |viewers| ==> Compositor.IsRaster(run(role, l), viewers[l].width, viewers[l].height)
      modifies this`outputs, this`targetUpdate, this`sourceUpdate, this`segmentationUpdate, this`selectionUpdate
      modifies set k | 0 <= k < |drawable| :: drawable[k]
      ensures Valid() && AllClean()
      ensures outputs == RefreshAll(old(outputs), run, old(TargetDue()), old(SourceDue()), old(SegmentationDue()),
                                    old(SelectionDue()))
      ensures forall k :: 0 <= k < |drawable| ==>
        forall j, i :: 0 <= j < viewers[k].height && 0 <= i < viewers[k].width ==>
          drawable[k][j, i] == Compositor.ShownPixel(SceneOf(p), isSourceViewer[k], viewers[k].width,
                                                     viewers[k].height, outputs[k], i, j, old(drawable[k][j, i]))
    {
      RunFilters(run);
      ComposeAll(p);
    }

    method PutOrigins(p: Point)
      modifies this`grids
      ensures grids == Recentred(old(grids), p)
    {
      var gs := grids;
      var k := 0;
      while k < |gs|
        invariant k <= |gs| && |gs| == |grids|
        invariant forall k' :: 0 <= k' < k ==> gs[k'] == grids[k'].(origin := p)
        invariant forall k' :: k <= k' < |gs| ==> gs[k'] == grids[k']
      {
        gs := gs[k := gs[k].(origin := p)];
        k := k + 1;
      }
      assert gs == Recentred(grids, p);
      grids := gs;
    }

    /**
     * The common end of `SetOrigin` and `MouseWheel`: the new origin, snapped
     * to the nearest target voxel when snapping is on, becomes every grid's
     * origin, and every flag is set.
     */
    method MoveOrigin(p: Point, m: Maps)
      requires Valid()
      modifies this`origin, this`grids, this`targetUpdate, this`sourceUpdate, this`segmentationUpdate, this`selectionUpdate
      ensures Valid() && AllDirty()
      ensures origin == if snapToGrid then Snapped(m, p) else p
      ensures grids == Recentred(old(grids), origin)
    {
      var q := p;
      if snapToGrid {
        var t := m.worldToTarget(q);
        q := m.targetToWorld(Point(Round(t.x) as real, Round(t.y) as real, Round(t.z) as real));
      }
      origin := q;
      PutOrigins(origin);
      MarkAllDirty();
    }

    // -------------------------------------------------------------------------
    // The origin (`SetOrigin` 580-620, `MouseWheel` 2584-2629).

    /**
     * A click at window pixel `(i, j)` moves the origin to the point under it
     * in the last viewer that contains the probe, snapped to the nearest
     * target voxel when snapping is on; every grid is re-centred there and
     * every flag is set. A click outside every viewer leaves the normalised
     * click itself, with the old depth, as the origin.
     */
    method SetOrigin(i: int, j: int, m: Maps)
      requires Valid()
      modifies this`origin, this`grids, this`targetUpdate, this`sourceUpdate, this`segmentationUpdate, this`selectionUpdate
      ensures Valid() && AllDirty()
      ensures origin == ClickedOrigin(viewers, old(grids), m, Normalised(i, j, screenX, screenY).(z := old(origin).z), snapToGrid)
      ensures grids == Recentred(old(grids), origin)
    {
      var n := Normalised(i, j, screenX, screenY);
      var p := ScanOrigin(viewers, grids, m, Point(n.x, n.y, origin.z));
      MoveOrigin(p, m);
    }

    /**
     * A wheel turn over a viewer moves the origin `wheel` slices along that
     * viewer's normal, from the viewer's own origin; the grids follow and
     * every flag is set.
     */
    method MouseWheel(i: int, j: int, wheel: int, m: Maps)
      requires Valid()
      modifies this`origin, this`grids, this`targetUpdate, this`sourceUpdate, this`segmentationUpdate, this`selectionUpdate
      ensures Valid() && AllDirty()
      ensures origin == WheeledOrigin(viewers, old(grids), m, wheel, Normalised(i, j, screenX, screenY), snapToGrid)
      ensures grids == Recentred(old(grids), origin)
    {
      var p := ScanWheel(viewers, grids, m, wheel, Normalised(i, j, screenX, screenY));
      MoveOrigin(p, m);
    }

    /**
     * The voxel under the mouse: when the point under the pointer lies in
     * the target, the voxel, its intensity and the viewer last hit are
     * recorded; otherwise only the viewer is reset to -1.
     */
    method MousePosition(i: int, j: int, m: Maps, intensityAt: (int, int, int) -> real)
      requires Valid()
      modifies this`mouseViewer, this`mouseX, this`mouseY, this`mouseZ, this`mouseTargetIntensity
      ensures var s := PointerScan(viewers, grids, m, Pointer(Normalised(i, j, screenX, screenY), old(mouseViewer)));
              var v := VoxelAt(m, s.point);
              if InVolume(v, target)
              then (mouseX, mouseY, mouseZ) == v && mouseTargetIntensity == intensityAt(v.0, v.1, v.2) && mouseViewer == s.viewer
              else mouseViewer == -1 && mouseX == old(mouseX) && mouseY == old(mouseY) && mouseZ == old(mouseZ)
                   && mouseTargetIntensity == old(mouseTargetIntensity)
    {
      var s := ScanPointer(viewers, grids, m, Pointer(Normalised(i, j, screenX, screenY), mouseViewer));
      var t := m.worldToTarget(s.point);
      var a, b, c := Round(t.x), Round(t.y), Round(t.z);
      if 0 <= a < target.x && 0 <= b < target.y && 0 <= c < target.z {
        mouseX, mouseY, mouseZ := a, b, c;
        mouseTargetIntensity := intensityAt(a, b, c);
        mouseViewer := s.viewer;
      } else {
        mouseViewer := -1;
      }
    }

    // -------------------------------------------------------------------------
    // Region of interest (622-727).

    /** The corners go to the first and the last voxel of the target. */
    method ResetROI(m: Maps)
      modifies this`roi1, this`roi2
      ensures roi1 == m.targetToWorld(Point(0.0, 0.0, 0.0))
      ensures roi2 == m.targetToWorld(Point((target.x - 1) as real, (target.y - 1) as real, (target.z - 1) as real))
      ensures TargetRoundTrip(m) && !target.IsEmpty() ==>
        VoxelAt(m, roi1) == (0, 0, 0) && VoxelAt(m, roi2) == (target.x - 1, target.y - 1, target.z - 1)
    {
      roi1 := m.targetToWorld(Point(0.0, 0.0, 0.0));
      roi2 := m.targetToWorld(Point((target.x - 1) as real, (target.y - 1) as real, (target.z - 1) as real));
      RoundWhole(0);
      RoundWhole(target.x - 1);
      RoundWhole(target.y - 1);
      RoundWhole(target.z - 1);
    }

    /**
     * A click moves the first corner to the voxel under it, at the corner's
     * old depth, clamped to the image's start and to the second corner.
     */
    method UpdateROI1(i: int, j: int, m: Maps)
      requires Valid()
      modifies this`roi1
      ensures roi1 == FirstCornerScan(viewers, grids, m, Normalised(i, j, screenX, screenY), old(roi1), roi2).corner
    {
      var click := Normalised(i, j, screenX, screenY);
      var s := ScanFirstCorner(viewers, grids, m, click, roi1, roi2);
      roi1 := s.corner;
    }

    /**
     * A click moves the second corner to the voxel under it, at the corner's
     * old depth, clamped to the image's end and to the first corner.
     */
    method UpdateROI2(i: int, j: int, m: Maps)
      requires Valid()
      modifies this`roi2
      ensures roi2 == SecondCornerScan(viewers, grids, m, Normalised(i, j, screenX, screenY), old(roi2), roi1, target).corner
    {
      var click := Normalised(i, j, screenX, screenY);
      var s := ScanSecondCorner(viewers, grids, m, click, roi2, roi1, target);
      roi2 := s.corner;
    }

    // -------------------------------------------------------------------------
    // The contour (729-914).

    /**
     * The prologue of the three contour-drawing operations. With no contour
     * point yet, the last viewer under the click becomes the contour viewer
     * (none under it: the old one stays). Otherwise a click outside the
     * contour viewer's viewport is ignored (`go` false, nothing changed).
     * When the operation goes on, `p` is the click in world space and the
     * contour is initialised on the contour viewer's grid if it was empty.
     */
    method LocateContourPoint(i: int, j: int, m: Maps, e: Editor) returns (go: bool, p: Point)
      requires Valid()
      requires contour.size > 0 ==> 0 <= contourViewer < |viewers|
      requires contour.size == 0 ==>
        0 <= PickedViewer(viewers, Normalised(i, j, screenX, screenY).x, Normalised(i, j, screenX, screenY).y, contourViewer) < |viewers|
      modifies this`contourViewer, this`contourViewerMode, this`contour
      ensures var click := Normalised(i, j, screenX, screenY);
        go == (old(contour.size) == 0 || Inside(viewers[old(contourViewer)].viewport, click.x, click.y))
        && (!go ==> contour == old(contour) && contourViewer == old(contourViewer) && contourViewerMode == old(contourViewerMode))
        && (go ==> contourViewer == ContourViewerFor(viewers, click.x, click.y, old(contour), old(contourViewer))
                   && 0 <= contourViewer < |viewers|
                   && contourViewerMode == (if old(contour.size) == 0
                                            then PickedMode(viewers, click.x, click.y, old(contourViewerMode))
                                            else old(contourViewerMode))
                   && p == ViewerToWorld(viewers, grids, m, contourViewer, click)
                   && contour == Opened(e, old(contour), grids[contourViewer]))
    {
      var click := Normalised(i, j, screenX, screenY);
      if contour.size == 0 {
        contourViewer, contourViewerMode := PickViewer(viewers, click.x, click.y, contourViewer, contourViewerMode);
      } else {
        var v := viewers[contourViewer].viewport;
        if click.x < v.x1 || click.x >= v.x2 || click.y < v.y1 || click.y >= v.y2 {
          return false, click;
        }
      }
      var k := contourViewer;
      var local := ToLocal(viewers[k].viewport, click.x, click.y, viewers[k].width, viewers[k].height);
      p := m.gridToWorld(grids[k], local);
      if contour.size == 0 {
        contour := e.initialise(contour, grids[k]);
      }
      go := true;
    }

    /**
     * `AddContour`: the point is added as `mode` says, and the selection is
     * resampled; a click the prologue ignores changes nothing.
     */
    method AddContour(i: int, j: int, mode: ContourMode, m: Maps, e: Editor)
      requires Valid()
      requires contour.size > 0 ==> 0 <= contourViewer < |viewers|
      requires contour.size == 0 ==>
        0 <= PickedViewer(viewers, Normalised(i, j, screenX, screenY).x, Normalised(i, j, screenX, screenY).y, contourViewer) < |viewers|
      modifies this`contourViewer, this`contourViewerMode, this`contour, this`selectionUpdate
      ensures var click := Normalised(i, j, screenX, screenY);
        if old(contour.size) > 0 && !Inside(viewers[old(contourViewer)].viewport, click.x, click.y)
        then contour == old(contour) && contourViewer == old(contourViewer) && selectionUpdate == old(selectionUpdate)
        else contourViewer == ContourViewerFor(viewers, click.x, click.y, old(contour), old(contourViewer))
             && 0 <= contourViewer < |viewers| && selectionUpdate
             && contour == AddPointTo(e, Opened(e, old(contour), grids[contourViewer]), mode,
                                      ViewerToWorld(viewers, grids, m, contourViewer, click), paintBrushWidth, segmentationMode)
    {
      var go, p := LocateContourPoint(i, j, m, e);
      if !go {
        return;
      }
      match mode {
        case FirstPoint =>
          contour := e.addPointSet(contour, p, paintBrushWidth);
        case NewPoint =>
          contour := e.addPoint(contour, p, paintBrushWidth);
        case LastPoint =>
          if segmentationMode == 0 {
            contour := e.close(contour, p, paintBrushWidth);
          } else {
            contour := e.addPoint(contour, p, paintBrushWidth);
          }
      }
      selectionUpdate := true;
    }

    /** `FillArea`: the area around the point is filled, likewise gated. */
    method FillArea(i: int, j: int, m: Maps, e: Editor)
      requires Valid()
      requires contour.size > 0 ==> 0 <= contourViewer < |viewers|
      requires contour.size == 0 ==>
        0 <= PickedViewer(viewers, Normalised(i, j, screenX, screenY).x, Normalised(i, j, screenX, screenY).y, contourViewer) < |viewers|
      modifies this`contourViewer, this`contourViewerMode, this`contour, this`selectionUpdate
      ensures var click := Normalised(i, j, screenX, screenY);
        if old(contour.size) > 0 && !Inside(viewers[old(contourViewer)].viewport, click.x, click.y)
        then contour == old(contour) && contourViewer == old(contourViewer) && selectionUpdate == old(selectionUpdate)
        else contourViewer == ContourViewerFor(viewers, click.x, click.y, old(contour), old(contourViewer))
             && 0 <= contourViewer < |viewers| && selectionUpdate
             && contour == e.fillArea(Opened(e, old(contour), grids[contourViewer]),
                                      ViewerToWorld(viewers, grids, m, contourViewer, click))
    {
      var go, p := LocateContourPoint(i, j, m, e);
      if !go {
        return;
      }
      contour := e.fillArea(contour, p);
      selectionUpdate := true;
    }

    /** `RegionGrowContour`: a region grown from the point within the thresholds, likewise gated. */
    method RegionGrowContour(i: int, j: int, m: Maps, e: Editor)
      requires Valid()
      requires contour.size > 0 ==> 0 <= contourViewer < |viewers|
      requires contour.size == 0 ==>
        0 <= PickedViewer(viewers, Normalised(i, j, screenX, screenY).x, Normalised(i, j, screenX, screenY).y, contourViewer) < |viewers|
      modifies this`contourViewer, this`contourViewerMode, this`contour, this`selectionUpdate
      ensures var click := Normalised(i, j, screenX, screenY);
        if old(contour.size) > 0 && !Inside(viewers[old(contourViewer)].viewport, click.x, click.y)
        then contour == old(contour) && contourViewer == old(contourViewer) && selectionUpdate == old(selectionUpdate)
        else contourViewer == ContourViewerFor(viewers, click.x, click.y, old(contour), old(contourViewer))
             && 0 <= contourViewer < |viewers| && selectionUpdate
             && contour == e.regionGrow(Opened(e, old(contour), grids[contourViewer]),
                                        ViewerToWorld(viewers, grids, m, contourViewer, click),
                                        regionGrowingMin, regionGrowingMax, regionGrowingMode)
    {
      var go, p := LocateContourPoint(i, j, m, e);
      if !go {
        return;
      }
      contour := e.regionGrow(contour, p, regionGrowingMin, regionGrowingMax, regionGrowingMode);
      selectionUpdate := true;
    }

    method UndoContour(e: Editor)
      modifies this`contour, this`selectionUpdate
      ensures contour == e.undo(old(contour)) && selectionUpdate
    {
      contour := e.undo(contour);
      selectionUpdate := true;
    }

    method ClearContour(e: Editor)
      modifies this`contour, this`selectionUpdate
      ensures contour == e.clear(old(contour)) && selectionUpdate
    {
      contour := e.clear(contour);
      selectionUpdate := true;
    }

    /**
     * `FillContour`: an empty segmentation is first created on the target's
     * grid and zeroed; then every segmentation voxel some contour raster
     * voxel above zero lands on (`voxelOf`, the library's rounding of raster
     * to segmentation coordinates) becomes `fill` as a `GreyPixel` stores it,
     * and every other voxel keeps its value. A raster voxel that lands outside
     * the segmentation writes nothing (`Paint`, not the unchecked loop). The contour is cleared, and the segmentation and the
     * selection are resampled.
     */
    method FillContour(fill: int, voxelOf: nat -> int, e: Editor)
      modifies this`segmentation, segmentation, this`contour, this`segmentationUpdate, this`selectionUpdate
      ensures old(segmentation.Length) > 0 ==> segmentation == old(segmentation)
      ensures old(segmentation.Length) == 0 ==> fresh(segmentation) && segmentation.Length == target.Voxels()
      ensures forall v :: 0 <= v < segmentation.Length ==>
        segmentation[v] == if Painted(old(contour.raster), voxelOf, v) then Grey(fill)
                           else if old(segmentation.Length) == 0 then 0 else old(segmentation[v])
      ensures contour == e.clear(old(contour)) && segmentationUpdate && selectionUpdate
    {
      if segmentation.Length == 0 {
        segmentation := new int[target.Voxels()];
        Zero(segmentation);
      }
      Paint(segmentation, contour.raster, voxelOf, Grey(fill));
      contour := e.clear(contour);
      segmentationUpdate := true;
      selectionUpdate := true;
    }

    // -------------------------------------------------------------------------
    // Layout (`Reset` 2053-2327, `Resize` 2329-2362, `Configure` 2364-2492,
    // `Initialize` 2789-2909).

    /**
     * Every viewer gets a grid of its size, centred on the origin and sliced
     * along its plane's axes, and blank rasters; every flag is set; and the
     * displacement cache is rebuilt, cleared or left as `CacheDecision` says.
     */
    method Initialize(initializeCache: bool, q: CacheQuery)
      requires resolution != 0.0
      modifies this`grids, this`outputs, this`cache
      modifies this`targetUpdate, this`sourceUpdate, this`segmentationUpdate, this`selectionUpdate
      ensures grids == GridsFor(viewers, origin, axes, resolution, target.voxel)
      ensures outputs == BlanksFor(viewers)
      ensures AllDirty()
      ensures cache == NextCache(old(cache), Layout.CacheDecision(initializeCache, q.haveSource, q.haveTransform,
                                                                 q.requiresCaching, cacheDisplacements, q.haveTarget))
      ensures Fitting(viewers, grids, outputs)
      ensures Framed() ==> Valid()
    {
      grids, outputs := InitializeViewers(viewers, origin, axes, resolution, target.voxel);
      MarkAllDirty();
      if initializeCache {
        if q.haveSource && q.haveTransform && q.requiresCaching && cacheDisplacements {
          cache := Cached(q.haveTarget, true);
        } else {
          cache := NoCache;
        }
      }
    }

    /**
     * The display axes are derived from the target's axes and orientation
     * (`Orientation.Resolve`) and flipped as requested; the origin goes to
     * the target voxel nearest the target's origin; then `Initialize`.
     */
    method Reset(image: Orientation.Axes, i: OrientationCode, j: OrientationCode, k: OrientationCode,
                 targetOrigin: Point, m: Maps, q: CacheQuery)
      requires Valid()
      modifies this`axes, this`origin, this`grids, this`outputs, this`cache
      modifies this`targetUpdate, this`sourceUpdate, this`segmentationUpdate, this`selectionUpdate
      ensures Valid() && AllDirty()
      ensures axes == Orientation.Flip(Orientation.Resolve(old(axes), image, i, j, k, displayMode), flipX, flipY, flipZ)
      ensures origin == Snapped(m, targetOrigin)
      ensures grids == GridsFor(viewers, origin, axes, resolution, target.voxel) && outputs == BlanksFor(viewers)
      ensures cache == NextCache(old(cache), Layout.CacheDecision(InitializeCacheByDefault, q.haveSource, q.haveTransform,
                                                                 q.requiresCaching, cacheDisplacements, q.haveTarget))
    {
      Reorient(image, i, j, k, targetOrigin, m);
      assert Framed();
      // `Initialize` sets every flag; `Reset` setting them again changes nothing.
      Initialize(InitializeCacheByDefault, q);
    }

    /** The display axes and origin `Reset` derives from the target. */
    method Reorient(image: Orientation.Axes, i: OrientationCode, j: OrientationCode, k: OrientationCode,
                    targetOrigin: Point, m: Maps)
      modifies this`axes, this`origin
      ensures axes == Orientation.Flip(Orientation.Resolve(old(axes), image, i, j, k, displayMode), flipX, flipY, flipZ)
      ensures origin == Snapped(m, targetOrigin)
    {
      axes := DisplayAxes(axes, image, i, j, k, displayMode, flipX, flipY, flipZ);
      var t := m.worldToTarget(targetOrigin);
      origin := m.targetToWorld(Point(Round(t.x) as real, Round(t.y) as real, Round(t.z) as real));
    }

    /** Fresh colour buffers, one of its size per viewer. */
    method AllocateDrawables()
      modifies this`drawable
      ensures |drawable| == |viewers|
      ensures forall k :: 0 <= k < |drawable| ==>
        fresh(drawable[k]) && drawable[k].Length0 == viewers[k].height && drawable[k].Length1 == viewers[k].width
      ensures forall a, b :: 0 <= a < b < |drawable| ==> drawable[a] != drawable[b]
    {
      var ds: seq<array2<Color>> := [];
      var k := 0;
      while k < |viewers|
        invariant k <= |viewers| && |ds| == k
        invariant forall k' :: 0 <= k' < k ==>
          fresh(ds[k']) && ds[k'].Length0 == viewers[k'].height && ds[k'].Length1 == viewers[k'].width
        invariant forall a, b :: 0 <= a < b < k ==> ds[a] != ds[b]
      {
        var d := new Color[viewers[k].height, viewers[k].width];
        ds := ds + [d];
        k := k + 1;
      }
      drawable := ds;
    }

    /** The new window size and the viewers sized for it (`Resize` 2333-2339). */
    method Rescreen(w: int, h: int, sizeOf: (Viewport, int, int) -> Size)
      requires forall k :: 0 <= k < |viewers| ==> Proper(viewers[k].viewport)
      modifies this`screenX, this`screenY, this`viewers
      ensures screenX == w && screenY == h
      ensures viewers == AfterResize(old(viewers), sizeOf, old(screenX), old(screenY), w, h)
      ensures forall k :: 0 <= k < |viewers| ==> Proper(viewers[k].viewport)
    {
      if w != screenX || h != screenY {
        screenX, screenY := w, h;
        viewers := Resized(viewers, sizeOf, w, h);
      }
    }

    /** `Initialize` followed by a new colour buffer per viewer: the step `Resize` and `Configure` share. */
    method Relayout(q: CacheQuery)
      requires screenX > 0 && screenY > 0 && resolution != 0.0 && |isSourceViewer| == |viewers|
      requires forall k :: 0 <= k < |viewers| ==> Proper(viewers[k].viewport)
      modifies this`grids, this`outputs, this`cache, this`drawable
      modifies this`targetUpdate, this`sourceUpdate, this`segmentationUpdate, this`selectionUpdate
      ensures Valid() && AllDirty()
      ensures grids == GridsFor(viewers, origin, axes, resolution, target.voxel) && outputs == BlanksFor(viewers)
      ensures cache == NextCache(old(cache), Layout.CacheDecision(InitializeCacheByDefault, q.haveSource, q.haveTransform,
                                                                 q.requiresCaching, cacheDisplacements, q.haveTarget))
      ensures forall k :: 0 <= k < |drawable| ==> fresh(drawable[k])
    {
      Initialize(InitializeCacheByDefault, q);
      AllocateDrawables();
    }

    /**
     * A new window size: when it differs, the screen and every viewer's
     * pixel size change; then every viewer is re-initialised, gets a new
     * colour buffer, and `Update` runs, leaving every flag clear.
     */
    method Resize(w: int, h: int, sizeOf: (Viewport, int, int) -> Size, q: CacheQuery,
                  run: (Role, nat) -> seq<seq<int>>, p: Palette)
      requires Valid() && w > 0 && h > 0
      requires forall l :: 0 <= l < |viewers| ==> AfterResize(viewers, sizeOf, screenX, screenY, w, h)[l].width > 0
      requires forall l :: 0 <= l < |viewers| ==> AfterResize(viewers, sizeOf, screenX, screenY, w, h)[l].height > 0
      requires forall role, l :: 0 <= l < |viewers| ==>
        var v := AfterResize(viewers, sizeOf, screenX, screenY, w, h)[l];
        Compositor.IsRaster(run(role, l), v.width, v.height)
      modifies this`screenX, this`screenY, this`viewers, this`grids, this`outputs, this`cache, this`drawable
      modifies this`targetUpdate, this`sourceUpdate, this`segmentationUpdate, this`selectionUpdate
      ensures Valid() && AllClean()
      ensures screenX == w && screenY == h
      ensures viewers == AfterResize(old(viewers), sizeOf, old(screenX), old(screenY), w, h)
      ensures grids == GridsFor(viewers, origin, axes, resolution, target.voxel)
      ensures outputs == RefreshAll(BlanksFor(viewers), run, !target.IsEmpty(), !source.IsEmpty(),
                                    segmentation.Length > 0, |contour.raster| > 0)
      ensures forall k :: 0 <= k < |drawable| ==> fresh(drawable[k])
    {
      Rescreen(w, h, sizeOf);
      // `Initialize` sets every flag; `Resize` setting them first changes nothing.
      Relayout(q);
      Update(run, p);
    }

    /**
     * The viewers are the table's rows before its sentinel, their roles
     * alternate per plane, and a contour open in `contourViewer0` has moved to
     * the last viewer of its plane.
     */
    predicate Arranged(config: seq<Layout.ViewerConfig>, sizeOf: (Viewport, int, int) -> Size, contourViewer0: int)
      requires Layout.Terminated(config)
      reads this`viewers, this`isSourceViewer, this`contourViewer, this`screenX, this`screenY, this`contourViewerMode
    {
      viewers == Configured(config, sizeOf, screenX, screenY)
      && isSourceViewer == Layout.Roles(Modes(viewers))
      && contourViewer == Remapped(contourViewer0, viewers, contourViewerMode)
    }

    /** The viewers, roles and contour viewer `Configure` derives from a layout table. */
    method Arrange(config: seq<Layout.ViewerConfig>, sizeOf: (Viewport, int, int) -> Size)
      requires Layout.Terminated(config) && ProperRows(config)
      modifies this`viewers, this`isSourceViewer, this`contourViewer
      ensures Arranged(config, sizeOf, old(contourViewer))
      ensures forall k :: 0 <= k < |viewers| ==> Proper(viewers[k].viewport)
    {
      var n := Layout.CountViewers(config);
      var vs := BuildViewers(config, n, sizeOf, screenX, screenY);
      var roles := Layout.AssignRoles(Modes(vs));
      viewers, isSourceViewer := vs, roles;
      contourViewer := Layout.RemapContourViewer(Modes(vs), contourViewer, contourViewerMode);
    }

    /**
     * A new layout: as many viewers as rows before the sentinel, each on its
     * row's viewport and plane, with roles alternating per plane; every viewer
     * is initialised and gets a colour buffer; an open contour moves to the
     * last viewer of its plane (or is dropped, -1); every flag is set.
     */
    method Configure(config: seq<Layout.ViewerConfig>, sizeOf: (Viewport, int, int) -> Size, q: CacheQuery)
      requires Layout.Terminated(config) && ProperRows(config)
      requires screenX > 0 && screenY > 0 && resolution != 0.0
      modifies this`viewers, this`isSourceViewer, this`grids, this`outputs, this`drawable, this`contourViewer, this`cache
      modifies this`targetUpdate, this`sourceUpdate, this`segmentationUpdate, this`selectionUpdate
      ensures Valid() && AllDirty()
      ensures Arranged(config, sizeOf, old(contourViewer))
      ensures grids == GridsFor(viewers, origin, axes, resolution, target.voxel) && outputs == BlanksFor(viewers)
      ensures forall k :: 0 <= k < |drawable| ==> fresh(drawable[k])
    {
      // The contour is remapped before rather than after `Initialize`, which
      // does not read it; `Initialize` already sets every flag `Configure`
      // sets again at its end.
      Arrange(config, sizeOf);
      Relayout(q);
    }

    // -------------------------------------------------------------------------
    // Frames, interpolation and the source transformation (2911-3059).

    /** A new target frame: the target is resampled, and the source too when its transformation is applied. */
    method SetTargetFrame(t: int)
      modifies this`targetFrame, this`targetUpdate, this`sourceUpdate
      ensures targetFrame == t && targetUpdate
      ensures sourceUpdate == (old(sourceUpdate) || sourceTransformApply)
    {
      targetFrame := t;
      targetUpdate := true;
      if sourceTransformApply {
        sourceUpdate := true;
      }
    }

    /** A new source frame, lowered to the last frame of the source; the source is resampled. */
    method SetSourceFrame(t: int)
      modifies this`sourceFrame, this`sourceUpdate
      ensures sourceFrame == Controls.ClampSourceFrame(t, source.t) && sourceUpdate
      ensures sourceFrame <= t && (sourceFrame < t <==> t >= source.t)
    {
      var f := t;
      if f >= source.t {
        f := source.t - 1;
      }
      sourceFrame := f;
      sourceUpdate := true;
    }

    /** The interpolation a resampler's class name stands for (`GetTargetInterpolationMode`). */
    function TargetInterpolationMode(): InterpolationMode
      reads this`targetInterpolator
    {
      Controls.InterpolationOf(targetInterpolator)
    }

    function SourceInterpolationMode(): InterpolationMode
      reads this`sourceInterpolator
    {
      Controls.InterpolationOf(sourceInterpolator)
    }

    /**
     * A new target interpolator (`className` is the class the library creates
     * for `value`); the target is resampled. An interpolator named by its
     * mode's key reads back as that mode.
     */
    method SetTargetInterpolationMode(value: InterpolationMode, className: string)
      modifies this`targetInterpolator, this`targetUpdate
      ensures targetInterpolator == className && targetUpdate
      ensures className == Controls.ClassKey(value) ==> TargetInterpolationMode() == value
    {
      targetInterpolator := className;
      targetUpdate := true;
      Controls.InterpolationOfKey(value);
    }

    method SetSourceInterpolationMode(value: InterpolationMode, className: string)
      modifies this`sourceInterpolator, this`sourceUpdate
      ensures sourceInterpolator == className && sourceUpdate
      ensures className == Controls.ClassKey(value) ==> SourceInterpolationMode() == value
    {
      sourceInterpolator := className;
      sourceUpdate := true;
      Controls.InterpolationOfKey(value);
    }

    method SetSourceTransformInvert(value: bool)
      modifies this`sourceTransformInvert, this`sourceUpdate
      ensures sourceTransformInvert == value && sourceUpdate
    {
      sourceTransformInvert := value;
      sourceUpdate := true;
    }

    method SetSourceTransformApply(value: bool)
      modifies this`sourceTransformApply, this`sourceUpdate
      ensures sourceTransformApply == value && sourceUpdate
    {
      sourceTransformApply := value;
      sourceUpdate := true;
    }

    // -------------------------------------------------------------------------
    // Segmentation settings (3449-3467).

    method SegmentationMode(mode: int)
      modifies this`segmentationMode
      ensures segmentationMode == mode
    {
      segmentationMode := mode;
    }

    method SetPaintBrushWidth(width: int)
      modifies this`paintBrushWidth
      ensures paintBrushWidth == width
    {
      paintBrushWidth := width;
    }

    method SetRegionGrowingThresholdMinimum(threshold: int)
      modifies this`regionGrowingMin
      ensures regionGrowingMin == threshold
    {
      regionGrowingMin := threshold;
    }

    method SetRegionGrowingThresholdMaximum(threshold: int)
      modifies this`regionGrowingMax
      ensures regionGrowingMax == threshold
    {
      regionGrowingMax := threshold;
    }
  }
}
