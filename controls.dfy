// The small pieces of viewer control in src/RView.cc: which overlays each
// viewer draws (`Draw` 460-485), the interleaved-to-planar copy of a frame
// grab (`DrawOffscreen` 3090-3097), the interpolation a resampler's class
// name stands for (2976-2994), the function keys (`cb_special` 3158-3208),
// the command each ordinary key stands for (`cb_keyboard` 3228-3446) and the
// clamp of a requested source frame (`SetSourceFrame` 2942).
module Controls {
  import opened Types
  import opened Text
  import Layout

  // ---------------------------------------------------------------------------
  // Overlays per viewer (`Draw` 460-485).

  /** The overlay switches as the user set them. */
  datatype OverlaySettings = OverlaySettings(targetContour: bool, sourceContour: bool,
                                             landmarks: bool, segmentationContours: bool)

  /** What one viewer draws on top of its image. */
  datatype Overlays = Overlays(targetContour: bool, sourceContour: bool,
                               targetLandmarks: bool, sourceLandmarks: bool,
                               correspondences: bool, segmentationContours: bool)

  /**
   * A viewer whose plane no other viewer shows draws every overlay the user
   * switched on; when the plane is shared, the target overlays go to target
   * viewers and the source overlays to source viewers. Correspondences are
   * never drawn.
   */
  function ViewerOverlays(shared: bool, isSource: bool, s: OverlaySettings): Overlays
  {
    if shared then
      Overlays(!isSource && s.targetContour, isSource && s.sourceContour, !isSource, isSource,
               false, !isSource && s.segmentationContours)
    else
      Overlays(s.targetContour, s.sourceContour, true, true, false, s.segmentationContours)
  }

  /**
   * The counting loop over the viewers followed by the per-viewer choice:
   * `plan[k]` is what viewer `k` draws.
   */
  method PlanOverlays(modes: seq<ViewerMode>, isSource: seq<bool>, s: OverlaySettings)
    returns (plan: seq<Overlays>)
    requires |isSource| == |modes|
    ensures |plan| == |modes|
    ensures forall k :: 0 <= k < |modes| ==>
              plan[k] == ViewerOverlays(Layout.CountMode(modes, modes[k]) > 1, isSource[k], s)
  {
    var count := new nat[3](_ => 0);
    var k := 0;
    while k < |modes|
      invariant k <= |modes|
      invariant forall m: ViewerMode :: count[Layout.ModeIndex(m)] == Layout.CountMode(modes[..k], m)
    {
      assert modes[..k + 1][..k] == modes[..k];
      var m := modes[k];
      count[Layout.ModeIndex(m)] := count[Layout.ModeIndex(m)] + 1;
      forall m': ViewerMode
        ensures count[Layout.ModeIndex(m')] == Layout.CountMode(modes[..k + 1], m')
      {
        if m' != m {
          assert Layout.ModeIndex(m') != Layout.ModeIndex(m);
        }
      }
      k := k + 1;
    }
    assert modes[..k] == modes;
    plan := [];
    k := 0;
    while k < |modes|
      invariant k <= |modes| && |plan| == k
      invariant forall i :: 0 <= i < k ==>
                  plan[i] == ViewerOverlays(Layout.CountMode(modes, modes[i]) > 1, isSource[i], s)
    {
      plan := plan + [ViewerOverlays(count[Layout.ModeIndex(modes[k])] > 1, isSource[k], s)];
      k := k + 1;
    }
  }

  /**
   * On a shared plane each viewer draws the landmarks and contours of its own
   * image only, and exactly one of the two landmark sets; on an unshared one
   * it draws both landmark sets and the user's contour choices.
   */
  lemma OverlaysSplitByRole(shared: bool, isSource: bool, s: OverlaySettings)
    ensures var o := ViewerOverlays(shared, isSource, s);
      !o.correspondences
      && (shared ==> o.targetLandmarks != o.sourceLandmarks && o.sourceLandmarks == isSource
                     && (o.targetContour ==> !isSource) && (o.sourceContour ==> isSource)
                     && (o.segmentationContours ==> !isSource))
      && (!shared ==> o.targetLandmarks && o.sourceLandmarks && o.targetContour == s.targetContour
                      && o.sourceContour == s.sourceContour && o.segmentationContours == s.segmentationContours)
      && (o.targetContour ==> s.targetContour) && (o.sourceContour ==> s.sourceContour)
  {
  }

  // ---------------------------------------------------------------------------
  // Frame grab (`DrawOffscreen` 3090-3097).

  /** Channel `c` of an interleaved RGB buffer of `n` pixels. */
  function Plane(buffer: seq<int>, n: nat, c: nat): (p: seq<int>)
    requires |buffer| == 3 * n && c < 3
    ensures |p| == n && forall i :: 0 <= i < n ==> p[i] == buffer[3 * i + c]
  {
    seq(n, i requires 0 <= i < n => buffer[3 * i + c])
  }

  /** The planar layout: all red values, then all green, then all blue. */
  function Planar(buffer: seq<int>, n: nat): seq<int>
    requires |buffer| == 3 * n
  {
    Plane(buffer, n, 0) + Plane(buffer, n, 1) + Plane(buffer, n, 2)
  }

  /** The interleaved layout of a planar image: the inverse of `Planar`. */
  function Interleaved(image: seq<int>, n: nat): (b: seq<int>)
    requires |image| == 3 * n
    ensures |b| == 3 * n
  {
    seq(3 * n, q requires 0 <= q < 3 * n => image[(q % 3) * n + q / 3])
  }

  /** The copy loop, reading the buffer through one running index. */
  method CopyToPlanar(buffer: seq<int>, image: array<int>, n: nat)
    requires |buffer| == 3 * n && image.Length == 3 * n
    modifies image
    ensures image[..] == Planar(buffer, n)
  {
    var index := 0;
    var i := 0;
    while i < n
      invariant i <= n && index == 3 * i
      invariant forall p :: 0 <= p < i ==> image[p] == buffer[3 * p]
      invariant forall p :: 0 <= p < i ==> image[n + p] == buffer[3 * p + 1]
      invariant forall p :: 0 <= p < i ==> image[2 * n + p] == buffer[3 * p + 2]
    {
      image[i] := buffer[index];
      index := index + 1;
      image[i + n] := buffer[index];
      index := index + 1;
      image[i + 2 * n] := buffer[index];
      index := index + 1;
      i := i + 1;
    }
    PlanarFromPlanes(buffer, image[..], n);
  }

  /** An image whose three thirds hold the three channels is the planar layout. */
  lemma PlanarFromPlanes(buffer: seq<int>, image: seq<int>, n: nat)
    requires |buffer| == 3 * n && |image| == 3 * n
    requires forall p :: 0 <= p < n ==> image[p] == buffer[3 * p]
    requires forall p :: 0 <= p < n ==> image[n + p] == buffer[3 * p + 1]
    requires forall p :: 0 <= p < n ==> image[2 * n + p] == buffer[3 * p + 2]
    ensures image == Planar(buffer, n)
  {
    assert image[..n] == Plane(buffer, n, 0);
    assert image[n..2 * n] == Plane(buffer, n, 1);
    assert image[2 * n..] == Plane(buffer, n, 2);
    assert image == image[..n] + image[n..2 * n] + image[2 * n..];
  }

  /** No pixel value is lost or moved between pixels: interleaving the planar copy gives the buffer back. */
  lemma PlanarRoundTrip(buffer: seq<int>, n: nat)
    requires |buffer| == 3 * n
    ensures Interleaved(Planar(buffer, n), n) == buffer
  {
    var p := Planar(buffer, n);
    forall q | 0 <= q < 3 * n
      ensures Interleaved(p, n)[q] == buffer[q]
    {
      var i, c := q / 3, q % 3;
      assert q == 3 * i + c;
      assert c * n + i < 3 * n by {
        assert c <= 2 && i < n;
        assert c * n <= 2 * n;
      }
      PlanarAt(buffer, n, c, i);
    }
  }

  lemma PlanarAt(buffer: seq<int>, n: nat, c: nat, i: nat)
    requires |buffer| == 3 * n && c < 3 && i < n
    ensures c * n + i < 3 * n && Planar(buffer, n)[c * n + i] == buffer[3 * i + c]
  {
    var p := Planar(buffer, n);
    if c == 0 {
    } else if c == 1 {
      assert p[n + i] == Plane(buffer, n, 1)[i];
    } else {
      assert p[2 * n + i] == Plane(buffer, n, 2)[i];
    }
  }

  // ---------------------------------------------------------------------------
  // Interpolation from a resampler's class name (2976-2994).

  const NearestNeighborKey := "NearestNeighborInterpolateImageFunction"
  const LinearKey := "LinearInterpolateImageFunction"
  const BSplineKey := "BSplineInterpolateImageFunction"
  const CSplineKey := "CSplineInterpolateImageFunction"
  const SincKey := "SincInterpolateImageFunction"

  /** The part of a class name `Get*InterpolationMode` looks for. */
  function ClassKey(m: InterpolationMode): string
  {
    match m
    case NN => NearestNeighborKey
    case Linear => LinearKey
    case BSpline => BSplineKey
    case CSpline => CSplineKey
    case Sinc => SincKey
  }

  /** The first key (in the order NN, linear, B-spline, C-spline, sinc) the name contains; NN otherwise. */
  function InterpolationOf(className: string): (m: InterpolationMode)
    ensures m != NN ==> Contains(className, ClassKey(m))
    ensures m != NN ==> !Contains(className, NearestNeighborKey)
  {
    if Contains(className, NearestNeighborKey) then NN
    else if Contains(className, LinearKey) then Linear
    else if Contains(className, BSplineKey) then BSpline
    else if Contains(className, CSplineKey) then CSpline
    else if Contains(className, SincKey) then Sinc
    else NN
  }

  /** Every interpolation is recognised from its own key. */
  lemma InterpolationOfKey(m: InterpolationMode)
    ensures InterpolationOf(ClassKey(m)) == m
  {
    ContainsItself(ClassKey(m));
    match m
    case NN =>
    case Linear =>
      LinearKeyLacks();
      MissingCharAt(LinearKey, NearestNeighborKey, 0);
    case BSpline =>
      BSplineKeyLacks();
      MissingCharAt(BSplineKey, NearestNeighborKey, 0);
      MissingCharAt(BSplineKey, LinearKey, 0);
    case CSpline =>
      CSplineKeyLacks();
      MissingCharAt(CSplineKey, NearestNeighborKey, 0);
      MissingCharAt(CSplineKey, LinearKey, 0);
      MissingCharAt(CSplineKey, BSplineKey, 0);
    case Sinc =>
      SincKeyLacks();
      MissingCharAt(SincKey, NearestNeighborKey, 0);
      MissingCharAt(SincKey, LinearKey, 0);
      MissingCharAt(SincKey, BSplineKey, 0);
      MissingCharAt(SincKey, CSplineKey, 0);
  }

  // Each key lacks the capitals the keys tested before it start with.

  lemma LinearKeyLacks()
    ensures 'N' !in LinearKey
  {
    assert forall i | 0 <= i < |LinearKey| :: LinearKey[i] in {'L', 'I', 'n', 't', 'e', 'r', 'p', 'o', 'l', 'a', 'm', 'g', 'F', 'u', 'c', 'i'};
  }

  lemma BSplineKeyLacks()
    ensures 'N' !in BSplineKey && 'L' !in BSplineKey
  {
    assert forall i | 0 <= i < |BSplineKey| :: BSplineKey[i] in {'B', 'S', 'I', 'n', 't', 'e', 'r', 'p', 'o', 'l', 'a', 'm', 'g', 'F', 'u', 'c', 'i'};
  }

  lemma CSplineKeyLacks()
    ensures 'N' !in CSplineKey && 'L' !in CSplineKey && 'B' !in CSplineKey
  {
    assert forall i | 0 <= i < |CSplineKey| :: CSplineKey[i] in {'C', 'S', 'I', 'n', 't', 'e', 'r', 'p', 'o', 'l', 'a', 'm', 'g', 'F', 'u', 'c', 'i'};
  }

  lemma SincKeyLacks()
    ensures 'N' !in SincKey && 'L' !in SincKey && 'B' !in SincKey && 'C' !in SincKey
  {
    assert forall i | 0 <= i < |SincKey| :: SincKey[i] in {'S', 'I', 'n', 't', 'e', 'r', 'p', 'o', 'l', 'a', 'm', 'g', 'F', 'u', 'c', 'i'};
  }

  // ---------------------------------------------------------------------------
  // Function keys (`cb_special` 3158-3208).

  datatype FunctionKey = F1 | F2 | F3 | F4 | F5 | F6 | F7 | F8 | F9 | F10 | F11 | F12 | OtherKey

  /** The display windows of the two lookup tables and the two contour switches. */
  datatype Window = Window(targetMin: int, targetMax: int, sourceMin: int, sourceMax: int,
                           targetContours: bool, sourceContours: bool)

  /**
   * F1-F4 move the target window's lower and upper bound up and down by
   * `targetDelta`, F5-F8 the source window's by `sourceDelta`, F9 and F10
   * toggle the contours; every other key changes nothing.
   */
  function Special(key: FunctionKey, w: Window, targetDelta: int, sourceDelta: int): Window
  {
    match key
    case F1 => w.(targetMin := w.targetMin + targetDelta)
    case F2 => w.(targetMin := w.targetMin - targetDelta)
    case F3 => w.(targetMax := w.targetMax + targetDelta)
    case F4 => w.(targetMax := w.targetMax - targetDelta)
    case F5 => w.(sourceMin := w.sourceMin + sourceDelta)
    case F6 => w.(sourceMin := w.sourceMin - sourceDelta)
    case F7 => w.(sourceMax := w.sourceMax + sourceDelta)
    case F8 => w.(sourceMax := w.sourceMax - sourceDelta)
    case F9 => w.(targetContours := !w.targetContours)
    case F10 => w.(sourceContours := !w.sourceContours)
    case _ => w
  }

  /** The key that undoes each key: F1/F2, F3/F4, F5/F6 and F7/F8 pair up; the rest undo themselves. */
  function Opposite(key: FunctionKey): FunctionKey
  {
    match key
    case F1 => F2
    case F2 => F1
    case F3 => F4
    case F4 => F3
    case F5 => F6
    case F6 => F5
    case F7 => F8
    case F8 => F7
    case _ => key
  }

  /** Pressing a key and then its opposite, with the same deltas, restores the window. */
  lemma SpecialUndo(key: FunctionKey, w: Window, targetDelta: int, sourceDelta: int)
    ensures Special(Opposite(key), Special(key, w, targetDelta, sourceDelta), targetDelta, sourceDelta) == w
  {
  }

  /**
   * Each target key touches only the target window and each source key only
   * the source window; the contour keys touch no bound.
   */
  lemma SpecialSeparates(key: FunctionKey, w: Window, targetDelta: int, sourceDelta: int)
    ensures var r := Special(key, w, targetDelta, sourceDelta);
      (key in {F1, F2, F3, F4} ==> r.sourceMin == w.sourceMin && r.sourceMax == w.sourceMax)
      && (key in {F5, F6, F7, F8} ==> r.targetMin == w.targetMin && r.targetMax == w.targetMax)
      && (key in {F9, F10} ==> r.(targetContours := w.targetContours, sourceContours := w.sourceContours) == w)
      && (key in {F11, F12, OtherKey} ==> r == w)
      && r.targetMax - r.targetMin - (w.targetMax - w.targetMin)
         == (match key case F2 => 1 case F3 => 1 case F1 => -1 case F4 => -1 case _ => 0) * targetDelta
  {
  }

  // ---------------------------------------------------------------------------
  // Ordinary keys (`cb_keyboard` 3228-3446).

  datatype ZoomStep = Double | Halve | TimesRootTwo | OverRootTwo

  /** What an ordinary key asks the viewer to do. */
  datatype Command =
    | Quit
    | ResetView
    | ResetRoi
    | Interpolate(mode: InterpolationMode)
    | ShowView(view: ViewMode)
    | ToggleCursor
    | ShowCursor(cursor: CursorMode)
    | MoveOrigin(voxel: Point)
    | GoToFrame(frame: int)
    | ToggleDeformationGrid | ToggleDeformationPoints | ToggleDeformationArrows | ToggleLandmarks
    | ToggleObject | ToggleObjectWarp | ToggleObjectGrid
    | Zoom(step: ZoomStep)
    | Nothing

  /**
   * One voxel step along an axis: the coordinate moves by `step`, is raised to
   * 0 when negative and lowered to `clampTo - 1` when it reaches `testAgainst`.
   */
  function Nudge(v: real, step: int, testAgainst: int, clampTo: int): real
  {
    var w := v + step as real;
    var w1 := if w < 0.0 then 0.0 else w;
    if w1 >= testAgainst as real then (clampTo - 1) as real else w1
  }

  /**
   * The frame after stepping by `step`: below 0 wraps to the last frame, at or
   * past the frame count wraps to 0.
   */
  function WrapFrame(t: int, step: int, frames: int): int
  {
    var u := t + step;
    var u1 := if u < 0 then frames - 1 else u;
    if u1 >= frames then 0 else u1
  }

  /**
   * The command of `key`, given the origin in target voxel coordinates, the
   * target's size and frame count, the current frame, and whether the build
   * has the object display keys.
   */
  function KeyCommand(key: char, voxel: Point, sizeX: int, sizeY: int, sizeZ: int,
                      frame: int, frames: int, vtk: bool): Command
  {
    match key
    case '\U{1B}' => Quit
    case 'q' => Quit
    case 'r' => ResetView
    case 'i' => ResetRoi
    case 'l' => Interpolate(Linear)
    case 'n' => Interpolate(NN)
    case 'c' => Interpolate(CSpline)
    case 'b' => Interpolate(BSpline)
    case 'S' => Interpolate(Sinc)
    case 't' => ShowView(ViewA)
    case 's' => ShowView(ViewB)
    case 'm' => ShowView(Checkerboard)
    case 'd' => ShowView(Subtraction)
    case ' ' => ToggleCursor
    case 'h' => ShowCursor(CrossHair)
    case 'v' => ShowCursor(CursorV)
    case 'B' => ShowCursor(CursorBar)
    case 'x' => MoveOrigin(voxel.(x := Nudge(voxel.x, -1, sizeX, sizeX)))
    case 'X' => MoveOrigin(voxel.(x := Nudge(voxel.x, 1, sizeX, sizeX)))
    case 'y' => MoveOrigin(voxel.(y := Nudge(voxel.y, -1, sizeX, sizeY)))
    case 'Y' => MoveOrigin(voxel.(y := Nudge(voxel.y, 1, sizeX, sizeY)))
    case 'z' => MoveOrigin(voxel.(z := Nudge(voxel.z, -1, sizeX, sizeZ)))
    case 'Z' => MoveOrigin(voxel.(z := Nudge(voxel.z, 1, sizeX, sizeZ)))
    case '+' => GoToFrame(WrapFrame(frame, 1, frames))
    case '-' => GoToFrame(WrapFrame(frame, -1, frames))
    case 'g' => ToggleDeformationGrid
    case 'p' => ToggleDeformationPoints
    case 'a' => ToggleDeformationArrows
    case 'L' => ToggleLandmarks
    case 'O' => if vtk then ToggleObject else Nothing
    case 'W' => if vtk then ToggleObjectWarp else Nothing
    case 'G' => if vtk then ToggleObjectGrid else Nothing
    case '>' => Zoom(Double)
    case '<' => Zoom(Halve)
    case '.' => Zoom(TimesRootTwo)
    case ',' => Zoom(OverRootTwo)
    case _ => Nothing
  }

  /**
   * Stepping through the frames of a non-empty series stays within it and
   * cycles: from the last frame `+` goes to the first, from the first `-` goes
   * to the last, and otherwise the frame moves by one.
   */
  lemma FrameWrapCycles(t: int, frames: int)
    requires 0 <= t < frames
    ensures 0 <= WrapFrame(t, 1, frames) < frames && 0 <= WrapFrame(t, -1, frames) < frames
    ensures WrapFrame(t, 1, frames) == (t + 1) % frames
    ensures WrapFrame(t, -1, frames) == (t - 1) % frames
    ensures WrapFrame(WrapFrame(t, 1, frames), -1, frames) == t
  {
  }

  /**
   * Along `x` a nudge keeps the origin inside the image, and away from the
   * edges it moves by exactly one voxel.
   */
  lemma NudgeXStays(v: real, step: int, sizeX: int)
    requires sizeX >= 1
    ensures 0.0 <= Nudge(v, step, sizeX, sizeX) < sizeX as real
    ensures 0.0 <= v + step as real < sizeX as real ==> Nudge(v, step, sizeX, sizeX) == v + step as real
  {
  }

  /**
   * Along `y` and `z` the upper bound is tested against the image's `x` size:
   * in an image wider than it is high a step can leave the image, and in one
   * higher than it is wide a step can jump over rows.
   */
  lemma NudgeTestsWidth()
    ensures KeyCommand('Y', Point(0.0, 1.0, 0.0), 4, 2, 1, 0, 1, false) == MoveOrigin(Point(0.0, 2.0, 0.0))
    ensures KeyCommand('Y', Point(0.0, 1.0, 0.0), 2, 4, 1, 0, 1, false) == MoveOrigin(Point(0.0, 3.0, 0.0))
  {
  }

  // ---------------------------------------------------------------------------
  // Source frame (`SetSourceFrame` 2942).

  /** A requested source frame past the last is lowered to the last; nothing is raised. */
  function ClampSourceFrame(t: int, frames: int): (r: int)
    ensures r <= t && (r < t <==> t >= frames)
    ensures frames >= 1 && t >= 0 ==> 0 <= r < frames
  {
    if t >= frames then frames - 1 else t
  }
}
