// The bookkeeping of `Configure` (src/RView.cc 2364-2492) and `Initialize`
// (2789-2909): how many viewers a layout table has, which of them show the
// source first, where an open contour moves to, and how each viewer's output
// grid and intensity scaling are derived.
module Layout {
  import opened Types
  import opened Orientation

  /** One row of a layout table: a viewport rectangle and the slice plane shown there. */
  datatype ViewerConfig = ViewerConfig(xmin: real, ymin: real, xmax: real, ymax: real, mode: ViewerMode)

  /** The table ends at its first row with a negative `xmin`. */
  predicate Terminated(config: seq<ViewerConfig>)
  {
    exists i :: 0 <= i < |config| && config[i].xmin < 0.0
  }

  /** The number of viewers of a terminated table: the index of its first sentinel row. */
  function ViewerCount(config: seq<ViewerConfig>): (n: nat)
    requires Terminated(config)
    ensures n < |config| && config[n].xmin < 0.0
    ensures forall i :: 0 <= i < n ==> config[i].xmin >= 0.0
  {
    if config[0].xmin < 0.0 then 0
    else
      assert Terminated(config[1..]) by {
        var i :| 0 <= i < |config| && config[i].xmin < 0.0;
        assert config[1..][i - 1] == config[i];
      }
      1 + ViewerCount(config[1..])
  }

  /** `for (i = 0; config[i].xmin >= 0; i++);` */
  method CountViewers(config: seq<ViewerConfig>) returns (n: nat)
    requires Terminated(config)
    ensures n == ViewerCount(config)
  {
    n := 0;
    while config[n].xmin >= 0.0
      invariant n <= ViewerCount(config)
      invariant forall i :: 0 <= i < n ==> config[i].xmin >= 0.0
      decreases ViewerCount(config) - n
    {
      n := n + 1;
    }
    FirstSentinelUnique(config, n);
  }

  /** Two rows that both start the run of sentinels are the same row. */
  lemma FirstSentinelUnique(config: seq<ViewerConfig>, n: nat)
    requires Terminated(config) && n < |config| && config[n].xmin < 0.0
    requires forall i :: 0 <= i < n ==> config[i].xmin >= 0.0
    ensures n == ViewerCount(config)
  {
  }

  function ModeIndex(m: ViewerMode): (k: nat)
    ensures k < 3
  {
    match m
    case ViewerXY => 0
    case ViewerXZ => 1
    case ViewerYZ => 2
  }

  /** How many of the viewers in `modes` show plane `m`. */
  function CountMode(modes: seq<ViewerMode>, m: ViewerMode): nat
  {
    if |modes| == 0 then 0
    else CountMode(modes[..|modes| - 1], m) + if modes[|modes| - 1] == m then 1 else 0
  }

  /**
   * The roles `Configure` hands out: within each slice plane the first,
   * third, ... viewer is a target viewer and the second, fourth, ... a source
   * viewer.
   */
  function Roles(modes: seq<ViewerMode>): (r: seq<bool>)
    ensures |r| == |modes|
    ensures forall i :: 0 <= i < |modes| ==> r[i] == (CountMode(modes[..i], modes[i]) % 2 == 1)
  {
    seq(|modes|, i requires 0 <= i < |modes| => CountMode(modes[..i], modes[i]) % 2 == 1)
  }

  /**
   * The role loop of `Configure`: one flag per slice plane, read into
   * `_isSourceViewer[i]` and then toggled.
   */
  method AssignRoles(modes: seq<ViewerMode>) returns (isSource: seq<bool>)
    ensures isSource == Roles(modes)
  {
    var sourceViewer := new bool[3](_ => false);
    isSource := [];
    var i := 0;
    while i < |modes|
      invariant i <= |modes| && isSource == Roles(modes[..i])
      invariant sourceViewer[0] == (CountMode(modes[..i], ViewerXY) % 2 == 1)
      invariant sourceViewer[1] == (CountMode(modes[..i], ViewerXZ) % 2 == 1)
      invariant sourceViewer[2] == (CountMode(modes[..i], ViewerYZ) % 2 == 1)
    {
      var m := modes[i];
      ToggleStep(modes, i, sourceViewer[0], sourceViewer[1], sourceViewer[2]);
      RolesSnoc(modes, i);
      isSource := isSource + [sourceViewer[ModeIndex(m)]];
      sourceViewer[ModeIndex(m)] := !sourceViewer[ModeIndex(m)];
      i := i + 1;
    }
    assert modes[..i] == modes;
  }

  /**
   * The three per-plane flags track the parity of each plane's count: the
   * flag read is the new viewer's role, and toggling it keeps the parities
   * right for the longer prefix.
   */
  lemma ToggleStep(modes: seq<ViewerMode>, i: nat, xy: bool, xz: bool, yz: bool)
    requires i < |modes|
    requires xy == (CountMode(modes[..i], ViewerXY) % 2 == 1)
    requires xz == (CountMode(modes[..i], ViewerXZ) % 2 == 1)
    requires yz == (CountMode(modes[..i], ViewerYZ) % 2 == 1)
    ensures [xy, xz, yz][ModeIndex(modes[i])] == (CountMode(modes[..i], modes[i]) % 2 == 1)
    ensures (if ModeIndex(modes[i]) == 0 then !xy else xy) == (CountMode(modes[..i + 1], ViewerXY) % 2 == 1)
    ensures (if ModeIndex(modes[i]) == 1 then !xz else xz) == (CountMode(modes[..i + 1], ViewerXZ) % 2 == 1)
    ensures (if ModeIndex(modes[i]) == 2 then !yz else yz) == (CountMode(modes[..i + 1], ViewerYZ) % 2 == 1)
  {
    CountModeSnoc(modes, i, ViewerXY);
    CountModeSnoc(modes, i, ViewerXZ);
    CountModeSnoc(modes, i, ViewerYZ);
  }

  /** Extending a prefix by one viewer counts that viewer's plane once more. */
  lemma CountModeSnoc(modes: seq<ViewerMode>, i: nat, m: ViewerMode)
    requires i < |modes|
    ensures CountMode(modes[..i + 1], m) == CountMode(modes[..i], m) + if modes[i] == m then 1 else 0
  {
    assert modes[..i + 1][..i] == modes[..i];
  }

  /** The roles of a longer prefix extend those of the shorter one by the new viewer's role. */
  lemma RolesSnoc(modes: seq<ViewerMode>, i: nat)
    requires i < |modes|
    ensures Roles(modes[..i + 1]) == Roles(modes[..i]) + [CountMode(modes[..i], modes[i]) % 2 == 1]
  {
    var p, q := modes[..i + 1], modes[..i];
    var r := Roles(q) + [CountMode(q, modes[i]) % 2 == 1];
    forall k | 0 <= k < |p|
      ensures Roles(p)[k] == r[k]
    {
      assert p[..k] == modes[..k];
      assert k < i ==> q[..k] == modes[..k] && q[k] == p[k];
    }
  }

  /**
   * Two viewers of the same plane with none of that plane between them have
   * opposite roles.
   */
  lemma RolesAlternate(modes: seq<ViewerMode>, i: nat, j: nat)
    requires i < j < |modes| && modes[i] == modes[j]
    requires forall k :: i < k < j ==> modes[k] != modes[i]
    ensures Roles(modes)[j] == !Roles(modes)[i]
  {
    CountModeGap(modes, i, j);
  }

  lemma {:induction false} CountModeGap(modes: seq<ViewerMode>, i: nat, j: nat)
    requires i < j <= |modes|
    requires forall k :: i < k < j ==> modes[k] != modes[i]
    ensures CountMode(modes[..j], modes[i]) == CountMode(modes[..i], modes[i]) + 1
    decreases j
  {
    var p := modes[..j];
    assert p[..j - 1] == modes[..j - 1];
    if j - 1 > i {
      CountModeGap(modes, i, j - 1);
    } else {
      assert p[j - 1] == modes[i];
    }
  }

  /** The first viewer of each plane is a target viewer. */
  lemma FirstOfPlaneIsTarget(modes: seq<ViewerMode>, i: nat)
    requires i < |modes| && forall k :: 0 <= k < i ==> modes[k] != modes[i]
    ensures !Roles(modes)[i]
  {
    CountModeNone(modes[..i], modes[i]);
  }

  lemma {:induction false} CountModeNone(modes: seq<ViewerMode>, m: ViewerMode)
    requires forall k :: 0 <= k < |modes| ==> modes[k] != m
    ensures CountMode(modes, m) == 0
  {
    if |modes| > 0 {
      CountModeNone(modes[..|modes| - 1], m);
    }
  }

  /** The last viewer of plane `m`, or -1 when there is none. */
  function LastOfMode(modes: seq<ViewerMode>, m: ViewerMode): (r: int)
    ensures -1 <= r < |modes|
    ensures r >= 0 ==> modes[r] == m
    ensures forall k :: r < k < |modes| ==> modes[k] != m
  {
    if |modes| == 0 then -1
    else if modes[|modes| - 1] == m then |modes| - 1
    else LastOfMode(modes[..|modes| - 1], m)
  }

  /**
   * After reconfiguring, an open contour moves to the last viewer that shows
   * its plane, or is dropped (-1) when no viewer does; without an open
   * contour nothing changes.
   */
  method RemapContourViewer(modes: seq<ViewerMode>, contourViewer: int, contourMode: ViewerMode)
    returns (r: int)
    ensures contourViewer == -1 ==> r == -1
    ensures contourViewer != -1 ==> r == LastOfMode(modes, contourMode)
  {
    r := contourViewer;
    if r != -1 {
      r := -1;
      var i := 0;
      while i < |modes|
        invariant i <= |modes|
        invariant r == LastOfMode(modes[..i], contourMode)
      {
        assert modes[..i + 1][..i] == modes[..i];
        if modes[i] == contourMode {
          r := i;
        }
        i := i + 1;
      }
      assert modes[..i] == modes;
    }
  }

  /** `LastOfMode` finds a viewer exactly when one shows the plane. */
  lemma LastOfModeFinds(modes: seq<ViewerMode>, m: ViewerMode)
    ensures LastOfMode(modes, m) == -1 <==> m !in modes
  {
    if m in modes {
      var k :| 0 <= k < |modes| && modes[k] == m;
      assert LastOfMode(modes, m) >= k;
    }
  }

  // ---------------------------------------------------------------------------
  // The output grid of one viewer (`Initialize`).

  /** The axes and spacing of a viewer's output image. */
  datatype Slice = Slice(axes: Axes, dx: real, dy: real, dz: real)

  /** The target image's voxel size along its three axes. */
  datatype VoxelSize = VoxelSize(x: real, y: real, z: real)

  /**
   * A viewer of plane `mode` shows the display axes in the plane, with
   * `1 / resolution` world units per pixel, and the remaining display axis as
   * the slice normal, with the target's voxel size along it.
   */
  function SliceOf(mode: ViewerMode, a: Axes, resolution: real, size: VoxelSize): Slice
    requires resolution != 0.0
  {
    match mode
    case ViewerXY => Slice(Axes(a.x, a.y, a.z), 1.0 / resolution, 1.0 / resolution, size.z)
    case ViewerXZ => Slice(Axes(a.x, a.z, a.y), 1.0 / resolution, 1.0 / resolution, size.y)
    case ViewerYZ => Slice(Axes(a.y, a.z, a.x), 1.0 / resolution, 1.0 / resolution, size.x)
  }

  /**
   * Every plane shows two display axes and looks along the third: its three
   * axes are the display axes, each once, and its normal is the one the plane
   * name leaves out; in-plane pixels are square.
   */
  lemma SliceAxesPermute(mode: ViewerMode, a: Axes, resolution: real, size: VoxelSize)
    requires resolution != 0.0
    ensures var s := SliceOf(mode, a, resolution, size);
      multiset{s.axes.x, s.axes.y, s.axes.z} == multiset{a.x, a.y, a.z}
      && s.dx == s.dy && s.dx * resolution == 1.0
      && (mode == ViewerXY ==> s.axes.z == a.z && s.dz == size.z)
      && (mode == ViewerXZ ==> s.axes.z == a.y && s.dz == size.y)
      && (mode == ViewerYZ ==> s.axes.z == a.x && s.dz == size.x)
  {
  }

  // ---------------------------------------------------------------------------
  // Intensity scaling (`Initialize`, 2851-2856).

  /** Grey values are rescaled so that the image's `[min, max]` becomes `[0, 10000]`. */
  function ScaleFactor(min: real, max: real): real
    requires max != min
  {
    10000.0 / (max - min)
  }

  function Offset(min: real, max: real): real
    requires max != min
  {
    -min * 10000.0 / (max - min)
  }

  /** The rescaling maps the image's minimum to 0 and its maximum to 10000. */
  lemma ScalingEnds(min: real, max: real)
    requires max != min
    ensures ScaleFactor(min, max) * min + Offset(min, max) == 0.0
    ensures ScaleFactor(min, max) * max + Offset(min, max) == 10000.0
  {
    var d := max - min;
    assert ScaleFactor(min, max) * max + Offset(min, max) == 10000.0 * (max - min) / d;
  }

  // ---------------------------------------------------------------------------
  // The displacement cache (`Initialize`, 2874-2907).

  /** What happens to the source transformation's displacement cache. */
  datatype CacheStep =
    | Untouched                        // `Initialize(false)`
    | Rebuild(fromTarget: bool)        // allocated on the target's (or source's) grid and marked modified
    | Cleared

  function CacheDecision(initializeCache: bool, haveSource: bool, haveTransform: bool,
                         requiresCaching: bool, cacheEnabled: bool, haveTarget: bool): (r: CacheStep)
    ensures r.Rebuild? <==> initializeCache && haveSource && haveTransform && requiresCaching && cacheEnabled
    ensures r.Untouched? <==> !initializeCache
    ensures r.Rebuild? ==> r.fromTarget == haveTarget
  {
    if !initializeCache then Untouched
    else if haveSource && haveTransform && requiresCaching && cacheEnabled then Rebuild(haveTarget)
    else Cleared
  }
}
