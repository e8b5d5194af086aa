// Mapping a mouse position to a viewport (src/RView.cc 580-597, 635-650,
// 739-754, 2584-2601, 2631-2649): the window pixel is normalised, every
// viewport is tested in order with a half-open rectangle test, and a hit is
// converted to the viewport's own pixel coordinates. The loops never break,
// so a later viewport that also matches wins.
module Screen {
  import opened Types

  /** A viewport rectangle in normalised window coordinates, lower left to upper right. */
  datatype Viewport = Viewport(x1: real, y1: real, x2: real, y2: real)

  /** What the model sees of one `Viewer`: its rectangle, its size in pixels and its slice plane. */
  datatype Viewer = Viewer(viewport: Viewport, width: nat, height: nat, mode: ViewerMode)

  /**
   * Window pixel `(i, j)`, counted from the top left, in normalised
   * coordinates: `x` grows to the right, `y` upward, and the window spans
   * [0, 1] in both.
   */
  function Normalised(i: int, j: int, screenX: int, screenY: int): (p: Point)
    requires screenX > 0 && screenY > 0
    ensures p.z == 0.0
    ensures 0 <= i <= screenX ==> 0.0 <= p.x <= 1.0
    ensures 0 <= j <= screenY ==> 0.0 <= p.y <= 1.0
    ensures j == 0 ==> p.y == 1.0
    ensures j == screenY ==> p.y == 0.0
  {
    Point(i as real / screenX as real, (screenY - j) as real / screenY as real, 0.0)
  }

  /** The half-open test `x1 <= x < x2 && y1 <= y < y2`. */
  predicate Inside(v: Viewport, x: real, y: real)
  {
    v.x1 <= x < v.x2 && v.y1 <= y < v.y2
  }

  /** A viewport that spans some width and some height. */
  predicate Proper(v: Viewport)
  {
    v.x1 < v.x2 && v.y1 < v.y2
  }

  /**
   * A point in the pixel coordinates of a `width` by `height` viewer showing
   * viewport `v`; a point inside the viewport lands inside the viewer.
   */
  function ToLocal(v: Viewport, x: real, y: real, width: nat, height: nat): (p: Point)
    requires Proper(v)
    ensures p.z == 0.0
    ensures Inside(v, x, y) ==> 0.0 <= p.x < width as real || width == 0
    ensures Inside(v, x, y) ==> 0.0 <= p.y < height as real || height == 0
  {
    LocalAxis(v.x1, x, v.x2, width);
    LocalAxis(v.y1, y, v.y2, height);
    Point((x - v.x1) / (v.x2 - v.x1) * width as real, (y - v.y1) / (v.y2 - v.y1) * height as real, 0.0)
  }

  lemma LocalAxis(lo: real, x: real, hi: real, n: nat)
    requires lo < hi
    ensures lo <= x < hi ==> 0.0 <= (x - lo) / (hi - lo) * n as real < n as real || n == 0
  {
    if lo <= x < hi {
      LocalAxisInside(lo, x, hi, n);
    }
  }

  lemma LocalAxisInside(lo: real, x: real, hi: real, n: nat)
    requires lo <= x < hi
    ensures 0.0 <= (x - lo) / (hi - lo) * n as real < n as real || n == 0
  {
    var d := hi - lo;
    var f := (x - lo) / d;
    assert 0.0 * d <= f * d < 1.0 * d;
    assert 0.0 <= f < 1.0;
    if n > 0 {
      assert f * n as real < 1.0 * n as real;
    }
  }

  // ---------------------------------------------------------------------------
  // The viewport loops.

  /** The index of the last viewport of `vs` containing `(x, y)`. */
  function LastHit(vs: seq<Viewer>, x: real, y: real): (r: Option<nat>)
    ensures r.Some? ==> r.value < |vs| && Inside(vs[r.value].viewport, x, y)
  {
    if |vs| == 0 then None
    else if Inside(vs[|vs| - 1].viewport, x, y) then Some(|vs| - 1)
    else LastHit(vs[..|vs| - 1], x, y)
  }

  /**
   * `LastHit` finds a viewport exactly when some viewport contains the point,
   * and no later viewport contains it.
   */
  lemma {:induction false} LastHitIsLast(vs: seq<Viewer>, x: real, y: real)
    ensures LastHit(vs, x, y).None? <==> forall k :: 0 <= k < |vs| ==> !Inside(vs[k].viewport, x, y)
    ensures LastHit(vs, x, y).Some? ==>
      forall k :: LastHit(vs, x, y).value < k < |vs| ==> !Inside(vs[k].viewport, x, y)
  {
    if |vs| > 0 && !Inside(vs[|vs| - 1].viewport, x, y) {
      var front := vs[..|vs| - 1];
      LastHitIsLast(front, x, y);
      assert forall k :: 0 <= k < |front| ==> front[k] == vs[k];
    }
  }

  /** One more viewport at the end of the list: it wins when it contains the point. */
  lemma LastHitStep(vs: seq<Viewer>, k: nat, x: real, y: real)
    requires k < |vs|
    ensures LastHit(vs[..k + 1], x, y)
            == if Inside(vs[k].viewport, x, y) then Some(k) else LastHit(vs[..k], x, y)
  {
    assert vs[..k + 1][..k] == vs[..k];
  }

  /**
   * Most of the viewport loops convert the probe point itself when they find
   * a viewport, so the viewports after a hit are tested against the converted
   * point. `Scan` runs such a loop from viewport `k` on, over a loop state of
   * type `S`: `at(s)` is the point tested, `step(k, s)` the state after a hit
   * in viewport `k`.
   */
  function Scan<S(!new)>(vs: seq<Viewer>, k: nat, s: S, at: S -> Point, step: (nat, S) --> S): S
    requires forall m, t :: k <= m < |vs| ==> step.requires(m, t)
    decreases |vs| - k
  {
    if k >= |vs| then s
    else if Inside(vs[k].viewport, at(s).x, at(s).y) then Scan(vs, k + 1, step(k, s), at, step)
    else Scan(vs, k + 1, s, at, step)
  }

  /** A point outside every viewport passes the loop untouched. */
  lemma {:induction false} ScanMisses<S(!new)>(vs: seq<Viewer>, k: nat, s: S, at: S -> Point, step: (nat, S) --> S)
    requires forall m, t :: k <= m < |vs| ==> step.requires(m, t)
    requires forall m :: k <= m < |vs| ==> !Inside(vs[m].viewport, at(s).x, at(s).y)
    ensures Scan(vs, k, s, at, step) == s
    decreases |vs| - k
  {
    if k < |vs| {
      ScanMisses(vs, k + 1, s, at, step);
    }
  }

  /**
   * A hit whose converted point lies outside every later viewport decides the
   * loop: the result is that conversion.
   */
  lemma ScanSettles<S(!new)>(vs: seq<Viewer>, k: nat, s: S, at: S -> Point, step: (nat, S) --> S)
    requires forall m, t :: k <= m < |vs| ==> step.requires(m, t)
    requires k < |vs| && Inside(vs[k].viewport, at(s).x, at(s).y)
    requires forall m :: k < m < |vs| ==> !Inside(vs[m].viewport, at(step(k, s)).x, at(step(k, s)).y)
    ensures Scan(vs, k, s, at, step) == step(k, s)
  {
    ScanMisses(vs, k + 1, step(k, s), at, step);
  }

  /**
   * When no viewport before `k` contains the point, the loop from the start
   * is the loop from `k`.
   */
  lemma {:induction false} ScanSkips<S(!new)>(vs: seq<Viewer>, k: nat, s: S, at: S -> Point, step: (nat, S) --> S)
    requires forall m, t :: 0 <= m < |vs| ==> step.requires(m, t)
    requires k <= |vs|
    requires forall m :: 0 <= m < k ==> !Inside(vs[m].viewport, at(s).x, at(s).y)
    ensures Scan(vs, 0, s, at, step) == Scan(vs, k, s, at, step)
  {
    if k > 0 {
      ScanSkips(vs, k - 1, s, at, step);
    }
  }
}
