// The display axes `Reset` derives from the target image (src/RView.cc
// 2053-2309): in native mode the image axes are shown as they are; otherwise
// each image axis is placed in the display slot its anatomical direction
// belongs to, negated where the display convention asks for it, and the
// requested flips negate whole display axes afterwards.
module Orientation {
  import opened Types

  /** The three display axes `_xaxis`, `_yaxis`, `_zaxis`. */
  datatype Axes = Axes(x: Point, y: Point, z: Point)

  /** The display slot an anatomical direction belongs to. */
  datatype Slot = SlotX | SlotY | SlotZ

  function SlotOf(code: OrientationCode): Option<Slot>
  {
    match code
    case L2R => Some(SlotX)
    case R2L => Some(SlotX)
    case P2A => Some(SlotY)
    case A2P => Some(SlotY)
    case I2S => Some(SlotZ)
    case S2I => Some(SlotZ)
    case Unknown => None
  }

  /**
   * Whether an image axis pointing in direction `code` is shown negated: a
   * neurological display negates left-to-right, a radiological one
   * right-to-left, and both negate anterior-to-posterior and
   * superior-to-inferior.
   */
  predicate Negated(code: OrientationCode, mode: DisplayMode)
  {
    match code
    case L2R => mode == Neurological
    case R2L => mode == Radiological
    case A2P => true
    case S2I => true
    case _ => false
  }

  function Signed(v: Point, negate: bool): Point
  {
    if negate then v.Neg() else v
  }

  /** One `switch` of `Reset`: the image axis `v` with direction `code` placed into `axes`. */
  function Place(axes: Axes, code: OrientationCode, v: Point, mode: DisplayMode): (r: Axes)
    ensures SlotOf(code) != Some(SlotX) ==> r.x == axes.x
    ensures SlotOf(code) != Some(SlotY) ==> r.y == axes.y
    ensures SlotOf(code) != Some(SlotZ) ==> r.z == axes.z
  {
    match code
    case L2R => axes.(x := if mode == Neurological then v.Neg() else v)
    case R2L => axes.(x := if mode == Neurological then v else v.Neg())
    case P2A => axes.(y := v)
    case A2P => axes.(y := v.Neg())
    case I2S => axes.(z := v)
    case S2I => axes.(z := v.Neg())
    case Unknown => axes
  }

  /**
   * The display axes before flipping, from the current ones, the image axes
   * and the directions `i`, `j`, `k` of the image's three axes.
   */
  function Resolve(current: Axes, image: Axes, i: OrientationCode, j: OrientationCode, k: OrientationCode,
                   mode: DisplayMode): Axes
  {
    if mode == Native then image
    else Place(Place(Place(current, i, image.x, mode), j, image.y, mode), k, image.z, mode)
  }

  /** The requested flips, each negating one display axis. */
  function Flip(a: Axes, flipX: bool, flipY: bool, flipZ: bool): (r: Axes)
    ensures r.x == Signed(a.x, flipX) && r.y == Signed(a.y, flipY) && r.z == Signed(a.z, flipZ)
  {
    Axes(if flipX then a.x.Neg() else a.x, if flipY then a.y.Neg() else a.y, if flipZ then a.z.Neg() else a.z)
  }

  /** The image's three directions name the three display slots once each. */
  predicate Proper(i: OrientationCode, j: OrientationCode, k: OrientationCode)
  {
    SlotOf(i).Some? && SlotOf(j).Some? && SlotOf(k).Some?
    && SlotOf(i) != SlotOf(j) && SlotOf(j) != SlotOf(k) && SlotOf(i) != SlotOf(k)
  }

  /**
   * `Place` puts the signed axis into its slot: the slot's new value is the
   * image axis, negated exactly when the convention asks for it.
   */
  lemma PlaceSigned(axes: Axes, code: OrientationCode, v: Point, mode: DisplayMode)
    requires mode != Native
    ensures SlotOf(code) == Some(SlotX) ==> Place(axes, code, v, mode).x == Signed(v, Negated(code, mode))
    ensures SlotOf(code) == Some(SlotY) ==> Place(axes, code, v, mode).y == Signed(v, Negated(code, mode))
    ensures SlotOf(code) == Some(SlotZ) ==> Place(axes, code, v, mode).z == Signed(v, Negated(code, mode))
  {
  }

  /** Which image axis ends up in display slot `s` under a proper orientation. */
  function AxisFor(s: Slot, image: Axes, i: OrientationCode, j: OrientationCode, k: OrientationCode,
                   mode: DisplayMode): Point
  {
    if SlotOf(i) == Some(s) then Signed(image.x, Negated(i, mode))
    else if SlotOf(j) == Some(s) then Signed(image.y, Negated(j, mode))
    else Signed(image.z, Negated(k, mode))
  }

  /**
   * Under a proper orientation the three switches fill every display slot with
   * the signed image axis that points that way, whatever the axes were before.
   */
  lemma ProperResolves(current: Axes, image: Axes, i: OrientationCode, j: OrientationCode, k: OrientationCode,
                       mode: DisplayMode)
    requires mode != Native && Proper(i, j, k)
    ensures Resolve(current, image, i, j, k, mode)
            == Axes(AxisFor(SlotX, image, i, j, k, mode), AxisFor(SlotY, image, i, j, k, mode),
                    AxisFor(SlotZ, image, i, j, k, mode))
  {
    var a1 := Place(current, i, image.x, mode);
    var a2 := Place(a1, j, image.y, mode);
    PlaceSigned(current, i, image.x, mode);
    PlaceSigned(a1, j, image.y, mode);
    PlaceSigned(a2, k, image.z, mode);
  }

  /**
   * The neurological and the radiological display of a properly oriented
   * image differ only in the sign of the left-right display axis.
   */
  lemma ConventionsMirror(current: Axes, image: Axes, i: OrientationCode, j: OrientationCode, k: OrientationCode)
    requires Proper(i, j, k)
    ensures var n := Resolve(current, image, i, j, k, Neurological);
            var r := Resolve(current, image, i, j, k, Radiological);
            n.x == r.x.Neg() && n.y == r.y && n.z == r.z
  {
    ProperResolves(current, image, i, j, k, Neurological);
    ProperResolves(current, image, i, j, k, Radiological);
  }

  /** A direction `Reset` cannot work out leaves the display axes as they were. */
  lemma UnknownKeeps(current: Axes, image: Axes, mode: DisplayMode)
    requires mode != Native
    ensures Resolve(current, image, Unknown, Unknown, Unknown, mode) == current
  {
  }

  /** Flipping an axis twice restores it. */
  lemma FlipTwice(a: Axes, flipX: bool, flipY: bool, flipZ: bool)
    ensures Flip(Flip(a, flipX, flipY, flipZ), flipX, flipY, flipZ) == a
  {
  }
}
