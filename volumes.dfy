// The arithmetic the image and transformation readers do around the foreign
// codecs (src/RView.cc 1627-1962): the subtraction range derived from the
// target and source intensity ranges, the geometry check of an image
// sequence, and the copy of a rigid transformation's parameters into an
// affine one.
module Volumes {
  import opened Types

  // ---------------------------------------------------------------------------
  // Subtraction range (`ReadTarget` 1643-1644, `ReadSource` 1788-1789).

  /** The range of target minus source values, from both images' ranges. */
  datatype Range = Range(min: real, max: real)

  function SubtractionRange(target: Range, source: Range): (r: Range)
    ensures r.max - r.min == (target.max - target.min) + (source.max - source.min)
  {
    Range(target.min - source.max, target.max - source.min)
  }

  /**
   * Every difference of a target value and a source value within their images'
   * ranges lies in the subtraction range, and both ends are reached.
   */
  lemma SubtractionCovers(target: Range, source: Range, t: real, s: real)
    requires target.min <= t <= target.max && source.min <= s <= source.max
    ensures SubtractionRange(target, source).min <= t - s <= SubtractionRange(target, source).max
    ensures SubtractionRange(target, source).min == target.min - source.max
    ensures SubtractionRange(target, source).max == target.max - source.min
  {
  }

  // ---------------------------------------------------------------------------
  // Geometry of an image sequence (`ReadTarget(argc, argv)` 1682-1697).

  /** The attributes of an image: grid size, spacing, origin in space and time, and axes. */
  datatype Attributes = Attributes(
    x: int, y: int, z: int, t: int,
    dx: real, dy: real, dz: real, dt: real,
    origin: Point, torigin: real,
    xaxis: Point, yaxis: Point, zaxis: Point)

  /** The attributes compared between frames: time origin 0 and time spacing 1 on both sides. */
  function Masked(a: Attributes): (m: Attributes)
    ensures m.torigin == 0.0 && m.dt == 1.0
    ensures m.(torigin := a.torigin, dt := a.dt) == a
  {
    a.(torigin := 0.0, dt := 1.0)
  }

  /** The first frame after the first whose masked attributes differ from the first's. */
  function FirstMismatch(frames: seq<Attributes>, from: nat): (r: Option<nat>)
    requires 0 < |frames|
    ensures r.Some? ==> from <= r.value < |frames| && Masked(frames[r.value]) != Masked(frames[0])
    ensures r.Some? ==> forall i :: from <= i < r.value ==> Masked(frames[i]) == Masked(frames[0])
    ensures r.None? ==> forall i :: from <= i < |frames| ==> Masked(frames[i]) == Masked(frames[0])
    decreases |frames| - from
  {
    if from >= |frames| then None
    else if Masked(frames[from]) != Masked(frames[0]) then Some(from)
    else FirstMismatch(frames, from + 1)
  }

  /**
   * The check loop: a mismatch ends the program (`exit(1)`), reported here as
   * the index of the offending frame.
   */
  method CheckSequence(frames: seq<Attributes>) returns (r: Result<(), nat>)
    requires 0 < |frames|
    ensures r.Err? <==> FirstMismatch(frames, 1).Some?
    ensures r.Err? ==> r.error == FirstMismatch(frames, 1).value
  {
    var reference := Masked(frames[0]);
    var i := 1;
    while i < |frames|
      invariant 1 <= i <= |frames|
      invariant FirstMismatch(frames, i) == FirstMismatch(frames, 1)
    {
      if Masked(frames[i]) != reference {
        return Err(i);
      }
      i := i + 1;
    }
    return Ok(());
  }

  /**
   * A sequence passes exactly when all its frames share one spatial geometry
   * and frame count; their time origins and spacings may differ.
   */
  lemma SequenceAcceptsTimeShifts(frames: seq<Attributes>)
    requires 0 < |frames|
    ensures FirstMismatch(frames, 1).None?
            <==> forall i :: 0 <= i < |frames| ==>
                   frames[i].(torigin := frames[0].torigin, dt := frames[0].dt) == frames[0]
  {
    if FirstMismatch(frames, 1).None? {
      forall i | 0 <= i < |frames|
        ensures frames[i].(torigin := frames[0].torigin, dt := frames[0].dt) == frames[0]
      {
        MaskedEqual(frames[i], frames[0]);
      }
    } else {
      var k := FirstMismatch(frames, 1).value;
      MaskedEqual(frames[k], frames[0]);
    }
  }

  /** Two attribute sets agree once masked exactly when they differ at most in time origin and spacing. */
  lemma MaskedEqual(a: Attributes, b: Attributes)
    ensures Masked(a) == Masked(b) <==> a.(torigin := b.torigin, dt := b.dt) == b
  {
    if Masked(a) == Masked(b) {
      assert a.(torigin := b.torigin, dt := b.dt) == Masked(a).(torigin := b.torigin, dt := b.dt);
    }
  }

  // ---------------------------------------------------------------------------
  // Rigid to affine (`ReadTransformation` 1955-1962).

  /**
   * The parameters of a rigid transformation are copied, index by index, into
   * a new affine transformation, whose remaining parameters keep their
   * initial values.
   */
  method CopyRigidParameters(rigid: seq<real>, affine: array<real>)
    requires |rigid| <= affine.Length
    modifies affine
    ensures forall k :: 0 <= k < |rigid| ==> affine[k] == rigid[k]
    ensures forall k :: |rigid| <= k < affine.Length ==> affine[k] == old(affine[k])
  {
    var i := 0;
    while i < |rigid|
      invariant i <= |rigid|
      invariant forall k :: 0 <= k < i ==> affine[k] == rigid[k]
      invariant forall k :: i <= k < affine.Length ==> affine[k] == old(affine[k])
    {
      affine[i] := rigid[i];
      i := i + 1;
    }
  }
}
