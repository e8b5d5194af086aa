// What reading back a written configuration restores (src/RView.cc 917-1625):
// the written lines replayed one key at a time, section by section.
module ConfigRestore {
  import opened Types
  import opened Text
  import opened ConfigKeys
  import opened ConfigValues
  import opened ConfigFormat
  import opened ConfigRoundTrip

  /** Replaying two runs of lines one after the other. */
  lemma {:induction false} ReplayAppend(st: Settings, a: seq<Line>, b: seq<Line>, num: NumberFormat, vtk: bool)
    ensures var r := Replay(st, a, num, vtk);
      Replay(st, a + b, num, vtk) == if r.Err? then r else Replay(r.value, b, num, vtk)
    decreases |a|
  {
    if |a| == 0 {
      assert a + b == b;
    } else {
      assert (a + b)[0] == a[0];
      assert (a + b)[1..] == a[1..] + b;
      match a[0]
      case CommentLine(_) =>
        ReplayAppend(st, a[1..], b, num, vtk);
      case KeyLine(w, _, v) =>
        var e := Effect(st, w, v, num, vtk);
        if e.Ok? {
          ReplayAppend(e.value, a[1..], b, num, vtk);
        }
    }
  }

  /** Comment lines change nothing. */
  lemma {:induction false} ReplayComments(st: Settings, ls: seq<Line>, num: NumberFormat, vtk: bool)
    requires forall i | 0 <= i < |ls| :: ls[i].CommentLine?
    ensures Replay(st, ls, num, vtk) == Ok(st)
    decreases |ls|
  {
    if |ls| > 0 {
      ReplayComments(st, ls[1..], num, vtk);
    }
  }

  /** A comment block changes nothing. */
  lemma ReplayBanner(st: Settings, title: string, num: NumberFormat, vtk: bool)
    ensures Replay(st, Banner(title), num, vtk) == Ok(st)
  {
    ReplayComments(st, Banner(title), num, vtk);
  }

  /** A key line whose effect succeeds, in front of more lines. */
  lemma ReplayKeyLine(st: Settings, l: Line, rest: seq<Line>, next: Settings, num: NumberFormat, vtk: bool)
    requires l.KeyLine? && Effect(st, l.key, l.value, num, vtk) == Ok(next)
    ensures Replay(st, [l] + rest, num, vtk) == Replay(next, rest, num, vtk)
  {
    assert ([l] + rest)[1..] == rest;
  }

  /** Two key lines whose effects succeed one after the other. */
  lemma ReplayTwo(s0: Settings, s1: Settings, s2: Settings, l1: Line, l2: Line, rest: seq<Line>, num: NumberFormat, vtk: bool)
    requires l1.KeyLine? && Effect(s0, l1.key, l1.value, num, vtk) == Ok(s1)
    requires l2.KeyLine? && Effect(s1, l2.key, l2.value, num, vtk) == Ok(s2)
    ensures Replay(s0, [l1, l2] + rest, num, vtk) == Replay(s2, rest, num, vtk)
  {
    ReplayKeyLine(s1, l2, rest, s2, num, vtk);
    ReplayKeyLine(s0, l1, [l2] + rest, s1, num, vtk);
    assert [l1, l2] + rest == [l1] + ([l2] + rest);
  }

  /** Three key lines whose effects succeed one after the other. */
  lemma ReplayThree(s0: Settings, s1: Settings, s2: Settings, s3: Settings, l1: Line, l2: Line, l3: Line,
                    rest: seq<Line>, num: NumberFormat, vtk: bool)
    requires l1.KeyLine? && Effect(s0, l1.key, l1.value, num, vtk) == Ok(s1)
    requires l2.KeyLine? && Effect(s1, l2.key, l2.value, num, vtk) == Ok(s2)
    requires l3.KeyLine? && Effect(s2, l3.key, l3.value, num, vtk) == Ok(s3)
    ensures Replay(s0, [l1, l2, l3] + rest, num, vtk) == Replay(s3, rest, num, vtk)
  {
    ReplayTwo(s1, s2, s3, l2, l3, rest, num, vtk);
    ReplayKeyLine(s0, l1, [l2, l3] + rest, s1, num, vtk);
    assert [l1, l2, l3] + rest == [l1] + ([l2, l3] + rest);
  }

  /** Four key lines whose effects succeed one after the other. */
  lemma ReplayFour(s0: Settings, s1: Settings, s2: Settings, s3: Settings, s4: Settings,
                   l1: Line, l2: Line, l3: Line, l4: Line, rest: seq<Line>, num: NumberFormat, vtk: bool)
    requires l1.KeyLine? && Effect(s0, l1.key, l1.value, num, vtk) == Ok(s1)
    requires l2.KeyLine? && Effect(s1, l2.key, l2.value, num, vtk) == Ok(s2)
    requires l3.KeyLine? && Effect(s2, l3.key, l3.value, num, vtk) == Ok(s3)
    requires l4.KeyLine? && Effect(s3, l4.key, l4.value, num, vtk) == Ok(s4)
    ensures Replay(s0, [l1, l2, l3, l4] + rest, num, vtk) == Replay(s4, rest, num, vtk)
  {
    ReplayTwo(s2, s3, s4, l3, l4, rest, num, vtk);
    ReplayTwo(s0, s1, s2, l1, l2, [l3, l4] + rest, num, vtk);
    assert [l1, l2, l3, l4] + rest == [l1, l2] + ([l3, l4] + rest);
  }

  // ---------------------------------------------------------------------------
  // The layout section.

  /** The settings the key lines of the layout section leave behind. */
  function LayoutRead(st0: Settings, st: Settings, num: NumberFormat): Settings
  {
    var l := st.layout;
    st0.(layout := Layout(
           StoredConfigMode(l.configMode), st0.layout.screenX, l.screenY,
           num.parse(num.show(l.originX)), num.parse(num.show(l.originY)),
           num.parse(num.show(l.originZ)), num.parse(num.show(l.resolution))),
         interpolators := Interpolators(NN, st.interpolators.source))
  }

  /** The layout and screen-size lines; the width line stores into the height. */
  lemma ReplayScreenLines(s: Settings, l: Layout, rest: seq<Line>, num: NumberFormat, vtk: bool)
    ensures Replay(s, [Aligned(ConfigModeKey, ConfigToken(l.configMode)), Aligned(ScreenXKey, IntText(l.screenX)),
                       Aligned(ScreenYKey, IntText(l.screenY))] + rest, num, vtk)
         == Replay(s.(interpolators := Interpolators(NN, NN),
                      layout := s.layout.(configMode := StoredConfigMode(l.configMode), screenY := l.screenY)),
                   rest, num, vtk)
  {
    var r := s.(interpolators := Interpolators(NN, NN));
    var s1 := r.(layout := s.layout.(configMode := StoredConfigMode(l.configMode)));
    var s2 := r.(layout := s1.layout.(screenY := l.screenX));
    var s3 := r.(layout := s2.layout.(screenY := l.screenY));
    ParseConfigToken(l.configMode);
    AtoiIntText(l.screenX);
    AtoiIntText(l.screenY);
    ReplayThree(s, s1, s2, s3, Aligned(ConfigModeKey, ConfigToken(l.configMode)), Aligned(ScreenXKey, IntText(l.screenX)),
                Aligned(ScreenYKey, IntText(l.screenY)), rest, num, vtk);
  }

  /** The origin and resolution lines. */
  lemma ReplayOriginLines(s: Settings, l: Layout, rest: seq<Line>, num: NumberFormat, vtk: bool)
    ensures Replay(s, [Aligned(OriginXKey, num.show(l.originX)), Aligned(OriginYKey, num.show(l.originY)),
                       Aligned(OriginZKey, num.show(l.originZ)), Aligned(ResolutionKey, num.show(l.resolution))] + rest, num, vtk)
      == Replay(s.(interpolators := Interpolators(NN, NN),
                   layout := s.layout.(originX := num.parse(num.show(l.originX)), originY := num.parse(num.show(l.originY)),
                                       originZ := num.parse(num.show(l.originZ)), resolution := num.parse(num.show(l.resolution)))),
                rest, num, vtk)
  {
    var r := s.(interpolators := Interpolators(NN, NN));
    var s4 := r.(layout := s.layout.(originX := num.parse(num.show(l.originX))));
    var s5 := r.(layout := s4.layout.(originY := num.parse(num.show(l.originY))));
    var s6 := r.(layout := s5.layout.(originZ := num.parse(num.show(l.originZ))));
    var s7 := r.(layout := s6.layout.(resolution := num.parse(num.show(l.resolution))));
    ReplayFour(s, s4, s5, s6, s7, Aligned(OriginXKey, num.show(l.originX)), Aligned(OriginYKey, num.show(l.originY)),
               Aligned(OriginZKey, num.show(l.originZ)), Aligned(ResolutionKey, num.show(l.resolution)), rest, num, vtk);
  }

  /** The two interpolation lines: the source line recreates the target interpolator with nearest neighbour. */
  lemma ReplayInterpolationLines(s: Settings, ip: Interpolators, num: NumberFormat, vtk: bool)
    ensures Replay(s, [Aligned(TargetInterpolationKey, InterpolationToken(ip.target)),
                       Aligned(SourceInterpolationKey, InterpolationToken(ip.source))], num, vtk)
         == Ok(s.(interpolators := Interpolators(NN, ip.source)))
  {
    var s8 := s.(interpolators := Interpolators(ip.target, ip.target));
    var s9 := s.(interpolators := Interpolators(NN, ip.source));
    ParseInterpolationToken(ip.source);
    ParseInterpolationToken(ip.target);
    ReplayTwo(s, s8, s9, Aligned(TargetInterpolationKey, InterpolationToken(ip.target)),
              Aligned(SourceInterpolationKey, InterpolationToken(ip.source)), [], num, vtk);
    assert [Aligned(TargetInterpolationKey, InterpolationToken(ip.target)),
            Aligned(SourceInterpolationKey, InterpolationToken(ip.source))] + [] ==
           [Aligned(TargetInterpolationKey, InterpolationToken(ip.target)),
            Aligned(SourceInterpolationKey, InterpolationToken(ip.source))];
  }

  /** The layout lines in the groups the replay lemmas above take. */
  lemma LayoutGroups(st: Settings, num: NumberFormat)
    ensures var l := st.layout;
      LayoutLines(st, num)
      == [Aligned(ConfigModeKey, ConfigToken(l.configMode)), Aligned(ScreenXKey, IntText(l.screenX)),
          Aligned(ScreenYKey, IntText(l.screenY))]
         + ([Aligned(OriginXKey, num.show(l.originX)), Aligned(OriginYKey, num.show(l.originY)),
             Aligned(OriginZKey, num.show(l.originZ)), Aligned(ResolutionKey, num.show(l.resolution))]
            + [Aligned(TargetInterpolationKey, InterpolationToken(st.interpolators.target)),
               Aligned(SourceInterpolationKey, InterpolationToken(st.interpolators.source))])
  {
  }

  /** The key lines of the layout section. */
  lemma ReplayLayoutLines(st0: Settings, st: Settings, num: NumberFormat, vtk: bool)
    ensures Replay(st0, LayoutLines(st, num), num, vtk) == Ok(LayoutRead(st0, st, num))
  {
    var l := st.layout;
    var s3 := st0.(interpolators := Interpolators(NN, NN),
                   layout := st0.layout.(configMode := StoredConfigMode(l.configMode), screenY := l.screenY));
    var s7 := s3.(layout := s3.layout.(originX := num.parse(num.show(l.originX)), originY := num.parse(num.show(l.originY)),
                                       originZ := num.parse(num.show(l.originZ)), resolution := num.parse(num.show(l.resolution))));
    var origin := [Aligned(OriginXKey, num.show(l.originX)), Aligned(OriginYKey, num.show(l.originY)),
                   Aligned(OriginZKey, num.show(l.originZ)), Aligned(ResolutionKey, num.show(l.resolution))];
    var interpolation := [Aligned(TargetInterpolationKey, InterpolationToken(st.interpolators.target)),
                          Aligned(SourceInterpolationKey, InterpolationToken(st.interpolators.source))];
    LayoutGroups(st, num);
    ReplayScreenLines(st0, l, origin + interpolation, num, vtk);
    ReplayOriginLines(s3, l, interpolation, num, vtk);
    ReplayInterpolationLines(s7, st.interpolators, num, vtk);
  }

  /** The layout section: its banner, then its key lines. */
  lemma ReplayLayoutSection(st0: Settings, st: Settings, num: NumberFormat, vtk: bool)
    ensures Replay(st0, LayoutSection(st, num), num, vtk) == Ok(LayoutRead(st0, st, num))
  {
    ReplayAppend(st0, Banner("RView configuration"), LayoutLines(st, num), num, vtk);
    ReplayBanner(st0, "RView configuration", num, vtk);
    ReplayLayoutLines(st0, st, num, vtk);
  }

  // ---------------------------------------------------------------------------
  // The display section.

  /** The view mode line: printed, it sets the mode; an overlay mode prints none and keeps the current mode. */
  lemma ReplayViewModeLines(s: Settings, m: ViewMode, rest: seq<Line>, num: NumberFormat, vtk: bool)
    ensures Replay(s, ViewModeLines(m) + rest, num, vtk)
         == Replay(if ViewToken(m).Some? then s.(interpolators := Interpolators(NN, NN), display := s.display.(viewMode := m)) else s,
                   rest, num, vtk)
  {
    ParseViewToken(m);
    if ViewToken(m).Some? {
      var next := s.(interpolators := Interpolators(NN, NN), display := s.display.(viewMode := m));
      ReplayKeyLine(s, ViewModeLines(m)[0], rest, next, num, vtk);
      assert ViewModeLines(m) + rest == [ViewModeLines(m)[0]] + rest;
    } else {
      assert ViewModeLines(m) + rest == rest;
    }
  }

  // One lemma per display line: the effect of reading back what was written.

  lemma ViewMixEffect(s: Settings, x: real, num: NumberFormat, vtk: bool)
    ensures Effect(s, ViewMixKey, num.show(x), num, vtk)
         == Ok(s.(interpolators := Interpolators(NN, NN), display := s.display.(viewMix := num.parse(num.show(x)))))
  {
  }

  lemma TargetContourEffect(s: Settings, b: bool, num: NumberFormat, vtk: bool)
    ensures Effect(s, TargetContourKey, BoolText(b), num, vtk)
         == Ok(s.(interpolators := Interpolators(NN, NN), display := s.display.(targetContour := b)))
  {
    AtoiBoolText(b);
  }

  lemma SourceContourEffect(s: Settings, b: bool, num: NumberFormat, vtk: bool)
    ensures Effect(s, SourceContourKey, BoolText(b), num, vtk)
         == Ok(s.(interpolators := Interpolators(NN, NN), display := s.display.(sourceContour := b)))
  {
    AtoiBoolText(b);
  }

  lemma CursorEffect(s: Settings, b: bool, num: NumberFormat, vtk: bool)
    ensures Effect(s, CursorKey, BoolText(b), num, vtk)
         == Ok(s.(interpolators := Interpolators(NN, NN), display := s.display.(cursor := b)))
  {
    AtoiBoolText(b);
  }

  lemma CursorModeEffect(s: Settings, m: CursorMode, num: NumberFormat, vtk: bool)
    ensures Effect(s, CursorModeKey, CursorToken(m), num, vtk)
         == Ok(s.(interpolators := Interpolators(NN, NN), display := s.display.(cursorMode := m)))
  {
    ParseCursorToken(m);
  }

  lemma DeformationGridEffect(s: Settings, b: bool, num: NumberFormat, vtk: bool)
    ensures Effect(s, DeformationGridKey, BoolText(b), num, vtk)
         == Ok(s.(interpolators := Interpolators(NN, NN), display := s.display.(deformationGrid := b)))
  {
    AtoiBoolText(b);
  }

  lemma DeformationPointsEffect(s: Settings, b: bool, num: NumberFormat, vtk: bool)
    ensures Effect(s, DeformationPointsKey, BoolText(b), num, vtk)
         == Ok(s.(interpolators := Interpolators(NN, NN), display := s.display.(deformationPoints := b)))
  {
    AtoiBoolText(b);
  }

  lemma DeformationArrowsEffect(s: Settings, b: bool, num: NumberFormat, vtk: bool)
    ensures Effect(s, DeformationArrowsKey, BoolText(b), num, vtk)
         == Ok(s.(interpolators := Interpolators(NN, NN), display := s.display.(deformationArrows := b)))
  {
    AtoiBoolText(b);
  }

  lemma LandmarksEffect(s: Settings, b: bool, num: NumberFormat, vtk: bool)
    ensures Effect(s, LandmarksKey, BoolText(b), num, vtk)
         == Ok(s.(interpolators := Interpolators(NN, NN), display := s.display.(landmarks := b)))
  {
    AtoiBoolText(b);
  }

  lemma ObjectEffect(s: Settings, b: bool, num: NumberFormat, vtk: bool)
    requires vtk
    ensures Effect(s, ObjectKey, BoolText(b), num, vtk)
         == Ok(s.(interpolators := Interpolators(NN, NN), display := s.display.(displayObject := b)))
  {
    AtoiBoolText(b);
  }

  lemma ObjectWarpEffect(s: Settings, b: bool, num: NumberFormat, vtk: bool)
    requires vtk
    ensures Effect(s, ObjectWarpKey, BoolText(b), num, vtk)
         == Ok(s.(interpolators := Interpolators(NN, NN), display := s.display.(displayObject := b, objectWarp := b)))
  {
    AtoiBoolText(b);
  }

  lemma ObjectGridEffect(s: Settings, b: bool, num: NumberFormat, vtk: bool)
    requires vtk
    ensures Effect(s, ObjectGridKey, BoolText(b), num, vtk)
         == Ok(s.(interpolators := Interpolators(NN, NN), display := s.display.(displayObject := b, objectGrid := b)))
  {
    AtoiBoolText(b);
  }

  /** The view mix and the contour flags. */
  lemma ReplayMixLines(s: Settings, d: Display, rest: seq<Line>, num: NumberFormat, vtk: bool)
    ensures Replay(s, [Aligned(ViewMixKey, num.show(d.viewMix)),
                       Aligned(TargetContourKey, BoolText(d.targetContour)),
                       Aligned(SourceContourKey, BoolText(d.sourceContour))] + rest, num, vtk)
         == Replay(s.(interpolators := Interpolators(NN, NN), display := s.display.(viewMix := num.parse(num.show(d.viewMix)), targetContour := d.targetContour, sourceContour := d.sourceContour)), rest, num, vtk)
  {
    var r := s.(interpolators := Interpolators(NN, NN));
    var s1 := r.(display := s.display.(viewMix := num.parse(num.show(d.viewMix))));
    var s2 := r.(display := s1.display.(targetContour := d.targetContour));
    var s3 := r.(display := s2.display.(sourceContour := d.sourceContour));
    ViewMixEffect(s, d.viewMix, num, vtk);
    TargetContourEffect(s1, d.targetContour, num, vtk);
    SourceContourEffect(s2, d.sourceContour, num, vtk);
    ReplayThree(s, s1, s2, s3, Aligned(ViewMixKey, num.show(d.viewMix)), Aligned(TargetContourKey, BoolText(d.targetContour)), Aligned(SourceContourKey, BoolText(d.sourceContour)), rest, num, vtk);
  }

  /** The cursor lines and the deformation grid flag. */
  lemma ReplayCursorLines(s: Settings, d: Display, rest: seq<Line>, num: NumberFormat, vtk: bool)
    ensures Replay(s, [Aligned(CursorKey, BoolText(d.cursor)),
                       Aligned(CursorModeKey, CursorToken(d.cursorMode)),
                       Aligned(DeformationGridKey, BoolText(d.deformationGrid))] + rest, num, vtk)
         == Replay(s.(interpolators := Interpolators(NN, NN), display := s.display.(cursor := d.cursor, cursorMode := d.cursorMode, deformationGrid := d.deformationGrid)), rest, num, vtk)
  {
    var r := s.(interpolators := Interpolators(NN, NN));
    var s1 := r.(display := s.display.(cursor := d.cursor));
    var s2 := r.(display := s1.display.(cursorMode := d.cursorMode));
    var s3 := r.(display := s2.display.(deformationGrid := d.deformationGrid));
    CursorEffect(s, d.cursor, num, vtk);
    CursorModeEffect(s1, d.cursorMode, num, vtk);
    DeformationGridEffect(s2, d.deformationGrid, num, vtk);
    ReplayThree(s, s1, s2, s3, Aligned(CursorKey, BoolText(d.cursor)), Aligned(CursorModeKey, CursorToken(d.cursorMode)), Aligned(DeformationGridKey, BoolText(d.deformationGrid)), rest, num, vtk);
  }

  /** The deformation point and arrow flags and the landmark flag. */
  lemma ReplayMarkerLines(s: Settings, d: Display, rest: seq<Line>, num: NumberFormat, vtk: bool)
    ensures Replay(s, [Aligned(DeformationPointsKey, BoolText(d.deformationPoints)),
                       Aligned(DeformationArrowsKey, BoolText(d.deformationArrows)),
                       Aligned(LandmarksKey, BoolText(d.landmarks))] + rest, num, vtk)
         == Replay(s.(interpolators := Interpolators(NN, NN), display := s.display.(deformationPoints := d.deformationPoints, deformationArrows := d.deformationArrows, landmarks := d.landmarks)), rest, num, vtk)
  {
    var r := s.(interpolators := Interpolators(NN, NN));
    var s1 := r.(display := s.display.(deformationPoints := d.deformationPoints));
    var s2 := r.(display := s1.display.(deformationArrows := d.deformationArrows));
    var s3 := r.(display := s2.display.(landmarks := d.landmarks));
    DeformationPointsEffect(s, d.deformationPoints, num, vtk);
    DeformationArrowsEffect(s1, d.deformationArrows, num, vtk);
    LandmarksEffect(s2, d.landmarks, num, vtk);
    ReplayThree(s, s1, s2, s3, Aligned(DeformationPointsKey, BoolText(d.deformationPoints)), Aligned(DeformationArrowsKey, BoolText(d.deformationArrows)), Aligned(LandmarksKey, BoolText(d.landmarks)), rest, num, vtk);
  }

  /** The display settings the overlay lines leave behind. */
  function OverlayRead(s: Display, d: Display, num: NumberFormat): Display
  {
    s.(viewMix := num.parse(num.show(d.viewMix)),
       targetContour := d.targetContour, sourceContour := d.sourceContour,
       cursor := d.cursor, cursorMode := d.cursorMode, deformationGrid := d.deformationGrid,
       deformationPoints := d.deformationPoints, deformationArrows := d.deformationArrows, landmarks := d.landmarks)
  }

  /** The overlay lines in the three groups the replay lemmas above take. */
  lemma OverlayGroups(d: Display, num: NumberFormat, rest: seq<Line>)
    ensures OverlayLines(d, num) + rest
         == [Aligned(ViewMixKey, num.show(d.viewMix)), Aligned(TargetContourKey, BoolText(d.targetContour)),
             Aligned(SourceContourKey, BoolText(d.sourceContour))]
            + ([Aligned(CursorKey, BoolText(d.cursor)), Aligned(CursorModeKey, CursorToken(d.cursorMode)),
                Aligned(DeformationGridKey, BoolText(d.deformationGrid))]
               + ([Aligned(DeformationPointsKey, BoolText(d.deformationPoints)),
                   Aligned(DeformationArrowsKey, BoolText(d.deformationArrows)),
                   Aligned(LandmarksKey, BoolText(d.landmarks))] + rest))
  {
  }

  lemma ReplayOverlayLines(s: Settings, d: Display, rest: seq<Line>, num: NumberFormat, vtk: bool)
    ensures Replay(s, OverlayLines(d, num) + rest, num, vtk)
         == Replay(s.(interpolators := Interpolators(NN, NN), display := OverlayRead(s.display, d, num)), rest, num, vtk)
  {
    var markers := [Aligned(DeformationPointsKey, BoolText(d.deformationPoints)),
                    Aligned(DeformationArrowsKey, BoolText(d.deformationArrows)),
                    Aligned(LandmarksKey, BoolText(d.landmarks))];
    var cursor := [Aligned(CursorKey, BoolText(d.cursor)), Aligned(CursorModeKey, CursorToken(d.cursorMode)),
                   Aligned(DeformationGridKey, BoolText(d.deformationGrid))];
    OverlayGroups(d, num, rest);
    var s3 := s.(interpolators := Interpolators(NN, NN),
                 display := s.display.(viewMix := num.parse(num.show(d.viewMix)),
                                       targetContour := d.targetContour, sourceContour := d.sourceContour));
    var s6 := s3.(display := s3.display.(cursor := d.cursor, cursorMode := d.cursorMode, deformationGrid := d.deformationGrid));
    ReplayMixLines(s, d, cursor + (markers + rest), num, vtk);
    ReplayCursorLines(s3, d, markers + rest, num, vtk);
    ReplayMarkerLines(s6, d, rest, num, vtk);
  }

  /** The object flags: each of the two last lines also sets the object flag, so the grid flag has the last word. */
  /** The warp and grid flags: each also sets the object flag, so the grid flag has the last word. */
  lemma ReplayWarpGridFlags(s: Settings, d: Display, rest: seq<Line>, num: NumberFormat, vtk: bool)
    requires vtk
    ensures Replay(s, [Aligned(ObjectWarpKey, BoolText(d.objectWarp)), Aligned(ObjectGridKey, BoolText(d.objectGrid))] + rest, num, vtk)
         == Replay(s.(interpolators := Interpolators(NN, NN),
                      display := s.display.(displayObject := d.objectGrid, objectWarp := d.objectWarp, objectGrid := d.objectGrid)),
                   rest, num, vtk)
  {
    var r := s.(interpolators := Interpolators(NN, NN));
    var s1 := r.(display := s.display.(displayObject := d.objectWarp, objectWarp := d.objectWarp));
    var s2 := r.(display := s1.display.(displayObject := d.objectGrid, objectGrid := d.objectGrid));
    ObjectWarpEffect(s, d.objectWarp, num, vtk);
    ObjectGridEffect(s1, d.objectGrid, num, vtk);
    ReplayTwo(s, s1, s2, Aligned(ObjectWarpKey, BoolText(d.objectWarp)), Aligned(ObjectGridKey, BoolText(d.objectGrid)), rest, num, vtk);
  }

  lemma ReplayObjectFlags(s: Settings, d: Display, rest: seq<Line>, num: NumberFormat, vtk: bool)
    requires vtk
    ensures Replay(s, [Aligned(ObjectKey, BoolText(d.displayObject)), Aligned(ObjectWarpKey, BoolText(d.objectWarp)),
                       Aligned(ObjectGridKey, BoolText(d.objectGrid))] + rest, num, vtk)
         == Replay(s.(interpolators := Interpolators(NN, NN),
                      display := s.display.(displayObject := d.objectGrid, objectWarp := d.objectWarp, objectGrid := d.objectGrid)),
                   rest, num, vtk)
  {
    var s1 := s.(interpolators := Interpolators(NN, NN), display := s.display.(displayObject := d.displayObject));
    var warpGrid := [Aligned(ObjectWarpKey, BoolText(d.objectWarp)), Aligned(ObjectGridKey, BoolText(d.objectGrid))];
    ObjectEffect(s, d.displayObject, num, vtk);
    ReplayKeyLine(s, Aligned(ObjectKey, BoolText(d.displayObject)), warpGrid + rest, s1, num, vtk);
    ReplayWarpGridFlags(s1, d, rest, num, vtk);
    assert [Aligned(ObjectKey, BoolText(d.displayObject))] + (warpGrid + rest)
        == [Aligned(ObjectKey, BoolText(d.displayObject)), Aligned(ObjectWarpKey, BoolText(d.objectWarp)),
            Aligned(ObjectGridKey, BoolText(d.objectGrid))] + rest;
  }

  lemma ObjectGroups(d: Display)
    ensures ObjectLines(d, true)
         == [Aligned(ObjectKey, BoolText(d.displayObject)), Aligned(ObjectWarpKey, BoolText(d.objectWarp)),
             Aligned(ObjectGridKey, BoolText(d.objectGrid))] + []
  {
  }

  /** The object lines: none without VTK. */
  lemma ReplayObjectLines(s: Settings, d: Display, num: NumberFormat, vtk: bool)
    ensures Replay(s, ObjectLines(d, vtk), num, vtk)
         == Ok(if vtk then s.(interpolators := Interpolators(NN, NN),
                              display := s.display.(displayObject := d.objectGrid, objectWarp := d.objectWarp, objectGrid := d.objectGrid))
               else s)
  {
    if vtk {
      ObjectGroups(d);
      ReplayObjectFlags(s, d, [], num, vtk);
    }
  }

  /** The display settings the display section leaves behind. */
  function DisplayRead(s: Display, d: Display, num: NumberFormat, vtk: bool): Display
  {
    var shown := if ViewToken(d.viewMode).Some? then s.(viewMode := d.viewMode) else s;
    var overlays := OverlayRead(shown, d, num);
    if vtk then overlays.(displayObject := d.objectGrid, objectWarp := d.objectWarp, objectGrid := d.objectGrid)
    else overlays
  }

  /** The display section in the groups the replay lemmas above take. */
  lemma DisplayGroups(st: Settings, num: NumberFormat, vtk: bool)
    ensures DisplaySection(st, num, vtk)
         == Banner("Display configuration")
            + (ViewModeLines(st.display.viewMode) + (OverlayLines(st.display, num) + ObjectLines(st.display, vtk)))
  {
  }

  lemma ReplayDisplaySection(s: Settings, st: Settings, num: NumberFormat, vtk: bool)
    ensures Replay(s, DisplaySection(st, num, vtk), num, vtk)
         == Ok(s.(interpolators := Interpolators(NN, NN), display := DisplayRead(s.display, st.display, num, vtk)))
  {
    var d := st.display;
    var objects := ObjectLines(d, vtk);
    var tail := ViewModeLines(d.viewMode) + (OverlayLines(d, num) + objects);
    DisplayGroups(st, num, vtk);
    ReplayAppend(s, Banner("Display configuration"), tail, num, vtk);
    ReplayBanner(s, "Display configuration", num, vtk);
    ReplayViewModeLines(s, d.viewMode, OverlayLines(d, num) + objects, num, vtk);
    var shown := if ViewToken(d.viewMode).Some? then s.(interpolators := Interpolators(NN, NN), display := s.display.(viewMode := d.viewMode)) else s;
    ReplayOverlayLines(shown, d, objects, num, vtk);
    var overlays := shown.(interpolators := Interpolators(NN, NN), display := OverlayRead(shown.display, d, num));
    ReplayObjectLines(overlays, d, num, vtk);
  }

  // ---------------------------------------------------------------------------
  // The lookup-table section: every table comes back as it was written.

  lemma TargetLutMinEffect(s: Settings, n: int, num: NumberFormat, vtk: bool)
    ensures Effect(s, TargetLutMinKey, IntText(n), num, vtk)
         == Ok(s.(interpolators := Interpolators(NN, NN), targetLut := s.targetLut.(minDisplay := n)))
  {
    AtoiIntText(n);
  }

  lemma TargetLutMaxEffect(s: Settings, n: int, num: NumberFormat, vtk: bool)
    ensures Effect(s, TargetLutMaxKey, IntText(n), num, vtk)
         == Ok(s.(interpolators := Interpolators(NN, NN), targetLut := s.targetLut.(maxDisplay := n)))
  {
    AtoiIntText(n);
  }

  lemma TargetLutModeEffect(s: Settings, m: ColorMode, num: NumberFormat, vtk: bool)
    ensures Effect(s, TargetLutModeKey, ColorToken(m), num, vtk)
         == Ok(s.(interpolators := Interpolators(NN, NN), targetLut := s.targetLut.(mode := m)))
  {
    ParseColorToken(m);
  }

  lemma ReplayTargetLutLines(s: Settings, t: Lut, rest: seq<Line>, num: NumberFormat, vtk: bool)
    ensures Replay(s, LutLines(t, TargetLutMinKey, TargetLutMaxKey, TargetLutModeKey) + rest, num, vtk)
         == Replay(s.(interpolators := Interpolators(NN, NN), targetLut := t), rest, num, vtk)
  {
    var r := s.(interpolators := Interpolators(NN, NN));
    var s1 := r.(targetLut := s.targetLut.(minDisplay := t.minDisplay));
    var s2 := r.(targetLut := s1.targetLut.(maxDisplay := t.maxDisplay));
    TargetLutMinEffect(s, t.minDisplay, num, vtk);
    TargetLutMaxEffect(s1, t.maxDisplay, num, vtk);
    TargetLutModeEffect(s2, t.mode, num, vtk);
    ReplayThree(s, s1, s2, r.(targetLut := t), Aligned(TargetLutMinKey, IntText(t.minDisplay)), Aligned(TargetLutMaxKey, IntText(t.maxDisplay)),
                Aligned(TargetLutModeKey, ColorToken(t.mode)), rest, num, vtk);
  }

  lemma SourceLutMinEffect(s: Settings, n: int, num: NumberFormat, vtk: bool)
    ensures Effect(s, SourceLutMinKey, IntText(n), num, vtk)
         == Ok(s.(interpolators := Interpolators(NN, NN), sourceLut := s.sourceLut.(minDisplay := n)))
  {
    AtoiIntText(n);
  }

  lemma SourceLutMaxEffect(s: Settings, n: int, num: NumberFormat, vtk: bool)
    ensures Effect(s, SourceLutMaxKey, IntText(n), num, vtk)
         == Ok(s.(interpolators := Interpolators(NN, NN), sourceLut := s.sourceLut.(maxDisplay := n)))
  {
    AtoiIntText(n);
  }

  lemma SourceLutModeEffect(s: Settings, m: ColorMode, num: NumberFormat, vtk: bool)
    ensures Effect(s, SourceLutModeKey, ColorToken(m), num, vtk)
         == Ok(s.(interpolators := Interpolators(NN, NN), sourceLut := s.sourceLut.(mode := m)))
  {
    ParseColorToken(m);
  }

  lemma ReplaySourceLutLines(s: Settings, t: Lut, rest: seq<Line>, num: NumberFormat, vtk: bool)
    ensures Replay(s, LutLines(t, SourceLutMinKey, SourceLutMaxKey, SourceLutModeKey) + rest, num, vtk)
         == Replay(s.(interpolators := Interpolators(NN, NN), sourceLut := t), rest, num, vtk)
  {
    var r := s.(interpolators := Interpolators(NN, NN));
    var s1 := r.(sourceLut := s.sourceLut.(minDisplay := t.minDisplay));
    var s2 := r.(sourceLut := s1.sourceLut.(maxDisplay := t.maxDisplay));
    SourceLutMinEffect(s, t.minDisplay, num, vtk);
    SourceLutMaxEffect(s1, t.maxDisplay, num, vtk);
    SourceLutModeEffect(s2, t.mode, num, vtk);
    ReplayThree(s, s1, s2, r.(sourceLut := t), Aligned(SourceLutMinKey, IntText(t.minDisplay)), Aligned(SourceLutMaxKey, IntText(t.maxDisplay)),
                Aligned(SourceLutModeKey, ColorToken(t.mode)), rest, num, vtk);
  }

  lemma SubtractionLutMinEffect(s: Settings, n: int, num: NumberFormat, vtk: bool)
    ensures Effect(s, SubtractionLutMinKey, IntText(n), num, vtk)
         == Ok(s.(interpolators := Interpolators(NN, NN), subtractionLut := s.subtractionLut.(minDisplay := n)))
  {
    AtoiIntText(n);
  }

  lemma SubtractionLutMaxEffect(s: Settings, n: int, num: NumberFormat, vtk: bool)
    ensures Effect(s, SubtractionLutMaxKey, IntText(n), num, vtk)
         == Ok(s.(interpolators := Interpolators(NN, NN), subtractionLut := s.subtractionLut.(maxDisplay := n)))
  {
    AtoiIntText(n);
  }

  lemma SubtractionLutModeEffect(s: Settings, m: ColorMode, num: NumberFormat, vtk: bool)
    ensures Effect(s, SubtractionLutModeKey, ColorToken(m), num, vtk)
         == Ok(s.(interpolators := Interpolators(NN, NN), subtractionLut := s.subtractionLut.(mode := m)))
  {
    ParseColorToken(m);
  }

  lemma ReplaySubtractionLutLines(s: Settings, t: Lut, rest: seq<Line>, num: NumberFormat, vtk: bool)
    ensures Replay(s, LutLines(t, SubtractionLutMinKey, SubtractionLutMaxKey, SubtractionLutModeKey) + rest, num, vtk)
         == Replay(s.(interpolators := Interpolators(NN, NN), subtractionLut := t), rest, num, vtk)
  {
    var r := s.(interpolators := Interpolators(NN, NN));
    var s1 := r.(subtractionLut := s.subtractionLut.(minDisplay := t.minDisplay));
    var s2 := r.(subtractionLut := s1.subtractionLut.(maxDisplay := t.maxDisplay));
    SubtractionLutMinEffect(s, t.minDisplay, num, vtk);
    SubtractionLutMaxEffect(s1, t.maxDisplay, num, vtk);
    SubtractionLutModeEffect(s2, t.mode, num, vtk);
    ReplayThree(s, s1, s2, r.(subtractionLut := t), Aligned(SubtractionLutMinKey, IntText(t.minDisplay)), Aligned(SubtractionLutMaxKey, IntText(t.maxDisplay)),
                Aligned(SubtractionLutModeKey, ColorToken(t.mode)), rest, num, vtk);
  }

  /** The lookup-table section in the groups the replay lemmas above take. */
  lemma LutGroups(st: Settings)
    ensures LutSection(st)
         == Banner("LookupTables")
            + (LutLines(st.targetLut, TargetLutMinKey, TargetLutMaxKey, TargetLutModeKey)
               + (LutLines(st.sourceLut, SourceLutMinKey, SourceLutMaxKey, SourceLutModeKey)
                  + (LutLines(st.subtractionLut, SubtractionLutMinKey, SubtractionLutMaxKey, SubtractionLutModeKey) + [])))
  {
  }

  lemma ReplayLutSection(s: Settings, st: Settings, num: NumberFormat, vtk: bool)
    ensures Replay(s, LutSection(st), num, vtk)
         == Ok(s.(interpolators := Interpolators(NN, NN),
                  targetLut := st.targetLut, sourceLut := st.sourceLut, subtractionLut := st.subtractionLut))
  {
    var subtraction := LutLines(st.subtractionLut, SubtractionLutMinKey, SubtractionLutMaxKey, SubtractionLutModeKey) + [];
    var source := LutLines(st.sourceLut, SourceLutMinKey, SourceLutMaxKey, SourceLutModeKey) + subtraction;
    var tables := LutLines(st.targetLut, TargetLutMinKey, TargetLutMaxKey, TargetLutModeKey) + source;
    LutGroups(st);
    ReplayAppend(s, Banner("LookupTables"), tables, num, vtk);
    ReplayBanner(s, "LookupTables", num, vtk);
    var s1 := s.(interpolators := Interpolators(NN, NN), targetLut := st.targetLut);
    var s2 := s1.(sourceLut := st.sourceLut);
    ReplayTargetLutLines(s, st.targetLut, source, num, vtk);
    ReplaySourceLutLines(s1, st.sourceLut, subtraction, num, vtk);
    ReplaySubtractionLutLines(s2, st.subtractionLut, [], num, vtk);
  }

  // ---------------------------------------------------------------------------
  // The whole file.

  /**
   * The settings reading back a written file restores over the settings
   * `st0` in force: the side-by-side `_h` layouts come back as `_v`, the width
   * is not read back (its line stores into the height, which the next line
   * overwrites), numbers pass through the stream's print and read, both
   * interpolators are nearest neighbour, an overlay view mode is not written
   * and so stays as it was, the object flags travel only in a build with VTK,
   * where the object flag ends up equal to the grid flag; everything else is
   * restored exactly.
   */
  function Restored(st0: Settings, st: Settings, num: NumberFormat, vtk: bool): Settings
  {
    var l := st.layout;
    var d := st.display;
    var d0 := st0.display;
    Settings(
      Layout(StoredConfigMode(l.configMode), st0.layout.screenX, l.screenY,
             num.parse(num.show(l.originX)), num.parse(num.show(l.originY)),
             num.parse(num.show(l.originZ)), num.parse(num.show(l.resolution))),
      Interpolators(NN, NN),
      Display(if ViewToken(d.viewMode).Some? then d.viewMode else d0.viewMode,
              num.parse(num.show(d.viewMix)),
              d.targetContour, d.sourceContour, d.cursor, d.cursorMode,
              d.deformationGrid, d.deformationPoints, d.deformationArrows, d.landmarks,
              if vtk then d.objectGrid else d0.displayObject,
              if vtk then d.objectWarp else d0.objectWarp,
              if vtk then d.objectGrid else d0.objectGrid),
      st.targetLut, st.sourceLut, st.subtractionLut)
  }

  /** The settings after the layout and display sections. */
  function DisplayedRead(st0: Settings, st: Settings, num: NumberFormat, vtk: bool): Settings
  {
    var s1 := LayoutRead(st0, st, num);
    s1.(interpolators := Interpolators(NN, NN), display := DisplayRead(s1.display, st.display, num, vtk))
  }

  /** The three sections, one after the other, end in the restored settings. */
  lemma SectionsRestore(st0: Settings, st: Settings, num: NumberFormat, vtk: bool)
    ensures DisplayedRead(st0, st, num, vtk).(interpolators := Interpolators(NN, NN),
              targetLut := st.targetLut, sourceLut := st.sourceLut, subtractionLut := st.subtractionLut)
         == Restored(st0, st, num, vtk)
  {
  }

  /** Replaying the three sections `Write` prints. */
  lemma ReplayWriteLines(st0: Settings, st: Settings, num: NumberFormat, vtk: bool)
    ensures Replay(st0, WriteLines(st, num, vtk), num, vtk) == Ok(Restored(st0, st, num, vtk))
  {
    var layout := LayoutSection(st, num);
    var display := DisplaySection(st, num, vtk);
    var luts := LutSection(st);
    ReplayAppend(st0, layout + display, luts, num, vtk);
    ReplayAppend(st0, layout, display, num, vtk);
    ReplayLayoutSection(st0, st, num, vtk);
    var s1 := LayoutRead(st0, st, num);
    ReplayDisplaySection(s1, st, num, vtk);
    var s2 := DisplayedRead(st0, st, num, vtk);
    ReplayLutSection(s2, st, num, vtk);
    SectionsRestore(st0, st, num, vtk);
  }

  /**
   * Reading the file `Write` prints for the settings `st`, over the settings
   * `st0` in force, gives the restored settings and never fails.
   */
  lemma ReadWrittenConfig(st0: Settings, st: Settings, num: NumberFormat, vtk: bool)
    requires PrintsNumbers(num)
    ensures ReadAll(st0, Texts(WriteLines(st, num, vtk)), num, vtk) == Ok(Restored(st0, st, num, vtk))
  {
    WriteLinesWellFormed(st, num, vtk);
    ReadWritten(st0, WriteLines(st, num, vtk), num, vtk);
    ReplayWriteLines(st0, st, num, vtk);
  }

  /** The lookup tables, cursor and overlay flags come back exactly as they were written. */
  lemma WrittenTablesAndFlagsRestored(st0: Settings, st: Settings, num: NumberFormat, vtk: bool)
    requires PrintsNumbers(num)
    ensures var r := ReadAll(st0, Texts(WriteLines(st, num, vtk)), num, vtk);
      r.Ok?
      && r.value.targetLut == st.targetLut && r.value.sourceLut == st.sourceLut
      && r.value.subtractionLut == st.subtractionLut
      && r.value.display.cursor == st.display.cursor && r.value.display.cursorMode == st.display.cursorMode
      && r.value.display.targetContour == st.display.targetContour
      && r.value.display.sourceContour == st.display.sourceContour
      && r.value.display.deformationGrid == st.display.deformationGrid
      && r.value.display.deformationPoints == st.display.deformationPoints
      && r.value.display.deformationArrows == st.display.deformationArrows
      && r.value.display.landmarks == st.display.landmarks
  {
    ReadWrittenConfig(st0, st, num, vtk);
  }

  /**
   * The layout comes back as written exactly when it is not one of the
   * side-by-side `_h` layouts, and the screen width is never read back.
   */
  lemma WrittenLayoutRestored(st0: Settings, st: Settings, num: NumberFormat, vtk: bool)
    requires PrintsNumbers(num)
    ensures var r := ReadAll(st0, Texts(WriteLines(st, num, vtk)), num, vtk);
      r.Ok?
      && (r.value.layout.configMode == st.layout.configMode <==> st.layout.configMode !in {AB_XY_h, AB_XZ_h, AB_YZ_h, AB_XY_XZ_h})
      && r.value.layout.screenX == st0.layout.screenX
      && r.value.layout.screenY == st.layout.screenY
  {
    ReadWrittenConfig(st0, st, num, vtk);
  }

  /**
   * The view mode comes back as written exactly when it is not an overlay
   * mode, or the overlay mode was already in force.
   */
  lemma WrittenViewModeRestored(st0: Settings, st: Settings, num: NumberFormat, vtk: bool)
    requires PrintsNumbers(num)
    ensures var r := ReadAll(st0, Texts(WriteLines(st, num, vtk)), num, vtk);
      r.Ok?
      && (r.value.display.viewMode == st.display.viewMode
          <==> st.display.viewMode !in {AoverB, BoverA} || st0.display.viewMode == st.display.viewMode)
  {
    ReadWrittenConfig(st0, st, num, vtk);
    ParseViewToken(st.display.viewMode);
  }

  /** Reading back recreates both interpolators with nearest neighbour, whatever was written. */
  lemma WrittenInterpolationLost(st0: Settings, st: Settings, num: NumberFormat, vtk: bool)
    requires PrintsNumbers(num)
    ensures var r := ReadAll(st0, Texts(WriteLines(st, num, vtk)), num, vtk);
      r.Ok? && r.value.interpolators == Interpolators(NN, NN)
  {
    ReadWrittenConfig(st0, st, num, vtk);
  }

  /**
   * In a build with VTK the object flags come back, except that the object
   * flag takes the grid flag's value; without VTK they are left as they were.
   */
  lemma WrittenObjectFlags(st0: Settings, st: Settings, num: NumberFormat, vtk: bool)
    requires PrintsNumbers(num)
    ensures var r := ReadAll(st0, Texts(WriteLines(st, num, vtk)), num, vtk);
      r.Ok?
      && (vtk ==> r.value.display.objectWarp == st.display.objectWarp
                  && r.value.display.objectGrid == st.display.objectGrid
                  && r.value.display.displayObject == st.display.objectGrid)
      && (!vtk ==> r.value.display.objectWarp == st0.display.objectWarp
                   && r.value.display.objectGrid == st0.display.objectGrid
                   && r.value.display.displayObject == st0.display.displayObject)
  {
    ReadWrittenConfig(st0, st, num, vtk);
  }
}
