// Reading back what `Write` prints (src/RView.cc 917-1625): each written line
// is kept by `read_line`, split at the `=` after its padding, and reaches the
// branches of `Read` whose key it contains; so reading a written file replays
// one key at a time, which gives the settings `Read` restores.
module ConfigRoundTrip {
  import opened Types
  import opened Text
  import opened ConfigKeys
  import opened ConfigValues
  import opened ConfigFormat

  /** Every key lacks one of these groups of characters, so a value lacking a whole group holds no key. */
  predicate RefutesKeys(v: string)
  {
    ('r' !in v && 'M' !in v && 'D' !in v)
    || ('s' !in v && 'g' !in v && 'M' !in v)
    || ('l' !in v && 'M' !in v && 'g' !in v && 's' !in v)
    || ('e' !in v && 'n' !in v && 'D' !in v)
    || ('p' !in v && 'g' !in v && 's' !in v && 'v' !in v)
  }

  /** The padding and the `= ` add no character other than a blank and `=`. */
  lemma TailLacks(n: int, v: string, c: char)
    requires c != ' ' && c != '=' && c !in v
    ensures c !in Spaces(n) + "= " + v
  {
    SpacesOnly(n);
  }

  /** What follows the written key of a line whose value lacks a group of refuting characters holds no key. */
  lemma TailKeyFree(pad: int, v: string)
    requires RefutesKeys(v)
    ensures KeyFree(Spaces(pad - 1) + "= " + v)
  {
    var n := pad - 1;
    var tail := Spaces(n) + "= " + v;
    if 'r' !in v && 'M' !in v && 'D' !in v {
      TailLacks(n, v, 'r'); TailLacks(n, v, 'M'); TailLacks(n, v, 'D');
      KeyFreeWithoutRMD(tail);
    } else if 's' !in v && 'g' !in v && 'M' !in v {
      TailLacks(n, v, 's'); TailLacks(n, v, 'g'); TailLacks(n, v, 'M');
      KeyFreeWithoutSGM(tail);
    } else if 'l' !in v && 'M' !in v && 'g' !in v && 's' !in v {
      TailLacks(n, v, 'l'); TailLacks(n, v, 'M'); TailLacks(n, v, 'g'); TailLacks(n, v, 's');
      KeyFreeWithoutLMGS(tail);
    } else if 'e' !in v && 'n' !in v && 'D' !in v {
      TailLacks(n, v, 'e'); TailLacks(n, v, 'n'); TailLacks(n, v, 'D');
      KeyFreeWithoutEND(tail);
    } else {
      TailLacks(n, v, 'p'); TailLacks(n, v, 'g'); TailLacks(n, v, 's'); TailLacks(n, v, 'v');
      KeyFreeWithoutPGSV(tail);
    }
  }

  /**
   * A line `read_line` handles as `Write` meant: comments are skipped, and key
   * lines are padded, hold no key after their own and split at their `=`.
   */
  predicate WellFormed(l: Line)
  {
    match l
    case CommentLine(t) => Skipped(t)
    case KeyLine(w, pad, v) => pad >= 1 && RefutesKeys(v) && NoLeadingBlank(v)
  }

  /** `Read` on written lines when each key line hits exactly the keys its written key fires. */
  function Replay(st: Settings, ls: seq<Line>, num: NumberFormat, vtk: bool): Result<Settings, ReadError>
    decreases |ls|
  {
    if |ls| == 0 then Ok(st)
    else match ls[0]
      case CommentLine(_) => Replay(st, ls[1..], num, vtk)
      case KeyLine(w, _, v) =>
        match Effect(st, w, v, num, vtk)
        case Err(e) => Err(e)
        case Ok(next) => Replay(next, ls[1..], num, vtk)
  }

  /** `strstr` on a written key line finds exactly the keys its written key fires. */
  lemma LineHits(w: Key, pad: int, v: string)
    requires WellFormed(KeyLine(w, pad, v))
    ensures forall k :: Contains(LineText(KeyLine(w, pad, v)), KeyText(k)) <==> Fires(w, k)
  {
    var tail := Spaces(pad - 1) + "= " + v;
    var line := LineText(KeyLine(w, pad, v));
    TailKeyFree(pad, v);
    assert line == WrittenKey(w) + [' '] + tail;
    forall k
      ensures Contains(line, KeyText(k)) <==> Fires(w, k)
    {
      KeyTextNoSeparator(k);
      ContainsAcross(WrittenKey(w), ' ', tail, KeyText(k));
      WrittenKeyFires(w, k);
    }
  }

  /** The first `=` of a written key line is the one after the padding, and the value follows it. */
  lemma EqualsAfterPadding(kt: string, pad: int, v: string)
    requires '=' !in kt && pad >= 1 && NoLeadingBlank(v)
    ensures var line := kt + Spaces(pad) + "= " + v;
      FirstIndex(line, '=') == Some(|kt| + pad) && SkipBlanks(line[|kt| + pad + 1..]) == v
  {
    var line := kt + Spaces(pad) + "= " + v;
    SpacesOnly(pad);
    assert line == kt + (Spaces(pad) + ("= " + v));
    FirstIndexAfter(Spaces(pad), "= " + v, '=');
    FirstIndexAfter(kt, Spaces(pad) + ("= " + v), '=');
    assert line[|kt| + pad + 1..] == [' '] + v;
    SkipBlanksFrom([' '] + v, 0);
    assert ([' '] + v)[1..] == v;
  }

  /** `read_line` keeps a line made of a key text, blanks, `= ` and a value, and hands over the value. */
  lemma EntryOfKeyText(kt: string, pad: int, v: string, rest: seq<string>)
    requires |kt| > 0 && kt[0] != '#' && kt[0] != '\r' && '=' !in kt
    requires pad >= 1 && NoLeadingBlank(v)
    ensures var line := kt + Spaces(pad) + "= " + v;
      !Skipped(line) && NextEntry([line] + rest) == Ok(Entry(line, v, rest))
  {
    var line := kt + Spaces(pad) + "= " + v;
    assert line[0] == kt[0];
    FirstKeptAt([line] + rest, 0);
    EqualsAfterPadding(kt, pad, v);
  }

  /** A written key line is kept by `read_line`, which hands over its value. */
  lemma KeyLineEntry(w: Key, pad: int, v: string, rest: seq<string>)
    requires pad >= 1 && NoLeadingBlank(v)
    ensures !Skipped(LineText(KeyLine(w, pad, v)))
    ensures NextEntry([LineText(KeyLine(w, pad, v))] + rest) == Ok(Entry(LineText(KeyLine(w, pad, v)), v, rest))
  {
    WrittenKeyShape(w);
    WrittenKeyNoSeparator(w);
    EntryOfKeyText(WrittenKey(w), pad, v, rest);
  }

  /** `read_line` passes over a skipped line in front of a kept one. */
  lemma NextEntrySkip(c: string, lines: seq<string>)
    requires Skipped(c) && FirstKept(lines).Some?
    ensures NextEntry([c] + lines) == NextEntry(lines)
  {
    var all := [c] + lines;
    assert all[1..] == lines;
    var i := FirstKept(lines).value;
    assert FirstKept(all) == Some(i + 1);
    assert all[i + 1] == lines[i] && all[i + 2..] == lines[i + 1..];
  }

  /** A skipped line in front of a kept one changes nothing. */
  lemma SkipComment(st: Settings, c: string, lines: seq<string>, num: NumberFormat, vtk: bool)
    requires Skipped(c) && FirstKept(lines).Some?
    ensures ReadAll(st, [c] + lines, num, vtk) == ReadAll(st, lines, num, vtk)
  {
    NextEntrySkip(c, lines);
  }

  /** One pass of `Read`'s loop over a kept line. */
  lemma ReadKept(st: Settings, line: string, v: string, rest: seq<string>, num: NumberFormat, vtk: bool)
    requires NextEntry([line] + rest) == Ok(Entry(line, v, rest))
    ensures var r := ReadLineText(st, line, v, num, vtk);
      ReadAll(st, [line] + rest, num, vtk)
      == if r.Err? then Err(r.error) else ReadAll(r.value, rest, num, vtk)
  {
  }

  /** `Read`'s loop body on a written key line has the effect of that line's key. */
  lemma KeyLineBranches(st: Settings, w: Key, pad: int, v: string, num: NumberFormat, vtk: bool)
    requires WellFormed(KeyLine(w, pad, v))
    ensures ReadLineText(st, LineText(KeyLine(w, pad, v)), v, num, vtk) == Effect(st, w, v, num, vtk)
  {
    var line := LineText(KeyLine(w, pad, v));
    LineHits(w, pad, v);
    FiredFires(w);
    assert HitsOf(line) == Fired(w);
    FiredEffect(st, w, v, num, vtk);
  }

  /** `Read` on a written key line applies the branches of the keys it fires. */
  lemma ReadKeyLine(st: Settings, w: Key, pad: int, v: string, rest: seq<string>, num: NumberFormat, vtk: bool)
    requires WellFormed(KeyLine(w, pad, v))
    ensures var r := Effect(st, w, v, num, vtk);
      ReadAll(st, [LineText(KeyLine(w, pad, v))] + rest, num, vtk)
      == if r.Err? then Err(r.error) else ReadAll(r.value, rest, num, vtk)
  {
    var line := LineText(KeyLine(w, pad, v));
    KeyLineEntry(w, pad, v, rest);
    ReadKept(st, line, v, rest, num, vtk);
    KeyLineBranches(st, w, pad, v, num, vtk);
  }

  /** Every line is well formed. */
  predicate AllWellFormed(ls: seq<Line>)
    decreases |ls|
  {
    |ls| == 0 || (WellFormed(ls[0]) && AllWellFormed(ls[1..]))
  }

  /** The last line is a key line `read_line` keeps, so no comment run reaches the end of the input. */
  predicate EndsInKeyLine(ls: seq<Line>)
  {
    |ls| > 0 && ls[|ls| - 1].KeyLine? && ls[|ls| - 1].pad >= 1 && NoLeadingBlank(ls[|ls| - 1].value)
  }

  /** A comment line in front of lines that end in a key line changes nothing. */
  lemma ReadAfterComment(st: Settings, c: string, ls: seq<Line>, num: NumberFormat, vtk: bool)
    requires Skipped(c) && EndsInKeyLine(ls)
    ensures ReadAll(st, [c] + Texts(ls), num, vtk) == ReadAll(st, Texts(ls), num, vtk)
  {
    var last := ls[|ls| - 1];
    KeyLineEntry(last.key, last.pad, last.value, []);
    assert !Skipped(Texts(ls)[|ls| - 1]);
    SkipComment(st, c, Texts(ls), num, vtk);
  }

  /** The lines after the first of well-formed lines that end in a key line are such lines too. */
  lemma WrittenTail(ls: seq<Line>)
    requires |ls| > 0 && AllWellFormed(ls) && EndsInKeyLine(ls)
    ensures WellFormed(ls[0]) && AllWellFormed(ls[1..])
    ensures |ls| > 1 ==> EndsInKeyLine(ls[1..])
    ensures |ls| == 1 ==> ls[0].KeyLine?
  {
    if |ls| > 1 {
      assert ls[1..][|ls| - 2] == ls[|ls| - 1];
    }
  }

  /** `Texts` of a non-empty sequence: the first line's text, then the rest. */
  lemma TextsCons(ls: seq<Line>)
    requires |ls| > 0
    ensures Texts(ls) == [LineText(ls[0])] + Texts(ls[1..])
  {
  }

  /** A comment in front of lines read as they are replayed is replayed too. */
  lemma ReplayComment(st: Settings, ls: seq<Line>, num: NumberFormat, vtk: bool)
    requires |ls| > 1 && ls[0].CommentLine? && Skipped(ls[0].text) && EndsInKeyLine(ls[1..])
    requires ReadAll(st, Texts(ls[1..]), num, vtk) == Replay(st, ls[1..], num, vtk)
    ensures ReadAll(st, Texts(ls), num, vtk) == Replay(st, ls, num, vtk)
  {
    TextsCons(ls);
    ReadAfterComment(st, ls[0].text, ls[1..], num, vtk);
  }

  /** A key line in front of lines read as they are replayed, from any settings, is replayed too. */
  lemma ReplayKey(st: Settings, ls: seq<Line>, num: NumberFormat, vtk: bool)
    requires |ls| > 0 && ls[0].KeyLine? && WellFormed(ls[0])
    requires forall s :: ReadAll(s, Texts(ls[1..]), num, vtk) == Replay(s, ls[1..], num, vtk)
    ensures ReadAll(st, Texts(ls), num, vtk) == Replay(st, ls, num, vtk)
  {
    TextsCons(ls);
    ReadKeyLine(st, ls[0].key, ls[0].pad, ls[0].value, Texts(ls[1..]), num, vtk);
  }

  /** Reading the text of well-formed lines that end in a key line is `Replay`. */
  lemma {:induction false} ReadWritten(st: Settings, ls: seq<Line>, num: NumberFormat, vtk: bool)
    requires AllWellFormed(ls) && (|ls| > 0 ==> EndsInKeyLine(ls))
    ensures ReadAll(st, Texts(ls), num, vtk) == Replay(st, ls, num, vtk)
    decreases |ls|
  {
    if |ls| > 0 {
      WrittenTail(ls);
      forall s
        ensures ReadAll(s, Texts(ls[1..]), num, vtk) == Replay(s, ls[1..], num, vtk)
      {
        ReadWritten(s, ls[1..], num, vtk);
      }
      if ls[0].CommentLine? {
        ReplayComment(st, ls, num, vtk);
      } else {
        ReplayKey(st, ls, num, vtk);
      }
    }
  }

  // ---------------------------------------------------------------------------
  // The lines `Write` prints are well formed.

  /** A line with its `=` in the column and a value lacking a group of refuting characters is well formed. */
  lemma AlignedWellFormed(k: Key, v: string)
    requires NoLeadingBlank(v) && RefutesKeys(v)
    ensures WellFormed(Aligned(k, v))
  {
    WrittenKeyShape(k);
  }

  /** Printed numbers refute the keys and start with no blank. */
  lemma NumberRefutes(s: string)
    requires IsNumberText(s)
    ensures RefutesKeys(s) && NoLeadingBlank(s)
  {
    NumberTextLacks(s);
  }

  /** Lines that are each well formed. */
  lemma AllWellFormedFrom(ls: seq<Line>)
    requires forall i :: 0 <= i < |ls| ==> WellFormed(ls[i])
    ensures AllWellFormed(ls)
    decreases |ls|
  {
    if |ls| > 0 {
      AllWellFormedFrom(ls[1..]);
    }
  }

  lemma {:induction false} AllWellFormedAppend(a: seq<Line>, b: seq<Line>)
    requires AllWellFormed(a) && AllWellFormed(b)
    ensures AllWellFormed(a + b)
    decreases |a|
  {
    if |a| == 0 {
      assert a + b == b;
    } else {
      assert (a + b)[1..] == a[1..] + b;
      AllWellFormedAppend(a[1..], b);
    }
  }

  lemma BannerWellFormed(title: string)
    ensures AllWellFormed(Banner(title))
  {
    assert ("# " + title)[0] == '#';
    AllWellFormedFrom(Banner(title));
  }

  lemma LayoutSectionWellFormed(st: Settings, num: NumberFormat)
    requires PrintsNumbers(num)
    ensures AllWellFormed(LayoutSection(st, num))
  {
    var l := st.layout;
    ConfigTokenLacks(l.configMode);
    AlignedWellFormed(ConfigModeKey, ConfigToken(l.configMode));
    IntTextIsNumber(l.screenX);
    NumberRefutes(IntText(l.screenX));
    AlignedWellFormed(ScreenXKey, IntText(l.screenX));
    IntTextIsNumber(l.screenY);
    NumberRefutes(IntText(l.screenY));
    AlignedWellFormed(ScreenYKey, IntText(l.screenY));
    NumberRefutes(num.show(l.originX));
    AlignedWellFormed(OriginXKey, num.show(l.originX));
    NumberRefutes(num.show(l.originY));
    AlignedWellFormed(OriginYKey, num.show(l.originY));
    NumberRefutes(num.show(l.originZ));
    AlignedWellFormed(OriginZKey, num.show(l.originZ));
    NumberRefutes(num.show(l.resolution));
    AlignedWellFormed(ResolutionKey, num.show(l.resolution));
    InterpolationTokenLacks(st.interpolators.target);
    AlignedWellFormed(TargetInterpolationKey, InterpolationToken(st.interpolators.target));
    InterpolationTokenLacks(st.interpolators.source);
    AlignedWellFormed(SourceInterpolationKey, InterpolationToken(st.interpolators.source));
    AllWellFormedFrom(LayoutLines(st, num));
    BannerWellFormed("RView configuration");
    AllWellFormedAppend(Banner("RView configuration"), LayoutLines(st, num));
  }

  /** A printed flag refutes the keys. */
  lemma BoolRefutes(b: bool)
    ensures RefutesKeys(BoolText(b)) && NoLeadingBlank(BoolText(b))
  {
  }

  lemma ViewModeLinesWellFormed(m: ViewMode)
    ensures AllWellFormed(ViewModeLines(m))
  {
    if ViewToken(m).Some? {
      ViewTokenLacks(m);
      WrittenKeyShape(ViewModeKey);
      var l := ViewModeLines(m)[0];
      assert WellFormed(l);
      AllWellFormedFrom(ViewModeLines(m));
    }
  }

  /** A printed flag after its key is a well-formed line. */
  lemma FlagLineWellFormed(k: Key, b: bool)
    ensures WellFormed(Aligned(k, BoolText(b)))
  {
    BoolRefutes(b);
    AlignedWellFormed(k, BoolText(b));
  }

  lemma OverlayLinesEachWellFormed(d: Display, num: NumberFormat)
    requires PrintsNumbers(num)
    ensures forall i | 0 <= i < |OverlayLines(d, num)| :: WellFormed(OverlayLines(d, num)[i])
  {
    NumberRefutes(num.show(d.viewMix));
    AlignedWellFormed(ViewMixKey, num.show(d.viewMix));
    FlagLineWellFormed(TargetContourKey, d.targetContour);
    FlagLineWellFormed(SourceContourKey, d.sourceContour);
    FlagLineWellFormed(CursorKey, d.cursor);
    CursorTokenLacks(d.cursorMode);
    AlignedWellFormed(CursorModeKey, CursorToken(d.cursorMode));
    FlagLineWellFormed(DeformationGridKey, d.deformationGrid);
    FlagLineWellFormed(DeformationPointsKey, d.deformationPoints);
    FlagLineWellFormed(DeformationArrowsKey, d.deformationArrows);
    FlagLineWellFormed(LandmarksKey, d.landmarks);
  }

  lemma OverlayLinesWellFormed(d: Display, num: NumberFormat)
    requires PrintsNumbers(num)
    ensures AllWellFormed(OverlayLines(d, num))
  {
    OverlayLinesEachWellFormed(d, num);
    AllWellFormedFrom(OverlayLines(d, num));
  }

  lemma ObjectLinesWellFormed(d: Display, vtk: bool)
    ensures AllWellFormed(ObjectLines(d, vtk))
  {
    if vtk {
      BoolRefutes(d.displayObject);
      AlignedWellFormed(ObjectKey, BoolText(d.displayObject));
      BoolRefutes(d.objectWarp);
      AlignedWellFormed(ObjectWarpKey, BoolText(d.objectWarp));
      BoolRefutes(d.objectGrid);
      AlignedWellFormed(ObjectGridKey, BoolText(d.objectGrid));
      AllWellFormedFrom(ObjectLines(d, vtk));
    }
  }

  lemma DisplaySectionWellFormed(st: Settings, num: NumberFormat, vtk: bool)
    requires PrintsNumbers(num)
    ensures AllWellFormed(DisplaySection(st, num, vtk))
  {
    var d := st.display;
    var b := Banner("Display configuration");
    BannerWellFormed("Display configuration");
    ViewModeLinesWellFormed(d.viewMode);
    OverlayLinesWellFormed(d, num);
    ObjectLinesWellFormed(d, vtk);
    AllWellFormedAppend(b, ViewModeLines(d.viewMode));
    AllWellFormedAppend(b + ViewModeLines(d.viewMode), OverlayLines(d, num));
    AllWellFormedAppend(b + ViewModeLines(d.viewMode) + OverlayLines(d, num), ObjectLines(d, vtk));
  }

  lemma LutLinesWellFormed(t: Lut, minKey: Key, maxKey: Key, modeKey: Key)
    ensures AllWellFormed(LutLines(t, minKey, maxKey, modeKey))
  {
    IntTextIsNumber(t.minDisplay);
    NumberRefutes(IntText(t.minDisplay));
    AlignedWellFormed(minKey, IntText(t.minDisplay));
    IntTextIsNumber(t.maxDisplay);
    NumberRefutes(IntText(t.maxDisplay));
    AlignedWellFormed(maxKey, IntText(t.maxDisplay));
    ColorTokenLacks(t.mode);
    AlignedWellFormed(modeKey, ColorToken(t.mode));
    AllWellFormedFrom(LutLines(t, minKey, maxKey, modeKey));
  }

  lemma LutSectionWellFormed(st: Settings)
    ensures AllWellFormed(LutSection(st))
  {
    var a := LutLines(st.targetLut, TargetLutMinKey, TargetLutMaxKey, TargetLutModeKey);
    var b := LutLines(st.sourceLut, SourceLutMinKey, SourceLutMaxKey, SourceLutModeKey);
    var c := LutLines(st.subtractionLut, SubtractionLutMinKey, SubtractionLutMaxKey, SubtractionLutModeKey);
    BannerWellFormed("LookupTables");
    LutLinesWellFormed(st.targetLut, TargetLutMinKey, TargetLutMaxKey, TargetLutModeKey);
    LutLinesWellFormed(st.sourceLut, SourceLutMinKey, SourceLutMaxKey, SourceLutModeKey);
    LutLinesWellFormed(st.subtractionLut, SubtractionLutMinKey, SubtractionLutMaxKey, SubtractionLutModeKey);
    AllWellFormedAppend(Banner("LookupTables"), a);
    AllWellFormedAppend(Banner("LookupTables") + a, b);
    AllWellFormedAppend(Banner("LookupTables") + a + b, c);
  }

  /** Every line `Write` prints is well formed, and the last one is a key line. */
  lemma WriteLinesWellFormed(st: Settings, num: NumberFormat, vtk: bool)
    requires PrintsNumbers(num)
    ensures AllWellFormed(WriteLines(st, num, vtk)) && EndsInKeyLine(WriteLines(st, num, vtk))
  {
    LayoutSectionWellFormed(st, num);
    DisplaySectionWellFormed(st, num, vtk);
    LutSectionWellFormed(st);
    AllWellFormedAppend(LayoutSection(st, num), DisplaySection(st, num, vtk));
    AllWellFormedAppend(LayoutSection(st, num) + DisplaySection(st, num, vtk), LutSection(st));
    var ls := WriteLines(st, num, vtk);
    var m := st.subtractionLut.mode;
    assert ls[|ls| - 1] == Aligned(SubtractionLutModeKey, ColorToken(m));
    WrittenKeyShape(SubtractionLutModeKey);
    ColorTokenLacks(m);
  }
}
