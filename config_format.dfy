// The RView configuration file: `read_line` and `Read` (src/RView.cc 917-1356)
// turn its lines into viewer settings, `Write` (1358-1625) turns settings into
// lines. A file is modelled as the lines `getline` returns for it, so every line
// of the file, the last one included, ends in a newline.
module ConfigFormat {
  import opened Types
  import opened Text
  import opened ConfigKeys
  import opened ConfigValues

  /** Screen layout and size, display origin and resolution. */
  datatype Layout = Layout(
    configMode: ConfigMode, screenX: int, screenY: int,
    originX: real, originY: real, originZ: real, resolution: real)

  /** The modes the target and source interpolators were created with. */
  datatype Interpolators = Interpolators(target: InterpolationMode, source: InterpolationMode)

  /** How the two images are shown, and which overlays are on. */
  datatype Display = Display(
    viewMode: ViewMode, viewMix: real,
    targetContour: bool, sourceContour: bool, cursor: bool, cursorMode: CursorMode,
    deformationGrid: bool, deformationPoints: bool, deformationArrows: bool, landmarks: bool,
    displayObject: bool, objectWarp: bool, objectGrid: bool)

  /** One lookup table's display window and colour mode. */
  datatype Lut = Lut(minDisplay: int, maxDisplay: int, mode: ColorMode)

  /** Everything a configuration file sets. */
  datatype Settings = Settings(
    layout: Layout, interpolators: Interpolators, display: Display,
    targetLut: Lut, sourceLut: Lut, subtractionLut: Lut)

  /** The two fatal conditions of reading, where the viewer exits. */
  datatype ReadError = MissingEquals(line: string) | UnknownInterpolation(value: string)

  /** How the output stream prints a `double` and how `atof` reads text back; both are library code. */
  datatype NumberFormat = NumberFormat(show: real -> string, parse: string -> real)

  /** The stream prints numbers with number characters only. */
  ghost predicate PrintsNumbers(num: NumberFormat)
  {
    forall x :: IsNumberText(num.show(x))
  }

  // ---------------------------------------------------------------------------
  // One line: the independent `if (strstr(buffer1, key))` branches of `Read`.
  // `k in hits` tells whether the line contains the text of key `k`, `v` is the
  // value after `=`.

  /** A `strcmp` chain without a final `else` keeps the current value when no token matches. */
  function Chosen<T>(parsed: Option<T>, current: T): T
  {
    if parsed.Some? then parsed.value else current
  }

  /** A flag read with `atoi` and stored as a boolean. */
  function Flag(v: string): bool
  {
    Atoi(v) != 0
  }

  function ReadLayout(l: Layout, hits: set<Key>, v: string, num: NumberFormat): Layout
  {
    var configMode := if ConfigModeKey in hits then Chosen(ParseConfigMode(v), l.configMode) else l.configMode;
    // The `screenX` branch stores into the height, as the `screenY` branch does.
    var height := if ScreenXKey in hits then Atoi(v) else l.screenY;
    var height' := if ScreenYKey in hits then Atoi(v) else height;
    Layout(
      configMode, l.screenX, height',
      if OriginXKey in hits then num.parse(v) else l.originX,
      if OriginYKey in hits then num.parse(v) else l.originY,
      if OriginZKey in hits then num.parse(v) else l.originZ,
      if ResolutionKey in hits then num.parse(v) else l.resolution)
  }

  /**
   * Both interpolators are recreated on every line: the target one with nearest
   * neighbour unless the line names its mode, the source one with the target's
   * mode unless the line names the source mode. An unknown token is fatal.
   */
  function ReadInterpolators(hits: set<Key>, v: string): Result<Interpolators, ReadError>
  {
    var target := if TargetInterpolationKey in hits then ParseInterpolation(v) else Some(NN);
    if target.None? then Err(UnknownInterpolation(v))
    else
      var source := if SourceInterpolationKey in hits then ParseInterpolation(v) else target;
      if source.None? then Err(UnknownInterpolation(v))
      else Ok(Interpolators(target.value, source.value))
  }

  /** The display branches; the three object flags exist only in a build with VTK. */
  function ReadDisplay(d: Display, hits: set<Key>, v: string, num: NumberFormat, vtk: bool): Display
  {
    var displayObject := if vtk && ObjectKey in hits then Flag(v) else d.displayObject;
    Display(
      if ViewModeKey in hits then Chosen(ParseViewMode(v), d.viewMode) else d.viewMode,
      if ViewMixKey in hits then num.parse(v) else d.viewMix,
      if TargetContourKey in hits then Flag(v) else d.targetContour,
      if SourceContourKey in hits then Flag(v) else d.sourceContour,
      if CursorKey in hits then Flag(v) else d.cursor,
      if CursorModeKey in hits then Chosen(ParseCursorMode(v), d.cursorMode) else d.cursorMode,
      if DeformationGridKey in hits then Flag(v) else d.deformationGrid,
      if DeformationPointsKey in hits then Flag(v) else d.deformationPoints,
      if DeformationArrowsKey in hits then Flag(v) else d.deformationArrows,
      if LandmarksKey in hits then Flag(v) else d.landmarks,
      displayObject,
      if vtk && ObjectWarpKey in hits then Flag(v) else d.objectWarp,
      if vtk && ObjectGridKey in hits then Flag(v) else d.objectGrid)
  }

  /** The branches of one lookup table: its window bounds read with `atoi`, and its colour mode. */
  function ReadLut(t: Lut, hits: set<Key>, minKey: Key, maxKey: Key, modeKey: Key, v: string): Lut
  {
    Lut(
      if minKey in hits then Atoi(v) else t.minDisplay,
      if maxKey in hits then Atoi(v) else t.maxDisplay,
      if modeKey in hits then Chosen(ParseColorMode(v), t.mode) else t.mode)
  }

  /** The body of `Read`'s loop for one line. */
  function ReadEntry(st: Settings, hits: set<Key>, v: string, num: NumberFormat, vtk: bool): Result<Settings, ReadError>
  {
    match ReadInterpolators(hits, v)
    case Err(e) => Err(e)
    case Ok(ip) =>
      Ok(Settings(
        ReadLayout(st.layout, hits, v, num),
        ip,
        ReadDisplay(st.display, hits, v, num, vtk),
        ReadLut(st.targetLut, hits, TargetLutMinKey, TargetLutMaxKey, TargetLutModeKey, v),
        ReadLut(st.sourceLut, hits, SourceLutMinKey, SourceLutMaxKey, SourceLutModeKey, v),
        ReadLut(st.subtractionLut, hits, SubtractionLutMinKey, SubtractionLutMaxKey, SubtractionLutModeKey, v)))
  }

  /** `strstr(buffer1, key) != nullptr`: the keys found anywhere in the line, the value included. */
  function HitsOf(line: string): (r: set<Key>)
    ensures forall k :: k in r <==> Contains(line, KeyText(k))
  {
    set k: Key | Contains(line, KeyText(k))
  }

  /** `Read`'s loop body for a line. */
  function ReadLineText(st: Settings, line: string, v: string, num: NumberFormat, vtk: bool): Result<Settings, ReadError>
  {
    ReadEntry(st, HitsOf(line), v, num, vtk)
  }

  // ---------------------------------------------------------------------------
  // `read_line` and the loop of `Read`.

  /** Lines `read_line` passes over: empty ones, comments, and lines starting with a carriage return. */
  predicate Skipped(line: string)
  {
    |line| == 0 || line[0] == '#' || line[0] == '\r'
  }

  /** The position of the first line `read_line` keeps. */
  function FirstKept(lines: seq<string>): (r: Option<nat>)
    ensures r.Some? ==> r.value < |lines| && !Skipped(lines[r.value])
    ensures r.Some? ==> forall j :: 0 <= j < r.value ==> Skipped(lines[j])
    ensures r.None? ==> forall j :: 0 <= j < |lines| ==> Skipped(lines[j])
  {
    if |lines| == 0 then None
    else if !Skipped(lines[0]) then Some(0)
    else match FirstKept(lines[1..])
      case None => None
      case Some(i) => Some(i + 1)
  }

  /** The first kept line is the first line that is not skipped. */
  lemma FirstKeptAt(lines: seq<string>, p: nat)
    requires p <= |lines| && forall j :: 0 <= j < p ==> Skipped(lines[j])
    requires p < |lines| ==> !Skipped(lines[p])
    ensures FirstKept(lines) == if p == |lines| then None else Some(p)
  {
  }

  /** What one call of `read_line` leaves behind: the line, the value after its `=`, and the lines still unread. */
  datatype Entry = Entry(line: string, value: string, rest: seq<string>)

  /**
   * `read_line`: skip ignored lines, fail on a kept line without `=`, and
   * return the text after the first `=` without its leading blanks. When the
   * input runs out while skipping, the buffer is left empty; an empty buffer
   * holds no key, so the value is never looked at.
   */
  function NextEntry(lines: seq<string>): (r: Result<Entry, ReadError>)
    ensures r.Ok? && |lines| > 0 ==> |r.value.rest| < |lines|
  {
    match FirstKept(lines)
    case None => Ok(Entry("", "", []))
    case Some(i) =>
      match FirstIndex(lines[i], '=')
      case None => Err(MissingEquals(lines[i]))
      case Some(e) => Ok(Entry(lines[i], SkipBlanks(lines[i][e + 1..]), lines[i + 1..]))
  }

  /** `Read` on the lines of a file, starting from the settings `st`. */
  function ReadAll(st: Settings, lines: seq<string>, num: NumberFormat, vtk: bool): Result<Settings, ReadError>
    decreases |lines|
  {
    if |lines| == 0 then Ok(st)
    else match NextEntry(lines)
      case Err(e) => Err(e)
      case Ok(entry) =>
        match ReadLineText(st, entry.line, entry.value, num, vtk)
        case Err(e) => Err(e)
        case Ok(next) => ReadAll(next, entry.rest, num, vtk)
  }

  /** The first loop of `read_line`: pass over ignored lines. */
  method SkipIgnored(lines: seq<string>) returns (p: nat)
    ensures p <= |lines|
    ensures FirstKept(lines) == if p == |lines| then None else Some(p)
  {
    p := 0;
    while p < |lines| && Skipped(lines[p])
      invariant p <= |lines|
      invariant forall j :: 0 <= j < p ==> Skipped(lines[j])
    {
      p := p + 1;
    }
    FirstKeptAt(lines, p);
  }

  /** The second loop of `read_line`: step over the blanks after `=`. */
  method SkipBlankRun(tail: string) returns (q: nat)
    ensures q <= |tail| && tail[q..] == SkipBlanks(tail)
  {
    q := 0;
    while q < |tail| && IsBlank(tail[q])
      invariant q <= |tail|
      invariant SkipBlanks(tail) == SkipBlanks(tail[q..])
    {
      SkipBlanksFrom(tail, q);
      q := q + 1;
    }
    SkipBlanksFrom(tail, q);
  }

  /** `read_line`: its two loops around the `strchr` for `=`. */
  method ReadLine(lines: seq<string>) returns (r: Result<Entry, ReadError>)
    ensures r == NextEntry(lines)
  {
    var p := SkipIgnored(lines);
    if p == |lines| {
      return Ok(Entry("", "", []));
    }
    var line := lines[p];
    var e := FirstIndex(line, '=');
    if e.None? {
      return Err(MissingEquals(line));
    }
    var tail := line[e.value + 1..];
    var q := SkipBlankRun(tail);
    return Ok(Entry(line, tail[q..], lines[p + 1..]));
  }

  /** `Read`'s loop: one `read_line` and one pass of the key branches per iteration, until the input is exhausted. */
  method Read(st0: Settings, lines: seq<string>, num: NumberFormat, vtk: bool) returns (r: Result<Settings, ReadError>)
    ensures r == ReadAll(st0, lines, num, vtk)
  {
    var st := st0;
    var rest := lines;
    while |rest| > 0
      invariant ReadAll(st, rest, num, vtk) == ReadAll(st0, lines, num, vtk)
      decreases |rest|
    {
      var entry := ReadLine(rest);
      if entry.Err? {
        return Err(entry.error);
      }
      var next := ReadLineText(st, entry.value.line, entry.value.value, num, vtk);
      if next.Err? {
        return Err(next.error);
      }
      st := next.value;
      rest := entry.value.rest;
    }
    return Ok(st);
  }

  // ---------------------------------------------------------------------------
  // A line that holds a single key.

  /**
   * What `Read` does with a line `Write` prints for key `w`, setting by
   * setting: the setting of `w` takes the value, and the interpolators are
   * recreated, with nearest neighbour unless `w` names an interpolation. In a
   * build with VTK the `DisplayObjectWarp` and `DisplayObjectGrid` lines also
   * set `DisplayObject`, whose key is a prefix of theirs.
   */
  function Effect(s: Settings, w: Key, v: string, num: NumberFormat, vtk: bool): Result<Settings, ReadError>
  {
    var r := s.(interpolators := Interpolators(NN, NN));
    var l := s.layout;
    var d := s.display;
    match w
    case ConfigModeKey => Ok(r.(layout := l.(configMode := Chosen(ParseConfigMode(v), l.configMode))))
    case ScreenXKey => Ok(r.(layout := l.(screenY := Atoi(v))))
    case ScreenYKey => Ok(r.(layout := l.(screenY := Atoi(v))))
    case OriginXKey => Ok(r.(layout := l.(originX := num.parse(v))))
    case OriginYKey => Ok(r.(layout := l.(originY := num.parse(v))))
    case OriginZKey => Ok(r.(layout := l.(originZ := num.parse(v))))
    case ResolutionKey => Ok(r.(layout := l.(resolution := num.parse(v))))
    case TargetInterpolationKey =>
      if ParseInterpolation(v).None? then Err(UnknownInterpolation(v))
      else Ok(s.(interpolators := Interpolators(ParseInterpolation(v).value, ParseInterpolation(v).value)))
    case SourceInterpolationKey =>
      if ParseInterpolation(v).None? then Err(UnknownInterpolation(v))
      else Ok(s.(interpolators := Interpolators(NN, ParseInterpolation(v).value)))
    case ViewModeKey => Ok(r.(display := d.(viewMode := Chosen(ParseViewMode(v), d.viewMode))))
    case ViewMixKey => Ok(r.(display := d.(viewMix := num.parse(v))))
    case TargetContourKey => Ok(r.(display := d.(targetContour := Flag(v))))
    case SourceContourKey => Ok(r.(display := d.(sourceContour := Flag(v))))
    case CursorKey => Ok(r.(display := d.(cursor := Flag(v))))
    case CursorModeKey => Ok(r.(display := d.(cursorMode := Chosen(ParseCursorMode(v), d.cursorMode))))
    case DeformationGridKey => Ok(r.(display := d.(deformationGrid := Flag(v))))
    case DeformationPointsKey => Ok(r.(display := d.(deformationPoints := Flag(v))))
    case DeformationArrowsKey => Ok(r.(display := d.(deformationArrows := Flag(v))))
    case LandmarksKey => Ok(r.(display := d.(landmarks := Flag(v))))
    case ObjectKey => Ok(if vtk then r.(display := d.(displayObject := Flag(v))) else r)
    case ObjectWarpKey => Ok(if vtk then r.(display := d.(displayObject := Flag(v), objectWarp := Flag(v))) else r)
    case ObjectGridKey => Ok(if vtk then r.(display := d.(displayObject := Flag(v), objectGrid := Flag(v))) else r)
    case TargetLutMinKey => Ok(r.(targetLut := s.targetLut.(minDisplay := Atoi(v))))
    case TargetLutMaxKey => Ok(r.(targetLut := s.targetLut.(maxDisplay := Atoi(v))))
    case TargetLutModeKey => Ok(r.(targetLut := s.targetLut.(mode := Chosen(ParseColorMode(v), s.targetLut.mode))))
    case SourceLutMinKey => Ok(r.(sourceLut := s.sourceLut.(minDisplay := Atoi(v))))
    case SourceLutMaxKey => Ok(r.(sourceLut := s.sourceLut.(maxDisplay := Atoi(v))))
    case SourceLutModeKey => Ok(r.(sourceLut := s.sourceLut.(mode := Chosen(ParseColorMode(v), s.sourceLut.mode))))
    case SubtractionLutMinKey => Ok(r.(subtractionLut := s.subtractionLut.(minDisplay := Atoi(v))))
    case SubtractionLutMaxKey => Ok(r.(subtractionLut := s.subtractionLut.(maxDisplay := Atoi(v))))
    case SubtractionLutModeKey => Ok(r.(subtractionLut := s.subtractionLut.(mode := Chosen(ParseColorMode(v), s.subtractionLut.mode))))
  }

  /** The keys whose search succeeds on the line `Write` prints for `w`. */
  function Fired(w: Key): set<Key>
  {
    if w == ObjectWarpKey || w == ObjectGridKey then {w, ObjectKey} else {w}
  }

  /** `Fired` holds the keys `Fires` names. */
  lemma FiredFires(w: Key)
    ensures forall k :: k in Fired(w) <==> Fires(w, k)
  {
  }

  // A line that reaches none of a group's branches leaves that group as it was.

  lemma LayoutUnread(l: Layout, hits: set<Key>, v: string, num: NumberFormat)
    requires ConfigModeKey !in hits && ScreenXKey !in hits && ScreenYKey !in hits && OriginXKey !in hits &&
             OriginYKey !in hits && OriginZKey !in hits && ResolutionKey !in hits
    ensures ReadLayout(l, hits, v, num) == l
  {
  }

  /** Without an interpolation key both interpolators are recreated with nearest neighbour. */
  lemma InterpolatorsDefault(hits: set<Key>, v: string)
    requires TargetInterpolationKey !in hits && SourceInterpolationKey !in hits
    ensures ReadInterpolators(hits, v) == Ok(Interpolators(NN, NN))
  {
  }

  lemma DisplayUnread(d: Display, hits: set<Key>, v: string, num: NumberFormat, vtk: bool)
    requires ViewModeKey !in hits && ViewMixKey !in hits && TargetContourKey !in hits &&
             SourceContourKey !in hits && CursorKey !in hits && CursorModeKey !in hits &&
             DeformationGridKey !in hits && DeformationPointsKey !in hits && DeformationArrowsKey !in hits &&
             LandmarksKey !in hits && ObjectKey !in hits && ObjectWarpKey !in hits && ObjectGridKey !in hits
    ensures ReadDisplay(d, hits, v, num, vtk) == d
  {
  }

  lemma LutUnread(t: Lut, hits: set<Key>, minKey: Key, maxKey: Key, modeKey: Key, v: string)
    requires minKey !in hits && maxKey !in hits && modeKey !in hits
    ensures ReadLut(t, hits, minKey, maxKey, modeKey, v) == t
  {
  }

  // One lemma per key: the line of that key reaches its own branch (and, for
  // the object keys, the `DisplayObject` branch) and no other.

  lemma ConfigModeLineEffect(s: Settings, v: string, num: NumberFormat, vtk: bool)
    ensures ReadEntry(s, Fired(ConfigModeKey), v, num, vtk) == Effect(s, ConfigModeKey, v, num, vtk)
  {
    var hits := Fired(ConfigModeKey);
    InterpolatorsDefault(hits, v);
    DisplayUnread(s.display, hits, v, num, vtk);
    LutUnread(s.targetLut, hits, TargetLutMinKey, TargetLutMaxKey, TargetLutModeKey, v);
    LutUnread(s.sourceLut, hits, SourceLutMinKey, SourceLutMaxKey, SourceLutModeKey, v);
    LutUnread(s.subtractionLut, hits, SubtractionLutMinKey, SubtractionLutMaxKey, SubtractionLutModeKey, v);
  }

  lemma ScreenXLineEffect(s: Settings, v: string, num: NumberFormat, vtk: bool)
    ensures ReadEntry(s, Fired(ScreenXKey), v, num, vtk) == Effect(s, ScreenXKey, v, num, vtk)
  {
    var hits := Fired(ScreenXKey);
    InterpolatorsDefault(hits, v);
    DisplayUnread(s.display, hits, v, num, vtk);
    LutUnread(s.targetLut, hits, TargetLutMinKey, TargetLutMaxKey, TargetLutModeKey, v);
    LutUnread(s.sourceLut, hits, SourceLutMinKey, SourceLutMaxKey, SourceLutModeKey, v);
    LutUnread(s.subtractionLut, hits, SubtractionLutMinKey, SubtractionLutMaxKey, SubtractionLutModeKey, v);
  }

  lemma ScreenYLineEffect(s: Settings, v: string, num: NumberFormat, vtk: bool)
    ensures ReadEntry(s, Fired(ScreenYKey), v, num, vtk) == Effect(s, ScreenYKey, v, num, vtk)
  {
    var hits := Fired(ScreenYKey);
    InterpolatorsDefault(hits, v);
    DisplayUnread(s.display, hits, v, num, vtk);
    LutUnread(s.targetLut, hits, TargetLutMinKey, TargetLutMaxKey, TargetLutModeKey, v);
    LutUnread(s.sourceLut, hits, SourceLutMinKey, SourceLutMaxKey, SourceLutModeKey, v);
    LutUnread(s.subtractionLut, hits, SubtractionLutMinKey, SubtractionLutMaxKey, SubtractionLutModeKey, v);
  }

  lemma OriginXLineEffect(s: Settings, v: string, num: NumberFormat, vtk: bool)
    ensures ReadEntry(s, Fired(OriginXKey), v, num, vtk) == Effect(s, OriginXKey, v, num, vtk)
  {
    var hits := Fired(OriginXKey);
    InterpolatorsDefault(hits, v);
    DisplayUnread(s.display, hits, v, num, vtk);
    LutUnread(s.targetLut, hits, TargetLutMinKey, TargetLutMaxKey, TargetLutModeKey, v);
    LutUnread(s.sourceLut, hits, SourceLutMinKey, SourceLutMaxKey, SourceLutModeKey, v);
    LutUnread(s.subtractionLut, hits, SubtractionLutMinKey, SubtractionLutMaxKey, SubtractionLutModeKey, v);
  }

  lemma OriginYLineEffect(s: Settings, v: string, num: NumberFormat, vtk: bool)
    ensures ReadEntry(s, Fired(OriginYKey), v, num, vtk) == Effect(s, OriginYKey, v, num, vtk)
  {
    var hits := Fired(OriginYKey);
    InterpolatorsDefault(hits, v);
    DisplayUnread(s.display, hits, v, num, vtk);
    LutUnread(s.targetLut, hits, TargetLutMinKey, TargetLutMaxKey, TargetLutModeKey, v);
    LutUnread(s.sourceLut, hits, SourceLutMinKey, SourceLutMaxKey, SourceLutModeKey, v);
    LutUnread(s.subtractionLut, hits, SubtractionLutMinKey, SubtractionLutMaxKey, SubtractionLutModeKey, v);
  }

  lemma OriginZLineEffect(s: Settings, v: string, num: NumberFormat, vtk: bool)
    ensures ReadEntry(s, Fired(OriginZKey), v, num, vtk) == Effect(s, OriginZKey, v, num, vtk)
  {
    var hits := Fired(OriginZKey);
    InterpolatorsDefault(hits, v);
    DisplayUnread(s.display, hits, v, num, vtk);
    LutUnread(s.targetLut, hits, TargetLutMinKey, TargetLutMaxKey, TargetLutModeKey, v);
    LutUnread(s.sourceLut, hits, SourceLutMinKey, SourceLutMaxKey, SourceLutModeKey, v);
    LutUnread(s.subtractionLut, hits, SubtractionLutMinKey, SubtractionLutMaxKey, SubtractionLutModeKey, v);
  }

  lemma ResolutionLineEffect(s: Settings, v: string, num: NumberFormat, vtk: bool)
    ensures ReadEntry(s, Fired(ResolutionKey), v, num, vtk) == Effect(s, ResolutionKey, v, num, vtk)
  {
    var hits := Fired(ResolutionKey);
    InterpolatorsDefault(hits, v);
    DisplayUnread(s.display, hits, v, num, vtk);
    LutUnread(s.targetLut, hits, TargetLutMinKey, TargetLutMaxKey, TargetLutModeKey, v);
    LutUnread(s.sourceLut, hits, SourceLutMinKey, SourceLutMaxKey, SourceLutModeKey, v);
    LutUnread(s.subtractionLut, hits, SubtractionLutMinKey, SubtractionLutMaxKey, SubtractionLutModeKey, v);
  }

  lemma TargetInterpolationLineEffect(s: Settings, v: string, num: NumberFormat, vtk: bool)
    ensures ReadEntry(s, Fired(TargetInterpolationKey), v, num, vtk) == Effect(s, TargetInterpolationKey, v, num, vtk)
  {
    var hits := Fired(TargetInterpolationKey);
    LayoutUnread(s.layout, hits, v, num);
    DisplayUnread(s.display, hits, v, num, vtk);
    LutUnread(s.targetLut, hits, TargetLutMinKey, TargetLutMaxKey, TargetLutModeKey, v);
    LutUnread(s.sourceLut, hits, SourceLutMinKey, SourceLutMaxKey, SourceLutModeKey, v);
    LutUnread(s.subtractionLut, hits, SubtractionLutMinKey, SubtractionLutMaxKey, SubtractionLutModeKey, v);
  }

  lemma SourceInterpolationLineEffect(s: Settings, v: string, num: NumberFormat, vtk: bool)
    ensures ReadEntry(s, Fired(SourceInterpolationKey), v, num, vtk) == Effect(s, SourceInterpolationKey, v, num, vtk)
  {
    var hits := Fired(SourceInterpolationKey);
    LayoutUnread(s.layout, hits, v, num);
    DisplayUnread(s.display, hits, v, num, vtk);
    LutUnread(s.targetLut, hits, TargetLutMinKey, TargetLutMaxKey, TargetLutModeKey, v);
    LutUnread(s.sourceLut, hits, SourceLutMinKey, SourceLutMaxKey, SourceLutModeKey, v);
    LutUnread(s.subtractionLut, hits, SubtractionLutMinKey, SubtractionLutMaxKey, SubtractionLutModeKey, v);
  }

  lemma ViewModeLineEffect(s: Settings, v: string, num: NumberFormat, vtk: bool)
    ensures ReadEntry(s, Fired(ViewModeKey), v, num, vtk) == Effect(s, ViewModeKey, v, num, vtk)
  {
    var hits := Fired(ViewModeKey);
    LayoutUnread(s.layout, hits, v, num);
    InterpolatorsDefault(hits, v);
    LutUnread(s.targetLut, hits, TargetLutMinKey, TargetLutMaxKey, TargetLutModeKey, v);
    LutUnread(s.sourceLut, hits, SourceLutMinKey, SourceLutMaxKey, SourceLutModeKey, v);
    LutUnread(s.subtractionLut, hits, SubtractionLutMinKey, SubtractionLutMaxKey, SubtractionLutModeKey, v);
  }

  lemma ViewMixLineEffect(s: Settings, v: string, num: NumberFormat, vtk: bool)
    ensures ReadEntry(s, Fired(ViewMixKey), v, num, vtk) == Effect(s, ViewMixKey, v, num, vtk)
  {
    var hits := Fired(ViewMixKey);
    LayoutUnread(s.layout, hits, v, num);
    InterpolatorsDefault(hits, v);
    LutUnread(s.targetLut, hits, TargetLutMinKey, TargetLutMaxKey, TargetLutModeKey, v);
    LutUnread(s.sourceLut, hits, SourceLutMinKey, SourceLutMaxKey, SourceLutModeKey, v);
    LutUnread(s.subtractionLut, hits, SubtractionLutMinKey, SubtractionLutMaxKey, SubtractionLutModeKey, v);
  }

  lemma TargetContourLineEffect(s: Settings, v: string, num: NumberFormat, vtk: bool)
    ensures ReadEntry(s, Fired(TargetContourKey), v, num, vtk) == Effect(s, TargetContourKey, v, num, vtk)
  {
    var hits := Fired(TargetContourKey);
    LayoutUnread(s.layout, hits, v, num);
    InterpolatorsDefault(hits, v);
    LutUnread(s.targetLut, hits, TargetLutMinKey, TargetLutMaxKey, TargetLutModeKey, v);
    LutUnread(s.sourceLut, hits, SourceLutMinKey, SourceLutMaxKey, SourceLutModeKey, v);
    LutUnread(s.subtractionLut, hits, SubtractionLutMinKey, SubtractionLutMaxKey, SubtractionLutModeKey, v);
  }

  lemma SourceContourLineEffect(s: Settings, v: string, num: NumberFormat, vtk: bool)
    ensures ReadEntry(s, Fired(SourceContourKey), v, num, vtk) == Effect(s, SourceContourKey, v, num, vtk)
  {
    var hits := Fired(SourceContourKey);
    LayoutUnread(s.layout, hits, v, num);
    InterpolatorsDefault(hits, v);
    LutUnread(s.targetLut, hits, TargetLutMinKey, TargetLutMaxKey, TargetLutModeKey, v);
    LutUnread(s.sourceLut, hits, SourceLutMinKey, SourceLutMaxKey, SourceLutModeKey, v);
    LutUnread(s.subtractionLut, hits, SubtractionLutMinKey, SubtractionLutMaxKey, SubtractionLutModeKey, v);
  }

  lemma CursorLineEffect(s: Settings, v: string, num: NumberFormat, vtk: bool)
    ensures ReadEntry(s, Fired(CursorKey), v, num, vtk) == Effect(s, CursorKey, v, num, vtk)
  {
    var hits := Fired(CursorKey);
    LayoutUnread(s.layout, hits, v, num);
    InterpolatorsDefault(hits, v);
    LutUnread(s.targetLut, hits, TargetLutMinKey, TargetLutMaxKey, TargetLutModeKey, v);
    LutUnread(s.sourceLut, hits, SourceLutMinKey, SourceLutMaxKey, SourceLutModeKey, v);
    LutUnread(s.subtractionLut, hits, SubtractionLutMinKey, SubtractionLutMaxKey, SubtractionLutModeKey, v);
  }

  lemma CursorModeLineEffect(s: Settings, v: string, num: NumberFormat, vtk: bool)
    ensures ReadEntry(s, Fired(CursorModeKey), v, num, vtk) == Effect(s, CursorModeKey, v, num, vtk)
  {
    var hits := Fired(CursorModeKey);
    LayoutUnread(s.layout, hits, v, num);
    InterpolatorsDefault(hits, v);
    LutUnread(s.targetLut, hits, TargetLutMinKey, TargetLutMaxKey, TargetLutModeKey, v);
    LutUnread(s.sourceLut, hits, SourceLutMinKey, SourceLutMaxKey, SourceLutModeKey, v);
    LutUnread(s.subtractionLut, hits, SubtractionLutMinKey, SubtractionLutMaxKey, SubtractionLutModeKey, v);
  }

  lemma DeformationGridLineEffect(s: Settings, v: string, num: NumberFormat, vtk: bool)
    ensures ReadEntry(s, Fired(DeformationGridKey), v, num, vtk) == Effect(s, DeformationGridKey, v, num, vtk)
  {
    var hits := Fired(DeformationGridKey);
    LayoutUnread(s.layout, hits, v, num);
    InterpolatorsDefault(hits, v);
    LutUnread(s.targetLut, hits, TargetLutMinKey, TargetLutMaxKey, TargetLutModeKey, v);
    LutUnread(s.sourceLut, hits, SourceLutMinKey, SourceLutMaxKey, SourceLutModeKey, v);
    LutUnread(s.subtractionLut, hits, SubtractionLutMinKey, SubtractionLutMaxKey, SubtractionLutModeKey, v);
  }

  lemma DeformationPointsLineEffect(s: Settings, v: string, num: NumberFormat, vtk: bool)
    ensures ReadEntry(s, Fired(DeformationPointsKey), v, num, vtk) == Effect(s, DeformationPointsKey, v, num, vtk)
  {
    var hits := Fired(DeformationPointsKey);
    LayoutUnread(s.layout, hits, v, num);
    InterpolatorsDefault(hits, v);
    LutUnread(s.targetLut, hits, TargetLutMinKey, TargetLutMaxKey, TargetLutModeKey, v);
    LutUnread(s.sourceLut, hits, SourceLutMinKey, SourceLutMaxKey, SourceLutModeKey, v);
    LutUnread(s.subtractionLut, hits, SubtractionLutMinKey, SubtractionLutMaxKey, SubtractionLutModeKey, v);
  }

  lemma DeformationArrowsLineEffect(s: Settings, v: string, num: NumberFormat, vtk: bool)
    ensures ReadEntry(s, Fired(DeformationArrowsKey), v, num, vtk) == Effect(s, DeformationArrowsKey, v, num, vtk)
  {
    var hits := Fired(DeformationArrowsKey);
    LayoutUnread(s.layout, hits, v, num);
    InterpolatorsDefault(hits, v);
    LutUnread(s.targetLut, hits, TargetLutMinKey, TargetLutMaxKey, TargetLutModeKey, v);
    LutUnread(s.sourceLut, hits, SourceLutMinKey, SourceLutMaxKey, SourceLutModeKey, v);
    LutUnread(s.subtractionLut, hits, SubtractionLutMinKey, SubtractionLutMaxKey, SubtractionLutModeKey, v);
  }

  lemma LandmarksLineEffect(s: Settings, v: string, num: NumberFormat, vtk: bool)
    ensures ReadEntry(s, Fired(LandmarksKey), v, num, vtk) == Effect(s, LandmarksKey, v, num, vtk)
  {
    var hits := Fired(LandmarksKey);
    LayoutUnread(s.layout, hits, v, num);
    InterpolatorsDefault(hits, v);
    LutUnread(s.targetLut, hits, TargetLutMinKey, TargetLutMaxKey, TargetLutModeKey, v);
    LutUnread(s.sourceLut, hits, SourceLutMinKey, SourceLutMaxKey, SourceLutModeKey, v);
    LutUnread(s.subtractionLut, hits, SubtractionLutMinKey, SubtractionLutMaxKey, SubtractionLutModeKey, v);
  }

  lemma ObjectLineEffect(s: Settings, v: string, num: NumberFormat, vtk: bool)
    ensures ReadEntry(s, Fired(ObjectKey), v, num, vtk) == Effect(s, ObjectKey, v, num, vtk)
  {
    var hits := Fired(ObjectKey);
    LayoutUnread(s.layout, hits, v, num);
    InterpolatorsDefault(hits, v);
    LutUnread(s.targetLut, hits, TargetLutMinKey, TargetLutMaxKey, TargetLutModeKey, v);
    LutUnread(s.sourceLut, hits, SourceLutMinKey, SourceLutMaxKey, SourceLutModeKey, v);
    LutUnread(s.subtractionLut, hits, SubtractionLutMinKey, SubtractionLutMaxKey, SubtractionLutModeKey, v);
  }

  lemma ObjectWarpLineEffect(s: Settings, v: string, num: NumberFormat, vtk: bool)
    ensures ReadEntry(s, Fired(ObjectWarpKey), v, num, vtk) == Effect(s, ObjectWarpKey, v, num, vtk)
  {
    var hits := Fired(ObjectWarpKey);
    LayoutUnread(s.layout, hits, v, num);
    InterpolatorsDefault(hits, v);
    LutUnread(s.targetLut, hits, TargetLutMinKey, TargetLutMaxKey, TargetLutModeKey, v);
    LutUnread(s.sourceLut, hits, SourceLutMinKey, SourceLutMaxKey, SourceLutModeKey, v);
    LutUnread(s.subtractionLut, hits, SubtractionLutMinKey, SubtractionLutMaxKey, SubtractionLutModeKey, v);
  }

  lemma ObjectGridLineEffect(s: Settings, v: string, num: NumberFormat, vtk: bool)
    ensures ReadEntry(s, Fired(ObjectGridKey), v, num, vtk) == Effect(s, ObjectGridKey, v, num, vtk)
  {
    var hits := Fired(ObjectGridKey);
    LayoutUnread(s.layout, hits, v, num);
    InterpolatorsDefault(hits, v);
    LutUnread(s.targetLut, hits, TargetLutMinKey, TargetLutMaxKey, TargetLutModeKey, v);
    LutUnread(s.sourceLut, hits, SourceLutMinKey, SourceLutMaxKey, SourceLutModeKey, v);
    LutUnread(s.subtractionLut, hits, SubtractionLutMinKey, SubtractionLutMaxKey, SubtractionLutModeKey, v);
  }

  lemma TargetLutMinLineEffect(s: Settings, v: string, num: NumberFormat, vtk: bool)
    ensures ReadEntry(s, Fired(TargetLutMinKey), v, num, vtk) == Effect(s, TargetLutMinKey, v, num, vtk)
  {
    var hits := Fired(TargetLutMinKey);
    LayoutUnread(s.layout, hits, v, num);
    InterpolatorsDefault(hits, v);
    DisplayUnread(s.display, hits, v, num, vtk);
    LutUnread(s.sourceLut, hits, SourceLutMinKey, SourceLutMaxKey, SourceLutModeKey, v);
    LutUnread(s.subtractionLut, hits, SubtractionLutMinKey, SubtractionLutMaxKey, SubtractionLutModeKey, v);
  }

  lemma TargetLutMaxLineEffect(s: Settings, v: string, num: NumberFormat, vtk: bool)
    ensures ReadEntry(s, Fired(TargetLutMaxKey), v, num, vtk) == Effect(s, TargetLutMaxKey, v, num, vtk)
  {
    var hits := Fired(TargetLutMaxKey);
    LayoutUnread(s.layout, hits, v, num);
    InterpolatorsDefault(hits, v);
    DisplayUnread(s.display, hits, v, num, vtk);
    LutUnread(s.sourceLut, hits, SourceLutMinKey, SourceLutMaxKey, SourceLutModeKey, v);
    LutUnread(s.subtractionLut, hits, SubtractionLutMinKey, SubtractionLutMaxKey, SubtractionLutModeKey, v);
  }

  lemma TargetLutModeLineEffect(s: Settings, v: string, num: NumberFormat, vtk: bool)
    ensures ReadEntry(s, Fired(TargetLutModeKey), v, num, vtk) == Effect(s, TargetLutModeKey, v, num, vtk)
  {
    var hits := Fired(TargetLutModeKey);
    LayoutUnread(s.layout, hits, v, num);
    InterpolatorsDefault(hits, v);
    DisplayUnread(s.display, hits, v, num, vtk);
    LutUnread(s.sourceLut, hits, SourceLutMinKey, SourceLutMaxKey, SourceLutModeKey, v);
    LutUnread(s.subtractionLut, hits, SubtractionLutMinKey, SubtractionLutMaxKey, SubtractionLutModeKey, v);
  }

  lemma SourceLutMinLineEffect(s: Settings, v: string, num: NumberFormat, vtk: bool)
    ensures ReadEntry(s, Fired(SourceLutMinKey), v, num, vtk) == Effect(s, SourceLutMinKey, v, num, vtk)
  {
    var hits := Fired(SourceLutMinKey);
    LayoutUnread(s.layout, hits, v, num);
    InterpolatorsDefault(hits, v);
    DisplayUnread(s.display, hits, v, num, vtk);
    LutUnread(s.targetLut, hits, TargetLutMinKey, TargetLutMaxKey, TargetLutModeKey, v);
    LutUnread(s.subtractionLut, hits, SubtractionLutMinKey, SubtractionLutMaxKey, SubtractionLutModeKey, v);
  }

  lemma SourceLutMaxLineEffect(s: Settings, v: string, num: NumberFormat, vtk: bool)
    ensures ReadEntry(s, Fired(SourceLutMaxKey), v, num, vtk) == Effect(s, SourceLutMaxKey, v, num, vtk)
  {
    var hits := Fired(SourceLutMaxKey);
    LayoutUnread(s.layout, hits, v, num);
    InterpolatorsDefault(hits, v);
    DisplayUnread(s.display, hits, v, num, vtk);
    LutUnread(s.targetLut, hits, TargetLutMinKey, TargetLutMaxKey, TargetLutModeKey, v);
    LutUnread(s.subtractionLut, hits, SubtractionLutMinKey, SubtractionLutMaxKey, SubtractionLutModeKey, v);
  }

  lemma SourceLutModeLineEffect(s: Settings, v: string, num: NumberFormat, vtk: bool)
    ensures ReadEntry(s, Fired(SourceLutModeKey), v, num, vtk) == Effect(s, SourceLutModeKey, v, num, vtk)
  {
    var hits := Fired(SourceLutModeKey);
    LayoutUnread(s.layout, hits, v, num);
    InterpolatorsDefault(hits, v);
    DisplayUnread(s.display, hits, v, num, vtk);
    LutUnread(s.targetLut, hits, TargetLutMinKey, TargetLutMaxKey, TargetLutModeKey, v);
    LutUnread(s.subtractionLut, hits, SubtractionLutMinKey, SubtractionLutMaxKey, SubtractionLutModeKey, v);
  }

  lemma SubtractionLutMinLineEffect(s: Settings, v: string, num: NumberFormat, vtk: bool)
    ensures ReadEntry(s, Fired(SubtractionLutMinKey), v, num, vtk) == Effect(s, SubtractionLutMinKey, v, num, vtk)
  {
    var hits := Fired(SubtractionLutMinKey);
    LayoutUnread(s.layout, hits, v, num);
    InterpolatorsDefault(hits, v);
    DisplayUnread(s.display, hits, v, num, vtk);
    LutUnread(s.targetLut, hits, TargetLutMinKey, TargetLutMaxKey, TargetLutModeKey, v);
    LutUnread(s.sourceLut, hits, SourceLutMinKey, SourceLutMaxKey, SourceLutModeKey, v);
  }

  lemma SubtractionLutMaxLineEffect(s: Settings, v: string, num: NumberFormat, vtk: bool)
    ensures ReadEntry(s, Fired(SubtractionLutMaxKey), v, num, vtk) == Effect(s, SubtractionLutMaxKey, v, num, vtk)
  {
    var hits := Fired(SubtractionLutMaxKey);
    LayoutUnread(s.layout, hits, v, num);
    InterpolatorsDefault(hits, v);
    DisplayUnread(s.display, hits, v, num, vtk);
    LutUnread(s.targetLut, hits, TargetLutMinKey, TargetLutMaxKey, TargetLutModeKey, v);
    LutUnread(s.sourceLut, hits, SourceLutMinKey, SourceLutMaxKey, SourceLutModeKey, v);
  }

  lemma SubtractionLutModeLineEffect(s: Settings, v: string, num: NumberFormat, vtk: bool)
    ensures ReadEntry(s, Fired(SubtractionLutModeKey), v, num, vtk) == Effect(s, SubtractionLutModeKey, v, num, vtk)
  {
    var hits := Fired(SubtractionLutModeKey);
    LayoutUnread(s.layout, hits, v, num);
    InterpolatorsDefault(hits, v);
    DisplayUnread(s.display, hits, v, num, vtk);
    LutUnread(s.targetLut, hits, TargetLutMinKey, TargetLutMaxKey, TargetLutModeKey, v);
    LutUnread(s.sourceLut, hits, SourceLutMinKey, SourceLutMaxKey, SourceLutModeKey, v);
  }

  /** The branches of `Read` that a line `Write` prints for key `w` reaches have exactly the effect `Effect` describes. */
  lemma FiredEffect(s: Settings, w: Key, v: string, num: NumberFormat, vtk: bool)
    ensures ReadEntry(s, Fired(w), v, num, vtk) == Effect(s, w, v, num, vtk)
  {
    match w
    case ConfigModeKey => ConfigModeLineEffect(s, v, num, vtk);
    case ScreenXKey => ScreenXLineEffect(s, v, num, vtk);
    case ScreenYKey => ScreenYLineEffect(s, v, num, vtk);
    case OriginXKey => OriginXLineEffect(s, v, num, vtk);
    case OriginYKey => OriginYLineEffect(s, v, num, vtk);
    case OriginZKey => OriginZLineEffect(s, v, num, vtk);
    case ResolutionKey => ResolutionLineEffect(s, v, num, vtk);
    case TargetInterpolationKey => TargetInterpolationLineEffect(s, v, num, vtk);
    case SourceInterpolationKey => SourceInterpolationLineEffect(s, v, num, vtk);
    case ViewModeKey => ViewModeLineEffect(s, v, num, vtk);
    case ViewMixKey => ViewMixLineEffect(s, v, num, vtk);
    case TargetContourKey => TargetContourLineEffect(s, v, num, vtk);
    case SourceContourKey => SourceContourLineEffect(s, v, num, vtk);
    case CursorKey => CursorLineEffect(s, v, num, vtk);
    case CursorModeKey => CursorModeLineEffect(s, v, num, vtk);
    case DeformationGridKey => DeformationGridLineEffect(s, v, num, vtk);
    case DeformationPointsKey => DeformationPointsLineEffect(s, v, num, vtk);
    case DeformationArrowsKey => DeformationArrowsLineEffect(s, v, num, vtk);
    case LandmarksKey => LandmarksLineEffect(s, v, num, vtk);
    case ObjectKey => ObjectLineEffect(s, v, num, vtk);
    case ObjectWarpKey => ObjectWarpLineEffect(s, v, num, vtk);
    case ObjectGridKey => ObjectGridLineEffect(s, v, num, vtk);
    case TargetLutMinKey => TargetLutMinLineEffect(s, v, num, vtk);
    case TargetLutMaxKey => TargetLutMaxLineEffect(s, v, num, vtk);
    case TargetLutModeKey => TargetLutModeLineEffect(s, v, num, vtk);
    case SourceLutMinKey => SourceLutMinLineEffect(s, v, num, vtk);
    case SourceLutMaxKey => SourceLutMaxLineEffect(s, v, num, vtk);
    case SourceLutModeKey => SourceLutModeLineEffect(s, v, num, vtk);
    case SubtractionLutMinKey => SubtractionLutMinLineEffect(s, v, num, vtk);
    case SubtractionLutMaxKey => SubtractionLutMaxLineEffect(s, v, num, vtk);
    case SubtractionLutModeKey => SubtractionLutModeLineEffect(s, v, num, vtk);
  }

  // ---------------------------------------------------------------------------
  // `Write`.

  /** The column in which `Write` puts the `=` of its lines. */
  const Column := 34

  /** A line `Write` prints: a comment or blank line, or a key, the blanks after it and a value. */
  datatype Line = CommentLine(text: string) | KeyLine(key: Key, pad: int, value: string)

  function Spaces(n: int): string
  {
    if n <= 0 then "" else [' '] + Spaces(n - 1)
  }

  lemma {:induction false} SpacesOnly(n: int)
    ensures |Spaces(n)| == if n <= 0 then 0 else n
    ensures forall i :: 0 <= i < |Spaces(n)| ==> Spaces(n)[i] == ' '
  {
    if n > 0 {
      SpacesOnly(n - 1);
    }
  }

  function LineText(l: Line): string
  {
    match l
    case CommentLine(t) => t
    case KeyLine(k, pad, v) => WrittenKey(k) + Spaces(pad) + "= " + v
  }

  function Texts(ls: seq<Line>): (r: seq<string>)
    ensures |r| == |ls| && forall i :: 0 <= i < |ls| ==> r[i] == LineText(ls[i])
  {
    seq(|ls|, i requires 0 <= i < |ls| => LineText(ls[i]))
  }

  /** A key line with its `=` in the column. */
  function Aligned(k: Key, v: string): Line
  {
    KeyLine(k, Column - |WrittenKey(k)|, v)
  }

  /** The comment block `Write` prints before each section. */
  function Banner(title: string): seq<Line>
  {
    [CommentLine(""), CommentLine("#"), CommentLine("# " + title), CommentLine("#"), CommentLine("")]
  }

  /** The `viewMode` line; the overlay modes print none, and the `View_VShutter` line has one blank less. */
  function ViewModeLines(m: ViewMode): seq<Line>
  {
    match ViewToken(m)
    case None => []
    case Some(t) => [KeyLine(ViewModeKey, Column - |WrittenKey(ViewModeKey)| - (if m == VShutter then 1 else 0), t)]
  }

  /** The three lines of one lookup table. */
  function LutLines(t: Lut, minKey: Key, maxKey: Key, modeKey: Key): seq<Line>
  {
    [Aligned(minKey, IntText(t.minDisplay)), Aligned(maxKey, IntText(t.maxDisplay)), Aligned(modeKey, ColorToken(t.mode))]
  }

  /** The first section `Write` prints: layout, screen size, origin, resolution and interpolation. */
  function LayoutSection(st: Settings, num: NumberFormat): seq<Line>
  {
    Banner("RView configuration") + LayoutLines(st, num)
  }

  /** The key lines of the first section. */
  function LayoutLines(st: Settings, num: NumberFormat): seq<Line>
  {
    var l := st.layout;
    [ Aligned(ConfigModeKey, ConfigToken(l.configMode)),
      Aligned(ScreenXKey, IntText(l.screenX)),
      Aligned(ScreenYKey, IntText(l.screenY)),
      Aligned(OriginXKey, num.show(l.originX)),
      Aligned(OriginYKey, num.show(l.originY)),
      Aligned(OriginZKey, num.show(l.originZ)),
      Aligned(ResolutionKey, num.show(l.resolution)),
      Aligned(TargetInterpolationKey, InterpolationToken(st.interpolators.target)),
      Aligned(SourceInterpolationKey, InterpolationToken(st.interpolators.source)) ]
  }

  /** The view mix and the overlay flags of the second section. */
  function OverlayLines(d: Display, num: NumberFormat): seq<Line>
  {
    [ Aligned(ViewMixKey, num.show(d.viewMix)),
      Aligned(TargetContourKey, BoolText(d.targetContour)),
      Aligned(SourceContourKey, BoolText(d.sourceContour)),
      Aligned(CursorKey, BoolText(d.cursor)),
      Aligned(CursorModeKey, CursorToken(d.cursorMode)),
      Aligned(DeformationGridKey, BoolText(d.deformationGrid)),
      Aligned(DeformationPointsKey, BoolText(d.deformationPoints)),
      Aligned(DeformationArrowsKey, BoolText(d.deformationArrows)),
      Aligned(LandmarksKey, BoolText(d.landmarks)) ]
  }

  /** The object flags, printed only in a build with VTK. */
  function ObjectLines(d: Display, vtk: bool): seq<Line>
  {
    if vtk then
      [ Aligned(ObjectKey, BoolText(d.displayObject)),
        Aligned(ObjectWarpKey, BoolText(d.objectWarp)),
        Aligned(ObjectGridKey, BoolText(d.objectGrid)) ]
    else []
  }

  /** The second section: view mode, view mix and overlay flags. */
  function DisplaySection(st: Settings, num: NumberFormat, vtk: bool): seq<Line>
  {
    Banner("Display configuration") + ViewModeLines(st.display.viewMode)
    + OverlayLines(st.display, num) + ObjectLines(st.display, vtk)
  }

  /** The last section: the three lookup tables. */
  function LutSection(st: Settings): seq<Line>
  {
    Banner("LookupTables")
    + LutLines(st.targetLut, TargetLutMinKey, TargetLutMaxKey, TargetLutModeKey)
    + LutLines(st.sourceLut, SourceLutMinKey, SourceLutMaxKey, SourceLutModeKey)
    + LutLines(st.subtractionLut, SubtractionLutMinKey, SubtractionLutMaxKey, SubtractionLutModeKey)
  }

  /** The lines `Write` prints for the settings `st`. */
  function WriteLines(st: Settings, num: NumberFormat, vtk: bool): seq<Line>
  {
    LayoutSection(st, num) + DisplaySection(st, num, vtk) + LutSection(st)
  }

}