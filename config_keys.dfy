// The vocabulary of the RView configuration file: the keys `Read` searches each
// line for, the keys `Write` prints, and the substring facts between them that
// decide which branches of `Read` a written line reaches. `Read` tests every key
// against every line with `strstr`, so each written key is checked against all
// of them: a search is refuted by a character (or an adjacent pair of
// characters) of the searched key that the written key lacks.
module ConfigKeys {
  import opened Text

  /** The keys `Read` looks for, in the order it tests them. */
  datatype Key =
    | ConfigModeKey
    | ScreenXKey
    | ScreenYKey
    | OriginXKey
    | OriginYKey
    | OriginZKey
    | ResolutionKey
    | TargetInterpolationKey
    | SourceInterpolationKey
    | ViewModeKey
    | ViewMixKey
    | TargetContourKey
    | SourceContourKey
    | CursorKey
    | CursorModeKey
    | DeformationGridKey
    | DeformationPointsKey
    | DeformationArrowsKey
    | LandmarksKey
    | ObjectKey
    | ObjectWarpKey
    | ObjectGridKey
    | TargetLutMinKey
    | TargetLutMaxKey
    | TargetLutModeKey
    | SourceLutMinKey
    | SourceLutMaxKey
    | SourceLutModeKey
    | SubtractionLutMinKey
    | SubtractionLutMaxKey
    | SubtractionLutModeKey

  // The texts `Read` passes to `strstr`.
  const ConfigModeText: string := "configMode"
  const ScreenXText: string := "screenX"
  const ScreenYText: string := "screenY"
  const OriginXText: string := "origin_x"
  const OriginYText: string := "origin_y"
  const OriginZText: string := "origin_z"
  const ResolutionText: string := "resolution"
  const TargetInterpolationText: string := "targetInterpolationMode"
  const SourceInterpolationText: string := "sourceInterpolationMode"
  const ViewModeText: string := "viewMode"
  const ViewMixText: string := "viewMix"
  const TargetContourText: string := "DisplayTargetContour"
  const SourceContourText: string := "DisplaySourceContour"
  const CursorText: string := "DisplayCursor"
  const CursorModeText: string := "CursorMode"
  const DeformationGridText: string := "DisplayDeformationGrid"
  const DeformationPointsText: string := "DisplayDeformationPoints"
  const DeformationArrowsText: string := "DisplayDeformationArrows"
  const LandmarksText: string := "DisplayLandmarks"
  const ObjectText: string := "DisplayObject"
  const ObjectWarpText: string := "DisplayObjectWarp"
  const ObjectGridText: string := "DisplayObjectGrid"
  const TargetLutMinText: string := "targetLookupTable_min"
  const TargetLutMaxText: string := "targetLookupTable_max"
  const TargetLutModeText: string := "targetLookupTable_mode"
  const SourceLutMinText: string := "sourceLookupTable_min"
  const SourceLutMaxText: string := "sourceLookupTable_max"
  const SourceLutModeText: string := "sourceLookupTable_mode"
  const SubtractionLutMinText: string := "subtractionLookupTable_min"
  const SubtractionLutMaxText: string := "subtractionLookupTable_max"
  const SubtractionLutModeText: string := "subtractionLookupTable_mode"

  /** The text `Read` passes to `strstr` for each key. */
  function KeyText(k: Key): string
  {
    match k
    case ConfigModeKey => ConfigModeText
    case ScreenXKey => ScreenXText
    case ScreenYKey => ScreenYText
    case OriginXKey => OriginXText
    case OriginYKey => OriginYText
    case OriginZKey => OriginZText
    case ResolutionKey => ResolutionText
    case TargetInterpolationKey => TargetInterpolationText
    case SourceInterpolationKey => SourceInterpolationText
    case ViewModeKey => ViewModeText
    case ViewMixKey => ViewMixText
    case TargetContourKey => TargetContourText
    case SourceContourKey => SourceContourText
    case CursorKey => CursorText
    case CursorModeKey => CursorModeText
    case DeformationGridKey => DeformationGridText
    case DeformationPointsKey => DeformationPointsText
    case DeformationArrowsKey => DeformationArrowsText
    case LandmarksKey => LandmarksText
    case ObjectKey => ObjectText
    case ObjectWarpKey => ObjectWarpText
    case ObjectGridKey => ObjectGridText
    case TargetLutMinKey => TargetLutMinText
    case TargetLutMaxKey => TargetLutMaxText
    case TargetLutModeKey => TargetLutModeText
    case SourceLutMinKey => SourceLutMinText
    case SourceLutMaxKey => SourceLutMaxText
    case SourceLutModeKey => SourceLutModeText
    case SubtractionLutMinKey => SubtractionLutMinText
    case SubtractionLutMaxKey => SubtractionLutMaxText
    case SubtractionLutModeKey => SubtractionLutModeText
  }

  /** The display-range keys, which `Write` prints with a `Display` suffix. */
  predicate IsLutBound(k: Key)
  {
    k == TargetLutMinKey || k == TargetLutMaxKey || k == SourceLutMinKey || k == SourceLutMaxKey || k == SubtractionLutMinKey || k == SubtractionLutMaxKey
  }

  // The display-range keys as `Write` prints them.
  const TargetLutMinWritten: string := "targetLookupTable_minDisplay"
  const TargetLutMaxWritten: string := "targetLookupTable_maxDisplay"
  const SourceLutMinWritten: string := "sourceLookupTable_minDisplay"
  const SourceLutMaxWritten: string := "sourceLookupTable_maxDisplay"
  const SubtractionLutMinWritten: string := "subtractionLookupTable_minDisplay"
  const SubtractionLutMaxWritten: string := "subtractionLookupTable_maxDisplay"

  /** The key text `Write` prints at the start of the line for `k`. */
  function WrittenKey(k: Key): string
  {
    match k
    case TargetLutMinKey => TargetLutMinWritten
    case TargetLutMaxKey => TargetLutMaxWritten
    case SourceLutMinKey => SourceLutMinWritten
    case SourceLutMaxKey => SourceLutMaxWritten
    case SubtractionLutMinKey => SubtractionLutMinWritten
    case SubtractionLutMaxKey => SubtractionLutMaxWritten
    case _ => KeyText(k)
  }

  /**
   * The keys whose search succeeds on the line written for `w`: the key itself,
   * and `DisplayObject`, a prefix of `DisplayObjectWarp` and `DisplayObjectGrid`.
   */
  predicate Fires(w: Key, k: Key)
  {
    k == w || (k == ObjectKey && (w == ObjectWarpKey || w == ObjectGridKey))
  }

  /** Which searches of `Read` succeed on each written key. */
  lemma WrittenKeyFires(w: Key, k: Key)
    ensures Contains(WrittenKey(w), KeyText(k)) <==> Fires(w, k)
  {
    match w
    case ConfigModeKey => SearchConfigMode(k);
    case ScreenXKey => SearchScreenX(k);
    case ScreenYKey => SearchScreenY(k);
    case OriginXKey => SearchOriginX(k);
    case OriginYKey => SearchOriginY(k);
    case OriginZKey => SearchOriginZ(k);
    case ResolutionKey => SearchResolution(k);
    case TargetInterpolationKey => SearchTargetInterpolation(k);
    case SourceInterpolationKey => SearchSourceInterpolation(k);
    case ViewModeKey => SearchViewMode(k);
    case ViewMixKey => SearchViewMix(k);
    case TargetContourKey => SearchTargetContour(k);
    case SourceContourKey => SearchSourceContour(k);
    case CursorKey => SearchCursor(k);
    case CursorModeKey => SearchCursorMode(k);
    case DeformationGridKey => SearchDeformationGrid(k);
    case DeformationPointsKey => SearchDeformationPoints(k);
    case DeformationArrowsKey => SearchDeformationArrows(k);
    case LandmarksKey => SearchLandmarks(k);
    case ObjectKey => SearchObject(k);
    case ObjectWarpKey => SearchObjectWarp(k);
    case ObjectGridKey => SearchObjectGrid(k);
    case TargetLutMinKey => SearchTargetLutMin(k);
    case TargetLutMaxKey => SearchTargetLutMax(k);
    case TargetLutModeKey => SearchTargetLutMode(k);
    case SourceLutMinKey => SearchSourceLutMin(k);
    case SourceLutMaxKey => SearchSourceLutMax(k);
    case SourceLutModeKey => SearchSourceLutMode(k);
    case SubtractionLutMinKey => SearchSubtractionLutMin(k);
    case SubtractionLutMaxKey => SearchSubtractionLutMax(k);
    case SubtractionLutModeKey => SearchSubtractionLutMode(k);
  }

  lemma ConfigModeLacks()
    ensures 'r' !in ConfigModeText && 'v' !in ConfigModeText && ' ' !in ConfigModeText && '=' !in ConfigModeText
  {
    assert forall i | 0 <= i < |ConfigModeText| :: ConfigModeText[i] in {'M', 'c', 'd', 'e', 'f', 'g', 'i', 'n', 'o'};
  }

  lemma ConfigModeFinds()
    ensures Contains(ConfigModeText, ConfigModeText)
  {
    ContainsItself(ConfigModeText);
  }

  lemma ConfigModeAgainstSettings()
    ensures !Contains(ConfigModeText, ScreenXText)
    ensures !Contains(ConfigModeText, ScreenYText)
    ensures !Contains(ConfigModeText, OriginXText)
    ensures !Contains(ConfigModeText, OriginYText)
    ensures !Contains(ConfigModeText, OriginZText)
    ensures !Contains(ConfigModeText, ResolutionText)
    ensures !Contains(ConfigModeText, TargetInterpolationText)
    ensures !Contains(ConfigModeText, SourceInterpolationText)
    ensures !Contains(ConfigModeText, ViewModeText)
    ensures !Contains(ConfigModeText, ViewMixText)
  {
    ConfigModeLacks();
    MissingCharAt(ConfigModeText, ScreenXText, 2);
    MissingCharAt(ConfigModeText, ScreenYText, 2);
    MissingCharAt(ConfigModeText, OriginXText, 1);
    MissingCharAt(ConfigModeText, OriginYText, 1);
    MissingCharAt(ConfigModeText, OriginZText, 1);
    MissingCharAt(ConfigModeText, ResolutionText, 0);
    MissingCharAt(ConfigModeText, ViewModeText, 0);
    MissingCharAt(ConfigModeText, ViewMixText, 0);
  }

  lemma ConfigModeAgainstOverlays()
    ensures !Contains(ConfigModeText, TargetContourText)
    ensures !Contains(ConfigModeText, SourceContourText)
    ensures !Contains(ConfigModeText, CursorText)
    ensures !Contains(ConfigModeText, CursorModeText)
    ensures !Contains(ConfigModeText, DeformationGridText)
    ensures !Contains(ConfigModeText, DeformationPointsText)
    ensures !Contains(ConfigModeText, DeformationArrowsText)
    ensures !Contains(ConfigModeText, LandmarksText)
  {
    ConfigModeLacks();
    MissingCharAt(ConfigModeText, CursorModeText, 2);
  }

  lemma ConfigModeAgainstObjects()
    ensures !Contains(ConfigModeText, ObjectText)
    ensures !Contains(ConfigModeText, ObjectWarpText)
    ensures !Contains(ConfigModeText, ObjectGridText)
  {

  }

  lemma ConfigModeAgainstTables()
    ensures !Contains(ConfigModeText, TargetLutMinText)
    ensures !Contains(ConfigModeText, TargetLutMaxText)
    ensures !Contains(ConfigModeText, TargetLutModeText)
    ensures !Contains(ConfigModeText, SourceLutMinText)
    ensures !Contains(ConfigModeText, SourceLutMaxText)
    ensures !Contains(ConfigModeText, SourceLutModeText)
    ensures !Contains(ConfigModeText, SubtractionLutMinText)
    ensures !Contains(ConfigModeText, SubtractionLutMaxText)
    ensures !Contains(ConfigModeText, SubtractionLutModeText)
  {

  }

  lemma SearchConfigMode(k: Key)
    ensures Contains(WrittenKey(ConfigModeKey), KeyText(k)) <==> Fires(ConfigModeKey, k)
  {
    if k == ConfigModeKey {
      ConfigModeFinds();
    } else {
      ConfigModeAgainstSettings();
      ConfigModeAgainstOverlays();
      ConfigModeAgainstObjects();
      ConfigModeAgainstTables();
    }
  }

  lemma ScreenXLacks()
    ensures 'M' !in ScreenXText && 'Y' !in ScreenXText && ' ' !in ScreenXText && '=' !in ScreenXText
  {
    assert forall i | 0 <= i < |ScreenXText| :: ScreenXText[i] in {'X', 'c', 'e', 'n', 'r', 's'};
  }

  lemma ScreenXFinds()
    ensures Contains(ScreenXText, ScreenXText)
  {
    ContainsItself(ScreenXText);
  }

  lemma ScreenXAgainstSettings()
    ensures !Contains(ScreenXText, ConfigModeText)
    ensures !Contains(ScreenXText, ScreenYText)
    ensures !Contains(ScreenXText, OriginXText)
    ensures !Contains(ScreenXText, OriginYText)
    ensures !Contains(ScreenXText, OriginZText)
    ensures !Contains(ScreenXText, ResolutionText)
    ensures !Contains(ScreenXText, TargetInterpolationText)
    ensures !Contains(ScreenXText, SourceInterpolationText)
    ensures !Contains(ScreenXText, ViewModeText)
    ensures !Contains(ScreenXText, ViewMixText)
  {
    ScreenXLacks();
    MissingCharAt(ScreenXText, ScreenYText, 6);
    MissingCharAt(ScreenXText, ViewMixText, 4);
  }

  lemma ScreenXAgainstOverlays()
    ensures !Contains(ScreenXText, TargetContourText)
    ensures !Contains(ScreenXText, SourceContourText)
    ensures !Contains(ScreenXText, CursorText)
    ensures !Contains(ScreenXText, CursorModeText)
    ensures !Contains(ScreenXText, DeformationGridText)
    ensures !Contains(ScreenXText, DeformationPointsText)
    ensures !Contains(ScreenXText, DeformationArrowsText)
    ensures !Contains(ScreenXText, LandmarksText)
  {

  }

  lemma ScreenXAgainstObjects()
    ensures !Contains(ScreenXText, ObjectText)
    ensures !Contains(ScreenXText, ObjectWarpText)
    ensures !Contains(ScreenXText, ObjectGridText)
  {

  }

  lemma ScreenXAgainstTables()
    ensures !Contains(ScreenXText, TargetLutMinText)
    ensures !Contains(ScreenXText, TargetLutMaxText)
    ensures !Contains(ScreenXText, TargetLutModeText)
    ensures !Contains(ScreenXText, SourceLutMinText)
    ensures !Contains(ScreenXText, SourceLutMaxText)
    ensures !Contains(ScreenXText, SourceLutModeText)
    ensures !Contains(ScreenXText, SubtractionLutMinText)
    ensures !Contains(ScreenXText, SubtractionLutMaxText)
    ensures !Contains(ScreenXText, SubtractionLutModeText)
  {

  }

  lemma SearchScreenX(k: Key)
    ensures Contains(WrittenKey(ScreenXKey), KeyText(k)) <==> Fires(ScreenXKey, k)
  {
    if k == ScreenXKey {
      ScreenXFinds();
    } else {
      ScreenXAgainstSettings();
      ScreenXAgainstOverlays();
      ScreenXAgainstObjects();
      ScreenXAgainstTables();
    }
  }

  lemma ScreenYLacks()
    ensures 'M' !in ScreenYText && 'X' !in ScreenYText && ' ' !in ScreenYText && '=' !in ScreenYText
  {
    assert forall i | 0 <= i < |ScreenYText| :: ScreenYText[i] in {'Y', 'c', 'e', 'n', 'r', 's'};
  }

  lemma ScreenYFinds()
    ensures Contains(ScreenYText, ScreenYText)
  {
    ContainsItself(ScreenYText);
  }

  lemma ScreenYAgainstSettings()
    ensures !Contains(ScreenYText, ConfigModeText)
    ensures !Contains(ScreenYText, ScreenXText)
    ensures !Contains(ScreenYText, OriginXText)
    ensures !Contains(ScreenYText, OriginYText)
    ensures !Contains(ScreenYText, OriginZText)
    ensures !Contains(ScreenYText, ResolutionText)
    ensures !Contains(ScreenYText, TargetInterpolationText)
    ensures !Contains(ScreenYText, SourceInterpolationText)
    ensures !Contains(ScreenYText, ViewModeText)
    ensures !Contains(ScreenYText, ViewMixText)
  {
    ScreenYLacks();
    MissingCharAt(ScreenYText, ScreenXText, 6);
    MissingCharAt(ScreenYText, ViewMixText, 4);
  }

  lemma ScreenYAgainstOverlays()
    ensures !Contains(ScreenYText, TargetContourText)
    ensures !Contains(ScreenYText, SourceContourText)
    ensures !Contains(ScreenYText, CursorText)
    ensures !Contains(ScreenYText, CursorModeText)
    ensures !Contains(ScreenYText, DeformationGridText)
    ensures !Contains(ScreenYText, DeformationPointsText)
    ensures !Contains(ScreenYText, DeformationArrowsText)
    ensures !Contains(ScreenYText, LandmarksText)
  {

  }

  lemma ScreenYAgainstObjects()
    ensures !Contains(ScreenYText, ObjectText)
    ensures !Contains(ScreenYText, ObjectWarpText)
    ensures !Contains(ScreenYText, ObjectGridText)
  {

  }

  lemma ScreenYAgainstTables()
    ensures !Contains(ScreenYText, TargetLutMinText)
    ensures !Contains(ScreenYText, TargetLutMaxText)
    ensures !Contains(ScreenYText, TargetLutModeText)
    ensures !Contains(ScreenYText, SourceLutMinText)
    ensures !Contains(ScreenYText, SourceLutMaxText)
    ensures !Contains(ScreenYText, SourceLutModeText)
    ensures !Contains(ScreenYText, SubtractionLutMinText)
    ensures !Contains(ScreenYText, SubtractionLutMaxText)
    ensures !Contains(ScreenYText, SubtractionLutModeText)
  {

  }

  lemma SearchScreenY(k: Key)
    ensures Contains(WrittenKey(ScreenYKey), KeyText(k)) <==> Fires(ScreenYKey, k)
  {
    if k == ScreenYKey {
      ScreenYFinds();
    } else {
      ScreenYAgainstSettings();
      ScreenYAgainstOverlays();
      ScreenYAgainstObjects();
      ScreenYAgainstTables();
    }
  }

  lemma OriginXLacks()
    ensures 'e' !in OriginXText && 'y' !in OriginXText && 'z' !in OriginXText && ' ' !in OriginXText && '=' !in OriginXText
  {
    assert forall i | 0 <= i < |OriginXText| :: OriginXText[i] in {'_', 'g', 'i', 'n', 'o', 'r', 'x'};
  }

  lemma OriginXFinds()
    ensures Contains(OriginXText, OriginXText)
  {
    ContainsItself(OriginXText);
  }

  lemma OriginXAgainstSettings()
    ensures !Contains(OriginXText, ConfigModeText)
    ensures !Contains(OriginXText, ScreenXText)
    ensures !Contains(OriginXText, ScreenYText)
    ensures !Contains(OriginXText, OriginYText)
    ensures !Contains(OriginXText, OriginZText)
    ensures !Contains(OriginXText, ResolutionText)
    ensures !Contains(OriginXText, TargetInterpolationText)
    ensures !Contains(OriginXText, SourceInterpolationText)
    ensures !Contains(OriginXText, ViewModeText)
    ensures !Contains(OriginXText, ViewMixText)
  {
    OriginXLacks();
    MissingCharAt(OriginXText, ScreenXText, 3);
    MissingCharAt(OriginXText, ScreenYText, 3);
    MissingCharAt(OriginXText, OriginYText, 7);
    MissingCharAt(OriginXText, OriginZText, 7);
    MissingCharAt(OriginXText, ViewModeText, 2);
    MissingCharAt(OriginXText, ViewMixText, 2);
  }

  lemma OriginXAgainstOverlays()
    ensures !Contains(OriginXText, TargetContourText)
    ensures !Contains(OriginXText, SourceContourText)
    ensures !Contains(OriginXText, CursorText)
    ensures !Contains(OriginXText, CursorModeText)
    ensures !Contains(OriginXText, DeformationGridText)
    ensures !Contains(OriginXText, DeformationPointsText)
    ensures !Contains(OriginXText, DeformationArrowsText)
    ensures !Contains(OriginXText, LandmarksText)
  {

  }

  lemma OriginXAgainstObjects()
    ensures !Contains(OriginXText, ObjectText)
    ensures !Contains(OriginXText, ObjectWarpText)
    ensures !Contains(OriginXText, ObjectGridText)
  {

  }

  lemma OriginXAgainstTables()
    ensures !Contains(OriginXText, TargetLutMinText)
    ensures !Contains(OriginXText, TargetLutMaxText)
    ensures !Contains(OriginXText, TargetLutModeText)
    ensures !Contains(OriginXText, SourceLutMinText)
    ensures !Contains(OriginXText, SourceLutMaxText)
    ensures !Contains(OriginXText, SourceLutModeText)
    ensures !Contains(OriginXText, SubtractionLutMinText)
    ensures !Contains(OriginXText, SubtractionLutMaxText)
    ensures !Contains(OriginXText, SubtractionLutModeText)
  {

  }

  lemma SearchOriginX(k: Key)
    ensures Contains(WrittenKey(OriginXKey), KeyText(k)) <==> Fires(OriginXKey, k)
  {
    if k == OriginXKey {
      OriginXFinds();
    } else {
      OriginXAgainstSettings();
      OriginXAgainstOverlays();
      OriginXAgainstObjects();
      OriginXAgainstTables();
    }
  }

  lemma OriginYLacks()
    ensures 'e' !in OriginYText && 'x' !in OriginYText && 'z' !in OriginYText && ' ' !in OriginYText && '=' !in OriginYText
  {
    assert forall i | 0 <= i < |OriginYText| :: OriginYText[i] in {'_', 'g', 'i', 'n', 'o', 'r', 'y'};
  }

  lemma OriginYFinds()
    ensures Contains(OriginYText, OriginYText)
  {
    ContainsItself(OriginYText);
  }

  lemma OriginYAgainstSettings()
    ensures !Contains(OriginYText, ConfigModeText)
    ensures !Contains(OriginYText, ScreenXText)
    ensures !Contains(OriginYText, ScreenYText)
    ensures !Contains(OriginYText, OriginXText)
    ensures !Contains(OriginYText, OriginZText)
    ensures !Contains(OriginYText, ResolutionText)
    ensures !Contains(OriginYText, TargetInterpolationText)
    ensures !Contains(OriginYText, SourceInterpolationText)
    ensures !Contains(OriginYText, ViewModeText)
    ensures !Contains(OriginYText, ViewMixText)
  {
    OriginYLacks();
    MissingCharAt(OriginYText, ScreenXText, 3);
    MissingCharAt(OriginYText, ScreenYText, 3);
    MissingCharAt(OriginYText, OriginXText, 7);
    MissingCharAt(OriginYText, OriginZText, 7);
    MissingCharAt(OriginYText, ViewModeText, 2);
    MissingCharAt(OriginYText, ViewMixText, 2);
  }

  lemma OriginYAgainstOverlays()
    ensures !Contains(OriginYText, TargetContourText)
    ensures !Contains(OriginYText, SourceContourText)
    ensures !Contains(OriginYText, CursorText)
    ensures !Contains(OriginYText, CursorModeText)
    ensures !Contains(OriginYText, DeformationGridText)
    ensures !Contains(OriginYText, DeformationPointsText)
    ensures !Contains(OriginYText, DeformationArrowsText)
    ensures !Contains(OriginYText, LandmarksText)
  {

  }

  lemma OriginYAgainstObjects()
    ensures !Contains(OriginYText, ObjectText)
    ensures !Contains(OriginYText, ObjectWarpText)
    ensures !Contains(OriginYText, ObjectGridText)
  {

  }

  lemma OriginYAgainstTables()
    ensures !Contains(OriginYText, TargetLutMinText)
    ensures !Contains(OriginYText, TargetLutMaxText)
    ensures !Contains(OriginYText, TargetLutModeText)
    ensures !Contains(OriginYText, SourceLutMinText)
    ensures !Contains(OriginYText, SourceLutMaxText)
    ensures !Contains(OriginYText, SourceLutModeText)
    ensures !Contains(OriginYText, SubtractionLutMinText)
    ensures !Contains(OriginYText, SubtractionLutMaxText)
    ensures !Contains(OriginYText, SubtractionLutModeText)
  {

  }

  lemma SearchOriginY(k: Key)
    ensures Contains(WrittenKey(OriginYKey), KeyText(k)) <==> Fires(OriginYKey, k)
  {
    if k == OriginYKey {
      OriginYFinds();
    } else {
      OriginYAgainstSettings();
      OriginYAgainstOverlays();
      OriginYAgainstObjects();
      OriginYAgainstTables();
    }
  }

  lemma OriginZLacks()
    ensures 'e' !in OriginZText && 'x' !in OriginZText && 'y' !in OriginZText && ' ' !in OriginZText && '=' !in OriginZText
  {
    assert forall i | 0 <= i < |OriginZText| :: OriginZText[i] in {'_', 'g', 'i', 'n', 'o', 'r', 'z'};
  }

  lemma OriginZFinds()
    ensures Contains(OriginZText, OriginZText)
  {
    ContainsItself(OriginZText);
  }

  lemma OriginZAgainstSettings()
    ensures !Contains(OriginZText, ConfigModeText)
    ensures !Contains(OriginZText, ScreenXText)
    ensures !Contains(OriginZText, ScreenYText)
    ensures !Contains(OriginZText, OriginXText)
    ensures !Contains(OriginZText, OriginYText)
    ensures !Contains(OriginZText, ResolutionText)
    ensures !Contains(OriginZText, TargetInterpolationText)
    ensures !Contains(OriginZText, SourceInterpolationText)
    ensures !Contains(OriginZText, ViewModeText)
    ensures !Contains(OriginZText, ViewMixText)
  {
    OriginZLacks();
    MissingCharAt(OriginZText, ScreenXText, 3);
    MissingCharAt(OriginZText, ScreenYText, 3);
    MissingCharAt(OriginZText, OriginXText, 7);
    MissingCharAt(OriginZText, OriginYText, 7);
    MissingCharAt(OriginZText, ViewModeText, 2);
    MissingCharAt(OriginZText, ViewMixText, 2);
  }

  lemma OriginZAgainstOverlays()
    ensures !Contains(OriginZText, TargetContourText)
    ensures !Contains(OriginZText, SourceContourText)
    ensures !Contains(OriginZText, CursorText)
    ensures !Contains(OriginZText, CursorModeText)
    ensures !Contains(OriginZText, DeformationGridText)
    ensures !Contains(OriginZText, DeformationPointsText)
    ensures !Contains(OriginZText, DeformationArrowsText)
    ensures !Contains(OriginZText, LandmarksText)
  {

  }

  lemma OriginZAgainstObjects()
    ensures !Contains(OriginZText, ObjectText)
    ensures !Contains(OriginZText, ObjectWarpText)
    ensures !Contains(OriginZText, ObjectGridText)
  {

  }

  lemma OriginZAgainstTables()
    ensures !Contains(OriginZText, TargetLutMinText)
    ensures !Contains(OriginZText, TargetLutMaxText)
    ensures !Contains(OriginZText, TargetLutModeText)
    ensures !Contains(OriginZText, SourceLutMinText)
    ensures !Contains(OriginZText, SourceLutMaxText)
    ensures !Contains(OriginZText, SourceLutModeText)
    ensures !Contains(OriginZText, SubtractionLutMinText)
    ensures !Contains(OriginZText, SubtractionLutMaxText)
    ensures !Contains(OriginZText, SubtractionLutModeText)
  {

  }

  lemma SearchOriginZ(k: Key)
    ensures Contains(WrittenKey(OriginZKey), KeyText(k)) <==> Fires(OriginZKey, k)
  {
    if k == OriginZKey {
      OriginZFinds();
    } else {
      OriginZAgainstSettings();
      OriginZAgainstOverlays();
      OriginZAgainstObjects();
      OriginZAgainstTables();
    }
  }

  lemma ResolutionLacks()
    ensures 'M' !in ResolutionText && '_' !in ResolutionText && 'c' !in ResolutionText && ' ' !in ResolutionText && '=' !in ResolutionText
  {
    assert forall i | 0 <= i < |ResolutionText| :: ResolutionText[i] in {'e', 'i', 'l', 'n', 'o', 'r', 's', 't', 'u'};
  }

  lemma ResolutionFinds()
    ensures Contains(ResolutionText, ResolutionText)
  {
    ContainsItself(ResolutionText);
  }

  lemma ResolutionAgainstSettings()
    ensures !Contains(ResolutionText, ConfigModeText)
    ensures !Contains(ResolutionText, ScreenXText)
    ensures !Contains(ResolutionText, ScreenYText)
    ensures !Contains(ResolutionText, OriginXText)
    ensures !Contains(ResolutionText, OriginYText)
    ensures !Contains(ResolutionText, OriginZText)
    ensures !Contains(ResolutionText, TargetInterpolationText)
    ensures !Contains(ResolutionText, SourceInterpolationText)
    ensures !Contains(ResolutionText, ViewModeText)
    ensures !Contains(ResolutionText, ViewMixText)
  {
    ResolutionLacks();
    MissingCharAt(ResolutionText, ConfigModeText, 6);
    MissingCharAt(ResolutionText, ScreenXText, 1);
    MissingCharAt(ResolutionText, ScreenYText, 1);
    MissingCharAt(ResolutionText, OriginXText, 6);
    MissingCharAt(ResolutionText, OriginYText, 6);
    MissingCharAt(ResolutionText, OriginZText, 6);
    MissingCharAt(ResolutionText, ViewModeText, 4);
    MissingCharAt(ResolutionText, ViewMixText, 4);
  }

  lemma ResolutionAgainstOverlays()
    ensures !Contains(ResolutionText, TargetContourText)
    ensures !Contains(ResolutionText, SourceContourText)
    ensures !Contains(ResolutionText, CursorText)
    ensures !Contains(ResolutionText, CursorModeText)
    ensures !Contains(ResolutionText, DeformationGridText)
    ensures !Contains(ResolutionText, DeformationPointsText)
    ensures !Contains(ResolutionText, DeformationArrowsText)
    ensures !Contains(ResolutionText, LandmarksText)
  {
    ResolutionLacks();
    MissingCharAt(ResolutionText, CursorModeText, 6);
  }

  lemma ResolutionAgainstObjects()
    ensures !Contains(ResolutionText, ObjectText)
    ensures !Contains(ResolutionText, ObjectWarpText)
    ensures !Contains(ResolutionText, ObjectGridText)
  {

  }

  lemma ResolutionAgainstTables()
    ensures !Contains(ResolutionText, TargetLutMinText)
    ensures !Contains(ResolutionText, TargetLutMaxText)
    ensures !Contains(ResolutionText, TargetLutModeText)
    ensures !Contains(ResolutionText, SourceLutMinText)
    ensures !Contains(ResolutionText, SourceLutMaxText)
    ensures !Contains(ResolutionText, SourceLutModeText)
    ensures !Contains(ResolutionText, SubtractionLutMinText)
    ensures !Contains(ResolutionText, SubtractionLutMaxText)
    ensures !Contains(ResolutionText, SubtractionLutModeText)
  {

  }

  lemma SearchResolution(k: Key)
    ensures Contains(WrittenKey(ResolutionKey), KeyText(k)) <==> Fires(ResolutionKey, k)
  {
    if k == ResolutionKey {
      ResolutionFinds();
    } else {
      ResolutionAgainstSettings();
      ResolutionAgainstOverlays();
      ResolutionAgainstObjects();
      ResolutionAgainstTables();
    }
  }

  lemma TargetInterpolationLacks()
    ensures 's' !in TargetInterpolationText && '_' !in TargetInterpolationText && 'v' !in TargetInterpolationText && 'c' !in TargetInterpolationText && ' ' !in TargetInterpolationText && '=' !in TargetInterpolationText
  {
    assert forall i | 0 <= i < |TargetInterpolationText| :: TargetInterpolationText[i] in {'I', 'M', 'a', 'd', 'e', 'g', 'i', 'l', 'n', 'o', 'p', 'r', 't'};
  }

  lemma TargetInterpolationFinds()
    ensures Contains(TargetInterpolationText, TargetInterpolationText)
  {
    ContainsItself(TargetInterpolationText);
  }

  lemma TargetInterpolationAgainstSettings()
    ensures !Contains(TargetInterpolationText, ConfigModeText)
    ensures !Contains(TargetInterpolationText, ScreenXText)
    ensures !Contains(TargetInterpolationText, ScreenYText)
    ensures !Contains(TargetInterpolationText, OriginXText)
    ensures !Contains(TargetInterpolationText, OriginYText)
    ensures !Contains(TargetInterpolationText, OriginZText)
    ensures !Contains(TargetInterpolationText, ResolutionText)
    ensures !Contains(TargetInterpolationText, SourceInterpolationText)
    ensures !Contains(TargetInterpolationText, ViewModeText)
    ensures !Contains(TargetInterpolationText, ViewMixText)
  {
    TargetInterpolationLacks();
    MissingCharAt(TargetInterpolationText, ConfigModeText, 0);
    MissingCharAt(TargetInterpolationText, ScreenXText, 0);
    MissingCharAt(TargetInterpolationText, ScreenYText, 0);
    MissingCharAt(TargetInterpolationText, OriginXText, 6);
    MissingCharAt(TargetInterpolationText, OriginYText, 6);
    MissingCharAt(TargetInterpolationText, OriginZText, 6);
    MissingCharAt(TargetInterpolationText, ResolutionText, 2);
    MissingCharAt(TargetInterpolationText, SourceInterpolationText, 0);
    MissingCharAt(TargetInterpolationText, ViewModeText, 0);
    MissingCharAt(TargetInterpolationText, ViewMixText, 0);
  }

  lemma TargetInterpolationAgainstOverlays()
    ensures !Contains(TargetInterpolationText, TargetContourText)
    ensures !Contains(TargetInterpolationText, SourceContourText)
    ensures !Contains(TargetInterpolationText, CursorText)
    ensures !Contains(TargetInterpolationText, CursorModeText)
    ensures !Contains(TargetInterpolationText, DeformationGridText)
    ensures !Contains(TargetInterpolationText, DeformationPointsText)
    ensures !Contains(TargetInterpolationText, DeformationArrowsText)
    ensures !Contains(TargetInterpolationText, LandmarksText)
  {
    TargetInterpolationLacks();
    MissingCharAt(TargetInterpolationText, TargetContourText, 2);
    MissingCharAt(TargetInterpolationText, SourceContourText, 2);
    MissingCharAt(TargetInterpolationText, CursorText, 2);
    MissingCharAt(TargetInterpolationText, CursorModeText, 3);
    MissingCharAt(TargetInterpolationText, DeformationGridText, 2);
    MissingCharAt(TargetInterpolationText, LandmarksText, 2);
  }

  lemma TargetInterpolationAgainstObjects()
    ensures !Contains(TargetInterpolationText, ObjectText)
    ensures !Contains(TargetInterpolationText, ObjectWarpText)
    ensures !Contains(TargetInterpolationText, ObjectGridText)
  {
    TargetInterpolationLacks();
    MissingCharAt(TargetInterpolationText, ObjectText, 2);
    MissingCharAt(TargetInterpolationText, ObjectWarpText, 2);
    MissingCharAt(TargetInterpolationText, ObjectGridText, 2);
  }

  lemma TargetInterpolationAgainstTables()
    ensures !Contains(TargetInterpolationText, TargetLutMinText)
    ensures !Contains(TargetInterpolationText, TargetLutMaxText)
    ensures !Contains(TargetInterpolationText, TargetLutModeText)
    ensures !Contains(TargetInterpolationText, SourceLutMinText)
    ensures !Contains(TargetInterpolationText, SourceLutMaxText)
    ensures !Contains(TargetInterpolationText, SourceLutModeText)
    ensures !Contains(TargetInterpolationText, SubtractionLutMinText)
    ensures !Contains(TargetInterpolationText, SubtractionLutMaxText)
    ensures !Contains(TargetInterpolationText, SubtractionLutModeText)
  {
    TargetInterpolationLacks();
    MissingCharAt(TargetInterpolationText, TargetLutMinText, 17);
    MissingCharAt(TargetInterpolationText, TargetLutMaxText, 17);
    MissingCharAt(TargetInterpolationText, TargetLutModeText, 17);
    MissingCharAt(TargetInterpolationText, SourceLutMinText, 0);
    MissingCharAt(TargetInterpolationText, SourceLutMaxText, 0);
    MissingCharAt(TargetInterpolationText, SourceLutModeText, 0);
  }

  lemma SearchTargetInterpolation(k: Key)
    ensures Contains(WrittenKey(TargetInterpolationKey), KeyText(k)) <==> Fires(TargetInterpolationKey, k)
  {
    if k == TargetInterpolationKey {
      TargetInterpolationFinds();
    } else {
      TargetInterpolationAgainstSettings();
      TargetInterpolationAgainstOverlays();
      TargetInterpolationAgainstObjects();
      TargetInterpolationAgainstTables();
    }
  }

  lemma SourceInterpolationLacks()
    ensures '_' !in SourceInterpolationText && 'D' !in SourceInterpolationText && 'g' !in SourceInterpolationText && 'v' !in SourceInterpolationText && 'C' !in SourceInterpolationText && 'X' !in SourceInterpolationText && 'Y' !in SourceInterpolationText && ' ' !in SourceInterpolationText && '=' !in SourceInterpolationText
  {
    assert forall i | 0 <= i < |SourceInterpolationText| :: SourceInterpolationText[i] in {'I', 'M', 'a', 'c', 'd', 'e', 'i', 'l', 'n', 'o', 'p', 'r', 's', 't', 'u'};
  }

  lemma SourceInterpolationLacksRe()
    ensures !HasPair(SourceInterpolationText, 'r', 'e')
  {
  }

  lemma SourceInterpolationFinds()
    ensures Contains(SourceInterpolationText, SourceInterpolationText)
  {
    ContainsItself(SourceInterpolationText);
  }

  lemma SourceInterpolationAgainstSettings()
    ensures !Contains(SourceInterpolationText, ConfigModeText)
    ensures !Contains(SourceInterpolationText, ScreenXText)
    ensures !Contains(SourceInterpolationText, ScreenYText)
    ensures !Contains(SourceInterpolationText, OriginXText)
    ensures !Contains(SourceInterpolationText, OriginYText)
    ensures !Contains(SourceInterpolationText, OriginZText)
    ensures !Contains(SourceInterpolationText, ResolutionText)
    ensures !Contains(SourceInterpolationText, TargetInterpolationText)
    ensures !Contains(SourceInterpolationText, ViewModeText)
    ensures !Contains(SourceInterpolationText, ViewMixText)
  {
    SourceInterpolationLacks();
    MissingCharAt(SourceInterpolationText, ConfigModeText, 5);
    MissingCharAt(SourceInterpolationText, ScreenXText, 6);
    MissingCharAt(SourceInterpolationText, ScreenYText, 6);
    MissingCharAt(SourceInterpolationText, OriginXText, 6);
    MissingCharAt(SourceInterpolationText, OriginYText, 6);
    MissingCharAt(SourceInterpolationText, OriginZText, 6);
    SourceInterpolationLacksRe();
    MissingPair(SourceInterpolationText, ResolutionText, 0);
    MissingCharAt(SourceInterpolationText, TargetInterpolationText, 3);
    MissingCharAt(SourceInterpolationText, ViewModeText, 0);
    MissingCharAt(SourceInterpolationText, ViewMixText, 0);
  }

  lemma SourceInterpolationAgainstOverlays()
    ensures !Contains(SourceInterpolationText, TargetContourText)
    ensures !Contains(SourceInterpolationText, SourceContourText)
    ensures !Contains(SourceInterpolationText, CursorText)
    ensures !Contains(SourceInterpolationText, CursorModeText)
    ensures !Contains(SourceInterpolationText, DeformationGridText)
    ensures !Contains(SourceInterpolationText, DeformationPointsText)
    ensures !Contains(SourceInterpolationText, DeformationArrowsText)
    ensures !Contains(SourceInterpolationText, LandmarksText)
  {
    SourceInterpolationLacks();
    MissingCharAt(SourceInterpolationText, TargetContourText, 0);
    MissingCharAt(SourceInterpolationText, SourceContourText, 0);
    MissingCharAt(SourceInterpolationText, CursorText, 0);
    MissingCharAt(SourceInterpolationText, CursorModeText, 0);
    MissingCharAt(SourceInterpolationText, DeformationGridText, 0);
    MissingCharAt(SourceInterpolationText, LandmarksText, 0);
  }

  lemma SourceInterpolationAgainstObjects()
    ensures !Contains(SourceInterpolationText, ObjectText)
    ensures !Contains(SourceInterpolationText, ObjectWarpText)
    ensures !Contains(SourceInterpolationText, ObjectGridText)
  {
    SourceInterpolationLacks();
    MissingCharAt(SourceInterpolationText, ObjectText, 0);
    MissingCharAt(SourceInterpolationText, ObjectWarpText, 0);
    MissingCharAt(SourceInterpolationText, ObjectGridText, 0);
  }

  lemma SourceInterpolationAgainstTables()
    ensures !Contains(SourceInterpolationText, TargetLutMinText)
    ensures !Contains(SourceInterpolationText, TargetLutMaxText)
    ensures !Contains(SourceInterpolationText, TargetLutModeText)
    ensures !Contains(SourceInterpolationText, SourceLutMinText)
    ensures !Contains(SourceInterpolationText, SourceLutMaxText)
    ensures !Contains(SourceInterpolationText, SourceLutModeText)
    ensures !Contains(SourceInterpolationText, SubtractionLutMinText)
    ensures !Contains(SourceInterpolationText, SubtractionLutMaxText)
    ensures !Contains(SourceInterpolationText, SubtractionLutModeText)
  {
    SourceInterpolationLacks();
    MissingCharAt(SourceInterpolationText, TargetLutMinText, 17);
    MissingCharAt(SourceInterpolationText, TargetLutMaxText, 17);
    MissingCharAt(SourceInterpolationText, TargetLutModeText, 17);
    MissingCharAt(SourceInterpolationText, SourceLutMinText, 17);
    MissingCharAt(SourceInterpolationText, SourceLutMaxText, 17);
    MissingCharAt(SourceInterpolationText, SourceLutModeText, 17);
  }

  lemma SearchSourceInterpolation(k: Key)
    ensures Contains(WrittenKey(SourceInterpolationKey), KeyText(k)) <==> Fires(SourceInterpolationKey, k)
  {
    if k == SourceInterpolationKey {
      SourceInterpolationFinds();
    } else {
      SourceInterpolationAgainstSettings();
      SourceInterpolationAgainstOverlays();
      SourceInterpolationAgainstObjects();
      SourceInterpolationAgainstTables();
    }
  }

  lemma ViewModeLacks()
    ensures 'n' !in ViewModeText && 'x' !in ViewModeText && ' ' !in ViewModeText && '=' !in ViewModeText
  {
    assert forall i | 0 <= i < |ViewModeText| :: ViewModeText[i] in {'M', 'd', 'e', 'i', 'o', 'v', 'w'};
  }

  lemma ViewModeFinds()
    ensures Contains(ViewModeText, ViewModeText)
  {
    ContainsItself(ViewModeText);
  }

  lemma ViewModeAgainstSettings()
    ensures !Contains(ViewModeText, ConfigModeText)
    ensures !Contains(ViewModeText, ScreenXText)
    ensures !Contains(ViewModeText, ScreenYText)
    ensures !Contains(ViewModeText, OriginXText)
    ensures !Contains(ViewModeText, OriginYText)
    ensures !Contains(ViewModeText, OriginZText)
    ensures !Contains(ViewModeText, ResolutionText)
    ensures !Contains(ViewModeText, TargetInterpolationText)
    ensures !Contains(ViewModeText, SourceInterpolationText)
    ensures !Contains(ViewModeText, ViewMixText)
  {
    ViewModeLacks();
    MissingCharAt(ViewModeText, ScreenXText, 5);
    MissingCharAt(ViewModeText, ScreenYText, 5);
    MissingCharAt(ViewModeText, OriginXText, 5);
    MissingCharAt(ViewModeText, OriginYText, 5);
    MissingCharAt(ViewModeText, OriginZText, 5);
    MissingCharAt(ViewModeText, ViewMixText, 6);
  }

  lemma ViewModeAgainstOverlays()
    ensures !Contains(ViewModeText, TargetContourText)
    ensures !Contains(ViewModeText, SourceContourText)
    ensures !Contains(ViewModeText, CursorText)
    ensures !Contains(ViewModeText, CursorModeText)
    ensures !Contains(ViewModeText, DeformationGridText)
    ensures !Contains(ViewModeText, DeformationPointsText)
    ensures !Contains(ViewModeText, DeformationArrowsText)
    ensures !Contains(ViewModeText, LandmarksText)
  {

  }

  lemma ViewModeAgainstObjects()
    ensures !Contains(ViewModeText, ObjectText)
    ensures !Contains(ViewModeText, ObjectWarpText)
    ensures !Contains(ViewModeText, ObjectGridText)
  {

  }

  lemma ViewModeAgainstTables()
    ensures !Contains(ViewModeText, TargetLutMinText)
    ensures !Contains(ViewModeText, TargetLutMaxText)
    ensures !Contains(ViewModeText, TargetLutModeText)
    ensures !Contains(ViewModeText, SourceLutMinText)
    ensures !Contains(ViewModeText, SourceLutMaxText)
    ensures !Contains(ViewModeText, SourceLutModeText)
    ensures !Contains(ViewModeText, SubtractionLutMinText)
    ensures !Contains(ViewModeText, SubtractionLutMaxText)
    ensures !Contains(ViewModeText, SubtractionLutModeText)
  {

  }

  lemma SearchViewMode(k: Key)
    ensures Contains(WrittenKey(ViewModeKey), KeyText(k)) <==> Fires(ViewModeKey, k)
  {
    if k == ViewModeKey {
      ViewModeFinds();
    } else {
      ViewModeAgainstSettings();
      ViewModeAgainstOverlays();
      ViewModeAgainstObjects();
      ViewModeAgainstTables();
    }
  }

  lemma ViewMixLacks()
    ensures 'c' !in ViewMixText && ' ' !in ViewMixText && '=' !in ViewMixText
  {
    assert forall i | 0 <= i < |ViewMixText| :: ViewMixText[i] in {'M', 'e', 'i', 'v', 'w', 'x'};
  }

  lemma ViewMixFinds()
    ensures Contains(ViewMixText, ViewMixText)
  {
    ContainsItself(ViewMixText);
  }

  lemma ViewMixAgainstSettings()
    ensures !Contains(ViewMixText, ConfigModeText)
    ensures !Contains(ViewMixText, ScreenXText)
    ensures !Contains(ViewMixText, ScreenYText)
    ensures !Contains(ViewMixText, OriginXText)
    ensures !Contains(ViewMixText, OriginYText)
    ensures !Contains(ViewMixText, OriginZText)
    ensures !Contains(ViewMixText, ResolutionText)
    ensures !Contains(ViewMixText, TargetInterpolationText)
    ensures !Contains(ViewMixText, SourceInterpolationText)
    ensures !Contains(ViewMixText, ViewModeText)
  {
    ViewMixLacks();
    MissingCharAt(ViewMixText, ScreenXText, 1);
    MissingCharAt(ViewMixText, ScreenYText, 1);
  }

  lemma ViewMixAgainstOverlays()
    ensures !Contains(ViewMixText, TargetContourText)
    ensures !Contains(ViewMixText, SourceContourText)
    ensures !Contains(ViewMixText, CursorText)
    ensures !Contains(ViewMixText, CursorModeText)
    ensures !Contains(ViewMixText, DeformationGridText)
    ensures !Contains(ViewMixText, DeformationPointsText)
    ensures !Contains(ViewMixText, DeformationArrowsText)
    ensures !Contains(ViewMixText, LandmarksText)
  {

  }

  lemma ViewMixAgainstObjects()
    ensures !Contains(ViewMixText, ObjectText)
    ensures !Contains(ViewMixText, ObjectWarpText)
    ensures !Contains(ViewMixText, ObjectGridText)
  {

  }

  lemma ViewMixAgainstTables()
    ensures !Contains(ViewMixText, TargetLutMinText)
    ensures !Contains(ViewMixText, TargetLutMaxText)
    ensures !Contains(ViewMixText, TargetLutModeText)
    ensures !Contains(ViewMixText, SourceLutMinText)
    ensures !Contains(ViewMixText, SourceLutMaxText)
    ensures !Contains(ViewMixText, SourceLutModeText)
    ensures !Contains(ViewMixText, SubtractionLutMinText)
    ensures !Contains(ViewMixText, SubtractionLutMaxText)
    ensures !Contains(ViewMixText, SubtractionLutModeText)
  {

  }

  lemma SearchViewMix(k: Key)
    ensures Contains(WrittenKey(ViewMixKey), KeyText(k)) <==> Fires(ViewMixKey, k)
  {
    if k == ViewMixKey {
      ViewMixFinds();
    } else {
      ViewMixAgainstSettings();
      ViewMixAgainstOverlays();
      ViewMixAgainstObjects();
      ViewMixAgainstTables();
    }
  }

  lemma TargetContourLacks()
    ensures 'c' !in TargetContourText && 'M' !in TargetContourText && '_' !in TargetContourText && 'L' !in TargetContourText && ' ' !in TargetContourText && '=' !in TargetContourText
  {
    assert forall i | 0 <= i < |TargetContourText| :: TargetContourText[i] in {'C', 'D', 'T', 'a', 'e', 'g', 'i', 'l', 'n', 'o', 'p', 'r', 's', 't', 'u', 'y'};
  }

  lemma TargetContourLacksRe()
    ensures !HasPair(TargetContourText, 'r', 'e')
  {
  }

  lemma TargetContourLacksYC()
    ensures !HasPair(TargetContourText, 'y', 'C')
  {
  }

  lemma TargetContourAgainstSettings()
    ensures !Contains(TargetContourText, ConfigModeText)
    ensures !Contains(TargetContourText, ScreenXText)
    ensures !Contains(TargetContourText, ScreenYText)
    ensures !Contains(TargetContourText, OriginXText)
    ensures !Contains(TargetContourText, OriginYText)
    ensures !Contains(TargetContourText, OriginZText)
    ensures !Contains(TargetContourText, ResolutionText)
    ensures !Contains(TargetContourText, TargetInterpolationText)
    ensures !Contains(TargetContourText, SourceInterpolationText)
    ensures !Contains(TargetContourText, ViewModeText)
    ensures !Contains(TargetContourText, ViewMixText)
  {
    TargetContourLacks();
    MissingCharAt(TargetContourText, ConfigModeText, 0);
    MissingCharAt(TargetContourText, ScreenXText, 1);
    MissingCharAt(TargetContourText, ScreenYText, 1);
    MissingCharAt(TargetContourText, OriginXText, 6);
    MissingCharAt(TargetContourText, OriginYText, 6);
    MissingCharAt(TargetContourText, OriginZText, 6);
    TargetContourLacksRe();
    MissingPair(TargetContourText, ResolutionText, 0);
    MissingCharAt(TargetContourText, ViewModeText, 4);
    MissingCharAt(TargetContourText, ViewMixText, 4);
  }

  lemma TargetContourFinds()
    ensures Contains(TargetContourText, TargetContourText)
  {
    ContainsItself(TargetContourText);
  }

  lemma TargetContourAgainstOverlays()
    ensures !Contains(TargetContourText, SourceContourText)
    ensures !Contains(TargetContourText, CursorText)
    ensures !Contains(TargetContourText, CursorModeText)
    ensures !Contains(TargetContourText, DeformationGridText)
    ensures !Contains(TargetContourText, DeformationPointsText)
    ensures !Contains(TargetContourText, DeformationArrowsText)
    ensures !Contains(TargetContourText, LandmarksText)
  {
    TargetContourLacks();
    MissingCharAt(TargetContourText, SourceContourText, 11);
    TargetContourLacksYC();
    MissingPair(TargetContourText, CursorText, 6);
    MissingCharAt(TargetContourText, CursorModeText, 6);
    MissingCharAt(TargetContourText, LandmarksText, 7);
  }

  lemma TargetContourAgainstObjects()
    ensures !Contains(TargetContourText, ObjectText)
    ensures !Contains(TargetContourText, ObjectWarpText)
    ensures !Contains(TargetContourText, ObjectGridText)
  {
    TargetContourLacks();
    MissingCharAt(TargetContourText, ObjectText, 11);
    MissingCharAt(TargetContourText, ObjectWarpText, 11);
    MissingCharAt(TargetContourText, ObjectGridText, 11);
  }

  lemma TargetContourAgainstTables()
    ensures !Contains(TargetContourText, TargetLutMinText)
    ensures !Contains(TargetContourText, TargetLutMaxText)
    ensures !Contains(TargetContourText, TargetLutModeText)
    ensures !Contains(TargetContourText, SourceLutMinText)
    ensures !Contains(TargetContourText, SourceLutMaxText)
    ensures !Contains(TargetContourText, SourceLutModeText)
    ensures !Contains(TargetContourText, SubtractionLutMinText)
    ensures !Contains(TargetContourText, SubtractionLutMaxText)
    ensures !Contains(TargetContourText, SubtractionLutModeText)
  {

  }

  lemma SearchTargetContour(k: Key)
    ensures Contains(WrittenKey(TargetContourKey), KeyText(k)) <==> Fires(TargetContourKey, k)
  {
    if k == TargetContourKey {
      TargetContourFinds();
    } else {
      TargetContourAgainstSettings();
      TargetContourAgainstOverlays();
      TargetContourAgainstObjects();
      TargetContourAgainstTables();
    }
  }

  lemma SourceContourLacks()
    ensures 'd' !in SourceContourText && 'g' !in SourceContourText && 'O' !in SourceContourText && 'M' !in SourceContourText && 'X' !in SourceContourText && 'Y' !in SourceContourText && ' ' !in SourceContourText && '=' !in SourceContourText
  {
    assert forall i | 0 <= i < |SourceContourText| :: SourceContourText[i] in {'C', 'D', 'S', 'a', 'c', 'e', 'i', 'l', 'n', 'o', 'p', 'r', 's', 't', 'u', 'y'};
  }

  lemma SourceContourLacksRe()
    ensures !HasPair(SourceContourText, 'r', 'e')
  {
  }

  lemma SourceContourLacksYC()
    ensures !HasPair(SourceContourText, 'y', 'C')
  {
  }

  lemma SourceContourAgainstSettings()
    ensures !Contains(SourceContourText, ConfigModeText)
    ensures !Contains(SourceContourText, ScreenXText)
    ensures !Contains(SourceContourText, ScreenYText)
    ensures !Contains(SourceContourText, OriginXText)
    ensures !Contains(SourceContourText, OriginYText)
    ensures !Contains(SourceContourText, OriginZText)
    ensures !Contains(SourceContourText, ResolutionText)
    ensures !Contains(SourceContourText, TargetInterpolationText)
    ensures !Contains(SourceContourText, SourceInterpolationText)
    ensures !Contains(SourceContourText, ViewModeText)
    ensures !Contains(SourceContourText, ViewMixText)
  {
    SourceContourLacks();
    MissingCharAt(SourceContourText, ConfigModeText, 8);
    MissingCharAt(SourceContourText, ScreenXText, 6);
    MissingCharAt(SourceContourText, ScreenYText, 6);
    MissingCharAt(SourceContourText, OriginXText, 3);
    MissingCharAt(SourceContourText, OriginYText, 3);
    MissingCharAt(SourceContourText, OriginZText, 3);
    SourceContourLacksRe();
    MissingPair(SourceContourText, ResolutionText, 0);
    MissingCharAt(SourceContourText, ViewModeText, 6);
    MissingCharAt(SourceContourText, ViewMixText, 4);
  }

  lemma SourceContourFinds()
    ensures Contains(SourceContourText, SourceContourText)
  {
    ContainsItself(SourceContourText);
  }

  lemma SourceContourAgainstOverlays()
    ensures !Contains(SourceContourText, TargetContourText)
    ensures !Contains(SourceContourText, CursorText)
    ensures !Contains(SourceContourText, CursorModeText)
    ensures !Contains(SourceContourText, DeformationGridText)
    ensures !Contains(SourceContourText, DeformationPointsText)
    ensures !Contains(SourceContourText, DeformationArrowsText)
    ensures !Contains(SourceContourText, LandmarksText)
  {
    SourceContourLacks();
    MissingCharAt(SourceContourText, TargetContourText, 10);
    SourceContourLacksYC();
    MissingPair(SourceContourText, CursorText, 6);
    MissingCharAt(SourceContourText, CursorModeText, 8);
    MissingCharAt(SourceContourText, LandmarksText, 10);
  }

  lemma SourceContourAgainstObjects()
    ensures !Contains(SourceContourText, ObjectText)
    ensures !Contains(SourceContourText, ObjectWarpText)
    ensures !Contains(SourceContourText, ObjectGridText)
  {
    SourceContourLacks();
    MissingCharAt(SourceContourText, ObjectText, 7);
    MissingCharAt(SourceContourText, ObjectWarpText, 7);
    MissingCharAt(SourceContourText, ObjectGridText, 16);
  }

  lemma SourceContourAgainstTables()
    ensures !Contains(SourceContourText, TargetLutMinText)
    ensures !Contains(SourceContourText, TargetLutMaxText)
    ensures !Contains(SourceContourText, TargetLutModeText)
    ensures !Contains(SourceContourText, SourceLutMinText)
    ensures !Contains(SourceContourText, SourceLutMaxText)
    ensures !Contains(SourceContourText, SourceLutModeText)
    ensures !Contains(SourceContourText, SubtractionLutMinText)
    ensures !Contains(SourceContourText, SubtractionLutMaxText)
    ensures !Contains(SourceContourText, SubtractionLutModeText)
  {

  }

  lemma SearchSourceContour(k: Key)
    ensures Contains(WrittenKey(SourceContourKey), KeyText(k)) <==> Fires(SourceContourKey, k)
  {
    if k == SourceContourKey {
      SourceContourFinds();
    } else {
      SourceContourAgainstSettings();
      SourceContourAgainstOverlays();
      SourceContourAgainstObjects();
      SourceContourAgainstTables();
    }
  }

  lemma CursorLacks()
    ensures 'e' !in CursorText && '_' !in CursorText && ' ' !in CursorText && '=' !in CursorText
  {
    assert forall i | 0 <= i < |CursorText| :: CursorText[i] in {'C', 'D', 'a', 'i', 'l', 'o', 'p', 'r', 's', 'u', 'y'};
  }

  lemma CursorAgainstSettings()
    ensures !Contains(CursorText, ConfigModeText)
    ensures !Contains(CursorText, ScreenXText)
    ensures !Contains(CursorText, ScreenYText)
    ensures !Contains(CursorText, OriginXText)
    ensures !Contains(CursorText, OriginYText)
    ensures !Contains(CursorText, OriginZText)
    ensures !Contains(CursorText, ResolutionText)
    ensures !Contains(CursorText, TargetInterpolationText)
    ensures !Contains(CursorText, SourceInterpolationText)
    ensures !Contains(CursorText, ViewModeText)
    ensures !Contains(CursorText, ViewMixText)
  {
    CursorLacks();
    MissingCharAt(CursorText, ConfigModeText, 9);
    MissingCharAt(CursorText, ScreenXText, 3);
    MissingCharAt(CursorText, ScreenYText, 3);
    MissingCharAt(CursorText, OriginXText, 6);
    MissingCharAt(CursorText, OriginYText, 6);
    MissingCharAt(CursorText, OriginZText, 6);
    MissingCharAt(CursorText, ResolutionText, 1);
    MissingCharAt(CursorText, ViewModeText, 2);
    MissingCharAt(CursorText, ViewMixText, 2);
  }

  lemma CursorFinds()
    ensures Contains(CursorText, CursorText)
  {
    ContainsItself(CursorText);
  }

  lemma CursorAgainstOverlays()
    ensures !Contains(CursorText, TargetContourText)
    ensures !Contains(CursorText, SourceContourText)
    ensures !Contains(CursorText, CursorModeText)
    ensures !Contains(CursorText, DeformationGridText)
    ensures !Contains(CursorText, DeformationPointsText)
    ensures !Contains(CursorText, DeformationArrowsText)
    ensures !Contains(CursorText, LandmarksText)
  {
    CursorLacks();
    MissingCharAt(CursorText, CursorModeText, 9);
  }

  lemma CursorAgainstObjects()
    ensures !Contains(CursorText, ObjectText)
    ensures !Contains(CursorText, ObjectWarpText)
    ensures !Contains(CursorText, ObjectGridText)
  {
    CursorLacks();
    MissingCharAt(CursorText, ObjectText, 10);
  }

  lemma CursorAgainstTables()
    ensures !Contains(CursorText, TargetLutMinText)
    ensures !Contains(CursorText, TargetLutMaxText)
    ensures !Contains(CursorText, TargetLutModeText)
    ensures !Contains(CursorText, SourceLutMinText)
    ensures !Contains(CursorText, SourceLutMaxText)
    ensures !Contains(CursorText, SourceLutModeText)
    ensures !Contains(CursorText, SubtractionLutMinText)
    ensures !Contains(CursorText, SubtractionLutMaxText)
    ensures !Contains(CursorText, SubtractionLutModeText)
  {

  }

  lemma SearchCursor(k: Key)
    ensures Contains(WrittenKey(CursorKey), KeyText(k)) <==> Fires(CursorKey, k)
  {
    if k == CursorKey {
      CursorFinds();
    } else {
      CursorAgainstSettings();
      CursorAgainstOverlays();
      CursorAgainstObjects();
      CursorAgainstTables();
    }
  }

  lemma CursorModeLacks()
    ensures 'i' !in CursorModeText && 'c' !in CursorModeText && ' ' !in CursorModeText && '=' !in CursorModeText
  {
    assert forall i | 0 <= i < |CursorModeText| :: CursorModeText[i] in {'C', 'M', 'd', 'e', 'o', 'r', 's', 'u'};
  }

  lemma CursorModeAgainstSettings()
    ensures !Contains(CursorModeText, ConfigModeText)
    ensures !Contains(CursorModeText, ScreenXText)
    ensures !Contains(CursorModeText, ScreenYText)
    ensures !Contains(CursorModeText, OriginXText)
    ensures !Contains(CursorModeText, OriginYText)
    ensures !Contains(CursorModeText, OriginZText)
    ensures !Contains(CursorModeText, ResolutionText)
    ensures !Contains(CursorModeText, TargetInterpolationText)
    ensures !Contains(CursorModeText, SourceInterpolationText)
    ensures !Contains(CursorModeText, ViewModeText)
    ensures !Contains(CursorModeText, ViewMixText)
  {
    CursorModeLacks();
    MissingCharAt(CursorModeText, ConfigModeText, 4);
    MissingCharAt(CursorModeText, ScreenXText, 1);
    MissingCharAt(CursorModeText, ScreenYText, 1);
    MissingCharAt(CursorModeText, OriginXText, 2);
    MissingCharAt(CursorModeText, OriginYText, 2);
    MissingCharAt(CursorModeText, OriginZText, 2);
    MissingCharAt(CursorModeText, ResolutionText, 7);
    MissingCharAt(CursorModeText, ViewModeText, 1);
    MissingCharAt(CursorModeText, ViewMixText, 1);
  }

  lemma CursorModeFinds()
    ensures Contains(CursorModeText, CursorModeText)
  {
    ContainsItself(CursorModeText);
  }

  lemma CursorModeAgainstOverlays()
    ensures !Contains(CursorModeText, TargetContourText)
    ensures !Contains(CursorModeText, SourceContourText)
    ensures !Contains(CursorModeText, CursorText)
    ensures !Contains(CursorModeText, DeformationGridText)
    ensures !Contains(CursorModeText, DeformationPointsText)
    ensures !Contains(CursorModeText, DeformationArrowsText)
    ensures !Contains(CursorModeText, LandmarksText)
  {

  }

  lemma CursorModeAgainstObjects()
    ensures !Contains(CursorModeText, ObjectText)
    ensures !Contains(CursorModeText, ObjectWarpText)
    ensures !Contains(CursorModeText, ObjectGridText)
  {

  }

  lemma CursorModeAgainstTables()
    ensures !Contains(CursorModeText, TargetLutMinText)
    ensures !Contains(CursorModeText, TargetLutMaxText)
    ensures !Contains(CursorModeText, TargetLutModeText)
    ensures !Contains(CursorModeText, SourceLutMinText)
    ensures !Contains(CursorModeText, SourceLutMaxText)
    ensures !Contains(CursorModeText, SourceLutModeText)
    ensures !Contains(CursorModeText, SubtractionLutMinText)
    ensures !Contains(CursorModeText, SubtractionLutMaxText)
    ensures !Contains(CursorModeText, SubtractionLutModeText)
  {

  }

  lemma SearchCursorMode(k: Key)
    ensures Contains(WrittenKey(CursorModeKey), KeyText(k)) <==> Fires(CursorModeKey, k)
  {
    if k == CursorModeKey {
      CursorModeFinds();
    } else {
      CursorModeAgainstSettings();
      CursorModeAgainstOverlays();
      CursorModeAgainstObjects();
      CursorModeAgainstTables();
    }
  }

  lemma DeformationGridLacks()
    ensures 'u' !in DeformationGridText && 'c' !in DeformationGridText && '_' !in DeformationGridText && 'M' !in DeformationGridText && 'L' !in DeformationGridText && ' ' !in DeformationGridText && '=' !in DeformationGridText
  {
    assert forall i | 0 <= i < |DeformationGridText| :: DeformationGridText[i] in {'D', 'G', 'a', 'd', 'e', 'f', 'i', 'l', 'm', 'n', 'o', 'p', 'r', 's', 't', 'y'};
  }

  lemma DeformationGridAgainstSettings()
    ensures !Contains(DeformationGridText, ConfigModeText)
    ensures !Contains(DeformationGridText, ScreenXText)
    ensures !Contains(DeformationGridText, ScreenYText)
    ensures !Contains(DeformationGridText, OriginXText)
    ensures !Contains(DeformationGridText, OriginYText)
    ensures !Contains(DeformationGridText, OriginZText)
    ensures !Contains(DeformationGridText, ResolutionText)
    ensures !Contains(DeformationGridText, TargetInterpolationText)
    ensures !Contains(DeformationGridText, SourceInterpolationText)
    ensures !Contains(DeformationGridText, ViewModeText)
    ensures !Contains(DeformationGridText, ViewMixText)
  {
    DeformationGridLacks();
    MissingCharAt(DeformationGridText, ConfigModeText, 0);
    MissingCharAt(DeformationGridText, ScreenXText, 1);
    MissingCharAt(DeformationGridText, ScreenYText, 1);
    MissingCharAt(DeformationGridText, OriginXText, 6);
    MissingCharAt(DeformationGridText, OriginYText, 6);
    MissingCharAt(DeformationGridText, OriginZText, 6);
    MissingCharAt(DeformationGridText, ResolutionText, 5);
    MissingCharAt(DeformationGridText, ViewModeText, 4);
    MissingCharAt(DeformationGridText, ViewMixText, 4);
  }

  lemma DeformationGridFinds()
    ensures Contains(DeformationGridText, DeformationGridText)
  {
    ContainsItself(DeformationGridText);
  }

  lemma DeformationGridAgainstOverlays()
    ensures !Contains(DeformationGridText, TargetContourText)
    ensures !Contains(DeformationGridText, SourceContourText)
    ensures !Contains(DeformationGridText, CursorText)
    ensures !Contains(DeformationGridText, CursorModeText)
    ensures !Contains(DeformationGridText, DeformationPointsText)
    ensures !Contains(DeformationGridText, DeformationArrowsText)
    ensures !Contains(DeformationGridText, LandmarksText)
  {
    DeformationGridLacks();
    MissingCharAt(DeformationGridText, TargetContourText, 18);
    MissingCharAt(DeformationGridText, SourceContourText, 9);
    MissingCharAt(DeformationGridText, CursorText, 8);
    MissingCharAt(DeformationGridText, CursorModeText, 1);
    MissingCharAt(DeformationGridText, LandmarksText, 7);
  }

  lemma DeformationGridAgainstObjects()
    ensures !Contains(DeformationGridText, ObjectText)
    ensures !Contains(DeformationGridText, ObjectWarpText)
    ensures !Contains(DeformationGridText, ObjectGridText)
  {
    DeformationGridLacks();
    MissingCharAt(DeformationGridText, ObjectText, 11);
    MissingCharAt(DeformationGridText, ObjectWarpText, 11);
    MissingCharAt(DeformationGridText, ObjectGridText, 11);
  }

  lemma DeformationGridAgainstTables()
    ensures !Contains(DeformationGridText, TargetLutMinText)
    ensures !Contains(DeformationGridText, TargetLutMaxText)
    ensures !Contains(DeformationGridText, TargetLutModeText)
    ensures !Contains(DeformationGridText, SourceLutMinText)
    ensures !Contains(DeformationGridText, SourceLutMaxText)
    ensures !Contains(DeformationGridText, SourceLutModeText)
    ensures !Contains(DeformationGridText, SubtractionLutMinText)
    ensures !Contains(DeformationGridText, SubtractionLutMaxText)
    ensures !Contains(DeformationGridText, SubtractionLutModeText)
  {
    DeformationGridLacks();
    MissingCharAt(DeformationGridText, TargetLutMinText, 10);
    MissingCharAt(DeformationGridText, TargetLutMaxText, 10);
    MissingCharAt(DeformationGridText, TargetLutModeText, 10);
    MissingCharAt(DeformationGridText, SourceLutMinText, 2);
    MissingCharAt(DeformationGridText, SourceLutMaxText, 2);
    MissingCharAt(DeformationGridText, SourceLutModeText, 2);
  }

  lemma SearchDeformationGrid(k: Key)
    ensures Contains(WrittenKey(DeformationGridKey), KeyText(k)) <==> Fires(DeformationGridKey, k)
  {
    if k == DeformationGridKey {
      DeformationGridFinds();
    } else {
      DeformationGridAgainstSettings();
      DeformationGridAgainstOverlays();
      DeformationGridAgainstObjects();
      DeformationGridAgainstTables();
    }
  }

  lemma DeformationPointsLacks()
    ensures 'u' !in DeformationPointsText && 'c' !in DeformationPointsText && 'd' !in DeformationPointsText && '_' !in DeformationPointsText && 'w' !in DeformationPointsText && ' ' !in DeformationPointsText && '=' !in DeformationPointsText
  {
    assert forall i | 0 <= i < |DeformationPointsText| :: DeformationPointsText[i] in {'D', 'P', 'a', 'e', 'f', 'i', 'l', 'm', 'n', 'o', 'p', 'r', 's', 't', 'y'};
  }

  lemma DeformationPointsAgainstSettings()
    ensures !Contains(DeformationPointsText, ConfigModeText)
    ensures !Contains(DeformationPointsText, ScreenXText)
    ensures !Contains(DeformationPointsText, ScreenYText)
    ensures !Contains(DeformationPointsText, OriginXText)
    ensures !Contains(DeformationPointsText, OriginYText)
    ensures !Contains(DeformationPointsText, OriginZText)
    ensures !Contains(DeformationPointsText, ResolutionText)
    ensures !Contains(DeformationPointsText, TargetInterpolationText)
    ensures !Contains(DeformationPointsText, SourceInterpolationText)
    ensures !Contains(DeformationPointsText, ViewModeText)
    ensures !Contains(DeformationPointsText, ViewMixText)
  {
    DeformationPointsLacks();
    MissingCharAt(DeformationPointsText, ConfigModeText, 0);
    MissingCharAt(DeformationPointsText, ScreenXText, 1);
    MissingCharAt(DeformationPointsText, ScreenYText, 1);
    MissingCharAt(DeformationPointsText, OriginXText, 6);
    MissingCharAt(DeformationPointsText, OriginYText, 6);
    MissingCharAt(DeformationPointsText, OriginZText, 6);
    MissingCharAt(DeformationPointsText, ResolutionText, 5);
    MissingCharAt(DeformationPointsText, TargetInterpolationText, 21);
    MissingCharAt(DeformationPointsText, SourceInterpolationText, 2);
    MissingCharAt(DeformationPointsText, ViewModeText, 6);
    MissingCharAt(DeformationPointsText, ViewMixText, 3);
  }

  lemma DeformationPointsFinds()
    ensures Contains(DeformationPointsText, DeformationPointsText)
  {
    ContainsItself(DeformationPointsText);
  }

  lemma DeformationPointsAgainstOverlays()
    ensures !Contains(DeformationPointsText, TargetContourText)
    ensures !Contains(DeformationPointsText, SourceContourText)
    ensures !Contains(DeformationPointsText, CursorText)
    ensures !Contains(DeformationPointsText, CursorModeText)
    ensures !Contains(DeformationPointsText, DeformationGridText)
    ensures !Contains(DeformationPointsText, DeformationArrowsText)
    ensures !Contains(DeformationPointsText, LandmarksText)
  {
    DeformationPointsLacks();
    MissingCharAt(DeformationPointsText, TargetContourText, 18);
    MissingCharAt(DeformationPointsText, SourceContourText, 9);
    MissingCharAt(DeformationPointsText, CursorText, 8);
    MissingCharAt(DeformationPointsText, CursorModeText, 1);
    MissingCharAt(DeformationPointsText, DeformationGridText, 21);
    MissingCharAt(DeformationPointsText, DeformationArrowsText, 22);
    MissingCharAt(DeformationPointsText, LandmarksText, 10);
  }

  lemma DeformationPointsAgainstObjects()
    ensures !Contains(DeformationPointsText, ObjectText)
    ensures !Contains(DeformationPointsText, ObjectWarpText)
    ensures !Contains(DeformationPointsText, ObjectGridText)
  {
    DeformationPointsLacks();
    MissingCharAt(DeformationPointsText, ObjectText, 11);
    MissingCharAt(DeformationPointsText, ObjectWarpText, 11);
    MissingCharAt(DeformationPointsText, ObjectGridText, 11);
  }

  lemma DeformationPointsAgainstTables()
    ensures !Contains(DeformationPointsText, TargetLutMinText)
    ensures !Contains(DeformationPointsText, TargetLutMaxText)
    ensures !Contains(DeformationPointsText, TargetLutModeText)
    ensures !Contains(DeformationPointsText, SourceLutMinText)
    ensures !Contains(DeformationPointsText, SourceLutMaxText)
    ensures !Contains(DeformationPointsText, SourceLutModeText)
    ensures !Contains(DeformationPointsText, SubtractionLutMinText)
    ensures !Contains(DeformationPointsText, SubtractionLutMaxText)
    ensures !Contains(DeformationPointsText, SubtractionLutModeText)
  {
    DeformationPointsLacks();
    MissingCharAt(DeformationPointsText, TargetLutMinText, 10);
    MissingCharAt(DeformationPointsText, TargetLutMaxText, 10);
    MissingCharAt(DeformationPointsText, TargetLutModeText, 10);
    MissingCharAt(DeformationPointsText, SourceLutMinText, 2);
    MissingCharAt(DeformationPointsText, SourceLutMaxText, 2);
    MissingCharAt(DeformationPointsText, SourceLutModeText, 2);
  }

  lemma SearchDeformationPoints(k: Key)
    ensures Contains(WrittenKey(DeformationPointsKey), KeyText(k)) <==> Fires(DeformationPointsKey, k)
  {
    if k == DeformationPointsKey {
      DeformationPointsFinds();
    } else {
      DeformationPointsAgainstSettings();
      DeformationPointsAgainstOverlays();
      DeformationPointsAgainstObjects();
      DeformationPointsAgainstTables();
    }
  }

  lemma DeformationArrowsLacks()
    ensures 'u' !in DeformationArrowsText && 'c' !in DeformationArrowsText && 'd' !in DeformationArrowsText && '_' !in DeformationArrowsText && 'M' !in DeformationArrowsText && 'P' !in DeformationArrowsText && ' ' !in DeformationArrowsText && '=' !in DeformationArrowsText
  {
    assert forall i | 0 <= i < |DeformationArrowsText| :: DeformationArrowsText[i] in {'A', 'D', 'a', 'e', 'f', 'i', 'l', 'm', 'n', 'o', 'p', 'r', 's', 't', 'w', 'y'};
  }

  lemma DeformationArrowsAgainstSettings()
    ensures !Contains(DeformationArrowsText, ConfigModeText)
    ensures !Contains(DeformationArrowsText, ScreenXText)
    ensures !Contains(DeformationArrowsText, ScreenYText)
    ensures !Contains(DeformationArrowsText, OriginXText)
    ensures !Contains(DeformationArrowsText, OriginYText)
    ensures !Contains(DeformationArrowsText, OriginZText)
    ensures !Contains(DeformationArrowsText, ResolutionText)
    ensures !Contains(DeformationArrowsText, TargetInterpolationText)
    ensures !Contains(DeformationArrowsText, SourceInterpolationText)
    ensures !Contains(DeformationArrowsText, ViewModeText)
    ensures !Contains(DeformationArrowsText, ViewMixText)
  {
    DeformationArrowsLacks();
    MissingCharAt(DeformationArrowsText, ConfigModeText, 0);
    MissingCharAt(DeformationArrowsText, ScreenXText, 1);
    MissingCharAt(DeformationArrowsText, ScreenYText, 1);
    MissingCharAt(DeformationArrowsText, OriginXText, 6);
    MissingCharAt(DeformationArrowsText, OriginYText, 6);
    MissingCharAt(DeformationArrowsText, OriginZText, 6);
    MissingCharAt(DeformationArrowsText, ResolutionText, 5);
    MissingCharAt(DeformationArrowsText, TargetInterpolationText, 21);
    MissingCharAt(DeformationArrowsText, SourceInterpolationText, 2);
    MissingCharAt(DeformationArrowsText, ViewModeText, 6);
    MissingCharAt(DeformationArrowsText, ViewMixText, 4);
  }

  lemma DeformationArrowsFinds()
    ensures Contains(DeformationArrowsText, DeformationArrowsText)
  {
    ContainsItself(DeformationArrowsText);
  }

  lemma DeformationArrowsAgainstOverlays()
    ensures !Contains(DeformationArrowsText, TargetContourText)
    ensures !Contains(DeformationArrowsText, SourceContourText)
    ensures !Contains(DeformationArrowsText, CursorText)
    ensures !Contains(DeformationArrowsText, CursorModeText)
    ensures !Contains(DeformationArrowsText, DeformationGridText)
    ensures !Contains(DeformationArrowsText, DeformationPointsText)
    ensures !Contains(DeformationArrowsText, LandmarksText)
  {
    DeformationArrowsLacks();
    MissingCharAt(DeformationArrowsText, TargetContourText, 18);
    MissingCharAt(DeformationArrowsText, SourceContourText, 9);
    MissingCharAt(DeformationArrowsText, CursorText, 8);
    MissingCharAt(DeformationArrowsText, CursorModeText, 1);
    MissingCharAt(DeformationArrowsText, DeformationGridText, 21);
    MissingCharAt(DeformationArrowsText, DeformationPointsText, 18);
    MissingCharAt(DeformationArrowsText, LandmarksText, 10);
  }

  lemma DeformationArrowsAgainstObjects()
    ensures !Contains(DeformationArrowsText, ObjectText)
    ensures !Contains(DeformationArrowsText, ObjectWarpText)
    ensures !Contains(DeformationArrowsText, ObjectGridText)
  {
    DeformationArrowsLacks();
    MissingCharAt(DeformationArrowsText, ObjectText, 11);
    MissingCharAt(DeformationArrowsText, ObjectWarpText, 11);
    MissingCharAt(DeformationArrowsText, ObjectGridText, 11);
  }

  lemma DeformationArrowsAgainstTables()
    ensures !Contains(DeformationArrowsText, TargetLutMinText)
    ensures !Contains(DeformationArrowsText, TargetLutMaxText)
    ensures !Contains(DeformationArrowsText, TargetLutModeText)
    ensures !Contains(DeformationArrowsText, SourceLutMinText)
    ensures !Contains(DeformationArrowsText, SourceLutMaxText)
    ensures !Contains(DeformationArrowsText, SourceLutModeText)
    ensures !Contains(DeformationArrowsText, SubtractionLutMinText)
    ensures !Contains(DeformationArrowsText, SubtractionLutMaxText)
    ensures !Contains(DeformationArrowsText, SubtractionLutModeText)
  {
    DeformationArrowsLacks();
    MissingCharAt(DeformationArrowsText, TargetLutMinText, 10);
    MissingCharAt(DeformationArrowsText, TargetLutMaxText, 10);
    MissingCharAt(DeformationArrowsText, TargetLutModeText, 10);
    MissingCharAt(DeformationArrowsText, SourceLutMinText, 2);
    MissingCharAt(DeformationArrowsText, SourceLutMaxText, 2);
    MissingCharAt(DeformationArrowsText, SourceLutModeText, 2);
  }

  lemma SearchDeformationArrows(k: Key)
    ensures Contains(WrittenKey(DeformationArrowsKey), KeyText(k)) <==> Fires(DeformationArrowsKey, k)
  {
    if k == DeformationArrowsKey {
      DeformationArrowsFinds();
    } else {
      DeformationArrowsAgainstSettings();
      DeformationArrowsAgainstOverlays();
      DeformationArrowsAgainstObjects();
      DeformationArrowsAgainstTables();
    }
  }

  lemma LandmarksLacks()
    ensures 'e' !in LandmarksText && 'o' !in LandmarksText && ' ' !in LandmarksText && '=' !in LandmarksText
  {
    assert forall i | 0 <= i < |LandmarksText| :: LandmarksText[i] in {'D', 'L', 'a', 'd', 'i', 'k', 'l', 'm', 'n', 'p', 'r', 's', 'y'};
  }

  lemma LandmarksAgainstSettings()
    ensures !Contains(LandmarksText, ConfigModeText)
    ensures !Contains(LandmarksText, ScreenXText)
    ensures !Contains(LandmarksText, ScreenYText)
    ensures !Contains(LandmarksText, OriginXText)
    ensures !Contains(LandmarksText, OriginYText)
    ensures !Contains(LandmarksText, OriginZText)
    ensures !Contains(LandmarksText, ResolutionText)
    ensures !Contains(LandmarksText, TargetInterpolationText)
    ensures !Contains(LandmarksText, SourceInterpolationText)
    ensures !Contains(LandmarksText, ViewModeText)
    ensures !Contains(LandmarksText, ViewMixText)
  {
    LandmarksLacks();
    MissingCharAt(LandmarksText, ConfigModeText, 9);
    MissingCharAt(LandmarksText, ScreenXText, 3);
    MissingCharAt(LandmarksText, ScreenYText, 3);
    MissingCharAt(LandmarksText, OriginXText, 0);
    MissingCharAt(LandmarksText, OriginYText, 0);
    MissingCharAt(LandmarksText, OriginZText, 0);
    MissingCharAt(LandmarksText, ResolutionText, 1);
    MissingCharAt(LandmarksText, ViewModeText, 2);
    MissingCharAt(LandmarksText, ViewMixText, 2);
  }

  lemma LandmarksFinds()
    ensures Contains(LandmarksText, LandmarksText)
  {
    ContainsItself(LandmarksText);
  }

  lemma LandmarksAgainstOverlays()
    ensures !Contains(LandmarksText, TargetContourText)
    ensures !Contains(LandmarksText, SourceContourText)
    ensures !Contains(LandmarksText, CursorText)
    ensures !Contains(LandmarksText, CursorModeText)
    ensures !Contains(LandmarksText, DeformationGridText)
    ensures !Contains(LandmarksText, DeformationPointsText)
    ensures !Contains(LandmarksText, DeformationArrowsText)
  {
    LandmarksLacks();
    MissingCharAt(LandmarksText, CursorText, 11);
    MissingCharAt(LandmarksText, CursorModeText, 9);
  }

  lemma LandmarksAgainstObjects()
    ensures !Contains(LandmarksText, ObjectText)
    ensures !Contains(LandmarksText, ObjectWarpText)
    ensures !Contains(LandmarksText, ObjectGridText)
  {
    LandmarksLacks();
    MissingCharAt(LandmarksText, ObjectText, 10);
  }

  lemma LandmarksAgainstTables()
    ensures !Contains(LandmarksText, TargetLutMinText)
    ensures !Contains(LandmarksText, TargetLutMaxText)
    ensures !Contains(LandmarksText, TargetLutModeText)
    ensures !Contains(LandmarksText, SourceLutMinText)
    ensures !Contains(LandmarksText, SourceLutMaxText)
    ensures !Contains(LandmarksText, SourceLutModeText)
    ensures !Contains(LandmarksText, SubtractionLutMinText)
    ensures !Contains(LandmarksText, SubtractionLutMaxText)
    ensures !Contains(LandmarksText, SubtractionLutModeText)
  {

  }

  lemma SearchLandmarks(k: Key)
    ensures Contains(WrittenKey(LandmarksKey), KeyText(k)) <==> Fires(LandmarksKey, k)
  {
    if k == LandmarksKey {
      LandmarksFinds();
    } else {
      LandmarksAgainstSettings();
      LandmarksAgainstOverlays();
      LandmarksAgainstObjects();
      LandmarksAgainstTables();
    }
  }

  lemma ObjectLacks()
    ensures 'o' !in ObjectText && 'n' !in ObjectText && 'M' !in ObjectText && ' ' !in ObjectText && '=' !in ObjectText
  {
    assert forall i | 0 <= i < |ObjectText| :: ObjectText[i] in {'D', 'O', 'a', 'b', 'c', 'e', 'i', 'j', 'l', 'p', 's', 't', 'y'};
  }

  lemma ObjectAgainstSettings()
    ensures !Contains(ObjectText, ConfigModeText)
    ensures !Contains(ObjectText, ScreenXText)
    ensures !Contains(ObjectText, ScreenYText)
    ensures !Contains(ObjectText, OriginXText)
    ensures !Contains(ObjectText, OriginYText)
    ensures !Contains(ObjectText, OriginZText)
    ensures !Contains(ObjectText, ResolutionText)
    ensures !Contains(ObjectText, TargetInterpolationText)
    ensures !Contains(ObjectText, SourceInterpolationText)
    ensures !Contains(ObjectText, ViewModeText)
    ensures !Contains(ObjectText, ViewMixText)
  {
    ObjectLacks();
    MissingCharAt(ObjectText, ConfigModeText, 1);
    MissingCharAt(ObjectText, ScreenXText, 5);
    MissingCharAt(ObjectText, ScreenYText, 5);
    MissingCharAt(ObjectText, OriginXText, 0);
    MissingCharAt(ObjectText, OriginYText, 0);
    MissingCharAt(ObjectText, OriginZText, 0);
    MissingCharAt(ObjectText, ResolutionText, 3);
    MissingCharAt(ObjectText, ViewModeText, 5);
    MissingCharAt(ObjectText, ViewMixText, 4);
  }

  lemma ObjectAgainstOverlays()
    ensures !Contains(ObjectText, TargetContourText)
    ensures !Contains(ObjectText, SourceContourText)
    ensures !Contains(ObjectText, CursorText)
    ensures !Contains(ObjectText, CursorModeText)
    ensures !Contains(ObjectText, DeformationGridText)
    ensures !Contains(ObjectText, DeformationPointsText)
    ensures !Contains(ObjectText, DeformationArrowsText)
    ensures !Contains(ObjectText, LandmarksText)
  {
    ObjectLacks();
    MissingCharAt(ObjectText, CursorText, 11);
    MissingCharAt(ObjectText, CursorModeText, 4);
  }

  lemma ObjectFinds()
    ensures Contains(ObjectText, ObjectText)
  {
    ContainsItself(ObjectText);
  }

  lemma ObjectAgainstObjects()
    ensures !Contains(ObjectText, ObjectWarpText)
    ensures !Contains(ObjectText, ObjectGridText)
  {

  }

  lemma ObjectAgainstTables()
    ensures !Contains(ObjectText, TargetLutMinText)
    ensures !Contains(ObjectText, TargetLutMaxText)
    ensures !Contains(ObjectText, TargetLutModeText)
    ensures !Contains(ObjectText, SourceLutMinText)
    ensures !Contains(ObjectText, SourceLutMaxText)
    ensures !Contains(ObjectText, SourceLutModeText)
    ensures !Contains(ObjectText, SubtractionLutMinText)
    ensures !Contains(ObjectText, SubtractionLutMaxText)
    ensures !Contains(ObjectText, SubtractionLutModeText)
  {

  }

  lemma SearchObject(k: Key)
    ensures Contains(WrittenKey(ObjectKey), KeyText(k)) <==> Fires(ObjectKey, k)
  {
    if k == ObjectKey {
      ObjectFinds();
    } else {
      ObjectAgainstSettings();
      ObjectAgainstOverlays();
      ObjectAgainstObjects();
      ObjectAgainstTables();
    }
  }

  lemma ObjectWarpLacks()
    ensures 'n' !in ObjectWarpText && 'M' !in ObjectWarpText && 'C' !in ObjectWarpText && 'G' !in ObjectWarpText && ' ' !in ObjectWarpText && '=' !in ObjectWarpText
  {
    assert forall i | 0 <= i < |ObjectWarpText| :: ObjectWarpText[i] in {'D', 'O', 'W', 'a', 'b', 'c', 'e', 'i', 'j', 'l', 'p', 'r', 's', 't', 'y'};
  }

  lemma ObjectWarpAgainstSettings()
    ensures !Contains(ObjectWarpText, ConfigModeText)
    ensures !Contains(ObjectWarpText, ScreenXText)
    ensures !Contains(ObjectWarpText, ScreenYText)
    ensures !Contains(ObjectWarpText, OriginXText)
    ensures !Contains(ObjectWarpText, OriginYText)
    ensures !Contains(ObjectWarpText, OriginZText)
    ensures !Contains(ObjectWarpText, ResolutionText)
    ensures !Contains(ObjectWarpText, TargetInterpolationText)
    ensures !Contains(ObjectWarpText, SourceInterpolationText)
    ensures !Contains(ObjectWarpText, ViewModeText)
    ensures !Contains(ObjectWarpText, ViewMixText)
  {
    ObjectWarpLacks();
    MissingCharAt(ObjectWarpText, ConfigModeText, 2);
    MissingCharAt(ObjectWarpText, ScreenXText, 5);
    MissingCharAt(ObjectWarpText, ScreenYText, 5);
    MissingCharAt(ObjectWarpText, OriginXText, 5);
    MissingCharAt(ObjectWarpText, OriginYText, 5);
    MissingCharAt(ObjectWarpText, OriginZText, 5);
    MissingCharAt(ObjectWarpText, ResolutionText, 9);
    MissingCharAt(ObjectWarpText, ViewModeText, 4);
    MissingCharAt(ObjectWarpText, ViewMixText, 4);
  }

  lemma ObjectWarpAgainstOverlays()
    ensures !Contains(ObjectWarpText, TargetContourText)
    ensures !Contains(ObjectWarpText, SourceContourText)
    ensures !Contains(ObjectWarpText, CursorText)
    ensures !Contains(ObjectWarpText, CursorModeText)
    ensures !Contains(ObjectWarpText, DeformationGridText)
    ensures !Contains(ObjectWarpText, DeformationPointsText)
    ensures !Contains(ObjectWarpText, DeformationArrowsText)
    ensures !Contains(ObjectWarpText, LandmarksText)
  {
    ObjectWarpLacks();
    MissingCharAt(ObjectWarpText, CursorText, 7);
    MissingCharAt(ObjectWarpText, CursorModeText, 6);
    MissingCharAt(ObjectWarpText, LandmarksText, 9);
  }

  lemma ObjectWarpFindsObjects()
    ensures Contains(ObjectWarpText, ObjectText)
    ensures Contains(ObjectWarpText, ObjectWarpText)
  {
    assert OccursAt(ObjectWarpText, ObjectText, 0);
    ContainsItself(ObjectWarpText);
  }

  lemma ObjectWarpAgainstObjects()
    ensures !Contains(ObjectWarpText, ObjectGridText)
  {
    ObjectWarpLacks();
    MissingCharAt(ObjectWarpText, ObjectGridText, 13);
  }


  lemma ObjectWarpAgainstTables()
    ensures !Contains(ObjectWarpText, TargetLutMinText)
    ensures !Contains(ObjectWarpText, TargetLutMaxText)
    ensures !Contains(ObjectWarpText, TargetLutModeText)
    ensures !Contains(ObjectWarpText, SourceLutMinText)
    ensures !Contains(ObjectWarpText, SourceLutMaxText)
    ensures !Contains(ObjectWarpText, SourceLutModeText)
    ensures !Contains(ObjectWarpText, SubtractionLutMinText)
    ensures !Contains(ObjectWarpText, SubtractionLutMaxText)
    ensures !Contains(ObjectWarpText, SubtractionLutModeText)
  {

  }

  lemma SearchObjectWarp(k: Key)
    ensures Contains(WrittenKey(ObjectWarpKey), KeyText(k)) <==> Fires(ObjectWarpKey, k)
  {
    if k == ObjectKey || k == ObjectWarpKey {
      ObjectWarpFindsObjects();
    } else {
      ObjectWarpAgainstSettings();
      ObjectWarpAgainstOverlays();
      ObjectWarpAgainstObjects();
      ObjectWarpAgainstTables();
    }
  }

  lemma ObjectGridLacks()
    ensures 'n' !in ObjectGridText && 'M' !in ObjectGridText && 'C' !in ObjectGridText && 'W' !in ObjectGridText && ' ' !in ObjectGridText && '=' !in ObjectGridText
  {
    assert forall i | 0 <= i < |ObjectGridText| :: ObjectGridText[i] in {'D', 'G', 'O', 'a', 'b', 'c', 'd', 'e', 'i', 'j', 'l', 'p', 'r', 's', 't', 'y'};
  }

  lemma ObjectGridAgainstSettings()
    ensures !Contains(ObjectGridText, ConfigModeText)
    ensures !Contains(ObjectGridText, ScreenXText)
    ensures !Contains(ObjectGridText, ScreenYText)
    ensures !Contains(ObjectGridText, OriginXText)
    ensures !Contains(ObjectGridText, OriginYText)
    ensures !Contains(ObjectGridText, OriginZText)
    ensures !Contains(ObjectGridText, ResolutionText)
    ensures !Contains(ObjectGridText, TargetInterpolationText)
    ensures !Contains(ObjectGridText, SourceInterpolationText)
    ensures !Contains(ObjectGridText, ViewModeText)
    ensures !Contains(ObjectGridText, ViewMixText)
  {
    ObjectGridLacks();
    MissingCharAt(ObjectGridText, ConfigModeText, 2);
    MissingCharAt(ObjectGridText, ScreenXText, 5);
    MissingCharAt(ObjectGridText, ScreenYText, 5);
    MissingCharAt(ObjectGridText, OriginXText, 5);
    MissingCharAt(ObjectGridText, OriginYText, 5);
    MissingCharAt(ObjectGridText, OriginZText, 5);
    MissingCharAt(ObjectGridText, ResolutionText, 9);
    MissingCharAt(ObjectGridText, ViewModeText, 4);
    MissingCharAt(ObjectGridText, ViewMixText, 4);
  }

  lemma ObjectGridAgainstOverlays()
    ensures !Contains(ObjectGridText, TargetContourText)
    ensures !Contains(ObjectGridText, SourceContourText)
    ensures !Contains(ObjectGridText, CursorText)
    ensures !Contains(ObjectGridText, CursorModeText)
    ensures !Contains(ObjectGridText, DeformationGridText)
    ensures !Contains(ObjectGridText, DeformationPointsText)
    ensures !Contains(ObjectGridText, DeformationArrowsText)
    ensures !Contains(ObjectGridText, LandmarksText)
  {
    ObjectGridLacks();
    MissingCharAt(ObjectGridText, CursorText, 7);
    MissingCharAt(ObjectGridText, CursorModeText, 6);
    MissingCharAt(ObjectGridText, LandmarksText, 9);
  }

  lemma ObjectGridFindsObjects()
    ensures Contains(ObjectGridText, ObjectText)
    ensures Contains(ObjectGridText, ObjectGridText)
  {
    assert OccursAt(ObjectGridText, ObjectText, 0);
    ContainsItself(ObjectGridText);
  }

  lemma ObjectGridAgainstObjects()
    ensures !Contains(ObjectGridText, ObjectWarpText)
  {
    ObjectGridLacks();
    MissingCharAt(ObjectGridText, ObjectWarpText, 13);
  }


  lemma ObjectGridAgainstTables()
    ensures !Contains(ObjectGridText, TargetLutMinText)
    ensures !Contains(ObjectGridText, TargetLutMaxText)
    ensures !Contains(ObjectGridText, TargetLutModeText)
    ensures !Contains(ObjectGridText, SourceLutMinText)
    ensures !Contains(ObjectGridText, SourceLutMaxText)
    ensures !Contains(ObjectGridText, SourceLutModeText)
    ensures !Contains(ObjectGridText, SubtractionLutMinText)
    ensures !Contains(ObjectGridText, SubtractionLutMaxText)
    ensures !Contains(ObjectGridText, SubtractionLutModeText)
  {

  }

  lemma SearchObjectGrid(k: Key)
    ensures Contains(WrittenKey(ObjectGridKey), KeyText(k)) <==> Fires(ObjectGridKey, k)
  {
    if k == ObjectKey || k == ObjectGridKey {
      ObjectGridFindsObjects();
    } else {
      ObjectGridAgainstSettings();
      ObjectGridAgainstOverlays();
      ObjectGridAgainstObjects();
      ObjectGridAgainstTables();
    }
  }

  lemma TargetLutMinLacks()
    ensures 'c' !in TargetLutMinWritten && 'd' !in TargetLutMinWritten && 'x' !in TargetLutMinWritten && 'C' !in TargetLutMinWritten && 'f' !in TargetLutMinWritten && 'z' !in TargetLutMinWritten && ' ' !in TargetLutMinWritten && '=' !in TargetLutMinWritten
  {
    assert forall i | 0 <= i < |TargetLutMinWritten| :: TargetLutMinWritten[i] in {'D', 'L', 'T', '_', 'a', 'b', 'e', 'g', 'i', 'k', 'l', 'm', 'n', 'o', 'p', 'r', 's', 't', 'u', 'y'};
  }

  lemma TargetLutMinLacksOr()
    ensures !HasPair(TargetLutMinWritten, 'o', 'r')
  {
  }

  lemma TargetLutMinLacksRe()
    ensures !HasPair(TargetLutMinWritten, 'r', 'e')
  {
  }

  lemma TargetLutMinAgainstSettings()
    ensures !Contains(TargetLutMinWritten, ConfigModeText)
    ensures !Contains(TargetLutMinWritten, ScreenXText)
    ensures !Contains(TargetLutMinWritten, ScreenYText)
    ensures !Contains(TargetLutMinWritten, OriginXText)
    ensures !Contains(TargetLutMinWritten, OriginYText)
    ensures !Contains(TargetLutMinWritten, OriginZText)
    ensures !Contains(TargetLutMinWritten, ResolutionText)
    ensures !Contains(TargetLutMinWritten, TargetInterpolationText)
    ensures !Contains(TargetLutMinWritten, SourceInterpolationText)
    ensures !Contains(TargetLutMinWritten, ViewModeText)
    ensures !Contains(TargetLutMinWritten, ViewMixText)
  {
    TargetLutMinLacks();
    MissingCharAt(TargetLutMinWritten, ConfigModeText, 0);
    MissingCharAt(TargetLutMinWritten, ScreenXText, 1);
    MissingCharAt(TargetLutMinWritten, ScreenYText, 1);
    MissingCharAt(TargetLutMinWritten, OriginXText, 7);
    TargetLutMinLacksOr();
    MissingPair(TargetLutMinWritten, OriginYText, 0);
    MissingCharAt(TargetLutMinWritten, OriginZText, 7);
    TargetLutMinLacksRe();
    MissingPair(TargetLutMinWritten, ResolutionText, 0);
    MissingCharAt(TargetLutMinWritten, TargetInterpolationText, 21);
    MissingCharAt(TargetLutMinWritten, SourceInterpolationText, 4);
    MissingCharAt(TargetLutMinWritten, ViewModeText, 6);
    MissingCharAt(TargetLutMinWritten, ViewMixText, 6);
  }

  lemma TargetLutMinAgainstOverlays()
    ensures !Contains(TargetLutMinWritten, TargetContourText)
    ensures !Contains(TargetLutMinWritten, SourceContourText)
    ensures !Contains(TargetLutMinWritten, CursorText)
    ensures !Contains(TargetLutMinWritten, CursorModeText)
    ensures !Contains(TargetLutMinWritten, DeformationGridText)
    ensures !Contains(TargetLutMinWritten, DeformationPointsText)
    ensures !Contains(TargetLutMinWritten, DeformationArrowsText)
    ensures !Contains(TargetLutMinWritten, LandmarksText)
  {
    TargetLutMinLacks();
    MissingCharAt(TargetLutMinWritten, TargetContourText, 13);
    MissingCharAt(TargetLutMinWritten, SourceContourText, 11);
    MissingCharAt(TargetLutMinWritten, CursorText, 7);
    MissingCharAt(TargetLutMinWritten, CursorModeText, 8);
    MissingCharAt(TargetLutMinWritten, DeformationGridText, 21);
    MissingCharAt(TargetLutMinWritten, DeformationPointsText, 9);
    MissingCharAt(TargetLutMinWritten, DeformationArrowsText, 9);
    MissingCharAt(TargetLutMinWritten, LandmarksText, 10);
  }

  lemma TargetLutMinAgainstObjects()
    ensures !Contains(TargetLutMinWritten, ObjectText)
    ensures !Contains(TargetLutMinWritten, ObjectWarpText)
    ensures !Contains(TargetLutMinWritten, ObjectGridText)
  {
    TargetLutMinLacks();
    MissingCharAt(TargetLutMinWritten, ObjectText, 11);
    MissingCharAt(TargetLutMinWritten, ObjectWarpText, 11);
    MissingCharAt(TargetLutMinWritten, ObjectGridText, 11);
  }

  lemma TargetLutMinFinds()
    ensures Contains(TargetLutMinWritten, TargetLutMinText)
  {
    assert OccursAt(TargetLutMinWritten, TargetLutMinText, 0);
  }

  lemma TargetLutMinAgainstTables()
    ensures !Contains(TargetLutMinWritten, TargetLutMaxText)
    ensures !Contains(TargetLutMinWritten, TargetLutModeText)
    ensures !Contains(TargetLutMinWritten, SourceLutMinText)
    ensures !Contains(TargetLutMinWritten, SourceLutMaxText)
    ensures !Contains(TargetLutMinWritten, SourceLutModeText)
    ensures !Contains(TargetLutMinWritten, SubtractionLutMinText)
    ensures !Contains(TargetLutMinWritten, SubtractionLutMaxText)
    ensures !Contains(TargetLutMinWritten, SubtractionLutModeText)
  {
    TargetLutMinLacks();
    MissingCharAt(TargetLutMinWritten, TargetLutMaxText, 20);
    MissingCharAt(TargetLutMinWritten, TargetLutModeText, 20);
    MissingCharAt(TargetLutMinWritten, SourceLutMinText, 4);
    MissingCharAt(TargetLutMinWritten, SourceLutMaxText, 4);
    MissingCharAt(TargetLutMinWritten, SourceLutModeText, 4);
    MissingCharAt(TargetLutMinWritten, SubtractionLutMinText, 6);
    MissingCharAt(TargetLutMinWritten, SubtractionLutMaxText, 6);
    MissingCharAt(TargetLutMinWritten, SubtractionLutModeText, 6);
  }

  lemma SearchTargetLutMin(k: Key)
    ensures Contains(WrittenKey(TargetLutMinKey), KeyText(k)) <==> Fires(TargetLutMinKey, k)
  {
    if k == TargetLutMinKey {
      TargetLutMinFinds();
    } else {
      TargetLutMinAgainstSettings();
      TargetLutMinAgainstOverlays();
      TargetLutMinAgainstObjects();
      TargetLutMinAgainstTables();
    }
  }

  lemma TargetLutMaxLacks()
    ensures 'n' !in TargetLutMaxWritten && 'c' !in TargetLutMaxWritten && 'M' !in TargetLutMaxWritten && 'C' !in TargetLutMaxWritten && 'd' !in TargetLutMaxWritten && ' ' !in TargetLutMaxWritten && '=' !in TargetLutMaxWritten
  {
    assert forall i | 0 <= i < |TargetLutMaxWritten| :: TargetLutMaxWritten[i] in {'D', 'L', 'T', '_', 'a', 'b', 'e', 'g', 'i', 'k', 'l', 'm', 'o', 'p', 'r', 's', 't', 'u', 'x', 'y'};
  }

  lemma TargetLutMaxAgainstSettings()
    ensures !Contains(TargetLutMaxWritten, ConfigModeText)
    ensures !Contains(TargetLutMaxWritten, ScreenXText)
    ensures !Contains(TargetLutMaxWritten, ScreenYText)
    ensures !Contains(TargetLutMaxWritten, OriginXText)
    ensures !Contains(TargetLutMaxWritten, OriginYText)
    ensures !Contains(TargetLutMaxWritten, OriginZText)
    ensures !Contains(TargetLutMaxWritten, ResolutionText)
    ensures !Contains(TargetLutMaxWritten, TargetInterpolationText)
    ensures !Contains(TargetLutMaxWritten, SourceInterpolationText)
    ensures !Contains(TargetLutMaxWritten, ViewModeText)
    ensures !Contains(TargetLutMaxWritten, ViewMixText)
  {
    TargetLutMaxLacks();
    MissingCharAt(TargetLutMaxWritten, ConfigModeText, 2);
    MissingCharAt(TargetLutMaxWritten, ScreenXText, 5);
    MissingCharAt(TargetLutMaxWritten, ScreenYText, 5);
    MissingCharAt(TargetLutMaxWritten, OriginXText, 5);
    MissingCharAt(TargetLutMaxWritten, OriginYText, 5);
    MissingCharAt(TargetLutMaxWritten, OriginZText, 5);
    MissingCharAt(TargetLutMaxWritten, ResolutionText, 9);
    MissingCharAt(TargetLutMaxWritten, TargetInterpolationText, 7);
    MissingCharAt(TargetLutMaxWritten, SourceInterpolationText, 7);
    MissingCharAt(TargetLutMaxWritten, ViewModeText, 4);
    MissingCharAt(TargetLutMaxWritten, ViewMixText, 4);
  }

  lemma TargetLutMaxAgainstOverlays()
    ensures !Contains(TargetLutMaxWritten, TargetContourText)
    ensures !Contains(TargetLutMaxWritten, SourceContourText)
    ensures !Contains(TargetLutMaxWritten, CursorText)
    ensures !Contains(TargetLutMaxWritten, CursorModeText)
    ensures !Contains(TargetLutMaxWritten, DeformationGridText)
    ensures !Contains(TargetLutMaxWritten, DeformationPointsText)
    ensures !Contains(TargetLutMaxWritten, DeformationArrowsText)
    ensures !Contains(TargetLutMaxWritten, LandmarksText)
  {
    TargetLutMaxLacks();
    MissingCharAt(TargetLutMaxWritten, TargetContourText, 15);
    MissingCharAt(TargetLutMaxWritten, SourceContourText, 15);
    MissingCharAt(TargetLutMaxWritten, CursorText, 7);
    MissingCharAt(TargetLutMaxWritten, CursorModeText, 6);
    MissingCharAt(TargetLutMaxWritten, DeformationGridText, 17);
    MissingCharAt(TargetLutMaxWritten, DeformationPointsText, 17);
    MissingCharAt(TargetLutMaxWritten, DeformationArrowsText, 17);
    MissingCharAt(TargetLutMaxWritten, LandmarksText, 9);
  }

  lemma TargetLutMaxAgainstObjects()
    ensures !Contains(TargetLutMaxWritten, ObjectText)
    ensures !Contains(TargetLutMaxWritten, ObjectWarpText)
    ensures !Contains(TargetLutMaxWritten, ObjectGridText)
  {
    TargetLutMaxLacks();
    MissingCharAt(TargetLutMaxWritten, ObjectText, 11);
    MissingCharAt(TargetLutMaxWritten, ObjectWarpText, 11);
    MissingCharAt(TargetLutMaxWritten, ObjectGridText, 11);
  }

  lemma TargetLutMaxFinds()
    ensures Contains(TargetLutMaxWritten, TargetLutMaxText)
  {
    assert OccursAt(TargetLutMaxWritten, TargetLutMaxText, 0);
  }

  lemma TargetLutMaxAgainstTables()
    ensures !Contains(TargetLutMaxWritten, TargetLutMinText)
    ensures !Contains(TargetLutMaxWritten, TargetLutModeText)
    ensures !Contains(TargetLutMaxWritten, SourceLutMinText)
    ensures !Contains(TargetLutMaxWritten, SourceLutMaxText)
    ensures !Contains(TargetLutMaxWritten, SourceLutModeText)
    ensures !Contains(TargetLutMaxWritten, SubtractionLutMinText)
    ensures !Contains(TargetLutMaxWritten, SubtractionLutMaxText)
    ensures !Contains(TargetLutMaxWritten, SubtractionLutModeText)
  {
    TargetLutMaxLacks();
    MissingCharAt(TargetLutMaxWritten, TargetLutMinText, 20);
    MissingCharAt(TargetLutMaxWritten, TargetLutModeText, 20);
    MissingCharAt(TargetLutMaxWritten, SourceLutMinText, 20);
    MissingCharAt(TargetLutMaxWritten, SourceLutMaxText, 4);
    MissingCharAt(TargetLutMaxWritten, SourceLutModeText, 4);
    MissingCharAt(TargetLutMaxWritten, SubtractionLutMinText, 10);
    MissingCharAt(TargetLutMaxWritten, SubtractionLutMaxText, 10);
    MissingCharAt(TargetLutMaxWritten, SubtractionLutModeText, 10);
  }

  lemma SearchTargetLutMax(k: Key)
    ensures Contains(WrittenKey(TargetLutMaxKey), KeyText(k)) <==> Fires(TargetLutMaxKey, k)
  {
    if k == TargetLutMaxKey {
      TargetLutMaxFinds();
    } else {
      TargetLutMaxAgainstSettings();
      TargetLutMaxAgainstOverlays();
      TargetLutMaxAgainstObjects();
      TargetLutMaxAgainstTables();
    }
  }

  lemma TargetLutModeLacks()
    ensures 'i' !in TargetLutModeText && 's' !in TargetLutModeText && 'x' !in TargetLutModeText && ' ' !in TargetLutModeText && '=' !in TargetLutModeText
  {
    assert forall i | 0 <= i < |TargetLutModeText| :: TargetLutModeText[i] in {'L', 'T', '_', 'a', 'b', 'd', 'e', 'g', 'k', 'l', 'm', 'o', 'p', 'r', 't', 'u'};
  }

  lemma TargetLutModeAgainstSettings()
    ensures !Contains(TargetLutModeText, ConfigModeText)
    ensures !Contains(TargetLutModeText, ScreenXText)
    ensures !Contains(TargetLutModeText, ScreenYText)
    ensures !Contains(TargetLutModeText, OriginXText)
    ensures !Contains(TargetLutModeText, OriginYText)
    ensures !Contains(TargetLutModeText, OriginZText)
    ensures !Contains(TargetLutModeText, ResolutionText)
    ensures !Contains(TargetLutModeText, TargetInterpolationText)
    ensures !Contains(TargetLutModeText, SourceInterpolationText)
    ensures !Contains(TargetLutModeText, ViewModeText)
    ensures !Contains(TargetLutModeText, ViewMixText)
  {
    TargetLutModeLacks();
    MissingCharAt(TargetLutModeText, ConfigModeText, 4);
    MissingCharAt(TargetLutModeText, ScreenXText, 0);
    MissingCharAt(TargetLutModeText, ScreenYText, 0);
    MissingCharAt(TargetLutModeText, OriginXText, 2);
    MissingCharAt(TargetLutModeText, OriginYText, 2);
    MissingCharAt(TargetLutModeText, OriginZText, 2);
    MissingCharAt(TargetLutModeText, ResolutionText, 7);
    MissingCharAt(TargetLutModeText, ViewModeText, 1);
    MissingCharAt(TargetLutModeText, ViewMixText, 1);
  }

  lemma TargetLutModeAgainstOverlays()
    ensures !Contains(TargetLutModeText, TargetContourText)
    ensures !Contains(TargetLutModeText, SourceContourText)
    ensures !Contains(TargetLutModeText, CursorText)
    ensures !Contains(TargetLutModeText, CursorModeText)
    ensures !Contains(TargetLutModeText, DeformationGridText)
    ensures !Contains(TargetLutModeText, DeformationPointsText)
    ensures !Contains(TargetLutModeText, DeformationArrowsText)
    ensures !Contains(TargetLutModeText, LandmarksText)
  {
    TargetLutModeLacks();
    MissingCharAt(TargetLutModeText, TargetContourText, 1);
    MissingCharAt(TargetLutModeText, SourceContourText, 1);
    MissingCharAt(TargetLutModeText, CursorText, 1);
    MissingCharAt(TargetLutModeText, CursorModeText, 3);
    MissingCharAt(TargetLutModeText, DeformationGridText, 1);
    MissingCharAt(TargetLutModeText, LandmarksText, 1);
  }

  lemma TargetLutModeAgainstObjects()
    ensures !Contains(TargetLutModeText, ObjectText)
    ensures !Contains(TargetLutModeText, ObjectWarpText)
    ensures !Contains(TargetLutModeText, ObjectGridText)
  {
    TargetLutModeLacks();
    MissingCharAt(TargetLutModeText, ObjectText, 1);
    MissingCharAt(TargetLutModeText, ObjectWarpText, 1);
    MissingCharAt(TargetLutModeText, ObjectGridText, 1);
  }

  lemma TargetLutModeFinds()
    ensures Contains(TargetLutModeText, TargetLutModeText)
  {
    ContainsItself(TargetLutModeText);
  }

  lemma TargetLutModeAgainstTables()
    ensures !Contains(TargetLutModeText, TargetLutMinText)
    ensures !Contains(TargetLutModeText, TargetLutMaxText)
    ensures !Contains(TargetLutModeText, SourceLutMinText)
    ensures !Contains(TargetLutModeText, SourceLutMaxText)
    ensures !Contains(TargetLutModeText, SourceLutModeText)
    ensures !Contains(TargetLutModeText, SubtractionLutMinText)
    ensures !Contains(TargetLutModeText, SubtractionLutMaxText)
    ensures !Contains(TargetLutModeText, SubtractionLutModeText)
  {
    TargetLutModeLacks();
    MissingCharAt(TargetLutModeText, TargetLutMinText, 19);
    MissingCharAt(TargetLutModeText, TargetLutMaxText, 20);
    MissingCharAt(TargetLutModeText, SourceLutMinText, 19);
    MissingCharAt(TargetLutModeText, SourceLutMaxText, 0);
    MissingCharAt(TargetLutModeText, SourceLutModeText, 0);
  }

  lemma SearchTargetLutMode(k: Key)
    ensures Contains(WrittenKey(TargetLutModeKey), KeyText(k)) <==> Fires(TargetLutModeKey, k)
  {
    if k == TargetLutModeKey {
      TargetLutModeFinds();
    } else {
      TargetLutModeAgainstSettings();
      TargetLutModeAgainstOverlays();
      TargetLutModeAgainstObjects();
      TargetLutModeAgainstTables();
    }
  }

  lemma SourceLutMinLacks()
    ensures 't' !in SourceLutMinWritten && 'd' !in SourceLutMinWritten && 'g' !in SourceLutMinWritten && 'x' !in SourceLutMinWritten && 'C' !in SourceLutMinWritten && 'X' !in SourceLutMinWritten && 'Y' !in SourceLutMinWritten && ' ' !in SourceLutMinWritten && '=' !in SourceLutMinWritten
  {
    assert forall i | 0 <= i < |SourceLutMinWritten| :: SourceLutMinWritten[i] in {'D', 'L', 'T', '_', 'a', 'b', 'c', 'e', 'i', 'k', 'l', 'm', 'n', 'o', 'p', 'r', 's', 'u', 'y'};
  }

  lemma SourceLutMinAgainstSettings()
    ensures !Contains(SourceLutMinWritten, ConfigModeText)
    ensures !Contains(SourceLutMinWritten, ScreenXText)
    ensures !Contains(SourceLutMinWritten, ScreenYText)
    ensures !Contains(SourceLutMinWritten, OriginXText)
    ensures !Contains(SourceLutMinWritten, OriginYText)
    ensures !Contains(SourceLutMinWritten, OriginZText)
    ensures !Contains(SourceLutMinWritten, ResolutionText)
    ensures !Contains(SourceLutMinWritten, TargetInterpolationText)
    ensures !Contains(SourceLutMinWritten, SourceInterpolationText)
    ensures !Contains(SourceLutMinWritten, ViewModeText)
    ensures !Contains(SourceLutMinWritten, ViewMixText)
  {
    SourceLutMinLacks();
    MissingCharAt(SourceLutMinWritten, ConfigModeText, 8);
    MissingCharAt(SourceLutMinWritten, ScreenXText, 6);
    MissingCharAt(SourceLutMinWritten, ScreenYText, 6);
    MissingCharAt(SourceLutMinWritten, OriginXText, 3);
    MissingCharAt(SourceLutMinWritten, OriginYText, 3);
    MissingCharAt(SourceLutMinWritten, OriginZText, 3);
    MissingCharAt(SourceLutMinWritten, ResolutionText, 6);
    MissingCharAt(SourceLutMinWritten, TargetInterpolationText, 0);
    MissingCharAt(SourceLutMinWritten, SourceInterpolationText, 8);
    MissingCharAt(SourceLutMinWritten, ViewModeText, 6);
    MissingCharAt(SourceLutMinWritten, ViewMixText, 6);
  }

  lemma SourceLutMinAgainstOverlays()
    ensures !Contains(SourceLutMinWritten, TargetContourText)
    ensures !Contains(SourceLutMinWritten, SourceContourText)
    ensures !Contains(SourceLutMinWritten, CursorText)
    ensures !Contains(SourceLutMinWritten, CursorModeText)
    ensures !Contains(SourceLutMinWritten, DeformationGridText)
    ensures !Contains(SourceLutMinWritten, DeformationPointsText)
    ensures !Contains(SourceLutMinWritten, DeformationArrowsText)
    ensures !Contains(SourceLutMinWritten, LandmarksText)
  {
    SourceLutMinLacks();
    MissingCharAt(SourceLutMinWritten, TargetContourText, 12);
    MissingCharAt(SourceLutMinWritten, SourceContourText, 16);
    MissingCharAt(SourceLutMinWritten, CursorText, 7);
    MissingCharAt(SourceLutMinWritten, CursorModeText, 8);
    MissingCharAt(SourceLutMinWritten, DeformationGridText, 14);
    MissingCharAt(SourceLutMinWritten, DeformationPointsText, 14);
    MissingCharAt(SourceLutMinWritten, DeformationArrowsText, 14);
    MissingCharAt(SourceLutMinWritten, LandmarksText, 10);
  }

  lemma SourceLutMinAgainstObjects()
    ensures !Contains(SourceLutMinWritten, ObjectText)
    ensures !Contains(SourceLutMinWritten, ObjectWarpText)
    ensures !Contains(SourceLutMinWritten, ObjectGridText)
  {
    SourceLutMinLacks();
    MissingCharAt(SourceLutMinWritten, ObjectText, 12);
    MissingCharAt(SourceLutMinWritten, ObjectWarpText, 12);
    MissingCharAt(SourceLutMinWritten, ObjectGridText, 12);
  }

  lemma SourceLutMinFinds()
    ensures Contains(SourceLutMinWritten, SourceLutMinText)
  {
    assert OccursAt(SourceLutMinWritten, SourceLutMinText, 0);
  }

  lemma SourceLutMinAgainstTables()
    ensures !Contains(SourceLutMinWritten, TargetLutMinText)
    ensures !Contains(SourceLutMinWritten, TargetLutMaxText)
    ensures !Contains(SourceLutMinWritten, TargetLutModeText)
    ensures !Contains(SourceLutMinWritten, SourceLutMaxText)
    ensures !Contains(SourceLutMinWritten, SourceLutModeText)
    ensures !Contains(SourceLutMinWritten, SubtractionLutMinText)
    ensures !Contains(SourceLutMinWritten, SubtractionLutMaxText)
    ensures !Contains(SourceLutMinWritten, SubtractionLutModeText)
  {
    SourceLutMinLacks();
    MissingCharAt(SourceLutMinWritten, TargetLutMinText, 0);
    MissingCharAt(SourceLutMinWritten, TargetLutMaxText, 0);
    MissingCharAt(SourceLutMinWritten, TargetLutModeText, 0);
    MissingCharAt(SourceLutMinWritten, SourceLutMaxText, 20);
    MissingCharAt(SourceLutMinWritten, SourceLutModeText, 20);
    MissingCharAt(SourceLutMinWritten, SubtractionLutMinText, 3);
    MissingCharAt(SourceLutMinWritten, SubtractionLutMaxText, 3);
    MissingCharAt(SourceLutMinWritten, SubtractionLutModeText, 3);
  }

  lemma SearchSourceLutMin(k: Key)
    ensures Contains(WrittenKey(SourceLutMinKey), KeyText(k)) <==> Fires(SourceLutMinKey, k)
  {
    if k == SourceLutMinKey {
      SourceLutMinFinds();
    } else {
      SourceLutMinAgainstSettings();
      SourceLutMinAgainstOverlays();
      SourceLutMinAgainstObjects();
      SourceLutMinAgainstTables();
    }
  }

  lemma SourceLutMaxLacks()
    ensures 'n' !in SourceLutMaxWritten && 'd' !in SourceLutMaxWritten && 't' !in SourceLutMaxWritten && 'C' !in SourceLutMaxWritten && 'M' !in SourceLutMaxWritten && ' ' !in SourceLutMaxWritten && '=' !in SourceLutMaxWritten
  {
    assert forall i | 0 <= i < |SourceLutMaxWritten| :: SourceLutMaxWritten[i] in {'D', 'L', 'T', '_', 'a', 'b', 'c', 'e', 'i', 'k', 'l', 'm', 'o', 'p', 'r', 's', 'u', 'x', 'y'};
  }

  lemma SourceLutMaxAgainstSettings()
    ensures !Contains(SourceLutMaxWritten, ConfigModeText)
    ensures !Contains(SourceLutMaxWritten, ScreenXText)
    ensures !Contains(SourceLutMaxWritten, ScreenYText)
    ensures !Contains(SourceLutMaxWritten, OriginXText)
    ensures !Contains(SourceLutMaxWritten, OriginYText)
    ensures !Contains(SourceLutMaxWritten, OriginZText)
    ensures !Contains(SourceLutMaxWritten, ResolutionText)
    ensures !Contains(SourceLutMaxWritten, TargetInterpolationText)
    ensures !Contains(SourceLutMaxWritten, SourceInterpolationText)
    ensures !Contains(SourceLutMaxWritten, ViewModeText)
    ensures !Contains(SourceLutMaxWritten, ViewMixText)
  {
    SourceLutMaxLacks();
    MissingCharAt(SourceLutMaxWritten, ConfigModeText, 2);
    MissingCharAt(SourceLutMaxWritten, ScreenXText, 5);
    MissingCharAt(SourceLutMaxWritten, ScreenYText, 5);
    MissingCharAt(SourceLutMaxWritten, OriginXText, 5);
    MissingCharAt(SourceLutMaxWritten, OriginYText, 5);
    MissingCharAt(SourceLutMaxWritten, OriginZText, 5);
    MissingCharAt(SourceLutMaxWritten, ResolutionText, 9);
    MissingCharAt(SourceLutMaxWritten, TargetInterpolationText, 7);
    MissingCharAt(SourceLutMaxWritten, SourceInterpolationText, 7);
    MissingCharAt(SourceLutMaxWritten, ViewModeText, 6);
    MissingCharAt(SourceLutMaxWritten, ViewMixText, 4);
  }

  lemma SourceLutMaxAgainstOverlays()
    ensures !Contains(SourceLutMaxWritten, TargetContourText)
    ensures !Contains(SourceLutMaxWritten, SourceContourText)
    ensures !Contains(SourceLutMaxWritten, CursorText)
    ensures !Contains(SourceLutMaxWritten, CursorModeText)
    ensures !Contains(SourceLutMaxWritten, DeformationGridText)
    ensures !Contains(SourceLutMaxWritten, DeformationPointsText)
    ensures !Contains(SourceLutMaxWritten, DeformationArrowsText)
    ensures !Contains(SourceLutMaxWritten, LandmarksText)
  {
    SourceLutMaxLacks();
    MissingCharAt(SourceLutMaxWritten, TargetContourText, 15);
    MissingCharAt(SourceLutMaxWritten, SourceContourText, 15);
    MissingCharAt(SourceLutMaxWritten, CursorText, 7);
    MissingCharAt(SourceLutMaxWritten, CursorModeText, 8);
    MissingCharAt(SourceLutMaxWritten, DeformationGridText, 17);
    MissingCharAt(SourceLutMaxWritten, DeformationPointsText, 17);
    MissingCharAt(SourceLutMaxWritten, DeformationArrowsText, 17);
    MissingCharAt(SourceLutMaxWritten, LandmarksText, 9);
  }

  lemma SourceLutMaxAgainstObjects()
    ensures !Contains(SourceLutMaxWritten, ObjectText)
    ensures !Contains(SourceLutMaxWritten, ObjectWarpText)
    ensures !Contains(SourceLutMaxWritten, ObjectGridText)
  {
    SourceLutMaxLacks();
    MissingCharAt(SourceLutMaxWritten, ObjectText, 12);
    MissingCharAt(SourceLutMaxWritten, ObjectWarpText, 12);
    MissingCharAt(SourceLutMaxWritten, ObjectGridText, 16);
  }

  lemma SourceLutMaxFinds()
    ensures Contains(SourceLutMaxWritten, SourceLutMaxText)
  {
    assert OccursAt(SourceLutMaxWritten, SourceLutMaxText, 0);
  }

  lemma SourceLutMaxAgainstTables()
    ensures !Contains(SourceLutMaxWritten, TargetLutMinText)
    ensures !Contains(SourceLutMaxWritten, TargetLutMaxText)
    ensures !Contains(SourceLutMaxWritten, TargetLutModeText)
    ensures !Contains(SourceLutMaxWritten, SourceLutMinText)
    ensures !Contains(SourceLutMaxWritten, SourceLutModeText)
    ensures !Contains(SourceLutMaxWritten, SubtractionLutMinText)
    ensures !Contains(SourceLutMaxWritten, SubtractionLutMaxText)
    ensures !Contains(SourceLutMaxWritten, SubtractionLutModeText)
  {
    SourceLutMaxLacks();
    MissingCharAt(SourceLutMaxWritten, TargetLutMinText, 20);
    MissingCharAt(SourceLutMaxWritten, TargetLutMaxText, 0);
    MissingCharAt(SourceLutMaxWritten, TargetLutModeText, 20);
    MissingCharAt(SourceLutMaxWritten, SourceLutMinText, 20);
    MissingCharAt(SourceLutMaxWritten, SourceLutModeText, 20);
    MissingCharAt(SourceLutMaxWritten, SubtractionLutMinText, 10);
    MissingCharAt(SourceLutMaxWritten, SubtractionLutMaxText, 10);
    MissingCharAt(SourceLutMaxWritten, SubtractionLutModeText, 10);
  }

  lemma SearchSourceLutMax(k: Key)
    ensures Contains(WrittenKey(SourceLutMaxKey), KeyText(k)) <==> Fires(SourceLutMaxKey, k)
  {
    if k == SourceLutMaxKey {
      SourceLutMaxFinds();
    } else {
      SourceLutMaxAgainstSettings();
      SourceLutMaxAgainstOverlays();
      SourceLutMaxAgainstObjects();
      SourceLutMaxAgainstTables();
    }
  }

  lemma SourceLutModeLacks()
    ensures 'i' !in SourceLutModeText && 'g' !in SourceLutModeText && 'n' !in SourceLutModeText && 'C' !in SourceLutModeText && 'x' !in SourceLutModeText && ' ' !in SourceLutModeText && '=' !in SourceLutModeText
  {
    assert forall i | 0 <= i < |SourceLutModeText| :: SourceLutModeText[i] in {'L', 'T', '_', 'a', 'b', 'c', 'd', 'e', 'k', 'l', 'm', 'o', 'p', 'r', 's', 'u'};
  }

  lemma SourceLutModeAgainstSettings()
    ensures !Contains(SourceLutModeText, ConfigModeText)
    ensures !Contains(SourceLutModeText, ScreenXText)
    ensures !Contains(SourceLutModeText, ScreenYText)
    ensures !Contains(SourceLutModeText, OriginXText)
    ensures !Contains(SourceLutModeText, OriginYText)
    ensures !Contains(SourceLutModeText, OriginZText)
    ensures !Contains(SourceLutModeText, ResolutionText)
    ensures !Contains(SourceLutModeText, TargetInterpolationText)
    ensures !Contains(SourceLutModeText, SourceInterpolationText)
    ensures !Contains(SourceLutModeText, ViewModeText)
    ensures !Contains(SourceLutModeText, ViewMixText)
  {
    SourceLutModeLacks();
    MissingCharAt(SourceLutModeText, ConfigModeText, 4);
    MissingCharAt(SourceLutModeText, ScreenXText, 5);
    MissingCharAt(SourceLutModeText, ScreenYText, 5);
    MissingCharAt(SourceLutModeText, OriginXText, 2);
    MissingCharAt(SourceLutModeText, OriginYText, 2);
    MissingCharAt(SourceLutModeText, OriginZText, 2);
    MissingCharAt(SourceLutModeText, ResolutionText, 7);
    MissingCharAt(SourceLutModeText, ViewModeText, 1);
    MissingCharAt(SourceLutModeText, ViewMixText, 1);
  }

  lemma SourceLutModeAgainstOverlays()
    ensures !Contains(SourceLutModeText, TargetContourText)
    ensures !Contains(SourceLutModeText, SourceContourText)
    ensures !Contains(SourceLutModeText, CursorText)
    ensures !Contains(SourceLutModeText, CursorModeText)
    ensures !Contains(SourceLutModeText, DeformationGridText)
    ensures !Contains(SourceLutModeText, DeformationPointsText)
    ensures !Contains(SourceLutModeText, DeformationArrowsText)
    ensures !Contains(SourceLutModeText, LandmarksText)
  {
    SourceLutModeLacks();
    MissingCharAt(SourceLutModeText, TargetContourText, 1);
    MissingCharAt(SourceLutModeText, SourceContourText, 1);
    MissingCharAt(SourceLutModeText, CursorText, 1);
    MissingCharAt(SourceLutModeText, CursorModeText, 0);
    MissingCharAt(SourceLutModeText, DeformationGridText, 1);
    MissingCharAt(SourceLutModeText, LandmarksText, 1);
  }

  lemma SourceLutModeAgainstObjects()
    ensures !Contains(SourceLutModeText, ObjectText)
    ensures !Contains(SourceLutModeText, ObjectWarpText)
    ensures !Contains(SourceLutModeText, ObjectGridText)
  {
    SourceLutModeLacks();
    MissingCharAt(SourceLutModeText, ObjectText, 1);
    MissingCharAt(SourceLutModeText, ObjectWarpText, 1);
    MissingCharAt(SourceLutModeText, ObjectGridText, 1);
  }

  lemma SourceLutModeFinds()
    ensures Contains(SourceLutModeText, SourceLutModeText)
  {
    ContainsItself(SourceLutModeText);
  }

  lemma SourceLutModeAgainstTables()
    ensures !Contains(SourceLutModeText, TargetLutMinText)
    ensures !Contains(SourceLutModeText, TargetLutMaxText)
    ensures !Contains(SourceLutModeText, TargetLutModeText)
    ensures !Contains(SourceLutModeText, SourceLutMinText)
    ensures !Contains(SourceLutModeText, SourceLutMaxText)
    ensures !Contains(SourceLutModeText, SubtractionLutMinText)
    ensures !Contains(SourceLutModeText, SubtractionLutMaxText)
    ensures !Contains(SourceLutModeText, SubtractionLutModeText)
  {
    SourceLutModeLacks();
    MissingCharAt(SourceLutModeText, TargetLutMinText, 19);
    MissingCharAt(SourceLutModeText, TargetLutMaxText, 3);
    MissingCharAt(SourceLutModeText, TargetLutModeText, 3);
    MissingCharAt(SourceLutModeText, SourceLutMinText, 19);
    MissingCharAt(SourceLutModeText, SourceLutMaxText, 20);
  }

  lemma SearchSourceLutMode(k: Key)
    ensures Contains(WrittenKey(SourceLutModeKey), KeyText(k)) <==> Fires(SourceLutModeKey, k)
  {
    if k == SourceLutModeKey {
      SourceLutModeFinds();
    } else {
      SourceLutModeAgainstSettings();
      SourceLutModeAgainstOverlays();
      SourceLutModeAgainstObjects();
      SourceLutModeAgainstTables();
    }
  }

  lemma SubtractionLutMinLacks()
    ensures 'd' !in SubtractionLutMinWritten && 'g' !in SubtractionLutMinWritten && 'x' !in SubtractionLutMinWritten && 'C' !in SubtractionLutMinWritten && 'O' !in SubtractionLutMinWritten && 'f' !in SubtractionLutMinWritten && 'X' !in SubtractionLutMinWritten && 'Y' !in SubtractionLutMinWritten && ' ' !in SubtractionLutMinWritten && '=' !in SubtractionLutMinWritten
  {
    assert forall i | 0 <= i < |SubtractionLutMinWritten| :: SubtractionLutMinWritten[i] in {'D', 'L', 'T', '_', 'a', 'b', 'c', 'e', 'i', 'k', 'l', 'm', 'n', 'o', 'p', 'r', 's', 't', 'u', 'y'};
  }

  lemma SubtractionLutMinLacksRe()
    ensures !HasPair(SubtractionLutMinWritten, 'r', 'e')
  {
  }

  lemma SubtractionLutMinLacksSo()
    ensures !HasPair(SubtractionLutMinWritten, 's', 'o')
  {
  }

  lemma SubtractionLutMinAgainstSettings()
    ensures !Contains(SubtractionLutMinWritten, ConfigModeText)
    ensures !Contains(SubtractionLutMinWritten, ScreenXText)
    ensures !Contains(SubtractionLutMinWritten, ScreenYText)
    ensures !Contains(SubtractionLutMinWritten, OriginXText)
    ensures !Contains(SubtractionLutMinWritten, OriginYText)
    ensures !Contains(SubtractionLutMinWritten, OriginZText)
    ensures !Contains(SubtractionLutMinWritten, ResolutionText)
    ensures !Contains(SubtractionLutMinWritten, TargetInterpolationText)
    ensures !Contains(SubtractionLutMinWritten, SourceInterpolationText)
    ensures !Contains(SubtractionLutMinWritten, ViewModeText)
    ensures !Contains(SubtractionLutMinWritten, ViewMixText)
  {
    SubtractionLutMinLacks();
    MissingCharAt(SubtractionLutMinWritten, ConfigModeText, 8);
    MissingCharAt(SubtractionLutMinWritten, ScreenXText, 6);
    MissingCharAt(SubtractionLutMinWritten, ScreenYText, 6);
    MissingCharAt(SubtractionLutMinWritten, OriginXText, 3);
    MissingCharAt(SubtractionLutMinWritten, OriginYText, 3);
    MissingCharAt(SubtractionLutMinWritten, OriginZText, 3);
    SubtractionLutMinLacksRe();
    MissingPair(SubtractionLutMinWritten, ResolutionText, 0);
    MissingCharAt(SubtractionLutMinWritten, TargetInterpolationText, 21);
    MissingCharAt(SubtractionLutMinWritten, SourceInterpolationText, 21);
    MissingCharAt(SubtractionLutMinWritten, ViewModeText, 6);
    MissingCharAt(SubtractionLutMinWritten, ViewMixText, 6);
  }

  lemma SubtractionLutMinAgainstOverlays()
    ensures !Contains(SubtractionLutMinWritten, TargetContourText)
    ensures !Contains(SubtractionLutMinWritten, SourceContourText)
    ensures !Contains(SubtractionLutMinWritten, CursorText)
    ensures !Contains(SubtractionLutMinWritten, CursorModeText)
    ensures !Contains(SubtractionLutMinWritten, DeformationGridText)
    ensures !Contains(SubtractionLutMinWritten, DeformationPointsText)
    ensures !Contains(SubtractionLutMinWritten, DeformationArrowsText)
    ensures !Contains(SubtractionLutMinWritten, LandmarksText)
  {
    SubtractionLutMinLacks();
    MissingCharAt(SubtractionLutMinWritten, TargetContourText, 10);
    MissingCharAt(SubtractionLutMinWritten, SourceContourText, 13);
    MissingCharAt(SubtractionLutMinWritten, CursorText, 7);
    MissingCharAt(SubtractionLutMinWritten, CursorModeText, 8);
    MissingCharAt(SubtractionLutMinWritten, DeformationGridText, 21);
    MissingCharAt(SubtractionLutMinWritten, DeformationPointsText, 9);
    MissingCharAt(SubtractionLutMinWritten, DeformationArrowsText, 9);
    MissingCharAt(SubtractionLutMinWritten, LandmarksText, 10);
  }

  lemma SubtractionLutMinAgainstObjects()
    ensures !Contains(SubtractionLutMinWritten, ObjectText)
    ensures !Contains(SubtractionLutMinWritten, ObjectWarpText)
    ensures !Contains(SubtractionLutMinWritten, ObjectGridText)
  {
    SubtractionLutMinLacks();
    MissingCharAt(SubtractionLutMinWritten, ObjectText, 7);
    MissingCharAt(SubtractionLutMinWritten, ObjectWarpText, 7);
    MissingCharAt(SubtractionLutMinWritten, ObjectGridText, 16);
  }

  lemma SubtractionLutMinFinds()
    ensures Contains(SubtractionLutMinWritten, SubtractionLutMinText)
  {
    assert OccursAt(SubtractionLutMinWritten, SubtractionLutMinText, 0);
  }

  lemma SubtractionLutMinAgainstTables()
    ensures !Contains(SubtractionLutMinWritten, TargetLutMinText)
    ensures !Contains(SubtractionLutMinWritten, TargetLutMaxText)
    ensures !Contains(SubtractionLutMinWritten, TargetLutModeText)
    ensures !Contains(SubtractionLutMinWritten, SourceLutMinText)
    ensures !Contains(SubtractionLutMinWritten, SourceLutMaxText)
    ensures !Contains(SubtractionLutMinWritten, SourceLutModeText)
    ensures !Contains(SubtractionLutMinWritten, SubtractionLutMaxText)
    ensures !Contains(SubtractionLutMinWritten, SubtractionLutModeText)
  {
    SubtractionLutMinLacks();
    MissingCharAt(SubtractionLutMinWritten, TargetLutMinText, 3);
    MissingCharAt(SubtractionLutMinWritten, TargetLutMaxText, 3);
    MissingCharAt(SubtractionLutMinWritten, TargetLutModeText, 20);
    SubtractionLutMinLacksSo();
    MissingPair(SubtractionLutMinWritten, SourceLutMinText, 0);
    MissingCharAt(SubtractionLutMinWritten, SourceLutMaxText, 20);
    MissingCharAt(SubtractionLutMinWritten, SourceLutModeText, 20);
    MissingCharAt(SubtractionLutMinWritten, SubtractionLutMaxText, 25);
    MissingCharAt(SubtractionLutMinWritten, SubtractionLutModeText, 25);
  }

  lemma SearchSubtractionLutMin(k: Key)
    ensures Contains(WrittenKey(SubtractionLutMinKey), KeyText(k)) <==> Fires(SubtractionLutMinKey, k)
  {
    if k == SubtractionLutMinKey {
      SubtractionLutMinFinds();
    } else {
      SubtractionLutMinAgainstSettings();
      SubtractionLutMinAgainstOverlays();
      SubtractionLutMinAgainstObjects();
      SubtractionLutMinAgainstTables();
    }
  }

  lemma SubtractionLutMaxLacks()
    ensures 'd' !in SubtractionLutMaxWritten && 'g' !in SubtractionLutMaxWritten && 'C' !in SubtractionLutMaxWritten && 'O' !in SubtractionLutMaxWritten && 'f' !in SubtractionLutMaxWritten && 'M' !in SubtractionLutMaxWritten && 'X' !in SubtractionLutMaxWritten && 'Y' !in SubtractionLutMaxWritten && ' ' !in SubtractionLutMaxWritten && '=' !in SubtractionLutMaxWritten
  {
    assert forall i | 0 <= i < |SubtractionLutMaxWritten| :: SubtractionLutMaxWritten[i] in {'D', 'L', 'T', '_', 'a', 'b', 'c', 'e', 'i', 'k', 'l', 'm', 'n', 'o', 'p', 'r', 's', 't', 'u', 'x', 'y'};
  }

  lemma SubtractionLutMaxLacksRe()
    ensures !HasPair(SubtractionLutMaxWritten, 'r', 'e')
  {
  }

  lemma SubtractionLutMaxLacksSo()
    ensures !HasPair(SubtractionLutMaxWritten, 's', 'o')
  {
  }

  lemma SubtractionLutMaxLacksMi()
    ensures !HasPair(SubtractionLutMaxWritten, 'm', 'i')
  {
  }

  lemma SubtractionLutMaxAgainstSettings()
    ensures !Contains(SubtractionLutMaxWritten, ConfigModeText)
    ensures !Contains(SubtractionLutMaxWritten, ScreenXText)
    ensures !Contains(SubtractionLutMaxWritten, ScreenYText)
    ensures !Contains(SubtractionLutMaxWritten, OriginXText)
    ensures !Contains(SubtractionLutMaxWritten, OriginYText)
    ensures !Contains(SubtractionLutMaxWritten, OriginZText)
    ensures !Contains(SubtractionLutMaxWritten, ResolutionText)
    ensures !Contains(SubtractionLutMaxWritten, TargetInterpolationText)
    ensures !Contains(SubtractionLutMaxWritten, SourceInterpolationText)
    ensures !Contains(SubtractionLutMaxWritten, ViewModeText)
    ensures !Contains(SubtractionLutMaxWritten, ViewMixText)
  {
    SubtractionLutMaxLacks();
    MissingCharAt(SubtractionLutMaxWritten, ConfigModeText, 8);
    MissingCharAt(SubtractionLutMaxWritten, ScreenXText, 6);
    MissingCharAt(SubtractionLutMaxWritten, ScreenYText, 6);
    MissingCharAt(SubtractionLutMaxWritten, OriginXText, 3);
    MissingCharAt(SubtractionLutMaxWritten, OriginYText, 3);
    MissingCharAt(SubtractionLutMaxWritten, OriginZText, 3);
    SubtractionLutMaxLacksRe();
    MissingPair(SubtractionLutMaxWritten, ResolutionText, 0);
    MissingCharAt(SubtractionLutMaxWritten, TargetInterpolationText, 21);
    MissingCharAt(SubtractionLutMaxWritten, SourceInterpolationText, 21);
    MissingCharAt(SubtractionLutMaxWritten, ViewModeText, 6);
    MissingCharAt(SubtractionLutMaxWritten, ViewMixText, 4);
  }

  lemma SubtractionLutMaxAgainstOverlays()
    ensures !Contains(SubtractionLutMaxWritten, TargetContourText)
    ensures !Contains(SubtractionLutMaxWritten, SourceContourText)
    ensures !Contains(SubtractionLutMaxWritten, CursorText)
    ensures !Contains(SubtractionLutMaxWritten, CursorModeText)
    ensures !Contains(SubtractionLutMaxWritten, DeformationGridText)
    ensures !Contains(SubtractionLutMaxWritten, DeformationPointsText)
    ensures !Contains(SubtractionLutMaxWritten, DeformationArrowsText)
    ensures !Contains(SubtractionLutMaxWritten, LandmarksText)
  {
    SubtractionLutMaxLacks();
    MissingCharAt(SubtractionLutMaxWritten, TargetContourText, 10);
    MissingCharAt(SubtractionLutMaxWritten, SourceContourText, 13);
    MissingCharAt(SubtractionLutMaxWritten, CursorText, 7);
    MissingCharAt(SubtractionLutMaxWritten, CursorModeText, 8);
    MissingCharAt(SubtractionLutMaxWritten, DeformationGridText, 21);
    MissingCharAt(SubtractionLutMaxWritten, DeformationPointsText, 9);
    MissingCharAt(SubtractionLutMaxWritten, DeformationArrowsText, 9);
    MissingCharAt(SubtractionLutMaxWritten, LandmarksText, 10);
  }

  lemma SubtractionLutMaxAgainstObjects()
    ensures !Contains(SubtractionLutMaxWritten, ObjectText)
    ensures !Contains(SubtractionLutMaxWritten, ObjectWarpText)
    ensures !Contains(SubtractionLutMaxWritten, ObjectGridText)
  {
    SubtractionLutMaxLacks();
    MissingCharAt(SubtractionLutMaxWritten, ObjectText, 7);
    MissingCharAt(SubtractionLutMaxWritten, ObjectWarpText, 7);
    MissingCharAt(SubtractionLutMaxWritten, ObjectGridText, 16);
  }

  lemma SubtractionLutMaxFinds()
    ensures Contains(SubtractionLutMaxWritten, SubtractionLutMaxText)
  {
    assert OccursAt(SubtractionLutMaxWritten, SubtractionLutMaxText, 0);
  }

  lemma SubtractionLutMaxAgainstTables()
    ensures !Contains(SubtractionLutMaxWritten, TargetLutMinText)
    ensures !Contains(SubtractionLutMaxWritten, TargetLutMaxText)
    ensures !Contains(SubtractionLutMaxWritten, TargetLutModeText)
    ensures !Contains(SubtractionLutMaxWritten, SourceLutMinText)
    ensures !Contains(SubtractionLutMaxWritten, SourceLutMaxText)
    ensures !Contains(SubtractionLutMaxWritten, SourceLutModeText)
    ensures !Contains(SubtractionLutMaxWritten, SubtractionLutMinText)
    ensures !Contains(SubtractionLutMaxWritten, SubtractionLutModeText)
  {
    SubtractionLutMaxLacks();
    MissingCharAt(SubtractionLutMaxWritten, TargetLutMinText, 3);
    MissingCharAt(SubtractionLutMaxWritten, TargetLutMaxText, 3);
    MissingCharAt(SubtractionLutMaxWritten, TargetLutModeText, 20);
    SubtractionLutMaxLacksSo();
    MissingPair(SubtractionLutMaxWritten, SourceLutMinText, 0);
    SubtractionLutMaxLacksSo();
    MissingPair(SubtractionLutMaxWritten, SourceLutMaxText, 0);
    MissingCharAt(SubtractionLutMaxWritten, SourceLutModeText, 20);
    SubtractionLutMaxLacksMi();
    MissingPair(SubtractionLutMaxWritten, SubtractionLutMinText, 23);
    MissingCharAt(SubtractionLutMaxWritten, SubtractionLutModeText, 25);
  }

  lemma SearchSubtractionLutMax(k: Key)
    ensures Contains(WrittenKey(SubtractionLutMaxKey), KeyText(k)) <==> Fires(SubtractionLutMaxKey, k)
  {
    if k == SubtractionLutMaxKey {
      SubtractionLutMaxFinds();
    } else {
      SubtractionLutMaxAgainstSettings();
      SubtractionLutMaxAgainstOverlays();
      SubtractionLutMaxAgainstObjects();
      SubtractionLutMaxAgainstTables();
    }
  }

  lemma SubtractionLutModeLacks()
    ensures 'y' !in SubtractionLutModeText && 'g' !in SubtractionLutModeText && 'M' !in SubtractionLutModeText && 'x' !in SubtractionLutModeText && 'X' !in SubtractionLutModeText && 'Y' !in SubtractionLutModeText && ' ' !in SubtractionLutModeText && '=' !in SubtractionLutModeText
  {
    assert forall i | 0 <= i < |SubtractionLutModeText| :: SubtractionLutModeText[i] in {'L', 'T', '_', 'a', 'b', 'c', 'd', 'e', 'i', 'k', 'l', 'm', 'n', 'o', 'p', 'r', 's', 't', 'u'};
  }

  lemma SubtractionLutModeLacksRe()
    ensures !HasPair(SubtractionLutModeText, 'r', 'e')
  {
  }

  lemma SubtractionLutModeLacksSo()
    ensures !HasPair(SubtractionLutModeText, 's', 'o')
  {
  }

  lemma SubtractionLutModeLacksMi()
    ensures !HasPair(SubtractionLutModeText, 'm', 'i')
  {
  }

  lemma SubtractionLutModeAgainstSettings()
    ensures !Contains(SubtractionLutModeText, ConfigModeText)
    ensures !Contains(SubtractionLutModeText, ScreenXText)
    ensures !Contains(SubtractionLutModeText, ScreenYText)
    ensures !Contains(SubtractionLutModeText, OriginXText)
    ensures !Contains(SubtractionLutModeText, OriginYText)
    ensures !Contains(SubtractionLutModeText, OriginZText)
    ensures !Contains(SubtractionLutModeText, ResolutionText)
    ensures !Contains(SubtractionLutModeText, TargetInterpolationText)
    ensures !Contains(SubtractionLutModeText, SourceInterpolationText)
    ensures !Contains(SubtractionLutModeText, ViewModeText)
    ensures !Contains(SubtractionLutModeText, ViewMixText)
  {
    SubtractionLutModeLacks();
    MissingCharAt(SubtractionLutModeText, ConfigModeText, 5);
    MissingCharAt(SubtractionLutModeText, ScreenXText, 6);
    MissingCharAt(SubtractionLutModeText, ScreenYText, 6);
    MissingCharAt(SubtractionLutModeText, OriginXText, 3);
    MissingCharAt(SubtractionLutModeText, OriginYText, 7);
    MissingCharAt(SubtractionLutModeText, OriginZText, 3);
    SubtractionLutModeLacksRe();
    MissingPair(SubtractionLutModeText, ResolutionText, 0);
    MissingCharAt(SubtractionLutModeText, TargetInterpolationText, 3);
    MissingCharAt(SubtractionLutModeText, SourceInterpolationText, 19);
    MissingCharAt(SubtractionLutModeText, ViewModeText, 4);
    MissingCharAt(SubtractionLutModeText, ViewMixText, 4);
  }

  lemma SubtractionLutModeAgainstOverlays()
    ensures !Contains(SubtractionLutModeText, TargetContourText)
    ensures !Contains(SubtractionLutModeText, SourceContourText)
    ensures !Contains(SubtractionLutModeText, CursorText)
    ensures !Contains(SubtractionLutModeText, CursorModeText)
    ensures !Contains(SubtractionLutModeText, DeformationGridText)
    ensures !Contains(SubtractionLutModeText, DeformationPointsText)
    ensures !Contains(SubtractionLutModeText, DeformationArrowsText)
    ensures !Contains(SubtractionLutModeText, LandmarksText)
  {
    SubtractionLutModeLacks();
    MissingCharAt(SubtractionLutModeText, TargetContourText, 6);
    MissingCharAt(SubtractionLutModeText, SourceContourText, 6);
    MissingCharAt(SubtractionLutModeText, CursorText, 6);
    MissingCharAt(SubtractionLutModeText, CursorModeText, 6);
    MissingCharAt(SubtractionLutModeText, DeformationGridText, 6);
    MissingCharAt(SubtractionLutModeText, DeformationPointsText, 6);
    MissingCharAt(SubtractionLutModeText, DeformationArrowsText, 6);
    MissingCharAt(SubtractionLutModeText, LandmarksText, 6);
  }

  lemma SubtractionLutModeAgainstObjects()
    ensures !Contains(SubtractionLutModeText, ObjectText)
    ensures !Contains(SubtractionLutModeText, ObjectWarpText)
    ensures !Contains(SubtractionLutModeText, ObjectGridText)
  {
    SubtractionLutModeLacks();
    MissingCharAt(SubtractionLutModeText, ObjectText, 6);
    MissingCharAt(SubtractionLutModeText, ObjectWarpText, 6);
    MissingCharAt(SubtractionLutModeText, ObjectGridText, 6);
  }

  lemma SubtractionLutModeFinds()
    ensures Contains(SubtractionLutModeText, SubtractionLutModeText)
  {
    ContainsItself(SubtractionLutModeText);
  }

  lemma SubtractionLutModeAgainstTables()
    ensures !Contains(SubtractionLutModeText, TargetLutMinText)
    ensures !Contains(SubtractionLutModeText, TargetLutMaxText)
    ensures !Contains(SubtractionLutModeText, TargetLutModeText)
    ensures !Contains(SubtractionLutModeText, SourceLutMinText)
    ensures !Contains(SubtractionLutModeText, SourceLutMaxText)
    ensures !Contains(SubtractionLutModeText, SourceLutModeText)
    ensures !Contains(SubtractionLutModeText, SubtractionLutMinText)
    ensures !Contains(SubtractionLutModeText, SubtractionLutMaxText)
  {
    SubtractionLutModeLacks();
    MissingCharAt(SubtractionLutModeText, TargetLutMinText, 3);
    MissingCharAt(SubtractionLutModeText, TargetLutMaxText, 3);
    MissingCharAt(SubtractionLutModeText, TargetLutModeText, 3);
    SubtractionLutModeLacksSo();
    MissingPair(SubtractionLutModeText, SourceLutMinText, 0);
    MissingCharAt(SubtractionLutModeText, SourceLutMaxText, 20);
    SubtractionLutModeLacksSo();
    MissingPair(SubtractionLutModeText, SourceLutModeText, 0);
    SubtractionLutModeLacksMi();
    MissingPair(SubtractionLutModeText, SubtractionLutMinText, 23);
    MissingCharAt(SubtractionLutModeText, SubtractionLutMaxText, 25);
  }

  lemma SearchSubtractionLutMode(k: Key)
    ensures Contains(WrittenKey(SubtractionLutModeKey), KeyText(k)) <==> Fires(SubtractionLutModeKey, k)
  {
    if k == SubtractionLutModeKey {
      SubtractionLutModeFinds();
    } else {
      SubtractionLutModeAgainstSettings();
      SubtractionLutModeAgainstOverlays();
      SubtractionLutModeAgainstObjects();
      SubtractionLutModeAgainstTables();
    }
  }
  /** The key names `Read` searches for hold no blank and no `=`. */
  lemma KeyTextNoSeparator(k: Key)
    ensures ' ' !in KeyText(k) && '=' !in KeyText(k)
  {
    match k
    case ConfigModeKey => ConfigModeLacks();
    case ScreenXKey => ScreenXLacks();
    case ScreenYKey => ScreenYLacks();
    case OriginXKey => OriginXLacks();
    case OriginYKey => OriginYLacks();
    case OriginZKey => OriginZLacks();
    case ResolutionKey => ResolutionLacks();
    case TargetInterpolationKey => TargetInterpolationLacks();
    case SourceInterpolationKey => SourceInterpolationLacks();
    case ViewModeKey => ViewModeLacks();
    case ViewMixKey => ViewMixLacks();
    case TargetContourKey => TargetContourLacks();
    case SourceContourKey => SourceContourLacks();
    case CursorKey => CursorLacks();
    case CursorModeKey => CursorModeLacks();
    case DeformationGridKey => DeformationGridLacks();
    case DeformationPointsKey => DeformationPointsLacks();
    case DeformationArrowsKey => DeformationArrowsLacks();
    case LandmarksKey => LandmarksLacks();
    case ObjectKey => ObjectLacks();
    case ObjectWarpKey => ObjectWarpLacks();
    case ObjectGridKey => ObjectGridLacks();
    case TargetLutMinKey => TargetLutMinTextLacks();
    case TargetLutMaxKey => TargetLutMaxTextLacks();
    case TargetLutModeKey => TargetLutModeLacks();
    case SourceLutMinKey => SourceLutMinTextLacks();
    case SourceLutMaxKey => SourceLutMaxTextLacks();
    case SourceLutModeKey => SourceLutModeLacks();
    case SubtractionLutMinKey => SubtractionLutMinTextLacks();
    case SubtractionLutMaxKey => SubtractionLutMaxTextLacks();
    case SubtractionLutModeKey => SubtractionLutModeLacks();
  }

  /** The key names `Write` prints hold no blank and no `=`. */
  lemma WrittenKeyNoSeparator(k: Key)
    ensures ' ' !in WrittenKey(k) && '=' !in WrittenKey(k)
  {
    match k
    case TargetLutMinKey => TargetLutMinLacks();
    case TargetLutMaxKey => TargetLutMaxLacks();
    case SourceLutMinKey => SourceLutMinLacks();
    case SourceLutMaxKey => SourceLutMaxLacks();
    case SubtractionLutMinKey => SubtractionLutMinLacks();
    case SubtractionLutMaxKey => SubtractionLutMaxLacks();
    case _ => KeyTextNoSeparator(k);
  }

  lemma TargetLutMinTextLacks()
    ensures ' ' !in TargetLutMinText && '=' !in TargetLutMinText
  {
    assert forall i | 0 <= i < |TargetLutMinText| :: TargetLutMinText[i] in {'L', 'T', '_', 'a', 'b', 'e', 'g', 'i', 'k', 'l', 'm', 'n', 'o', 'p', 'r', 't', 'u'};
  }

  lemma TargetLutMaxTextLacks()
    ensures ' ' !in TargetLutMaxText && '=' !in TargetLutMaxText
  {
    assert forall i | 0 <= i < |TargetLutMaxText| :: TargetLutMaxText[i] in {'L', 'T', '_', 'a', 'b', 'e', 'g', 'k', 'l', 'm', 'o', 'p', 'r', 't', 'u', 'x'};
  }

  lemma SourceLutMinTextLacks()
    ensures ' ' !in SourceLutMinText && '=' !in SourceLutMinText
  {
    assert forall i | 0 <= i < |SourceLutMinText| :: SourceLutMinText[i] in {'L', 'T', '_', 'a', 'b', 'c', 'e', 'i', 'k', 'l', 'm', 'n', 'o', 'p', 'r', 's', 'u'};
  }

  lemma SourceLutMaxTextLacks()
    ensures ' ' !in SourceLutMaxText && '=' !in SourceLutMaxText
  {
    assert forall i | 0 <= i < |SourceLutMaxText| :: SourceLutMaxText[i] in {'L', 'T', '_', 'a', 'b', 'c', 'e', 'k', 'l', 'm', 'o', 'p', 'r', 's', 'u', 'x'};
  }

  lemma SubtractionLutMinTextLacks()
    ensures ' ' !in SubtractionLutMinText && '=' !in SubtractionLutMinText
  {
    assert forall i | 0 <= i < |SubtractionLutMinText| :: SubtractionLutMinText[i] in {'L', 'T', '_', 'a', 'b', 'c', 'e', 'i', 'k', 'l', 'm', 'n', 'o', 'p', 'r', 's', 't', 'u'};
  }

  lemma SubtractionLutMaxTextLacks()
    ensures ' ' !in SubtractionLutMaxText && '=' !in SubtractionLutMaxText
  {
    assert forall i | 0 <= i < |SubtractionLutMaxText| :: SubtractionLutMaxText[i] in {'L', 'T', '_', 'a', 'b', 'c', 'e', 'i', 'k', 'l', 'm', 'n', 'o', 'p', 'r', 's', 't', 'u', 'x'};
  }

  /** Every key text has one of the characters 'r', 'M', 'D'. */
  lemma KeyHasRMD(k: Key)
    ensures 'r' in KeyText(k) || 'M' in KeyText(k) || 'D' in KeyText(k)
  {
    match k
    case ConfigModeKey => assert ConfigModeText[6] == 'M';
    case ScreenXKey => assert ScreenXText[2] == 'r';
    case ScreenYKey => assert ScreenYText[2] == 'r';
    case OriginXKey => assert OriginXText[1] == 'r';
    case OriginYKey => assert OriginYText[1] == 'r';
    case OriginZKey => assert OriginZText[1] == 'r';
    case ResolutionKey => assert ResolutionText[0] == 'r';
    case TargetInterpolationKey => assert TargetInterpolationText[2] == 'r';
    case SourceInterpolationKey => assert SourceInterpolationText[3] == 'r';
    case ViewModeKey => assert ViewModeText[4] == 'M';
    case ViewMixKey => assert ViewMixText[4] == 'M';
    case TargetContourKey => assert TargetContourText[9] == 'r';
    case SourceContourKey => assert SourceContourText[10] == 'r';
    case CursorKey => assert CursorText[9] == 'r';
    case CursorModeKey => assert CursorModeText[2] == 'r';
    case DeformationGridKey => assert DeformationGridText[11] == 'r';
    case DeformationPointsKey => assert DeformationPointsText[11] == 'r';
    case DeformationArrowsKey => assert DeformationArrowsText[11] == 'r';
    case LandmarksKey => assert LandmarksText[13] == 'r';
    case ObjectKey => assert ObjectText[0] == 'D';
    case ObjectWarpKey => assert ObjectWarpText[15] == 'r';
    case ObjectGridKey => assert ObjectGridText[14] == 'r';
    case TargetLutMinKey => assert TargetLutMinText[2] == 'r';
    case TargetLutMaxKey => assert TargetLutMaxText[2] == 'r';
    case TargetLutModeKey => assert TargetLutModeText[2] == 'r';
    case SourceLutMinKey => assert SourceLutMinText[3] == 'r';
    case SourceLutMaxKey => assert SourceLutMaxText[3] == 'r';
    case SourceLutModeKey => assert SourceLutModeText[3] == 'r';
    case SubtractionLutMinKey => assert SubtractionLutMinText[4] == 'r';
    case SubtractionLutMaxKey => assert SubtractionLutMaxText[4] == 'r';
    case SubtractionLutModeKey => assert SubtractionLutModeText[4] == 'r';
  }

  /** Every key text has one of the characters 's', 'g', 'M'. */
  lemma KeyHasSGM(k: Key)
    ensures 's' in KeyText(k) || 'g' in KeyText(k) || 'M' in KeyText(k)
  {
    match k
    case ConfigModeKey => assert ConfigModeText[5] == 'g';
    case ScreenXKey => assert ScreenXText[0] == 's';
    case ScreenYKey => assert ScreenYText[0] == 's';
    case OriginXKey => assert OriginXText[3] == 'g';
    case OriginYKey => assert OriginYText[3] == 'g';
    case OriginZKey => assert OriginZText[3] == 'g';
    case ResolutionKey => assert ResolutionText[2] == 's';
    case TargetInterpolationKey => assert TargetInterpolationText[3] == 'g';
    case SourceInterpolationKey => assert SourceInterpolationText[0] == 's';
    case ViewModeKey => assert ViewModeText[4] == 'M';
    case ViewMixKey => assert ViewMixText[4] == 'M';
    case TargetContourKey => assert TargetContourText[2] == 's';
    case SourceContourKey => assert SourceContourText[2] == 's';
    case CursorKey => assert CursorText[2] == 's';
    case CursorModeKey => assert CursorModeText[3] == 's';
    case DeformationGridKey => assert DeformationGridText[2] == 's';
    case DeformationPointsKey => assert DeformationPointsText[2] == 's';
    case DeformationArrowsKey => assert DeformationArrowsText[2] == 's';
    case LandmarksKey => assert LandmarksText[2] == 's';
    case ObjectKey => assert ObjectText[2] == 's';
    case ObjectWarpKey => assert ObjectWarpText[2] == 's';
    case ObjectGridKey => assert ObjectGridText[2] == 's';
    case TargetLutMinKey => assert TargetLutMinText[3] == 'g';
    case TargetLutMaxKey => assert TargetLutMaxText[3] == 'g';
    case TargetLutModeKey => assert TargetLutModeText[3] == 'g';
    case SourceLutMinKey => assert SourceLutMinText[0] == 's';
    case SourceLutMaxKey => assert SourceLutMaxText[0] == 's';
    case SourceLutModeKey => assert SourceLutModeText[0] == 's';
    case SubtractionLutMinKey => assert SubtractionLutMinText[0] == 's';
    case SubtractionLutMaxKey => assert SubtractionLutMaxText[0] == 's';
    case SubtractionLutModeKey => assert SubtractionLutModeText[0] == 's';
  }

  /** Every key text has one of the characters 'l', 'M', 'g', 's'. */
  lemma KeyHasLMGS(k: Key)
    ensures 'l' in KeyText(k) || 'M' in KeyText(k) || 'g' in KeyText(k) || 's' in KeyText(k)
  {
    match k
    case ConfigModeKey => assert ConfigModeText[6] == 'M';
    case ScreenXKey => assert ScreenXText[0] == 's';
    case ScreenYKey => assert ScreenYText[0] == 's';
    case OriginXKey => assert OriginXText[3] == 'g';
    case OriginYKey => assert OriginYText[3] == 'g';
    case OriginZKey => assert OriginZText[3] == 'g';
    case ResolutionKey => assert ResolutionText[4] == 'l';
    case TargetInterpolationKey => assert TargetInterpolationText[13] == 'l';
    case SourceInterpolationKey => assert SourceInterpolationText[13] == 'l';
    case ViewModeKey => assert ViewModeText[4] == 'M';
    case ViewMixKey => assert ViewMixText[4] == 'M';
    case TargetContourKey => assert TargetContourText[4] == 'l';
    case SourceContourKey => assert SourceContourText[4] == 'l';
    case CursorKey => assert CursorText[4] == 'l';
    case CursorModeKey => assert CursorModeText[6] == 'M';
    case DeformationGridKey => assert DeformationGridText[4] == 'l';
    case DeformationPointsKey => assert DeformationPointsText[4] == 'l';
    case DeformationArrowsKey => assert DeformationArrowsText[4] == 'l';
    case LandmarksKey => assert LandmarksText[4] == 'l';
    case ObjectKey => assert ObjectText[4] == 'l';
    case ObjectWarpKey => assert ObjectWarpText[4] == 'l';
    case ObjectGridKey => assert ObjectGridText[4] == 'l';
    case TargetLutMinKey => assert TargetLutMinText[15] == 'l';
    case TargetLutMaxKey => assert TargetLutMaxText[15] == 'l';
    case TargetLutModeKey => assert TargetLutModeText[15] == 'l';
    case SourceLutMinKey => assert SourceLutMinText[15] == 'l';
    case SourceLutMaxKey => assert SourceLutMaxText[15] == 'l';
    case SourceLutModeKey => assert SourceLutModeText[15] == 'l';
    case SubtractionLutMinKey => assert SubtractionLutMinText[20] == 'l';
    case SubtractionLutMaxKey => assert SubtractionLutMaxText[20] == 'l';
    case SubtractionLutModeKey => assert SubtractionLutModeText[20] == 'l';
  }

  /** Every key text has one of the characters 'e', 'n', 'D'. */
  lemma KeyHasEND(k: Key)
    ensures 'e' in KeyText(k) || 'n' in KeyText(k) || 'D' in KeyText(k)
  {
    match k
    case ConfigModeKey => assert ConfigModeText[9] == 'e';
    case ScreenXKey => assert ScreenXText[3] == 'e';
    case ScreenYKey => assert ScreenYText[3] == 'e';
    case OriginXKey => assert OriginXText[5] == 'n';
    case OriginYKey => assert OriginYText[5] == 'n';
    case OriginZKey => assert OriginZText[5] == 'n';
    case ResolutionKey => assert ResolutionText[1] == 'e';
    case TargetInterpolationKey => assert TargetInterpolationText[4] == 'e';
    case SourceInterpolationKey => assert SourceInterpolationText[5] == 'e';
    case ViewModeKey => assert ViewModeText[2] == 'e';
    case ViewMixKey => assert ViewMixText[2] == 'e';
    case TargetContourKey => assert TargetContourText[11] == 'e';
    case SourceContourKey => assert SourceContourText[12] == 'e';
    case CursorKey => assert CursorText[0] == 'D';
    case CursorModeKey => assert CursorModeText[9] == 'e';
    case DeformationGridKey => assert DeformationGridText[8] == 'e';
    case DeformationPointsKey => assert DeformationPointsText[8] == 'e';
    case DeformationArrowsKey => assert DeformationArrowsText[8] == 'e';
    case LandmarksKey => assert LandmarksText[9] == 'n';
    case ObjectKey => assert ObjectText[10] == 'e';
    case ObjectWarpKey => assert ObjectWarpText[10] == 'e';
    case ObjectGridKey => assert ObjectGridText[10] == 'e';
    case TargetLutMinKey => assert TargetLutMinText[4] == 'e';
    case TargetLutMaxKey => assert TargetLutMaxText[4] == 'e';
    case TargetLutModeKey => assert TargetLutModeText[4] == 'e';
    case SourceLutMinKey => assert SourceLutMinText[5] == 'e';
    case SourceLutMaxKey => assert SourceLutMaxText[5] == 'e';
    case SourceLutModeKey => assert SourceLutModeText[5] == 'e';
    case SubtractionLutMinKey => assert SubtractionLutMinText[21] == 'e';
    case SubtractionLutMaxKey => assert SubtractionLutMaxText[21] == 'e';
    case SubtractionLutModeKey => assert SubtractionLutModeText[21] == 'e';
  }

  /** Every key text has one of the characters 'p', 'g', 's', 'v'. */
  lemma KeyHasPGSV(k: Key)
    ensures 'p' in KeyText(k) || 'g' in KeyText(k) || 's' in KeyText(k) || 'v' in KeyText(k)
  {
    match k
    case ConfigModeKey => assert ConfigModeText[5] == 'g';
    case ScreenXKey => assert ScreenXText[0] == 's';
    case ScreenYKey => assert ScreenYText[0] == 's';
    case OriginXKey => assert OriginXText[3] == 'g';
    case OriginYKey => assert OriginYText[3] == 'g';
    case OriginZKey => assert OriginZText[3] == 'g';
    case ResolutionKey => assert ResolutionText[2] == 's';
    case TargetInterpolationKey => assert TargetInterpolationText[11] == 'p';
    case SourceInterpolationKey => assert SourceInterpolationText[11] == 'p';
    case ViewModeKey => assert ViewModeText[0] == 'v';
    case ViewMixKey => assert ViewMixText[0] == 'v';
    case TargetContourKey => assert TargetContourText[3] == 'p';
    case SourceContourKey => assert SourceContourText[3] == 'p';
    case CursorKey => assert CursorText[3] == 'p';
    case CursorModeKey => assert CursorModeText[3] == 's';
    case DeformationGridKey => assert DeformationGridText[3] == 'p';
    case DeformationPointsKey => assert DeformationPointsText[3] == 'p';
    case DeformationArrowsKey => assert DeformationArrowsText[3] == 'p';
    case LandmarksKey => assert LandmarksText[3] == 'p';
    case ObjectKey => assert ObjectText[3] == 'p';
    case ObjectWarpKey => assert ObjectWarpText[3] == 'p';
    case ObjectGridKey => assert ObjectGridText[3] == 'p';
    case TargetLutMinKey => assert TargetLutMinText[11] == 'p';
    case TargetLutMaxKey => assert TargetLutMaxText[11] == 'p';
    case TargetLutModeKey => assert TargetLutModeText[11] == 'p';
    case SourceLutMinKey => assert SourceLutMinText[11] == 'p';
    case SourceLutMaxKey => assert SourceLutMaxText[11] == 'p';
    case SourceLutModeKey => assert SourceLutModeText[11] == 'p';
    case SubtractionLutMinKey => assert SubtractionLutMinText[16] == 'p';
    case SubtractionLutMaxKey => assert SubtractionLutMaxText[16] == 'p';
    case SubtractionLutModeKey => assert SubtractionLutModeText[16] == 'p';
  }
  /** Every key `Write` prints is shorter than the column of its `=` and starts with a letter. */
  lemma WrittenKeyShape(k: Key)
    ensures 0 < |WrittenKey(k)| < 34
    ensures 'a' <= WrittenKey(k)[0] <= 'z' || 'A' <= WrittenKey(k)[0] <= 'Z'
  {
    match k
    case ConfigModeKey => assert |ConfigModeText| == 10 && ConfigModeText[0] == 'c';
    case ScreenXKey => assert |ScreenXText| == 7 && ScreenXText[0] == 's';
    case ScreenYKey => assert |ScreenYText| == 7 && ScreenYText[0] == 's';
    case OriginXKey => assert |OriginXText| == 8 && OriginXText[0] == 'o';
    case OriginYKey => assert |OriginYText| == 8 && OriginYText[0] == 'o';
    case OriginZKey => assert |OriginZText| == 8 && OriginZText[0] == 'o';
    case ResolutionKey => assert |ResolutionText| == 10 && ResolutionText[0] == 'r';
    case TargetInterpolationKey => assert |TargetInterpolationText| == 23 && TargetInterpolationText[0] == 't';
    case SourceInterpolationKey => assert |SourceInterpolationText| == 23 && SourceInterpolationText[0] == 's';
    case ViewModeKey => assert |ViewModeText| == 8 && ViewModeText[0] == 'v';
    case ViewMixKey => assert |ViewMixText| == 7 && ViewMixText[0] == 'v';
    case TargetContourKey => assert |TargetContourText| == 20 && TargetContourText[0] == 'D';
    case SourceContourKey => assert |SourceContourText| == 20 && SourceContourText[0] == 'D';
    case CursorKey => assert |CursorText| == 13 && CursorText[0] == 'D';
    case CursorModeKey => assert |CursorModeText| == 10 && CursorModeText[0] == 'C';
    case DeformationGridKey => assert |DeformationGridText| == 22 && DeformationGridText[0] == 'D';
    case DeformationPointsKey => assert |DeformationPointsText| == 24 && DeformationPointsText[0] == 'D';
    case DeformationArrowsKey => assert |DeformationArrowsText| == 24 && DeformationArrowsText[0] == 'D';
    case LandmarksKey => assert |LandmarksText| == 16 && LandmarksText[0] == 'D';
    case ObjectKey => assert |ObjectText| == 13 && ObjectText[0] == 'D';
    case ObjectWarpKey => assert |ObjectWarpText| == 17 && ObjectWarpText[0] == 'D';
    case ObjectGridKey => assert |ObjectGridText| == 17 && ObjectGridText[0] == 'D';
    case TargetLutMinKey => assert |TargetLutMinWritten| == 28 && TargetLutMinWritten[0] == 't';
    case TargetLutMaxKey => assert |TargetLutMaxWritten| == 28 && TargetLutMaxWritten[0] == 't';
    case TargetLutModeKey => assert |TargetLutModeText| == 22 && TargetLutModeText[0] == 't';
    case SourceLutMinKey => assert |SourceLutMinWritten| == 28 && SourceLutMinWritten[0] == 's';
    case SourceLutMaxKey => assert |SourceLutMaxWritten| == 28 && SourceLutMaxWritten[0] == 's';
    case SourceLutModeKey => assert |SourceLutModeText| == 22 && SourceLutModeText[0] == 's';
    case SubtractionLutMinKey => assert |SubtractionLutMinWritten| == 33 && SubtractionLutMinWritten[0] == 's';
    case SubtractionLutMaxKey => assert |SubtractionLutMaxWritten| == 33 && SubtractionLutMaxWritten[0] == 's';
    case SubtractionLutModeKey => assert |SubtractionLutModeText| == 27 && SubtractionLutModeText[0] == 's';
  }
}
