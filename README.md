# RView: a verified model of the registration viewer's core

`src/RView.cc` implements `RView`, the object behind a two-volume
registration viewer. It holds a target image and a source image, a layout of
viewers (each showing one slice plane of one of the images), an origin, a
region of interest, a contour being drawn into a segmentation, the
configuration of the display, and four dirty flags. Every mutator sets the
flags; `Update` consumes them. This project models that object in Dafny, one
module per concern:

- `Types`: points, colours, viewports, viewers and the enumerations of the
  viewer (view modes, layouts, cursor shapes, interpolation modes, lookup
  table colour modes, contour modes).
- `Text`: `strstr`, `strchr`, the blank skipping of `read_line`, `atoi`, and
  how an output stream prints integers and flags.
- `Screen`: window pixels to normalised coordinates, the half-open viewport
  test, conversion to a viewer's own pixels, and `Scan`. `Scan` is the
  viewport loop without `break` that every mouse operation runs, where the
  last viewport hit wins and later viewports test the converted point.
- `Compositor`: the per-pixel colour rules of `Update`. These are the eight
  view modes, the swap of rasters and lookup tables on source viewports, the
  segmentation label overlay and the selection tint, written into the
  viewers' colour buffers in place.
- `Regions`: C's `round` and the per-axis clamps of the region-of-interest
  corners.
- `Orientation`: the display axes `Reset` derives from the target's axes and
  the three orientation codes, under the native, neurological and
  radiological conventions, followed by the requested flips.
- `Layout`: the sentinel-terminated layout table, the alternation of target
  and source viewers within each plane, and the remapping of an open contour
  to a new layout. It also holds each plane's slice axes, the grey-value
  rescaling and the decision on the displacement cache.
- `Volumes`: the subtraction range, the geometry check of an image sequence,
  and the copy of rigid parameters into an affine transformation.
- `Controls`: the overlay flags of `Draw` and the interleaved-to-planar copy
  of `DrawOffscreen`. It also covers the interpolation-name lookup, the
  function keys, the keyboard commands and the clamp of the source frame.
- `ConfigKeys`, `ConfigValues`, `ConfigFormat`, `ConfigRoundTrip`,
  `ConfigRestore`: the configuration file, covering `read_line`, `Read` over
  a sequence of lines and `Write` to lines. They prove what reading a written
  file restores: everything, with the exceptions listed below.
- `RViewModel`: the class `RView` with the fields the source updates, and
  methods for `Update`, `SetOrigin`, `MouseWheel`, `MousePosition`, the
  region-of-interest editor, the contour operations, `Reset`, `Initialize`,
  `Resize`, `Configure` and the setters.

The image library, the resampling filters, the viewers' sizing, the contour
editor (`VoxelContour`), the lookup tables and the segment table are not
part of this model. They enter the model as parameters: functions in `Maps`,
`Editor`, `Palette`, `run` and `sizeOf`.

Where the source behaves oddly, the model does what the code does:

- The `screenX` line is stored into the screen height.
- `View_AB_*_h` layouts read back as `_v`.
- `DisplayObject` is found inside the `DisplayObjectWarp` and
  `DisplayObjectGrid` lines.
- Both interpolators are recreated on every line read, so interpolation
  modes never survive a write and read.
- The overlay view modes are neither written nor read.
- The `y`/`Y`/`z`/`Z` keys test the image width.
- In `UpdateROI1` and `UpdateROI2` the other corner is converted to voxel
  coordinates once per viewport hit, so a second hit converts it again.

## Model

| member | source | states |
|---|---|---|
| Text.ContainsAcross | src/RView.cc:958-1282 | a separator character that a key lacks splits the `strstr` search: the key is found in `a + [c] + b` exactly when it is found in `a` or in `b` |
| Text.FirstIndexFinds | src/RView.cc:928 | `strchr` finds a character exactly when the string holds it, and at its first position |
| Text.SkipBlanksDrops | src/RView.cc:932-934 | skipping blanks drops exactly the leading spaces and tabs, and what is left does not start with one |
| Text.DigitRun | src/RView.cc:1017 | the digit run `atoi` reads is the longest prefix of digits |
| Text.DecimalValue | src/RView.cc:1426 | the digits a stream prints for a natural number have that number as their value |
| Text.AtoiIntText | src/RView.cc:1016-1023 | `atoi` of a printed integer gives the integer back |
| Text.AtoiBoolText | src/RView.cc:1131-1134 | `atoi` of a printed flag is non-zero exactly for `true` |
| Screen.Normalised | src/RView.cc:585-587 | a window pixel maps into [0, 1]², with the top row at `y` = 1 and the bottom edge at `y` = 0 |
| Screen.ToLocal | src/RView.cc:592-593 | a point inside a viewport lands inside its viewer's pixels |
| Screen.LastHit | src/RView.cc:739-747 | the viewport found contains the point |
| Screen.LastHitIsLast | src/RView.cc:739-747 | a viewport is found exactly when one contains the point, and no later viewport contains it |
| Screen.LastHitStep | src/RView.cc:739-747 | one more viewport wins exactly when it contains the point |
| Screen.ScanMisses | src/RView.cc:587-597 | a point outside every viewport passes the viewport loop untouched |
| Screen.ScanSettles | src/RView.cc:587-597 | a hit whose converted point lies in no later viewport decides the loop |
| Screen.ScanSkips | src/RView.cc:587-597 | viewports before the first hit do not change the loop |
| Compositor.Trunc | src/RView.cc:356-361 | `int(x)` truncates toward zero, from either side |
| Compositor.Channel | src/RView.cc:356-361 | an 8-bit channel always holds a byte, and holds the truncation of any value in [0, 256) |
| Compositor.Mix | src/RView.cc:356-361 | a weighted blend keeps the buffer's alpha and writes bytes |
| Compositor.Composite | src/RView.cc:279-412 | every pixel of the buffer becomes the blend of its two raster values over what it held |
| Compositor.LabelPixel | src/RView.cc:414-431 | a pixel changes only under a visible label of index 0 or more, and keeps its alpha |
| Compositor.OverlayLabels | src/RView.cc:414-431 | every pixel of the buffer gets the label overlay of its own label value |
| Compositor.TintPixel | src/RView.cc:440-444 | a pixel changes only where the selection is above zero, and keeps its alpha |
| Compositor.TintSelection | src/RView.cc:434-449 | every pixel of the buffer gets the tint of its own selection value |
| Compositor.ComposeViewport | src/RView.cc:266-449 | every pixel of a viewport ends as `ShownPixel`: swap on source viewports, blend, overlay, tint |
| Compositor.Ceiling | src/RView.cc:304 | the least natural number at or above its argument |
| Compositor.ShutterSplit | src/RView.cc:300-334 | the vertical shutter shows the first image exactly in the columns left of `ceil(mix * width)`; the horizontal shutter does the same by row |
| Compositor.ColumnsLeftOfCount | src/RView.cc:300-314 | a row shows the first image in `min(width, ceil(mix * width))` pixels |
| Compositor.SourceViewportSwaps | src/RView.cc:274-349 | a source viewport shows the source under View_A and the target under View_B, and subtracts the other way round |
| Compositor.SourceViewportBlends | src/RView.cc:274-411 | on a source viewport the checkerboard at `mix` is the target viewport's at `1 - mix`, and A over B is B over A |
| Compositor.MixAllWeight | src/RView.cc:350-367 | a blend with all the weight on one colour reproduces that colour's channels |
| Compositor.BlendEnds | src/RView.cc:350-411 | the checkerboard at mix 1 and 0 and the alpha overlays at opacity 1 and 0 show one image; every blend keeps the buffer's alpha |
| Compositor.LabelOpacity | src/RView.cc:414-431 | a visible label of opacity 1 paints its colour and one of opacity 0 changes nothing |
| Compositor.TintHalves | src/RView.cc:440-444 | the tint halves red and green toward 255 and halves blue, in integers |
| Compositor.HalfFloor | src/RView.cc:440-444 | truncating half a natural number is integer halving |
| Regions.Round | src/RView.cc:662-673 | `round` lies within one half of its argument, and is not negative for an argument that is not |
| Regions.RoundWhole | src/RView.cc:602-604 | a whole number rounds to itself |
| Regions.RoundMonotone | src/RView.cc:662-673 | rounding is monotone |
| Regions.ClampFirstOrders | src/RView.cc:662-673 | the first corner ends at or before the second and at or after voxel 0 when the second is; a coordinate in range is kept |
| Regions.ClampSecondOrders | src/RView.cc:709-720 | the second corner ends at or after the first and before the image's end when the first is; a coordinate in range is kept |
| Orientation.Place | src/RView.cc:2076-2287 | one orientation switch changes only the display slot its code names |
| Orientation.PlaceSigned | src/RView.cc:2076-2287 | the slot a code names receives the image axis, negated exactly when the convention asks for it |
| Orientation.ProperResolves | src/RView.cc:2074-2288 | under a proper orientation the three switches fill every slot with the signed axis pointing that way, whatever was there |
| Orientation.ConventionsMirror | src/RView.cc:2075-2287 | the neurological and radiological displays differ only in the sign of the left-right axis |
| Orientation.UnknownKeeps | src/RView.cc:2076-2287 | a direction the switches cannot work out leaves the display axes unchanged |
| Orientation.FlipTwice | src/RView.cc:2290-2309 | flipping twice restores the axes |
| Layout.ViewerCount | src/RView.cc:2398 | the viewer count is the index of the first row with a negative `xmin` |
| Layout.CountViewers | src/RView.cc:2398 | the counting loop stops at the first sentinel row |
| Layout.FirstSentinelUnique | src/RView.cc:2398 | any row that starts the sentinels is the one the count finds |
| Layout.Roles | src/RView.cc:2421-2427 | a viewer is a source viewer exactly when an odd number of earlier viewers shows its plane |
| Layout.AssignRoles | src/RView.cc:2421-2427 | the toggling loop hands out exactly those roles |
| Layout.ToggleStep | src/RView.cc:2424-2426 | each plane's flag tracks the parity of that plane's count |
| Layout.CountModeSnoc | src/RView.cc:2421-2427 | one more viewer counts its own plane once more |
| Layout.RolesSnoc | src/RView.cc:2421-2427 | the roles of a longer prefix extend those of the shorter |
| Layout.RolesAlternate | src/RView.cc:2421-2427 | consecutive viewers of one plane have opposite roles |
| Layout.FirstOfPlaneIsTarget | src/RView.cc:2421-2427 | the first viewer of each plane is a target viewer |
| Layout.LastOfMode | src/RView.cc:2474-2481 | the viewer found shows the plane and no later viewer does |
| Layout.RemapContourViewer | src/RView.cc:2473-2481 | an open contour moves to the last viewer of its plane, or is dropped; without one nothing changes |
| Layout.LastOfModeFinds | src/RView.cc:2474-2481 | a viewer is found exactly when one shows the plane |
| Layout.SliceAxesPermute | src/RView.cc:2801-2843 | each plane's slice axes are the display axes, each once; the normal is the axis the plane leaves out, with the voxel size along it; pixels are square at `1 / resolution` |
| Layout.ScalingEnds | src/RView.cc:2851-2856 | the rescaling maps the image minimum to 0 and its maximum to 10000 |
| Layout.CacheDecision | src/RView.cc:2874-2907 | the cache is rebuilt exactly when asked, with a source, a transformation that needs caching and caching enabled; it is untouched exactly when not asked; a rebuild uses the target's grid exactly when there is a target |
| Volumes.SubtractionRange | src/RView.cc:1643-1644 | the width of the subtraction range is the sum of the two images' widths |
| Volumes.SubtractionCovers | src/RView.cc:1788-1789 | every target value minus every source value lies in the subtraction range, whose ends are `tmin - smax` and `tmax - smin` |
| Volumes.FirstMismatch | src/RView.cc:1682-1697 | the first frame whose geometry differs from the first frame's, after only matching frames |
| Volumes.CheckSequence | src/RView.cc:1682-1697 | the check fails exactly when some frame differs, and reports the first |
| Volumes.SequenceAcceptsTimeShifts | src/RView.cc:1682-1697 | a sequence passes exactly when all frames share one geometry apart from time origin and spacing |
| Volumes.MaskedEqual | src/RView.cc:1684-1689 | two frames agree once masked exactly when they differ at most in time origin and spacing |
| Volumes.CopyRigidParameters | src/RView.cc:1955-1962 | the affine parameters start with the rigid ones and keep their initial values beyond |
| Controls.PlanOverlays | src/RView.cc:460-485 | each viewer draws the overlays `ViewerOverlays` gives for its role and for whether its plane is shared |
| Controls.OverlaysSplitByRole | src/RView.cc:470-485 | on a shared plane each viewer draws only its own image's landmarks and contours; on an unshared one both landmark sets and the chosen contours; correspondences never |
| Controls.CopyToPlanar | src/RView.cc:3090-3097 | the copy loop writes the planar layout of the buffer |
| Controls.PlanarFromPlanes | src/RView.cc:3093-3097 | an image whose thirds hold the three channels is the planar layout |
| Controls.PlanarRoundTrip | src/RView.cc:3090-3097 | interleaving the planar copy gives the buffer back: nothing is lost or moved |
| Controls.PlanarAt | src/RView.cc:3093-3097 | channel `c` of pixel `i` lands at `c * n + i` |
| Controls.InterpolationOf | src/RView.cc:2976-2994 | a mode other than nearest neighbour is reported only for a class name holding its key and not the nearest-neighbour key |
| Controls.InterpolationOfKey | src/RView.cc:2976-2994 | every mode is recognised from its own key |
| Controls.SpecialUndo | src/RView.cc:3158-3208 | a function key followed by its opposite restores the window bounds and contour flags |
| Controls.SpecialSeparates | src/RView.cc:3158-3208 | target keys touch only the target window, source keys only the source's, contour keys no bound; F2 and F3 widen and F1 and F4 narrow the target window by the delta |
| Controls.FrameWrapCycles | src/RView.cc:3353-3370 | `+` and `-` stay within the frames, wrap around at the ends, and undo each other |
| Controls.NudgeXStays | src/RView.cc:3287-3308 | the `x`/`X` nudges keep the origin inside the image and move it by one voxel away from the edges |
| Controls.NudgeTestsWidth | src/RView.cc:3309-3352 | the `y`/`Y`/`z`/`Z` nudges test the image width, so a step can leave a wide image or skip rows in a tall one |
| Controls.ClampSourceFrame | src/RView.cc:2942 | a frame past the last is lowered to the last, and nothing is raised |
| ConfigKeys.WrittenKeyFires | src/RView.cc:958-1282 | the `strstr` searches that succeed on a written key are exactly its own, plus `DisplayObject` on the object warp and grid keys |
| ConfigKeys.KeyTextNoSeparator | src/RView.cc:958-1282 | no key holds a blank or `=` |
| ConfigKeys.WrittenKeyNoSeparator | src/RView.cc:1371-1617 | no written key holds a blank or `=` |
| ConfigKeys.WrittenKeyShape | src/RView.cc:1371-1617 | a written key is shorter than its 34-column field and starts with a letter |
| ConfigValues.StoredConfigMode | src/RView.cc:1001-1012 | the stored layout is never an `_h` side-by-side layout, and every other layout is kept |
| ConfigValues.ParseConfigToken | src/RView.cc:958-1013 | reading a written layout token gives the stored layout |
| ConfigValues.ParseInterpolationToken | src/RView.cc:1051-1100 | reading a written interpolation token gives the mode back |
| ConfigValues.ParseViewToken | src/RView.cc:1103-1123 | exactly the overlay modes print no token; every printed token reads back as its mode |
| ConfigValues.ParseCursorToken | src/RView.cc:1146-1161 | reading a written cursor token gives the cursor back |
| ConfigValues.ParseColorToken | src/RView.cc:1211-1228 | reading a written colour-mode token gives the mode back |
| ConfigValues.ConfigTokenLacks | src/RView.cc:1371-1422 | layout tokens hold no key and start with no blank |
| ConfigValues.KeyFreeWithoutRMD | src/RView.cc:958-1282 | a value without `r`, `M` and `D` contains no key |
| ConfigFormat.FirstKept | src/RView.cc:923-927 | the first line `read_line` keeps, with every line before it skipped |
| ConfigFormat.FirstKeptAt | src/RView.cc:923-927 | the first line that is not skipped is the one kept |
| ConfigFormat.NextEntry | src/RView.cc:917-936 | a successful `read_line` consumes at least one line |
| ConfigFormat.SkipIgnored | src/RView.cc:923-927 | the skipping loop stops at the first kept line, or at the end |
| ConfigFormat.SkipBlankRun | src/RView.cc:932-934 | the second loop stops after exactly the blanks after `=` |
| ConfigFormat.ReadLine | src/RView.cc:917-936 | the loops compute `NextEntry`: skip ignored lines, fail without `=`, hand over the value without leading blanks |
| ConfigFormat.Read | src/RView.cc:938-1294 | the reading loop computes `ReadAll`, one line and one pass of the key branches at a time |
| ConfigFormat.InterpolatorsDefault | src/RView.cc:1046-1100 | a line naming no interpolation recreates both interpolators with nearest neighbour |
| ConfigFormat.FiredFires | src/RView.cc:958-1282 | `Fired` holds exactly the keys a written key fires |
| ConfigFormat.FiredEffect | src/RView.cc:958-1282 | the branches a written line reaches have exactly the effect `Effect` gives for its key |
| ConfigFormat.SpacesOnly | src/RView.cc:1371-1617 | the padding is blanks only, of the requested length |
| ConfigRoundTrip.LineHits | src/RView.cc:958-1282 | on a written key line `strstr` finds exactly the keys the written key fires, whatever its value |
| ConfigRoundTrip.EqualsAfterPadding | src/RView.cc:928-934 | the first `=` of a written line follows the padding, and the value follows it |
| ConfigRoundTrip.KeyLineEntry | src/RView.cc:917-936 | `read_line` keeps a written key line and hands over its value |
| ConfigRoundTrip.SkipComment | src/RView.cc:923-927 | a comment in front of a kept line changes nothing |
| ConfigRoundTrip.ReadWritten | src/RView.cc:938-1294 | reading well-formed lines that end in a key line is replaying their keys' effects |
| ConfigRoundTrip.WriteLinesWellFormed | src/RView.cc:1358-1625 | every line `Write` prints is well formed, and the last is a key line |
| ConfigRestore.ReplayAppend | src/RView.cc:952-1294 | reading two runs of lines reads the first, then the second from there |
| ConfigRestore.ReplayInterpolationLines | src/RView.cc:1046-1100 | after the two interpolation lines the target interpolator is nearest neighbour and the source one is as written |
| ConfigRestore.ReadWrittenConfig | src/RView.cc:938-1625 | reading what `Write` prints never fails and gives the restored settings |
| ConfigRestore.WrittenTablesAndFlagsRestored | src/RView.cc:1131-1282 | the lookup tables, the cursor and the overlay flags come back exactly |
| ConfigRestore.WrittenLayoutRestored | src/RView.cc:958-1024 | the layout comes back exactly when it is not an `_h` side-by-side layout; the width is never read back and the height comes back |
| ConfigRestore.WrittenViewModeRestored | src/RView.cc:1103-1123 | the view mode comes back exactly when it is not an overlay mode, or that mode was already in force |
| ConfigRestore.WrittenInterpolationLost | src/RView.cc:1046-1100 | both interpolators come back as nearest neighbour, whatever was written |
| ConfigRestore.WrittenObjectFlags | src/RView.cc:1185-1199 | with VTK the warp and grid flags come back and the object flag takes the grid flag's value; without VTK all three are kept |
| RViewModel.Snapped | src/RView.cc:600-606 | the snapped point lies on the target voxel nearest to the point |
| RViewModel.SnapIdempotent | src/RView.cc:600-606 | snapping twice is snapping once |
| RViewModel.RefreshedFits | src/RView.cc:242-263 | regenerated rasters keep fitting their viewer |
| RViewModel.ClickedOriginMiss | src/RView.cc:580-620 | a click outside every viewport makes the normalised click the origin |
| RViewModel.ClickedOriginHit | src/RView.cc:580-620 | a click in viewer `k` that settles there makes the world point under it the origin, snapped on request |
| RViewModel.WheeledOriginHit | src/RView.cc:2584-2629 | a wheel turn over viewer `k` that settles there moves the origin `wheel` slices along that viewer's normal |
| RViewModel.WheeledOriginMiss | src/RView.cc:2584-2629 | a wheel turn outside every viewport makes the probe the origin |
| RViewModel.PointerScanViewer | src/RView.cc:2637-2649 | the viewer recorded is one of the viewers, or the old one when none contains the pointer |
| RViewModel.FirstCornerScanOrdered | src/RView.cc:635-680 | a click that hits leaves the first corner at or before the second and at or after voxel 0 |
| RViewModel.SecondCornerScanOrdered | src/RView.cc:682-727 | a click that hits leaves the second corner at or after the first and before the image's end |
| RViewModel.CornerMissKeeps | src/RView.cc:635-727 | a click outside every viewport leaves both corners where they were |
| RViewModel.ScanOrigin | src/RView.cc:587-597 | the loop of `SetOrigin` is the viewport scan |
| RViewModel.ScanWheel | src/RView.cc:2590-2601 | the loop of `MouseWheel` is the viewport scan with the wheel step |
| RViewModel.ScanPointer | src/RView.cc:2637-2649 | the loop of `MousePosition` is the pointer scan |
| RViewModel.ScanFirstCorner | src/RView.cc:648-679 | the loop of `UpdateROI1` is the corner scan |
| RViewModel.ScanSecondCorner | src/RView.cc:695-726 | the loop of `UpdateROI2` is the corner scan |
| RViewModel.PickViewer | src/RView.cc:739-747 | the last viewer under the click and its plane, else the old ones |
| RViewModel.PaintedStep | src/RView.cc:891-906 | one more raster voxel adds one more segmentation voxel it may paint |
| RViewModel.Zero | src/RView.cc:880-889 | every voxel of a new segmentation is 0 |
| RViewModel.PaintUnchecked | src/RView.cc:891-906 | the loop as written, defined only when no raster voxel above zero lands outside the segmentation: exactly the voxels such a raster voxel lands on become the label, all others keep their value |
| RViewModel.ContourOverrun | src/RView.cc:891-906 | a raster voxel above zero can land outside the segmentation, where the unchecked `Put` writes |
| RViewModel.Paint | src/RView.cc:891-906 | with a bounds check on every write: exactly the segmentation voxels some raster voxel above zero lands on become the label, all others keep their value, and no precondition is needed |
| RViewModel.Grey | src/RView.cc:888 | storing into a 16-bit `GreyPixel` keeps the value modulo 2^16 in [-32768, 32768), and leaves values already in range unchanged |
| RViewModel.InitializeViewers | src/RView.cc:2794-2866 | the loop of `Initialize` gives each viewer its grid and blank rasters |
| RViewModel.Resized | src/RView.cc:2333-2339 | resizing keeps every viewer's viewport and plane |
| RViewModel.AfterResize | src/RView.cc:2333-2339 | the viewers keep their viewports and planes, and are unchanged when the window size is |
| RViewModel.Remapped | src/RView.cc:2473-2481 | the contour viewer is a viewer, -1, or unchanged |
| RViewModel.BuildViewers | src/RView.cc:2398-2420 | the viewer loop of `Configure` builds those viewers |
| RViewModel.DisplayAxes | src/RView.cc:2064-2309 | the axes are the resolved orientation, flipped as requested |
| RViewModel.RView.MarkAllDirty | src/RView.cc:2322-2326 | all four flags are set |
| RViewModel.RView.RunFilters | src/RView.cc:242-263 | a role's raster is regenerated exactly when its flag is set and its input is not empty; then every flag is clear |
| RViewModel.RView.RunViewers | src/RView.cc:242-263 | the filter loop over all viewers refreshes each one |
| RViewModel.RView.RunViewer | src/RView.cc:244-262 | one viewer's filters run for exactly the roles to refresh |
| RViewModel.RView.ComposeAll | src/RView.cc:266-450 | every pixel of every viewer's buffer is composed from that viewer's rasters |
| RViewModel.RView.Update | src/RView.cc:233-451 | dirty rasters are regenerated, the flags end clear, and every buffer shows its composed colours |
| RViewModel.RView.PutOrigins | src/RView.cc:608-613 | every grid is re-centred on the point |
| RViewModel.RView.MoveOrigin | src/RView.cc:599-619 | the new origin, snapped on request, centres every grid, and all flags are set |
| RViewModel.RView.SetOrigin | src/RView.cc:580-620 | the origin moves to the point under the click in the last viewer hit, snapped on request; grids follow and all flags are set |
| RViewModel.RView.MouseWheel | src/RView.cc:2584-2629 | the origin moves `wheel` slices along the normal of the viewer under the pointer; grids follow and all flags are set |
| RViewModel.RView.MousePosition | src/RView.cc:2631-2664 | inside the target the voxel, its intensity and the viewer are recorded; outside only the viewer becomes -1 |
| RViewModel.RView.ResetROI | src/RView.cc:622-633 | the corners go to voxels (0, 0, 0) and (X - 1, Y - 1, Z - 1) |
| RViewModel.RView.UpdateROI1 | src/RView.cc:635-680 | the first corner goes to the clamped voxel under the click |
| RViewModel.RView.UpdateROI2 | src/RView.cc:682-727 | the second corner goes to the clamped voxel under the click |
| RViewModel.RView.LocateContourPoint | src/RView.cc:739-765 | a click outside the contour viewer of a started contour changes nothing; otherwise the contour viewer is picked and the click converted |
| RViewModel.RView.AddContour | src/RView.cc:729-785 | the point is added as the mode says, closing the contour only outside segmentation mode, and the selection is marked; an ignored click changes nothing |
| RViewModel.RView.FillArea | src/RView.cc:787-825 | the area around the point is filled and the selection marked; an ignored click changes nothing |
| RViewModel.RView.RegionGrowContour | src/RView.cc:827-864 | a region is grown from the point within the thresholds and the selection marked; an ignored click changes nothing |
| RViewModel.RView.UndoContour | src/RView.cc:866-870 | the last step is undone and the selection marked |
| RViewModel.RView.ClearContour | src/RView.cc:872-876 | the contour is cleared and the selection marked |
| RViewModel.RView.FillContour | src/RView.cc:878-914 | a missing segmentation is created and zeroed; exactly the voxels the contour covers get the label as a `GreyPixel` stores it, for any contour; the contour is cleared and two flags set |
| RViewModel.RView.Initialize | src/RView.cc:2789-2909 | every viewer gets its grid and blank rasters, all flags are set, and the cache follows `CacheDecision` |
| RViewModel.RView.Reset | src/RView.cc:2053-2327 | the axes are resolved and flipped, the origin snaps to the target's origin voxel, and the viewers are re-initialised |
| RViewModel.RView.Reorient | src/RView.cc:2059-2318 | the display axes and origin `Reset` derives from the target |
| RViewModel.RView.AllocateDrawables | src/RView.cc:2483-2486 | one fresh buffer of its size per viewer, no two shared |
| RViewModel.RView.Rescreen | src/RView.cc:2333-2339 | the new window size, and the viewers sized for it |
| RViewModel.RView.Relayout | src/RView.cc:2347-2359 | the viewers are re-initialised and get fresh buffers |
| RViewModel.RView.Resize | src/RView.cc:2329-2362 | the window and viewers take the new size, are re-initialised, and `Update` leaves every flag clear |
| RViewModel.RView.Arrange | src/RView.cc:2398-2481 | the viewers are the table's rows with alternating roles, and an open contour moves to its plane's last viewer |
| RViewModel.RView.Configure | src/RView.cc:2364-2492 | the layout is the table's, roles alternate per plane, the contour viewer is remapped, viewers are initialised with buffers, all flags set |
| RViewModel.RView.SetTargetFrame | src/RView.cc:2911-2930 | the frame is set and the target resampled, the source too when its transformation is applied |
| RViewModel.RView.SetSourceFrame | src/RView.cc:2937-2957 | the frame is set, lowered to the last one, and the source resampled |
| RViewModel.RView.SetTargetInterpolationMode | src/RView.cc:2964-2975 | the interpolator is replaced and reads back as the mode set; the target is resampled |
| RViewModel.RView.SetSourceInterpolationMode | src/RView.cc:2996-3007 | the interpolator is replaced and reads back as the mode set; the source is resampled |
| RViewModel.RView.SetSourceTransformInvert | src/RView.cc:3028-3038 | the flag is set and the source resampled |
| RViewModel.RView.SetSourceTransformApply | src/RView.cc:3044-3060 | the flag is set and the source resampled |
| RViewModel.RView.SegmentationMode | src/RView.cc:3449-3452 | the segmentation mode is set |
| RViewModel.RView.SetPaintBrushWidth | src/RView.cc:3454-3457 | the brush width is set |
| RViewModel.RView.SetRegionGrowingThresholdMinimum | src/RView.cc:3459-3462 | the lower threshold is set |
| RViewModel.RView.SetRegionGrowingThresholdMaximum | src/RView.cc:3464-3467 | the upper threshold is set |

## Left out

- Drawing in `Draw` through the viewers and OpenGL, and the image written by `DrawOffscreen`: only the overlay flags and the RGB copy are modelled.
- Reading and writing images, transformations, landmarks, segmentations and VTK objects: the model keeps only the subtraction range, the sequence geometry check and the rigid-to-affine copy.
- The resampling itself, the interpolators and the displacement cache's contents. They enter as the function `run`, class names, and the `Cache` record.
- The internals of the contour editor, the lookup tables and the segment table. They enter as the `Editor` and `Palette` functions.
- The lookup tables of the configuration file are modelled as a record of a display minimum, a display maximum and one of the five colour modes `Write` prints (`ConfigFormat.Lut`). The model assumes that the tables' `Set/Get...DisplayIntensity` and `SetColorModeTo...` store and return values unchanged. A table in any other colour mode gets no mode line from `Write`'s `default: break` (src/RView.cc:1571, 1595, 1619); the model does not describe such a table, so the read-back of the tables in `ConfigRestore.ReadWrittenConfig` and `ConfigRestore.WrittenTablesAndFlagsRestored` rests on this assumption.
- How a viewer sizes itself on a screen (`sizeOf`), and how a contour raster voxel maps to a segmentation voxel (`voxelOf`).
- The inline setters of the class header and `Clip`. The keyboard and function keys therefore yield commands (`Controls.KeyCommand`, `Controls.Special`) rather than applying them.
- `GetTransformationText`, `GetInfoText`, `FitLandmarks` and the `_info` help printers: text formatting and floating-point fitting.
- IEEE floating point: blending, rescaling and coordinate conversion use real numbers with explicit truncation, and the printing and parsing of real numbers is a parameter (`NumberFormat`).
- Time origins of the resampled outputs, and the source's time offset in `Initialize`.
- `exit()` on fatal paths is an error result. A file that cannot be opened is not modelled.
- Lines longer than the 255-character buffer of `read_line`.
- ConfigFormat.Read and ConfigFormat.NextEntry: a file is the lines `getline` returns, as if every line, the last included, ended in a newline. When the last line is an unterminated comment, the source's `read_line` returns 0 at end of file with that comment still in its buffer, and `Read`'s key searches then run on the comment with the previous value; the model reads that file as ending in an empty entry that matches no key.
- The final `Configure` call at the end of `Read`, with the layout table of the layout read.
- The four-slot `source_viewer` array of `Configure`: the model keeps one parity flag for each of the three planes that viewers show; the array's fourth slot is never consulted.
- Redundant resets of flags that are set again later in the same method are not repeated.
- Compositor.Mix: states that a blend writes bytes and keeps alpha, not that each blended channel lies between the two input channels.
- RViewModel.RView.Initialize: the default `initialize_cache = true` of the header is an explicit argument.
- RViewModel.RView.Valid: the invariant the class's methods require and keep includes a non-zero resolution and a window of at least one pixel each way, which the source does not check; the model does not describe a viewer with a zero resolution or an empty window.
- RViewModel.GridsFor: requires a non-zero resolution, because the slice spacing is `1 / resolution`; the source accepts 0 from `atof` and gets an IEEE infinity.
- RViewModel.InitializeViewers: requires a non-zero resolution, for the same division.
- RViewModel.RView.Initialize: requires a non-zero resolution; the source divides by it.
- RViewModel.RView.Reset: requires a non-zero resolution (through `Valid`), because it calls `Initialize`.
- RViewModel.RView.Relayout: requires a non-zero resolution and a window of at least one pixel each way.
- RViewModel.RView.Configure: requires a non-zero resolution and a window of at least one pixel each way; the source accepts a zero-sized window.
- RViewModel.RView.Resize: requires a non-zero resolution, a new window of at least one pixel each way, and that every resized viewer keeps at least one pixel each way; the source accepts a window or viewer shrunk to nothing.
- RViewModel.RView.Resize: states the new rasters and the fresh buffers, not the colours `Update` writes into them.
- RViewModel.RView.Configure: does not state the new displacement cache, which `Relayout` states.
- RViewModel.RView.Configure: re-checks the open contour before `Initialize` rather than after it; neither step reads what the other writes.
- RViewModel.RView.LocateContourPoint: requires that the contour viewer is a viewer (the click of a new contour hits one, or the old one is valid), because otherwise the source indexes viewer -1.
- RViewModel.RView.AddContour: requires the same of the contour viewer.
- RViewModel.RView.FillArea: requires the same of the contour viewer.
- RViewModel.RView.RegionGrowContour: requires the same of the contour viewer.
- RViewModel.FirstCornerScanOrdered: holds only when target voxels survive the round trip through world space.
- RViewModel.SecondCornerScanOrdered: holds only when target voxels survive the round trip through world space.
- Text.Atoi: integers are unbounded, so `atoi` overflow is not modelled.

## Findings

| source | as written | input that shows it | evidently intended | confidence | as-written member | corrected member |
|---|---|---|---|---|---|---|
| src/RView.cc:891-906 | `FillContour` writes `fill` through `Put` at the rounded segmentation voxel of every raster voxel above zero, with no bounds check | a contour raster on a viewer grid that extends past the target, whose voxel above zero lands outside the segmentation (`ContourOverrun`) | only voxels inside the segmentation are written | medium, not executed | RViewModel.PaintUnchecked | RViewModel.Paint |
