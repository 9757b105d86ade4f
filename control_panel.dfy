/**
 * The logic of the brush control panel (components/ControlPanel.tsx):
 * editing the active brush's settings with the nib-size range rescaled
 * whenever the size changes, the check applied to an imported brush file,
 * the two preview strokes the panel paints, and the PDF page orientation.
 *
 * Math.sin(x * Math.PI) and Date.now() are parameters (`sinPi`, `clock`);
 * `clock(i)` is what Date.now() returned while point i was built.
 */
module ControlPanel {
  import opened Types
  import opened JsBuiltins
  import opened Drawing
  import opened BrushUtils

  // ---------------------------------------------------------------------
  // Settings edits
  // ---------------------------------------------------------------------

  /** A Partial<BrushSettings>: None is an absent key; for the optional fields Some(None) is a key set to undefined. */
  datatype SettingsPatch = SettingsPatch(
    size: Option<real>,
    angle: Option<real>,
    roundness: Option<real>,
    opacity: Option<real>,
    pressureSensitivity: Option<bool>,
    stabilization: Option<real>,
    hardness: Option<real>,
    minSize: Option<real>,
    maxSize: Option<real>,
    textureUrl: Option<Option<string>>,
    textureScale: Option<Option<real>>)

  const NoChange := SettingsPatch(None, None, None, None, None, None, None, None, None, None, None)

  function Pick<T>(o: Option<T>, d: T): T {
    if o.Some? then o.value else d
  }

  /** `{ ...s, ...p }`: the patch's keys win, every other field is kept. */
  function Merge(s: BrushSettings, p: SettingsPatch): BrushSettings {
    BrushSettings(
      Pick(p.size, s.size), Pick(p.angle, s.angle), Pick(p.roundness, s.roundness),
      Pick(p.opacity, s.opacity), Pick(p.pressureSensitivity, s.pressureSensitivity),
      Pick(p.stabilization, s.stabilization), Pick(p.hardness, s.hardness),
      Pick(p.minSize, s.minSize), Pick(p.maxSize, s.maxSize),
      Pick(p.textureUrl, s.textureUrl), Pick(p.textureScale, s.textureScale))
  }

  /** An empty patch changes nothing, and applying a patch twice is applying it once. */
  lemma MergeLaws(s: BrushSettings, p: SettingsPatch)
    ensures Merge(s, NoChange) == s
    ensures Merge(Merge(s, p), p) == Merge(s, p)
  {
  }

  /** `updates.size / (settings.size || 1)`: a size of 0 counts as 1. */
  function Ratio(oldSize: real, newSize: real): (r: real)
    ensures oldSize != 0.0 ==> r * oldSize == newSize
    ensures oldSize == 0.0 ==> r == newSize
  {
    newSize / (if oldSize == 0.0 then 1.0 else oldSize)
  }

  /**
   * handleUpdateActiveBrushSettings: the patch is merged into the active
   * brush's settings; when it carries a size, minSize and maxSize become the
   * old ones scaled by the size ratio, whatever the patch said about them.
   * Only the settings of the brush change.
   */
  function UpdateActiveBrushSettings(brush: Brush, p: SettingsPatch): (r: Brush)
    ensures r.id == brush.id && r.name == brush.name && r.brushType == brush.brushType
    ensures r.category == brush.category && r.isDefault == brush.isDefault
    ensures p.size.None? ==> r.settings == Merge(brush.settings, p)
    ensures p.size.Some? ==> r.settings.size == p.size.value
    ensures p.size.Some? ==> r.settings.minSize == brush.settings.minSize * Ratio(brush.settings.size, p.size.value)
    ensures p.size.Some? ==> r.settings.maxSize == brush.settings.maxSize * Ratio(brush.settings.size, p.size.value)
  {
    var merged := Merge(brush.settings, p);
    var settings :=
      if p.size.Some? then
        var ratio := Ratio(brush.settings.size, p.size.value);
        merged.(minSize := brush.settings.minSize * ratio, maxSize := brush.settings.maxSize * ratio)
      else merged;
    brush.(settings := settings)
  }

  /** With a new size, every field other than the size range is merged from the patch as usual. */
  lemma UpdateMergesOtherFields(brush: Brush, p: SettingsPatch)
    ensures UpdateActiveBrushSettings(brush, p).settings.(minSize := 0.0, maxSize := 0.0) ==
            Merge(brush.settings, p).(minSize := 0.0, maxSize := 0.0)
  {
  }

  /** A patch with a size overrides any minSize and maxSize it also carries. */
  lemma SizeOverridesRange(brush: Brush, p: SettingsPatch)
    requires p.size.Some?
    ensures UpdateActiveBrushSettings(brush, p) == UpdateActiveBrushSettings(brush, p.(minSize := None, maxSize := None))
  {
  }

  lemma MulProportional(a: real, ratio: real, oldSize: real, newSize: real)
    requires ratio * oldSize == newSize
    ensures (a * ratio) * oldSize == a * newSize
  {
    calc {
      (a * ratio) * oldSize;
      a * (ratio * oldSize);
      a * newSize;
    }
  }

  /** Rescaling keeps the range proportional to the size: new minSize / new size == old minSize / old size, likewise maxSize. */
  lemma RescaleProportional(brush: Brush, p: SettingsPatch)
    requires p.size.Some? && brush.settings.size != 0.0
    ensures var s := UpdateActiveBrushSettings(brush, p).settings;
      && s.minSize * brush.settings.size == brush.settings.minSize * s.size
      && s.maxSize * brush.settings.size == brush.settings.maxSize * s.size
  {
    var ratio := Ratio(brush.settings.size, p.size.value);
    MulProportional(brush.settings.minSize, ratio, brush.settings.size, p.size.value);
    MulProportional(brush.settings.maxSize, ratio, brush.settings.size, p.size.value);
  }

  lemma MulMonotone(a: real, b: real, k: real)
    requires a <= b && k >= 0.0
    ensures a * k <= b * k
  {
    assert b * k - a * k == (b - a) * k;
    assert (b - a) * k >= 0.0;
  }

  /** A non-negative ratio keeps minSize <= maxSize. */
  lemma RescaleKeepsOrder(brush: Brush, p: SettingsPatch)
    requires p.size.Some? && Ratio(brush.settings.size, p.size.value) >= 0.0
    requires brush.settings.minSize <= brush.settings.maxSize
    ensures var s := UpdateActiveBrushSettings(brush, p).settings; s.minSize <= s.maxSize
  {
    MulMonotone(brush.settings.minSize, brush.settings.maxSize, Ratio(brush.settings.size, p.size.value));
  }

  // ---------------------------------------------------------------------
  // Brush import
  // ---------------------------------------------------------------------

  datatype ImportResult = Imported(brush: BrushJson) | InvalidFormat | ReadFailed

  /** The id an imported brush receives. */
  function ImportedId(now: nat): (r: string)
    ensures |r| > 9 && r[..9] == "imported-"
  {
    "imported-" + Decimal(now)
  }

  /**
   * handleImportBrush: a parse error is a read failure, and so is a file
   * holding `null` (reading a field of null throws); an object with settings
   * and a non-empty name is passed on with a fresh id; anything else is an
   * invalid format.
   */
  function ImportBrush(text: string, parse: string -> Option<JsonValue>, now: nat): (r: ImportResult)
    ensures parse(text).None? || parse(text) == Some(NullValue) ==> r == ReadFailed
    ensures r.Imported? <==>
      parse(text).Some? && parse(text).value.ObjectValue? &&
      parse(text).value.fields.settings.Some? && Truthy(parse(text).value.fields.name)
    ensures r.Imported? ==> r.brush == parse(text).value.fields.(id := Some(ImportedId(now)))
  {
    match parse(text)
    case None => ReadFailed
    case Some(NullValue) => ReadFailed
    case Some(OtherValue) => InvalidFormat
    case Some(ObjectValue(j)) =>
      if j.settings.Some? && Truthy(j.name) then Imported(j.(id := Some(ImportedId(now))))
      else InvalidFormat
  }

  /** A brush exported to a file imports back as the same brush under a new id. */
  lemma ImportExported(b: Brush, text: string, parse: string -> Option<JsonValue>, now: nat)
    requires parse(text) == Some(ObjectValue(ToJson(b)))
    requires b.name != ""
    ensures ImportBrush(text, parse, now) == Imported(ToJson(b.(id := ImportedId(now))))
  {
  }

  // ---------------------------------------------------------------------
  // Preview strokes
  // ---------------------------------------------------------------------

  /** Point i of the icon preview on a `side` x `side` canvas: t = i/10 runs left to right over 20 px on a sine arch. */
  function IconPoint(side: real, i: nat, sinPi: real -> real, clock: nat -> int): Point {
    var t := i as real / 10.0;
    var c := side / 2.0;
    Point(Finite(c - 10.0 + t * 20.0), Finite(c + sinPi(t) * 5.0), 0.3 + sinPi(t) * 0.7, clock(i))
  }

  function IconPoints(side: real, sinPi: real -> real, clock: nat -> int): (r: seq<Point>)
    ensures |r| == 11
  {
    seq(11, i requires 0 <= i < 11 => IconPoint(side, i, sinPi, clock))
  }

  /** The loop of BrushIconPreview that pushes the eleven points. */
  method BuildIconPoints(side: real, sinPi: real -> real, clock: nat -> int) returns (points: seq<Point>)
    ensures points == IconPoints(side, sinPi, clock)
  {
    points := [];
    var i := 0;
    while i <= 10
      invariant 0 <= i <= 11
      invariant points == IconPoints(side, sinPi, clock)[..i]
    {
      var t := i as real / 10.0;
      var c := side / 2.0;
      points := points + [Point(Finite(c - 10.0 + t * 20.0), Finite(c + sinPi(t) * 5.0), 0.3 + sinPi(t) * 0.7, clock(i))];
      i := i + 1;
    }
  }

  /** The icon preview stroke: the brush's settings with only the size scaled by side/100. */
  function IconPreviewStroke(brush: Brush, color: string, side: real, points: seq<Point>): (s: Stroke)
    ensures s.brushSettings.size == brush.settings.size * (side / 100.0)
    ensures s.brushSettings.(size := brush.settings.size) == brush.settings
    ensures s.id == "icon-preview" && s.brushId == brush.id && s.color == color
    ensures s.points == points && s.layerId == "preview"
  {
    Stroke("icon-preview", brush.id, brush.settings.(size := brush.settings.size * (side / 100.0)), color, points, "preview")
  }

  /** BrushIconPreview: clears its canvas and paints the icon stroke on it. */
  method BrushIconPreview(ctx: Surface, brush: Brush, color: string, side: real, sinPi: real -> real, clock: nat -> int,
                          hypot: (real, real) -> real, radians: real -> real)
    modifies ctx
    ensures ctx.style == old(ctx.style) && ctx.saved == old(ctx.saved)
    ensures ctx.log == StrokeCommands(IconPreviewStroke(brush, color, side, IconPoints(side, sinPi, clock)), old(ctx.style), hypot, radians)
  {
    ctx.ClearRect();
    var points := BuildIconPoints(side, sinPi, clock);
    DrawStroke(ctx, IconPreviewStroke(brush, color, side, points), hypot, radians);
  }

  /** Point i of the large preview on its 160 x 80 canvas: t = i/40 runs over 80 px on one and a half sine waves. */
  function PreviewPoint(i: nat, sinPi: real -> real, clock: nat -> int): Point {
    var t := i as real / 40.0;
    Point(Finite(80.0 - 40.0 + t * 80.0), Finite(40.0 + sinPi(t * 1.5) * 15.0), 0.2 + sinPi(t) * 0.8, clock(i))
  }

  function PreviewPoints(sinPi: real -> real, clock: nat -> int): (r: seq<Point>)
    ensures |r| == 41
  {
    seq(41, i requires 0 <= i < 41 => PreviewPoint(i, sinPi, clock))
  }

  /** The loop of BrushPreview that pushes the forty-one points. */
  method BuildPreviewPoints(sinPi: real -> real, clock: nat -> int) returns (points: seq<Point>)
    ensures points == PreviewPoints(sinPi, clock)
  {
    points := [];
    var i := 0;
    while i <= 40
      invariant 0 <= i <= 41
      invariant points == PreviewPoints(sinPi, clock)[..i]
    {
      var t := i as real / 40.0;
      var x := 80.0 - 40.0 + t * 80.0;
      var y := 40.0 + sinPi(t * 1.5) * 15.0;
      var pressure := 0.2 + sinPi(t) * 0.8;
      points := points + [Point(Finite(x), Finite(y), pressure, clock(i))];
      i := i + 1;
    }
  }

  /** The large preview stroke uses the brush's settings unchanged. */
  function PreviewStroke(brush: Brush, color: string, points: seq<Point>): (s: Stroke)
    ensures s.brushSettings == brush.settings && s.brushId == brush.id && s.color == color
    ensures s.id == "preview" && s.points == points && s.layerId == "preview"
  {
    Stroke("preview", brush.id, brush.settings, color, points, "preview")
  }

  /** BrushPreview: clears its canvas and paints the preview stroke on it. */
  method BrushPreview(ctx: Surface, brush: Brush, color: string, sinPi: real -> real, clock: nat -> int,
                      hypot: (real, real) -> real, radians: real -> real)
    modifies ctx
    ensures ctx.style == old(ctx.style) && ctx.saved == old(ctx.saved)
    ensures ctx.log == StrokeCommands(PreviewStroke(brush, color, PreviewPoints(sinPi, clock)), old(ctx.style), hypot, radians)
  {
    ctx.ClearRect();
    var points := BuildPreviewPoints(sinPi, clock);
    DrawStroke(ctx, PreviewStroke(brush, color, points), hypot, radians);
  }

  /** The icon points run strictly left to right, 2 px apart, and all of them can be drawn. */
  lemma IconPointsShape(side: real, sinPi: real -> real, clock: nat -> int)
    ensures AllDrawable(IconPoints(side, sinPi, clock))
    ensures var ps := IconPoints(side, sinPi, clock);
      forall i :: 0 <= i < 10 ==> ps[i + 1].x.value == ps[i].x.value + 2.0
  {
  }

  /** The large preview's points run strictly left to right, 2 px apart, and all of them can be drawn. */
  lemma PreviewPointsShape(sinPi: real -> real, clock: nat -> int)
    ensures AllDrawable(PreviewPoints(sinPi, clock))
    ensures var ps := PreviewPoints(sinPi, clock);
      forall i :: 0 <= i < 40 ==> ps[i + 1].x.value == ps[i].x.value + 2.0
  {
  }

  /** Where sin(t*pi) stays in [0, 1] on [0, 1], the icon pressures lie in [0.3, 1]. */
  lemma IconPressureRange(side: real, sinPi: real -> real, clock: nat -> int)
    requires forall t :: 0.0 <= t <= 1.0 ==> 0.0 <= sinPi(t) <= 1.0
    ensures var ps := IconPoints(side, sinPi, clock);
      forall i :: 0 <= i < 11 ==> 0.3 <= ps[i].pressure <= 1.0
  {
    var ps := IconPoints(side, sinPi, clock);
    forall i | 0 <= i < 11 ensures 0.3 <= ps[i].pressure <= 1.0 {
      var t := i as real / 10.0;
      assert 0.0 <= t <= 1.0;
    }
  }

  /** For a round brush, the large preview is forty segments and the icon ten. */
  lemma RoundBrushPreviews(brush: Brush, color: string, side: real, sinPi: real -> real, clock: nat -> int,
                           st: Style, hypot: (real, real) -> real, radians: real -> real)
    requires brush.settings.roundness >= 100.0
    ensures |StrokeCommands(PreviewStroke(brush, color, PreviewPoints(sinPi, clock)), st, hypot, radians)| == 40
    ensures |StrokeCommands(IconPreviewStroke(brush, color, side, IconPoints(side, sinPi, clock)), st, hypot, radians)| == 10
  {
    PreviewPointsShape(sinPi, clock);
    IconPointsShape(side, sinPi, clock);
    RoundPenSegments(PreviewStroke(brush, color, PreviewPoints(sinPi, clock)), st, hypot, radians);
    RoundPenSegments(IconPreviewStroke(brush, color, side, IconPoints(side, sinPi, clock)), st, hypot, radians);
  }

  // ---------------------------------------------------------------------
  // PDF export
  // ---------------------------------------------------------------------

  datatype Orientation = Landscape | Portrait

  /** The jsPDF page orientation: landscape exactly for a wider-than-tall project. */
  function PdfOrientation(width: int, height: int): (o: Orientation)
    ensures o == Landscape <==> width > height
  {
    if width > height then Landscape else Portrait
  }

  /** Turning a non-square page on its side flips its orientation. */
  lemma OrientationFlips(width: int, height: int)
    requires width != height
    ensures PdfOrientation(width, height) != PdfOrientation(height, width)
  {
  }
}
