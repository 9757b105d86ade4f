/**
 * Stroke capture helpers and the stroke renderer of utils/drawingUtils.ts.
 *
 * The 2D canvas context is modelled as a Surface: the drawing state that the
 * renderer sets (global alpha, composite operation, fill/stroke colour, line
 * width), the save/restore stack, and the log of everything painted, each
 * entry recording the shape and the drawing state it was painted with.
 * Math.pow(p, 0.7), Math.hypot and the degree-to-radian conversion are
 * parameters.
 */
module Drawing {
  import opened Types
  import opened JsBuiltins
  import opened Seqs

  // ---------------------------------------------------------------------
  // Pressure normalisation
  // ---------------------------------------------------------------------

  datatype PointerType = Mouse | PenPointer | Touch

  /** The fields of a DOM pointer event that the application reads. */
  datatype PointerEvent = PointerEvent(
    pointerType: PointerType,
    button: int,
    clientX: real,
    clientY: real,
    pressure: Option<real>,   // None when the event has no such property
    force: Option<real>)

  /** A number property is falsy when it is absent or zero. */
  predicate Falsy(v: Option<real>) {
    v.None? || v.value == 0.0
  }

  /** getPressure: 0.5 for a mouse; otherwise `pressure || force || 0.5` through the 0.7 power curve. */
  function GetPressure(e: PointerEvent, pow07: real -> real): (r: real)
    ensures e.pointerType == Mouse ==> r == 0.5
    ensures e.pointerType != Mouse && !Falsy(e.pressure) ==> r == pow07(e.pressure.value)
    ensures e.pointerType != Mouse && Falsy(e.pressure) && !Falsy(e.force) ==> r == pow07(e.force.value)
    ensures e.pointerType != Mouse && Falsy(e.pressure) && Falsy(e.force) ==> r == pow07(0.5)
  {
    if e.pointerType == Mouse then 0.5
    else
      var p := if !Falsy(e.pressure) then e.pressure.value
               else if !Falsy(e.force) then e.force.value
               else 0.5;
      pow07(p)
  }

  // ---------------------------------------------------------------------
  // Input stabilisation
  // ---------------------------------------------------------------------

  /** a + (b - a) * t */
  function Lerp(a: real, b: real, t: real): real {
    a + (b - a) * t
  }

  /** Linear interpolation on coordinates; NaN is contagious. */
  function LerpCoord(a: Coord, b: Coord, t: real): Coord {
    if a.Finite? && b.Finite? then Finite(Lerp(a.value, b.value, t)) else NaN
  }

  /** The interpolation factor for a stroke that already has `prior` points. */
  function LerpFactor(prior: nat, strength: real): real {
    var baseLerp := 1.0 - Min(0.98, strength * 0.9);
    var startBoost := if prior < 5 then (5 - prior) as real * 0.1 else 0.0;
    Min(1.0, baseLerp + startBoost)
  }

  /** r lies on the closed interval between a and b. */
  predicate Between(a: real, b: real, r: real) {
    (a <= r <= b) || (b <= r <= a)
  }

  /** Coordinate version of Between: finite end points give a finite result in between. */
  predicate CoordBetween(a: Coord, b: Coord, r: Coord) {
    a.Finite? && b.Finite? ==> r.Finite? && Between(a.value, b.value, r.value)
  }

  function StabilizePoint(points: seq<Point>, nextPoint: Point, strength: real): (r: Point)
    ensures |points| == 0 || strength <= 0.0 ==> r == nextPoint
    ensures r.timestamp == nextPoint.timestamp
  {
    if |points| == 0 || strength <= 0.0 then nextPoint
    else
      var lastPoint := points[|points| - 1];
      var f := LerpFactor(|points|, strength);
      Point(LerpCoord(lastPoint.x, nextPoint.x, f),
            LerpCoord(lastPoint.y, nextPoint.y, f),
            Lerp(lastPoint.pressure, nextPoint.pressure, f),
            nextPoint.timestamp)
  }

  /** For a positive strength the factor lies in [0.02, 1]; from the fifth point on there is no start boost. */
  lemma LerpFactorRange(prior: nat, strength: real)
    requires strength > 0.0
    ensures 0.02 <= LerpFactor(prior, strength) <= 1.0
    ensures prior >= 5 ==> LerpFactor(prior, strength) == 1.0 - Min(0.98, 0.9 * strength)
    ensures prior < 5 ==> LerpFactor(prior, strength) == Min(1.0, 1.0 - Min(0.98, 0.9 * strength) + (5 - prior) as real * 0.1)
  {
  }

  /** Stronger smoothing never moves further toward the raw point (once the start boost is over). */
  lemma LerpFactorMonotone(prior: nat, s1: real, s2: real)
    requires prior >= 5 && s1 <= s2
    ensures LerpFactor(prior, s2) <= LerpFactor(prior, s1)
  {
  }

  lemma ScaleBounds(d: real, t: real)
    requires d >= 0.0 && 0.0 <= t <= 1.0
    ensures 0.0 <= d * t <= d
  {
    assert d * (1.0 - t) >= 0.0;
  }

  /** Lerp(a, b, t) lies between a and b for t in [0, 1]. */
  lemma LerpBetween(a: real, b: real, t: real)
    requires 0.0 <= t <= 1.0
    ensures Between(a, b, Lerp(a, b, t))
  {
    var d := b - a;
    if d >= 0.0 {
      ScaleBounds(d, t);
    } else {
      ScaleBounds(-d, t);
      assert (-d) * t == -(d * t);
    }
    assert Lerp(a, b, t) == a + d * t;
  }

  /** The stabilised point never overshoots: each of x, y and pressure lies between the last and the raw value. */
  lemma StabilizeNoOvershoot(points: seq<Point>, nextPoint: Point, strength: real)
    requires |points| > 0
    ensures var r := StabilizePoint(points, nextPoint, strength);
            var last := points[|points| - 1];
            strength > 0.0 ==>
              CoordBetween(last.x, nextPoint.x, r.x) &&
              CoordBetween(last.y, nextPoint.y, r.y) &&
              Between(last.pressure, nextPoint.pressure, r.pressure)
  {
    if strength > 0.0 {
      var last := points[|points| - 1];
      var f := LerpFactor(|points|, strength);
      LerpFactorRange(|points|, strength);
      if last.x.Finite? && nextPoint.x.Finite? { LerpBetween(last.x.value, nextPoint.x.value, f); }
      if last.y.Finite? && nextPoint.y.Finite? { LerpBetween(last.y.value, nextPoint.y.value, f); }
      LerpBetween(last.pressure, nextPoint.pressure, f);
    }
  }

  /** Only the number of prior points and the last of them are read. */
  lemma StabilizeReadsOnlyLast(p1: seq<Point>, p2: seq<Point>, nextPoint: Point, strength: real)
    requires |p1| == |p2| > 0 && p1[|p1| - 1] == p2[|p2| - 1]
    ensures StabilizePoint(p1, nextPoint, strength) == StabilizePoint(p2, nextPoint, strength)
  {
  }

  // ---------------------------------------------------------------------
  // The drawing surface
  // ---------------------------------------------------------------------

  /** The part of the 2D context state that the application sets. */
  datatype Style = Style(alpha: real, op: string, color: string, lineWidth: real)

  /** The state of a freshly created (or resized) canvas context. */
  const DefaultStyle := Style(1.0, "source-over", "#000000", 1.0)

  /** The values globalCompositeOperation accepts; any other assignment is ignored. */
  const CompositeOps: set<string> := {
    "source-over", "source-in", "source-out", "source-atop",
    "destination-over", "destination-in", "destination-out", "destination-atop",
    "lighter", "copy", "xor",
    "multiply", "screen", "overlay", "darken", "lighten", "color-dodge", "color-burn",
    "hard-light", "soft-light", "difference", "exclusion", "hue", "saturation", "color", "luminosity"}

  datatype Shape =
    | Ellipse(cx: real, cy: real, rx: real, ry: real, rotation: real)   // a calligraphy stamp (ellipse + fill)
    | Segment(x0: real, y0: real, x1: real, y1: real)                   // moveTo + lineTo + stroke
    | Dot(cx: real, cy: real, radius: real)                             // arc + fill
    | FillRect(width: int, height: int)                                 // fillRect over the canvas
    | Picture(url: string, width: int, height: int)                     // drawImage of a loaded image
    | Composite(content: seq<Command>)                                  // drawImage of another canvas

  /** One paint operation together with the state it was painted under. */
  datatype Command = Draw(shape: Shape, style: Style)

  /** globalAlpha: values outside [0, 1] are ignored. */
  function AlphaAfter(current: real, a: real): real {
    if 0.0 <= a <= 1.0 then a else current
  }

  /** globalCompositeOperation: unknown operation names are ignored. */
  function OpAfter(current: string, op: string): string {
    if op in CompositeOps then op else current
  }

  class Surface {
    var style: Style
    var saved: seq<Style>
    var log: seq<Command>

    constructor ()
      ensures style == DefaultStyle && saved == [] && log == []
    {
      style := DefaultStyle;
      saved := [];
      log := [];
    }

    method Save()
      modifies this
      ensures style == old(style) && saved == old(saved) + [old(style)] && log == old(log)
    {
      saved := saved + [style];
    }

    /** restore() pops the saved state; with an empty stack it does nothing. */
    method Restore()
      modifies this
      ensures old(saved) == [] ==> style == old(style) && saved == []
      ensures old(saved) != [] ==> style == old(saved)[|old(saved)| - 1] && saved == old(saved)[..|old(saved)| - 1]
      ensures log == old(log)
    {
      if saved != [] {
        style := saved[|saved| - 1];
        saved := saved[..|saved| - 1];
      }
    }

    method SetGlobalAlpha(a: real)
      modifies this
      ensures style == old(style).(alpha := AlphaAfter(old(style).alpha, a))
      ensures saved == old(saved) && log == old(log)
    {
      style := style.(alpha := AlphaAfter(style.alpha, a));
    }

    method SetCompositeOp(op: string)
      modifies this
      ensures style == old(style).(op := OpAfter(old(style).op, op))
      ensures saved == old(saved) && log == old(log)
    {
      style := style.(op := OpAfter(style.op, op));
    }

    /** fillStyle and strokeStyle, which the application always sets together. */
    method SetColor(c: string)
      modifies this
      ensures style == old(style).(color := c)
      ensures saved == old(saved) && log == old(log)
    {
      style := style.(color := c);
    }

    /** lineWidth: zero and negative values are ignored. */
    method SetLineWidth(w: real)
      modifies this
      ensures style == old(style).(lineWidth := if w > 0.0 then w else old(style).lineWidth)
      ensures saved == old(saved) && log == old(log)
    {
      if w > 0.0 {
        style := style.(lineWidth := w);
      }
    }

    /** clearRect over the whole canvas: nothing painted before remains visible. */
    method ClearRect()
      modifies this
      ensures log == [] && style == old(style) && saved == old(saved)
    {
      log := [];
    }

    method Paint(shape: Shape)
      modifies this
      ensures log == old(log) + [Draw(shape, old(style))]
      ensures style == old(style) && saved == old(saved)
    {
      log := log + [Draw(shape, style)];
    }
  }

  // ---------------------------------------------------------------------
  // The renderer's specification
  // ---------------------------------------------------------------------

  /** The nib size at a given pressure. */
  function DynamicSize(bs: BrushSettings, pressure: real): real {
    if bs.pressureSensitivity then Lerp(bs.minSize, bs.maxSize, pressure) else bs.size
  }

  /** With minSize <= maxSize and pressure in [0, 1] the dynamic size lies between the two. */
  lemma DynamicSizeBounds(bs: BrushSettings, pressure: real)
    requires bs.pressureSensitivity && bs.minSize <= bs.maxSize && 0.0 <= pressure <= 1.0
    ensures bs.minSize <= DynamicSize(bs, pressure) <= bs.maxSize
  {
    LerpBetween(bs.minSize, bs.maxSize, pressure);
  }

  /** The ellipse drawCalligraphyStamp fills: half the size wide, and at least 0.4 high. */
  function StampShape(x: real, y: real, size: real, roundness: real, angleRad: real): (r: Shape)
    ensures r.Ellipse? && r.cx == x && r.cy == y && r.rx == size / 2.0 && r.rotation == angleRad
    ensures r.ry >= 0.4
  {
    Ellipse(x, y, size / 2.0, Max(0.4, size * (roundness / 100.0) / 2.0), angleRad)
  }

  predicate Drawable(p: Point) {
    p.x.Finite? && p.y.Finite?
  }

  predicate AllDrawable(points: seq<Point>) {
    forall i :: 0 <= i < |points| ==> Drawable(points[i])
  }

  /** The nib angle in radians: `angle * Math.PI / 180`, with the conversion as a parameter. */
  function AngleRad(bs: BrushSettings, radians: real -> real): real {
    radians(bs.angle)
  }

  /** The number of stamp steps across a gap of length dist: one per 2% of the nib size, and at most one per 0.3 pixels. */
  function GapSteps(dist: real, size: real): int {
    Ceil(dist / Max(0.3, size * 0.02))
  }

  /** The step count for the gap from prev to p. */
  function StepCount(bs: BrushSettings, prev: Point, p: Point, hypot: (real, real) -> real): int
    requires Drawable(prev) && Drawable(p)
  {
    GapSteps(hypot(p.x.value - prev.x.value, p.y.value - prev.y.value), DynamicSize(bs, p.pressure))
  }

  /** The synthetic stamp number s of `steps`, between prev and p. */
  function InterpStamp(bs: BrushSettings, prev: Point, p: Point, steps: int, s: int, angleRad: real): Shape
    requires Drawable(prev) && Drawable(p) && steps > 0
  {
    var t := s as real / steps as real;
    var ix := Lerp(prev.x.value, p.x.value, t);
    var iy := Lerp(prev.y.value, p.y.value, t);
    var ip := Lerp(prev.pressure, p.pressure, t);
    StampShape(ix, iy, DynamicSize(bs, ip), bs.roundness, angleRad)
  }

  /** The synthetic stamps for s = 1 .. upTo - 1, in that order. */
  function InterpStamps(bs: BrushSettings, prev: Point, p: Point, steps: int, upTo: int, angleRad: real, st: Style): (r: seq<Command>)
    requires Drawable(prev) && Drawable(p)
    ensures |r| == if upTo <= 1 || steps <= 0 then 0 else upTo - 1
    decreases upTo
  {
    if upTo <= 1 || steps <= 0 then []
    else seq(upTo - 1, k requires 0 <= k < upTo - 1 => Draw(InterpStamp(bs, prev, p, steps, k + 1, angleRad), st))
  }

  lemma InterpStampsSnoc(bs: BrushSettings, prev: Point, p: Point, steps: int, s: int, angleRad: real, st: Style)
    requires Drawable(prev) && Drawable(p) && 1 <= s && steps > 0
    ensures InterpStamps(bs, prev, p, steps, s + 1, angleRad, st)
         == InterpStamps(bs, prev, p, steps, s, angleRad, st) + [Draw(InterpStamp(bs, prev, p, steps, s, angleRad), st)]
  {
    var a := InterpStamps(bs, prev, p, steps, s + 1, angleRad, st);
    var b := InterpStamps(bs, prev, p, steps, s, angleRad, st) + [Draw(InterpStamp(bs, prev, p, steps, s, angleRad), st)];
    assert |a| == |b|;
    forall k | 0 <= k < |a| ensures a[k] == b[k] {
      if k < s - 1 {
        assert b[k] == InterpStamps(bs, prev, p, steps, s, angleRad, st)[k];
      }
    }
  }

  /** The stamp centred on point p. */
  function OwnStamp(bs: BrushSettings, p: Point, angleRad: real, st: Style): Command
    requires Drawable(p)
  {
    Draw(StampShape(p.x.value, p.y.value, DynamicSize(bs, p.pressure), bs.roundness, angleRad), st)
  }

  /** The synthetic stamps filling the gap from prev to p. */
  function GapCommands(bs: BrushSettings, prev: Point, p: Point, angleRad: real, hypot: (real, real) -> real, st: Style): seq<Command>
    requires Drawable(prev) && Drawable(p)
  {
    var steps := StepCount(bs, prev, p, hypot);
    InterpStamps(bs, prev, p, steps, steps, angleRad, st)
  }

  /** What point i of a calligraphy stroke contributes: its own stamp, then the gap filling toward it. */
  function PointStamps(bs: BrushSettings, points: seq<Point>, i: nat, angleRad: real, hypot: (real, real) -> real, st: Style): (r: seq<Command>)
    requires i < |points| && AllDrawable(points)
  {
    [OwnStamp(bs, points[i], angleRad, st)] + (if i == 0 then [] else GapCommands(bs, points[i - 1], points[i], angleRad, hypot, st))
  }

  /** The number of synthetic stamps between point i - 1 and point i. */
  function GapStamps(bs: BrushSettings, points: seq<Point>, i: nat, hypot: (real, real) -> real): nat
    requires 0 < i < |points| && AllDrawable(points)
  {
    var steps := StepCount(bs, points[i - 1], points[i], hypot);
    if steps <= 1 then 0 else steps - 1
  }

  /** What each point of a calligraphy stroke contributes, in point order. */
  function PointBlocks(bs: BrushSettings, points: seq<Point>, angleRad: real, hypot: (real, real) -> real, st: Style): (r: seq<seq<Command>>)
    requires AllDrawable(points)
    ensures |r| == |points|
  {
    seq(|points|, i requires 0 <= i < |points| => PointStamps(bs, points, i, angleRad, hypot, st))
  }

  /** Everything the calligraphy branch paints: the points' contributions one after another. */
  function CalligraphyCommands(bs: BrushSettings, points: seq<Point>, angleRad: real, hypot: (real, real) -> real, st: Style): seq<Command>
    requires AllDrawable(points)
  {
    Concat(PointBlocks(bs, points, angleRad, hypot, st))
  }

  /** The segment from point i - 1 to point i, with line width from point i's pressure. */
  function SegmentCommand(bs: BrushSettings, points: seq<Point>, i: nat, st: Style): Command
    requires 0 < i < |points| && AllDrawable(points)
  {
    var p := points[i];
    var prev := points[i - 1];
    Draw(Segment(prev.x.value, prev.y.value, p.x.value, p.y.value),
         st.(lineWidth := Max(0.1, DynamicSize(bs, p.pressure))))
  }

  /** Round-pen segments ending at points 1 .. n - 1. */
  function SegmentCommands(bs: BrushSettings, points: seq<Point>, n: nat, st: Style): (r: seq<Command>)
    requires n <= |points| && AllDrawable(points)
    ensures |r| == if n <= 1 then 0 else n - 1
  {
    if n <= 1 then [] else seq(n - 1, k requires 0 <= k < n - 1 => SegmentCommand(bs, points, k + 1, st))
  }

  lemma SegmentCommandsSnoc(bs: BrushSettings, points: seq<Point>, i: nat, st: Style)
    requires 1 <= i < |points| && AllDrawable(points)
    ensures SegmentCommands(bs, points, i + 1, st) == SegmentCommands(bs, points, i, st) + [SegmentCommand(bs, points, i, st)]
  {
    var a := SegmentCommands(bs, points, i + 1, st);
    var b := SegmentCommands(bs, points, i, st) + [SegmentCommand(bs, points, i, st)];
    assert |a| == |b|;
    forall k | 0 <= k < |a| ensures a[k] == b[k] {
      if k < i - 1 {
        assert b[k] == SegmentCommands(bs, points, i, st)[k];
      }
    }
  }

  /** The dot of a single-point round-pen stroke. */
  function DotCommand(bs: BrushSettings, p: Point, st: Style): Command
    requires Drawable(p)
  {
    Draw(Dot(p.x.value, p.y.value, Max(0.1, DynamicSize(bs, p.pressure) / 2.0)), st)
  }

  /** The drawing state a stroke is painted under, starting from state st. */
  function StrokeStyle(st: Style, stroke: Stroke): Style {
    var a := if stroke.brushSettings.opacity == 0.0 then 1.0 else stroke.brushSettings.opacity;
    st.(alpha := AlphaAfter(st.alpha, a),
        op := if stroke.brushId == "eraser" then "destination-out" else "source-over",
        color := stroke.color)
  }

  predicate IsCalligraphy(stroke: Stroke) {
    stroke.brushSettings.roundness < 100.0
  }

  /** Everything drawStroke paints for `stroke` on a surface whose current state is st. */
  function StrokeCommands(stroke: Stroke, st: Style, hypot: (real, real) -> real, radians: real -> real): (r: seq<Command>)
    ensures |stroke.points| == 0 || !AllDrawable(stroke.points) ==> r == []
  {
    var points := stroke.points;
    var bs := stroke.brushSettings;
    if |points| == 0 || !AllDrawable(points) then []
    else
      var sst := StrokeStyle(st, stroke);
      if IsCalligraphy(stroke) then CalligraphyCommands(bs, points, AngleRad(bs, radians), hypot, sst)
      else if |points| > 1 then SegmentCommands(bs, points, |points|, sst)
      else [DotCommand(bs, points[0], sst)]
  }

  // ---------------------------------------------------------------------
  // The renderer
  // ---------------------------------------------------------------------

  method DrawCalligraphyStamp(ctx: Surface, x: real, y: real, size: real, roundness: real, angleRad: real)
    modifies ctx
    ensures ctx.style == old(ctx.style) && ctx.saved == old(ctx.saved)
    ensures ctx.log == old(ctx.log) + [Draw(StampShape(x, y, size, roundness, angleRad), old(ctx.style))]
  {
    ctx.Save();
    // translate(x, y) and rotate(angleRad) are folded into the ellipse's centre and rotation
    ctx.Paint(StampShape(x, y, size, roundness, angleRad));
    ctx.Restore();
  }

  /** The synthetic stamps that fill the gap from prev to p (the inner loop of the calligraphy branch). */
  method DrawGap(ctx: Surface, bs: BrushSettings, prev: Point, p: Point, steps: int, angleRad: real)
    requires Drawable(prev) && Drawable(p)
    modifies ctx
    ensures ctx.style == old(ctx.style) && ctx.saved == old(ctx.saved)
    ensures ctx.log == old(ctx.log) + InterpStamps(bs, prev, p, steps, steps, angleRad, old(ctx.style))
  {
    ghost var st := ctx.style;
    var s := 1;
    while s < steps
      invariant 1 <= s && (steps >= 1 ==> s <= steps)
      invariant ctx.style == st && ctx.saved == old(ctx.saved)
      invariant ctx.log == old(ctx.log) + InterpStamps(bs, prev, p, steps, s, angleRad, st)
    {
      var t := s as real / steps as real;
      var ix := Lerp(prev.x.value, p.x.value, t);
      var iy := Lerp(prev.y.value, p.y.value, t);
      var ip := Lerp(prev.pressure, p.pressure, t);
      DrawCalligraphyStamp(ctx, ix, iy, DynamicSize(bs, ip), bs.roundness, angleRad);
      InterpStampsSnoc(bs, prev, p, steps, s, angleRad, st);
      s := s + 1;
    }
    if steps < 1 {
      assert InterpStamps(bs, prev, p, steps, s, angleRad, st) == [] == InterpStamps(bs, prev, p, steps, steps, angleRad, st);
    }
  }

  /** The calligraphy branch: a stamp per point, then the stamps filling the gap from the previous point. */
  method DrawCalligraphyPoints(ctx: Surface, bs: BrushSettings, points: seq<Point>, angleRad: real, hypot: (real, real) -> real)
    requires AllDrawable(points)
    modifies ctx
    ensures ctx.style == old(ctx.style) && ctx.saved == old(ctx.saved)
    ensures ctx.log == old(ctx.log) + CalligraphyCommands(bs, points, angleRad, hypot, old(ctx.style))
  {
    ghost var st := ctx.style;
    ghost var blocks := PointBlocks(bs, points, angleRad, hypot, st);
    var i := 0;
    while i < |points|
      invariant 0 <= i <= |points|
      invariant ctx.style == st && ctx.saved == old(ctx.saved)
      invariant ctx.log == old(ctx.log) + Concat(blocks[..i])
    {
      DrawPoint(ctx, bs, points, i, angleRad, hypot);
      ConcatSnoc(blocks, i);
      AppendAssoc(old(ctx.log), Concat(blocks[..i]), blocks[i]);
      i := i + 1;
    }
    assert blocks[..i] == blocks;
  }

  /** One iteration of the calligraphy loop: point i's own stamp, then the gap from point i - 1. */
  method DrawPoint(ctx: Surface, bs: BrushSettings, points: seq<Point>, i: nat, angleRad: real, hypot: (real, real) -> real)
    requires i < |points| && AllDrawable(points)
    modifies ctx
    ensures ctx.style == old(ctx.style) && ctx.saved == old(ctx.saved)
    ensures ctx.log == old(ctx.log) + PointStamps(bs, points, i, angleRad, hypot, old(ctx.style))
  {
    ghost var st := ctx.style;
    var p := points[i];
    var dynamicSize := DynamicSize(bs, p.pressure);
    DrawCalligraphyStamp(ctx, p.x.value, p.y.value, dynamicSize, bs.roundness, angleRad);
    assert ctx.log == old(ctx.log) + [OwnStamp(bs, p, angleRad, st)];
    if i > 0 {
      var prev := points[i - 1];
      var dist := hypot(p.x.value - prev.x.value, p.y.value - prev.y.value);
      var steps := GapSteps(dist, dynamicSize);
      DrawGap(ctx, bs, prev, p, steps, angleRad);
      assert ctx.log == old(ctx.log) + [OwnStamp(bs, p, angleRad, st)] + GapCommands(bs, prev, p, angleRad, hypot, st);
    }
  }

  /** The round-pen branch: a segment per consecutive pair of points, or a dot for a single point. */
  method DrawRoundPen(ctx: Surface, bs: BrushSettings, points: seq<Point>)
    requires |points| > 0 && AllDrawable(points)
    modifies ctx
    ensures ctx.style.alpha == old(ctx.style).alpha && ctx.style.op == old(ctx.style).op && ctx.style.color == old(ctx.style).color
    ensures ctx.saved == old(ctx.saved)
    ensures |points| > 1 ==> ctx.log == old(ctx.log) + SegmentCommands(bs, points, |points|, old(ctx.style))
    ensures |points| == 1 ==> ctx.log == old(ctx.log) + [DotCommand(bs, points[0], old(ctx.style))]
  {
    ghost var st := ctx.style;
    if |points| > 1 {
      var i := 1;
      while i < |points|
        invariant 1 <= i <= |points|
        invariant ctx.style.(lineWidth := st.lineWidth) == st
        invariant ctx.saved == old(ctx.saved)
        invariant ctx.log == old(ctx.log) + SegmentCommands(bs, points, i, st)
      {
        var p := points[i];
        var prev := points[i - 1];
        var lineWidth := DynamicSize(bs, p.pressure);
        ctx.SetLineWidth(Max(0.1, lineWidth));
        assert ctx.style == st.(lineWidth := Max(0.1, lineWidth));
        ctx.Paint(Segment(prev.x.value, prev.y.value, p.x.value, p.y.value));
        SegmentCommandsSnoc(bs, points, i, st);
        i := i + 1;
      }
    } else {
      var p := points[0];
      var size := DynamicSize(bs, p.pressure);
      ctx.Paint(Dot(p.x.value, p.y.value, Max(0.1, size / 2.0)));
      assert Draw(Dot(p.x.value, p.y.value, Max(0.1, size / 2.0)), st) == DotCommand(bs, points[0], st);
    }
  }

  /** drawStroke: paints the stroke and leaves the surface's drawing state as it found it. */
  method DrawStroke(ctx: Surface, stroke: Stroke, hypot: (real, real) -> real, radians: real -> real)
    modifies ctx
    ensures ctx.style == old(ctx.style) && ctx.saved == old(ctx.saved)
    ensures ctx.log == old(ctx.log) + StrokeCommands(stroke, old(ctx.style), hypot, radians)
  {
    var points := stroke.points;
    var bs := stroke.brushSettings;
    if |points| == 0 {
      return;
    }
    var k := 0;
    while k < |points|
      invariant 0 <= k <= |points|
      invariant forall j :: 0 <= j < k ==> Drawable(points[j])
    {
      if points[k].x.NaN? || points[k].y.NaN? {
        return;
      }
      k := k + 1;
    }

    ghost var st0 := ctx.style;
    ctx.Save();
    ctx.SetGlobalAlpha(if bs.opacity == 0.0 then 1.0 else bs.opacity);
    if stroke.brushId == "eraser" {
      ctx.SetCompositeOp("destination-out");
    } else {
      ctx.SetCompositeOp("source-over");
    }
    ctx.SetColor(stroke.color);
    assert ctx.style == StrokeStyle(st0, stroke);

    if bs.roundness < 100.0 {
      var angleRad := AngleRad(bs, radians);
      DrawCalligraphyPoints(ctx, bs, points, angleRad, hypot);
    } else {
      DrawRoundPen(ctx, bs, points);
    }
    ctx.Restore();
  }

  // ---------------------------------------------------------------------
  // Properties of what is painted
  // ---------------------------------------------------------------------

  /** The state every command of a stroke is painted under: brush opacity (0 read as 1), eraser or normal op, stroke colour. */
  lemma StrokeCommandsStyle(stroke: Stroke, st: Style, hypot: (real, real) -> real, radians: real -> real, k: nat)
    requires k < |StrokeCommands(stroke, st, hypot, radians)|
    ensures var c := StrokeCommands(stroke, st, hypot, radians)[k];
      && c.style.op == (if stroke.brushId == "eraser" then "destination-out" else "source-over")
      && c.style.color == stroke.color
      && c.style.alpha == (if stroke.brushSettings.opacity == 0.0 then 1.0
                           else if 0.0 <= stroke.brushSettings.opacity <= 1.0 then stroke.brushSettings.opacity
                           else st.alpha)
  {
    var points := stroke.points;
    var bs := stroke.brushSettings;
    var sst := StrokeStyle(st, stroke);
    if IsCalligraphy(stroke) {
      CalligraphyStyle(bs, points, AngleRad(bs, radians), hypot, sst, k);
    }
  }

  lemma CalligraphyStyle(bs: BrushSettings, points: seq<Point>, angleRad: real, hypot: (real, real) -> real, st: Style, k: nat)
    requires AllDrawable(points)
    requires k < |CalligraphyCommands(bs, points, angleRad, hypot, st)|
    ensures CalligraphyCommands(bs, points, angleRad, hypot, st)[k].style == st
    ensures CalligraphyCommands(bs, points, angleRad, hypot, st)[k].shape.Ellipse?
    ensures CalligraphyCommands(bs, points, angleRad, hypot, st)[k].shape.ry >= 0.4
  {
    var blocks := PointBlocks(bs, points, angleRad, hypot, st);
    var P := (c: Command) => c.style == st && c.shape.Ellipse? && c.shape.ry >= 0.4;
    forall j, l | 0 <= j < |blocks| && 0 <= l < |blocks[j]| ensures P(blocks[j][l]) {
      PointStampsRadius(bs, points, j, angleRad, hypot, st, l);
    }
    ConcatAll(blocks, P);
  }

  /** Every stamp a point contributes (its own and the gap's) is an ellipse at least 0.4 high in the stroke's state. */
  lemma PointStampsRadius(bs: BrushSettings, points: seq<Point>, i: nat, angleRad: real, hypot: (real, real) -> real, st: Style, l: nat)
    requires i < |points| && AllDrawable(points)
    requires l < |PointStamps(bs, points, i, angleRad, hypot, st)|
    ensures PointStamps(bs, points, i, angleRad, hypot, st)[l].style == st
    ensures PointStamps(bs, points, i, angleRad, hypot, st)[l].shape.Ellipse?
    ensures PointStamps(bs, points, i, angleRad, hypot, st)[l].shape.ry >= 0.4
  {
    if l > 0 {
      var steps := StepCount(bs, points[i - 1], points[i], hypot);
      InterpStampsRadius(bs, points[i - 1], points[i], steps, steps, angleRad, st, l - 1);
    }
  }

  lemma InterpStampsRadius(bs: BrushSettings, prev: Point, p: Point, steps: int, upTo: int, angleRad: real, st: Style, k: nat)
    requires Drawable(prev) && Drawable(p)
    requires k < |InterpStamps(bs, prev, p, steps, upTo, angleRad, st)|
    ensures InterpStamps(bs, prev, p, steps, upTo, angleRad, st)[k].style == st
    ensures InterpStamps(bs, prev, p, steps, upTo, angleRad, st)[k].shape.Ellipse?
    ensures InterpStamps(bs, prev, p, steps, upTo, angleRad, st)[k].shape.ry >= 0.4
  {
  }

  /** A calligraphy stroke paints one stamp per point plus the gap stamps, and nothing else. */
  lemma CalligraphyCount(bs: BrushSettings, points: seq<Point>, angleRad: real, hypot: (real, real) -> real, st: Style)
    requires 0 < |points| && AllDrawable(points)
    ensures |CalligraphyCommands(bs, points, angleRad, hypot, st)| == |points| + GapTotal(bs, points, |points|, hypot)
  {
    var blocks := PointBlocks(bs, points, angleRad, hypot, st);
    CalligraphyCountUpTo(bs, points, |points|, angleRad, hypot, st);
    assert blocks[..|points|] == blocks;
  }

  lemma {:induction false} CalligraphyCountUpTo(bs: BrushSettings, points: seq<Point>, n: nat, angleRad: real, hypot: (real, real) -> real, st: Style)
    requires 0 < n <= |points| && AllDrawable(points)
    ensures |Concat(PointBlocks(bs, points, angleRad, hypot, st)[..n])| == n + GapTotal(bs, points, n, hypot)
  {
    var blocks := PointBlocks(bs, points, angleRad, hypot, st);
    ConcatSnoc(blocks, n - 1);
    if n > 1 {
      CalligraphyCountUpTo(bs, points, n - 1, angleRad, hypot, st);
    } else {
      assert Concat(blocks[..0]) == [];
    }
  }

  /** The number of synthetic stamps among the first n points. */
  function GapTotal(bs: BrushSettings, points: seq<Point>, n: nat, hypot: (real, real) -> real): nat
    requires 0 < n <= |points| && AllDrawable(points)
  {
    if n == 1 then 0 else GapTotal(bs, points, n - 1, hypot) + GapStamps(bs, points, n - 1, hypot)
  }

  /** Point i's stamp sits at point i with the nib size for its pressure, right after the stamps of the points before it. */
  lemma CalligraphyOwnStamp(bs: BrushSettings, points: seq<Point>, i: nat, angleRad: real, hypot: (real, real) -> real, st: Style)
    requires i < |points| && AllDrawable(points)
    ensures var cmds := CalligraphyCommands(bs, points, angleRad, hypot, st);
            var before := Concat(PointBlocks(bs, points, angleRad, hypot, st)[..i]);
            var p := points[i];
            |before| < |cmds| &&
            cmds[|before|] == Draw(StampShape(p.x.value, p.y.value, DynamicSize(bs, p.pressure), bs.roundness, angleRad), st)
  {
    var blocks := PointBlocks(bs, points, angleRad, hypot, st);
    assert blocks[i][0] == OwnStamp(bs, points[i], angleRad, st);
    ConcatAt(blocks, i);
  }

  /** A round-pen stroke of n >= 2 points is exactly n - 1 segments, each joining consecutive points with width at least 0.1. */
  lemma RoundPenSegments(stroke: Stroke, st: Style, hypot: (real, real) -> real, radians: real -> real)
    requires !IsCalligraphy(stroke) && |stroke.points| >= 2 && AllDrawable(stroke.points)
    ensures var cmds := StrokeCommands(stroke, st, hypot, radians);
            var pts := stroke.points;
            |cmds| == |pts| - 1 &&
            forall k :: 0 <= k < |cmds| ==>
              cmds[k].shape == Segment(pts[k].x.value, pts[k].y.value, pts[k + 1].x.value, pts[k + 1].y.value) &&
              cmds[k].style.lineWidth == Max(0.1, DynamicSize(stroke.brushSettings, pts[k + 1].pressure)) &&
              cmds[k].style.lineWidth >= 0.1
  {
  }

  /** A single-point round-pen stroke is one dot of radius max(0.1, size / 2) at that point. */
  lemma RoundPenDot(stroke: Stroke, st: Style, hypot: (real, real) -> real, radians: real -> real)
    requires !IsCalligraphy(stroke) && |stroke.points| == 1 && AllDrawable(stroke.points)
    ensures var p := stroke.points[0];
            StrokeCommands(stroke, st, hypot, radians) ==
              [Draw(Dot(p.x.value, p.y.value, Max(0.1, DynamicSize(stroke.brushSettings, p.pressure) / 2.0)), StrokeStyle(st, stroke))]
  {
  }

  /** Rendering is deterministic: the same stroke on two fresh surfaces gives the same log. */
  method RenderTwice(stroke: Stroke, hypot: (real, real) -> real, radians: real -> real) returns (first: seq<Command>, second: seq<Command>)
    ensures first == second
    ensures first == StrokeCommands(stroke, DefaultStyle, hypot, radians)
  {
    var a := new Surface();
    DrawStroke(a, stroke, hypot, radians);
    var b := new Surface();
    DrawStroke(b, stroke, hypot, radians);
    first, second := a.log, b.log;
  }

  // ---------------------------------------------------------------------
  // Stroke lists
  // ---------------------------------------------------------------------

  /** `strokes.filter(s => s.layerId === layerId)` */
  function LayerStrokes(strokes: seq<Stroke>, layerId: string): (r: seq<Stroke>)
    ensures |r| <= |strokes|
    ensures forall s :: s in r <==> s in strokes && s.layerId == layerId
  {
    if strokes == [] then []
    else (if strokes[0].layerId == layerId then [strokes[0]] else []) + LayerStrokes(strokes[1..], layerId)
  }

  /** Filtering distributes over concatenation, so it keeps the list order. */
  lemma {:induction false} LayerStrokesAppend(a: seq<Stroke>, b: seq<Stroke>, layerId: string)
    ensures LayerStrokes(a + b, layerId) == LayerStrokes(a, layerId) + LayerStrokes(b, layerId)
  {
    if a == [] {
      assert a + b == b;
    } else {
      assert (a + b)[1..] == a[1..] + b;
      LayerStrokesAppend(a[1..], b, layerId);
    }
  }

  /** Appending a stroke adds it to its own layer's list and leaves every other layer's list as it was. */
  lemma AppendedStrokeLayer(strokes: seq<Stroke>, s: Stroke, layerId: string)
    ensures LayerStrokes(strokes + [s], layerId) ==
      LayerStrokes(strokes, layerId) + (if s.layerId == layerId then [s] else [])
  {
    LayerStrokesAppend(strokes, [s], layerId);
    assert LayerStrokes([s], layerId) == (if s.layerId == layerId then [s] else []) + LayerStrokes([], layerId);
  }

  /** What drawing each stroke of the list in turn paints on a surface with state st. */
  function StrokesCommands(strokes: seq<Stroke>, st: Style, hypot: (real, real) -> real, radians: real -> real): seq<Command>
  {
    if strokes == [] then []
    else StrokesCommands(strokes[..|strokes| - 1], st, hypot, radians) + StrokeCommands(strokes[|strokes| - 1], st, hypot, radians)
  }

  lemma StrokesCommandsSnoc(strokes: seq<Stroke>, i: nat, st: Style, hypot: (real, real) -> real, radians: real -> real)
    requires i < |strokes|
    ensures StrokesCommands(strokes[..i + 1], st, hypot, radians) ==
            StrokesCommands(strokes[..i], st, hypot, radians) + StrokeCommands(strokes[i], st, hypot, radians)
  {
    assert strokes[..i + 1][..i] == strokes[..i];
  }

  /** Painting a concatenation paints the first list and then the second. */
  lemma {:induction false} StrokesCommandsAppend(a: seq<Stroke>, b: seq<Stroke>, st: Style, hypot: (real, real) -> real, radians: real -> real)
    ensures StrokesCommands(a + b, st, hypot, radians) == StrokesCommands(a, st, hypot, radians) + StrokesCommands(b, st, hypot, radians)
    decreases |b|
  {
    if b == [] {
      assert a + b == a;
    } else {
      var b' := b[..|b| - 1];
      var one := StrokeCommands(b[|b| - 1], st, hypot, radians);
      assert (a + b)[..|a + b| - 1] == a + b';
      assert (a + b)[|a + b| - 1] == b[|b| - 1];
      assert StrokesCommands(a + b, st, hypot, radians) == StrokesCommands(a + b', st, hypot, radians) + one;
      StrokesCommandsAppend(a, b', st, hypot, radians);
      AppendAssoc(StrokesCommands(a, st, hypot, radians), StrokesCommands(b', st, hypot, radians), one);
    }
  }

  /** One step of the forEach below: draws strokes[i] after the strokes before it. */
  method DrawStrokeAt(ctx: Surface, strokes: seq<Stroke>, i: nat, hypot: (real, real) -> real, radians: real -> real, ghost base: seq<Command>)
    requires i < |strokes|
    requires ctx.log == base + StrokesCommands(strokes[..i], ctx.style, hypot, radians)
    modifies ctx
    ensures ctx.style == old(ctx.style) && ctx.saved == old(ctx.saved)
    ensures ctx.log == base + StrokesCommands(strokes[..i + 1], ctx.style, hypot, radians)
  {
    ghost var st := ctx.style;
    ghost var prefix := StrokesCommands(strokes[..i], st, hypot, radians);
    ghost var one := StrokeCommands(strokes[i], st, hypot, radians);
    StrokesCommandsSnoc(strokes, i, st, hypot, radians);
    DrawStroke(ctx, strokes[i], hypot, radians);
    AppendAssoc(base, prefix, one);
  }

  /** `strokes.forEach(s => drawStroke(ctx, s))` */
  method DrawStrokes(ctx: Surface, strokes: seq<Stroke>, hypot: (real, real) -> real, radians: real -> real)
    modifies ctx
    ensures ctx.style == old(ctx.style) && ctx.saved == old(ctx.saved)
    ensures ctx.log == old(ctx.log) + StrokesCommands(strokes, old(ctx.style), hypot, radians)
  {
    ghost var st := ctx.style;
    var i := 0;
    while i < |strokes|
      invariant 0 <= i <= |strokes|
      invariant ctx.style == st && ctx.saved == old(ctx.saved)
      invariant ctx.log == old(ctx.log) + StrokesCommands(strokes[..i], st, hypot, radians)
    {
      DrawStrokeAt(ctx, strokes, i, hypot, radians, old(ctx.log));
      i := i + 1;
    }
    assert strokes[..i] == strokes;
  }
}
