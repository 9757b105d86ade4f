/**
 * The drawing stage of components/CanvasStage.tsx: mapping pointer events to
 * project coordinates, the pointer-capture state machine (idle, drawing,
 * panning), the per-layer canvases and the brush cursor.
 *
 * The component's state and refs are the fields of the class Stage; the
 * props (project, brush, colour, active layer and tool, zoom, pan) arrive
 * with every event. The two callbacks the handlers invoke, setPan and
 * onUpdateStrokes, are returned to the caller as optional values.
 */
module CanvasStage {
  import opened Types
  import opened JsBuiltins
  import opened Drawing

  /** The top-left corner of the canvas wrapper's bounding client rectangle. */
  datatype Rect = Rect(left: real, top: real)

  /** The props the handlers read. */
  datatype Props = Props(
    project: Project,
    activeBrush: Brush,
    activeColor: string,
    activeLayerId: string,
    activeTool: ToolType,
    zoom: real,
    pan: Vec)

  /** The component's state (isPointerDown, currentStroke, pointerPos) and refs. */
  datatype Capture = Capture(
    isPointerDown: bool,
    currentStroke: Option<Stroke>,
    pointerPos: Option<Vec>,
    isMiddleClickPanning: bool,
    startPanPos: Vec,
    startPointerPos: Vec)

  const Initial := Capture(false, None, None, false, Vec(0.0, 0.0), Vec(0.0, 0.0))

  /** The point returned when the position cannot be mapped. */
  function NaNPoint(now: int): Point {
    Point(NaN, NaN, 0.0, now)
  }

  // ---------------------------------------------------------------------
  // Screen to project coordinates
  // ---------------------------------------------------------------------

  /** getCanvasPoint: client position relative to the wrapper, divided by the zoom. */
  function GetCanvasPoint(e: PointerEvent, wrapper: Option<Rect>, zoom: real, now: int, pow07: real -> real): (r: Point)
    requires zoom > 0.0
    ensures r.timestamp == now
    ensures wrapper.None? ==> r == NaNPoint(now)
    ensures wrapper.Some? ==>
      && r.x == Finite((e.clientX - wrapper.value.left) / zoom)
      && r.y == Finite((e.clientY - wrapper.value.top) / zoom)
      && r.pressure == GetPressure(e, pow07)
  {
    if wrapper.None? then NaNPoint(now)
    else
      var rect := wrapper.value;
      var x := (e.clientX - rect.left) / zoom;
      var y := (e.clientY - rect.top) / zoom;
      Point(Finite(x), Finite(y), GetPressure(e, pow07), now)
  }

  /** Mapping back with the same zoom and rectangle recovers the client position. */
  lemma CanvasPointInverse(e: PointerEvent, rect: Rect, zoom: real, now: int, pow07: real -> real)
    requires zoom > 0.0
    ensures var p := GetCanvasPoint(e, Some(rect), zoom, now, pow07);
            p.x.Finite? && p.y.Finite? &&
            rect.left + p.x.value * zoom == e.clientX && rect.top + p.y.value * zoom == e.clientY
  {
  }

  // ---------------------------------------------------------------------
  // The capture state machine, as functions of the state
  // ---------------------------------------------------------------------

  /** `layers.find(l => l.id === id)` */
  function FindLayer(layers: seq<Layer>, id: string): (r: Option<Layer>)
    ensures r.Some? ==> r.value in layers && r.value.id == id
    ensures r.None? <==> forall l :: l in layers ==> l.id != id
  {
    if layers == [] then None
    else if layers[0].id == id then Some(layers[0])
    else FindLayer(layers[1..], id)
  }

  /** find returns the first layer with that id. */
  lemma {:induction false} FindLayerFirst(layers: seq<Layer>, id: string, k: nat)
    requires k < |layers| && layers[k].id == id
    requires forall j :: 0 <= j < k ==> layers[j].id != id
    ensures FindLayer(layers, id) == Some(layers[k])
  {
    if k > 0 {
      FindLayerFirst(layers[1..], id, k - 1);
    }
  }

  /** Drawing is refused on an active layer that is an image layer or locked. */
  predicate BlocksDrawing(layers: seq<Layer>, activeLayerId: string) {
    var a := FindLayer(layers, activeLayerId);
    a.Some? && (a.value.layerType == ImageLayer || a.value.isLocked)
  }

  /** The stroke pointer-down starts at the mapped point. */
  function NewStroke(tool: ToolType, brush: Brush, color: string, point: Point, layerId: string, now: nat): Stroke {
    Stroke("stroke-" + Decimal(now),
           if tool == Eraser then "eraser" else brush.id,
           if tool == Eraser then brush.settings.(opacity := 1.0) else brush.settings,
           color, [point], layerId)
  }

  /** Starting a pan (middle button or hand tool) from the current pointer and pan. */
  function StartPan(s: Capture, e: PointerEvent, pan: Vec): Capture {
    s.(startPointerPos := Vec(e.clientX, e.clientY), startPanPos := pan, isPointerDown := true)
  }

  /** handlePointerDown */
  function AfterDown(s: Capture, e: PointerEvent, props: Props, wrapper: Option<Rect>, now: nat, pow07: real -> real): (r: Capture)
    requires props.zoom > 0.0
    ensures e.button == 1 || props.activeTool == Hand ==>
      r.isPointerDown && r.startPointerPos == Vec(e.clientX, e.clientY) && r.startPanPos == props.pan && r.currentStroke == s.currentStroke
    ensures r.isMiddleClickPanning <==> e.button == 1 || s.isMiddleClickPanning
    ensures r.pointerPos == s.pointerPos
    ensures r.currentStroke != s.currentStroke ==>
      r.isPointerDown && r.currentStroke.Some? && |r.currentStroke.value.points| == 1 && r.currentStroke.value.layerId == props.activeLayerId
  {
    if e.button == 1 then StartPan(s, e, props.pan).(isMiddleClickPanning := true)
    else if props.activeTool == Hand then StartPan(s, e, props.pan)
    else if e.button != 0 then s
    else if BlocksDrawing(props.project.layers, props.activeLayerId) then s
    else
      var point := GetCanvasPoint(e, wrapper, props.zoom, now, pow07);
      if point.x.NaN? then s
      else s.(isPointerDown := true,
              currentStroke := Some(NewStroke(props.activeTool, props.activeBrush, props.activeColor, point, props.activeLayerId, now)))
  }

  /** The result of a pointer move: the new state and the pan passed to setPan, if any. */
  datatype MoveResult = MoveResult(state: Capture, setPan: Option<Vec>)

  predicate Panning(s: Capture, tool: ToolType) {
    tool == Hand || s.isMiddleClickPanning
  }

  /** handlePointerMove */
  function AfterMove(s: Capture, e: PointerEvent, props: Props, wrapper: Option<Rect>, now: nat, pow07: real -> real): (r: MoveResult)
    requires props.zoom > 0.0
    ensures r.state.pointerPos == Some(Vec(e.clientX, e.clientY))
    ensures r.setPan.Some? <==> s.isPointerDown && Panning(s, props.activeTool)
    ensures r.state.isPointerDown == s.isPointerDown && r.state.isMiddleClickPanning == s.isMiddleClickPanning
    ensures r.state.currentStroke != s.currentStroke ==>
      && s.currentStroke.Some? && r.state.currentStroke.Some?
      && |r.state.currentStroke.value.points| == |s.currentStroke.value.points| + 1
      && r.state.currentStroke.value.points[..|s.currentStroke.value.points|] == s.currentStroke.value.points
      && r.state.currentStroke.value == s.currentStroke.value.(points := r.state.currentStroke.value.points)
  {
    var s1 := s.(pointerPos := Some(Vec(e.clientX, e.clientY)));
    if !s.isPointerDown then MoveResult(s1, None)
    else if Panning(s, props.activeTool) then
      MoveResult(s1, Some(Vec(s.startPanPos.x + (e.clientX - s.startPointerPos.x),
                              s.startPanPos.y + (e.clientY - s.startPointerPos.y))))
    else if s.currentStroke.None? then MoveResult(s1, None)
    else
      var raw := GetCanvasPoint(e, wrapper, props.zoom, now, pow07);
      if raw.x.NaN? then MoveResult(s1, None)
      else
        var cs := s.currentStroke.value;
        var stabilized := StabilizePoint(cs.points, raw, props.activeBrush.settings.stabilization);
        MoveResult(s1.(currentStroke := Some(cs.(points := cs.points + [stabilized]))), None)
  }

  /** The result of a pointer up: the new state and the stroke list passed to onUpdateStrokes, if any. */
  datatype UpResult = UpResult(state: Capture, committed: Option<seq<Stroke>>)

  /** handlePointerUp */
  function AfterUp(s: Capture, project: Project): (r: UpResult)
    ensures r.state.currentStroke.None? && !r.state.isPointerDown && !r.state.isMiddleClickPanning
    ensures r.state.pointerPos == s.pointerPos
    ensures r.committed.Some? <==> s.currentStroke.Some? && |s.currentStroke.value.points| > 0
    ensures r.committed.Some? ==>
      && |r.committed.value| == |project.strokes| + 1
      && r.committed.value[..|project.strokes|] == project.strokes
      && r.committed.value[|project.strokes|] == s.currentStroke.value
  {
    var committed := if s.currentStroke.Some? && |s.currentStroke.value.points| > 0
                     then Some(project.strokes + [s.currentStroke.value]) else None;
    UpResult(s.(currentStroke := None, isPointerDown := false, isMiddleClickPanning := false), committed)
  }

  /** The pointer-leave handler: pointer up, then the cursor position is forgotten. */
  function AfterLeave(s: Capture, project: Project): (r: UpResult)
    ensures r.state.pointerPos.None? && r.state.currentStroke.None? && !r.state.isPointerDown && !r.state.isMiddleClickPanning
    ensures r.committed == AfterUp(s, project).committed
  {
    var up := AfterUp(s, project);
    up.(state := up.state.(pointerPos := None))
  }

  // ---------------------------------------------------------------------
  // Properties of the state machine
  // ---------------------------------------------------------------------

  /** Pointer-down starts a stroke exactly for the primary button with a drawing tool on an unblocked layer and a mounted wrapper; otherwise the stroke is left as it was. */
  lemma DownStartsStroke(s: Capture, e: PointerEvent, props: Props, wrapper: Option<Rect>, now: nat, pow07: real -> real)
    requires props.zoom > 0.0
    ensures var r := AfterDown(s, e, props, wrapper, now, pow07);
      var starts := e.button == 0 && props.activeTool != Hand && wrapper.Some? &&
                    !BlocksDrawing(props.project.layers, props.activeLayerId);
      && (starts ==> r.currentStroke == Some(NewStroke(props.activeTool, props.activeBrush, props.activeColor,
                                                      GetCanvasPoint(e, wrapper, props.zoom, now, pow07), props.activeLayerId, now))
                     && r.isPointerDown)
      && (!starts ==> r.currentStroke == s.currentStroke)
  {
  }

  /** A new stroke holds exactly the mapped point and targets the active layer; the eraser forces opacity 1 and its own id. */
  lemma NewStrokeFields(tool: ToolType, brush: Brush, color: string, point: Point, layerId: string, now: nat)
    ensures var r := NewStroke(tool, brush, color, point, layerId, now);
      && r.points == [point] && r.layerId == layerId && r.color == color
      && r.id == "stroke-" + Decimal(now)
      && (tool == Eraser ==> r.brushId == "eraser" && r.brushSettings == brush.settings.(opacity := 1.0))
      && (tool != Eraser ==> r.brushId == brush.id && r.brushSettings == brush.settings)
  {
  }

  /** While drawing, a move appends exactly one stabilised point and keeps every earlier point. */
  lemma MoveAppendsOnePoint(s: Capture, e: PointerEvent, props: Props, rect: Rect, now: nat, pow07: real -> real)
    requires props.zoom > 0.0
    requires s.isPointerDown && !Panning(s, props.activeTool) && s.currentStroke.Some?
    ensures var r := AfterMove(s, e, props, Some(rect), now, pow07);
      var old_ := s.currentStroke.value;
      var raw := GetCanvasPoint(e, Some(rect), props.zoom, now, pow07);
      && r.setPan.None?
      && r.state.currentStroke.Some?
      && r.state.currentStroke.value == old_.(points := r.state.currentStroke.value.points)
      && |r.state.currentStroke.value.points| == |old_.points| + 1
      && r.state.currentStroke.value.points[..|old_.points|] == old_.points
      && r.state.currentStroke.value.points[|old_.points|] == StabilizePoint(old_.points, raw, props.activeBrush.settings.stabilization)
  {
    var r := AfterMove(s, e, props, Some(rect), now, pow07);
    var old_ := s.currentStroke.value;
    assert r.state.currentStroke.value.points[..|old_.points|] == old_.points;
  }

  /** A move with the pointer up, or with an unmappable position, changes nothing but the cursor position. */
  lemma MoveIgnored(s: Capture, e: PointerEvent, props: Props, wrapper: Option<Rect>, now: nat, pow07: real -> real)
    requires props.zoom > 0.0
    requires !s.isPointerDown || (!Panning(s, props.activeTool) && (s.currentStroke.None? || wrapper.None?))
    ensures AfterMove(s, e, props, wrapper, now, pow07) == MoveResult(s.(pointerPos := Some(Vec(e.clientX, e.clientY))), None)
  {
  }

  /** While panning, the new pan is the start pan plus the pointer's displacement and the stroke is not touched. */
  lemma MovePans(s: Capture, e: PointerEvent, props: Props, wrapper: Option<Rect>, now: nat, pow07: real -> real)
    requires props.zoom > 0.0
    requires s.isPointerDown && Panning(s, props.activeTool)
    ensures var r := AfterMove(s, e, props, wrapper, now, pow07);
      && r.state.currentStroke == s.currentStroke
      && r.setPan == Some(Vec(s.startPanPos.x + (e.clientX - s.startPointerPos.x),
                              s.startPanPos.y + (e.clientY - s.startPointerPos.y)))
      && r.setPan.value.x - s.startPanPos.x == e.clientX - s.startPointerPos.x
      && r.setPan.value.y - s.startPanPos.y == e.clientY - s.startPointerPos.y
  {
  }

  /** Pointer-down to start a pan records the current pan and pointer, so a move back to the same spot restores the pan. */
  lemma PanRoundTrip(s: Capture, down: PointerEvent, move: PointerEvent, props: Props, wrapper: Option<Rect>, now: nat, pow07: real -> real)
    requires props.zoom > 0.0
    requires down.button == 1 || props.activeTool == Hand
    requires move.clientX == down.clientX && move.clientY == down.clientY
    ensures AfterMove(AfterDown(s, down, props, wrapper, now, pow07), move, props, wrapper, now, pow07).setPan == Some(props.pan)
  {
  }

  /** Pointer-up always returns to idle, and commits the project's strokes plus the live stroke exactly when one with a point exists. */
  lemma UpCommits(s: Capture, project: Project)
    ensures var r := AfterUp(s, project);
      && r.state.currentStroke.None? && !r.state.isPointerDown && !r.state.isMiddleClickPanning
      && r.state.pointerPos == s.pointerPos
      && (r.committed.Some? <==> s.currentStroke.Some? && |s.currentStroke.value.points| >= 1)
      && (r.committed.Some? ==> r.committed.value == project.strokes + [s.currentStroke.value])
  {
  }

  /** Pointer-leave makes the same transition and the same commit as pointer-up. */
  lemma LeaveIsUp(s: Capture, project: Project)
    ensures AfterLeave(s, project).committed == AfterUp(s, project).committed
    ensures AfterLeave(s, project).state == AfterUp(s, project).state.(pointerPos := None)
  {
  }

  /** Committing is append-only: the committed list keeps the project's strokes in front, and only the live stroke's layer gains it. */
  lemma CommitAppendsToLayer(s: Capture, project: Project, layerId: string)
    requires AfterUp(s, project).committed.Some?
    ensures var c := AfterUp(s, project).committed.value;
      var st := s.currentStroke.value;
      && c[..|project.strokes|] == project.strokes
      && LayerStrokes(c, layerId) == LayerStrokes(project.strokes, layerId) + (if st.layerId == layerId then [st] else [])
  {
    var c := AfterUp(s, project).committed.value;
    assert c[..|project.strokes|] == project.strokes;
    AppendedStrokeLayer(project.strokes, s.currentStroke.value, layerId);
  }

  /** The states the handlers reach: a live stroke only while the pointer is down, and never empty. */
  predicate Reachable(s: Capture) {
    s.currentStroke.Some? ==> s.isPointerDown && |s.currentStroke.value.points| >= 1
  }

  /** Every handler keeps the state reachable. */
  lemma ReachablePreserved(s: Capture, e: PointerEvent, props: Props, wrapper: Option<Rect>, now: nat, pow07: real -> real)
    requires props.zoom > 0.0 && Reachable(s)
    ensures Reachable(AfterDown(s, e, props, wrapper, now, pow07))
    ensures Reachable(AfterMove(s, e, props, wrapper, now, pow07).state)
    ensures Reachable(AfterUp(s, props.project).state)
    ensures Reachable(AfterLeave(s, props.project).state)
  {
  }

  /** In a reachable state pointer-up commits exactly when a stroke is live. */
  lemma ReachableUpCommits(s: Capture, project: Project)
    requires Reachable(s)
    ensures AfterUp(s, project).committed.Some? <==> s.currentStroke.Some?
  {
  }

  // ---------------------------------------------------------------------
  // The component's state and handlers
  // ---------------------------------------------------------------------

  class Stage {
    var isPointerDown: bool
    var currentStroke: Option<Stroke>
    var pointerPos: Option<Vec>
    var isMiddleClickPanning: bool
    var startPanPos: Vec
    var startPointerPos: Vec

    function State(): Capture
      reads this
    {
      Capture(isPointerDown, currentStroke, pointerPos, isMiddleClickPanning, startPanPos, startPointerPos)
    }

    constructor ()
      ensures State() == Initial
    {
      isPointerDown := false;
      currentStroke := None;
      pointerPos := None;
      isMiddleClickPanning := false;
      startPanPos := Vec(0.0, 0.0);
      startPointerPos := Vec(0.0, 0.0);
    }

    method PointerDown(e: PointerEvent, props: Props, wrapper: Option<Rect>, now: nat, pow07: real -> real)
      requires props.zoom > 0.0
      modifies this
      ensures State() == AfterDown(old(State()), e, props, wrapper, now, pow07)
    {
      if e.button == 1 {
        isMiddleClickPanning := true;
        startPointerPos := Vec(e.clientX, e.clientY);
        startPanPos := props.pan;
        isPointerDown := true;
        return;
      }
      if props.activeTool == Hand {
        startPointerPos := Vec(e.clientX, e.clientY);
        startPanPos := props.pan;
        isPointerDown := true;
        return;
      }
      if e.button != 0 {
        return;
      }
      var activeLayer := FindLayer(props.project.layers, props.activeLayerId);
      if activeLayer.Some? && (activeLayer.value.layerType == ImageLayer || activeLayer.value.isLocked) {
        return;
      }
      var point := GetCanvasPoint(e, wrapper, props.zoom, now, pow07);
      if point.x.NaN? {
        return;
      }
      isPointerDown := true;
      var newStroke := Stroke(
        "stroke-" + Decimal(now),
        if props.activeTool == Eraser then "eraser" else props.activeBrush.id,
        if props.activeTool == Eraser then props.activeBrush.settings.(opacity := 1.0) else props.activeBrush.settings,
        props.activeColor,
        [point],
        props.activeLayerId);
      currentStroke := Some(newStroke);
    }

    method PointerMove(e: PointerEvent, props: Props, wrapper: Option<Rect>, now: nat, pow07: real -> real) returns (setPan: Option<Vec>)
      requires props.zoom > 0.0
      modifies this
      ensures State() == AfterMove(old(State()), e, props, wrapper, now, pow07).state
      ensures setPan == AfterMove(old(State()), e, props, wrapper, now, pow07).setPan
    {
      setPan := None;
      pointerPos := Some(Vec(e.clientX, e.clientY));
      if !isPointerDown {
        return;
      }
      if props.activeTool == Hand || isMiddleClickPanning {
        var dx := e.clientX - startPointerPos.x;
        var dy := e.clientY - startPointerPos.y;
        setPan := Some(Vec(startPanPos.x + dx, startPanPos.y + dy));
        return;
      }
      if currentStroke.None? {
        return;
      }
      var rawPoint := GetCanvasPoint(e, wrapper, props.zoom, now, pow07);
      if rawPoint.x.NaN? {
        return;
      }
      var stabilized := StabilizePoint(currentStroke.value.points, rawPoint, props.activeBrush.settings.stabilization);
      var prev := currentStroke.value;
      currentStroke := Some(prev.(points := prev.points + [stabilized]));
    }

    method PointerUp(project: Project) returns (committed: Option<seq<Stroke>>)
      modifies this
      ensures State() == AfterUp(old(State()), project).state
      ensures committed == AfterUp(old(State()), project).committed
    {
      committed := None;
      if currentStroke.Some? && |currentStroke.value.points| > 0 {
        committed := Some(project.strokes + [currentStroke.value]);
      }
      currentStroke := None;
      isPointerDown := false;
      isMiddleClickPanning := false;
    }

    method PointerLeave(project: Project) returns (committed: Option<seq<Stroke>>)
      modifies this
      ensures State() == AfterLeave(old(State()), project).state
      ensures committed == AfterLeave(old(State()), project).committed
    {
      committed := PointerUp(project);
      pointerPos := None;
    }

    method PointerEnter(e: PointerEvent)
      modifies this
      ensures State() == old(State()).(pointerPos := Some(Vec(e.clientX, e.clientY)))
    {
      pointerPos := Some(Vec(e.clientX, e.clientY));
    }
  }

  // ---------------------------------------------------------------------
  // Layer canvases
  // ---------------------------------------------------------------------

  /** The image a layer canvas has loaded: only image layers with a url that loads. */
  function LoadedImage(layer: Layer, loads: string -> bool): (r: Option<string>)
    ensures r.Some? <==> layer.layerType == ImageLayer && Truthy(layer.imageUrl) && loads(layer.imageUrl.value)
    ensures r.Some? ==> r == layer.imageUrl
  {
    if layer.layerType == ImageLayer && Truthy(layer.imageUrl) && loads(layer.imageUrl.value) then layer.imageUrl else None
  }

  /** What a layer canvas paints: its loaded image, the live stroke for a preview canvas, or the strokes of its layer. */
  function LayerCanvasCommands(layer: Layer, project: Project, loadedImage: Option<string>, isTemp: bool, tempStroke: Option<Stroke>,
                               hypot: (real, real) -> real, radians: real -> real): seq<Command>
  {
    if layer.layerType == ImageLayer then
      if loadedImage.Some? then [Draw(Picture(loadedImage.value, project.width, project.height), DefaultStyle)] else []
    else if isTemp then
      if tempStroke.Some? then StrokeCommands(tempStroke.value, DefaultStyle, hypot, radians) else []
    else StrokesCommands(LayerStrokes(project.strokes, layer.id), DefaultStyle, hypot, radians)
  }

  /** The effect that redraws a layer canvas; resizing the canvas resets its context. */
  method RenderLayerCanvas(layer: Layer, project: Project, loadedImage: Option<string>, isTemp: bool, tempStroke: Option<Stroke>,
                           hypot: (real, real) -> real, radians: real -> real) returns (log: seq<Command>)
    ensures log == LayerCanvasCommands(layer, project, loadedImage, isTemp, tempStroke, hypot, radians)
  {
    var ctx := new Surface();
    ctx.Save();
    if layer.layerType == ImageLayer {
      if loadedImage.Some? {
        ctx.Paint(Picture(loadedImage.value, project.width, project.height));
      }
    } else {
      if isTemp {
        if tempStroke.Some? {
          DrawStroke(ctx, tempStroke.value, hypot, radians);
        }
      } else {
        var layerStrokes := LayerStrokes(project.strokes, layer.id);
        DrawStrokes(ctx, layerStrokes, hypot, radians);
      }
    }
    ctx.Restore();
    log := ctx.log;
  }

  /** A drawing layer's canvas paints exactly one stroke's commands per stroke of that layer, in list order; strokes of other layers leave it alone. */
  lemma LayerCanvasAfterCommit(layer: Layer, project: Project, s: Stroke, hypot: (real, real) -> real, radians: real -> real)
    requires layer.layerType == DrawingLayer
    ensures LayerCanvasCommands(layer, project.(strokes := project.strokes + [s]), None, false, None, hypot, radians) ==
      LayerCanvasCommands(layer, project, None, false, None, hypot, radians) +
      (if s.layerId == layer.id then StrokeCommands(s, DefaultStyle, hypot, radians) else [])
  {
    AppendedStrokeLayer(project.strokes, s, layer.id);
    var before := LayerStrokes(project.strokes, layer.id);
    var added: seq<Stroke> := if s.layerId == layer.id then [s] else [];
    StrokesCommandsAppend(before, added, DefaultStyle, hypot, radians);
    assert StrokesCommands([], DefaultStyle, hypot, radians) == [];
    if s.layerId == layer.id {
      assert StrokesCommands([s], DefaultStyle, hypot, radians) == StrokesCommands([], DefaultStyle, hypot, radians) + StrokeCommands(s, DefaultStyle, hypot, radians);
    }
  }

  /** The CSS opacity of a layer canvas. */
  function DisplayedOpacity(layer: Layer): (r: real)
    ensures !layer.isVisible ==> r == 0.0
    ensures layer.isVisible ==> r == layer.opacity
  {
    if layer.isVisible then layer.opacity else 0.0
  }

  /** A canvas of the stage: a layer's own canvas, or the preview canvas of the live stroke above it. */
  datatype CanvasView = LayerView(layer: Layer, opacity: real, blendMode: string) | PreviewView(layer: Layer, stroke: Stroke)

  /** The canvases the stage renders, layer by layer, in stored order. */
  function StageCanvases(layers: seq<Layer>, activeLayerId: string, currentStroke: Option<Stroke>): (r: seq<CanvasView>)
  {
    if layers == [] then []
    else
      var l := layers[0];
      var own := [LayerView(l, DisplayedOpacity(l), l.blendMode)];
      var preview := if activeLayerId == l.id && currentStroke.Some? && l.layerType == DrawingLayer
                     then [PreviewView(l, currentStroke.value)] else [];
      own + preview + StageCanvases(layers[1..], activeLayerId, currentStroke)
  }

  /** A preview canvas is shown only for the active drawing layer while a stroke is live, and then it is shown. */
  lemma {:induction false} PreviewOnlyOnActiveLayer(layers: seq<Layer>, activeLayerId: string, currentStroke: Option<Stroke>)
    ensures forall c :: c in StageCanvases(layers, activeLayerId, currentStroke) && c.PreviewView? ==>
      currentStroke == Some(c.stroke) && c.layer.id == activeLayerId && c.layer.layerType == DrawingLayer && c.layer in layers
    ensures currentStroke.Some? ==> forall l :: l in layers && l.id == activeLayerId && l.layerType == DrawingLayer ==>
      PreviewView(l, currentStroke.value) in StageCanvases(layers, activeLayerId, currentStroke)
  {
    if layers != [] {
      PreviewOnlyOnActiveLayer(layers[1..], activeLayerId, currentStroke);
      var rest := StageCanvases(layers[1..], activeLayerId, currentStroke);
      var all := StageCanvases(layers, activeLayerId, currentStroke);
      assert forall c :: c in rest ==> c in all;
      assert forall l :: l in layers[1..] ==> l in layers;
      assert forall l :: l in layers ==> l == layers[0] || l in layers[1..];
    }
  }

  /** There is one own canvas per layer, in the layers' order. */
  lemma {:induction false} OneCanvasPerLayer(layers: seq<Layer>, activeLayerId: string, currentStroke: Option<Stroke>)
    ensures |StageCanvases(layers, activeLayerId, currentStroke)| >= |layers|
    ensures currentStroke.None? ==>
      |StageCanvases(layers, activeLayerId, currentStroke)| == |layers| &&
      forall k :: 0 <= k < |layers| ==>
        StageCanvases(layers, activeLayerId, currentStroke)[k] == LayerView(layers[k], DisplayedOpacity(layers[k]), layers[k].blendMode)
  {
    if layers != [] {
      OneCanvasPerLayer(layers[1..], activeLayerId, currentStroke);
    }
  }

  // ---------------------------------------------------------------------
  // The brush cursor
  // ---------------------------------------------------------------------

  /** The cursor ellipse: centre, width, height and rotation in degrees, and whether it has the eraser tint. */
  datatype Cursor = Cursor(left: real, top: real, width: real, height: real, angle: real, eraserTint: bool)

  function BrushCursor(pos: Option<Vec>, brush: Brush, zoom: real, tool: ToolType): (r: Option<Cursor>)
    ensures r.None? <==> pos.None? || tool == Hand
    ensures r.Some? ==> r.value.left == pos.value.x && r.value.top == pos.value.y && r.value.angle == brush.settings.angle
    ensures r.Some? ==> r.value.height >= 1.0 && (r.value.eraserTint <==> tool == Eraser)
    ensures r.Some? ==> r.value.width == brush.settings.size * zoom
    ensures r.Some? ==> r.value.height == Max(1.0, brush.settings.size * zoom * (brush.settings.roundness / 100.0))
  {
    if pos.None? || tool == Hand then None
    else
      var scaledSize := brush.settings.size * zoom;
      var scaledHeight := Max(1.0, scaledSize * (brush.settings.roundness / 100.0));
      Some(Cursor(pos.value.x, pos.value.y, scaledSize, scaledHeight, brush.settings.angle, tool == Eraser))
  }

  /** For a round brush the cursor is a circle of the zoomed size once that size is at least one pixel. */
  lemma RoundBrushCursor(pos: Vec, brush: Brush, zoom: real, tool: ToolType)
    requires tool != Hand && brush.settings.roundness == 100.0 && brush.settings.size * zoom >= 1.0
    ensures var c := BrushCursor(Some(pos), brush, zoom, tool).value;
            c.width == brush.settings.size * zoom && c.height == c.width
  {
  }
}
