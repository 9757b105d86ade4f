# mihbara drawing core in Dafny

Mihbara is a browser drawing application. A project is a canvas of a
given size holding an ordered list of layers: drawing layers and image
layers. Each project also has one list of strokes, and every stroke names the
layer it belongs to. This model covers the application's core:

- **Stroke rendering** (`drawing.dfy`).
  - Pressure comes from a pointer event.
  - Input is stabilised by interpolating toward the last point.
  - A stroke is painted in one of two modes. Calligraphy mode paints rotated
    elliptical stamps and fills the gaps between points with synthetic
    stamps. Round-pen mode paints segments, or a dot for a single point.
  - The 2D canvas is a `Surface` class: a drawing state, a save stack, and a
    log of painted shapes.
- **The canvas stage** (`canvas_stage.dfy`): the pointer-down, move, up,
  leave and enter handlers as a `Stage` class. Also the way client
  coordinates map to canvas coordinates, panning, what each layer canvas
  shows, and the brush cursor.
- **The application state** (`app.dfy`), as an `AppState` class with these
  parts:
  - the project list;
  - per-project undo/redo stacks, the undo stack capped at 50 entries;
  - layer insertion, removal and editing;
  - project creation and deletion;
  - zoom and fit-to-view;
  - the space-bar hand tool;
  - PNG export, which composites every visible layer.
- **The control panel** (`control_panel.dfy`):
  - brush-settings updates that rescale the size range;
  - brush-file import;
  - the two brush preview canvases;
  - the orientation of the PDF page.
- **Brush sharing** (`brush_utils.dfy` with `web_codecs.dfy`).
  - A share link is `btoa(encodeURIComponent(JSON.stringify(brush)))`.
  - Decoding a link reverses those steps.
  - An export file is named after the brush.
  - UTF-8, percent-encoding and RFC 4648 Base64 are modelled exactly
    enough to prove the round trip, including the error paths of `atob` and
    `decodeURIComponent`.
- **The new-canvas dialog** (`project_modal.dfy`) and the **built-in
  tables** (`constants.dfy`): blend modes, textures, canvas presets, and the
  default and library brushes.

`types.dfy` holds the entities of `types.ts` and the small JavaScript
built-ins the code relies on.

Floating point is modelled with exact reals. A coordinate is either a finite
number or NaN, which is the only non-finite value the stage produces. Math
functions and clocks become parameters: `Math.hypot`, degree-to-radian
conversion, `Math.pow(p, 0.7)`, `sin(t*π)` and `Date.now()`. So
do `JSON.stringify` and `JSON.parse`, and whether an image URL loads.

## Model

| member | source | states |
|---|---|---|
| Drawing.GetPressure | utils/drawingUtils.ts:4-8 | A mouse gives 0.5. Any other pointer gives pow07 of the first truthy value among pressure, force and 0.5. |
| Drawing.StabilizePoint | utils/drawingUtils.ts:10-25 | With no prior points or a strength of at most 0 the raw point is returned. The timestamp is always the raw point's. |
| Drawing.LerpFactorRange | utils/drawingUtils.ts:14-16 | For a positive strength the interpolation factor lies in [0.02, 1]. From the fifth point on it is 1 - min(0.98, 0.9·strength). Before that, a boost of 0.1 per missing point is added, capped at 1. |
| Drawing.LerpFactorMonotone | utils/drawingUtils.ts:14-16 | Once the start boost is over, a stronger stabilisation never gives a larger factor. |
| Drawing.StabilizeNoOvershoot | utils/drawingUtils.ts:18-24 | x, y and pressure of the stabilised point each lie between the last point's value and the raw value. |
| Drawing.StabilizeReadsOnlyLast | utils/drawingUtils.ts:10-25 | Two histories with the same length and the same last point give the same stabilised point. |
| Drawing.DynamicSizeBounds | utils/drawingUtils.ts:79-81 | For a pressure in [0, 1] the pressure-sensitive nib size lies between minSize and maxSize. |
| Drawing.StampShape | utils/drawingUtils.ts:36-42 | The stamp is an ellipse centred at the point with x-radius size/2, rotated by the nib angle. Its other radius is at least 0.4. |
| Drawing.Surface.Save | utils/drawingUtils.ts:38 | The current state is pushed on the save stack; state and log are kept. |
| Drawing.Surface.Restore | utils/drawingUtils.ts:44 | A non-empty stack is popped into the current state; an empty one changes nothing. The log is kept. |
| Drawing.Surface.SetGlobalAlpha | utils/drawingUtils.ts:61 | Only the alpha changes, by the canvas rule for out-of-range values. |
| Drawing.Surface.SetCompositeOp | utils/drawingUtils.ts:63-68 | Only the composite operation changes, by the canvas rule for unknown names. |
| Drawing.Surface.SetColor | utils/drawingUtils.ts:70-71 | Only the colour changes, to the argument. |
| Drawing.Surface.SetLineWidth | utils/drawingUtils.ts:113 | A positive width is taken and zero or negative ones are ignored; nothing else changes. |
| Drawing.Surface.ClearRect | components/CanvasStage.tsx:68 | The log is emptied; state and save stack are kept. |
| Drawing.Surface.Paint | utils/drawingUtils.ts:43 | The shape is appended to the log under the current state, which is kept. |
| Drawing.InterpStamps | utils/drawingUtils.ts:90-99 | The stamps for s = 1 .. upTo - 1 number upTo - 1, and there are none when upTo <= 1 or steps <= 0. |
| Drawing.DrawCalligraphyStamp | utils/drawingUtils.ts:28-45 | Appends exactly one filled ellipse, under the current state, and leaves the drawing state and save stack as they were. |
| Drawing.DrawGap | utils/drawingUtils.ts:90-99 | The loop appends the stamps s = 1 .. steps - 1 in order, and nothing else. |
| Drawing.DrawPoint | utils/drawingUtils.ts:78-100 | One iteration appends point i's own stamp, then the stamps of the gap from point i - 1. |
| Drawing.DrawCalligraphyPoints | utils/drawingUtils.ts:76-101 | The outer loop appends every point's contribution, in point order. |
| Drawing.DrawRoundPen | utils/drawingUtils.ts:103-126 | Appends the segments joining consecutive points when there are two or more, or the one dot of a single point. Alpha, operation, colour and save stack are kept. |
| Drawing.DrawStroke | utils/drawingUtils.ts:47-129 | Appends exactly StrokeCommands of the stroke under the entry state, which is nothing for an empty stroke or one with a NaN coordinate. The drawing state and save stack are restored. |
| Drawing.StrokeCommandsStyle | utils/drawingUtils.ts:59-71 | Every command of a stroke has alpha equal to the brush opacity, with 0 read as 1. The operation is destination-out for the eraser and source-over otherwise. The colour is the stroke's. |
| Drawing.CalligraphyStyle | utils/drawingUtils.ts:73-101 | Every command of a calligraphy stroke is an ellipse with minor radius at least 0.4 under the stroke's state. |
| Drawing.CalligraphyCount | utils/drawingUtils.ts:77-101 | A calligraphy stroke paints one stamp per point plus the gap stamps, and nothing else. |
| Drawing.CalligraphyOwnStamp | utils/drawingUtils.ts:78-83 | Point i's stamp is centred at point i, sized for its pressure, and comes right after everything painted for the earlier points. |
| Drawing.RoundPenSegments | utils/drawingUtils.ts:105-117 | A round-pen stroke of n >= 2 points is exactly n - 1 segments. Each joins consecutive points with width max(0.1, size). |
| Drawing.RoundPenDot | utils/drawingUtils.ts:118-126 | A one-point round-pen stroke is a single dot of radius max(0.1, size/2) at that point. |
| Drawing.RenderTwice | utils/drawingUtils.ts:47-129 | Rendering the same stroke on two fresh surfaces gives the same log, which is StrokeCommands under the default state. |
| Drawing.LayerStrokes | components/CanvasStage.tsx:81 | A stroke is in the filtered list exactly when it is in the list and belongs to that layer. |
| Drawing.LayerStrokesAppend | components/CanvasStage.tsx:81 | Filtering distributes over concatenation. |
| Drawing.AppendedStrokeLayer | components/CanvasStage.tsx:81 | Appending a stroke extends its own layer's list by that stroke and leaves every other layer's list alone. |
| Drawing.StrokesCommandsAppend | components/CanvasStage.tsx:82-84 | Painting a concatenation of stroke lists paints the first list, then the second. |
| Drawing.DrawStrokes | components/CanvasStage.tsx:82-84 | The forEach loop appends each stroke's commands in list order and restores the drawing state. |
| CanvasStage.GetCanvasPoint | components/CanvasStage.tsx:156-180 | With no wrapper the point is NaN with pressure 0. Otherwise it is the client position minus the rectangle's corner, divided by the zoom, with the event's pressure. The timestamp is the clock's. |
| CanvasStage.CanvasPointInverse | components/CanvasStage.tsx:163-168 | Multiplying by the zoom and adding the corner recovers the client position. |
| CanvasStage.FindLayer | components/CanvasStage.tsx:201 | A found layer is in the list and has the id. The result is None exactly when no layer has the id. |
| CanvasStage.FindLayerFirst | components/CanvasStage.tsx:201 | find returns the first layer with the id. |
| CanvasStage.DownStartsStroke | components/CanvasStage.tsx:182-223 | Pointer-down starts the new stroke at the mapped point exactly when all of these hold: the primary button, a tool other than the hand, a mounted wrapper, and an active layer that is neither an image nor locked. In every other case the live stroke is left as it was. |
| CanvasStage.NewStrokeFields | components/CanvasStage.tsx:211-220 | The new stroke holds just the mapped point and targets the active layer. The eraser gets brush id "eraser" and opacity 1. |
| CanvasStage.MoveAppendsOnePoint | components/CanvasStage.tsx:240-250 | While drawing, a move appends exactly the stabilised point and keeps the earlier points. |
| CanvasStage.MoveIgnored | components/CanvasStage.tsx:226-243 | With the pointer up, or an unmappable position, a move changes only the cursor position. |
| CanvasStage.MovePans | components/CanvasStage.tsx:230-237 | While panning, the new pan is the start pan plus the pointer's displacement. The stroke is untouched. |
| CanvasStage.PanRoundTrip | components/CanvasStage.tsx:186-194 | After a pan starts, moving back to the start pointer gives back the pan it started from. |
| CanvasStage.UpCommits | components/CanvasStage.tsx:253-260 | Pointer-up returns to idle. It commits the project's strokes plus the live stroke exactly when a live stroke with points exists. |
| CanvasStage.LeaveIsUp | components/CanvasStage.tsx:291 | Pointer-leave makes the same transition and commit as pointer-up, and forgets the cursor. |
| CanvasStage.CommitAppendsToLayer | components/CanvasStage.tsx:255 | The committed list keeps the old strokes in front. Only the live stroke's layer gains a stroke. |
| CanvasStage.ReachablePreserved | components/CanvasStage.tsx:182-260 | Every handler keeps the invariant that a live stroke exists only while the pointer is down and is never empty. |
| CanvasStage.ReachableUpCommits | components/CanvasStage.tsx:253-256 | In a reachable state pointer-up commits exactly when a stroke is live. |
| CanvasStage.Stage.PointerDown | components/CanvasStage.tsx:182-223 | The handler's new state is the down transition of the old one. |
| CanvasStage.Stage.PointerMove | components/CanvasStage.tsx:225-251 | The new state and the setPan argument are the move transition's. |
| CanvasStage.Stage.PointerUp | components/CanvasStage.tsx:253-260 | The new state and the committed stroke list are the up transition's. |
| CanvasStage.Stage.PointerLeave | components/CanvasStage.tsx:291 | The new state and the committed list are the leave transition's: pointer-up, then the cursor position is cleared. |
| CanvasStage.Stage.PointerEnter | components/CanvasStage.tsx:292 | Sets the cursor position and changes nothing else. |
| CanvasStage.AfterDown | components/CanvasStage.tsx:182-223 | The middle button or the hand tool starts a pan from the pointer and the current pan, keeping the stroke. Middle-click panning is set exactly by the middle button. A changed stroke is a new one-point stroke on the active layer with the pointer down. The cursor position is kept. |
| CanvasStage.AfterMove | components/CanvasStage.tsx:225-251 | The cursor follows the pointer. setPan is called exactly while a pan is in progress. The down and panning flags are kept, and a changed stroke is the old one with one point appended. |
| CanvasStage.AfterUp | components/CanvasStage.tsx:253-260 | The stroke is cleared and both flags drop. A list is committed exactly when the live stroke has a point, and it is the project's strokes followed by that stroke. |
| CanvasStage.AfterLeave | components/CanvasStage.tsx:291 | As pointer-up, and the cursor position is also cleared. |
| CanvasStage.LoadedImage | components/CanvasStage.tsx:35-47 | A layer has a loaded image exactly when it is an image layer with a url that loads, and the image is that url. |
| CanvasStage.RenderLayerCanvas | components/CanvasStage.tsx:50-88 | The redraw effect's log is LayerCanvasCommands: the cleared canvas, then the loaded image, the live stroke for a preview canvas, or the layer's strokes. |
| CanvasStage.LayerCanvasAfterCommit | components/CanvasStage.tsx:81-84 | After a commit, a drawing layer's canvas paints its old strokes and then the new stroke when it belongs to that layer. |
| CanvasStage.DisplayedOpacity | components/CanvasStage.tsx:95 | A hidden layer shows opacity 0; a visible one shows its own opacity. |
| CanvasStage.PreviewOnlyOnActiveLayer | components/CanvasStage.tsx:298-308 | A preview canvas appears only for the active drawing layer while a stroke is live, and then it follows that layer's canvas. |
| CanvasStage.OneCanvasPerLayer | components/CanvasStage.tsx:298-308 | There is one own canvas per layer, in the layers' order. |
| CanvasStage.BrushCursor | components/CanvasStage.tsx:104-132 | There is no cursor exactly when there is no position or the tool is the hand. Otherwise the cursor is at the pointer with the brush angle. Its width is size·zoom and its height is max(1, size·zoom·roundness/100). It is tinted exactly for the eraser. |
| CanvasStage.RoundBrushCursor | components/CanvasStage.tsx:112-114 | For roundness 100 and a zoomed size of at least 1 the cursor is a circle of width size·zoom. |
| App.Last50Suffix | App.tsx:202 | The capped stack is the whole stack when it is short, and its last 50 entries otherwise. |
| App.DropLastPush | App.tsx:218 | On a non-empty stack, dropping the last entry and pushing it back gives the stack again. |
| App.FindLayerIndex | App.tsx:253 | Gives the first index with the id, or -1 exactly when no layer has it. |
| App.InsertAfterActiveSpec | App.tsx:253-255 | Exactly one layer is inserted, at that position. The others keep their order. |
| App.RemoveLayers | App.tsx:448 | A layer remains exactly when it was present and has another id. |
| App.RemoveLayersAppend | App.tsx:448 | Removing a layer id from a concatenation removes it from each part and concatenates the results, so the kept layers stay in order. |
| App.RemoveLayersSingle | App.tsx:448 | A single layer is kept exactly when its id differs. |
| App.RemoveAbsentLayer | App.tsx:448 | Removing an id that is absent changes nothing. |
| App.UpdateLayersAt | App.tsx:449 | Every layer with the id gets the patch merged in, and every other layer is untouched. |
| App.LayerEditKeepsStrokes | App.tsx:239-295 | The layer edits keep the stroke list, so deleting a layer orphans its strokes. The edits are add, import, delete and update. |
| App.MapCurrentAt | App.tsx:200 | The edit reaches exactly the projects with the current id. Every other project is identical. |
| App.FoldMatchesUnique | App.tsx:200-206 | With exactly one matching project the stacks take exactly one step. |
| App.FoldMatchesOtherKeys | App.tsx:200-206 | Only the current id's stacks change. |
| App.PushCappedBounded | App.tsx:202 | After a stroke update the current project's history holds at most 50 entries. |
| App.UpdateStrokesEffect | App.tsx:196-209 | A stroke update installs the new strokes. It pushes the old ones onto the history, capped at 50, and clears redo. |
| App.OnlyCurrentChanges | App.tsx:196-237 | Update, undo and redo change only the projects with the current id and only that id's stacks. |
| App.UndoEffect | App.tsx:211-223 | Undo restores the last history entry, pops it, and pushes the current strokes onto redo. |
| App.RedoEffect | App.tsx:225-237 | Redo mirrors undo. Its push onto the history is not capped. |
| App.UndoRedoNoOp | App.tsx:196-237 | Undo and redo change nothing without a current project or with an empty stack. A stroke update changes nothing without a current project. |
| App.UndoThenRedo | App.tsx:211-237 | With one current project, undo then redo gives back the projects, the history and every redo stack. |
| App.ZoomIn | App.tsx:430 | The zoom-in button never exceeds 5, and adds exactly 0.2 when that stays within 5. |
| App.ZoomOut | App.tsx:431 | The zoom-out button never goes below 0.1, and subtracts exactly 0.2 when that stays above 0.1. |
| App.ZoomButtonsStayInRange | App.tsx:430-431 | Both buttons keep a zoom in [0.1, 5] within that range. |
| App.FitZoom | App.tsx:73-87 | The fitted zoom lies in [0.1, 1]. |
| App.FitZoomFits | App.tsx:78-83 | Above the 0.1 floor the project fits in the area less the 120-pixel margins. The zoom is 1 when the project already fits. |
| App.ScaleFits | App.tsx:80-83 | Any zoom at most the fit scale fits the available length. The scale is at least 1 when the length fits. |
| App.NewProjectShape | App.tsx:150-175 | A new project has the requested name and size and a white background. It has no strokes and one visible, unlocked, fully opaque source-over drawing layer. |
| App.CurrentProject | App.tsx:46 | A found project is in the list and carries the current id. The result is None exactly when no project has that id. |
| App.RemoveProjects | App.tsx:180 | A project remains exactly when it was present and has another id. |
| App.RemoveProjectsAppend | App.tsx:180 | Removing a project id from a concatenation removes it from each part and concatenates the results, so the remaining projects stay in order. |
| App.RemoveProjectsSingle | App.tsx:180 | A single project is kept exactly when its id differs. |
| App.ImageLayersToLoad | App.tsx:316 | A layer is preloaded exactly when it is a visible image layer with a url. |
| App.ImageMapHasAll | App.tsx:329 | Every preloaded layer's id is a key of the image map. |
| App.VisibleLayers | App.tsx:332-361 | A layer is composited exactly when it is in the project and visible. |
| App.VisibleLayersAppend | App.tsx:355 | Selecting the visible layers of a concatenation selects from each part and concatenates, so the composited layers keep the stored order. |
| App.VisibleLayersSingle | App.tsx:355 | A single layer is selected exactly when it is visible. |
| App.CompositeCommandsAt | App.tsx:355-360 | There is one composite per visible layer, in stored order, under that layer's opacity and blend mode. |
| App.ExportFailsIffImageFails | App.tsx:326-370 | Export produces no file exactly when the picture of a visible image layer cannot be loaded. |
| App.ExportOrder | App.tsx:312-360 | A successful export fills the background first, with the project colour or white. Then it composites every visible layer in order. |
| App.ExportCommands | App.tsx:296-373 | Without a current project there is no file. A produced file holds one command more than there are visible layers, and the first fills the background with the project colour or white. |
| App.ExportHasEveryImage | App.tsx:316-329 | Every visible image layer with a url has its picture in the image map. |
| App.SpaceRestoresTool | App.tsx:89-101 | Holding space, with any number of auto-repeats, gives the hand tool. Releasing it brings back the previous tool. |
| App.KeyDownSpec | App.tsx:90-95 | A space press without auto-repeat always leaves the hand tool selected, and saves the tool that was active when it was not the hand. Any other key, an auto-repeat, or the hand already selected changes nothing. |
| App.KeyUpSpec | App.tsx:97-101 | Releasing space on the hand tool selects the saved tool. The saved tool never changes, and any other key or tool changes nothing. |
| App.VisitProjects | App.tsx:198-207 | The map loop's projects equal MapCurrent, and its stacks equal the fold over the projects. |
| App.UpdateStrokesSpec | App.tsx:196-209 | Without a current id the workspace is unchanged. The number of projects is always kept. |
| App.UndoSpec | App.tsx:211-223 | When undo is not possible (no current id or an empty history) the workspace is unchanged. The number of projects is always kept. |
| App.RedoSpec | App.tsx:225-237 | When redo is not possible the workspace is unchanged. The number of projects is always kept. |
| App.AppState.UpdateStrokes | App.tsx:196-209 | The new workspace is UpdateStrokesSpec of the old one. Only the projects and the two stacks can change; selection, active layer, zoom, pan, tools and the modal flag are kept. |
| App.AppState.Undo | App.tsx:211-223 | The new workspace is UndoSpec of the old one. Only the projects and the two stacks can change. |
| App.AppState.Redo | App.tsx:225-237 | The new workspace is RedoSpec of the old one. Only the projects and the two stacks can change. |
| App.AppState.EditCurrent | App.tsx:448 | The loop replaces the project list with MapCurrent of the old list, changing no other field. |
| App.AppState.AddLayer | App.tsx:239-261 | Without a current project nothing changes. Otherwise a drawing layer named after the layer count is inserted after the active layer and becomes active. Only the projects and the active layer id can change. |
| App.AppState.ImportImageLayer | App.tsx:263-294 | Without a current id nothing changes. Otherwise an image layer named after the file, with the data url, is inserted after the active layer and becomes active. Only the projects and the active layer id can change. |
| App.AppState.DeleteLayer | App.tsx:448 | The current project loses the layers with that id. Only the project list changes. |
| App.AppState.UpdateLayer | App.tsx:449 | The current project's layers with that id get the patch. Only the project list changes. |
| App.AppState.CreateProject | App.tsx:147-176 | The new project is prepended and becomes current. Its first layer becomes active and the modal closes. Stacks, zoom, pan and tools are kept. |
| App.AppState.DeleteProject | App.tsx:178-194 | The project is removed. Deleting the current project hands over to the first remaining one, or opens the modal when none remains. Deleting any other project keeps the selection. Stacks, zoom, pan and tools are kept. |
| App.AppState.SelectProject | App.tsx:469 | The project becomes current and its first layer (or '') active. The modal closes. Workspace, zoom, pan and tools are kept. |
| App.AppState.FitToView | App.tsx:73-87 | With a mounted area the zoom is FitZoom and the pan is reset. Otherwise nothing changes. Only zoom and pan can change. |
| App.AppState.ZoomInButton | App.tsx:430 | zoom becomes ZoomIn(zoom), and nothing else changes. |
| App.AppState.ZoomOutButton | App.tsx:431 | zoom becomes ZoomOut(zoom), and nothing else changes. |
| App.AppState.ResetView | components/CanvasStage.tsx:262-265 | The zoom becomes 0.8 and the pan becomes (0, 0). Nothing else changes. |
| App.AppState.SetPan | App.tsx:413 | The pan becomes the argument, and nothing else changes. |
| App.AppState.KeyDown | App.tsx:90-95 | The tools become KeyDownSpec of the old ones: a fresh space press with a tool other than the hand saves it and selects the hand. Only the two tool fields can change. |
| App.AppState.KeyUp | App.tsx:97-101 | The tools become KeyUpSpec of the old ones: releasing space with the hand tool restores the saved tool. Only the active tool can change. |
| App.AppState.ExportPNG | App.tsx:296-373 | Returns the commands ExportCommands gives for the current project. |
| App.LoadImages | App.tsx:318-329 | Gives the image map exactly when every picture loads, and None otherwise. |
| App.CompositeLayers | App.tsx:332-361 | The loop appends CompositeCommands for the layers onto the final canvas. |
| App.ZoomAlwaysPositive | App.tsx:73-87 | Every zoom update keeps the zoom in [0.1, 5], so the stage always divides by a positive zoom. |
| ControlPanel.MergeLaws | components/ControlPanel.tsx:195 | An empty patch changes nothing, and merging a patch twice is merging it once. |
| ControlPanel.Ratio | components/ControlPanel.tsx:197 | For a non-zero old size, ratio·old = new. A zero old size counts as 1. |
| ControlPanel.UpdateActiveBrushSettings | components/ControlPanel.tsx:194-202 | Id, name, type, category and the default flag are kept. Without a size in the patch the settings are the merge. With one, the new size is the patch's, and minSize and maxSize are the old ones times Ratio of the old and new size, where an old size of 0 counts as 1. |
| ControlPanel.UpdateMergesOtherFields | components/ControlPanel.tsx:195-200 | A size change still merges every other field from the patch. |
| ControlPanel.SizeOverridesRange | components/ControlPanel.tsx:196-199 | A patch with a size overrides any minSize and maxSize it also carries. |
| ControlPanel.RescaleProportional | components/ControlPanel.tsx:197-199 | The range stays proportional: new min / new size equals old min / old size, and likewise for max. |
| ControlPanel.RescaleKeepsOrder | components/ControlPanel.tsx:197-199 | A non-negative ratio keeps minSize <= maxSize. |
| ControlPanel.ImportBrush | components/ControlPanel.tsx:216-226 | Unparsable text or null is a read failure. The brush is imported exactly when it parses to an object with settings and a non-empty name, and then it gets the id "imported-" followed by the clock. |
| ControlPanel.ImportExported | components/ControlPanel.tsx:212-230 | A brush written out by export imports back as the same brush under a new id. |
| ControlPanel.BuildIconPoints | components/ControlPanel.tsx:91-100 | The loop builds exactly the eleven icon points IconPoints defines. |
| ControlPanel.BrushIconPreview | components/ControlPanel.tsx:85-110 | The canvas is cleared and then holds exactly the commands of the icon stroke, whose size is scaled by side/100. |
| ControlPanel.BuildPreviewPoints | components/ControlPanel.tsx:129-137 | The loop builds exactly the forty-one preview points. |
| ControlPanel.BrushPreview | components/ControlPanel.tsx:125-147 | The canvas is cleared and then holds exactly the commands of the preview stroke with the brush's own settings. |
| ControlPanel.IconPointsShape | components/ControlPanel.tsx:92-99 | The icon points are drawable and run left to right, 2 px apart. |
| ControlPanel.PreviewPointsShape | components/ControlPanel.tsx:131-136 | The preview points are drawable and run left to right, 2 px apart. |
| ControlPanel.IconPressureRange | components/ControlPanel.tsx:97 | Where sin(t·π) lies in [0, 1], every icon pressure lies in [0.3, 1]. |
| ControlPanel.RoundBrushPreviews | components/ControlPanel.tsx:91-147 | For a round brush, the large preview paints forty segments and the icon paints ten. |
| ControlPanel.PdfOrientation | components/ControlPanel.tsx:252 | The page is landscape exactly when the project is wider than tall. |
| ControlPanel.OrientationFlips | components/ControlPanel.tsx:252 | Turning a non-square page on its side flips its orientation. |
| BrushUtils.EncodeBrushForLink | utils/brushUtils.ts:6-15 | A failed stringify gives "". Otherwise the link is Base64 text: alphabet characters and '=', a multiple of four long. |
| BrushUtils.DecodeBrushFromLink | utils/brushUtils.ts:20-28 | An atob or decodeURIComponent failure gives null. |
| BrushUtils.LinkRoundTrip | utils/brushUtils.ts:6-28 | Given a parse that reads back what stringify writes, a brush's link decodes to that brush. |
| BrushUtils.EmptyLinkIsNull | utils/brushUtils.ts:13-28 | The "" sentinel decodes to null. |
| BrushUtils.BadJsonIsNull | utils/brushUtils.ts:22-26 | Text that JSON.parse rejects gives null. |
| BrushUtils.ReplaceWhitespaceRuns | utils/brushUtils.ts:39 | The result contains no whitespace. |
| BrushUtils.ReplaceMatchesCollapse | utils/brushUtils.ts:39 | The global regex replace agrees with a per-character rule: each maximal whitespace run becomes one '_'. |
| BrushUtils.ReplaceIdentity | utils/brushUtils.ts:39 | A name without whitespace is kept. |
| BrushUtils.ReplaceIdempotent | utils/brushUtils.ts:39 | Replacing twice is replacing once. |
| BrushUtils.ExportFileName | utils/brushUtils.ts:39 | The file name ends in ".brush" and contains no whitespace. |
| BrushUtils.ExportBrushToFile | utils/brushUtils.ts:33-42 | The file is the pretty-printed JSON, as application/json, under ExportFileName of the brush name. |
| WebCodecs.Utf8 | utils/brushUtils.ts:9 | A character encodes to 1 to 4 bytes, and to a single byte exactly when it is below 0x80. |
| WebCodecs.Utf8RoundTrip | utils/brushUtils.ts:9-22 | For a character of two or more bytes, the lead byte announces the length, and decoding the bytes gives the character back. |
| WebCodecs.HexRoundTrip | utils/brushUtils.ts:9-22 | Every hex digit that encodeURIComponent emits reads back as its value. |
| WebCodecs.EncodeURIComponentAscii | utils/brushUtils.ts:9 | encodeURIComponent output is unreserved characters, '%' and upper-case hex digits. |
| WebCodecs.EncodeUnreservedIdentity | utils/brushUtils.ts:9 | A string of unreserved characters is its own encoding. |
| WebCodecs.UriRoundTrip | utils/brushUtils.ts:9-22 | decodeURIComponent(encodeURIComponent(s)) == s for every string. |
| WebCodecs.Btoa | utils/brushUtils.ts:9 | btoa succeeds exactly on Latin-1 strings. |
| WebCodecs.BtoaOutput | utils/brushUtils.ts:9 | btoa's output uses only the RFC 4648 alphabet and '=', and its length is a multiple of four. |
| WebCodecs.AtobRejects | utils/brushUtils.ts:22 | A non-alphabet character other than '=' left after whitespace removal makes atob fail. |
| WebCodecs.SextetsRoundTrip | utils/brushUtils.ts:9-22 | Decoding the six-bit groups of some bytes gives those bytes back. |
| WebCodecs.Base64RoundTrip | utils/brushUtils.ts:9-22 | atob(btoa(s)) == s for every string btoa accepts. |
| WebCodecs.EncodedIsLatin1 | utils/brushUtils.ts:9 | btoa never fails on encodeURIComponent's output. |
| JsBuiltins.TrimEmptyIffAllWhitespace | components/ProjectModal.tsx:32 | A trimmed string is empty exactly when every character is whitespace. |
| JsBuiltins.TrimKeeps | components/ProjectModal.tsx:32 | A string that neither starts nor ends with whitespace is its own trim. |
| JsBuiltins.Decimal | components/ControlPanel.tsx:220 | String(n) is a non-empty string of decimal digits. |
| ProjectModal.CreateName | components/ProjectModal.tsx:32 | The name is never empty. It is the trimmed name when that is non-empty, and the untitled name otherwise. |
| ProjectModal.BlankNameIsUntitled | components/ProjectModal.tsx:32 | A name that is all whitespace, the empty name included, becomes the untitled name. |
| ProjectModal.SanitizeAsWritten | components/ProjectModal.tsx:25-30 | The code as written never yields NaN or -Infinity, but can yield +Infinity. |
| ProjectModal.InfinityPassesSanitizer | components/ProjectModal.tsx:25-30 | As written, an infinite width reaches project creation unchanged. |
| ProjectModal.Sanitize | components/ProjectModal.tsx:23-30 | The corrected sanitiser always gives an integer of at least 1. A finite value is floored and raised to 1. Anything else gives 2048. |
| ProjectModal.SanitizeAgrees | components/ProjectModal.tsx:25-30 | On NaN and finite values the corrected sanitiser agrees with the code as written. |
| ProjectModal.SanitizeClamps | components/ProjectModal.tsx:29-30 | Values below 1 become 1, and whole values of at least 1 are kept. |
| ProjectModal.HandleCreate | components/ProjectModal.tsx:22-33 | handleCreate with the finiteness correction of the Findings section (Sanitize in place of the isNaN guard). The name is non-empty and both dimensions are integers of at least 1. A NaN dimension gives 2048, as in the code as written. |
| ProjectModal.PresetCreatesItsSize | components/ProjectModal.tsx:35-38 | Creating from any preset passes the preset's width and height on unchanged. |
| ProjectModal.BackdropCloses | components/ProjectModal.tsx:46 | The backdrop closes the dialog exactly when projects exist. |
| ProjectModal.ModalState.constructor | components/ProjectModal.tsx:16-20 | The dialog opens on the recent tab exactly when projects exist, named with the default name and sized 2048 × 2048. |
| ProjectModal.ModalState.SelectPreset | components/ProjectModal.tsx:35-38 | Both dimensions take the preset's values; tab and name are kept. |
| ProjectModal.ModalState.SetWidth | components/ProjectModal.tsx:114 | The width field takes the value; height, tab and name are kept. |
| ProjectModal.ModalState.SetHeight | components/ProjectModal.tsx:123 | The height field takes the value; width, tab and name are kept. |
| ProjectModal.ModalState.SetName | components/ProjectModal.tsx:103 | The name field takes the text; sizes and tab are kept. |
| ProjectModal.ModalState.SetTab | components/ProjectModal.tsx:60-68 | The tab becomes the chosen one; sizes and name are kept. |
| ProjectModal.ModalState.Create | components/ProjectModal.tsx:22-33 | The create button passes on HandleCreate of the dialog's state, so it too carries the finiteness correction; both dimensions are at least 1. |
| ProjectModal.CreateFromFreshDialog | components/ProjectModal.tsx:16-33 | One scenario: opening the dialog and creating straight away gives a 2048 × 2048 canvas with the default name. |
| Constants.BlendModesTable | constants.tsx:12-30 | There are sixteen blend modes with pairwise distinct ids, the first being source-over. |
| Constants.BrushesWellFormed | constants.tsx:48-238 | Every built-in brush has minSize <= maxSize, roundness in [1, 100], stabilisation in [0, 1] and opacity in (0, 1]. |
| Constants.StampModeBrushes | constants.tsx:48-238 | Calligraphy and library brushes all render in stamp mode. Of the sketch brushes only the charcoal pencil does. |
| Constants.BrushIdsDistinct | constants.tsx:48-238 | Brush ids are distinct across the default and library sets. |
| Constants.PresetsAndTextures | constants.tsx:32-46 | The canvas presets have positive sizes. The "none" texture has no image. |

## Left out

- The HTML canvas is a log of painted shapes. Pixels, antialiasing, lineCap and lineJoin are not modelled. Neither are the translate and rotate sequence inside a stamp (the stamp records its centre and angle) and device-pixel-ratio sizing.
- Floating point is exact real arithmetic, and only NaN is modelled among non-finite coordinates. Math.hypot, degree-to-radian conversion, Math.pow(p, 0.7), sin(t·π) and Date.now() are parameters with no properties assumed.
- JSON.stringify and JSON.parse are parameters. A parsed object whose fields have the wrong JSON types is not represented: settings is either absent or a whole BrushSettings.
- Strings are sequences of Unicode scalar values, so lone surrogates (on which encodeURIComponent throws) cannot occur.
- Number(text) in the dialog's size fields is not modelled: the field receives the resulting number.
- localStorage, FileReader, Blob and object-URL downloads, jsPDF and toDataURL are browser I/O and are left out. Only the decisions around them are modelled: import, export, file names and PDF orientation.
- components/AuthModal.tsx and components/ProfileModal.tsx hold no drawing logic and are not part of this model. The same goes for onUpdateProjectSettings and the notification timers.
- React state batching is not modelled. The stroke-list map callback also updates the stacks, and the model runs that update once per visit. Under StrictMode's double invocation it would run twice. Deleting a project does not clear its stacks, and the model keeps that.
- App.FitZoom: requires positive project dimensions, which every creation path ensures.
- CanvasStage.GetCanvasPoint: requires a positive zoom. App.ZoomAlwaysPositive shows that the zoom always lies in [0.1, 5], so the NaN branch that a zero zoom could reach is not modelled. CanvasStage.Stage.PointerDown and CanvasStage.Stage.PointerMove carry the same requirement.
- Drawing.StampShape: states the minor radius's lower bound of 0.4, not its value.
- Drawing.DrawCalligraphyStamp: a negative nib size (a pressure-sensitive brush with maxSize below minSize) makes ctx.ellipse throw IndexSizeError in the browser and aborts the stroke; the model records the ellipse whatever its radii.
- ControlPanel.ImportBrush, BrushUtils.EncodeBrushForLink and BrushUtils.DecodeBrushFromLink: modelled as the component and the utilities define them. App.tsx passes no onImportBrush, so the import guard is always false in the running app, onShareBrush is a no-op, and the link codecs are imported but never called; the model does not wire either path into App.AppState.
- Missing 2D contexts (getContext returning null, the early returns in App.tsx, CanvasStage.tsx and ControlPanel.tsx) are not modelled: every canvas is a Surface that exists.
- console.error logging (in App.tsx, CanvasStage.tsx, brushUtils.ts and drawingUtils.ts) is left out; only the control flow around it is modelled.
- App.AppState.CreateProject: the source calls Date.now() separately for the project id, the layer id and the timestamps; the model reads the clock once, as one `now` parameter, so their equality is an assumption of the model.
- Drawing.Surface.SetColor: accepts any string as the colour; the browser's rule of ignoring strings that do not parse as CSS colours is not modelled.
- ProjectModal.CreateName: states the result as an implication in each direction of the trimmed name. A user can type the untitled name itself, so the result does not determine whether the input was blank.

## Findings

| source | as written | input that shows it | evidently intended | confidence | as-written member | corrected member |
|---|---|---|---|---|---|---|
| components/ProjectModal.tsx:25-30 | The guard `isNaN(d) ? 2048 : d` lets Infinity through: Math.floor and Math.max(1, ·) keep it, and project creation receives an infinite width | a size field set to 1e999, so Number gives Infinity | the stated aim, "valid numbers" of at least 1px, which needs a finiteness test so that every non-finite value falls back to 2048 | not executed | ProjectModal.InfinityPassesSanitizer | ProjectModal.Sanitize |
