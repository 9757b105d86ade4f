/**
 * The project state of App.tsx: the project list with per-project undo and
 * redo stacks of stroke lists, layer insertion, deletion and update, project
 * creation and deletion, the PNG export compositing, the view (zoom, pan)
 * and the space-bar hand tool.
 *
 * The handlers update state through `setProjects(prev => prev.map(...))`;
 * the callbacks passed to map (and the history updates issued from inside
 * them, once per matching project) are modelled as loops over the project
 * list whose results are specified by the functions MapCurrent and
 * FoldMatches.
 */
module App {
  import opened Types
  import opened JsBuiltins
  import opened Drawing
  import opened Seqs

  // ---------------------------------------------------------------------
  // Stacks of stroke lists
  // ---------------------------------------------------------------------

  type Stack = seq<seq<Stroke>>
  type Stacks = map<string, Stack>

  /** `m[id] || []` */
  function Get(m: Stacks, id: string): Stack {
    if id in m then m[id] else []
  }

  const HistoryLimit := 50

  /** `s.slice(-50)`: the last 50 entries, or all of them. */
  function Last50(s: Stack): (r: Stack)
    ensures |r| <= HistoryLimit && |r| <= |s|
  {
    if |s| <= HistoryLimit then s else s[|s| - HistoryLimit..]
  }

  /** The capped stack is a suffix of the stack: all of it when it is short, its last 50 entries otherwise. */
  lemma Last50Suffix(s: Stack)
    ensures var r := Last50(s);
      && r == s[|s| - |r|..]
      && (|s| <= HistoryLimit ==> r == s)
      && (|s| > HistoryLimit ==> |r| == HistoryLimit)
  {
  }

  /** `s.slice(0, -1)`: everything but the last entry; empty stays empty. */
  function DropLast(s: Stack): (r: Stack)
  {
    if |s| == 0 then [] else s[..|s| - 1]
  }

  /** Dropping the last entry and pushing it back gives the stack again. */
  lemma DropLastPush(s: Stack)
    requires |s| > 0
    ensures DropLast(s) + [s[|s| - 1]] == s
  {
  }

  // ---------------------------------------------------------------------
  // Layer list edits
  // ---------------------------------------------------------------------

  /** `layers.findIndex(l => l.id === id)` */
  function FindLayerIndex(layers: seq<Layer>, id: string): (r: int)
    ensures -1 <= r < |layers|
    ensures r >= 0 ==> layers[r].id == id && forall j :: 0 <= j < r ==> layers[j].id != id
    ensures r == -1 <==> forall j :: 0 <= j < |layers| ==> layers[j].id != id
  {
    if layers == [] then -1
    else if layers[0].id == id then 0
    else
      var k := FindLayerIndex(layers[1..], id);
      if k == -1 then -1 else k + 1
  }

  /** Where a new layer goes: right after the active layer, or at the end when it is absent. */
  function InsertPosition(layers: seq<Layer>, activeLayerId: string): (pos: nat)
    ensures pos <= |layers|
  {
    var idx := FindLayerIndex(layers, activeLayerId);
    if idx >= 0 then idx + 1 else |layers|
  }

  /** `newLayers.splice(pos, 0, newLayer)` on a copy of the layers. */
  function InsertAfterActive(layers: seq<Layer>, activeLayerId: string, newLayer: Layer): seq<Layer> {
    var pos := InsertPosition(layers, activeLayerId);
    layers[..pos] + [newLayer] + layers[pos..]
  }

  /** Exactly one layer is inserted, directly after the first layer with the active id (or last), and the others keep their order. */
  lemma InsertAfterActiveSpec(layers: seq<Layer>, activeLayerId: string, newLayer: Layer)
    ensures var r := InsertAfterActive(layers, activeLayerId, newLayer);
      var pos := InsertPosition(layers, activeLayerId);
      && |r| == |layers| + 1
      && r[pos] == newLayer
      && r[..pos] + r[pos + 1..] == layers
      && (pos > 0 ==> r[pos - 1].id == activeLayerId || pos == |layers|)
      && ((exists j :: 0 <= j < |layers| && layers[j].id == activeLayerId) ==> pos > 0 && r[pos - 1].id == activeLayerId)
      && ((forall j :: 0 <= j < |layers| ==> layers[j].id != activeLayerId) ==> pos == |layers|)
  {
    var r := InsertAfterActive(layers, activeLayerId, newLayer);
    var pos := InsertPosition(layers, activeLayerId);
    assert r[..pos] == layers[..pos];
    assert r[pos + 1..] == layers[pos..];
  }

  /** `layers.filter(l => l.id !== id)` */
  function RemoveLayers(layers: seq<Layer>, id: string): (r: seq<Layer>)
    ensures forall l :: l in r <==> l in layers && l.id != id
    ensures |r| <= |layers|
  {
    if layers == [] then []
    else (if layers[0].id != id then [layers[0]] else []) + RemoveLayers(layers[1..], id)
  }

  /** Removing a layer distributes over concatenation, so the kept layers stay in their order. */
  lemma {:induction false} RemoveLayersAppend(a: seq<Layer>, b: seq<Layer>, id: string)
    ensures RemoveLayers(a + b, id) == RemoveLayers(a, id) + RemoveLayers(b, id)
  {
    if a == [] {
      assert a + b == b;
    } else {
      assert (a + b)[1..] == a[1..] + b;
      RemoveLayersAppend(a[1..], b, id);
    }
  }

  /** On one layer, removing keeps it exactly when its id differs. */
  lemma RemoveLayersSingle(l: Layer, id: string)
    ensures RemoveLayers([l], id) == (if l.id != id then [l] else [])
  {
    assert RemoveLayers([l], id) == (if l.id != id then [l] else []) + RemoveLayers([], id);
  }

  /** Removing a layer id that is not present changes nothing. */
  lemma {:induction false} RemoveAbsentLayer(layers: seq<Layer>, id: string)
    requires forall l :: l in layers ==> l.id != id
    ensures RemoveLayers(layers, id) == layers
  {
    if layers != [] {
      RemoveAbsentLayer(layers[1..], id);
    }
  }

  /** The fields a layer update may carry; absent fields are left as they are. */
  datatype LayerPatch = LayerPatch(
    id: Option<string>,
    name: Option<string>,
    isVisible: Option<bool>,
    isLocked: Option<bool>,
    opacity: Option<real>,
    blendMode: Option<string>,
    layerType: Option<LayerType>,
    imageUrl: Option<string>)

  function Pick<T>(patch: Option<T>, current: T): T {
    if patch.Some? then patch.value else current
  }

  /** `{...l, ...patch}` */
  function PatchLayer(l: Layer, patch: LayerPatch): Layer {
    Layer(Pick(patch.id, l.id), Pick(patch.name, l.name), Pick(patch.isVisible, l.isVisible),
          Pick(patch.isLocked, l.isLocked), Pick(patch.opacity, l.opacity), Pick(patch.blendMode, l.blendMode),
          Pick(patch.layerType, l.layerType), if patch.imageUrl.Some? then patch.imageUrl else l.imageUrl)
  }

  /** `layers.map(l => l.id === id ? {...l, ...patch} : l)` */
  function UpdateLayers(layers: seq<Layer>, id: string, patch: LayerPatch): (r: seq<Layer>)
    ensures |r| == |layers|
  {
    if layers == [] then []
    else [if layers[0].id == id then PatchLayer(layers[0], patch) else layers[0]] + UpdateLayers(layers[1..], id, patch)
  }

  /** Only the layers with the matching id receive the patch; the others are untouched. */
  lemma {:induction false} UpdateLayersAt(layers: seq<Layer>, id: string, patch: LayerPatch, k: nat)
    requires k < |layers|
    ensures UpdateLayers(layers, id, patch)[k] == if layers[k].id == id then PatchLayer(layers[k], patch) else layers[k]
  {
    if k > 0 {
      UpdateLayersAt(layers[1..], id, patch, k - 1);
    }
  }

  // ---------------------------------------------------------------------
  // Edits of the current project
  // ---------------------------------------------------------------------

  /** What the callback passed to `projects.map` does to the current project. */
  datatype ProjectEdit =
    | ReplaceStrokes(strokes: seq<Stroke>, now: int)   // a stroke update stamps lastModified
    | RestoreStrokes(strokes: seq<Stroke>)            // undo and redo do not
    | InsertLayer(layer: Layer, activeLayerId: string)
    | RemoveLayer(id: string)
    | ChangeLayer(id: string, patch: LayerPatch)

  function ApplyEdit(p: Project, e: ProjectEdit): Project {
    match e
    case ReplaceStrokes(strokes, now) => p.(strokes := strokes, lastModified := now)
    case RestoreStrokes(strokes) => p.(strokes := strokes)
    case InsertLayer(layer, activeLayerId) => p.(layers := InsertAfterActive(p.layers, activeLayerId, layer))
    case RemoveLayer(id) => p.(layers := RemoveLayers(p.layers, id))
    case ChangeLayer(id, patch) => p.(layers := UpdateLayers(p.layers, id, patch))
  }

  /** Layer edits leave the stroke list alone: deleting a layer orphans its strokes. */
  lemma LayerEditKeepsStrokes(p: Project, e: ProjectEdit)
    requires !e.ReplaceStrokes? && !e.RestoreStrokes?
    ensures ApplyEdit(p, e).strokes == p.strokes
    ensures ApplyEdit(p, e).id == p.id && ApplyEdit(p, e).lastModified == p.lastModified
  {
  }

  /** `p.id === currentProjectId` */
  predicate Matches(p: Project, cur: Option<string>) {
    cur.Some? && p.id == cur.value
  }

  /** `projects.map(p => p.id === cur ? edit(p) : p)` */
  function MapCurrent(ps: seq<Project>, cur: Option<string>, e: ProjectEdit): (r: seq<Project>)
    ensures |r| == |ps|
  {
    if ps == [] then []
    else
      var p := ps[|ps| - 1];
      MapCurrent(ps[..|ps| - 1], cur, e) + [if Matches(p, cur) then ApplyEdit(p, e) else p]
  }

  /** The edit reaches exactly the projects with the current id; every other project is identical afterwards. */
  lemma {:induction false} MapCurrentAt(ps: seq<Project>, cur: Option<string>, e: ProjectEdit, k: nat)
    requires k < |ps|
    ensures MapCurrent(ps, cur, e)[k] == if Matches(ps[k], cur) then ApplyEdit(ps[k], e) else ps[k]
  {
    if k < |ps| - 1 {
      MapCurrentAt(ps[..|ps| - 1], cur, e, k);
    }
  }

  /** The undo and redo stacks of all projects. */
  datatype History = History(history: Stacks, redo: Stacks)

  /** What the history updates issued from inside the map callback do, once per matching project. */
  datatype StackOp =
    | PushCapped          // handleUpdateStrokes: push the old strokes, keep the last 50, clear redo
    | UndoPop(h: Stack)   // handleUndo with the history h read before the update
    | RedoPop(rs: Stack)  // handleRedo with the redo stack rs read before the update

  function StackStep(u: History, op: StackOp, cur: string, p: Project): History {
    match op
    case PushCapped => History(u.history[cur := Last50(Get(u.history, cur) + [p.strokes])], u.redo[cur := []])
    case UndoPop(h) => History(u.history[cur := DropLast(h)], u.redo[cur := Get(u.redo, cur) + [p.strokes]])
    case RedoPop(rs) => History(u.history[cur := Get(u.history, cur) + [p.strokes]], u.redo[cur := DropLast(rs)])
  }

  /** The stacks after the map has visited every project of ps. */
  function FoldMatches(ps: seq<Project>, cur: Option<string>, u: History, op: StackOp): History {
    if ps == [] then u
    else
      var p := ps[|ps| - 1];
      var before := FoldMatches(ps[..|ps| - 1], cur, u, op);
      if Matches(p, cur) then StackStep(before, op, cur.value, p) else before
  }

  lemma {:induction false} FoldMatchesAppend(a: seq<Project>, b: seq<Project>, cur: Option<string>, u: History, op: StackOp)
    ensures FoldMatches(a + b, cur, u, op) == FoldMatches(b, cur, FoldMatches(a, cur, u, op), op)
    decreases |b|
  {
    if b == [] {
      assert a + b == a;
    } else {
      assert (a + b)[..|a + b| - 1] == a + b[..|b| - 1];
      assert (a + b)[|a + b| - 1] == b[|b| - 1];
      FoldMatchesAppend(a, b[..|b| - 1], cur, u, op);
    }
  }

  /** Without a matching project the stacks are untouched. */
  lemma {:induction false} FoldMatchesNone(ps: seq<Project>, cur: Option<string>, u: History, op: StackOp)
    requires forall k :: 0 <= k < |ps| ==> !Matches(ps[k], cur)
    ensures FoldMatches(ps, cur, u, op) == u
  {
    if ps != [] {
      FoldMatchesNone(ps[..|ps| - 1], cur, u, op);
    }
  }

  /** Exactly one project has the id cur, at index j. */
  predicate UniqueAt(ps: seq<Project>, cur: Option<string>, j: nat) {
    j < |ps| && Matches(ps[j], cur) && forall k :: 0 <= k < |ps| && k != j ==> !Matches(ps[k], cur)
  }

  /** With exactly one matching project the stacks take exactly one step. */
  lemma {:induction false} FoldMatchesUnique(ps: seq<Project>, cur: Option<string>, j: nat, u: History, op: StackOp)
    requires UniqueAt(ps, cur, j)
    ensures FoldMatches(ps, cur, u, op) == StackStep(u, op, cur.value, ps[j])
  {
    var init := ps[..|ps| - 1];
    if j == |ps| - 1 {
      assert forall k :: 0 <= k < |init| ==> init[k] == ps[k];
      FoldMatchesNone(init, cur, u, op);
    } else {
      assert forall k :: 0 <= k < |init| ==> init[k] == ps[k];
      assert !Matches(ps[|ps| - 1], cur);
      FoldMatchesUnique(init, cur, j, u, op);
    }
  }

  /** Only the current project's stacks change. */
  lemma {:induction false} FoldMatchesOtherKeys(ps: seq<Project>, cur: Option<string>, u: History, op: StackOp, x: string)
    requires cur.Some? && x != cur.value
    ensures var r := FoldMatches(ps, cur, u, op);
      (x in r.history <==> x in u.history) && (x in r.redo <==> x in u.redo) &&
      Get(r.history, x) == Get(u.history, x) && Get(r.redo, x) == Get(u.redo, x)
  {
    if ps != [] {
      FoldMatchesOtherKeys(ps[..|ps| - 1], cur, u, op, x);
    }
  }

  /** After a stroke update that reached the current project, its history holds at most 50 entries. */
  lemma {:induction false} PushCappedBounded(ps: seq<Project>, cur: Option<string>, u: History)
    requires exists k :: 0 <= k < |ps| && Matches(ps[k], cur)
    ensures |Get(FoldMatches(ps, cur, u, PushCapped).history, cur.value)| <= HistoryLimit
  {
    var p := ps[|ps| - 1];
    if !Matches(p, cur) {
      var k :| 0 <= k < |ps| && Matches(ps[k], cur);
      assert k < |ps| - 1 && ps[..|ps| - 1][k] == ps[k];
      PushCappedBounded(ps[..|ps| - 1], cur, u);
    }
  }

  // ---------------------------------------------------------------------
  // Stroke update, undo and redo on the workspace
  // ---------------------------------------------------------------------

  /** The projects and their stacks. */
  datatype Workspace = Workspace(projects: seq<Project>, history: Stacks, redo: Stacks)

  function Stacks0(w: Workspace): History {
    History(w.history, w.redo)
  }

  function WithStacks(ps: seq<Project>, u: History): Workspace {
    Workspace(ps, u.history, u.redo)
  }

  /** handleUpdateStrokes */
  function UpdateStrokesSpec(w: Workspace, cur: Option<string>, newStrokes: seq<Stroke>, now: int): (r: Workspace)
    ensures !Truthy(cur) ==> r == w
    ensures |r.projects| == |w.projects|
  {
    if !Truthy(cur) then w
    else WithStacks(MapCurrent(w.projects, cur, ReplaceStrokes(newStrokes, now)),
                    FoldMatches(w.projects, cur, Stacks0(w), PushCapped))
  }

  /** The undo button is enabled: a current project with a non-empty history. */
  predicate CanUndo(w: Workspace, cur: Option<string>) {
    Truthy(cur) && |Get(w.history, cur.value)| > 0
  }

  predicate CanRedo(w: Workspace, cur: Option<string>) {
    Truthy(cur) && |Get(w.redo, cur.value)| > 0
  }

  /** handleUndo */
  function UndoSpec(w: Workspace, cur: Option<string>): (r: Workspace)
    ensures !CanUndo(w, cur) ==> r == w
    ensures |r.projects| == |w.projects|
  {
    if !CanUndo(w, cur) then w
    else
      var h := Get(w.history, cur.value);
      WithStacks(MapCurrent(w.projects, cur, RestoreStrokes(h[|h| - 1])),
                 FoldMatches(w.projects, cur, Stacks0(w), UndoPop(h)))
  }

  /** handleRedo */
  function RedoSpec(w: Workspace, cur: Option<string>): (r: Workspace)
    ensures !CanRedo(w, cur) ==> r == w
    ensures |r.projects| == |w.projects|
  {
    if !CanRedo(w, cur) then w
    else
      var rs := Get(w.redo, cur.value);
      WithStacks(MapCurrent(w.projects, cur, RestoreStrokes(rs[|rs| - 1])),
                 FoldMatches(w.projects, cur, Stacks0(w), RedoPop(rs)))
  }

  /** A stroke update installs the new strokes, pushes the old ones onto a history capped at 50 and clears redo. */
  lemma UpdateStrokesEffect(w: Workspace, cur: Option<string>, newStrokes: seq<Stroke>, now: int, j: nat)
    requires Truthy(cur) && UniqueAt(w.projects, cur, j)
    ensures var r := UpdateStrokesSpec(w, cur, newStrokes, now);
      && |r.projects| == |w.projects|
      && r.projects[j] == w.projects[j].(strokes := newStrokes, lastModified := now)
      && Get(r.history, cur.value) == Last50(Get(w.history, cur.value) + [w.projects[j].strokes])
      && |Get(r.history, cur.value)| <= HistoryLimit
      && Get(r.redo, cur.value) == []
  {
    var ps := MapCurrent(w.projects, cur, ReplaceStrokes(newStrokes, now));
    var u := FoldMatches(w.projects, cur, Stacks0(w), PushCapped);
    assert UpdateStrokesSpec(w, cur, newStrokes, now) == WithStacks(ps, u);
    MapCurrentAt(w.projects, cur, ReplaceStrokes(newStrokes, now), j);
    FoldMatchesUnique(w.projects, cur, j, Stacks0(w), PushCapped);
    var pushed := Last50(Get(w.history, cur.value) + [w.projects[j].strokes]);
    assert u.history == w.history[cur.value := pushed];
    assert u.redo == w.redo[cur.value := []];
  }

  /** Update, undo and redo change only projects with the current id and only that id's stacks. */
  lemma OnlyCurrentChanges(w: Workspace, cur: Option<string>, newStrokes: seq<Stroke>, now: int, k: nat, x: string)
    requires k < |w.projects| && !Matches(w.projects[k], cur)
    requires cur.Some? && x != cur.value
    ensures var r := UpdateStrokesSpec(w, cur, newStrokes, now);
      r.projects[k] == w.projects[k] && Get(r.history, x) == Get(w.history, x) && Get(r.redo, x) == Get(w.redo, x)
    ensures var r := UndoSpec(w, cur);
      r.projects[k] == w.projects[k] && Get(r.history, x) == Get(w.history, x) && Get(r.redo, x) == Get(w.redo, x)
    ensures var r := RedoSpec(w, cur);
      r.projects[k] == w.projects[k] && Get(r.history, x) == Get(w.history, x) && Get(r.redo, x) == Get(w.redo, x)
  {
    MapCurrentAt(w.projects, cur, ReplaceStrokes(newStrokes, now), k);
    FoldMatchesOtherKeys(w.projects, cur, Stacks0(w), PushCapped, x);
    if CanUndo(w, cur) {
      var h := Get(w.history, cur.value);
      MapCurrentAt(w.projects, cur, RestoreStrokes(h[|h| - 1]), k);
      FoldMatchesOtherKeys(w.projects, cur, Stacks0(w), UndoPop(h), x);
    }
    if CanRedo(w, cur) {
      var rs := Get(w.redo, cur.value);
      MapCurrentAt(w.projects, cur, RestoreStrokes(rs[|rs| - 1]), k);
      FoldMatchesOtherKeys(w.projects, cur, Stacks0(w), RedoPop(rs), x);
    }
  }

  /** Undo restores the last history entry, pops it and pushes the current strokes onto redo. */
  lemma UndoEffect(w: Workspace, cur: Option<string>, j: nat)
    requires CanUndo(w, cur) && UniqueAt(w.projects, cur, j)
    ensures var r := UndoSpec(w, cur);
      var h := Get(w.history, cur.value);
      && r.projects[j] == w.projects[j].(strokes := h[|h| - 1])
      && Get(r.history, cur.value) == h[..|h| - 1]
      && Get(r.redo, cur.value) == Get(w.redo, cur.value) + [w.projects[j].strokes]
  {
    var h := Get(w.history, cur.value);
    MapCurrentAt(w.projects, cur, RestoreStrokes(h[|h| - 1]), j);
    FoldMatchesUnique(w.projects, cur, j, Stacks0(w), UndoPop(h));
  }

  /** Redo mirrors undo; its push onto the history is not capped. */
  lemma RedoEffect(w: Workspace, cur: Option<string>, j: nat)
    requires CanRedo(w, cur) && UniqueAt(w.projects, cur, j)
    ensures var r := RedoSpec(w, cur);
      var rs := Get(w.redo, cur.value);
      && r.projects[j] == w.projects[j].(strokes := rs[|rs| - 1])
      && Get(r.redo, cur.value) == rs[..|rs| - 1]
      && Get(r.history, cur.value) == Get(w.history, cur.value) + [w.projects[j].strokes]
      && |Get(r.history, cur.value)| == |Get(w.history, cur.value)| + 1
  {
    var rs := Get(w.redo, cur.value);
    MapCurrentAt(w.projects, cur, RestoreStrokes(rs[|rs| - 1]), j);
    FoldMatchesUnique(w.projects, cur, j, Stacks0(w), RedoPop(rs));
  }

  /** Undo and redo are no-ops without a current project or with an empty stack. */
  lemma UndoRedoNoOp(w: Workspace, cur: Option<string>)
    ensures !CanUndo(w, cur) ==> UndoSpec(w, cur) == w
    ensures !CanRedo(w, cur) ==> RedoSpec(w, cur) == w
    ensures !Truthy(cur) ==> forall s: seq<Stroke>, now: int :: UpdateStrokesSpec(w, cur, s, now) == w
  {
  }

  /** Restoring strokes twice, back to what they were, gives the original projects when only one project matches. */
  lemma RestoreTwice(ps: seq<Project>, cur: Option<string>, j: nat, a: seq<Stroke>)
    requires UniqueAt(ps, cur, j)
    ensures MapCurrent(MapCurrent(ps, cur, RestoreStrokes(a)), cur, RestoreStrokes(ps[j].strokes)) == ps
  {
    var m := MapCurrent(ps, cur, RestoreStrokes(a));
    var m2 := MapCurrent(m, cur, RestoreStrokes(ps[j].strokes));
    forall k | 0 <= k < |ps| ensures m2[k] == ps[k] {
      MapCurrentAt(ps, cur, RestoreStrokes(a), k);
      MapCurrentAt(m, cur, RestoreStrokes(ps[j].strokes), k);
    }
  }

  lemma UniqueAfterRestore(ps: seq<Project>, cur: Option<string>, j: nat, a: seq<Stroke>)
    requires UniqueAt(ps, cur, j)
    ensures UniqueAt(MapCurrent(ps, cur, RestoreStrokes(a)), cur, j)
    ensures MapCurrent(ps, cur, RestoreStrokes(a))[j] == ps[j].(strokes := a)
  {
    var m := MapCurrent(ps, cur, RestoreStrokes(a));
    forall k | 0 <= k < |ps| ensures m[k].id == ps[k].id {
      MapCurrentAt(ps, cur, RestoreStrokes(a), k);
    }
    MapCurrentAt(ps, cur, RestoreStrokes(a), j);
  }

  /** Undo followed by redo gives back the projects and the history, and every redo stack's contents. */
  lemma UndoThenRedo(w: Workspace, cur: Option<string>, j: nat)
    requires CanUndo(w, cur) && UniqueAt(w.projects, cur, j)
    ensures var r := RedoSpec(UndoSpec(w, cur), cur);
      r.projects == w.projects && r.history == w.history &&
      forall x :: Get(r.redo, x) == Get(w.redo, x)
  {
    var c := cur.value;
    var h := Get(w.history, c);
    var u := UndoSpec(w, cur);
    UndoEffect(w, cur, j);
    UniqueAfterRestore(w.projects, cur, j, h[|h| - 1]);
    assert CanRedo(u, cur);
    RedoEffect(u, cur, j);
    var r := RedoSpec(u, cur);
    RestoreTwice(w.projects, cur, j, h[|h| - 1]);
    assert r.projects == w.projects;
    forall x | x != c
      ensures (x in r.history <==> x in w.history) && (x in w.history ==> r.history[x] == w.history[x])
      ensures Get(r.redo, x) == Get(w.redo, x)
    {
      FoldMatchesOtherKeys(w.projects, cur, Stacks0(w), UndoPop(h), x);
      FoldMatchesOtherKeys(u.projects, cur, Stacks0(u), RedoPop(Get(u.redo, c)), x);
    }
    assert Get(r.history, c) == h;
    assert c in w.history;
    assert r.history == w.history;
  }

  // ---------------------------------------------------------------------
  // Zoom and view
  // ---------------------------------------------------------------------

  const MinZoom := 0.1
  const MaxZoom := 5.0
  const InitialZoom := 0.8

  function ZoomIn(z: real): (r: real)
    ensures r <= MaxZoom && (z + 0.2 <= MaxZoom ==> r == z + 0.2)
  {
    Min(z + 0.2, MaxZoom)
  }

  function ZoomOut(z: real): (r: real)
    ensures r >= MinZoom && (z - 0.2 >= MinZoom ==> r == z - 0.2)
  {
    Max(z - 0.2, MinZoom)
  }

  /** The zoom buttons keep the zoom within [0.1, 5]. */
  lemma ZoomButtonsStayInRange(z: real)
    requires MinZoom <= z <= MaxZoom
    ensures MinZoom <= ZoomIn(z) <= MaxZoom
    ensures MinZoom <= ZoomOut(z) <= MaxZoom
  {
  }

  /** fitToView's zoom for a main area of the given size. */
  function FitZoom(area: Vec, project: Project): (r: real)
    requires project.width > 0 && project.height > 0
    ensures MinZoom <= r <= 1.0
  {
    var scaleX := (area.x - 120.0) / project.width as real;
    var scaleY := (area.y - 120.0) / project.height as real;
    Max(MinZoom, Min(Min(scaleX, scaleY), 1.0))
  }

  /** Above the 0.1 floor the fitted project fits inside the area less the 120-pixel margins, and it is 1.0 whenever the project fits unscaled. */
  lemma FitZoomFits(area: Vec, project: Project)
    requires project.width > 0 && project.height > 0
    ensures var z := FitZoom(area, project);
      (z > MinZoom ==> z * project.width as real <= area.x - 120.0 && z * project.height as real <= area.y - 120.0) &&
      (project.width as real <= area.x - 120.0 && project.height as real <= area.y - 120.0 ==> z == 1.0)
  {
    var w, h := project.width as real, project.height as real;
    var sx, sy := (area.x - 120.0) / w, (area.y - 120.0) / h;
    var z := FitZoom(area, project);
    ScaleFits(area.x - 120.0, w, z);
    ScaleFits(area.y - 120.0, h, z);
  }

  /** The fit scale of one dimension: a zoom at most the scale fits the available length, and the scale is at least 1 when the length fits. */
  lemma ScaleFits(avail: real, len: real, z: real)
    requires len > 0.0
    ensures z <= avail / len ==> z * len <= avail
    ensures len <= avail ==> avail / len >= 1.0
  {
    var s := avail / len;
    assert s * len == avail;
    assert z * len == s * len - (s - z) * len;
    if z <= s {
      MulNonneg(s - z, len);
    }
    if len <= avail {
      assert (s - 1.0) * len == avail - len;
      if s < 1.0 {
        MulNonneg(1.0 - s, len);
      }
    }
  }

  lemma MulNonneg(a: real, b: real)
    requires a >= 0.0 && b >= 0.0
    ensures a * b >= 0.0
  {
  }

  // ---------------------------------------------------------------------
  // Creation of projects and layers
  // ---------------------------------------------------------------------

  const FirstLayerName := "طبقة 1"

  function NewDrawingLayer(id: string, name: string): Layer {
    Layer(id, name, true, false, 1.0, "source-over", DrawingLayer, None)
  }

  function NewProject(name: string, width: int, height: int, now: nat): Project {
    Project("proj-" + Decimal(now), name, width, height, Some("#ffffff"),
            [NewDrawingLayer("layer-" + Decimal(now), FirstLayerName)], [], now)
  }

  /** A new project has a white background, one visible unlocked drawing layer, no strokes, and its requested size. */
  lemma NewProjectShape(name: string, width: int, height: int, now: nat)
    ensures var p := NewProject(name, width, height, now);
      && p.name == name && p.width == width && p.height == height && p.strokes == []
      && p.backgroundColor == Some("#ffffff") && p.lastModified == now
      && |p.layers| == 1 && p.layers[0].isVisible && !p.layers[0].isLocked && p.layers[0].opacity == 1.0
      && p.layers[0].blendMode == "source-over" && p.layers[0].layerType == DrawingLayer
      && p.id != p.layers[0].id
  {
    var p := NewProject(name, width, height, now);
    assert p.id[0] == 'p' && p.layers[0].id[0] == 'l';
  }

  /** `projects.find(p => p.id === currentProjectId) || null` */
  function CurrentProject(ps: seq<Project>, cur: Option<string>): (r: Option<Project>)
    ensures r.Some? ==> r.value in ps && Matches(r.value, cur)
    ensures r.None? ==> forall k :: 0 <= k < |ps| ==> !Matches(ps[k], cur)
  {
    if ps == [] then None
    else if Matches(ps[0], cur) then Some(ps[0])
    else CurrentProject(ps[1..], cur)
  }

  /** `projects.filter(p => p.id !== id)` */
  function RemoveProjects(ps: seq<Project>, id: string): (r: seq<Project>)
    ensures forall p :: p in r <==> p in ps && p.id != id
    ensures |r| <= |ps|
  {
    if ps == [] then []
    else (if ps[0].id != id then [ps[0]] else []) + RemoveProjects(ps[1..], id)
  }

  /** Removing a project distributes over concatenation, so the remaining projects stay in their order. */
  lemma {:induction false} RemoveProjectsAppend(a: seq<Project>, b: seq<Project>, id: string)
    ensures RemoveProjects(a + b, id) == RemoveProjects(a, id) + RemoveProjects(b, id)
  {
    if a == [] {
      assert a + b == b;
    } else {
      assert (a + b)[1..] == a[1..] + b;
      RemoveProjectsAppend(a[1..], b, id);
    }
  }

  /** On one project, removing keeps it exactly when its id differs. */
  lemma RemoveProjectsSingle(p: Project, id: string)
    ensures RemoveProjects([p], id) == (if p.id != id then [p] else [])
  {
    assert RemoveProjects([p], id) == (if p.id != id then [p] else []) + RemoveProjects([], id);
  }

  /** `p.layers[0]?.id || ''` */
  function FirstLayerId(p: Project): string {
    if |p.layers| > 0 then p.layers[0].id else ""
  }

  // ---------------------------------------------------------------------
  // Export
  // ---------------------------------------------------------------------

  /** The image layers whose pictures are preloaded: visible image layers with a url. */
  function ImageLayersToLoad(layers: seq<Layer>): (r: seq<Layer>)
    ensures forall l :: l in r <==> l in layers && l.layerType == ImageLayer && Truthy(l.imageUrl) && l.isVisible
  {
    if layers == [] then []
    else
      var l := layers[0];
      (if l.layerType == ImageLayer && Truthy(l.imageUrl) && l.isVisible then [l] else []) + ImageLayersToLoad(layers[1..])
  }

  /** Promise.all resolves only when every image loads. */
  predicate AllLoad(ls: seq<Layer>, loads: string -> bool) {
    forall k :: 0 <= k < |ls| ==> loads(OrElse(ls[k].imageUrl, ""))
  }

  /** `new Map(loaded.map(item => [item.layerId, item.image]))`: later entries win. */
  function ImageMap(ls: seq<Layer>): map<string, string> {
    if ls == [] then map[]
    else ImageMap(ls[..|ls| - 1])[ls[|ls| - 1].id := OrElse(ls[|ls| - 1].imageUrl, "")]
  }

  lemma {:induction false} ImageMapHasAll(ls: seq<Layer>, k: nat)
    requires k < |ls|
    ensures ls[k].id in ImageMap(ls)
  {
    if k < |ls| - 1 {
      ImageMapHasAll(ls[..|ls| - 1], k);
    }
  }

  /** What one layer canvas of the export holds. */
  function LayerContent(layer: Layer, project: Project, imageMap: map<string, string>,
                        hypot: (real, real) -> real, radians: real -> real): seq<Command>
  {
    if layer.layerType == ImageLayer then
      if layer.id in imageMap then [Draw(Picture(imageMap[layer.id], project.width, project.height), DefaultStyle)] else []
    else StrokesCommands(LayerStrokes(project.strokes, layer.id), DefaultStyle, hypot, radians)
  }

  /** The state a layer is composited under: its opacity and blend mode, through the canvas setters' rules. */
  function CompositeStyle(base: Style, layer: Layer): Style {
    base.(alpha := AlphaAfter(base.alpha, layer.opacity), op := OpAfter(base.op, layer.blendMode))
  }

  function VisibleLayers(layers: seq<Layer>): (r: seq<Layer>)
    ensures |r| <= |layers|
    ensures forall l :: l in r <==> l in layers && l.isVisible
  {
    if layers == [] then []
    else VisibleLayers(layers[..|layers| - 1]) + (if layers[|layers| - 1].isVisible then [layers[|layers| - 1]] else [])
  }

  /** Selecting the visible layers distributes over concatenation, so they keep the panel order. */
  lemma {:induction false} VisibleLayersAppend(a: seq<Layer>, b: seq<Layer>)
    ensures VisibleLayers(a + b) == VisibleLayers(a) + VisibleLayers(b)
  {
    if b == [] {
      assert a + b == a;
    } else {
      var c := b[..|b| - 1];
      assert (a + b)[..|a + b| - 1] == a + c;
      assert (a + b)[|a + b| - 1] == b[|b| - 1];
      VisibleLayersAppend(a, c);
    }
  }

  /** On one layer, the selection keeps it exactly when it is visible. */
  lemma VisibleLayersSingle(l: Layer)
    ensures VisibleLayers([l]) == (if l.isVisible then [l] else [])
  {
    assert [l][..0] == [];
  }

  /** The composite of one visible layer onto the final canvas. */
  function CompositeCommand(layer: Layer, project: Project, imageMap: map<string, string>, base: Style,
                            hypot: (real, real) -> real, radians: real -> real): Command
  {
    Draw(Composite(LayerContent(layer, project, imageMap, hypot, radians)), CompositeStyle(base, layer))
  }

  /** The composites of the visible layers among `layers`, in order. */
  function CompositeCommands(layers: seq<Layer>, project: Project, imageMap: map<string, string>, base: Style,
                             hypot: (real, real) -> real, radians: real -> real): (r: seq<Command>)
  {
    if layers == [] then []
    else
      var l := layers[|layers| - 1];
      CompositeCommands(layers[..|layers| - 1], project, imageMap, base, hypot, radians) +
      (if l.isVisible then [CompositeCommand(l, project, imageMap, base, hypot, radians)] else [])
  }

  /** Composites come one per visible layer, in stored order. */
  lemma {:induction false} CompositeCommandsAt(layers: seq<Layer>, project: Project, imageMap: map<string, string>, base: Style,
                                               hypot: (real, real) -> real, radians: real -> real)
    ensures var r := CompositeCommands(layers, project, imageMap, base, hypot, radians);
      var vis := VisibleLayers(layers);
      |r| == |vis| &&
      forall k :: 0 <= k < |vis| ==> r[k] == CompositeCommand(vis[k], project, imageMap, base, hypot, radians)
  {
    if layers != [] {
      CompositeCommandsAt(layers[..|layers| - 1], project, imageMap, base, hypot, radians);
    }
  }

  /** The background style: the project's colour, or white. */
  function BackgroundStyle(project: Project): Style {
    DefaultStyle.(color := OrElse(project.backgroundColor, "#ffffff"))
  }

  /** What handleExportPNG paints on the final canvas, or None when it produces no file. */
  function ExportCommands(project: Option<Project>, loads: string -> bool,
                          hypot: (real, real) -> real, radians: real -> real): (r: Option<seq<Command>>)
    ensures project.None? ==> r.None?
    ensures r.Some? ==>
      && |r.value| == 1 + |VisibleLayers(project.value.layers)|
      && r.value[0] == Draw(FillRect(project.value.width, project.value.height), BackgroundStyle(project.value))
  {
    if project.None? then None
    else
      var p := project.value;
      var images := ImageLayersToLoad(p.layers);
      if !AllLoad(images, loads) then None
      else
        var base := BackgroundStyle(p);
        CompositeCommandsAt(p.layers, p, ImageMap(images), base, hypot, radians);
        Some([Draw(FillRect(p.width, p.height), base)] + CompositeCommands(p.layers, p, ImageMap(images), base, hypot, radians))
  }

  /** Export fails exactly when a visible image layer's picture cannot be loaded. */
  lemma ExportFailsIffImageFails(p: Project, loads: string -> bool, hypot: (real, real) -> real, radians: real -> real)
    ensures ExportCommands(Some(p), loads, hypot, radians).None? <==>
      exists l :: l in p.layers && l.layerType == ImageLayer && Truthy(l.imageUrl) && l.isVisible && !loads(l.imageUrl.value)
  {
    var images := ImageLayersToLoad(p.layers);
    if !AllLoad(images, loads) {
      var k :| 0 <= k < |images| && !loads(OrElse(images[k].imageUrl, ""));
      assert images[k] in images;
    } else {
      forall l | l in p.layers && l.layerType == ImageLayer && Truthy(l.imageUrl) && l.isVisible
        ensures loads(l.imageUrl.value)
      {
        assert l in images;
        var k :| 0 <= k < |images| && images[k] == l;
      }
    }
  }

  /** A successful export is the background fill followed by the composites. */
  lemma ExportCommandsSome(p: Project, loads: string -> bool, hypot: (real, real) -> real, radians: real -> real)
    requires ExportCommands(Some(p), loads, hypot, radians).Some?
    ensures ExportCommands(Some(p), loads, hypot, radians).value ==
      [Draw(FillRect(p.width, p.height), BackgroundStyle(p))] +
      CompositeCommands(p.layers, p, ImageMap(ImageLayersToLoad(p.layers)), BackgroundStyle(p), hypot, radians)
  {
  }

  /** A successful export fills the background first and then composites every visible layer, in stored order, with its own opacity and blend mode. */
  lemma ExportOrder(p: Project, loads: string -> bool, hypot: (real, real) -> real, radians: real -> real)
    requires ExportCommands(Some(p), loads, hypot, radians).Some?
    ensures var r := ExportCommands(Some(p), loads, hypot, radians).value;
      var vis := VisibleLayers(p.layers);
      var base := BackgroundStyle(p);
      var images := ImageMap(ImageLayersToLoad(p.layers));
      && |r| == 1 + |vis|
      && r[0] == Draw(FillRect(p.width, p.height), base)
      && forall k :: 0 <= k < |vis| ==>
           r[k + 1].shape == Composite(LayerContent(vis[k], p, images, hypot, radians)) &&
           r[k + 1].style == CompositeStyle(base, vis[k])
  {
    var images := ImageMap(ImageLayersToLoad(p.layers));
    var base := BackgroundStyle(p);
    var cs := CompositeCommands(p.layers, p, images, base, hypot, radians);
    CompositeCommandsAt(p.layers, p, images, base, hypot, radians);
    var r := [Draw(FillRect(p.width, p.height), base)] + cs;
    ExportCommandsSome(p, loads, hypot, radians);
    var vis := VisibleLayers(p.layers);
    forall k | 0 <= k < |vis|
      ensures r[k + 1].shape == Composite(LayerContent(vis[k], p, images, hypot, radians))
      ensures r[k + 1].style == CompositeStyle(base, vis[k])
    {
      assert r[k + 1] == cs[k] == CompositeCommand(vis[k], p, images, base, hypot, radians);
    }
  }

  /** Every visible image layer with a url has its picture in the export's image map. */
  lemma ExportHasEveryImage(p: Project, l: Layer)
    requires l in p.layers && l.layerType == ImageLayer && Truthy(l.imageUrl) && l.isVisible
    ensures l.id in ImageMap(ImageLayersToLoad(p.layers))
  {
    var images := ImageLayersToLoad(p.layers);
    var k :| 0 <= k < |images| && images[k] == l;
    ImageMapHasAll(images, k);
  }

  // ---------------------------------------------------------------------
  // The space bar
  // ---------------------------------------------------------------------

  datatype Tools = Tools(activeTool: ToolType, previousTool: ToolType)

  /** The space bar, pressed without auto-repeat, switches to the hand tool and remembers the tool in use; everything else changes nothing. */
  function KeyDownSpec(t: Tools, code: string, repeat: bool): (r: Tools)
    ensures code == "Space" && !repeat ==> r.activeTool == Hand
    ensures code == "Space" && !repeat && t.activeTool != Hand ==> r.previousTool == t.activeTool
    ensures code != "Space" || repeat || t.activeTool == Hand ==> r == t
  {
    if code == "Space" && !repeat && t.activeTool != Hand then Tools(Hand, t.activeTool) else t
  }

  /** Releasing the space bar while on the hand tool brings back the remembered tool; everything else changes nothing. */
  function KeyUpSpec(t: Tools, code: string): (r: Tools)
    ensures code == "Space" && t.activeTool == Hand ==> r.activeTool == t.previousTool
    ensures r.previousTool == t.previousTool
    ensures code != "Space" || t.activeTool != Hand ==> r == t
  {
    if code == "Space" && t.activeTool == Hand then t.(activeTool := t.previousTool) else t
  }

  /** Holding the space bar (with any number of auto-repeats) gives the hand tool, and releasing it brings back the tool in use before. */
  lemma SpaceRestoresTool(t: Tools, repeats: nat)
    requires t.activeTool != Hand
    ensures KeyDownSpec(t, "Space", false).activeTool == Hand
    ensures KeyDownSpec(KeyDownSpec(t, "Space", false), "Space", true) == KeyDownSpec(t, "Space", false)
    ensures KeyUpSpec(KeyDownSpec(t, "Space", false), "Space").activeTool == t.activeTool
  {
  }

  lemma MapCurrentSnoc(ps: seq<Project>, cur: Option<string>, e: ProjectEdit, i: nat)
    requires i < |ps|
    ensures MapCurrent(ps[..i + 1], cur, e) ==
            MapCurrent(ps[..i], cur, e) + [if Matches(ps[i], cur) then ApplyEdit(ps[i], e) else ps[i]]
  {
    assert ps[..i + 1][..i] == ps[..i];
  }

  lemma FoldMatchesSnoc(ps: seq<Project>, cur: Option<string>, u: History, op: StackOp, i: nat)
    requires i < |ps|
    ensures FoldMatches(ps[..i + 1], cur, u, op) ==
            if Matches(ps[i], cur) then StackStep(FoldMatches(ps[..i], cur, u, op), op, cur.value, ps[i])
            else FoldMatches(ps[..i], cur, u, op)
  {
    assert ps[..i + 1][..i] == ps[..i];
  }

  /**
   * The map over the projects in handleUpdateStrokes, handleUndo and
   * handleRedo: each project with the current id is edited and, from inside
   * the same callback, its stacks are updated.
   */
  method VisitProjects(ps: seq<Project>, cur: Option<string>, e: ProjectEdit, u0: History, op: StackOp)
    returns (updated: seq<Project>, u: History)
    requires cur.Some?
    ensures updated == MapCurrent(ps, cur, e)
    ensures u == FoldMatches(ps, cur, u0, op)
  {
    updated, u := [], u0;
    var i := 0;
    while i < |ps|
      invariant 0 <= i <= |ps|
      invariant updated == MapCurrent(ps[..i], cur, e)
      invariant u == FoldMatches(ps[..i], cur, u0, op)
    {
      MapCurrentSnoc(ps, cur, e, i);
      FoldMatchesSnoc(ps, cur, u0, op, i);
      updated, u := VisitProject(ps[i], cur, e, updated, u, op);
      i := i + 1;
    }
    assert ps[..i] == ps;
  }

  /** The map callback on one project: edit it and update the stacks when it is the current one, pass it through otherwise. */
  method VisitProject(p: Project, cur: Option<string>, e: ProjectEdit, done: seq<Project>, u: History, op: StackOp)
    returns (done': seq<Project>, u': History)
    requires cur.Some?
    ensures done' == done + [if Matches(p, cur) then ApplyEdit(p, e) else p]
    ensures u' == if Matches(p, cur) then StackStep(u, op, cur.value, p) else u
  {
    if p.id == cur.value {
      u' := StackStep(u, op, cur.value, p);
      done' := done + [ApplyEdit(p, e)];
    } else {
      u' := u;
      done' := done + [p];
    }
  }

  // ---------------------------------------------------------------------
  // The application state
  // ---------------------------------------------------------------------

  class AppState {
    var projects: seq<Project>
    var history: Stacks
    var redoStack: Stacks
    var currentProjectId: Option<string>
    var activeLayerId: string
    var activeTool: ToolType
    var previousTool: ToolType
    var zoom: real
    var pan: Vec
    var isProjectModalOpen: bool

    function Work(): Workspace
      reads this
    {
      Workspace(projects, history, redoStack)
    }

    /** The zoom is always within the range the zoom controls allow. */
    predicate Valid()
      reads this
    {
      MinZoom <= zoom <= MaxZoom
    }

    constructor ()
      ensures Valid() && projects == [] && history == map[] && redoStack == map[]
      ensures currentProjectId.None? && activeLayerId == "" && activeTool == Pen && previousTool == Pen
      ensures zoom == InitialZoom && pan == Vec(0.0, 0.0) && !isProjectModalOpen
    {
      projects := [];
      history := map[];
      redoStack := map[];
      currentProjectId := None;
      activeLayerId := "";
      activeTool := Pen;
      previousTool := Pen;
      zoom := InitialZoom;
      pan := Vec(0.0, 0.0);
      isProjectModalOpen := false;
    }

    /** handleUpdateStrokes */
    method UpdateStrokes(newStrokes: seq<Stroke>, now: int)
      requires Valid()
      modifies this`projects, this`history, this`redoStack
      ensures Valid()
      ensures Work() == UpdateStrokesSpec(old(Work()), currentProjectId, newStrokes, now)
      ensures currentProjectId == old(currentProjectId) && activeLayerId == old(activeLayerId)
      ensures zoom == old(zoom) && pan == old(pan) && activeTool == old(activeTool)
    {
      if !Truthy(currentProjectId) {
        return;
      }
      var updated, stacks := VisitProjects(projects, currentProjectId, ReplaceStrokes(newStrokes, now),
                                           History(history, redoStack), PushCapped);
      projects, history, redoStack := updated, stacks.history, stacks.redo;
    }

    /** handleUndo */
    method Undo()
      requires Valid()
      modifies this`projects, this`history, this`redoStack
      ensures Valid()
      ensures Work() == UndoSpec(old(Work()), currentProjectId)
      ensures currentProjectId == old(currentProjectId) && activeLayerId == old(activeLayerId)
      ensures zoom == old(zoom) && pan == old(pan) && activeTool == old(activeTool)
    {
      if !Truthy(currentProjectId) || currentProjectId.value !in history || |history[currentProjectId.value]| == 0 {
        return;
      }
      var h := history[currentProjectId.value];
      var updated, stacks := VisitProjects(projects, currentProjectId, RestoreStrokes(h[|h| - 1]),
                                           History(history, redoStack), UndoPop(h));
      projects, history, redoStack := updated, stacks.history, stacks.redo;
    }

    /** handleRedo */
    method Redo()
      requires Valid()
      modifies this`projects, this`history, this`redoStack
      ensures Valid()
      ensures Work() == RedoSpec(old(Work()), currentProjectId)
      ensures currentProjectId == old(currentProjectId) && activeLayerId == old(activeLayerId)
      ensures zoom == old(zoom) && pan == old(pan) && activeTool == old(activeTool)
    {
      if !Truthy(currentProjectId) || currentProjectId.value !in redoStack || |redoStack[currentProjectId.value]| == 0 {
        return;
      }
      var rs := redoStack[currentProjectId.value];
      var updated, stacks := VisitProjects(projects, currentProjectId, RestoreStrokes(rs[|rs| - 1]),
                                           History(history, redoStack), RedoPop(rs));
      projects, history, redoStack := updated, stacks.history, stacks.redo;
    }

    /** `setProjects(prev => prev.map(p => p.id === currentProjectId ? edit(p) : p))` */
    method EditCurrent(e: ProjectEdit)
      modifies this`projects
      ensures projects == MapCurrent(old(projects), currentProjectId, e)
    {
      var ps := projects;
      var updated: seq<Project> := [];
      var i := 0;
      while i < |ps|
        invariant 0 <= i <= |ps|
        invariant updated == MapCurrent(ps[..i], currentProjectId, e)
      {
        MapCurrentSnoc(ps, currentProjectId, e, i);
        var p := ps[i];
        if currentProjectId.Some? && p.id == currentProjectId.value {
          updated := updated + [ApplyEdit(p, e)];
        } else {
          updated := updated + [p];
        }
        i := i + 1;
      }
      assert ps[..i] == ps;
      projects := updated;
    }

    /** handleAddLayer */
    method AddLayer(now: nat)
      requires Valid()
      modifies this`projects, this`activeLayerId
      ensures Valid()
      ensures var current := CurrentProject(old(projects), old(currentProjectId));
        if !Truthy(old(currentProjectId)) || current.None? then
          projects == old(projects) && activeLayerId == old(activeLayerId)
        else
          var layer := NewDrawingLayer("layer-" + Decimal(now), "طبقة " + Decimal(|current.value.layers| + 1));
          && projects == MapCurrent(old(projects), currentProjectId, InsertLayer(layer, old(activeLayerId)))
          && activeLayerId == layer.id
      ensures Stacks0(Work()) == Stacks0(old(Work())) && currentProjectId == old(currentProjectId)
    {
      var current := CurrentProject(projects, currentProjectId);
      if !Truthy(currentProjectId) || current.None? {
        return;
      }
      var newLayer := NewDrawingLayer("layer-" + Decimal(now), "طبقة " + Decimal(|current.value.layers| + 1));
      EditCurrent(InsertLayer(newLayer, activeLayerId));
      activeLayerId := newLayer.id;
    }

    /** The FileReader onload handler of handleImportImageLayer, given the file name and the data url it read. */
    method ImportImageLayer(fileName: string, imageUrl: string, now: nat)
      requires Valid()
      modifies this`projects, this`activeLayerId
      ensures Valid()
      ensures if !Truthy(old(currentProjectId)) then
          projects == old(projects) && activeLayerId == old(activeLayerId)
        else
          var layer := Layer("layer-img-" + Decimal(now), fileName, true, false, 1.0, "source-over", ImageLayer, Some(imageUrl));
          && projects == MapCurrent(old(projects), currentProjectId, InsertLayer(layer, old(activeLayerId)))
          && activeLayerId == layer.id
      ensures Stacks0(Work()) == Stacks0(old(Work())) && currentProjectId == old(currentProjectId)
    {
      if !Truthy(currentProjectId) {
        return;
      }
      var newLayer := Layer("layer-img-" + Decimal(now), fileName, true, false, 1.0, "source-over", ImageLayer, Some(imageUrl));
      EditCurrent(InsertLayer(newLayer, activeLayerId));
      activeLayerId := newLayer.id;
    }

    /** The onDeleteLayer callback. */
    method DeleteLayer(id: string)
      modifies this`projects
      ensures projects == MapCurrent(old(projects), currentProjectId, RemoveLayer(id))
      ensures Stacks0(Work()) == Stacks0(old(Work())) && currentProjectId == old(currentProjectId)
      ensures activeLayerId == old(activeLayerId) && zoom == old(zoom)
    {
      EditCurrent(RemoveLayer(id));
    }

    /** The onUpdateLayer callback. */
    method UpdateLayer(id: string, patch: LayerPatch)
      modifies this`projects
      ensures projects == MapCurrent(old(projects), currentProjectId, ChangeLayer(id, patch))
      ensures Stacks0(Work()) == Stacks0(old(Work())) && currentProjectId == old(currentProjectId)
      ensures activeLayerId == old(activeLayerId) && zoom == old(zoom)
    {
      EditCurrent(ChangeLayer(id, patch));
    }

    /** handleCreateProject; the new project is returned for the deferred fitToView. */
    method CreateProject(name: string, width: int, height: int, now: nat) returns (created: Project)
      requires Valid()
      modifies this`projects, this`currentProjectId, this`activeLayerId, this`isProjectModalOpen
      ensures Valid()
      ensures created == NewProject(name, width, height, now)
      ensures projects == [created] + old(projects)
      ensures currentProjectId == Some(created.id) && activeLayerId == created.layers[0].id
      ensures !isProjectModalOpen
      ensures Stacks0(Work()) == Stacks0(old(Work())) && zoom == old(zoom)
    {
      var initialLayer := NewDrawingLayer("layer-" + Decimal(now), FirstLayerName);
      created := Project("proj-" + Decimal(now), name, width, height, Some("#ffffff"), [initialLayer], [], now);
      projects := [created] + projects;
      currentProjectId := Some(created.id);
      activeLayerId := initialLayer.id;
      isProjectModalOpen := false;
    }

    /** handleDeleteProject */
    method DeleteProject(id: string)
      requires Valid()
      modifies this`projects, this`currentProjectId, this`activeLayerId, this`isProjectModalOpen
      ensures Valid()
      ensures projects == RemoveProjects(old(projects), id)
      ensures old(currentProjectId) != Some(id) ==>
        currentProjectId == old(currentProjectId) && activeLayerId == old(activeLayerId) && isProjectModalOpen == old(isProjectModalOpen)
      ensures old(currentProjectId) == Some(id) && |projects| > 0 ==>
        currentProjectId == Some(projects[0].id) && activeLayerId == FirstLayerId(projects[0]) && isProjectModalOpen == old(isProjectModalOpen)
      ensures old(currentProjectId) == Some(id) && |projects| == 0 ==>
        currentProjectId.None? && activeLayerId == "" && isProjectModalOpen
      ensures Stacks0(Work()) == Stacks0(old(Work())) && zoom == old(zoom)
    {
      var updated := RemoveProjects(projects, id);
      if currentProjectId == Some(id) {
        if |updated| > 0 {
          currentProjectId := Some(updated[0].id);
          activeLayerId := FirstLayerId(updated[0]);
        } else {
          currentProjectId := None;
          activeLayerId := "";
          isProjectModalOpen := true;
        }
      }
      projects := updated;
    }

    /** The project modal's onSelect callback; fitToView follows it. */
    method SelectProject(p: Project)
      requires Valid()
      modifies this`currentProjectId, this`activeLayerId, this`isProjectModalOpen
      ensures Valid()
      ensures currentProjectId == Some(p.id) && activeLayerId == FirstLayerId(p) && !isProjectModalOpen
      ensures Work() == old(Work()) && zoom == old(zoom)
    {
      currentProjectId := Some(p.id);
      activeLayerId := FirstLayerId(p);
      isProjectModalOpen := false;
    }

    /** fitToView; `area` is the main element's size, None when it is not mounted. */
    method FitToView(project: Project, area: Option<Vec>)
      requires Valid() && project.width > 0 && project.height > 0
      modifies this`zoom, this`pan
      ensures Valid()
      ensures area.None? ==> zoom == old(zoom) && pan == old(pan)
      ensures area.Some? ==> zoom == FitZoom(area.value, project) && pan == Vec(0.0, 0.0)
      ensures Work() == old(Work()) && currentProjectId == old(currentProjectId)
    {
      if area.None? {
        return;
      }
      zoom := FitZoom(area.value, project);
      pan := Vec(0.0, 0.0);
    }

    method ZoomInButton()
      requires Valid()
      modifies this`zoom
      ensures Valid() && zoom == ZoomIn(old(zoom)) && Work() == old(Work())
    {
      zoom := ZoomIn(zoom);
    }

    method ZoomOutButton()
      requires Valid()
      modifies this`zoom
      ensures Valid() && zoom == ZoomOut(old(zoom)) && Work() == old(Work())
    {
      zoom := ZoomOut(zoom);
    }

    /** The stage's reset-view button: setZoom(0.8) and setPan({x: 0, y: 0}). */
    method ResetView()
      modifies this`zoom, this`pan
      ensures Valid() && zoom == InitialZoom && pan == Vec(0.0, 0.0) && Work() == old(Work())
    {
      zoom := InitialZoom;
      pan := Vec(0.0, 0.0);
    }

    /** The stage's setPan callback. */
    method SetPan(p: Vec)
      requires Valid()
      modifies this`pan
      ensures Valid() && pan == p && zoom == old(zoom) && Work() == old(Work())
    {
      pan := p;
    }

    method KeyDown(code: string, repeat: bool)
      requires Valid()
      modifies this`activeTool, this`previousTool
      ensures Valid()
      ensures Tools(activeTool, previousTool) == KeyDownSpec(old(Tools(activeTool, previousTool)), code, repeat)
      ensures Work() == old(Work()) && zoom == old(zoom)
    {
      if code == "Space" && !repeat && activeTool != Hand {
        previousTool := activeTool;
        activeTool := Hand;
      }
    }

    method KeyUp(code: string)
      requires Valid()
      modifies this`activeTool
      ensures Valid()
      ensures Tools(activeTool, previousTool) == KeyUpSpec(old(Tools(activeTool, previousTool)), code)
      ensures Work() == old(Work()) && zoom == old(zoom)
    {
      if code == "Space" && activeTool == Hand {
        activeTool := previousTool;
      }
    }

    /** handleExportPNG: the commands painted on the final canvas, or None when no file is produced. */
    method ExportPNG(loads: string -> bool, hypot: (real, real) -> real, radians: real -> real) returns (output: Option<seq<Command>>)
      ensures output == ExportCommands(CurrentProject(projects, currentProjectId), loads, hypot, radians)
    {
      var current := CurrentProject(projects, currentProjectId);
      if current.None? {
        return None;
      }
      var project := current.value;
      var finalCtx := new Surface();
      finalCtx.SetColor(OrElse(project.backgroundColor, "#ffffff"));
      finalCtx.Paint(FillRect(project.width, project.height));
      var base := BackgroundStyle(project);
      assert finalCtx.style == base;

      var imageMap := LoadImages(ImageLayersToLoad(project.layers), loads);
      if imageMap.None? {
        return None;
      }
      assert finalCtx.log == [Draw(FillRect(project.width, project.height), base)];
      CompositeLayers(finalCtx, project, imageMap.value, base, hypot, radians);
      output := Some(finalCtx.log);
      assert output == Some([Draw(FillRect(project.width, project.height), base)] +
                            CompositeCommands(project.layers, project, ImageMap(ImageLayersToLoad(project.layers)), base, hypot, radians));
    }
  }

  /** The Promise.all over the image layers: the id-to-picture map, or None when a picture fails to load. */
  method LoadImages(imageLayers: seq<Layer>, loads: string -> bool) returns (imageMap: Option<map<string, string>>)
    ensures imageMap.None? <==> !AllLoad(imageLayers, loads)
    ensures imageMap.Some? ==> imageMap.value == ImageMap(imageLayers)
  {
    var m: map<string, string> := map[];
    var j := 0;
    while j < |imageLayers|
      invariant 0 <= j <= |imageLayers|
      invariant AllLoad(imageLayers[..j], loads)
      invariant m == ImageMap(imageLayers[..j])
    {
      var layer := imageLayers[j];
      assert imageLayers[..j + 1][..j] == imageLayers[..j] && imageLayers[..j + 1][j] == layer;
      var url := OrElse(layer.imageUrl, "");
      if !loads(url) {
        assert !AllLoad(imageLayers, loads);
        return None;
      }
      m := m[layer.id := url];
      j := j + 1;
    }
    assert imageLayers[..j] == imageLayers;
    return Some(m);
  }

  /** The export's loop over the layers, compositing each visible layer canvas onto the final canvas. */
  method CompositeLayers(finalCtx: Surface, project: Project, imageMap: map<string, string>, base: Style,
                         hypot: (real, real) -> real, radians: real -> real)
    requires finalCtx.style == base && finalCtx.saved == []
    modifies finalCtx
    ensures finalCtx.style == base && finalCtx.saved == []
    ensures finalCtx.log == old(finalCtx.log) + CompositeCommands(project.layers, project, imageMap, base, hypot, radians)
  {
    var layers := project.layers;
    var i := 0;
    while i < |layers|
      invariant 0 <= i <= |layers|
      invariant finalCtx.style == base && finalCtx.saved == []
      invariant finalCtx.log == old(finalCtx.log) + CompositeCommands(layers[..i], project, imageMap, base, hypot, radians)
    {
      var layer := layers[i];
      assert layers[..i + 1][..i] == layers[..i] && layers[..i + 1][i] == layer;
      if layer.isVisible {
        CompositeLayer(finalCtx, layer, project, imageMap, base, hypot, radians);
      }
      i := i + 1;
    }
    assert layers[..i] == layers;
  }

  /** One visible layer: draw its canvas, then composite it under the layer's opacity and blend mode. */
  method CompositeLayer(finalCtx: Surface, layer: Layer, project: Project, imageMap: map<string, string>, base: Style,
                        hypot: (real, real) -> real, radians: real -> real)
    requires finalCtx.style == base && finalCtx.saved == []
    modifies finalCtx
    ensures finalCtx.style == base && finalCtx.saved == []
    ensures finalCtx.log == old(finalCtx.log) + [CompositeCommand(layer, project, imageMap, base, hypot, radians)]
  {
    var content := RenderExportLayer(layer, project, imageMap, hypot, radians);
    finalCtx.Save();
    finalCtx.SetGlobalAlpha(layer.opacity);
    finalCtx.SetCompositeOp(layer.blendMode);
    finalCtx.Paint(Composite(content));
    finalCtx.Restore();
  }

  /** One layer canvas of the export: the layer's image stretched over the canvas, or its strokes. */
  method RenderExportLayer(layer: Layer, project: Project, imageMap: map<string, string>,
                           hypot: (real, real) -> real, radians: real -> real) returns (content: seq<Command>)
    ensures content == LayerContent(layer, project, imageMap, hypot, radians)
  {
    var layerCtx := new Surface();
    if layer.layerType == ImageLayer {
      if layer.id in imageMap {
        layerCtx.Paint(Picture(imageMap[layer.id], project.width, project.height));
      }
    } else {
      var layerStrokes := LayerStrokes(project.strokes, layer.id);
      DrawStrokes(layerCtx, layerStrokes, hypot, radians);
    }
    content := layerCtx.log;
  }

  /** Every handler keeps the zoom in range, so the stage always receives a positive zoom. */
  lemma ZoomAlwaysPositive(z: real, area: Vec, project: Project)
    requires MinZoom <= z <= MaxZoom && project.width > 0 && project.height > 0
    ensures ZoomIn(z) > 0.0 && ZoomOut(z) > 0.0 && FitZoom(area, project) > 0.0 && InitialZoom > 0.0
  {
  }
}
