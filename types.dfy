/**
 * The data model of the drawing application: brushes and their settings,
 * captured points and strokes, layers and projects, and the tool enums.
 * Coordinates carry an explicit NaN case, because the capture path and the
 * renderer both test for it.
 */
module Types {

  datatype Option<+T> = None | Some(value: T)

  datatype BrushType = Raster | VectorCalligraphy

  datatype ToolType = Pen | Eraser | Hand

  datatype Category = Sketch | Calligraphy | Custom | Library

  /** The settings a stroke snapshots from its brush when it is started. */
  datatype BrushSettings = BrushSettings(
    size: real,
    angle: real,           // nib rotation in degrees
    roundness: real,       // 100 is a round pen; below 100 an elliptic nib
    opacity: real,
    pressureSensitivity: bool,
    stabilization: real,
    hardness: real,
    minSize: real,
    maxSize: real,
    textureUrl: Option<string>,
    textureScale: Option<real>)

  datatype Brush = Brush(
    id: string,
    name: string,
    brushType: BrushType,
    settings: BrushSettings,
    isDefault: Option<bool>,
    category: Category)

  /** A floating-point coordinate: a finite value or NaN. */
  datatype Coord = Finite(value: real) | NaN

  datatype Point = Point(x: Coord, y: Coord, pressure: real, timestamp: int)

  datatype Stroke = Stroke(
    id: string,
    brushId: string,
    brushSettings: BrushSettings,
    color: string,
    points: seq<Point>,
    layerId: string)

  datatype LayerType = DrawingLayer | ImageLayer

  datatype Layer = Layer(
    id: string,
    name: string,
    isVisible: bool,
    isLocked: bool,
    opacity: real,
    blendMode: string,
    layerType: LayerType,
    imageUrl: Option<string>)

  datatype Project = Project(
    id: string,
    name: string,
    width: int,
    height: int,
    backgroundColor: Option<string>,
    layers: seq<Layer>,
    strokes: seq<Stroke>,
    lastModified: int)

  /** A screen-space position or offset (client coordinates, pan). */
  datatype Vec = Vec(x: real, y: real)
}

/**
 * The few JavaScript built-ins the application relies on, with their
 * JavaScript meaning: truthiness of optional strings, Math.min/max/ceil on
 * finite numbers, String(n) for whole numbers and the whitespace class of
 * regular expressions and String.prototype.trim.
 */
module JsBuiltins {
  import opened Types

  function Min(a: real, b: real): (r: real)
    ensures r <= a && r <= b && (r == a || r == b)
  {
    if a <= b then a else b
  }

  function Max(a: real, b: real): (r: real)
    ensures r >= a && r >= b && (r == a || r == b)
  {
    if a >= b then a else b
  }

  /** Math.ceil on a finite number. */
  function Ceil(x: real): (r: int)
    ensures r as real >= x && (r - 1) as real < x
  {
    -((-x).Floor)
  }

  /** An optional string is truthy when it is present and not empty. */
  predicate Truthy(s: Option<string>) {
    s.Some? && s.value != ""
  }

  /** `s || fallback` on an optional string. */
  function OrElse(s: Option<string>, fallback: string): (r: string)
    ensures Truthy(s) ==> r == s.value
    ensures !Truthy(s) ==> r == fallback
  {
    if Truthy(s) then s.value else fallback
  }

  function DigitChar(d: int): (c: char)
    requires 0 <= d < 10
    ensures '0' <= c <= '9'
  {
    ('0' as int + d) as char
  }

  /** String(n) for a whole number n >= 0, as used to build ids from Date.now(). */
  function Decimal(n: nat): (s: string)
    ensures |s| >= 1
    ensures forall i :: 0 <= i < |s| ==> '0' <= s[i] <= '9'
  {
    if n < 10 then [DigitChar(n)] else Decimal(n / 10) + [DigitChar(n % 10)]
  }

  /** The characters matched by `\s` in a regular expression and removed by trim(). */
  predicate IsJsWhitespace(c: char) {
    c == '\t' || c == '\n' || c == '\U{000B}' || c == '\U{000C}' || c == '\r' || c == ' ' ||
    c == '\U{00A0}' || c == '\U{1680}' || ('\U{2000}' <= c <= '\U{200A}') ||
    c == '\U{2028}' || c == '\U{2029}' || c == '\U{202F}' || c == '\U{205F}' ||
    c == '\U{3000}' || c == '\U{FEFF}'
  }

  function TrimStart(s: string): (r: string)
    ensures |r| <= |s| && r == s[|s| - |r|..]
    ensures r == [] || !IsJsWhitespace(r[0])
    ensures forall i :: 0 <= i < |s| - |r| ==> IsJsWhitespace(s[i])
  {
    if s == [] || !IsJsWhitespace(s[0]) then s else TrimStart(s[1..])
  }

  function TrimEnd(s: string): (r: string)
    ensures |r| <= |s| && r == s[..|r|]
    ensures r == [] || !IsJsWhitespace(r[|r| - 1])
    ensures forall i :: |r| <= i < |s| ==> IsJsWhitespace(s[i])
  {
    if s == [] || !IsJsWhitespace(s[|s| - 1]) then s else TrimEnd(s[..|s| - 1])
  }

  /** String.prototype.trim. */
  function Trim(s: string): (r: string)
    ensures r == [] || (!IsJsWhitespace(r[0]) && !IsJsWhitespace(r[|r| - 1]))
  {
    TrimEnd(TrimStart(s))
  }

  /** A string that neither starts nor ends with whitespace is its own trim. */
  lemma TrimKeeps(s: string)
    requires s != [] && !IsJsWhitespace(s[0]) && !IsJsWhitespace(s[|s| - 1])
    ensures Trim(s) == s
  {
  }

  /** A trimmed string is empty exactly when every character was whitespace. */
  lemma TrimEmptyIffAllWhitespace(s: string)
    ensures Trim(s) == [] <==> forall i :: 0 <= i < |s| ==> IsJsWhitespace(s[i])
  {
    var a := TrimStart(s);
    if Trim(s) == [] && a != [] {
      assert false;
    }
  }
}
