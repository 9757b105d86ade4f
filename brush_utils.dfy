/**
 * Brush sharing and export (utils/brushUtils.ts): a share link is the
 * Base64 of the percent-encoded JSON of the brush, with '' for a brush that
 * cannot be encoded and null for a link that cannot be decoded; an exported
 * brush file is named after the brush with whitespace runs turned into '_'.
 *
 * JSON.stringify and JSON.parse are parameters: the model only relies on
 * parse reading back what stringify wrote.
 */
module BrushUtils {
  import opened Types
  import opened JsBuiltins
  import opened WebCodecs

  /** The fields of a parsed brush object the application reads; each may be absent. */
  datatype BrushJson = BrushJson(
    id: Option<string>,
    name: Option<string>,
    brushType: Option<BrushType>,
    settings: Option<BrushSettings>,
    isDefault: Option<bool>,
    category: Option<Category>)

  /** What JSON.parse can return, as far as brush handling can tell apart. */
  datatype JsonValue = ObjectValue(fields: BrushJson) | NullValue | OtherValue

  /** The object a brush is written out as. */
  function ToJson(b: Brush): (j: BrushJson)
    ensures j.id == Some(b.id) && j.name == Some(b.name) && j.settings == Some(b.settings)
    ensures j.isDefault == b.isDefault
  {
    BrushJson(Some(b.id), Some(b.name), Some(b.brushType), Some(b.settings), b.isDefault, Some(b.category))
  }

  // ---------------------------------------------------------------------
  // Share links
  // ---------------------------------------------------------------------

  /**
   * encodeBrushForLink: btoa(encodeURIComponent(JSON.stringify(brush))), or ''
   * when stringify throws. The link is Base64 text: the alphabet of section 4
   * of RFC 4648 and '=', a multiple of four characters long.
   */
  function EncodeBrushForLink(b: Brush, stringify: Brush -> Option<string>): (r: string)
    ensures stringify(b).None? ==> r == ""
    ensures |r| % 4 == 0 && forall i :: 0 <= i < |r| ==> Base64OutputChar(r[i])
  {
    match stringify(b)
    case None => ""
    case Some(json) =>
      EncodedIsLatin1(json);
      BtoaOutput(EncodeURIComponent(json));
      Btoa(EncodeURIComponent(json)).value
  }

  /**
   * decodeBrushFromLink: JSON.parse(decodeURIComponent(atob(encoded))), or
   * null when any of the three steps throws. The parsed value is passed on
   * unchecked.
   */
  function DecodeBrushFromLink(encoded: string, parse: string -> Option<JsonValue>): (r: JsonValue)
    ensures Atob(encoded).None? ==> r == NullValue
    ensures Atob(encoded).Some? && DecodeURIComponent(Atob(encoded).value).None? ==> r == NullValue
  {
    match Atob(encoded)
    case None => NullValue
    case Some(text) =>
      match DecodeURIComponent(text)
      case None => NullValue
      case Some(json) =>
        match parse(json)
        case None => NullValue
        case Some(v) => v
  }

  /** A link made from a brush decodes to that brush, given that parse reads back what stringify writes. */
  lemma LinkRoundTrip(b: Brush, stringify: Brush -> Option<string>, parse: string -> Option<JsonValue>)
    requires stringify(b).Some?
    requires parse(stringify(b).value) == Some(ObjectValue(ToJson(b)))
    ensures DecodeBrushFromLink(EncodeBrushForLink(b, stringify), parse) == ObjectValue(ToJson(b))
  {
    var json := stringify(b).value;
    var uri := EncodeURIComponent(json);
    EncodedIsLatin1(json);
    Base64RoundTrip(uri);
    UriRoundTrip(json);
  }

  /** The '' sentinel of a failed encoding decodes to null, because JSON.parse rejects the empty text. */
  lemma EmptyLinkIsNull(parse: string -> Option<JsonValue>)
    requires parse("") == None
    ensures DecodeBrushFromLink("", parse) == NullValue
  {
    assert RemoveWhitespace("") == "";
    assert SextetBytes(Values("")) == [];
  }

  /** A link that decodes to text JSON.parse rejects gives null. */
  lemma BadJsonIsNull(encoded: string, parse: string -> Option<JsonValue>)
    requires Atob(encoded).Some? && DecodeURIComponent(Atob(encoded).value).Some?
    requires parse(DecodeURIComponent(Atob(encoded).value).value).None?
    ensures DecodeBrushFromLink(encoded, parse) == NullValue
  {
  }

  // ---------------------------------------------------------------------
  // Export to a file
  // ---------------------------------------------------------------------

  /** `name.replace(/\s+/g, '_')`: every maximal run of whitespace becomes one '_'. */
  function ReplaceWhitespaceRuns(s: string): (r: string)
    ensures forall i :: 0 <= i < |r| ==> !IsJsWhitespace(r[i])
    decreases |s|
  {
    if s == [] then []
    else if IsJsWhitespace(s[0]) then "_" + ReplaceWhitespaceRuns(TrimStart(s))
    else [s[0]] + ReplaceWhitespaceRuns(s[1..])
  }

  /**
   * An independent, one-character-at-a-time reading of the same rule: a
   * whitespace character gives '_' when the character before it is not
   * whitespace and nothing otherwise; every other character is copied.
   */
  function Collapse(s: string, afterSpace: bool): string {
    if s == [] then []
    else if IsJsWhitespace(s[0]) then (if afterSpace then "" else "_") + Collapse(s[1..], true)
    else [s[0]] + Collapse(s[1..], false)
  }

  lemma {:induction false} CollapseAfterSpace(s: string)
    ensures Collapse(s, true) == Collapse(TrimStart(s), false)
  {
    if s != [] && IsJsWhitespace(s[0]) {
      CollapseAfterSpace(s[1..]);
      assert "" + Collapse(s[1..], true) == Collapse(s[1..], true);
    }
  }

  /** Replacing whitespace runs agrees with the character-at-a-time rule. */
  lemma {:induction false} ReplaceMatchesCollapse(s: string)
    ensures ReplaceWhitespaceRuns(s) == Collapse(s, false)
    decreases |s|
  {
    if s != [] {
      if IsJsWhitespace(s[0]) {
        ReplaceMatchesCollapse(TrimStart(s));
        CollapseAfterSpace(s[1..]);
      } else {
        ReplaceMatchesCollapse(s[1..]);
      }
    }
  }

  /** A name without whitespace is kept as it is. */
  lemma {:induction false} ReplaceIdentity(s: string)
    requires forall i :: 0 <= i < |s| ==> !IsJsWhitespace(s[i])
    ensures ReplaceWhitespaceRuns(s) == s
  {
    if s != [] {
      ReplaceIdentity(s[1..]);
      assert s == [s[0]] + s[1..];
    }
  }

  /** Replacing twice is replacing once. */
  lemma ReplaceIdempotent(s: string)
    ensures ReplaceWhitespaceRuns(ReplaceWhitespaceRuns(s)) == ReplaceWhitespaceRuns(s)
  {
    ReplaceIdentity(ReplaceWhitespaceRuns(s));
  }

  /** The download exportBrushToFile starts: a file name and its JSON content. */
  datatype BrushFile = BrushFile(fileName: string, mimeType: string, content: string)

  /** The file name: the brush name with whitespace runs replaced, then ".brush". */
  function ExportFileName(name: string): (r: string)
    ensures |r| >= 6 && r[|r| - 6..] == ".brush"
    ensures forall i :: 0 <= i < |r| ==> !IsJsWhitespace(r[i])
  {
    ReplaceWhitespaceRuns(name) + ".brush"
  }

  /** exportBrushToFile: the whole brush as 2-space-indented JSON (`pretty`), in an application/json file named after it. */
  function ExportBrushToFile(b: Brush, pretty: Brush -> string): (r: BrushFile)
    ensures r.fileName == ExportFileName(b.name) && r.mimeType == "application/json"
    ensures r.content == pretty(b)
  {
    BrushFile(ExportFileName(b.name), "application/json", pretty(b))
  }
}
