/**
 * The new-canvas dialog (components/ProjectModal.tsx): its initial state,
 * the preset buttons, the backdrop's close guard and the sanitising of the
 * name and size handed to project creation.
 *
 * The size fields hold whatever Number(text) gave, so a dimension is a full
 * JavaScript number here: finite, NaN or one of the infinities.
 */
module ProjectModal {
  import opened JsBuiltins
  import Constants

  datatype JsNum = Num(value: real) | NaN | PosInf | NegInf

  /** Math.floor on a JavaScript number. */
  function JsFloor(x: JsNum): (r: JsNum)
    ensures x.Num? ==> r == Num(x.value.Floor as real)
    ensures !x.Num? ==> r == x
  {
    if x.Num? then Num(x.value.Floor as real) else x
  }

  /** Math.max(1, x): NaN stays NaN, +Infinity stays, -Infinity gives 1. */
  function MaxOne(x: JsNum): (r: JsNum)
    ensures x.NaN? <==> r.NaN?
  {
    match x
    case Num(v) => Num(if v >= 1.0 then v else 1.0)
    case NaN => NaN
    case PosInf => PosInf
    case NegInf => Num(1.0)
  }

  const DefaultName := "مشروع جديد"
  const UntitledName := "مشروع بدون اسم"

  /** `name.trim() || 'مشروع بدون اسم'`: the name a project is created with. */
  function CreateName(name: string): (r: string)
    ensures r != []
    ensures Trim(name) != [] ==> r == Trim(name)
    ensures Trim(name) == [] ==> r == UntitledName
  {
    if Trim(name) != [] then Trim(name) else UntitledName
  }

  /** A name made only of whitespace, the empty name included, becomes the untitled name. */
  lemma BlankNameIsUntitled(name: string)
    requires forall i :: 0 <= i < |name| ==> IsJsWhitespace(name[i])
    ensures CreateName(name) == UntitledName
  {
    TrimEmptyIffAllWhitespace(name);
  }

  // ---------------------------------------------------------------------
  // The size sanitiser, as written and corrected
  // ---------------------------------------------------------------------

  /** One dimension as handleCreate computes it: isNaN(d) ? 2048 : d, then Math.max(1, Math.floor(.)). */
  function SanitizeAsWritten(d: JsNum): (r: JsNum)
    ensures !r.NaN? && !r.NegInf?
  {
    MaxOne(JsFloor(if d.NaN? then Num(2048.0) else d))
  }

  /** isNaN does not catch Infinity, so an infinite width reaches project creation. */
  lemma InfinityPassesSanitizer()
    ensures SanitizeAsWritten(PosInf) == PosInf
  {
  }

  /** The sanitiser with the finiteness test the comment above it describes: anything but a finite number falls back to 2048. */
  function Sanitize(d: JsNum): (r: int)
    ensures r >= 1
    ensures d.Num? ==> r == (if d.value.Floor >= 1 then d.value.Floor else 1)
    ensures !d.Num? ==> r == 2048
  {
    var sane := if d.Num? then d.value else 2048.0;
    if sane.Floor >= 1 then sane.Floor else 1
  }

  /** On NaN and on finite numbers the corrected sanitiser agrees with the code as written. */
  lemma SanitizeAgrees(d: JsNum)
    requires d.Num? || d.NaN?
    ensures SanitizeAsWritten(d) == Num(Sanitize(d) as real)
  {
  }

  datatype CreateArgs = CreateArgs(name: string, width: int, height: int)

  /** handleCreate, corrected: a non-empty name and integer dimensions of at least 1. */
  function HandleCreate(name: string, w: JsNum, h: JsNum): (r: CreateArgs)
    ensures r.width >= 1 && r.height >= 1 && r.name != []
    ensures w.NaN? ==> r.width == 2048
    ensures h.NaN? ==> r.height == 2048
  {
    CreateArgs(CreateName(name), Sanitize(w), Sanitize(h))
  }

  /** Values below 1, zero and negatives included, become 1; whole values of at least 1 are kept. */
  lemma SanitizeClamps(v: real)
    ensures v < 1.0 ==> Sanitize(Num(v)) == 1
    ensures v >= 1.0 && v.Floor as real == v ==> Sanitize(Num(v)) == v.Floor
  {
  }

  /** Creating from any preset passes the preset's own width and height on. */
  lemma PresetCreatesItsSize(name: string, i: nat)
    requires i < |Constants.CanvasPresets|
    ensures var p := Constants.CanvasPresets[i];
      HandleCreate(name, Num(p.width as real), Num(p.height as real)) == CreateArgs(CreateName(name), p.width, p.height)
  {
    Constants.PresetsAndTextures();
  }

  // ---------------------------------------------------------------------
  // The dialog's state
  // ---------------------------------------------------------------------

  datatype Tab = NewTab | RecentTab

  /** The backdrop closes the dialog only when there are projects to go back to. */
  function BackdropCloses(projectCount: nat): (r: bool)
    ensures r <==> projectCount > 0
  {
    projectCount > 0
  }

  class ModalState {
    var activeTab: Tab
    var name: string
    var customWidth: JsNum
    var customHeight: JsNum

    /** The dialog opens on the recent tab exactly when projects exist, with the default name and a 2048 x 2048 size. */
    constructor (projectCount: nat)
      ensures activeTab == (if projectCount > 0 then RecentTab else NewTab)
      ensures name == DefaultName && customWidth == Num(2048.0) && customHeight == Num(2048.0)
    {
      activeTab := if projectCount > 0 then RecentTab else NewTab;
      name := DefaultName;
      customWidth := Num(2048.0);
      customHeight := Num(2048.0);
    }

    /** handleSelectPreset: both dimensions take the preset's values. */
    method SelectPreset(w: int, h: int)
      modifies this
      ensures customWidth == Num(w as real) && customHeight == Num(h as real)
      ensures activeTab == old(activeTab) && name == old(name)
    {
      customWidth := Num(w as real);
      customHeight := Num(h as real);
    }

    /** A size field's onChange: the field holds Number(text). */
    method SetWidth(v: JsNum)
      modifies this
      ensures customWidth == v
      ensures customHeight == old(customHeight) && activeTab == old(activeTab) && name == old(name)
    {
      customWidth := v;
    }

    method SetHeight(v: JsNum)
      modifies this
      ensures customHeight == v
      ensures customWidth == old(customWidth) && activeTab == old(activeTab) && name == old(name)
    {
      customHeight := v;
    }

    method SetName(s: string)
      modifies this
      ensures name == s
      ensures customWidth == old(customWidth) && customHeight == old(customHeight) && activeTab == old(activeTab)
    {
      name := s;
    }

    method SetTab(t: Tab)
      modifies this
      ensures activeTab == t
      ensures customWidth == old(customWidth) && customHeight == old(customHeight) && name == old(name)
    {
      activeTab := t;
    }

    /** The create button: the sanitised name and size, leaving the dialog's state as it is. */
    method Create() returns (args: CreateArgs)
      ensures args == HandleCreate(name, customWidth, customHeight)
      ensures args.width >= 1 && args.height >= 1
    {
      args := HandleCreate(name, customWidth, customHeight);
    }
  }

  /** Opening the dialog and creating straight away gives a 2048 x 2048 canvas named after the default name. */
  method CreateFromFreshDialog(projectCount: nat) returns (args: CreateArgs)
    ensures args == CreateArgs(DefaultName, 2048, 2048)
  {
    var m := new ModalState(projectCount);
    TrimKeeps(DefaultName);
    args := m.Create();
  }
}
