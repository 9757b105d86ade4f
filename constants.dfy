/**
 * The constant tables of constants.tsx: blend modes, paper textures, canvas
 * presets and the built-in brush sets, with the invariants the rest of the
 * application relies on.
 */
module Constants {
  import opened Types

  datatype BlendMode = BlendMode(id: string, name: string)

  datatype Texture = Texture(id: string, name: string, url: string)

  datatype CanvasPreset = CanvasPreset(id: string, name: string, width: int, height: int)

  const BlendModes: seq<BlendMode> := [
    BlendMode("source-over", "عادي (Normal)"),
    BlendMode("multiply", "ضرب (Multiply)"),
    BlendMode("screen", "شاشة (Screen)"),
    BlendMode("overlay", "تراكب (Overlay)"),
    BlendMode("darken", "تغميق (Darken)"),
    BlendMode("lighten", "تفتيح (Lighten)"),
    BlendMode("color-dodge", "تفادي اللون (Color Dodge)"),
    BlendMode("color-burn", "حرق اللون (Color Burn)"),
    BlendMode("hard-light", "ضوء شديد (Hard Light)"),
    BlendMode("soft-light", "ضوء ناعم (Soft Light)"),
    BlendMode("difference", "فرق (Difference)"),
    BlendMode("exclusion", "استبعاد (Exclusion)"),
    BlendMode("hue", "صبغة (Hue)"),
    BlendMode("saturation", "تشبع (Saturation)"),
    BlendMode("color", "لون (Color)"),
    BlendMode("luminosity", "إضاءة (Luminosity)")
  ]

  const Textures: seq<Texture> := [
    Texture("none", "بدون (None)", ""),
    Texture("grain", "حبيبات (Grain)", "https://www.transparenttextures.com/patterns/carbon-fibre.png"),
    Texture("canvas", "قماش (Canvas)", "https://www.transparenttextures.com/patterns/canvas-orange.png"),
    Texture("paper", "ورق (Paper)", "https://www.transparenttextures.com/patterns/handmade-paper.png"),
    Texture("charcoal", "فحم (Rough)", "https://www.transparenttextures.com/patterns/asfalt-dark.png")
  ]

  const CanvasPresets: seq<CanvasPreset> := [
    CanvasPreset("a4", "A4 (210x297mm)", 2480, 3508),
    CanvasPreset("square", "مربع (Square)", 2048, 2048),
    CanvasPreset("screen", "شاشة (Screen)", 1920, 1080)
  ]

  /** Every built-in brush is pressure-sensitive, and the textured ones have texture scale 1. */
  function Settings(size: real, angle: real, roundness: real, opacity: real, stabilization: real,
                    hardness: real, minSize: real, maxSize: real, textureUrl: Option<string>): BrushSettings
  {
    BrushSettings(size, angle, roundness, opacity, true, stabilization, hardness, minSize, maxSize,
                  textureUrl, if textureUrl.Some? then Some(1.0) else None)
  }

  const DefaultBrushes: seq<Brush> := [
    Brush("b-pencil", "قلم رصاص (Pencil)", Raster,
          Settings(5.0, 0.0, 100.0, 0.8, 0.0, 0.8, 1.0, 10.0, Some("https://www.transparenttextures.com/patterns/handmade-paper.png")),
          Some(true), Sketch),
    Brush("b-charcoal", "قلم فحم (Charcoal Pencil)", Raster,
          Settings(15.0, 0.0, 90.0, 0.7, 0.05, 0.5, 3.0, 30.0, Some("https://www.transparenttextures.com/patterns/asfalt-dark.png")),
          Some(true), Sketch),
    Brush("b-soft-sketch", "اسكتش ناعم (Soft Sketch)", Raster,
          Settings(20.0, 0.0, 100.0, 0.4, 0.0, 0.2, 5.0, 40.0, None),
          Some(true), Sketch),
    Brush("b-ink", "حبر (Ink)", Raster,
          Settings(8.0, 0.0, 100.0, 1.0, 0.02, 1.0, 2.0, 15.0, None),
          Some(true), Sketch),
    Brush("b-reed-pen", "قلم قصب (Reed Pen)", VectorCalligraphy,
          Settings(30.0, 60.0, 15.0, 1.0, 0.1, 1.0, 5.0, 80.0, None),
          Some(true), Calligraphy),
    Brush("b-cal-thin", "خطاط رفيع (Calligraphy Thin)", VectorCalligraphy,
          Settings(15.0, 45.0, 20.0, 1.0, 0.05, 1.0, 10.0, 25.0, None),
          Some(true), Calligraphy),
    Brush("b-cal-med", "خطاط متوسط (Calligraphy Med)", VectorCalligraphy,
          Settings(30.0, 45.0, 15.0, 1.0, 0.08, 1.0, 20.0, 50.0, None),
          Some(true), Calligraphy),
    Brush("b-cal-bold", "خطاط عريض (Calligraphy Bold)", VectorCalligraphy,
          Settings(60.0, 45.0, 10.0, 1.0, 0.1, 1.0, 40.0, 100.0, None),
          Some(true), Calligraphy)
  ]

  const LibraryBrushes: seq<Brush> := [
    Brush("lib-diwani", "قلم ديواني (Diwani Pen)", VectorCalligraphy,
          Settings(40.0, 30.0, 12.0, 1.0, 0.1, 1.0, 20.0, 70.0, None),
          Some(false), Library),
    Brush("lib-thuluth", "قلم ثلث (Thuluth Pen)", VectorCalligraphy,
          Settings(55.0, 75.0, 8.0, 1.0, 0.15, 1.0, 30.0, 120.0, None),
          Some(false), Library)
  ]

  /** The built-in brushes the brush panel lists: the default set, then the library. */
  const AllBrushes: seq<Brush> := DefaultBrushes + LibraryBrushes

  /** The settings ranges the sliders and the renderer assume. */
  predicate WellFormedSettings(s: BrushSettings) {
    s.minSize <= s.maxSize && 1.0 <= s.roundness <= 100.0 &&
    0.0 <= s.stabilization <= 1.0 && 0.0 < s.opacity <= 1.0
  }

  /** The brush renders in stamp (calligraphy) mode. */
  predicate StampMode(b: Brush) {
    b.settings.roundness < 100.0
  }

  predicate DistinctModeIds(ms: seq<BlendMode>) {
    forall i, j :: 0 <= i < j < |ms| ==> ms[i].id != ms[j].id
  }

  predicate DistinctBrushIds(bs: seq<Brush>) {
    forall i, j :: 0 <= i < j < |bs| ==> bs[i].id != bs[j].id
  }

  /** Ids i < j, drawn from positions [lo1, hi1) and [lo2, hi2), differ. */
  predicate ModeIdsDiffer(lo1: nat, hi1: nat, lo2: nat, hi2: nat)
    requires hi1 <= |BlendModes| && hi2 <= |BlendModes|
  {
    forall i, j :: lo1 <= i < hi1 && lo2 <= j < hi2 && i < j ==> BlendModes[i].id != BlendModes[j].id
  }

  lemma FirstHalfModes()
    ensures ModeIdsDiffer(0, 8, 0, 8)
  {
  }

  lemma SecondHalfModes()
    ensures ModeIdsDiffer(8, 16, 8, 16)
  {
  }

  lemma CrossHalfModes()
    ensures ModeIdsDiffer(0, 8, 8, 16)
  {
  }

  /** Sixteen blend modes with pairwise distinct ids, the first being the canvas default. */
  lemma BlendModesTable()
    ensures |BlendModes| == 16
    ensures DistinctModeIds(BlendModes)
    ensures BlendModes[0].id == "source-over"
  {
    FirstHalfModes();
    SecondHalfModes();
    CrossHalfModes();
    forall i, j | 0 <= i < j < 16 ensures BlendModes[i].id != BlendModes[j].id {
      if j < 8 {
        assert ModeIdsDiffer(0, 8, 0, 8);
      } else if i >= 8 {
        assert ModeIdsDiffer(8, 16, 8, 16);
      } else {
        assert ModeIdsDiffer(0, 8, 8, 16);
      }
    }
  }

  /** Every built-in brush has minSize <= maxSize, roundness in [1, 100], stabilisation in [0, 1] and opacity in (0, 1]. */
  lemma BrushesWellFormed()
    ensures forall i :: 0 <= i < |AllBrushes| ==> WellFormedSettings(AllBrushes[i].settings)
  {
  }

  /** Calligraphy and library brushes all take stamp mode; of the sketch brushes only the charcoal pencil does. */
  lemma StampModeBrushes()
    ensures forall i :: 0 <= i < |AllBrushes| && AllBrushes[i].category in {Calligraphy, Library} ==> StampMode(AllBrushes[i])
    ensures forall i :: 0 <= i < |AllBrushes| && AllBrushes[i].category == Sketch ==> (StampMode(AllBrushes[i]) <==> AllBrushes[i].id == "b-charcoal")
  {
  }

  /** Brush ids are distinct across the default and the library sets. */
  lemma BrushIdsDistinct()
    ensures DistinctBrushIds(AllBrushes)
  {
  }

  /** Canvas presets have positive sizes, and the "none" texture has no image. */
  lemma PresetsAndTextures()
    ensures forall p :: p in CanvasPresets ==> p.width > 0 && p.height > 0
    ensures Textures[0].id == "none" && Textures[0].url == ""
    ensures forall t :: t in Textures && t.id == "none" ==> t.url == ""
  {
  }
}
