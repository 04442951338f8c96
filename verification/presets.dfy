/** The fixed catalog of nine presets and what follows from its data when a
    preset is applied through the parameter store; also the grouping of the
    preset buttons into three panels by style. */
module Presets {
  import opened Types
  import opened ImageFilters

  /** A partial override that defines all eight filter fields. */
  function Full(brightness: int, contrast: int, saturation: int, hue: int,
                blur: int, grayscale: int, sepia: int, invert: int): (s: PartialFilters)
    ensures IsComplete(s)
  {
    PartialFilters(Some(brightness), Some(contrast), Some(saturation), Some(hue),
                   Some(blur), Some(grayscale), Some(sepia), Some(invert))
  }


  const NORMAL := Preset("Normal", Full(100, 100, 100, 0, 0, 0, 0, 0),
    Some(RGBShift(0, 0, 0)), Effects(0, 0, 0, 0), Normal)
  const DIGICAM := Preset("Digicam", Full(105, 110, 85, 0, 0, 0, 10, 0),
    Some(RGBShift(5, 0, -5)), Effects(30, 40, 10, 0), Y2K)
  const Y2K_AESTHETIC := Preset("Y2K Aesthetic", Full(115, 120, 130, 10, 0, 0, 0, 0),
    Some(RGBShift(10, -5, 10)), Effects(15, 0, 25, 0), Y2K)
  const GOTH_DARK := Preset("Goth Dark", Full(70, 140, 40, 0, 0, 30, 0, 0),
    Some(RGBShift(-10, -10, 5)), Effects(50, 80, 0, 0), Goth)
  const GOTH_NOIR := Preset("Goth Noir", Full(60, 150, 0, 0, 1, 100, 0, 0),
    Some(RGBShift(0, 0, 0)), Effects(60, 90, 0, 0), Goth)
  const EMO_PURPLE := Preset("Emo Purple", Full(90, 110, 120, 45, 0, 0, 0, 0),
    Some(RGBShift(20, -10, 30)), Effects(35, 50, 15, 0), Emo)
  const EMO_RED := Preset("Emo Red", Full(85, 130, 90, 180, 0, 10, 30, 0),
    Some(RGBShift(30, -20, -20)), Effects(40, 60, 20, 0), Emo)
  const GLITCH_CORE := Preset("Glitch Core", Full(100, 125, 150, 5, 0, 0, 0, 5),
    Some(RGBShift(15, 0, -15)), Effects(20, 0, 50, 2), Y2K)
  const PIXEL_DREAMS := Preset("Pixel Dreams", Full(110, 105, 110, 0, 0, 0, 0, 0),
    Some(RGBShift(0, 0, 0)), Effects(10, 20, 0, 8), Y2K)

  /** The catalog, in the order the editor lists it. */
  const PRESETS: seq<Preset> := [
    NORMAL, DIGICAM, Y2K_AESTHETIC, GOTH_DARK, GOTH_NOIR,
    EMO_PURPLE, EMO_RED, GLITCH_CORE, PIXEL_DREAMS
  ]

  /** Nine presets, no two with the same name. */
  lemma NamesDistinct()
    ensures |PRESETS| == 9
    ensures forall i, j :: 0 <= i < j < |PRESETS| ==> PRESETS[i].name != PRESETS[j].name
  {
  }

  /** Every preset defines all eight filter fields and carries a tint. */
  lemma AllComplete()
    ensures forall p :: p in PRESETS ==> IsComplete(p.settings) && p.rgbShift.Some?
  {
  }

  /** Applying a catalog preset fully determines filters, tint and effects:
      the state it was applied to leaves no trace. */
  lemma CatalogPresetDetermines(p: Preset, st1: FilterState, st2: FilterState)
    requires p in PRESETS
    ensures ApplyPresetTo(st1, p) == ApplyPresetTo(st2, p)
  {
    AllComplete();
    CompletePresetDetermines(st1, st2, p);
  }

  /** The effect ranges of the sliders, and the mix ranges of grayscale,
      sepia and invert. */
  predicate InRange(p: Preset) {
    && 0 <= p.effects.grain <= 100
    && 0 <= p.effects.vignette <= 100
    && 0 <= p.effects.rgbSplit <= 50
    && 0 <= p.effects.pixelate <= 20
    && (forall k :: k in {Grayscale, Sepia, Invert} ==>
          PartialValue(p.settings, k).Some? && 0 <= PartialValue(p.settings, k).value <= 100)
  }

  /** Every catalog value lies in its range. */
  lemma AllInRange()
    ensures forall p :: p in PRESETS ==> InRange(p)
  {
    assert InRange(NORMAL) && InRange(DIGICAM) && InRange(Y2K_AESTHETIC);
    assert InRange(GOTH_DARK) && InRange(GOTH_NOIR) && InRange(EMO_PURPLE);
    assert InRange(EMO_RED) && InRange(GLITCH_CORE) && InRange(PIXEL_DREAMS);
  }

  /** The first preset is "Normal" and its data are the store's defaults. */
  lemma NormalIsDefault()
    ensures PRESETS[0].name == DEFAULT_PRESET_NAME
    ensures forall k :: PartialValue(PRESETS[0].settings, k) == Some(FilterValue(DEFAULT_FILTERS, k))
    ensures PRESETS[0].rgbShift == Some(DEFAULT_RGB_SHIFT)
    ensures PRESETS[0].effects == DEFAULT_EFFECTS
  {
  }

  /** From any state, applying "Normal" gives exactly the state a reset
      gives. */
  lemma ApplyNormalIsReset(st: FilterState)
    ensures ApplyPresetTo(st, PRESETS[0]) == INITIAL
  {
  }

  /** "Digicam" from any state: its override sets every filter field, so a
      previous grayscale is reset to 0 rather than kept; tint and effects are
      replaced by its own. */
  lemma ApplyDigicam(st: FilterState)
    ensures PRESETS[1].name == "Digicam"
    ensures ApplyPresetTo(st, PRESETS[1]) == FilterState(
      FilterSettings(105, 110, 85, 0, 0, 0, 10, 0), RGBShift(5, 0, -5), Effects(30, 40, 10, 0), "Digicam")
  {
  }

  /** The three button panels: "Y2K & Retro" (y2k and normal), "Goth" and
      "Emo". */
  datatype Panel = Retro | GothPanel | EmoPanel

  /** The filter predicate each panel applies to a preset's style. */
  predicate ShownIn(s: Style, g: Panel) {
    match g
    case Retro => s == Y2K || s == Normal
    case GothPanel => s == Goth
    case EmoPanel => s == Emo
  }

  /** Every style is shown in exactly one panel. */
  lemma ExactlyOnePanel(s: Style)
    ensures ShownIn(s, Retro) || ShownIn(s, GothPanel) || ShownIn(s, EmoPanel)
    ensures !(ShownIn(s, Retro) && ShownIn(s, GothPanel))
    ensures !(ShownIn(s, Retro) && ShownIn(s, EmoPanel))
    ensures !(ShownIn(s, GothPanel) && ShownIn(s, EmoPanel))
  {
  }

  /** `presets.filter(p => <panel's predicate>)`. */
  function PanelPresets(ps: seq<Preset>, g: Panel): (r: seq<Preset>)
    ensures |r| <= |ps|
    ensures forall i :: 0 <= i < |r| ==> ShownIn(r[i].style, g)
  {
    if ps == [] then []
    else if ShownIn(ps[0].style, g) then [ps[0]] + PanelPresets(ps[1..], g)
    else PanelPresets(ps[1..], g)
  }

  /** A panel shows exactly the presets of the list whose style it accepts. */
  lemma {:induction false} PanelPresetsMembers(ps: seq<Preset>, g: Panel)
    ensures forall p :: p in PanelPresets(ps, g) <==> p in ps && ShownIn(p.style, g)
  {
    if ps != [] {
      PanelPresetsMembers(ps[1..], g);
      assert ps == [ps[0]] + ps[1..];
    }
  }

  /** The three panels together show every preset of the list exactly as
      often as it occurs there: they partition the list. */
  lemma {:induction false} PanelsPartition(ps: seq<Preset>)
    ensures multiset(PanelPresets(ps, Retro)) + multiset(PanelPresets(ps, GothPanel))
            + multiset(PanelPresets(ps, EmoPanel)) == multiset(ps)
  {
    if ps != [] {
      PanelsPartition(ps[1..]);
      ExactlyOnePanel(ps[0].style);
      assert ps == [ps[0]] + ps[1..];
    }
  }

  /** One step of the filter, at position `i` of the list. */
  lemma PanelStep(ps: seq<Preset>, i: nat, g: Panel)
    requires i < |ps|
    ensures PanelPresets(ps[i..], g)
            == (if ShownIn(ps[i].style, g) then [ps[i]] else []) + PanelPresets(ps[i + 1..], g)
  {
    assert ps[i..][1..] == ps[i + 1..];
  }

  /** The catalog's shape: nine presets whose styles run Normal, Y2K, Y2K,
      Goth, Goth, Emo, Emo, Y2K, Y2K. */
  predicate HasCatalogStyles(ps: seq<Preset>) {
    && |ps| == 9
    && ps[0].style == Normal
    && ps[1].style == Y2K
    && ps[2].style == Y2K
    && ps[3].style == Goth
    && ps[4].style == Goth
    && ps[5].style == Emo
    && ps[6].style == Emo
    && ps[7].style == Y2K
    && ps[8].style == Y2K
  }

  /** Of the last four entries of a list with the catalog's styles,
      "Y2K & Retro" shows the last two. */
  lemma RetroTailOfCatalogStyles(ps: seq<Preset>)
    requires HasCatalogStyles(ps)
    ensures PanelPresets(ps[5..], Retro) == [ps[7], ps[8]]
  {
    assert ps[9..] == [];
    PanelStep(ps, 8, Retro);
    PanelStep(ps, 7, Retro);
    PanelStep(ps, 6, Retro);
    PanelStep(ps, 5, Retro);
  }

  /** What "Y2K & Retro" shows of a list with the catalog's styles. */
  lemma RetroOfCatalogStyles(ps: seq<Preset>)
    requires HasCatalogStyles(ps)
    ensures PanelPresets(ps, Retro) == [ps[0], ps[1], ps[2], ps[7], ps[8]]
  {
    RetroTailOfCatalogStyles(ps);
    assert ps[0..] == ps;
    PanelStep(ps, 4, Retro);
    PanelStep(ps, 3, Retro);
    PanelStep(ps, 2, Retro);
    PanelStep(ps, 1, Retro);
    PanelStep(ps, 0, Retro);
  }

  /** What "Goth" shows of a list with the catalog's styles. */
  lemma GothOfCatalogStyles(ps: seq<Preset>)
    requires HasCatalogStyles(ps)
    ensures PanelPresets(ps, GothPanel) == [ps[3], ps[4]]
  {
    assert ps[9..] == [];
    assert ps[0..] == ps;
    PanelStep(ps, 8, GothPanel);
    PanelStep(ps, 7, GothPanel);
    PanelStep(ps, 6, GothPanel);
    PanelStep(ps, 5, GothPanel);
    PanelStep(ps, 4, GothPanel);
    PanelStep(ps, 3, GothPanel);
    PanelStep(ps, 2, GothPanel);
    PanelStep(ps, 1, GothPanel);
    PanelStep(ps, 0, GothPanel);
  }

  /** What "Emo" shows of a list with the catalog's styles. */
  lemma EmoOfCatalogStyles(ps: seq<Preset>)
    requires HasCatalogStyles(ps)
    ensures PanelPresets(ps, EmoPanel) == [ps[5], ps[6]]
  {
    assert ps[9..] == [];
    assert ps[0..] == ps;
    PanelStep(ps, 8, EmoPanel);
    PanelStep(ps, 7, EmoPanel);
    PanelStep(ps, 6, EmoPanel);
    PanelStep(ps, 5, EmoPanel);
    PanelStep(ps, 4, EmoPanel);
    PanelStep(ps, 3, EmoPanel);
    PanelStep(ps, 2, EmoPanel);
    PanelStep(ps, 1, EmoPanel);
    PanelStep(ps, 0, EmoPanel);
  }

  /** The panels show: "Y2K & Retro" Normal, Digicam, Y2K Aesthetic, Glitch
      Core and Pixel Dreams; "Goth" Goth Dark and Goth Noir; "Emo" Emo Purple
      and Emo Red; each in catalog order. */
  lemma CatalogPanelContents()
    ensures PanelPresets(PRESETS, Retro) == [PRESETS[0], PRESETS[1], PRESETS[2], PRESETS[7], PRESETS[8]]
    ensures PanelPresets(PRESETS, GothPanel) == [PRESETS[3], PRESETS[4]]
    ensures PanelPresets(PRESETS, EmoPanel) == [PRESETS[5], PRESETS[6]]
  {
    RetroOfCatalogStyles(PRESETS);
    GothOfCatalogStyles(PRESETS);
    EmoOfCatalogStyles(PRESETS);
  }

  /** Each of the nine catalog presets is shown on exactly one panel. */
  lemma CatalogPanels()
    ensures multiset(PanelPresets(PRESETS, Retro)) + multiset(PanelPresets(PRESETS, GothPanel))
            + multiset(PanelPresets(PRESETS, EmoPanel)) == multiset(PRESETS)
  {
    PanelsPartition(PRESETS);
  }
}
