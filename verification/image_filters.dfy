/** The filter/effect parameter store of the editor: four state slots
    (`filters`, `rgbShift`, `effects`, `selectedPreset`) and the callbacks
    that reassign them. Each callback is one atomic transition. The pure
    functions here compute the single-field updates and the filter merge, and
    `ApplyPresetTo` states the whole preset transition that `ApplyPreset` is
    proved to perform. */
module ImageFilters {
  import opened Types

  const DEFAULT_FILTERS := FilterSettings(
    brightness := 100, contrast := 100, saturation := 100, hue := 0,
    blur := 0, grayscale := 0, sepia := 0, invert := 0)

  const DEFAULT_RGB_SHIFT := RGBShift(0, 0, 0)

  const DEFAULT_EFFECTS := Effects(grain := 0, vignette := 0, rgbSplit := 0, pixelate := 0)

  const DEFAULT_PRESET_NAME := "Normal"

  /** A snapshot of the four state slots. */
  datatype FilterState = FilterState(
    filters: FilterSettings,
    rgbShift: RGBShift,
    effects: Effects,
    selectedPreset: string)

  /** The state the store starts in and that a reset restores. */
  const INITIAL := FilterState(DEFAULT_FILTERS, DEFAULT_RGB_SHIFT, DEFAULT_EFFECTS, DEFAULT_PRESET_NAME)

  /** Two filter records that agree on every key are equal. */
  lemma FilterSettingsExt(a: FilterSettings, b: FilterSettings)
    requires forall k :: FilterValue(a, k) == FilterValue(b, k)
    ensures a == b
  {
    assert FilterValue(a, Brightness) == FilterValue(b, Brightness);
    assert FilterValue(a, Contrast) == FilterValue(b, Contrast);
    assert FilterValue(a, Saturation) == FilterValue(b, Saturation);
    assert FilterValue(a, Hue) == FilterValue(b, Hue);
    assert FilterValue(a, Blur) == FilterValue(b, Blur);
    assert FilterValue(a, Grayscale) == FilterValue(b, Grayscale);
    assert FilterValue(a, Sepia) == FilterValue(b, Sepia);
    assert FilterValue(a, Invert) == FilterValue(b, Invert);
  }

  /** `{ ...prev, [key]: value }` on the filter record: the named field takes
      exactly `v` (no clamping), every other field keeps its value. */
  function WithFilter(f: FilterSettings, k: FilterKey, v: int): (r: FilterSettings)
    ensures FilterValue(r, k) == v
    ensures forall k' :: k' != k ==> FilterValue(r, k') == FilterValue(f, k')
  {
    match k
    case Brightness => f.(brightness := v)
    case Contrast => f.(contrast := v)
    case Saturation => f.(saturation := v)
    case Hue => f.(hue := v)
    case Blur => f.(blur := v)
    case Grayscale => f.(grayscale := v)
    case Sepia => f.(sepia := v)
    case Invert => f.(invert := v)
  }

  /** `{ ...prev, [key]: value }` on the effect record. */
  function WithEffect(e: Effects, k: EffectKey, v: int): (r: Effects)
    ensures EffectValue(r, k) == v
    ensures forall k' :: k' != k ==> EffectValue(r, k') == EffectValue(e, k')
  {
    match k
    case Grain => e.(grain := v)
    case Vignette => e.(vignette := v)
    case RgbSplit => e.(rgbSplit := v)
    case Pixelate => e.(pixelate := v)
  }

  /** `{ ...prev, [key]: value }` on the RGB tint. */
  function WithShift(s: RGBShift, k: ShiftKey, v: int): (r: RGBShift)
    ensures ShiftValue(r, k) == v
    ensures forall k' :: k' != k ==> ShiftValue(r, k') == ShiftValue(s, k')
  {
    match k
    case Red => s.(r := v)
    case Green => s.(g := v)
    case Blue => s.(b := v)
  }

  /** `{ ...prev, ...settings }`: a field present in the partial record wins,
      an absent one keeps its previous value. */
  function MergeFilters(f: FilterSettings, s: PartialFilters): (r: FilterSettings)
    ensures forall k :: PartialValue(s, k).Some? ==> FilterValue(r, k) == PartialValue(s, k).value
    ensures forall k :: PartialValue(s, k).None? ==> FilterValue(r, k) == FilterValue(f, k)
  {
    FilterSettings(
      s.brightness.GetOr(f.brightness),
      s.contrast.GetOr(f.contrast),
      s.saturation.GetOr(f.saturation),
      s.hue.GetOr(f.hue),
      s.blur.GetOr(f.blur),
      s.grayscale.GetOr(f.grayscale),
      s.sepia.GetOr(f.sepia),
      s.invert.GetOr(f.invert))
  }

  /** The whole `applyPreset` transition: the name is recorded, the filter
      settings are partially merged, the tint is replaced only when the
      preset has one, and the effects are always replaced (a preset's
      `effects` is a required object, so the guard on it always holds). */
  function ApplyPresetTo(st: FilterState, p: Preset): (r: FilterState)
    ensures r.selectedPreset == p.name
    ensures forall k :: PartialValue(p.settings, k).Some? ==> FilterValue(r.filters, k) == PartialValue(p.settings, k).value
    ensures forall k :: PartialValue(p.settings, k).None? ==> FilterValue(r.filters, k) == FilterValue(st.filters, k)
    ensures p.rgbShift.Some? ==> r.rgbShift == p.rgbShift.value
    ensures p.rgbShift.None? ==> r.rgbShift == st.rgbShift
    ensures r.effects == p.effects
  {
    FilterState(MergeFilters(st.filters, p.settings), p.rgbShift.GetOr(st.rgbShift), p.effects, p.name)
  }

  /** Applying the same preset twice gives the state that applying it once gives. */
  lemma ApplyPresetIdempotent(st: FilterState, p: Preset)
    ensures ApplyPresetTo(ApplyPresetTo(st, p), p) == ApplyPresetTo(st, p)
  {
  }

  /** A preset whose override defines all eight fields and which carries a
      tint leaves nothing of the previous filters, tint or effects: the
      result depends on the preset alone. */
  lemma CompletePresetDetermines(st1: FilterState, st2: FilterState, p: Preset)
    requires IsComplete(p.settings) && p.rgbShift.Some?
    ensures ApplyPresetTo(st1, p) == ApplyPresetTo(st2, p)
  {
    var r1 := ApplyPresetTo(st1, p);
    var r2 := ApplyPresetTo(st2, p);
    forall k ensures FilterValue(r1.filters, k) == FilterValue(r2.filters, k) {
      assert PartialValue(p.settings, k).Some?;
    }
    FilterSettingsExt(r1.filters, r2.filters);
  }

  /** The hook's state: four slots that its callbacks reassign. */
  class FilterStore {
    var filters: FilterSettings
    var rgbShift: RGBShift
    var effects: Effects
    var selectedPreset: string

    /** The four slots as one value. */
    function State(): FilterState
      reads this
    {
      FilterState(filters, rgbShift, effects, selectedPreset)
    }

    /** Brightness, contrast and saturation at 100, every other filter at 0,
        no tint, no effects, and "Normal" selected. */
    constructor ()
      ensures State() == INITIAL
      ensures filters.brightness == filters.contrast == filters.saturation == 100
      ensures forall k :: k !in {Brightness, Contrast, Saturation} ==> FilterValue(filters, k) == 0
      ensures forall k :: ShiftValue(rgbShift, k) == 0
      ensures forall k :: EffectValue(effects, k) == 0
      ensures selectedPreset == "Normal"
    {
      filters := DEFAULT_FILTERS;
      rgbShift := DEFAULT_RGB_SHIFT;
      effects := DEFAULT_EFFECTS;
      selectedPreset := DEFAULT_PRESET_NAME;
    }

    /** Sets one filter field to exactly `value`; nothing else changes. */
    method UpdateFilter(key: FilterKey, value: int)
      modifies this
      ensures FilterValue(filters, key) == value
      ensures forall k :: k != key ==> FilterValue(filters, k) == FilterValue(old(filters), k)
      ensures rgbShift == old(rgbShift) && effects == old(effects) && selectedPreset == old(selectedPreset)
    {
      filters := WithFilter(filters, key, value);
    }

    /** Sets one effect field to exactly `value`; nothing else changes. */
    method UpdateEffect(key: EffectKey, value: int)
      modifies this
      ensures EffectValue(effects, key) == value
      ensures forall k :: k != key ==> EffectValue(effects, k) == EffectValue(old(effects), k)
      ensures filters == old(filters) && rgbShift == old(rgbShift) && selectedPreset == old(selectedPreset)
    {
      effects := WithEffect(effects, key, value);
    }

    /** Sets one tint channel to exactly `value`; nothing else changes. */
    method UpdateRGBShift(key: ShiftKey, value: int)
      modifies this
      ensures ShiftValue(rgbShift, key) == value
      ensures forall k :: k != key ==> ShiftValue(rgbShift, k) == ShiftValue(old(rgbShift), k)
      ensures filters == old(filters) && effects == old(effects) && selectedPreset == old(selectedPreset)
    {
      rgbShift := WithShift(rgbShift, key, value);
    }

    /** Records the preset's name, merges its filter override, replaces the
        tint when the preset has one and always replaces the effects. */
    method ApplyPreset(preset: Preset)
      modifies this
      ensures State() == ApplyPresetTo(old(State()), preset)
    {
      selectedPreset := preset.name;
      filters := MergeFilters(filters, preset.settings);
      if preset.rgbShift.Some? {
        rgbShift := preset.rgbShift.value;
      }
      effects := preset.effects;
    }

    /** Restores the initial state from any state; so a second reset changes
        nothing. */
    method ResetFilters()
      modifies this
      ensures State() == INITIAL
    {
      filters := DEFAULT_FILTERS;
      rgbShift := DEFAULT_RGB_SHIFT;
      effects := DEFAULT_EFFECTS;
      selectedPreset := DEFAULT_PRESET_NAME;
    }
  }
}
