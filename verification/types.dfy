/** The editor's value types: filter settings, the RGB tint, the effect
    settings, stickers and presets. A TypeScript `Partial<T>` record or an
    optional property (`x?: T`) becomes a field of type `Option<T>`, where
    `None` stands for a property that is absent. */
module Types {

  datatype Option<T> = None | Some(value: T) {
    /** The value, or `default` when absent. */
    function GetOr(default: T): T {
      if Some? then value else default
    }
  }

  /** The eight colour-filter sliders. `hue` and `blur` are carried as data
      only; nothing in this model interprets them. */
  datatype FilterSettings = FilterSettings(
    brightness: int,
    contrast: int,
    saturation: int,
    hue: int,
    blur: int,
    grayscale: int,
    sepia: int,
    invert: int)

  /** The names of the fields of FilterSettings (`keyof FilterSettings`). */
  datatype FilterKey = Brightness | Contrast | Saturation | Hue | Blur | Grayscale | Sepia | Invert

  /** Reads the field that `k` names (`filters[k]`). */
  function FilterValue(f: FilterSettings, k: FilterKey): int {
    match k
    case Brightness => f.brightness
    case Contrast => f.contrast
    case Saturation => f.saturation
    case Hue => f.hue
    case Blur => f.blur
    case Grayscale => f.grayscale
    case Sepia => f.sepia
    case Invert => f.invert
  }

  /** `Partial<FilterSettings>`: every field may be absent. */
  datatype PartialFilters = PartialFilters(
    brightness: Option<int>,
    contrast: Option<int>,
    saturation: Option<int>,
    hue: Option<int>,
    blur: Option<int>,
    grayscale: Option<int>,
    sepia: Option<int>,
    invert: Option<int>)

  /** Reads the (possibly absent) field that `k` names. */
  function PartialValue(s: PartialFilters, k: FilterKey): Option<int> {
    match k
    case Brightness => s.brightness
    case Contrast => s.contrast
    case Saturation => s.saturation
    case Hue => s.hue
    case Blur => s.blur
    case Grayscale => s.grayscale
    case Sepia => s.sepia
    case Invert => s.invert
  }

  /** A partial record that defines every one of the eight fields. */
  predicate IsComplete(s: PartialFilters) {
    forall k :: PartialValue(s, k).Some?
  }

  /** Per-channel offsets added to the colour channels. */
  datatype RGBShift = RGBShift(r: int, g: int, b: int)

  /** `keyof RGBShift`. */
  datatype ShiftKey = Red | Green | Blue

  function ShiftValue(s: RGBShift, k: ShiftKey): int {
    match k
    case Red => s.r
    case Green => s.g
    case Blue => s.b
  }

  /** The four whole-image effects. */
  datatype Effects = Effects(grain: int, vignette: int, rgbSplit: int, pixelate: int)

  /** `keyof typeof DEFAULT_EFFECTS`. */
  datatype EffectKey = Grain | Vignette | RgbSplit | Pixelate

  function EffectValue(e: Effects, k: EffectKey): int {
    match k
    case Grain => e.grain
    case Vignette => e.vignette
    case RgbSplit => e.rgbSplit
    case Pixelate => e.pixelate
  }

  /** A placed emoji. Coordinates, scale and rotation are JavaScript numbers,
      modelled as reals; the id is the string the caller supplies. */
  datatype StickerData = StickerData(
    id: string,
    emoji: string,
    x: real,
    y: real,
    scale: real,
    rotation: real)

  /** `Partial<StickerData>`: the argument of a sticker update. Note that it
      may carry an `id`, which then renames the sticker it is merged into. */
  datatype StickerPatch = StickerPatch(
    id: Option<string>,
    emoji: Option<string>,
    x: Option<real>,
    y: Option<real>,
    scale: Option<real>,
    rotation: Option<real>)

  /** The style tag a preset carries, used only to group the preset buttons. */
  datatype Style = Normal | Goth | Emo | Y2K

  /** A named bundle: a partial filter override, an optional full tint, the
      full effect settings and a style tag. */
  datatype Preset = Preset(
    name: string,
    settings: PartialFilters,
    rgbShift: Option<RGBShift>,
    effects: Effects,
    style: Style)
}
