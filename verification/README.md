# digi-rawr editor state, modelled in Dafny

digi-rawr is a browser photo editor: the user loads an image, moves colour
and effect sliders or picks a preset, and drops emoji stickers on top. This
project models the editor's parameter and overlay state, not its pixels:

- `types.dfy` (module `Types`): the records the editor passes around —
  filter settings, the RGB tint, the four effects, stickers, sticker patches
  (`Partial<StickerData>`), presets and their partial filter override. An
  absent TypeScript property is `None`; a property explicitly set to
  `undefined` is treated the same way (see "Left out").
- `image_filters.dfy` (module `ImageFilters`): the filter/effect store. The
  class `FilterStore` holds the four state slots (`filters`, `rgbShift`,
  `effects`, `selectedPreset`); each callback is one method. The three
  single-field updates assign the result of a pure record update
  (`WithFilter`, `WithEffect`, `WithShift`). `ApplyPreset` assigns the slots
  itself, using `MergeFilters` for the filters, and its postcondition proves
  the new state equal to the pure transition `ApplyPresetTo` of the old one.
  `ResetFilters` assigns the default constants. Lemmas show that applying a
  preset is idempotent and that a preset defining every field wipes out the previous
  state.
- `stickers.dfy` (module `Stickers`): the sticker store. The class
  `StickerStore` holds the sticker list, the panel flag and the selected id.
  The list operations are pure functions: `RemoveById` is the `filter`,
  `UpdateById` the `map`, and `MergeSticker` the object spread. Lemmas cover
  order preservation, idempotence and add-then-remove.
- `presets.dfy` (module `Presets`): the nine-entry preset table as a
  constant sequence, with lemmas about its data. The lemmas cover distinct
  names, complete overrides, value ranges, "Normal" equal to the defaults,
  and the "Digicam" values. They also cover the split of the presets into
  the three button panels by style.

Filter, effect and tint values are integers because the sliders deliver them
through `parseInt`. Sticker coordinates, scale and rotation are reals;
nothing in the model does arithmetic on them. A sticker's id comes from the
clock in the editor; here the caller passes it to `AddSticker`.

Behaviours of the code worth knowing:

- "Digicam"'s override sets all eight filter fields, `grayscale: 0` among
  them (src/utils/presets.ts:13). So applying it resets a previous grayscale
  to 0 (`Presets.ApplyDigicam`).
- An unknown sticker id changes nothing: the code only filters or maps the
  list and reports no error (the no-op clauses of `RemoveById` and
  `UpdateById`).
- Values are stored exactly as given, with no clamping: `UpdateFilter`,
  `UpdateEffect` and `UpdateRGBShift` set the field to the given value.
- `applyPreset` guards the effects replacement with `if (preset.effects)`.
  A preset's `effects` is a required object and therefore always truthy,
  so the model always replaces the effects.

## Model

| member | source | states |
|---|---|---|
| `ImageFilters.WithFilter` | src/hooks/useImageFilters.ts:30-32 | the named filter field reads back exactly the given value (no clamping); every other filter field keeps its old value |
| `ImageFilters.WithEffect` | src/hooks/useImageFilters.ts:34-36 | the named effect reads back exactly the given value; the other effects keep theirs |
| `ImageFilters.WithShift` | src/hooks/useImageFilters.ts:38-40 | the named tint channel reads back exactly the given value; the other channels keep theirs |
| `ImageFilters.MergeFilters` | src/hooks/useImageFilters.ts:44 | partial merge: each field present in the override takes the override's value, each absent field keeps the previous value |
| `ImageFilters.ApplyPresetTo` | src/hooks/useImageFilters.ts:42-47 | the selected name becomes the preset's name; the filters are partially merged; the tint is replaced when the preset has one and kept otherwise; the effects are always replaced |
| `ImageFilters.ApplyPresetIdempotent` | src/hooks/useImageFilters.ts:42-47 | applying the same preset twice yields the same state as applying it once |
| `ImageFilters.CompletePresetDetermines` | src/hooks/useImageFilters.ts:44-46 | a preset that defines all eight filter fields and a tint yields the same state whatever state it is applied to |
| `ImageFilters.FilterStore.constructor` | src/hooks/useImageFilters.ts:4-28 | initial state: brightness, contrast and saturation 100, every other filter 0, tint {0,0,0}, every effect 0, "Normal" selected |
| `ImageFilters.FilterStore.UpdateFilter` | src/hooks/useImageFilters.ts:30-32 | the named filter field becomes exactly the value; the other filter fields, the tint, the effects and the selected name are unchanged |
| `ImageFilters.FilterStore.UpdateEffect` | src/hooks/useImageFilters.ts:34-36 | the named effect becomes exactly the value; everything else is unchanged |
| `ImageFilters.FilterStore.UpdateRGBShift` | src/hooks/useImageFilters.ts:38-40 | the named tint channel becomes exactly the value; everything else is unchanged |
| `ImageFilters.FilterStore.ApplyPreset` | src/hooks/useImageFilters.ts:42-47 | the new state is `ApplyPresetTo` of the old state and the preset |
| `ImageFilters.FilterStore.ResetFilters` | src/hooks/useImageFilters.ts:49-54 | from any state the store is back in the initial state, so a second reset changes nothing |
| `Stickers.RemoveById` | src/hooks/useStickers.ts:22-24 | no survivor has the id; a sticker survives exactly when it was in the list with a different id; the list does not grow; an unknown id leaves the list as it was |
| `Stickers.RemoveByIdAppend` | src/hooks/useStickers.ts:23 | removal distributes over concatenation, so the survivors keep their original relative order |
| `Stickers.RemoveByIdIdempotent` | src/hooks/useStickers.ts:22-24 | removing an id twice gives the same list as removing it once |
| `Stickers.MergeSticker` | src/hooks/useStickers.ts:27 | every field present in the patch (the id included) is taken from the patch; every absent field keeps the sticker's value |
| `Stickers.NewSticker` | src/hooks/useStickers.ts:10-17 | the new sticker has the given id and emoji, x 150, y 150, scale 1 and rotation 0 |
| `Stickers.UpdateById` | src/hooks/useStickers.ts:26-28 | same length and order; each sticker with the id is merged with the patch; every other sticker is unchanged; an unknown id leaves the list as it was |
| `Stickers.UpdateByIdIdempotent` | src/hooks/useStickers.ts:26-28 | applying any patch twice gives the same list as applying it once, including a patch that renames the matching stickers |
| `Stickers.AddThenRemove` | src/hooks/useStickers.ts:9-24 | adding a sticker under an id no sticker has, then removing that id, gives back the original list |
| `Stickers.StickerStore.constructor` | src/hooks/useStickers.ts:5-7 | no stickers, the panel closed, nothing selected |
| `Stickers.StickerStore.AddSticker` | src/hooks/useStickers.ts:9-20 | exactly one sticker {id, emoji, x 150, y 150, scale 1, rotation 0} is appended; the earlier stickers keep their values and order; the panel closes; the selection is unchanged |
| `Stickers.StickerStore.RemoveSticker` | src/hooks/useStickers.ts:22-24 | the list becomes `RemoveById` of the old list; no sticker has the id; an unknown id is a no-op; the panel flag and the selection are unchanged, even when the selected sticker was removed |
| `Stickers.StickerStore.UpdateSticker` | src/hooks/useStickers.ts:26-28 | the list becomes `UpdateById` of the old list, with the same length; the panel flag and the selection are unchanged |
| `Stickers.StickerStore.ResetStickers` | src/hooks/useStickers.ts:30-32 | the list is empty from any state, so a second reset changes nothing; the panel flag and the selection are unchanged |
| `Stickers.StickerStore.SetShowStickerPanel` | src/hooks/useStickers.ts:6 | the exposed setter sets the panel flag and nothing else |
| `Stickers.StickerStore.SetSelectedSticker` | src/hooks/useStickers.ts:7 | the exposed setter sets the selected id (or none) and nothing else |
| `Presets.NamesDistinct` | src/utils/presets.ts:3-67 | the table has nine entries with pairwise distinct names |
| `Presets.AllComplete` | src/utils/presets.ts:6-64 | every preset's override defines all eight filter fields, and every preset has a tint |
| `Presets.CatalogPresetDetermines` | src/utils/presets.ts:3-67 | applying any catalog preset yields a state that does not depend on the previous filters, tint or effects |
| `Presets.AllInRange` | src/utils/presets.ts:6-64 | every preset has grain and vignette in 0..100, rgbSplit in 0..50, pixelate in 0..20, and grayscale, sepia and invert in 0..100 |
| `Presets.NormalIsDefault` | src/utils/presets.ts:4-10 | the first preset is named "Normal"; its override, tint and effects are the store's defaults |
| `Presets.ApplyNormalIsReset` | src/utils/presets.ts:4-10 | applying "Normal" from any state gives exactly the state a reset gives |
| `Presets.ApplyDigicam` | src/utils/presets.ts:11-17 | applying "Digicam" from any state gives brightness 105, contrast 110, saturation 85, sepia 10, every other filter 0 (a prior grayscale is not kept), tint {5,0,-5} and effects grain 30, vignette 40, rgbSplit 10, pixelate 0 |
| `Presets.ExactlyOnePanel` | src/components/Filters/PresetButtons.tsx:16-60 | every style is accepted by exactly one of the panels "Y2K & Retro" (y2k, normal), "Goth" and "Emo" |
| `Presets.PanelPresets` | src/components/Filters/PresetButtons.tsx:16-60 | a panel's style filter: never longer than the list, and every preset it keeps has a style the panel accepts; full membership in `PanelPresetsMembers` |
| `Presets.PanelPresetsMembers` | src/components/Filters/PresetButtons.tsx:16 | a panel shows exactly the presets of the list whose style it accepts |
| `Presets.PanelsPartition` | src/components/Filters/PresetButtons.tsx:16-60 | the three panels together show each preset of any list exactly as often as it occurs there |
| `Presets.CatalogPanelContents` | src/components/Filters/PresetButtons.tsx:16-60 | for the catalog, "Y2K & Retro" shows Normal, Digicam, Y2K Aesthetic, Glitch Core and Pixel Dreams; "Goth" shows Goth Dark and Goth Noir; "Emo" shows Emo Purple and Emo Red; each in catalog order |
| `Presets.CatalogPanels` | src/utils/presets.ts:3-67 | each of the nine catalog presets appears on exactly one panel |

## Left out

- The pixel pipeline (brightness, contrast, saturation, grayscale, sepia and invert math; tint; grain, vignette, channel split, pixelate). None of it is in the modelled source, and it is floating-point work on image buffers.
- Sticker hit-testing, dragging and rendering, and the preset buttons' rendering. These are React components and CSS. Of `PresetButtons.tsx` only the style filters of the three panels are modelled.
- `src/App.tsx` is not part of this model: three of its helpers append to placeholder arrays and one merges into a placeholder object, and nothing reads them; its upload handler is file I/O, and its key handler is empty.
- Sticker id generation from `Date.now()`: the id is a parameter of `AddSticker`, and nothing claims ids are unique. The code does not guarantee it.
- React plumbing (`useState`, `useCallback`, batching of setter calls): each callback is one atomic state transition.
- `NaN` from `parseInt` on a slider value: values are integers here.
- `hue` and `blur` are carried as plain data; nothing in the model interprets them.
- Presets reach `ApplyPreset` as values; the code has no lookup by name.
- `ImageFilters.MergeFilters`, `Stickers.MergeSticker`: TypeScript's `Partial<T>` also allows a property that is present with the value `undefined`, and the object spread copies it, so `updateSticker(id, {x: undefined})` makes `x` undefined in the code. The model has no `undefined` value: such a property is treated as absent, so the old value is kept.
- The defaults (`DEFAULT_FILTERS`, `DEFAULT_RGB_SHIFT`, `DEFAULT_EFFECTS`, `INITIAL`) and the table `PRESETS` are constants, not members with a contract. The defaults' values are stated by `ImageFilters.FilterStore.constructor`. Of the nine table entries, only "Normal" (`Presets.NormalIsDefault`) and "Digicam" (`Presets.ApplyDigicam`) have their names and numbers stated by a contract. For the other seven entries no contract states the names or numbers: `Presets.NamesDistinct`, `Presets.AllComplete` and `Presets.AllInRange` only state that the names are distinct, the overrides complete and the values in range, and `Presets.CatalogPanelContents` states which entries fall on which panel. The constant is written to match src/utils/presets.ts:4-66 entry by entry.
