# Broadband map overlay engine, modelled in Dafny

The broadband map draws coverage overlays on a vector map. This model covers three pieces of it:

- **The shared tech/speed mixin.** For a selected technology (such as `acfosw`) and speed (such as `25_3`), it builds a property id `acfosw_25_3`. It then keeps the map's sources and layers in step with that selection: it provisions the catalog sources once, removes the catalog layers of the previous selection, installs the layer for the selected speed (falling back to speed `25`), and repaints the layer opacity. It also derives the sidebar legend labels.
- **The area summary page's own, older variant.** It installs a whole list of tech/speed layers plus the list of layers for the selected speed. Its removal step only covers the speed of the *new* selection, and an unknown speed has no fallback. The page also decides which geography its charts request.
- **The map-appearance dialog.** It normalises the opacity slider's input, restores the default highlight colour, toggles water and unpopulated blocks, opens and closes, and resets itself when the page changes.

The map renderer is a class, `Backend.MapBackend`. It has a map of sources, a map of styled layers and a log of every mutating call. The renderer's own errors are its methods' preconditions:

- adding a source twice;
- adding a layer without an id, or with an id that is already installed;
- removing or repainting a layer that is absent.

The overlay code is proved never to trigger them. The event hub and URL updates are event logs. The settings store is a parameter where it is read.

Modules:

- `Values`: `Option`, JSON-like style objects, the shallow merge.
- `Strings`: JavaScript's `split`, `join`, default `sort`, `indexOf` and `splice`, as functions.
- `Backend`: the renderer.
- `Catalog`: catalog entries, plus the provisioning and removal loops both variants share.
- `Legend`: the legend labels.
- `PropertyIds`: property id and speed key.
- `MapUpdateLayers`: the mixin, as class `TechSpeedLayers`.
- `AreaSummary`: the page, as class `AreaSummaryPage`, plus the geography decision.
- `MapAppearance`: the dialog, as class `MapAppearanceDialog`.

## Model

| member | source | states |
|---|---|---|
| Values.Assign | src/_mixins/map-update-layers.js:81 | `Object.assign({}, base, over)`: the keys of both, with every key of `over` winning and every other key kept from `base` |
| Values.WithPaintShape | src/_mixins/map-update-layers.js:181 | setting a paint property sets that one property, keeps the other paint properties and every other key of the style |
| Strings.Split | src/_mixins/map-update-layers.js:40 | `split` always returns at least one piece |
| Strings.SplitPieces | src/_mixins/map-update-layers.js:40 | no piece contains the separator, and there is more than one piece exactly when the separator occurs |
| Strings.Field | src/_mixins/map-update-layers.js:40 | `split(sep)[0]` always exists, `split(sep)[1]` exists exactly when the separator occurs, and neither contains the separator |
| Strings.Join | src/_mixins/map-update-layers.js:156 | joining no parts gives the empty string; otherwise the result starts with the first part |
| Strings.JoinChars | src/_mixins/map-update-layers.js:156 | a character of the joined string comes from one of the parts, or from the separator when there are two or more parts; every such character occurs |
| Strings.ReplaceChar | src/_mixins/map-update-layers.js:162 | same length, each separator character replaced and every other character kept |
| Strings.SplitAtSeparator | src/components/AreaSummary/AreaSummary.component.js:54 | splitting `a + sep + b` is splitting `a` followed by splitting `b` |
| Strings.SplitWithoutSeparator | src/components/AreaSummary/AreaSummary.component.js:54 | a string without the separator splits into itself alone |
| Strings.JoinSplitReplaces | src/_mixins/map-update-layers.js:162 | `split(sep).join(repl)` replaces every `sep` by `repl`, character by character |
| Strings.SplitJoinRoundTrip | src/_mixins/map-update-layers.js:162 | `split(sep).join(sep)` gives the string back |
| Strings.LexLeqTotal | src/_mixins/map-update-layers.js:155 | the order of the default `sort` is total |
| Strings.LexLeqTransitive | src/_mixins/map-update-layers.js:155 | that order is transitive |
| Strings.LexLeqAntisymmetric | src/_mixins/map-update-layers.js:155 | that order is antisymmetric |
| Strings.Sort | src/_mixins/map-update-layers.js:155-158 | the default `sort` yields an ordered list with the same multiset of names |
| Strings.SortedUnique | src/_mixins/map-update-layers.js:155-158 | two ordered lists with the same multiset of names are equal, so the sorted result is the only ordered arrangement |
| Strings.IndexOf | src/_mixins/map-update-layers.js:152 | `indexOf` is -1 exactly when the name is absent, and otherwise the first position holding it |
| Strings.RemoveAt | src/_mixins/map-update-layers.js:154 | `splice(i, 1)` removes exactly the element at `i` |
| Backend.MapBackend.GetSource | src/_mixins/map-update-layers.js:128 | `getSource` is undefined exactly when the source is absent, and otherwise its descriptor |
| Backend.MapBackend.GetLayer | src/_mixins/map-update-layers.js:97 | `getLayer` is undefined exactly when the layer is absent, and otherwise its style |
| Backend.MapBackend.AddSource | src/_mixins/map-update-layers.js:32-35 | adds one source under a fresh id and logs the call; layers unchanged |
| Backend.MapBackend.AddLayer | src/_mixins/map-update-layers.js:84 | installs the style under its own fresh id and logs the call with its anchor; sources unchanged |
| Backend.MapBackend.RemoveLayer | src/_mixins/map-update-layers.js:100 | removes one installed layer and logs the call |
| Backend.MapBackend.SetPaintProperty | src/_mixins/map-update-layers.js:181 | sets one paint property of one installed layer and logs the call |
| Catalog.LayerEntry.Fields | src/_mixins/map-update-layers.js:81 | the catalog object carries its id under `id` and keeps its other keys. It has a `beforeLayer` key exactly when the entry is anchored or its other keys hold one. For a catalog entry whose other keys repeat neither `id` nor `beforeLayer`, its keys are exactly those keys plus `id`, plus `beforeLayer` when anchored |
| Catalog.WithSources | src/_mixins/map-update-layers.js:31-36 | after adding every catalog source, the source ids are the old ones plus the catalog's; each catalog id maps to its `{url, type}` and other sources are kept |
| Catalog.SourceCalls | src/_mixins/map-update-layers.js:31-36 | exactly one `addSource(id, {url, type})` per catalog entry, in catalog order |
| Catalog.PresentRemovals | src/_mixins/map-update-layers.js:95-102 | every `removeLayer` the guarded loop issues is for a listed id that is installed |
| Catalog.PresentRemovalsCoverInstalled | src/_mixins/map-update-layers.js:95-102 | every listed id that is installed is removed exactly once |
| Catalog.Removed | src/_mixins/map-update-layers.js:95-102 | the guarded loop leaves exactly the layers not listed |
| Catalog.ProvisionSources | src/components/AreaSummary/AreaSummary.component.js:45-50 | the `forEach` over the source catalog: sources become `WithSources`, layers unchanged, the calls are `SourceCalls` |
| Catalog.RemoveIfPresent | src/_mixins/map-update-layers.js:97-101 | `getLayer` then `removeLayer`: the layer is gone afterwards, and a call is logged only if it was installed |
| Catalog.RemoveInstalled | src/_mixins/map-update-layers.js:95-102 | the loop removes exactly the listed layers, keeps every other layer and all sources, and logs one removal per installed listed id |
| Legend.MatchingNames | src/_mixins/map-update-layers.js:143-147 | each name is collected once for every table entry with that code and that name, and no other name is collected |
| Legend.TechNames | src/_mixins/map-update-layers.js:140-148 | each name is collected once for every pair of a selected code and a table entry with that code and that name; unmatched codes contribute nothing |
| Legend.LegendOrder | src/_mixins/map-update-layers.js:152-159 | the same multiset of names, sorted; when "Other" occurs it is last and the rest is sorted |
| Legend.LegendOrderedUnique | src/_mixins/map-update-layers.js:152-158 | two lists in legend order (sorted, with "Other" last when present) holding the same names are equal |
| Legend.LegendNamesOrdered | src/_mixins/map-update-layers.js:139-158 | the legend-ordered collected names hold each name once per match, and they are the only list in legend order that does |
| Legend.TechLabel | src/_mixins/map-update-layers.js:139-159 | `tech` is the `, `-join of the one list in legend order that holds each name once per matching (code, entry) pair |
| Legend.EmptyTechLabel | src/_mixins/map-update-layers.js:139-159 | an empty technology selection gives the empty label |
| Legend.OtherListedLast | src/_mixins/map-update-layers.js:151-158 | codes `so` naming any technology that sorts after "Other", and "Other", give `name, Other`, whereas a plain sort would give `Other, name` |
| Legend.SatelliteListedLast | src/_mixins/map-update-layers.js:151-156 | codes `so` with Satellite and Other give `Satellite, Other` |
| Legend.SpeedLabelReplaces | src/_mixins/map-update-layers.js:161-167 | the speed label is the speed with every `_` replaced by `/`, except `200`, which becomes `0.2/0.2` |
| Legend.SpeedLabelExamples | src/_mixins/map-update-layers.js:161-167 | `25_3` is shown as `25/3` and `200` as `0.2/0.2` |
| Legend.SpeedLabel | src/_mixins/map-update-layers.js:161-167 | the speed label never contains `_` |
| PropertyIds.PropertyId | src/_mixins/map-update-layers.js:116 | `[tech, speed].join('_')` is `tech + "_" + speed` |
| PropertyIds.PropertyIdSpeedKey | src/components/AreaSummary/AreaSummary.component.js:54 | for a technology without `_`, the speed key of the property id is the speed's first `_`-field |
| PropertyIds.DefaultSpeedKey | src/components/AreaSummary/AreaSummary.component.js:16-17 | the default selection gives property id `acfosw_25_3` and speed key `25` |
| PropertyIds.SpeedKey | src/_mixins/map-update-layers.js:40 | `split('_')[1]` is defined exactly when the property id contains `_`, and then contains no `_` |
| MapUpdateLayers.Lookup | src/_mixins/map-update-layers.js:42 | `layersTechSpeed[key]` is defined exactly when the key is in the catalog, and is then one of its layers |
| MapUpdateLayers.ResolveLayer | src/_mixins/map-update-layers.js:40-42 | given a catalog with key `25`, the resolved layer always exists and is a catalog layer |
| MapUpdateLayers.ResolveFallsBack | src/_mixins/map-update-layers.js:40-42 | a known speed key resolves to the layer stored under it; every other property id resolves to the layer under `25` |
| MapUpdateLayers.InstalledStyle | src/_mixins/map-update-layers.js:44-82 | the merged style's layer id is the catalog entry's id |
| MapUpdateLayers.InstalledStyleShape | src/_mixins/map-update-layers.js:46-81 | the merged style has the catalog id as layer id and keeps the entry's own keys. Otherwise it reads the source layer named by the id, is coloured by the property id and carries the current opacity |
| MapUpdateLayers.Repainted | src/_mixins/map-update-layers.js:176-183 | repainting keeps the set of layers, and leaves every layer outside the catalog as it was |
| MapUpdateLayers.RepaintedPaintsInstalled | src/_mixins/map-update-layers.js:176-183 | each installed catalog layer gets the new `fill-opacity` |
| MapUpdateLayers.PaintCallsSingle | src/_mixins/map-update-layers.js:176-183 | with one installed catalog layer, the opacity loop issues exactly one call, for that layer |
| MapUpdateLayers.PaintCallsNone | src/_mixins/map-update-layers.js:176-183 | with no catalog layer installed, the opacity loop issues no call |
| MapUpdateLayers.RepaintNoneInstalled | src/_mixins/map-update-layers.js:172-184 | with no catalog layer installed, `updateOpacity` changes no layer and issues no call |
| MapUpdateLayers.RepaintSingle | src/_mixins/map-update-layers.js:176-183 | with one installed catalog layer, repainting changes that layer alone |
| MapUpdateLayers.PaintCalls | src/_mixins/map-update-layers.js:176-183 | the opacity loop issues no more calls than there are catalog layers |
| MapUpdateLayers.PaintCallsCoverInstalled | src/_mixins/map-update-layers.js:176-183 | each installed catalog layer gets exactly one `fill-opacity` call with the new value |
| MapUpdateLayers.PaintCallsShape | src/_mixins/map-update-layers.js:176-183 | every call sets `fill-opacity` to the new value on a catalog layer that is installed |
| MapUpdateLayers.SyncLeavesResolvedLayer | src/_mixins/map-update-layers.js:127-136 | after an update, exactly one catalog layer is installed (the resolved one, with the current opacity), and every non-catalog layer is as it was |
| MapUpdateLayers.SyncedLayers | src/_mixins/map-update-layers.js:127-136 | the resolved layer is installed; any other layer left is outside the catalog and unchanged |
| MapUpdateLayers.InstallThenRepaint | src/_mixins/map-update-layers.js:84-86 | installing the resolved layer on a cleared map and repainting gives the synchronised layers, with one paint call |
| MapUpdateLayers.SyncIdempotent | src/_mixins/map-update-layers.js:115-136 | a second update with the same selection and opacity changes no layer |
| MapUpdateLayers.RepaintKeepsInstalledStyle | src/_mixins/map-update-layers.js:71 | when the entry overrides no paint, the repaint after `addLayer` leaves the merged style as installed |
| MapUpdateLayers.RepaintInstalled | src/_mixins/map-update-layers.js:176-183 | the opacity loop: layers become `Repainted`, sources unchanged, calls are `PaintCalls` |
| MapUpdateLayers.RepaintIfPresent | src/_mixins/map-update-layers.js:177-182 | `getLayer` then `setPaintProperty`: an installed layer gets the new opacity and one call is logged; an absent one changes nothing |
| MapUpdateLayers.TechSpeedLayers.constructor | src/_mixins/map-update-layers.js:10-22 | the mixin's initial data: empty selection and labels, `removeAllLayers` false, the legend title shown, opacity 1, no events |
| MapUpdateLayers.TechSpeedLayers.UpdateURLParams | src/_mixins/map-update-layers.js:125 | records the current selection as one URL update and changes nothing else |
| MapUpdateLayers.TechSpeedLayers.OpenMapSettings | src/_mixins/map-update-layers.js:169-171 | emits one `openMapSettings` and changes nothing else |
| MapUpdateLayers.TechSpeedLayers.AddSources | src/_mixins/map-update-layers.js:25-37 | `removeAllLayers` becomes false and every catalog source is added once, in order; layers unchanged |
| MapUpdateLayers.TechSpeedLayers.AddLayers | src/_mixins/map-update-layers.js:38-87 | installs the merged style of the resolved layer at its anchor, then repaints the catalog layers with the unchanged `mapOpacity`; the component's fields are unchanged |
| MapUpdateLayers.TechSpeedLayers.RemoveLayers | src/_mixins/map-update-layers.js:88-114 | sets `removeAllLayers`, removes exactly the installed catalog layers (one call each), and keeps other layers and all sources. With `removeAll` it clears selection and labels and issues one URL update; otherwise no other field changes |
| MapUpdateLayers.TechSpeedLayers.UpdateTechSpeed | src/_mixins/map-update-layers.js:115-168 | records the selection, issues one URL update and sets both legend labels. The layers become `SyncedLayers`, sources are added only if `25_3` was absent, and the full call sequence is stated |
| MapUpdateLayers.TechSpeedLayers.ProvisionOrClear | src/_mixins/map-update-layers.js:127-133 | adds the sources when `25_3` is absent, and otherwise removes the catalog layers; either way no catalog layer is left |
| MapUpdateLayers.TechSpeedLayers.UpdateLegend | src/_mixins/map-update-layers.js:138-167 | sets `tech` to the technology label and `speed` to the speed label; nothing else changes |
| MapUpdateLayers.TechSpeedLayers.UpdateOpacity | src/_mixins/map-update-layers.js:172-184 | stores `opacity / 100` and repaints exactly the installed catalog layers with it; sources unchanged |
| AreaSummary.LookupGroup | src/components/AreaSummary/AreaSummary.component.js:56 | `layersSpeed[key]` is defined exactly when the key is in the catalog, and is then that key's list |
| AreaSummary.SpeedList | src/components/AreaSummary/AreaSummary.component.js:54-56 | the speed's list is defined exactly when the property id has a speed field and the catalog has that key; there is no fallback |
| AreaSummary.SpeedListFacts | src/components/AreaSummary/AreaSummary.component.js:103 | the selected list is duplicate-free, disjoint from the tech/speed list and part of the catalog |
| AreaSummary.AreaStyleShape | src/components/AreaSummary/AreaSummary.component.js:60-93 | the merged style has the entry's id and keeps its keys. Otherwise it reads the source layer named by the id and is coloured by the property id, with no opacity |
| AreaSummary.AreaStyle | src/components/AreaSummary/AreaSummary.component.js:60-93 | the merged style's layer id is the entry's id |
| AreaSummary.Placed | src/components/AreaSummary/AreaSummary.component.js:86-97 | after the `addLayer` loop, the installed ids are the old ones plus the listed ones, and other layers are kept |
| AreaSummary.PlacedLast | src/components/AreaSummary/AreaSummary.component.js:86-97 | an id that no later entry repeats ends up with its own style |
| AreaSummary.InstalledStyles | src/components/AreaSummary/AreaSummary.component.js:86-97 | every entry of a duplicate-free list is installed with its merged style |
| AreaSummary.AreaStylesIds | src/components/AreaSummary/AreaSummary.component.js:93 | each merged style carries its entry's id |
| AreaSummary.LayerCalls | src/components/AreaSummary/AreaSummary.component.js:95 | one `addLayer(style, beforeLayer)` per entry, in order |
| AreaSummary.InstallAll | src/components/AreaSummary/AreaSummary.component.js:86-97 | the `forEach` over one list: layers become `Placed`, sources unchanged, calls are `LayerCalls` |
| AreaSummary.ClearedNone | src/components/AreaSummary/AreaSummary.component.js:107-115 | without a speed list, only the tech/speed layers are cleared, with their calls only |
| AreaSummary.Cleared | src/components/AreaSummary/AreaSummary.component.js:99-116 | a layer survives exactly when it is in neither the tech/speed list nor the selected speed's list, and survives unchanged |
| AreaSummary.SyncedLayers | src/components/AreaSummary/AreaSummary.component.js:118-130 | before the probed sources exist no layer is removed; with them and a speed without a list, no layer is added |
| AreaSummary.SyncCalls | src/components/AreaSummary/AreaSummary.component.js:118-130 | before the probed sources exist the calls start with one `addSource` per catalog entry; otherwise they start with the removals |
| AreaSummary.SyncInstallsSelection | src/components/AreaSummary/AreaSummary.component.js:118-130 | with a known speed, every layer of both lists is installed with its merged style, and any layer in neither list, including another speed's layers, is as it was |
| AreaSummary.SyncIdempotent | src/components/AreaSummary/AreaSummary.component.js:118-130 | a second update with the same known speed changes no layer |
| AreaSummary.ClearingAllLeavesOnlySelection | src/components/AreaSummary/AreaSummary.component.js:124-125 | when every catalog layer is cleared first, the catalog layers afterwards are exactly the two selected lists |
| AreaSummary.StaleSpeedLayerKept | src/components/AreaSummary/AreaSummary.component.js:125 | as written, selecting speed 25 and then speed 10 leaves the speed-25 layer on the map beside the speed-10 one |
| AreaSummary.RemoveGroups | src/components/AreaSummary/AreaSummary.component.js:107-115 | removes every installed layer of every speed list, keeps other layers and sources, and logs the removals list by list |
| AreaSummary.ChartGeography | src/components/AreaSummary/AreaSummary.component.js:132-144 | the query's type and geoid are used exactly when the type is one of the six accepted types and the geoid key is present. A geoid given without a value (`null`) is used as a null id, and a `null` type is never accepted; otherwise the choice is `nation`, id 0 |
| AreaSummary.AreaSummaryPage.constructor | src/components/AreaSummary/AreaSummary.component.js:14-19 | the page bound to the given map and catalogs, on a map whose catalog state satisfies the page invariant |
| AreaSummary.AreaSummaryPage.AddSources | src/components/AreaSummary/AreaSummary.component.js:41-51 | every catalog source is added once, in order; both probed sources are then present and layers are unchanged |
| AreaSummary.AreaSummaryPage.AddLayers | src/components/AreaSummary/AreaSummary.component.js:52-98 | installs the tech/speed list, then the speed's list, in order with their anchors. The call fails (after the first list) exactly when the speed has no list |
| AreaSummary.AreaSummaryPage.RemoveLayers | src/components/AreaSummary/AreaSummary.component.js:99-116 | removes the installed layers of the tech/speed list, then of the new speed's list, and leaves other layers. It fails (after the first list) exactly when the speed has no list |
| AreaSummary.AreaSummaryPage.UpdateTechSpeed | src/components/AreaSummary/AreaSummary.component.js:118-130 | adds sources when either probed source is missing (and then removes nothing), otherwise removes by the new speed; then installs. The layers and the full call sequence are stated, and the call fails exactly when the speed has no list |
| AreaSummary.AreaSummaryPage.ProvisionOrClear | src/components/AreaSummary/AreaSummary.component.js:120-126 | `addSources` when either probed source is missing, `removeLayers` otherwise; afterwards neither selected list is installed |
| AreaSummary.AreaSummaryPage.OnMapLoad | src/components/AreaSummary/AreaSummary.component.js:37-39 | the map's `load` handler shows `acfosw_25_3`, and fails exactly when the catalog has no list for `25` |
| AreaSummary.AreaSummaryPage.UpdateTechSpeedClearingAll | src/components/AreaSummary/AreaSummary.component.js:118-130 | the corrected update, which clears every catalog layer before installing the selection |
| AreaSummary.AreaSummaryPage.ProvisionOrClearAll | src/components/AreaSummary/AreaSummary.component.js:120-126 | the corrected first half: `addSources`, or the removal of every catalog layer |
| MapAppearance.InitialData | src/components/NBMap/NBMapAppearance/NBMapAppearance.component.js:14-24 | `data()`: the dialog closed, the picker hidden, `mapSettings` empty, and the other fields read from the store |
| MapAppearance.NormalizeOpacity | src/components/NBMap/NBMapAppearance/NBMapAppearance.component.js:46-55 | the broadcast value is never itself rejected; it differs from the input exactly when the input is rejected, and is then 0 |
| MapAppearance.NumericOpacityInRange | src/components/NBMap/NBMapAppearance/NBMapAppearance.component.js:46-55 | a numeric input is broadcast as a number in [0, 100]: unchanged when in range, and 0 otherwise |
| MapAppearance.TextOpacity | src/components/NBMap/NBMapAppearance/NBMapAppearance.component.js:48-52 | the empty string and any string whose numeric value is out of range are broadcast as 0; other strings, even non-numeric ones, pass unchanged |
| MapAppearance.NormalizeIdempotent | src/components/NBMap/NBMapAppearance/NBMapAppearance.component.js:46-55 | normalising a broadcast value again does not change it |
| MapAppearance.HighlightHex | src/components/NBMap/NBMapAppearance/NBMapAppearance.component.js:56-62 | restoring the default broadcasts the stored colour's hex once the settings were read, and fails before; keeping the colour broadcasts the current hex, or fails when it is undefined |
| MapAppearance.HighlightFailsAfterReset | src/components/NBMap/NBMapAppearance/NBMapAppearance.component.js:93-98 | after the reset, restoring the default highlight throws instead of broadcasting |
| MapAppearance.ResetData | src/components/NBMap/NBMapAppearance/NBMapAppearance.component.js:25-26 | the corrected reset is `data()` with `mapSettings` re-read from the store, as `mounted` does |
| MapAppearance.HighlightAfterResetData | src/components/NBMap/NBMapAppearance/NBMapAppearance.component.js:56-62 | after the corrected reset, both highlight actions broadcast the stored colour's hex |
| MapAppearance.MapAppearanceDialog.constructor | src/components/NBMap/NBMapAppearance/NBMapAppearance.component.js:14-26 | `data()` followed by `mounted()`, which stores the settings; no event yet |
| MapAppearance.MapAppearanceDialog.OpenMapAppearance | src/components/NBMap/NBMapAppearance/NBMapAppearance.component.js:28-30 | the dialog opens and nothing else changes |
| MapAppearance.MapAppearanceDialog.CloseModal | src/components/NBMap/NBMapAppearance/NBMapAppearance.component.js:88-90 | the dialog closes and nothing else changes |
| MapAppearance.MapAppearanceDialog.SetOpacity | src/components/NBMap/NBMapAppearance/NBMapAppearance.component.js:46-55 | exactly one broadcast, of the normalised value. The slider resets to 0 exactly when the input is rejected; no other field changes |
| MapAppearance.MapAppearanceDialog.UpdateHighlight | src/components/NBMap/NBMapAppearance/NBMapAppearance.component.js:56-62 | with `useDefault`, `hlColors` becomes the stored colour and is otherwise kept. One broadcast of its hex, unless it is undefined, in which case the call fails |
| MapAppearance.MapAppearanceDialog.SetWaterBlocks | src/components/NBMap/NBMapAppearance/NBMapAppearance.component.js:79-81 | broadcasts the negated water-blocks flag; no field changes |
| MapAppearance.MapAppearanceDialog.SetUnPopBlocks | src/components/NBMap/NBMapAppearance/NBMapAppearance.component.js:82-84 | broadcasts the negated unpopulated-blocks flag; no field changes |
| MapAppearance.MapAppearanceDialog.OnRouteChange | src/components/NBMap/NBMapAppearance/NBMapAppearance.component.js:93-98 | a change of route name resets every field to `data()`; the same name changes nothing |
| MapAppearance.MapAppearanceDialog.OnRouteChangeRereading | src/components/NBMap/NBMapAppearance/NBMapAppearance.component.js:93-98 | the corrected watcher: a change of route name resets to `data()` with the settings re-read |

## Left out

- Rendering, and the renderer's checks beyond layer and source ids. For example, a layer's `source` must exist, and the `beforeLayer` anchor must be installed. The backend is its call log and its two maps.
- The catalogs: `src/components/NBMap/layers-techSpeed.js` is not part of this model. The catalogs are constructor parameters, and `WellFormed` states what they are assumed to satisfy: distinct ids, the probed sources present, key `25` present for the mixin, and no layer object repeating `id` or `beforeLayer` among its other keys (`LayerEntry.Unambiguous`), so that the anchor `addLayer` receives is the one the style carries.
- The mixin's `layersTechSpeed` is an object keyed by speed, visited with `for…in`. The model keeps its entries as a sequence in visiting order, and the call log follows that order.
- The mixin's `togLegendTitle` is kept as a field. None of the mixin's methods reads or writes it.
- Shared-object aliasing in the style templates: the merge is shallow, so successive styles of one AreaSummary `addLayers` call share one `paint` object, which the loop rewrites. Each rewrite writes the same property id, so the model copies values instead.
- The `selectedTech !== undefined` checks in the mixin's `updateTechSpeed`. In the model a selection is always a string.
- Exceptions are results. AreaSummary's `forEach` over an undefined speed list returns `ok == false` after the first list. Reading `hex` of an undefined highlight colour returns `ok == false`. A renderer error is a precondition that the callers are proved to meet. `TechSpeedLayers.AddLayers` and `AreaSummaryPage.AddLayers` called directly need their layers not installed, as the renderer demands.
- Floating point: opacity and style numbers are reals, so the mixin's `* 100` then `/ 100` is exact.
- MapAppearance.MapAppearanceDialog.SetOpacity: a numeric NaN input cannot be written. A string that is not a number is written with `numeric == None` and passes unchanged, as in JavaScript. The conversion `Number(text)` itself is given with the input, not computed.
- The slider and colour-picker `v-model` bindings that write `opacity` and `hlColors` are template code and are not part of this model.
- Event-hub subscription plumbing (`$on`/`$off`, `destroyed`), the Vuex getters (the store is a parameter), and the body of `updateURLParams` (only the update it issues is logged).
- `mapInit` apart from its `load` handler, which is `AreaSummaryPage.OnMapLoad`.
- `fetchCombinedData` apart from the type/geoid decision: the network request, environment branching, logging and `drawCombinedCharts`. Query values arriving as arrays (a key repeated in the query string) are not modelled; a key that is missing, given without a value (`null`) or given with a value is.
- The colour-picker DOM handlers `showPicker`, `hidePicker` and `documentClick`, and `saveSettings`, which only logs.
- `ProvisionOrClear`, `UpdateLegend`, `RemoveIfPresent`, `RepaintIfPresent` and `ProvisionOrClearAll` are pieces of the methods they are named after, split out to keep each proof small. They are not separate functions in the source.
- Strings.LexLeq: compares Unicode code points, where JavaScript's default `sort` compares UTF-16 code units. The two orders differ only between characters outside the Basic Multilingual Plane and those in U+E000–U+FFFF; the technology names are plain ASCII.
- Legend.TechNames: walks the selection's code points, where `split('')` yields UTF-16 code units. A technology code outside the Basic Multilingual Plane would be split in two in JavaScript; the codes are ASCII letters.
- MapUpdateLayers.Lookup: finds a catalog's own keys only. In JavaScript `layersTechSpeed[speed]` also finds keys inherited from `Object.prototype` such as `constructor` or `toString`, so such a speed key skips the fallback to `25` and yields a function. The model falls back for such keys.
- AreaSummary.LookupGroup: likewise finds own keys only, where `layersSpeed[speed]` would yield an inherited function for a key such as `constructor`.

## Findings

| source | as written | input that shows it | evidently intended | confidence | as-written member | corrected member |
|---|---|---|---|---|---|---|
| src/components/AreaSummary/AreaSummary.component.js:125 | `updateTechSpeed` removes the layers of the speed being selected, not those of the speed shown | with sources ready, select `acfosw`/`25_3`, then `acfosw`/`10_1`: the speed-25 layers stay next to the speed-10 ones | remove the existing catalog layers, as the comment above the call says and as the shared mixin does | medium, not executed | AreaSummary.StaleSpeedLayerKept | AreaSummary.ClearingAllLeavesOnlySelection |
| src/components/NBMap/NBMapAppearance/NBMapAppearance.component.js:96 | the route-change reset re-runs `data()`, which sets `mapSettings` to `{}`, and `mounted` does not run again | change the route name, then call `updateHighlight(true)`: `hlColors` becomes undefined and reading `hex` throws | reset the dialog to its state after mounting, with the store's settings | medium, not executed | MapAppearance.HighlightFailsAfterReset | MapAppearance.HighlightAfterResetData |
