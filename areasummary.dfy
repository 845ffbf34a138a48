/** The area summary page's own overlay code, the older two-catalog variant:
    every tech/speed layer (`layersTechSpeed`, a list) is installed together
    with the layers listed for the selected speed (`layersSpeed[speed]`),
    there is no fallback for an unknown speed, and removal only covers the
    speed of the new selection. Also the choice of the geography whose
    charts the page requests. */
module AreaSummary {

  import opened Values
  import opened Backend
  import opened Catalog
  import opened Strings
  import opened PropertyIds

  /** The two sources whose presence means "sources provisioned". */
  const CountySource := "county-techSpeed"
  const BlockSource := "block-techSpeed"

  /** An entry of `layersSpeed`: the layers shown for one speed key. */
  datatype SpeedGroup = SpeedGroup(key: string, layers: seq<LayerEntry>)

  function GroupKey(g: SpeedGroup): string { g.key }

  function GroupKeys(groups: seq<SpeedGroup>): seq<string>
  {
    Ids(groups, GroupKey)
  }

  /** What the catalog files are assumed to provide: distinct source ids
      including the two probed ones, distinct speed keys, and layer ids with
      no repetition inside the tech/speed list plus any one speed list. */
  predicate WellFormed(srcs: seq<SourceEntry>, techSpeed: seq<LayerEntry>, groups: seq<SpeedGroup>)
  {
    && Distinct(SourceIds(srcs))
    && CountySource in SourceIds(srcs)
    && BlockSource in SourceIds(srcs)
    && Distinct(GroupKeys(groups))
    && Distinct(LayerIds(techSpeed))
    && (forall e :: e in techSpeed ==> e.Unambiguous())
    && forall g :: g in groups ==>
         && Distinct(LayerIds(g.layers)) && Elems(LayerIds(techSpeed)) !! Elems(LayerIds(g.layers))
         && forall e :: e in g.layers ==> e.Unambiguous()
  }

  /** Every layer id of either catalog. */
  function CatalogIdSet(techSpeed: seq<LayerEntry>, groups: seq<SpeedGroup>): set<string>
  {
    Elems(LayerIds(techSpeed)) + GroupIdSet(groups)
  }

  /** Every layer id of every speed list. */
  function GroupIdSet(groups: seq<SpeedGroup>): set<string>
  {
    set g, e | g in groups && e in g.layers :: e.id
  }

  /** Both probed sources present. */
  predicate SourcesReady(sources: map<string, SourceSpec>)
  {
    CountySource in sources && BlockSource in sources
  }

  /** The backend state the page keeps: the probed sources are both there,
      or no catalog source and no catalog layer is. */
  predicate Provisioned(srcs: seq<SourceEntry>, techSpeed: seq<LayerEntry>, groups: seq<SpeedGroup>,
                        sources: map<string, SourceSpec>, installed: set<string>)
  {
    || SourcesReady(sources)
    || ((forall k :: 0 <= k < |srcs| ==> srcs[k].id !in sources) && installed !! CatalogIdSet(techSpeed, groups))
  }

  /** `layersSpeed[key]`. */
  function LookupGroup(groups: seq<SpeedGroup>, key: string): (r: Option<seq<LayerEntry>>)
    ensures r.Some? <==> key in GroupKeys(groups)
    ensures r.Some? ==> SpeedGroup(key, r.value) in groups
  {
    if |groups| == 0 then None
    else if groups[0].key == key then Some(groups[0].layers)
    else
      GroupTail(groups, key);
      LookupGroup(groups[1..], key)
  }

  /** Past a first group with another key, the keys and groups of the rest. */
  lemma GroupTail(groups: seq<SpeedGroup>, key: string)
    requires |groups| > 0 && groups[0].key != key
    ensures key in GroupKeys(groups) <==> key in GroupKeys(groups[1..])
    ensures forall g :: g in groups[1..] ==> g in groups
  {
    assert GroupKeys(groups) == [groups[0].key] + GroupKeys(groups[1..]);
  }

  /** `layersSpeed[propertyID.split('_')[1]]`, undefined when the id has no
      speed field or the speed has no list. */
  function SpeedList(groups: seq<SpeedGroup>, propertyId: string): (r: Option<seq<LayerEntry>>)
    ensures r.Some? <==> SpeedKey(propertyId).Some? && SpeedKey(propertyId).value in GroupKeys(groups)
  {
    match SpeedKey(propertyId)
    case None => None
    case Some(key) => LookupGroup(groups, key)
  }

  /** The entries a speed list contributes; none when it is undefined. */
  function ListEntries(list: Option<seq<LayerEntry>>): seq<LayerEntry>
  {
    if list.Some? then list.value else []
  }

  /** A speed list of a well-formed catalog is duplicate-free, disjoint from
      the tech/speed list, and part of the catalog. */
  lemma SpeedListFacts(srcs: seq<SourceEntry>, techSpeed: seq<LayerEntry>, groups: seq<SpeedGroup>, propertyId: string)
    requires WellFormed(srcs, techSpeed, groups)
    ensures var entries := ListEntries(SpeedList(groups, propertyId));
      && Distinct(LayerIds(entries))
      && Elems(LayerIds(techSpeed)) !! Elems(LayerIds(entries))
      && Elems(LayerIds(entries)) <= CatalogIdSet(techSpeed, groups)
  {
    var list := SpeedList(groups, propertyId);
    if list.Some? {
      var g := SpeedGroup(SpeedKey(propertyId).value, list.value);
      assert g in groups;
      forall x | x in Elems(LayerIds(g.layers)) ensures x in CatalogIdSet(techSpeed, groups) {
        var k :| 0 <= k < |g.layers| && LayerIds(g.layers)[k] == x;
        assert g.layers[k] in g.layers;
      }
    }
  }

  /** The `fill-color` stops of this variant's template. */
  function AreaColorStops(): seq<Json>
  {
    [ JArr([JNum(0.0), JStr("#ffffcc")]),
      JArr([JNum(1.0), JStr("#a1dab4")]),
      JArr([JNum(2.0), JStr("#41b6c4")]),
      JArr([JNum(3.0), JStr("#225ea8")]) ]
  }

  /** The template as it stands when a layer is merged into it: the property
      id and the layer's own id as source layer. It has no opacity. */
  function AreaTemplate(propertyId: string, sourceLayer: string): Style
  {
    map[
      "layout" := JObj(map["visibility" := JStr("visible")]),
      "maxzoom" := JNum(0.0),
      "type" := JStr("fill"),
      "source" := JStr(""),
      "id" := JStr(""),
      "paint" := JObj(map[
        "fill-color" := JObj(map[
          "base" := JNum(1.0),
          "type" := JStr("exponential"),
          "property" := JStr(propertyId),
          "stops" := JArr(AreaColorStops()),
          "default" := JStr("#ffffcc")])]),
      "source-layer" := JStr(sourceLayer)]
  }

  /** `Object.assign({}, layerStyle, layer)` for one catalog entry. */
  function AreaStyle(propertyId: string, entry: LayerEntry): (r: Style)
    ensures LayerIdOf(r) == Some(entry.id)
  {
    Assign(AreaTemplate(propertyId, entry.id), entry.Fields())
  }

  /** The merged style is installed under the entry's id, keeps every key of
      the entry, and otherwise reads the entry's source layer, coloured by
      the property id. */
  lemma AreaStyleShape(propertyId: string, entry: LayerEntry)
    ensures LayerIdOf(AreaStyle(propertyId, entry)) == Some(entry.id)
    ensures forall k :: k in entry.Fields() ==> AreaStyle(propertyId, entry)[k] == entry.Fields()[k]
    ensures "source-layer" !in entry.overrides ==> AreaStyle(propertyId, entry)["source-layer"] == JStr(entry.id)
    ensures "paint" !in entry.overrides ==>
      && PaintOf(AreaStyle(propertyId, entry))["fill-color"].fields["property"] == JStr(propertyId)
      && "fill-opacity" !in PaintOf(AreaStyle(propertyId, entry))
  {
    assert "source-layer" !in entry.overrides ==> "source-layer" !in entry.Fields();
    assert "paint" !in entry.overrides ==> "paint" !in entry.Fields();
  }

  /** The layers after `addLayer` of `styles[k]` under `ids[k]`, for every
      `k` in order. */
  function Placed(layers: map<string, Style>, ids: seq<string>, styles: seq<Style>): (r: map<string, Style>)
    requires |ids| == |styles|
    ensures r.Keys == layers.Keys + Elems(ids)
    ensures forall x :: x in layers && x !in Elems(ids) ==> r[x] == layers[x]
  {
    if |ids| == 0 then layers
    else
      var n := |ids| - 1;
      assert Elems(ids) == Elems(ids[..n]) + {ids[n]};
      Placed(layers, ids[..n], styles[..n])[ids[n] := styles[n]]
  }

  /** The last id of a non-empty list is placed over the others. */
  lemma PlacedUnfold(layers: map<string, Style>, ids: seq<string>, styles: seq<Style>)
    requires |ids| == |styles| && |ids| > 0
    ensures Placed(layers, ids, styles) ==
      Placed(layers, ids[..|ids| - 1], styles[..|ids| - 1])[ids[|ids| - 1] := styles[|ids| - 1]]
  {
  }

  /** An id that no later id repeats ends up with its own style. */
  lemma {:induction false} PlacedLast(layers: map<string, Style>, ids: seq<string>, styles: seq<Style>, k: nat)
    requires |ids| == |styles| && k < |ids|
    requires forall j :: k < j < |ids| ==> ids[j] != ids[k]
    ensures Placed(layers, ids, styles)[ids[k]] == styles[k]
  {
    var n := |ids| - 1;
    PlacedUnfold(layers, ids, styles);
    if k < n {
      var front, frontStyles := ids[..n], styles[..n];
      assert forall j :: k < j < n ==> front[j] == ids[j];
      assert front[k] == ids[k] && frontStyles[k] == styles[k];
      PlacedLast(layers, front, frontStyles, k);
      assert ids[n] != ids[k];
    }
  }

  /** One more id places one more style. */
  lemma PlaceStep(layers: map<string, Style>, ids: seq<string>, styles: seq<Style>, id: string, style: Style)
    requires |ids| == |styles|
    ensures Placed(layers, ids + [id], styles + [style]) == Placed(layers, ids, styles)[id := style]
  {
    assert (ids + [id])[..|ids|] == ids;
    assert (styles + [style])[..|styles|] == styles;
  }

  /** The merged style of every entry, in order. */
  function AreaStyles(propertyId: string, entries: seq<LayerEntry>): (r: seq<Style>)
    ensures |r| == |entries| && forall k :: 0 <= k < |entries| ==> r[k] == AreaStyle(propertyId, entries[k])
  {
    seq(|entries|, k requires 0 <= k < |entries| => AreaStyle(propertyId, entries[k]))
  }

  /** The layers after `addLayer` of every entry's merged style, in order. */
  function Installed(layers: map<string, Style>, entries: seq<LayerEntry>, propertyId: string): map<string, Style>
  {
    Placed(layers, LayerIds(entries), AreaStyles(propertyId, entries))
  }

  /** Every entry of a duplicate-free list ends up installed with its own
      merged style. */
  lemma InstalledStyles(layers: map<string, Style>, entries: seq<LayerEntry>, propertyId: string, k: nat)
    requires Distinct(LayerIds(entries)) && k < |entries|
    ensures entries[k].id in Installed(layers, entries, propertyId)
    ensures Installed(layers, entries, propertyId)[entries[k].id] == AreaStyle(propertyId, entries[k])
  {
    var ids := LayerIds(entries);
    assert ids[k] in Elems(ids);
    PlacedLast(layers, ids, AreaStyles(propertyId, entries), k);
  }

  /** Each merged style carries its entry's id. */
  lemma AreaStylesIds(propertyId: string, entries: seq<LayerEntry>)
    ensures forall k :: 0 <= k < |entries| ==>
      LayerIdOf(AreaStyles(propertyId, entries)[k]) == Some(LayerIds(entries)[k])
  {
    forall k | 0 <= k < |entries|
      ensures LayerIdOf(AreaStyles(propertyId, entries)[k]) == Some(LayerIds(entries)[k])
    {
      AreaStyleShape(propertyId, entries[k]);
    }
  }

  /** The `beforeLayer` anchor of every entry, in order. */
  function Anchors(entries: seq<LayerEntry>): (r: seq<Option<string>>)
    ensures |r| == |entries| && forall k :: 0 <= k < |entries| ==> r[k] == entries[k].beforeLayer
  {
    seq(|entries|, k requires 0 <= k < |entries| => entries[k].beforeLayer)
  }

  /** The `addLayer(styles[k], anchors[k])` calls, in order. */
  function LayerCalls(styles: seq<Style>, anchors: seq<Option<string>>): (r: seq<Call>)
    requires |styles| == |anchors|
    ensures |r| == |styles| && forall k :: 0 <= k < |styles| ==> r[k] == AddLayerCall(styles[k], anchors[k])
  {
    if |styles| == 0 then []
    else
      var n := |styles| - 1;
      LayerCalls(styles[..n], anchors[..n]) + [AddLayerCall(styles[n], anchors[n])]
  }

  /** One more style adds one `addLayer` call. */
  lemma LayerCallsStep(styles: seq<Style>, anchors: seq<Option<string>>, style: Style, anchor: Option<string>)
    requires |styles| == |anchors|
    ensures LayerCalls(styles + [style], anchors + [anchor]) == LayerCalls(styles, anchors) + [AddLayerCall(style, anchor)]
  {
    assert (styles + [style])[..|styles|] == styles;
    assert (anchors + [anchor])[..|anchors|] == anchors;
  }

  /** The `addLayer` calls for every entry's merged style, in order. */
  function AddCalls(entries: seq<LayerEntry>, propertyId: string): seq<Call>
  {
    LayerCalls(AreaStyles(propertyId, entries), Anchors(entries))
  }

  /** The `forEach` over one layer list: `addLayer(styles[k], anchors[k])`
      for every `k` in order, each style carrying its id. */
  method InstallAll(backend: MapBackend, ids: seq<string>, styles: seq<Style>, anchors: seq<Option<string>>)
    requires |ids| == |styles| == |anchors|
    requires forall k :: 0 <= k < |ids| ==> LayerIdOf(styles[k]) == Some(ids[k])
    requires Distinct(ids) && Elems(ids) !! backend.layers.Keys
    modifies backend
    ensures backend.layers == Placed(old(backend.layers), ids, styles)
    ensures backend.sources == old(backend.sources)
    ensures backend.calls == old(backend.calls) + LayerCalls(styles, anchors)
  {
    var i := 0;
    while i < |ids|
      invariant 0 <= i <= |ids|
      invariant backend.layers == Placed(old(backend.layers), ids[..i], styles[..i])
      invariant backend.sources == old(backend.sources)
      invariant backend.calls == old(backend.calls) + LayerCalls(styles[..i], anchors[..i])
    {
      FreshId(ids, i);
      assert ids[i] !in old(backend.layers) by {
        assert ids[i] in Elems(ids);
      }
      TakeSnoc(ids, i);
      TakeSnoc(styles, i);
      TakeSnoc(anchors, i);
      PlaceStep(old(backend.layers), ids[..i], styles[..i], ids[i], styles[i]);
      LayerCallsStep(styles[..i], anchors[..i], styles[i], anchors[i]);
      CallsAppend(old(backend.calls), LayerCalls(styles[..i], anchors[..i]), [AddLayerCall(styles[i], anchors[i])]);
      backend.AddLayer(styles[i], anchors[i]);
      i := i + 1;
    }
    assert ids[..i] == ids && styles[..i] == styles && anchors[..i] == anchors;
  }

  /** The layers left by `removeLayers(propertyID)`: the tech/speed list
      gone, and the selected speed's list gone when it exists; a layer of
      neither list stays as it was. */
  function Cleared(techSpeed: seq<LayerEntry>, list: Option<seq<LayerEntry>>, layers: map<string, Style>): (r: map<string, Style>)
    ensures forall k :: k in r <==> k in layers && k !in LayerIds(techSpeed) && k !in LayerIds(ListEntries(list))
    ensures forall k :: k in r ==> r[k] == layers[k]
  {
    layers - Elems(LayerIds(techSpeed)) - Elems(LayerIds(ListEntries(list)))
  }

  /** The `removeLayer` calls of `removeLayers(propertyID)`: the tech/speed
      list first, then the speed list on what is left. */
  function ClearCalls(techSpeed: seq<LayerEntry>, list: Option<seq<LayerEntry>>, layers: map<string, Style>): seq<Call>
  {
    PresentRemovals(LayerIds(techSpeed), layers)
      + PresentRemovals(LayerIds(ListEntries(list)), layers - Elems(LayerIds(techSpeed)))
  }

  /** Without a speed list only the tech/speed layers are cleared. */
  lemma ClearedNone(techSpeed: seq<LayerEntry>, layers: map<string, Style>)
    ensures Cleared(techSpeed, None, layers) == layers - Elems(LayerIds(techSpeed))
    ensures ClearCalls(techSpeed, None, layers) == PresentRemovals(LayerIds(techSpeed), layers)
  {
    assert Elems(LayerIds(ListEntries(None))) == {};
    assert PresentRemovals(LayerIds(ListEntries(None)), layers - Elems(LayerIds(techSpeed))) == [];
  }

  /** The backend's layers after `updateTechSpeed` with property id
      `propertyId`, from `layers`, on a map whose probed sources were
      (`ready`) or were not there. */
  function SyncedLayers(techSpeed: seq<LayerEntry>, groups: seq<SpeedGroup>, layers: map<string, Style>,
                        ready: bool, propertyId: string): (r: map<string, Style>)
    ensures !ready ==> layers.Keys <= r.Keys
    ensures ready && SpeedList(groups, propertyId).None? ==> r.Keys <= layers.Keys
  {
    var list := SpeedList(groups, propertyId);
    if ready && list.None? then Cleared(techSpeed, list, layers)
    else
      var start := if ready then Cleared(techSpeed, list, layers) else layers;
      Installed(Installed(start, techSpeed, propertyId), ListEntries(list), propertyId)
  }

  /** The calls `updateTechSpeed` issues, in order. */
  function SyncCalls(srcs: seq<SourceEntry>, techSpeed: seq<LayerEntry>, groups: seq<SpeedGroup>,
                     layers: map<string, Style>, ready: bool, propertyId: string): (r: seq<Call>)
    ensures !ready ==> SourceCalls(srcs) <= r
    ensures ready ==> ClearCalls(techSpeed, SpeedList(groups, propertyId), layers) <= r
  {
    var list := SpeedList(groups, propertyId);
    if ready && list.None? then ClearCalls(techSpeed, list, layers)
    else
      (if ready then ClearCalls(techSpeed, list, layers) else SourceCalls(srcs))
        + AddCalls(techSpeed, propertyId) + AddCalls(ListEntries(list), propertyId)
  }

  /** With a known speed, every layer of both lists is installed with its
      merged style, and a layer of neither list is as it was — including a
      layer of another speed's list. */
  lemma SyncInstallsSelection(srcs: seq<SourceEntry>, techSpeed: seq<LayerEntry>, groups: seq<SpeedGroup>,
                              layers: map<string, Style>, ready: bool, propertyId: string)
    requires WellFormed(srcs, techSpeed, groups)
    requires SpeedList(groups, propertyId).Some?
    ensures var r := SyncedLayers(techSpeed, groups, layers, ready, propertyId);
      var entries := SpeedList(groups, propertyId).value;
      && (forall k :: 0 <= k < |techSpeed| ==>
            techSpeed[k].id in r && r[techSpeed[k].id] == AreaStyle(propertyId, techSpeed[k]))
      && (forall k :: 0 <= k < |entries| ==>
            entries[k].id in r && r[entries[k].id] == AreaStyle(propertyId, entries[k]))
      && (forall x :: x !in Elems(LayerIds(techSpeed)) && x !in Elems(LayerIds(entries)) ==>
            (x in r <==> x in layers) && (x in layers ==> r[x] == layers[x]))
  {
    var list := SpeedList(groups, propertyId);
    var entries := list.value;
    SpeedListFacts(srcs, techSpeed, groups, propertyId);
    var start := if ready then Cleared(techSpeed, list, layers) else layers;
    var mid := Installed(start, techSpeed, propertyId);
    forall k | 0 <= k < |techSpeed| ensures var r := SyncedLayers(techSpeed, groups, layers, ready, propertyId);
        techSpeed[k].id in r && r[techSpeed[k].id] == AreaStyle(propertyId, techSpeed[k]) {
      InstalledStyles(start, techSpeed, propertyId, k);
      assert LayerIds(techSpeed)[k] in Elems(LayerIds(techSpeed));
      assert techSpeed[k].id !in Elems(LayerIds(entries));
    }
    forall k | 0 <= k < |entries| ensures var r := SyncedLayers(techSpeed, groups, layers, ready, propertyId);
        entries[k].id in r && r[entries[k].id] == AreaStyle(propertyId, entries[k]) {
      InstalledStyles(mid, entries, propertyId, k);
    }
  }

  /** A second `updateTechSpeed` with the same known speed changes no layer. */
  lemma SyncIdempotent(srcs: seq<SourceEntry>, techSpeed: seq<LayerEntry>, groups: seq<SpeedGroup>,
                       layers: map<string, Style>, ready: bool, propertyId: string)
    requires WellFormed(srcs, techSpeed, groups)
    requires SpeedList(groups, propertyId).Some?
    ensures var once := SyncedLayers(techSpeed, groups, layers, ready, propertyId);
      SyncedLayers(techSpeed, groups, once, true, propertyId) == once
  {
    var entries := SpeedList(groups, propertyId).value;
    var once := SyncedLayers(techSpeed, groups, layers, ready, propertyId);
    var twice := SyncedLayers(techSpeed, groups, once, true, propertyId);
    SyncInstallsSelection(srcs, techSpeed, groups, layers, ready, propertyId);
    SyncInstallsSelection(srcs, techSpeed, groups, once, true, propertyId);
    var ids := Elems(LayerIds(techSpeed)) + Elems(LayerIds(entries));
    forall x | x in ids ensures x in once && x in twice && twice[x] == once[x] {
      if x in Elems(LayerIds(techSpeed)) {
        var k :| 0 <= k < |techSpeed| && LayerIds(techSpeed)[k] == x;
      } else {
        var k :| 0 <= k < |entries| && LayerIds(entries)[k] == x;
      }
    }
    MapsAgree(twice, once, ids);
  }

  /** Two maps that agree on `ids` and outside it are equal. */
  lemma MapsAgree(a: map<string, Style>, b: map<string, Style>, ids: set<string>)
    requires forall x :: x in ids ==> x in a && x in b && a[x] == b[x]
    requires forall x :: x !in ids ==> (x in a <==> x in b) && (x in b ==> a[x] == b[x])
    ensures a == b
  {
    assert a.Keys == b.Keys;
  }

  /** The layers `updateTechSpeed` would leave if it removed every catalog
      layer, as the mixin's `removeLayers` does, instead of only those of
      the new speed. */
  function SyncedLayersClearingAll(techSpeed: seq<LayerEntry>, groups: seq<SpeedGroup>, layers: map<string, Style>,
                                   ready: bool, propertyId: string): map<string, Style>
  {
    var start := if ready then layers - CatalogIdSet(techSpeed, groups) else layers;
    Installed(Installed(start, techSpeed, propertyId), ListEntries(SpeedList(groups, propertyId)), propertyId)
  }

  /** With every catalog layer cleared first, the catalog layers on the map
      afterwards are exactly the tech/speed list and the selected speed's
      list (the tech/speed list alone when the speed is unknown). */
  lemma ClearingAllLeavesOnlySelection(srcs: seq<SourceEntry>, techSpeed: seq<LayerEntry>, groups: seq<SpeedGroup>,
                                       layers: map<string, Style>, ready: bool, propertyId: string)
    requires WellFormed(srcs, techSpeed, groups)
    requires ready || layers.Keys !! CatalogIdSet(techSpeed, groups)
    ensures CatalogIdSet(techSpeed, groups) * SyncedLayersClearingAll(techSpeed, groups, layers, ready, propertyId).Keys
         == Elems(LayerIds(techSpeed)) + Elems(LayerIds(ListEntries(SpeedList(groups, propertyId))))
  {
    SpeedListFacts(srcs, techSpeed, groups, propertyId);
  }

  /** The as-written removal keeps the previous speed's layers: after
      selecting speed 25 and then speed 10, the speed-25 layer is still on
      the map next to the speed-10 one. */
  lemma StaleSpeedLayerKept(srcs: seq<SourceEntry>, groups: seq<SpeedGroup>)
    requires srcs == [SourceEntry(CountySource, "", ""), SourceEntry(BlockSource, "", "")]
    requires groups == [SpeedGroup("25", [LayerEntry("speed-25", None, map[])]),
                        SpeedGroup("10", [LayerEntry("speed-10", None, map[])])]
    ensures var first := SyncedLayers([], groups, map[], false, PropertyId("acfosw", "25_3"));
      var second := SyncedLayers([], groups, first, true, PropertyId("acfosw", "10_1"));
      && "speed-10" in second
      && "speed-25" in second
  {
    ExampleCatalog(srcs, groups);
    var first := SyncedLayers([], groups, map[], false, PropertyId("acfosw", "25_3"));
    SyncInstallsSelection(srcs, [], groups, map[], false, PropertyId("acfosw", "25_3"));
    assert SpeedList(groups, PropertyId("acfosw", "25_3")).value[0].id == "speed-25";
    SyncInstallsSelection(srcs, [], groups, first, true, PropertyId("acfosw", "10_1"));
    assert SpeedList(groups, PropertyId("acfosw", "10_1")).value[0].id == "speed-10";
    assert "speed-25" !in Elems(LayerIds(SpeedList(groups, PropertyId("acfosw", "10_1")).value));
  }

  /** The two-speed catalog of the example is well formed, and each
      selection finds its own list. */
  lemma ExampleCatalog(srcs: seq<SourceEntry>, groups: seq<SpeedGroup>)
    requires srcs == [SourceEntry(CountySource, "", ""), SourceEntry(BlockSource, "", "")]
    requires groups == [SpeedGroup("25", [LayerEntry("speed-25", None, map[])]),
                        SpeedGroup("10", [LayerEntry("speed-10", None, map[])])]
    ensures WellFormed(srcs, [], groups)
    ensures SpeedList(groups, PropertyId("acfosw", "25_3")) == Some([LayerEntry("speed-25", None, map[])])
    ensures SpeedList(groups, PropertyId("acfosw", "10_1")) == Some([LayerEntry("speed-10", None, map[])])
  {
    ExampleWellFormed(srcs, groups);
    DefaultSpeedKey();
    SpeedKeyTen();
    ExampleLookup(groups);
  }

  lemma ExampleWellFormed(srcs: seq<SourceEntry>, groups: seq<SpeedGroup>)
    requires srcs == [SourceEntry(CountySource, "", ""), SourceEntry(BlockSource, "", "")]
    requires groups == [SpeedGroup("25", [LayerEntry("speed-25", None, map[])]),
                        SpeedGroup("10", [LayerEntry("speed-10", None, map[])])]
    ensures WellFormed(srcs, [], groups)
  {
    assert SourceIds(srcs) == [CountySource, BlockSource];
    assert GroupKeys(groups) == ["25", "10"];
  }

  lemma ExampleLookup(groups: seq<SpeedGroup>)
    requires groups == [SpeedGroup("25", [LayerEntry("speed-25", None, map[])]),
                        SpeedGroup("10", [LayerEntry("speed-10", None, map[])])]
    ensures LookupGroup(groups, "25") == Some([LayerEntry("speed-25", None, map[])])
    ensures LookupGroup(groups, "10") == Some([LayerEntry("speed-10", None, map[])])
  {
    assert groups[1..] == [SpeedGroup("10", [LayerEntry("speed-10", None, map[])])];
  }

  lemma SpeedKeyTen()
    ensures SpeedKey(PropertyId("acfosw", "10_1")) == Some("10")
  {
    PropertyIdSpeedKey("acfosw", "10_1");
    SplitAtSeparator("10", '_', "1");
    assert "10" + "_" + "1" == "10_1";
    SplitWithoutSeparator("10", '_');
  }

  /** The `removeLayer` calls of the loop over every speed list, in order,
      each list seeing what the lists before it left. */
  function GroupRemovals(groups: seq<SpeedGroup>, layers: map<string, Style>): seq<Call>
  {
    if |groups| == 0 then []
    else
      var n := |groups| - 1;
      GroupRemovals(groups[..n], layers) + PresentRemovals(LayerIds(groups[n].layers), layers - GroupIdSet(groups[..n]))
  }

  /** One more speed list removes its ids and adds its calls. */
  lemma GroupStep(done: seq<SpeedGroup>, next: SpeedGroup, layers: map<string, Style>)
    ensures GroupIdSet(done + [next]) == GroupIdSet(done) + Elems(LayerIds(next.layers))
    ensures GroupRemovals(done + [next], layers)
         == GroupRemovals(done, layers) + PresentRemovals(LayerIds(next.layers), layers - GroupIdSet(done))
    ensures layers - GroupIdSet(done) - Elems(LayerIds(next.layers)) == layers - GroupIdSet(done + [next])
  {
    assert (done + [next])[..|done|] == done;
    forall x | x in Elems(LayerIds(next.layers)) ensures x in GroupIdSet(done + [next]) {
      var k :| 0 <= k < |next.layers| && LayerIds(next.layers)[k] == x;
      assert next.layers[k] in next.layers;
    }
  }

  /** Every speed list's installed layers removed, list by list. */
  method RemoveGroups(backend: MapBackend, groups: seq<SpeedGroup>)
    requires forall g :: g in groups ==> Distinct(LayerIds(g.layers))
    modifies backend
    ensures backend.layers == old(backend.layers) - GroupIdSet(groups)
    ensures backend.sources == old(backend.sources)
    ensures backend.calls == old(backend.calls) + GroupRemovals(groups, old(backend.layers))
  {
    var i := 0;
    while i < |groups|
      invariant 0 <= i <= |groups|
      invariant backend.layers == old(backend.layers) - GroupIdSet(groups[..i])
      invariant backend.sources == old(backend.sources)
      invariant backend.calls == old(backend.calls) + GroupRemovals(groups[..i], old(backend.layers))
    {
      TakeSnoc(groups, i);
      GroupStep(groups[..i], groups[i], old(backend.layers));
      CallsAppend(old(backend.calls), GroupRemovals(groups[..i], old(backend.layers)),
                  PresentRemovals(LayerIds(groups[i].layers), old(backend.layers) - GroupIdSet(groups[..i])));
      RemoveInstalled(backend, LayerIds(groups[i].layers));
      i := i + 1;
    }
    assert groups[..i] == groups;
  }

  /** A query-string key as the router hands it over: missing, present
      without a value (`?geoid`, which arrives as `null`), or with a value. */
  datatype QueryValue = Absent | NullValue | Given(text: string)

  /** Which geography `fetchCombinedData` requests charts for. */
  datatype GeoId = NumberId(n: int) | QueryId(value: string) | NullId
  datatype Geography = Geography(kind: string, id: GeoId)

  /** The geography types the page accepts from the query string. */
  const ValidTypes: seq<string> := ["state", "county", "place", "cbsa", "cd", "tribal"]

  /** The query's `type` and `geoid` when the type is accepted and the geoid
      key is present; otherwise the whole nation, id 0. A `null` type is
      never accepted, but a `null` geoid passes the `typeof` test and is
      used as the id. */
  function ChartGeography(queryType: QueryValue, queryGeoid: QueryValue): (g: Geography)
    ensures !g.id.NumberId? <==> queryType.Given? && queryType.text in ValidTypes && !queryGeoid.Absent?
    ensures !g.id.NumberId? ==>
      g == Geography(queryType.text, if queryGeoid.Given? then QueryId(queryGeoid.text) else NullId)
    ensures g.id.NumberId? ==> g == Geography("nation", NumberId(0))
    ensures g.kind in ValidTypes || g.kind == "nation"
  {
    var isValidType := queryType.Given? && IndexOf(ValidTypes, queryType.text).Some?;
    if !queryType.Absent? && isValidType && !queryGeoid.Absent? then
      Geography(queryType.text, if queryGeoid.Given? then QueryId(queryGeoid.text) else NullId)
    else
      Geography("nation", NumberId(0))
  }

  /** The area summary page, bound to one map. Its own data are the
      default selection; the map and the catalogs are fixed. */
  class AreaSummaryPage {
    const Map: MapBackend
    const sourcesTechSpeed: seq<SourceEntry>
    const layersTechSpeed: seq<LayerEntry>
    const layersSpeed: seq<SpeedGroup>
    const defaultTech := "acfosw"
    const defaultSpeed := "25_3"

    ghost predicate Valid()
      reads Map
    {
      && WellFormed(sourcesTechSpeed, layersTechSpeed, layersSpeed)
      && Provisioned(sourcesTechSpeed, layersTechSpeed, layersSpeed, Map.sources, Map.layers.Keys)
    }

    /** `data()` of the page, on a map whose catalog state is consistent. */
    constructor (backend: MapBackend, srcs: seq<SourceEntry>, techSpeed: seq<LayerEntry>, groups: seq<SpeedGroup>)
      requires WellFormed(srcs, techSpeed, groups)
      requires Provisioned(srcs, techSpeed, groups, backend.sources, backend.layers.Keys)
      ensures Valid()
      ensures Map == backend && sourcesTechSpeed == srcs && layersTechSpeed == techSpeed && layersSpeed == groups
    {
      Map := backend;
      sourcesTechSpeed, layersTechSpeed, layersSpeed := srcs, techSpeed, groups;
    }

    /** `addSources()`: every catalog source, once, in catalog order. */
    method AddSources()
      requires Valid()
      requires forall k :: 0 <= k < |sourcesTechSpeed| ==> sourcesTechSpeed[k].id !in Map.sources
      modifies Map
      ensures Valid() && SourcesReady(Map.sources)
      ensures Map.sources == WithSources(old(Map.sources), sourcesTechSpeed)
      ensures Map.layers == old(Map.layers)
      ensures Map.calls == old(Map.calls) + SourceCalls(sourcesTechSpeed)
    {
      ProvisionSources(Map, sourcesTechSpeed);
    }

    /** `addLayers(propertyID)`: the tech/speed list, then the list of the
        speed in the property id. With no such list the second `forEach`
        throws after the first list is installed, reported as `ok == false`. */
    method AddLayers(propertyId: string) returns (ok: bool)
      requires Valid() && SourcesReady(Map.sources)
      requires Elems(LayerIds(layersTechSpeed)) !! Map.layers.Keys
      requires Elems(LayerIds(ListEntries(SpeedList(layersSpeed, propertyId)))) !! Map.layers.Keys
      modifies Map
      ensures Valid()
      ensures ok <==> SpeedList(layersSpeed, propertyId).Some?
      ensures Map.sources == old(Map.sources)
      ensures var entries := ListEntries(SpeedList(layersSpeed, propertyId));
        && Map.layers == Installed(Installed(old(Map.layers), layersTechSpeed, propertyId), entries, propertyId)
        && Map.calls == old(Map.calls) + AddCalls(layersTechSpeed, propertyId) + AddCalls(entries, propertyId)
    {
      var speed := SpeedKey(propertyId);
      var speedLayers := if speed.Some? then LookupGroup(layersSpeed, speed.value) else None;
      AreaStylesIds(propertyId, layersTechSpeed);
      InstallAll(Map, LayerIds(layersTechSpeed), AreaStyles(propertyId, layersTechSpeed), Anchors(layersTechSpeed));
      if speedLayers.None? {
        assert Map.calls == old(Map.calls) + AddCalls(layersTechSpeed, propertyId) + [];
        return false;
      }
      var entries := speedLayers.value;
      SpeedListFacts(sourcesTechSpeed, layersTechSpeed, layersSpeed, propertyId);
      AreaStylesIds(propertyId, entries);
      InstallAll(Map, LayerIds(entries), AreaStyles(propertyId, entries), Anchors(entries));
      ok := true;
    }

    /** `removeLayers(propertyID)`: every installed layer of the tech/speed
        list, then of the list of the speed in the property id. With no such
        list the second `forEach` throws, reported as `ok == false`. */
    method RemoveLayers(propertyId: string) returns (ok: bool)
      requires Valid()
      modifies Map
      ensures Valid()
      ensures ok <==> SpeedList(layersSpeed, propertyId).Some?
      ensures Map.sources == old(Map.sources)
      ensures Map.layers == Cleared(layersTechSpeed, SpeedList(layersSpeed, propertyId), old(Map.layers))
      ensures Map.calls == old(Map.calls) + ClearCalls(layersTechSpeed, SpeedList(layersSpeed, propertyId), old(Map.layers))
    {
      var speed := SpeedKey(propertyId);
      var speedLayers := if speed.Some? then LookupGroup(layersSpeed, speed.value) else None;
      RemoveInstalled(Map, LayerIds(layersTechSpeed));
      if speedLayers.None? {
        ClearedNone(layersTechSpeed, old(Map.layers));
        return false;
      }
      SpeedListFacts(sourcesTechSpeed, layersTechSpeed, layersSpeed, propertyId);
      RemoveInstalled(Map, LayerIds(speedLayers.value));
      ok := true;
    }

    /** `updateTechSpeed(selectedTech, selectedSpeed)`: provision the
        sources if either probed one is missing, otherwise remove the
        layers keyed by the new speed; then install the new layers. */
    method UpdateTechSpeed(newTech: string, newSpeed: string) returns (ok: bool)
      requires Valid()
      modifies Map
      ensures Valid() && SourcesReady(Map.sources)
      ensures ok <==> SpeedList(layersSpeed, newTech + "_" + newSpeed).Some?
      ensures Map.sources == if SourcesReady(old(Map.sources)) then old(Map.sources)
                             else WithSources(old(Map.sources), sourcesTechSpeed)
      ensures Map.layers == SyncedLayers(layersTechSpeed, layersSpeed, old(Map.layers),
                                         SourcesReady(old(Map.sources)), newTech + "_" + newSpeed)
      ensures Map.calls == old(Map.calls) + SyncCalls(sourcesTechSpeed, layersTechSpeed, layersSpeed, old(Map.layers),
                                                      SourcesReady(old(Map.sources)), newTech + "_" + newSpeed)
    {
      var propertyId := PropertyId(newTech, newSpeed);
      ghost var before := Map.calls;
      ok := ProvisionOrClear(propertyId);
      ghost var prepared := Map.calls[|before|..];
      if ok {
        ok := AddLayers(propertyId);
        CallsAppend3(before, prepared, AddCalls(layersTechSpeed, propertyId),
                     AddCalls(ListEntries(SpeedList(layersSpeed, propertyId)), propertyId));
      }
    }

    /** The first half of `updateTechSpeed`: `addSources()` when either probed
        source is missing, `removeLayers(propertyID)` otherwise. `ok` is false
        when the removal threw. */
    method ProvisionOrClear(propertyId: string) returns (ok: bool)
      requires Valid()
      modifies Map
      ensures Valid() && SourcesReady(Map.sources)
      ensures ok <==> !SourcesReady(old(Map.sources)) || SpeedList(layersSpeed, propertyId).Some?
      ensures Map.sources == if SourcesReady(old(Map.sources)) then old(Map.sources)
                             else WithSources(old(Map.sources), sourcesTechSpeed)
      ensures Map.layers == if SourcesReady(old(Map.sources))
                            then Cleared(layersTechSpeed, SpeedList(layersSpeed, propertyId), old(Map.layers))
                            else old(Map.layers)
      ensures Map.calls == old(Map.calls) +
        if SourcesReady(old(Map.sources))
        then ClearCalls(layersTechSpeed, SpeedList(layersSpeed, propertyId), old(Map.layers))
        else SourceCalls(sourcesTechSpeed)
      ensures ok ==> Elems(LayerIds(layersTechSpeed)) !! Map.layers.Keys
      ensures ok ==> Elems(LayerIds(ListEntries(SpeedList(layersSpeed, propertyId)))) !! Map.layers.Keys
    {
      SpeedListFacts(sourcesTechSpeed, layersTechSpeed, layersSpeed, propertyId);
      if Map.GetSource(CountySource).None? || Map.GetSource(BlockSource).None? {
        AddSources();
        ok := true;
      } else {
        ok := RemoveLayers(propertyId);
      }
    }

    /** The map's `load` handler registered by `mapInit`: show the default
        selection. */
    method OnMapLoad() returns (ok: bool)
      requires Valid()
      modifies Map
      ensures Valid() && SourcesReady(Map.sources)
      ensures ok <==> "25" in GroupKeys(layersSpeed)
      ensures Map.sources == if SourcesReady(old(Map.sources)) then old(Map.sources)
                             else WithSources(old(Map.sources), sourcesTechSpeed)
      ensures Map.layers == SyncedLayers(layersTechSpeed, layersSpeed, old(Map.layers),
                                         SourcesReady(old(Map.sources)), "acfosw_25_3")
      ensures Map.calls == old(Map.calls) + SyncCalls(sourcesTechSpeed, layersTechSpeed, layersSpeed, old(Map.layers),
                                                      SourcesReady(old(Map.sources)), "acfosw_25_3")
    {
      assert defaultTech + "_" + defaultSpeed == "acfosw_25_3";
      DefaultSpeedKey();
      ok := UpdateTechSpeed(defaultTech, defaultSpeed);
    }

    /** `updateTechSpeed` with the removal step clearing every catalog
        layer, the behaviour its own comment asks for. */
    method UpdateTechSpeedClearingAll(newTech: string, newSpeed: string) returns (ok: bool)
      requires Valid()
      modifies Map
      ensures Valid() && SourcesReady(Map.sources)
      ensures ok <==> SpeedList(layersSpeed, newTech + "_" + newSpeed).Some?
      ensures Map.sources == if SourcesReady(old(Map.sources)) then old(Map.sources)
                             else WithSources(old(Map.sources), sourcesTechSpeed)
      ensures Map.layers == SyncedLayersClearingAll(layersTechSpeed, layersSpeed, old(Map.layers),
                                                    SourcesReady(old(Map.sources)), newTech + "_" + newSpeed)
      ensures var entries := ListEntries(SpeedList(layersSpeed, newTech + "_" + newSpeed));
        Map.calls == old(Map.calls)
          + (if SourcesReady(old(Map.sources))
             then PresentRemovals(LayerIds(layersTechSpeed), old(Map.layers))
                  + GroupRemovals(layersSpeed, old(Map.layers) - Elems(LayerIds(layersTechSpeed)))
             else SourceCalls(sourcesTechSpeed))
          + AddCalls(layersTechSpeed, newTech + "_" + newSpeed) + AddCalls(entries, newTech + "_" + newSpeed)
    {
      var propertyId := PropertyId(newTech, newSpeed);
      ghost var before := Map.calls;
      ProvisionOrClearAll(propertyId);
      ghost var prepared := Map.calls[|before|..];
      ok := AddLayers(propertyId);
      CallsAppend3(before, prepared, AddCalls(layersTechSpeed, propertyId),
                   AddCalls(ListEntries(SpeedList(layersSpeed, propertyId)), propertyId));
    }

    /** The first half of the corrected `updateTechSpeed`: `addSources()`
        when either probed source is missing, otherwise every catalog
        layer removed. */
    method ProvisionOrClearAll(propertyId: string)
      requires Valid()
      modifies Map
      ensures Valid() && SourcesReady(Map.sources)
      ensures Map.sources == if SourcesReady(old(Map.sources)) then old(Map.sources)
                             else WithSources(old(Map.sources), sourcesTechSpeed)
      ensures Map.layers == if SourcesReady(old(Map.sources))
                            then old(Map.layers) - CatalogIdSet(layersTechSpeed, layersSpeed)
                            else old(Map.layers)
      ensures Map.calls == old(Map.calls) +
        if SourcesReady(old(Map.sources))
        then PresentRemovals(LayerIds(layersTechSpeed), old(Map.layers))
             + GroupRemovals(layersSpeed, old(Map.layers) - Elems(LayerIds(layersTechSpeed)))
        else SourceCalls(sourcesTechSpeed)
      ensures Elems(LayerIds(layersTechSpeed)) !! Map.layers.Keys
      ensures Elems(LayerIds(ListEntries(SpeedList(layersSpeed, propertyId)))) !! Map.layers.Keys
    {
      SpeedListFacts(sourcesTechSpeed, layersTechSpeed, layersSpeed, propertyId);
      if Map.GetSource(CountySource).None? || Map.GetSource(BlockSource).None? {
        AddSources();
      } else {
        RemoveInstalled(Map, LayerIds(layersTechSpeed));
        ghost var afterTech := Map.calls;
        RemoveGroups(Map, layersSpeed);
        CallsAppend(old(Map.calls), PresentRemovals(LayerIds(layersTechSpeed), old(Map.layers)),
                    GroupRemovals(layersSpeed, old(Map.layers) - Elems(LayerIds(layersTechSpeed))));
      }
    }
  }
}
