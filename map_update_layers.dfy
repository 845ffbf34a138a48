/** The shared tech/speed layer mixin: one catalog layer per speed key, kept
    in step with the selected technology and speed on the map backend, plus
    the opacity applied to whichever catalog layers are installed. */
module MapUpdateLayers {

  import opened Values
  import opened Strings
  import opened Backend
  import opened Catalog
  import opened Legend
  import opened PropertyIds

  /** The source whose absence means "sources not provisioned yet". */
  const PrimarySource := "25_3"
  /** The speed key used when the selected speed has no catalog layer. */
  const FallbackKey := "25"

  /** An entry of `layersTechSpeed`: the catalog layer stored under a speed key. */
  datatype SpeedLayer = SpeedLayer(key: string, layer: LayerEntry)

  /** What `updateURLParams` and the event hub are handed. */
  datatype Event =
    | UpdateUrlParams(tech: string, speed: string)
    | OpenMapSettingsEmit

  /** The component's data fields other than the backend. */
  datatype LayerState = LayerState(
    removeAllLayers: bool,
    togLegendTitle: bool,
    selectedTech: string,
    selectedSpeed: string,
    tech: string,
    speed: string,
    mapOpacity: real,
    events: seq<Event>)

  function SpeedKeyOf(e: SpeedLayer): string { e.key }

  function SpeedKeys(cat: seq<SpeedLayer>): seq<string>
  {
    Ids(cat, SpeedKeyOf)
  }

  function CatalogLayers(cat: seq<SpeedLayer>): (r: seq<LayerEntry>)
    ensures |r| == |cat| && forall k :: 0 <= k < |cat| ==> r[k] == cat[k].layer
  {
    seq(|cat|, k requires 0 <= k < |cat| => cat[k].layer)
  }

  function CatalogIds(cat: seq<SpeedLayer>): seq<string>
  {
    LayerIds(CatalogLayers(cat))
  }

  /** What the catalog files are assumed to provide. */
  predicate WellFormed(srcs: seq<SourceEntry>, cat: seq<SpeedLayer>)
  {
    && Distinct(SourceIds(srcs))
    && PrimarySource in SourceIds(srcs)
    && Distinct(SpeedKeys(cat))
    && FallbackKey in SpeedKeys(cat)
    && Distinct(CatalogIds(cat))
    && forall k :: 0 <= k < |cat| ==> cat[k].layer.Unambiguous()
  }

  /** The backend state the component keeps: catalog sources are all there or
      none is, and no catalog layer is installed before they are. */
  predicate Provisioned(srcs: seq<SourceEntry>, cat: seq<SpeedLayer>, sources: map<string, SourceSpec>, installed: set<string>)
  {
    if PrimarySource in sources then
      forall k :: 0 <= k < |srcs| ==> srcs[k].id in sources
    else
      && (forall k :: 0 <= k < |srcs| ==> srcs[k].id !in sources)
      && installed !! Elems(CatalogIds(cat))
  }

  /** `layersTechSpeed[key]`. */
  function Lookup(cat: seq<SpeedLayer>, key: string): (r: Option<LayerEntry>)
    ensures r.Some? <==> key in SpeedKeys(cat)
    ensures r.Some? ==> r.value in CatalogLayers(cat)
  {
    if |cat| == 0 then None
    else if cat[0].key == key then Some(cat[0].layer)
    else
      CatalogTail(cat, key);
      Lookup(cat[1..], key)
  }

  /** Past a first entry with another key, the keys and layers of the rest. */
  lemma CatalogTail(cat: seq<SpeedLayer>, key: string)
    requires |cat| > 0 && cat[0].key != key
    ensures key in SpeedKeys(cat) <==> key in SpeedKeys(cat[1..])
    ensures forall l :: l in CatalogLayers(cat[1..]) ==> l in CatalogLayers(cat)
  {
    IdsCons(cat, SpeedKeyOf);
    assert CatalogLayers(cat) == [cat[0].layer] + CatalogLayers(cat[1..]);
  }

  /** The catalog layer for a property id, falling back to speed "25". */
  function ResolveLayer(cat: seq<SpeedLayer>, propertyId: string): (r: LayerEntry)
    requires FallbackKey in SpeedKeys(cat)
    ensures r in CatalogLayers(cat)
  {
    var key := SpeedKey(propertyId);
    if key.Some? && Lookup(cat, key.value).Some? then Lookup(cat, key.value).value
    else Lookup(cat, FallbackKey).value
  }

  /** A known speed key selects its own layer; any other property id
      resolves to the layer stored under "25". */
  lemma ResolveFallsBack(cat: seq<SpeedLayer>, propertyId: string)
    requires FallbackKey in SpeedKeys(cat)
    ensures SpeedKey(propertyId).Some? && SpeedKey(propertyId).value in SpeedKeys(cat) ==>
      SpeedLayer(SpeedKey(propertyId).value, ResolveLayer(cat, propertyId)) in cat
    ensures !(SpeedKey(propertyId).Some? && SpeedKey(propertyId).value in SpeedKeys(cat)) ==>
      SpeedLayer(FallbackKey, ResolveLayer(cat, propertyId)) in cat
  {
    var key := if SpeedKey(propertyId).Some? && SpeedKey(propertyId).value in SpeedKeys(cat)
      then SpeedKey(propertyId).value else FallbackKey;
    LookupFinds(cat, key);
  }

  lemma {:induction false} LookupFinds(cat: seq<SpeedLayer>, key: string)
    requires key in SpeedKeys(cat)
    ensures SpeedLayer(key, Lookup(cat, key).value) in cat
  {
    if cat[0].key != key {
      assert SpeedKeys(cat) == [cat[0].key] + SpeedKeys(cat[1..]);
      LookupFinds(cat[1..], key);
    }
  }

  /** The `fill-color` stops of the template. */
  function ColorStops(): seq<Json>
  {
    [ JArr([JNum(0.0), JStr("#ffffcc")]),
      JArr([JNum(1.0), JStr("#a1dab4")]),
      JArr([JNum(2.0), JStr("#41b6c4")]),
      JArr([JNum(3.0), JStr("#225ea8")]),
      JArr([JNum(4.0), JStr("#253494")]),
      JArr([JNum(6.0), JStr("#081d58")]),
      JArr([JNum(12.0), JStr("#000000")]) ]
  }

  /** The style template, with the property id and source layer filled in. */
  function LayerTemplate(propertyId: string, sourceLayer: string, opacity: real): Style
  {
    map[
      "layout" := JObj(map["visibility" := JStr("visible")]),
      "maxzoom" := JNum(0.0),
      "type" := JStr("fill"),
      "source" := JStr(""),
      "id" := JStr(""),
      "paint" := JObj(map[
        "fill-color" := JObj(map[
          "base" := JNum(1.0),
          "type" := JStr("exponential"),
          "property" := JStr(propertyId),
          "stops" := JArr(ColorStops()),
          "default" := JStr("#ffffcc")]),
        "fill-outline-color" := JStr("hsl(0, 1%, 46%)"),
        "fill-opacity" := JNum(opacity)]),
      "source-layer" := JStr(sourceLayer)]
  }

  /** `Object.assign({}, layerStyle, layer)`: the style handed to `addLayer`. */
  function InstalledStyle(propertyId: string, entry: LayerEntry, opacity: real): (r: Style)
    ensures LayerIdOf(r) == Some(entry.id)
  {
    Assign(LayerTemplate(propertyId, entry.id, opacity), entry.Fields())
  }

  /** The catalog object's own keys win; the template supplies the rest, so
      the layer is installed under its catalog id, reads the source layer of
      that id, is coloured by the property id and carries the opacity unless
      the catalog overrides those keys. */
  lemma InstalledStyleShape(propertyId: string, entry: LayerEntry, opacity: real)
    ensures LayerIdOf(InstalledStyle(propertyId, entry, opacity)) == Some(entry.id)
    ensures forall k :: k in entry.Fields() ==> InstalledStyle(propertyId, entry, opacity)[k] == entry.Fields()[k]
    ensures "source-layer" !in entry.overrides ==>
      InstalledStyle(propertyId, entry, opacity)["source-layer"] == JStr(entry.id)
    ensures "paint" !in entry.overrides ==>
      && PaintOf(InstalledStyle(propertyId, entry, opacity))["fill-opacity"] == JNum(opacity)
      && PaintOf(InstalledStyle(propertyId, entry, opacity))["fill-color"].fields["property"] == JStr(propertyId)
  {
    var fields := entry.Fields();
    var style := InstalledStyle(propertyId, entry, opacity);
    assert "source-layer" !in entry.overrides ==> "source-layer" !in fields;
    assert "paint" !in entry.overrides ==> "paint" !in fields;
  }

  /** The layers after `setPaintProperty(id, 'fill-opacity', value)` on every
      installed id of `ids`, in order. */
  function Repainted(layers: map<string, Style>, ids: seq<string>, value: Json): (r: map<string, Style>)
    ensures r.Keys == layers.Keys
    ensures forall k :: k in layers && k !in ids ==> r[k] == layers[k]
  {
    if |ids| == 0 then layers
    else
      var n := |ids| - 1;
      var prev := Repainted(layers, ids[..n], value);
      assert forall k :: k !in ids ==> k !in ids[..n];
      if ids[n] in prev then prev[ids[n] := WithPaint(prev[ids[n]], "fill-opacity", value)] else prev
  }

  /** Every installed id of a duplicate-free `ids` is painted exactly once. */
  lemma {:induction false} RepaintedPaintsInstalled(layers: map<string, Style>, ids: seq<string>, value: Json, id: string)
    requires Distinct(ids) && id in ids && id in layers
    ensures Repainted(layers, ids, value)[id] == WithPaint(layers[id], "fill-opacity", value)
  {
    var n := |ids| - 1;
    assert Distinct(ids[..n]);
    if ids[n] == id {
      assert id !in ids[..n];
    } else {
      assert id in ids[..n] by {
        var k :| 0 <= k < |ids| && ids[k] == id;
        assert k < n && ids[..n][k] == id;
      }
      RepaintedPaintsInstalled(layers, ids[..n], value, id);
    }
  }

  /** The `setPaintProperty` calls of an existence-guarded loop over `ids`:
      one per listed id that is installed, in order; never more calls than
      ids. */
  function PaintCalls(ids: seq<string>, layers: map<string, Style>, value: Json): (r: seq<Call>)
    ensures |r| <= |ids|
  {
    if |ids| == 0 then []
    else
      var n := |ids| - 1;
      PaintCalls(ids[..n], layers, value) +
        if ids[n] in layers then [SetPaintCall(ids[n], "fill-opacity", value)] else []
  }

  /** Each call sets `fill-opacity` to `value` on a listed id that is
      installed. */
  lemma {:induction false} PaintCallsShape(ids: seq<string>, layers: map<string, Style>, value: Json)
    ensures forall c :: c in PaintCalls(ids, layers, value) ==>
      c.SetPaintCall? && c == SetPaintCall(c.paintLayerId, "fill-opacity", value) && c.paintLayerId in ids && c.paintLayerId in layers
  {
    if |ids| > 0 {
      var n := |ids| - 1;
      PaintCallsShape(ids[..n], layers, value);
      assert forall x :: x in ids[..n] ==> x in ids;
    }
  }

  /** Every installed id of a duplicate-free `ids` gets exactly one
      `fill-opacity` call. */
  lemma {:induction false} PaintCallsCoverInstalled(ids: seq<string>, layers: map<string, Style>, id: string, value: Json)
    requires Distinct(ids) && id in ids && id in layers
    ensures multiset(PaintCalls(ids, layers, value))[SetPaintCall(id, "fill-opacity", value)] == 1
  {
    var n := |ids| - 1;
    assert Distinct(ids[..n]);
    if ids[n] == id {
      assert id !in ids[..n];
      PaintCallsShape(ids[..n], layers, value);
      assert SetPaintCall(id, "fill-opacity", value) !in PaintCalls(ids[..n], layers, value);
    } else {
      assert id in ids[..n] by {
        var k :| 0 <= k < |ids| && ids[k] == id;
        assert k < n && ids[..n][k] == id;
      }
      PaintCallsCoverInstalled(ids[..n], layers, id, value);
    }
  }

  /** When the only installed catalog layer is `id`, the opacity loop issues
      exactly one call, for `id`. */
  lemma {:induction false} PaintCallsSingle(ids: seq<string>, layers: map<string, Style>, id: string, value: Json)
    requires Distinct(ids) && id in ids && id in layers
    requires forall x :: x in ids && x in layers ==> x == id
    ensures PaintCalls(ids, layers, value) == [SetPaintCall(id, "fill-opacity", value)]
  {
    var n := |ids| - 1;
    assert Distinct(ids[..n]);
    assert forall x :: x in ids[..n] ==> x in ids;
    if ids[n] == id {
      assert forall x :: x in ids[..n] ==> x != id;
      PaintCallsNone(ids[..n], layers, value);
    } else {
      assert id in ids[..n] by {
        var k :| 0 <= k < |ids| && ids[k] == id;
        assert k < n && ids[..n][k] == id;
      }
      PaintCallsSingle(ids[..n], layers, id, value);
    }
  }

  /** With no catalog layer installed the opacity loop issues no call. */
  lemma {:induction false} PaintCallsNone(ids: seq<string>, layers: map<string, Style>, value: Json)
    requires forall x :: x in ids ==> x !in layers
    ensures PaintCalls(ids, layers, value) == []
  {
    if |ids| > 0 {
      var n := |ids| - 1;
      assert forall x :: x in ids[..n] ==> x in ids;
      PaintCallsNone(ids[..n], layers, value);
    }
  }

  /** With no catalog layer installed the opacity loop changes no layer and
      issues no call. */
  lemma RepaintNoneInstalled(layers: map<string, Style>, ids: seq<string>, value: Json)
    requires forall x :: x in ids ==> x !in layers
    ensures Repainted(layers, ids, value) == layers
    ensures PaintCalls(ids, layers, value) == []
  {
    PaintCallsNone(ids, layers, value);
    var r := Repainted(layers, ids, value);
    assert forall k :: k in layers ==> k !in ids;
    assert r.Keys == layers.Keys;
  }

  /** When the only installed id of `ids` is `id`, repainting changes that
      layer alone. */
  lemma {:induction false} RepaintSingle(layers: map<string, Style>, ids: seq<string>, id: string, value: Json)
    requires Distinct(ids) && id in ids && id in layers
    requires forall x :: x in ids && x in layers ==> x == id
    ensures Repainted(layers, ids, value) == layers[id := WithPaint(layers[id], "fill-opacity", value)]
  {
    var r := Repainted(layers, ids, value);
    RepaintedPaintsInstalled(layers, ids, value, id);
    assert forall k :: k in layers && k != id ==> k !in ids;
  }

  /** Removing ids none of which is installed leaves the layers as they are. */
  lemma MinusDisjoint(layers: map<string, Style>, ids: set<string>)
    requires layers.Keys !! ids
    ensures layers - ids == layers
  {
  }

  /** The backend's layers after `updateTechSpeed`: every catalog layer
      removed, then the resolved one installed and repainted. */
  function SyncedLayers(cat: seq<SpeedLayer>, layers: map<string, Style>, propertyId: string, opacity: real): (r: map<string, Style>)
    requires FallbackKey in SpeedKeys(cat)
    ensures ResolveLayer(cat, propertyId).id in r
    ensures forall k :: k in r && k != ResolveLayer(cat, propertyId).id ==>
      k in layers && k !in Elems(CatalogIds(cat)) && r[k] == layers[k]
  {
    var entry := ResolveLayer(cat, propertyId);
    (layers - Elems(CatalogIds(cat)))[entry.id := WithPaint(InstalledStyle(propertyId, entry, opacity), "fill-opacity", JNum(opacity))]
  }

  /** Exactly one catalog layer is installed afterwards, the resolved one,
      with the current opacity; every other layer is as it was. */
  lemma SyncLeavesResolvedLayer(cat: seq<SpeedLayer>, layers: map<string, Style>, propertyId: string, opacity: real)
    requires FallbackKey in SpeedKeys(cat)
    ensures Elems(CatalogIds(cat)) * SyncedLayers(cat, layers, propertyId, opacity).Keys == {ResolveLayer(cat, propertyId).id}
    ensures PaintOf(SyncedLayers(cat, layers, propertyId, opacity)[ResolveLayer(cat, propertyId).id])["fill-opacity"] == JNum(opacity)
    ensures forall k :: k !in Elems(CatalogIds(cat)) ==>
      && (k in SyncedLayers(cat, layers, propertyId, opacity) <==> k in layers)
      && (k in layers ==> SyncedLayers(cat, layers, propertyId, opacity)[k] == layers[k])
  {
    var entry := ResolveLayer(cat, propertyId);
    var k :| 0 <= k < |cat| && cat[k].layer == entry;
    assert CatalogIds(cat)[k] == entry.id;
  }

  /** Installing one layer of `ids` where none of them is left and then
      repainting every id of `ids` paints that one layer, with one call. */
  lemma InstallOneThenRepaint(layers: map<string, Style>, ids: seq<string>, id: string, style: Style, value: Json)
    requires Distinct(ids) && id in ids
    ensures var added := (layers - Elems(ids))[id := style];
      && Repainted(added, ids, value) == (layers - Elems(ids))[id := WithPaint(style, "fill-opacity", value)]
      && PaintCalls(ids, added, value) == [SetPaintCall(id, "fill-opacity", value)]
  {
    var added := (layers - Elems(ids))[id := style];
    assert forall x :: x in ids && x in added ==> x == id;
    PaintCallsSingle(ids, added, id, value);
    RepaintSingle(added, ids, id, value);
    assert added[id := WithPaint(style, "fill-opacity", value)]
        == (layers - Elems(ids))[id := WithPaint(style, "fill-opacity", value)];
  }

  /** The same for the layer `updateTechSpeed` resolves: the result is the
      synchronised layer set, reached with a single paint call. */
  lemma InstallThenRepaint(cat: seq<SpeedLayer>, layers: map<string, Style>, propertyId: string, opacity: real)
    requires FallbackKey in SpeedKeys(cat) && Distinct(CatalogIds(cat))
    ensures var entry := ResolveLayer(cat, propertyId);
      var added := (layers - Elems(CatalogIds(cat)))[entry.id := InstalledStyle(propertyId, entry, opacity)];
      && Repainted(added, CatalogIds(cat), JNum(opacity)) == SyncedLayers(cat, layers, propertyId, opacity)
      && PaintCalls(CatalogIds(cat), added, JNum(opacity)) == [SetPaintCall(entry.id, "fill-opacity", JNum(opacity))]
  {
    var entry := ResolveLayer(cat, propertyId);
    var k :| 0 <= k < |cat| && cat[k].layer == entry;
    assert CatalogIds(cat)[k] == entry.id;
    InstallOneThenRepaint(layers, CatalogIds(cat), entry.id, InstalledStyle(propertyId, entry, opacity), JNum(opacity));
  }

  /** A second `updateTechSpeed` with the same selection and opacity changes
      no layer. */
  lemma SyncIdempotent(cat: seq<SpeedLayer>, layers: map<string, Style>, propertyId: string, opacity: real)
    requires FallbackKey in SpeedKeys(cat)
    ensures SyncedLayers(cat, SyncedLayers(cat, layers, propertyId, opacity), propertyId, opacity)
         == SyncedLayers(cat, layers, propertyId, opacity)
  {
    var entry := ResolveLayer(cat, propertyId);
    var k :| 0 <= k < |cat| && cat[k].layer == entry;
    assert CatalogIds(cat)[k] == entry.id;
    var ids := Elems(CatalogIds(cat));
    var once := SyncedLayers(cat, layers, propertyId, opacity);
    assert once - ids == layers - ids;
  }

  /** When no paint key is overridden, the repaint after `addLayer` sets the
      opacity the template already carried: the installed style is the merge. */
  lemma RepaintKeepsInstalledStyle(propertyId: string, entry: LayerEntry, opacity: real)
    requires "paint" !in entry.overrides
    ensures WithPaint(InstalledStyle(propertyId, entry, opacity), "fill-opacity", JNum(opacity))
         == InstalledStyle(propertyId, entry, opacity)
  {
    InstalledStyleShape(propertyId, entry, opacity);
    var style := InstalledStyle(propertyId, entry, opacity);
    assert "paint" !in entry.Fields();
    WithPaintUnchanged(style, "fill-opacity", JNum(opacity));
  }

  /** Repainting one more id repaints that layer if it is installed. */
  lemma RepaintedSnoc(layers: map<string, Style>, ids: seq<string>, id: string, value: Json)
    ensures var prev := Repainted(layers, ids, value);
      Repainted(layers, ids + [id], value) ==
        if id in prev then prev[id := WithPaint(prev[id], "fill-opacity", value)] else prev
  {
    assert (ids + [id])[..|ids|] == ids;
  }

  /** One more id adds a paint call if that layer is installed. */
  lemma PaintCallsSnoc(ids: seq<string>, id: string, layers: map<string, Style>, value: Json)
    ensures PaintCalls(ids + [id], layers, value) ==
      PaintCalls(ids, layers, value) + if id in layers then [SetPaintCall(id, "fill-opacity", value)] else []
  {
    assert (ids + [id])[..|ids|] == ids;
  }

  /** `getLayer` then `setPaintProperty`: an installed layer is repainted
      and the call logged; an absent one is left alone. */
  method RepaintIfPresent(backend: MapBackend, id: string, value: Json)
    modifies backend
    ensures backend.layers == if id in old(backend.layers)
      then old(backend.layers)[id := WithPaint(old(backend.layers)[id], "fill-opacity", value)]
      else old(backend.layers)
    ensures backend.sources == old(backend.sources)
    ensures backend.calls == old(backend.calls) + if id in old(backend.layers) then [SetPaintCall(id, "fill-opacity", value)] else []
  {
    if backend.GetLayer(id).Some? {
      backend.SetPaintProperty(id, "fill-opacity", value);
    }
  }

  /** The opacity loop: `setPaintProperty` on every installed id of `ids`. */
  method RepaintInstalled(backend: MapBackend, ids: seq<string>, value: Json)
    modifies backend
    ensures backend.layers == Repainted(old(backend.layers), ids, value)
    ensures backend.sources == old(backend.sources)
    ensures backend.calls == old(backend.calls) + PaintCalls(ids, old(backend.layers), value)
  {
    var i := 0;
    while i < |ids|
      invariant 0 <= i <= |ids|
      invariant backend.layers == Repainted(old(backend.layers), ids[..i], value)
      invariant backend.sources == old(backend.sources)
      invariant backend.calls == old(backend.calls) + PaintCalls(ids[..i], old(backend.layers), value)
    {
      RepaintedSnoc(old(backend.layers), ids[..i], ids[i], value);
      PaintCallsSnoc(ids[..i], ids[i], old(backend.layers), value);
      TakeSnoc(ids, i);
      CallsAppend(old(backend.calls), PaintCalls(ids[..i], old(backend.layers), value),
                  if ids[i] in old(backend.layers) then [SetPaintCall(ids[i], "fill-opacity", value)] else []);
      RepaintIfPresent(backend, ids[i], value);
      i := i + 1;
    }
    assert ids[..i] == ids;
  }

  /** A component that uses the mixin, bound to one map. */
  class TechSpeedLayers {
    const Map: MapBackend
    const sourcesTechSpeed: seq<SourceEntry>
    const layersTechSpeed: seq<SpeedLayer>
    const technologies: seq<Technology>

    var removeAllLayers: bool
    var togLegendTitle: bool
    var selectedTech: string
    var selectedSpeed: string
    var tech: string
    var speed: string
    var mapOpacity: real
    /** The URL updates and event-hub emits issued so far. */
    var events: seq<Event>

    ghost predicate Valid()
      reads Map
    {
      && WellFormed(sourcesTechSpeed, layersTechSpeed)
      && Provisioned(sourcesTechSpeed, layersTechSpeed, Map.sources, Map.layers.Keys)
    }

    function State(): LayerState
      reads this
    {
      LayerState(removeAllLayers, togLegendTitle, selectedTech, selectedSpeed, tech, speed, mapOpacity, events)
    }

    /** `data()` of the mixin, on a map whose catalog state is consistent. */
    constructor (backend: MapBackend, srcs: seq<SourceEntry>, cat: seq<SpeedLayer>, table: seq<Technology>)
      requires WellFormed(srcs, cat)
      requires Provisioned(srcs, cat, backend.sources, backend.layers.Keys)
      ensures Valid()
      ensures Map == backend && sourcesTechSpeed == srcs && layersTechSpeed == cat && technologies == table
      ensures State() == LayerState(false, true, "", "", "", "", 1.0, [])
    {
      Map := backend;
      sourcesTechSpeed, layersTechSpeed, technologies := srcs, cat, table;
      removeAllLayers, togLegendTitle := false, true;
      selectedTech, selectedSpeed, tech, speed := "", "", "", "";
      mapOpacity := 1.0;
      events := [];
    }

    /** `updateURLParams()`: records the selection being persisted. */
    method UpdateURLParams()
      modifies this
      ensures State() == old(State()).(events := old(events) + [UpdateUrlParams(selectedTech, selectedSpeed)])
    {
      events := events + [UpdateUrlParams(selectedTech, selectedSpeed)];
    }

    /** `openMapSettings()`: asks the settings dialog to open. */
    method OpenMapSettings()
      modifies this
      ensures State() == old(State()).(events := old(events) + [OpenMapSettingsEmit])
    {
      events := events + [OpenMapSettingsEmit];
    }

    /** `addSources()`: every catalog source, once, in catalog order. */
    method AddSources()
      requires Valid() && PrimarySource !in Map.sources
      modifies this, Map
      ensures Valid() && PrimarySource in Map.sources
      ensures State() == old(State()).(removeAllLayers := false)
      ensures Map.sources == WithSources(old(Map.sources), sourcesTechSpeed)
      ensures Map.layers == old(Map.layers)
      ensures Map.calls == old(Map.calls) + SourceCalls(sourcesTechSpeed)
    {
      removeAllLayers := false;
      ProvisionSources(Map, sourcesTechSpeed);
    }

    /** `addLayers(propertyID)`: installs the resolved catalog layer, then
        re-applies the current opacity. */
    method AddLayers(propertyId: string)
      requires Valid() && PrimarySource in Map.sources
      requires ResolveLayer(layersTechSpeed, propertyId).id !in Map.layers
      modifies this, Map
      ensures Valid()
      ensures State() == old(State())
      ensures Map.sources == old(Map.sources)
      ensures var entry := ResolveLayer(layersTechSpeed, propertyId);
        && Map.layers == Repainted(old(Map.layers)[entry.id := InstalledStyle(propertyId, entry, mapOpacity)],
                                   CatalogIds(layersTechSpeed), JNum(mapOpacity))
        && Map.calls == old(Map.calls) + [AddLayerCall(InstalledStyle(propertyId, entry, mapOpacity), entry.beforeLayer)]
             + PaintCalls(CatalogIds(layersTechSpeed), old(Map.layers)[entry.id := InstalledStyle(propertyId, entry, mapOpacity)], JNum(mapOpacity))
    {
      var layer := ResolveLayer(layersTechSpeed, propertyId);
      var lyrStyle := InstalledStyle(propertyId, layer, mapOpacity);
      Map.AddLayer(lyrStyle, layer.beforeLayer);
      var percent := mapOpacity * 100.0;
      assert percent / 100.0 == mapOpacity;
      ghost var added := Map.layers;
      UpdateOpacity(percent);
      assert Map.calls == old(Map.calls) + [AddLayerCall(lyrStyle, layer.beforeLayer)]
        + PaintCalls(CatalogIds(layersTechSpeed), added, JNum(mapOpacity));
    }

    /** `removeLayers(propertyID, removeAll)`: removes every installed
        catalog layer; with `removeAll` also clears the selection and the
        legend and persists that. */
    method RemoveLayers(propertyId: string, removeAll: bool)
      requires Valid()
      modifies this, Map
      ensures Valid()
      ensures State() == if removeAll
        then old(State()).(removeAllLayers := true, selectedTech := "", selectedSpeed := "", tech := "", speed := "",
                           events := old(events) + [UpdateUrlParams("", "")])
        else old(State()).(removeAllLayers := false)
      ensures Map.sources == old(Map.sources)
      ensures Map.layers == old(Map.layers) - Elems(CatalogIds(layersTechSpeed))
      ensures Map.calls == old(Map.calls) + PresentRemovals(CatalogIds(layersTechSpeed), old(Map.layers))
    {
      removeAllLayers := removeAll;
      RemoveInstalled(Map, CatalogIds(layersTechSpeed));
      if removeAll {
        selectedTech := "";
        selectedSpeed := "";
        tech := "";
        speed := "";
        UpdateURLParams();
      }
    }

    /** `updateTechSpeed(selectedTech, selectedSpeed)`. */
    method UpdateTechSpeed(newTech: string, newSpeed: string)
      requires Valid()
      modifies this, Map
      ensures Valid() && PrimarySource in Map.sources
      ensures State() == old(State()).(removeAllLayers := false, selectedTech := newTech, selectedSpeed := newSpeed,
                                       tech := TechLabel(technologies, newTech), speed := SpeedLabel(newSpeed),
                                       events := old(events) + [UpdateUrlParams(newTech, newSpeed)])
      ensures Map.sources == if PrimarySource in old(Map.sources) then old(Map.sources)
                             else WithSources(old(Map.sources), sourcesTechSpeed)
      ensures Map.layers == SyncedLayers(layersTechSpeed, old(Map.layers), newTech + "_" + newSpeed, mapOpacity)
      ensures var entry := ResolveLayer(layersTechSpeed, newTech + "_" + newSpeed);
        Map.calls == old(Map.calls)
          + (if PrimarySource in old(Map.sources) then PresentRemovals(CatalogIds(layersTechSpeed), old(Map.layers))
             else SourceCalls(sourcesTechSpeed))
          + [AddLayerCall(InstalledStyle(newTech + "_" + newSpeed, entry, mapOpacity), entry.beforeLayer)]
          + [SetPaintCall(entry.id, "fill-opacity", JNum(mapOpacity))]
    {
      var propertyId := PropertyId(newTech, newSpeed);
      selectedTech := newTech;
      selectedSpeed := newSpeed;
      UpdateURLParams();
      ghost var before := Map.layers;
      ProvisionOrClear(propertyId);
      AddLayers(propertyId);
      InstallThenRepaint(layersTechSpeed, before, propertyId, mapOpacity);
      UpdateLegend(newTech, newSpeed);
    }

    /** The middle of `updateTechSpeed`: provision the sources on a map
        that has none yet, otherwise remove the catalog layers; either way no
        catalog layer is left installed. */
    method ProvisionOrClear(propertyId: string)
      requires Valid()
      modifies this, Map
      ensures Valid() && PrimarySource in Map.sources
      ensures State() == old(State()).(removeAllLayers := false)
      ensures Map.sources == if PrimarySource in old(Map.sources) then old(Map.sources)
                             else WithSources(old(Map.sources), sourcesTechSpeed)
      ensures Map.layers == old(Map.layers) - Elems(CatalogIds(layersTechSpeed))
      ensures Map.calls == old(Map.calls)
          + (if PrimarySource in old(Map.sources) then PresentRemovals(CatalogIds(layersTechSpeed), old(Map.layers))
             else SourceCalls(sourcesTechSpeed))
    {
      if Map.GetSource(PrimarySource).None? {
        AddSources();
        MinusDisjoint(Map.layers, Elems(CatalogIds(layersTechSpeed)));
      } else {
        RemoveLayers(propertyId, false);
      }
    }

    /** The end of `updateTechSpeed`: the sidebar legend labels. */
    method UpdateLegend(newTech: string, newSpeed: string)
      modifies this
      ensures State() == old(State()).(tech := TechLabel(technologies, newTech), speed := SpeedLabel(newSpeed))
    {
      tech := TechLabel(technologies, newTech);
      speed := SpeedLabel(newSpeed);
    }

    /** `updateOpacity(opacity)`: stores `opacity / 100` and paints it on
        every installed catalog layer. */
    method UpdateOpacity(opacity: real)
      requires Valid()
      modifies this, Map
      ensures Valid()
      ensures State() == old(State()).(mapOpacity := opacity / 100.0)
      ensures Map.sources == old(Map.sources)
      ensures Map.layers == Repainted(old(Map.layers), CatalogIds(layersTechSpeed), JNum(mapOpacity))
      ensures Map.calls == old(Map.calls) + PaintCalls(CatalogIds(layersTechSpeed), old(Map.layers), JNum(mapOpacity))
    {
      mapOpacity := opacity / 100.0;
      RepaintInstalled(Map, CatalogIds(layersTechSpeed), JNum(mapOpacity));
    }
  }
}
