/** The map-rendering backend, seen only through the calls the overlay code
    makes on it: a set of named sources, a set of named styled layers, and a
    log of every mutating call in the order it was issued. Rendering itself is
    not modelled. */
module Backend {

  import opened Values

  /** The descriptor handed to `addSource(id, {url, type})`. */
  datatype SourceSpec = SourceSpec(url: string, kind: string)

  /** One mutating call issued to the backend. */
  datatype Call =
    | AddSourceCall(sourceId: string, spec: SourceSpec)
    | AddLayerCall(style: Style, before: Option<string>)
    | RemoveLayerCall(layerId: string)
    | SetPaintCall(paintLayerId: string, property: string, value: Json)

  /** The layer id a style object carries in its `id` key, if it is a string. */
  function LayerIdOf(style: Style): Option<string>
  {
    if "id" in style && style["id"].JStr? then Some(style["id"].str) else None
  }

  /** Appending calls to a log in two steps or in one gives the same log. */
  lemma CallsAppend(log: seq<Call>, first: seq<Call>, second: seq<Call>)
    ensures log + first + second == log + (first + second)
  {
  }

  /** The same for three pieces. */
  lemma CallsAppend3(log: seq<Call>, first: seq<Call>, second: seq<Call>, third: seq<Call>)
    ensures log + first + second + third == log + (first + second + third)
  {
  }

  class MapBackend {
    var sources: map<string, SourceSpec>
    var layers: map<string, Style>
    var calls: seq<Call>

    /** A map with nothing added yet. */
    constructor ()
      ensures sources == map[] && layers == map[] && calls == []
    {
      sources, layers, calls := map[], map[], [];
    }

    /** `getSource(id)`: the descriptor, or undefined. */
    function GetSource(id: string): (r: Option<SourceSpec>)
      reads this
      ensures r.Some? <==> id in sources
      ensures r.Some? ==> r.value == sources[id]
    {
      if id in sources then Some(sources[id]) else None
    }

    /** `getLayer(id)`: the style, or undefined. */
    function GetLayer(id: string): (r: Option<Style>)
      reads this
      ensures r.Some? <==> id in layers
      ensures r.Some? ==> r.value == layers[id]
    {
      if id in layers then Some(layers[id]) else None
    }

    /** `addSource(id, spec)`; the renderer throws when the id is taken. */
    method AddSource(id: string, spec: SourceSpec)
      requires id !in sources
      modifies this
      ensures sources == old(sources)[id := spec]
      ensures layers == old(layers)
      ensures calls == old(calls) + [AddSourceCall(id, spec)]
    {
      sources := sources[id := spec];
      calls := calls + [AddSourceCall(id, spec)];
    }

    /** `addLayer(style, before)`; the renderer refuses a style without an id
        or with an id that is already installed. */
    method AddLayer(style: Style, before: Option<string>)
      requires LayerIdOf(style).Some? && LayerIdOf(style).value !in layers
      modifies this
      ensures layers == old(layers)[LayerIdOf(style).value := style]
      ensures sources == old(sources)
      ensures calls == old(calls) + [AddLayerCall(style, before)]
    {
      layers := layers[LayerIdOf(style).value := style];
      calls := calls + [AddLayerCall(style, before)];
    }

    /** `removeLayer(id)`; the renderer reports an error for an unknown id. */
    method RemoveLayer(id: string)
      requires id in layers
      modifies this
      ensures layers == old(layers) - {id}
      ensures sources == old(sources)
      ensures calls == old(calls) + [RemoveLayerCall(id)]
    {
      layers := layers - {id};
      calls := calls + [RemoveLayerCall(id)];
    }

    /** `setPaintProperty(id, name, value)` on an installed layer. */
    method SetPaintProperty(id: string, name: string, value: Json)
      requires id in layers
      modifies this
      ensures layers == old(layers)[id := WithPaint(old(layers)[id], name, value)]
      ensures sources == old(sources)
      ensures calls == old(calls) + [SetPaintCall(id, name, value)]
    {
      layers := layers[id := WithPaint(layers[id], name, value)];
      calls := calls + [SetPaintCall(id, name, value)];
    }
  }
}
