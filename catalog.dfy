/** The layer catalog: the source descriptors and layer definitions that the
    overlay code installs, and the two loops both overlay variants share,
    which provision every catalog source and remove every installed catalog
    layer. */
module Catalog {

  import opened Values
  import opened Backend

  /** An entry of `sourcesTechSpeed`. */
  datatype SourceEntry = SourceEntry(id: string, url: string, kind: string)
  {
    function Spec(): SourceSpec { SourceSpec(url, kind) }
  }

  /** A catalog layer: its id, the layer it is inserted before (if any) and
      every other key of the catalog object. */
  datatype LayerEntry = LayerEntry(id: string, beforeLayer: Option<string>, overrides: Style)
  {
    /** The other keys repeat neither `id` nor `beforeLayer`, so the
        catalog object has one reading. */
    predicate Unambiguous()
    {
      "id" !in overrides && "beforeLayer" !in overrides
    }

    /** The catalog object itself, as `Object.assign` sees it. */
    function Fields(): (r: Style)
      ensures "id" in r && r["id"] == JStr(id)
      ensures "beforeLayer" in r <==> beforeLayer.Some? || "beforeLayer" in overrides
      ensures Unambiguous() ==> r.Keys == overrides.Keys + {"id"} + (if beforeLayer.Some? then {"beforeLayer"} else {})
      ensures forall k :: k in overrides && k != "id" && k != "beforeLayer" ==> k in r && r[k] == overrides[k]
    {
      var withId := overrides["id" := JStr(id)];
      match beforeLayer
      case Some(b) => withId["beforeLayer" := JStr(b)]
      case None => withId
    }
  }

  function Elems(ids: seq<string>): set<string>
  {
    set x | x in ids
  }

  predicate Distinct(ids: seq<string>)
  {
    forall i, j :: 0 <= i < j < |ids| ==> ids[i] != ids[j]
  }

  /** The key `f` reads from each catalog object, in catalog order. */
  function Ids<T>(s: seq<T>, f: T -> string): (r: seq<string>)
    ensures |r| == |s| && forall k :: 0 <= k < |s| ==> r[k] == f(s[k])
  {
    seq(|s|, k requires 0 <= k < |s| => f(s[k]))
  }

  /** The keys of a non-empty list are its head's key, then the rest's. */
  lemma IdsCons<T>(s: seq<T>, f: T -> string)
    requires |s| > 0
    ensures Ids(s, f) == [f(s[0])] + Ids(s[1..], f)
  {
  }

  function SourceId(e: SourceEntry): string { e.id }

  function LayerId(e: LayerEntry): string { e.id }

  function SourceIds(srcs: seq<SourceEntry>): seq<string>
  {
    Ids(srcs, SourceId)
  }

  function LayerIds(layers: seq<LayerEntry>): seq<string>
  {
    Ids(layers, LayerId)
  }

  /** The backend's sources after `addSource` for every entry, in order. */
  function WithSources(m: map<string, SourceSpec>, srcs: seq<SourceEntry>): (r: map<string, SourceSpec>)
    ensures r.Keys == m.Keys + Elems(SourceIds(srcs))
    ensures forall k :: 0 <= k < |srcs| && Distinct(SourceIds(srcs)) ==> r[srcs[k].id] == srcs[k].Spec()
    ensures forall x :: x in m && x !in SourceIds(srcs) ==> r[x] == m[x]
  {
    if |srcs| == 0 then m
    else
      var n := |srcs| - 1;
      var r := WithSources(m, srcs[..n])[srcs[n].id := srcs[n].Spec()];
      assert SourceIds(srcs) == SourceIds(srcs[..n]) + [srcs[n].id];
      assert forall k :: 0 <= k < n ==> srcs[..n][k] == srcs[k];
      r
  }

  /** The `addSource` calls for every entry, in catalog order. */
  function SourceCalls(srcs: seq<SourceEntry>): (r: seq<Call>)
    ensures |r| == |srcs|
    ensures forall k :: 0 <= k < |srcs| ==> r[k] == AddSourceCall(srcs[k].id, srcs[k].Spec())
  {
    if |srcs| == 0 then [] else SourceCalls(srcs[..|srcs| - 1]) + [AddSourceCall(srcs[|srcs| - 1].id, srcs[|srcs| - 1].Spec())]
  }

  /** The `removeLayer` calls of an existence-guarded loop over `ids`: one
      per id that is installed, in order. */
  function PresentRemovals(ids: seq<string>, layers: map<string, Style>): (r: seq<Call>)
    ensures forall c :: c in r ==> c.RemoveLayerCall? && c.layerId in ids && c.layerId in layers
  {
    if |ids| == 0 then []
    else
      var n := |ids| - 1;
      PresentRemovals(ids[..n], layers) + if ids[n] in layers then [RemoveLayerCall(ids[n])] else []
  }

  /** Every catalog id that is installed gets exactly one removal call. */
  lemma {:induction false} PresentRemovalsCoverInstalled(ids: seq<string>, layers: map<string, Style>, id: string)
    requires Distinct(ids)
    requires id in ids && id in layers
    ensures multiset(PresentRemovals(ids, layers))[RemoveLayerCall(id)] == 1
  {
    var n := |ids| - 1;
    assert Distinct(ids[..n]);
    if ids[n] == id {
      assert id !in ids[..n];
    } else {
      assert id in ids[..n] by {
        var k :| 0 <= k < |ids| && ids[k] == id;
        assert k < n && ids[..n][k] == id;
      }
      PresentRemovalsCoverInstalled(ids[..n], layers, id);
    }
  }

  /** An element of a duplicate-free list is not among the ones before it. */
  lemma FreshId(ids: seq<string>, i: nat)
    requires Distinct(ids) && i < |ids|
    ensures ids[i] !in Elems(ids[..i])
  {
    forall k | 0 <= k < i ensures ids[..i][k] != ids[i] {
      assert ids[..i][k] == ids[k];
    }
  }

  /** An id of a duplicate-free catalog is not among the ids before it. */
  lemma FreshSourceId(srcs: seq<SourceEntry>, i: nat)
    requires Distinct(SourceIds(srcs)) && i < |srcs|
    ensures srcs[i].id !in Elems(SourceIds(srcs[..i]))
  {
    assert SourceIds(srcs[..i]) == SourceIds(srcs)[..i];
    FreshId(SourceIds(srcs), i);
  }

  /** A layer id of a duplicate-free list is not among the ids before it. */
  lemma FreshLayerId(layers: seq<LayerEntry>, i: nat)
    requires Distinct(LayerIds(layers)) && i < |layers|
    ensures layers[i].id !in Elems(LayerIds(layers[..i]))
  {
    assert LayerIds(layers[..i]) == LayerIds(layers)[..i];
    FreshId(LayerIds(layers), i);
  }

  /** One more catalog source adds one descriptor and one call. */
  lemma ProvisionStep(m: map<string, SourceSpec>, done: seq<SourceEntry>, next: SourceEntry)
    ensures WithSources(m, done + [next]) == WithSources(m, done)[next.id := next.Spec()]
    ensures SourceCalls(done + [next]) == SourceCalls(done) + [AddSourceCall(next.id, next.Spec())]
  {
    assert (done + [next])[..|done|] == done;
  }

  /** The layers left after removing each installed id of `ids` in turn:
      every layer of `ids` is gone and every other layer stays. */
  function Removed(layers: map<string, Style>, ids: seq<string>): (r: map<string, Style>)
    ensures r == layers - Elems(ids)
  {
    if |ids| == 0 then layers
    else
      var n := |ids| - 1;
      var prev := Removed(layers, ids[..n]);
      assert ids == ids[..n] + [ids[n]];
      assert Elems(ids) == Elems(ids[..n]) + {ids[n]};
      if ids[n] in prev then prev - {ids[n]} else prev
  }

  /** One more id removes that layer and adds a call if it is installed. */
  lemma RemovalStep(layers: map<string, Style>, done: seq<string>, id: string)
    ensures Removed(layers, done + [id]) == Removed(layers, done) - {id}
    ensures PresentRemovals(done + [id], layers) ==
      PresentRemovals(done, layers) + if id in layers then [RemoveLayerCall(id)] else []
  {
    assert (done + [id])[..|done|] == done;
    var prev := Removed(layers, done);
    if id !in prev {
      assert prev - {id} == prev;
    }
  }

  /** `sources.forEach(s => addSource(s.id, {url, type}))`. */
  method ProvisionSources(backend: MapBackend, srcs: seq<SourceEntry>)
    requires Distinct(SourceIds(srcs))
    requires forall k :: 0 <= k < |srcs| ==> srcs[k].id !in backend.sources
    modifies backend
    ensures backend.sources == WithSources(old(backend.sources), srcs)
    ensures backend.layers == old(backend.layers)
    ensures backend.calls == old(backend.calls) + SourceCalls(srcs)
  {
    var i := 0;
    while i < |srcs|
      invariant 0 <= i <= |srcs|
      invariant backend.sources == WithSources(old(backend.sources), srcs[..i])
      invariant backend.layers == old(backend.layers)
      invariant backend.calls == old(backend.calls) + SourceCalls(srcs[..i])
    {
      FreshSourceId(srcs, i);
      TakeSnoc(srcs, i);
      ProvisionStep(old(backend.sources), srcs[..i], srcs[i]);
      CallsAppend(old(backend.calls), SourceCalls(srcs[..i]), [AddSourceCall(srcs[i].id, srcs[i].Spec())]);
      backend.AddSource(srcs[i].id, srcs[i].Spec());
      i := i + 1;
    }
    assert srcs[..i] == srcs;
  }

  /** `if (map.getLayer(id)) map.removeLayer(id)`. */
  method RemoveIfPresent(backend: MapBackend, id: string)
    modifies backend
    ensures backend.layers == old(backend.layers) - {id}
    ensures backend.sources == old(backend.sources)
    ensures backend.calls == old(backend.calls) + if id in old(backend.layers) then [RemoveLayerCall(id)] else []
  {
    if backend.GetLayer(id).Some? {
      backend.RemoveLayer(id);
    } else {
      assert backend.layers - {id} == backend.layers;
    }
  }

  /** A loop over `ids` that removes each layer `getLayer` reports. */
  method RemoveInstalled(backend: MapBackend, ids: seq<string>)
    requires Distinct(ids)
    modifies backend
    ensures backend.layers == old(backend.layers) - Elems(ids)
    ensures backend.sources == old(backend.sources)
    ensures backend.calls == old(backend.calls) + PresentRemovals(ids, old(backend.layers))
  {
    var i := 0;
    while i < |ids|
      invariant 0 <= i <= |ids|
      invariant backend.layers == Removed(old(backend.layers), ids[..i])
      invariant backend.sources == old(backend.sources)
      invariant backend.calls == old(backend.calls) + PresentRemovals(ids[..i], old(backend.layers))
    {
      TakeSnoc(ids, i);
      FreshId(ids, i);
      RemovalStep(old(backend.layers), ids[..i], ids[i]);
      CallsAppend(old(backend.calls), PresentRemovals(ids[..i], old(backend.layers)),
                  if ids[i] in old(backend.layers) then [RemoveLayerCall(ids[i])] else []);
      RemoveIfPresent(backend, ids[i]);
      i := i + 1;
    }
    assert ids[..i] == ids;
  }
}
