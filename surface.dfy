/**
 * The map surface the binder writes into: the part of the map engine's state
 * that `addSource` and `addLayer` change, namely the ordered registered sources
 * and the ordered registered layers.
 */
module Surface {
  import opened Wrappers
  import opened Seqs
  import opened Style
  import opened Layers

  /** The second argument of `addSource`: `{type: "geojson", data}`. */
  datatype SourceSpec = GeoJson(data: SourceData)

  datatype SourceEntry = SourceEntry(key: string, spec: SourceSpec)

  /** The object `addLayer` receives: `{id, type, source?, layout?, paint}`; a `background` layer has no source. */
  datatype LayerEntry = LayerEntry(id: string, kind: LayerType, source: Option<string>,
                                   layout: Option<Props>, paint: Option<Props>)

  /** The registered source keys, in registration order. */
  function SourceKeys(s: seq<SourceEntry>): seq<string>
  {
    seq(|s|, i requires 0 <= i < |s| => s[i].key)
  }

  /** The registered layer ids, in registration order. */
  function LayerIds(s: seq<LayerEntry>): seq<string>
  {
    seq(|s|, i requires 0 <= i < |s| => s[i].id)
  }

  lemma SourceKeysAppend(a: seq<SourceEntry>, b: seq<SourceEntry>)
    ensures SourceKeys(a + b) == SourceKeys(a) + SourceKeys(b)
  {
  }

  lemma LayerIdsAppend(a: seq<LayerEntry>, b: seq<LayerEntry>)
    ensures LayerIds(a + b) == LayerIds(a) + LayerIds(b)
  {
  }

  class MapSurface {
    var sources: seq<SourceEntry>
    var layers: seq<LayerEntry>

    /**
     * What the engine maintains: source keys are unique, layer ids are unique,
     * and every layer that names a source draws from a registered one.
     */
    ghost predicate Valid()
      reads this
    {
      && Distinct(SourceKeys(sources))
      && Distinct(LayerIds(layers))
      && forall i :: 0 <= i < |layers| && layers[i].source.Some? ==> layers[i].source.value in SourceKeys(sources)
    }

    constructor ()
      ensures Valid() && sources == [] && layers == []
    {
      sources := [];
      layers := [];
    }

    /** `map.addSource(key, spec)`; the engine rejects a key that is already registered. */
    method AddSource(key: string, spec: SourceSpec)
      requires Valid()
      requires key !in SourceKeys(sources)
      modifies this
      ensures Valid()
      ensures sources == old(sources) + [SourceEntry(key, spec)]
      ensures SourceKeys(sources) == SourceKeys(old(sources)) + [key]
      ensures layers == old(layers)
    {
      SourceKeysAppend(sources, [SourceEntry(key, spec)]);
      DistinctAppend(SourceKeys(sources), [key]);
      sources := sources + [SourceEntry(key, spec)];
    }

    /** `map.addLayer(entry)`; the engine rejects a taken id and a source it does not know. */
    method AddLayer(entry: LayerEntry)
      requires Valid()
      requires entry.id !in LayerIds(layers)
      requires entry.source.Some? ==> entry.source.value in SourceKeys(sources)
      modifies this
      ensures Valid()
      ensures layers == old(layers) + [entry]
      ensures LayerIds(layers) == LayerIds(old(layers)) + [entry.id]
      ensures sources == old(sources)
    {
      LayerIdsAppend(layers, [entry]);
      DistinctAppend(LayerIds(layers), [entry.id]);
      layers := layers + [entry];
    }
  }
}
