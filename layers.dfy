/**
 * The layer registry: the eight overlay descriptors of the Eidfjord map and
 * the order in which they are handed to the binder.
 */
module Layers {
  import opened Wrappers
  import opened Seqs
  import opened Style

  /**
   * The layer kinds a descriptor may name (the engine's `type` field); `Custom` is a
   * custom layer, which never has a source.
   */
  datatype LayerType =
    | Background | Circle | Fill | FillExtrusion | Heatmap | Hillshade | Line | Raster | Sky | Symbol | Custom

  /** The sourced kinds other than `symbol`: those whose paint the binder passes through unchanged. */
  type PaintType = t: LayerType | t != Symbol && t != Custom witness Line

  /** What a descriptor's `source` holds: the URL reference a bundled GeoJSON asset import yields. */
  type SourceData = string

  /**
   * One overlay descriptor. Whether it has a `source` and whether it is a symbol
   * layer are told apart by the variant; `place` and `query` are the registry's
   * own additions to the engine's layer object.
   */
  datatype Layer =
    | SymbolLayer(id: string, place: string, source: SourceData,
                  layout: Option<Props>, paint: Option<Props>, query: string)
    | PaintLayer(id: string, place: string, paintType: PaintType, source: SourceData,
                 layout: Option<Props>, paint: Option<Props>, query: string)
    | SourcelessLayer(id: string, place: string, layerType: LayerType,
                      layout: Option<Props>, paint: Option<Props>, query: string)
  {
    /** The `"source" in layer` test; among descriptors with a source, only the symbol variant is a symbol layer. */
    predicate HasSource(): (b: bool)
      ensures b <==> SymbolLayer? || PaintLayer?
      ensures b && Type() == Symbol <==> SymbolLayer?
    {
      !SourcelessLayer?
    }

    function Type(): (t: LayerType)
      ensures t == Symbol <==> SymbolLayer? || (SourcelessLayer? && layerType == Symbol)
    {
      match this
      case SymbolLayer(_, _, _, _, _, _) => Symbol
      case PaintLayer(_, _, t, _, _, _, _) => t
      case SourcelessLayer(_, _, t, _, _, _) => t
    }
  }

  // ---------------------------------------------------------------------------
  // The bundled GeoJSON assets (each import yields the asset's URL).

  const EidfjordPeaks: SourceData := "./geojson-data/Eidfjord-peaks.geojson"
  const EidfjordHills: SourceData := "./geojson-data/Eidfjord-hills.geojson"
  const EidfjordPaths: SourceData := "./geojson-data/Eidfjord-paths.geojson"
  const EidfjordTracks: SourceData := "./geojson-data/Eidfjord-tracks.geojson"
  const EidfjordPiste: SourceData := "./geojson-data/Eidfjord-piste.geojson"
  const EidfjordFarms: SourceData := "./geojson-data/Eidfjord-farms.geojson"
  const EidfjordHamlets: SourceData := "./geojson-data/Eidfjord-hamlets.geojson"
  const EidfjordWater: SourceData := "./geojson-data/Eidfjord-water-with-names.geojson"

  const Eidfjord: string := "Eidfjord"

  // ---------------------------------------------------------------------------
  // The descriptors.

  const PathsLayer: Layer :=
    PaintLayer("path", Eidfjord, Line, EidfjordPaths, None,
               Some(map["line-dasharray" := Array([Int(6), Int(2)]),
                        "line-color" := Str("#ff5c5c"),
                        "line-width" := Decimal("1.5")]),
               "[highway=path]")

  const TracksLayer: Layer :=
    PaintLayer("track", Eidfjord, Line, EidfjordTracks, None,
               Some(map["line-color" := Str("#ff5c5c"),
                        "line-width" := Decimal("1.5")]),
               "[highway=track]")

  const PisteLayer: Layer :=
    PaintLayer("piste", Eidfjord, Line, EidfjordPiste, None,
               Some(map["line-color" := Str("#046c8b"),
                        "line-width" := Decimal("1.5")]),
               "[\"piste:type\"]")

  const WaterLayer: Layer :=
    SymbolLayer("water-with-name", Eidfjord, EidfjordWater,
                Some(map["text-size" := Int(16)]), None,
                "[natural=water][name]")

  const HillsLayer: Layer :=
    SymbolLayer("hill", Eidfjord, EidfjordHills,
                Some(map["icon-image" := Str("mountain"), "text-size" := Int(14)]), None,
                "[natural=hill]")

  const FarmsLayer: Layer :=
    SymbolLayer("farm", Eidfjord, EidfjordFarms,
                Some(map["icon-image" := Str("marker"), "text-size" := Int(18)]), None,
                "[place=farm]")

  const HamletsLayer: Layer :=
    SymbolLayer("hamlet", Eidfjord, EidfjordHamlets,
                Some(map["icon-image" := Str("marker"), "text-size" := Int(18)]), None,
                "[place=hamlet]")

  const PeaksLayer: Layer :=
    SymbolLayer("peak", Eidfjord, EidfjordPeaks,
                Some(map["icon-image" := Str("mountain"), "text-size" := Int(20)]), None,
                "[natural=peak]")

  /** The registry, in binding order: later entries paint on top. */
  const Registry: seq<Layer> :=
    [TracksLayer, PathsLayer, PisteLayer, HillsLayer, FarmsLayer, WaterLayer, HamletsLayer, PeaksLayer]

  // ---------------------------------------------------------------------------
  // What the registry promises.

  /** The descriptors' ids, in order. */
  function Ids(ls: seq<Layer>): seq<string>
  {
    seq(|ls|, i requires 0 <= i < |ls| => ls[i].id)
  }

  const RegistryIds: seq<string> :=
    ["track", "path", "piste", "hill", "farm", "water-with-name", "hamlet", "peak"]

  /** The entries come in the order Tracks, Paths, Piste, Hills, Farms, Water, Hamlets, Peaks. */
  lemma RegistryOrder()
    ensures Ids(Registry) == RegistryIds
  {
  }

  /** Every entry belongs to the place Eidfjord. */
  lemma RegistryPlace()
    ensures forall i :: 0 <= i < |Registry| ==> Registry[i].place == Eidfjord
  {
  }

  /** No two entries share an id. */
  lemma RegistryIdsUnique()
    ensures Distinct(Ids(Registry))
  {
    RegistryOrder();
    assert Distinct(RegistryIds);
  }

  /** Every entry has a source, so the binder skips none of them. */
  lemma RegistryAllSourced()
    ensures forall l :: l in Registry ==> l.HasSource()
  {
  }

  /** A line entry carries paint and no layout; a symbol entry carries a layout with a text size and no paint. */
  predicate StyledForType(l: Layer)
  {
    match l.Type()
    case Line => l.paint.Some? && l.layout.None?
    case Symbol => l.layout.Some? && "text-size" in l.layout.value && l.paint.None?
    case _ => true
  }

  /** Each entry's style fields match its type. */
  lemma RegistryStyledForType()
    ensures forall l :: l in Registry ==> StyledForType(l)
  {
  }

  /** The three line entries come first, the five symbol entries after them. */
  lemma RegistryTypes()
    ensures forall i :: 0 <= i < |Registry| ==> Registry[i].Type() == if i < 3 then Line else Symbol
  {
  }

  /** The icon an entry's layout names, if any. */
  function Icon(l: Layer): Option<Value>
  {
    if l.layout.Some? && "icon-image" in l.layout.value then Some(l.layout.value["icon-image"]) else None
  }

  /** Hills and peaks show a mountain icon, farms and hamlets a marker, water names and lines none. */
  lemma RegistryIcons()
    ensures Icon(HillsLayer) == Icon(PeaksLayer) == Some(Str("mountain"))
    ensures Icon(FarmsLayer) == Icon(HamletsLayer) == Some(Str("marker"))
    ensures Icon(WaterLayer) == Icon(PathsLayer) == Icon(TracksLayer) == Icon(PisteLayer) == None
  {
  }
}
