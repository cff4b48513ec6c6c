# Eidfjord trail map: layer registry and layer binder

This project models the part of the trail map generator that has a contract: the
registry of the eight overlay layers of the Eidfjord map and the binder that
turns them into calls against the map engine.

- `addLayerToMap(map, layer, layerId?, geoJson?)` skips a descriptor without a
  `source`. Otherwise it registers one GeoJSON source under the key
  `layerId ?? layer.id`, using the data `geoJson ?? layer.source`, and then one
  layer with the same key as its id and its source. A `symbol` layer gets the
  descriptor's layout with five fixed label properties laid over it, plus a fixed
  paint. Any other layer type keeps its type and its paint, and gets no layout.
- `addLayersToMap(map, layersArr)` binds the descriptors in array order, each
  under the key `"{place}-{id}"`.
- The label rule on symbol layers shows `name\n{ele} m` when a feature has an
  elevation and `name` when it has none. Its sort key is `5000 - ele`, or `5000`
  without an elevation.
- The registry holds Tracks, Paths, Piste, Hills, Farms, Water, Hamlets and
  Peaks, all in the place `Eidfjord`.

Modules, one file each:

- `Wrappers` (`wrappers.dfy`): `Option`, for the optional parameters and `??`.
- `Seqs` (`seqs.dfy`): distinctness and disjointness of key sequences.
- `Style` (`style.dfy`): JSON-like style values. The engine's expressions are
  `Array`s of values, exactly as they are written in the source.
- `Expressions` (`expressions.dfy`): an evaluator for the expression forms the
  label rule uses (`get`, `has`, `case`, `concat`, `to-string`, `to-number` and
  `-`), applied to one feature. With it, the stored `text-field` and
  `symbol-sort-key` expressions are proved to mean `LabelText` and `SortKey`.
- `LabelRule` (`label_rule.dfy`): the label text and the sort key as functions of
  a feature `(name, ele)`. It also has `String(ele)` for integers, with its
  inverse, and `ParseLabel`, which reads a label back into the feature it came
  from.
- `Layers` (`layers.ts` → `layers.dfy`): the descriptor datatype, with separate
  variants for symbol, other sourced and source-less descriptors, then the eight
  constants, the ordered `Registry` and the facts about it.
- `Surface` (`surface.dfy`): the map surface as a class. It holds the ordered
  registered sources and the ordered registered layers, and its `AddSource` and
  `AddLayer` append to them.
- `MapFunctions` (`mapFunctions.ts` → `map_functions.dfy`): the fixed symbol
  style, `AddLayerToMap` and `AddLayersToMap` as methods on the surface, the
  functions that say what they register, the lemmas about ordering, skipping and
  keys, and the binding of the registry.

The engine rejects a source key that is already taken. That is modelled as a
precondition of `AddSource`. It likewise rejects a layer id that is taken, or a
layer whose source is unknown; both are preconditions of `AddLayer`. The engine's
code is not part of this model. For bulk binding, the precondition is that the
composite keys are distinct and not yet in use. The registry meets it
(`RegistryKeysDistinct`). `BindRegistry` shows this on any ready map whose base
style uses none of the eight `Eidfjord-…` keys.

Within one place, distinct ids give distinct composite keys
(`CompositeKeysDistinct`). Keys from different places can collide only when one
place followed by `-` begins the other (`CompositeKeyCollision`). For example,
place `a-b` with id `c` and place `a` with id `b-c` both give `a-b-c`
(`CompositeKeyAcrossPlaces`). So ids that are unique within each place give
globally unique keys when every descriptor has the same place, or when no place
contains `-` (`DashFreePlacesInjective`). The registry meets both conditions.

## Model

| member | source | states |
|---|---|---|
| `MapFunctions.AddLayerToMap` | src/helpers/mapFunctions.ts:11-65 | Uses `layerId ?? layer.id` as the key. A descriptor without a source leaves both sequences unchanged. Any other descriptor appends exactly one source, with data `geoJson ?? layer.source`, and exactly one layer, `BoundLayer(layer, key)`. Keeps the surface invariant. |
| `MapFunctions.AddLayersToMap` | src/helpers/mapFunctions.ts:2-9 | Given distinct, unused composite keys, the new sources are the old ones followed by `BulkSources(layersArr)`, and likewise for layers (`BulkLayers`). Both come in array order, and each descriptor is keyed `place-id` with no geoJson override. |
| `MapFunctions.BoundLayer` | src/helpers/mapFunctions.ts:23-62 | The registered layer's id and source are both the key, and its type is the descriptor's. A symbol layer gets the merged layout and exactly the fixed paint. Any other type gets no layout and the descriptor's paint unchanged. |
| `MapFunctions.SourcesFor` | src/helpers/mapFunctions.ts:17-21 | One call adds at most one source: one if the descriptor has a source, none otherwise. The source is `{type: geojson, data: geoJson ?? layer.source}` under the key. |
| `MapFunctions.LayersFor` | src/helpers/mapFunctions.ts:17-62 | One call adds one layer exactly when the descriptor has a source, and no layer otherwise. |
| `MapFunctions.SymbolLayout` | src/helpers/mapFunctions.ts:28-49 | The merged layout's keys are the descriptor's keys plus the five fixed keys. The fixed keys carry the fixed values. Every other descriptor key keeps its value. |
| `MapFunctions.FixedLayoutValues` | src/helpers/mapFunctions.ts:28-49 | The fixed layout has exactly five properties. Its `text-field` evaluates to `LabelText` and its `symbol-sort-key` to `SortKey` for every feature. Its font is `Spectral Medium Italic`, its anchor is `bottom` and its offset is `[0, -0.3]`. |
| `MapFunctions.SymbolPaintValues` | src/helpers/mapFunctions.ts:50-54 | The symbol paint has exactly three properties: text colour `#333`, halo colour `#f2f2f2` and halo width 3. |
| `MapFunctions.TextFieldMeaning` | src/helpers/mapFunctions.ts:30-38 | The stored `text-field` expression evaluates to `LabelText(f)` for every feature `f`. |
| `MapFunctions.SortKeyMeaning` | src/helpers/mapFunctions.ts:41-46 | The stored `symbol-sort-key` expression evaluates to `SortKey(f)` for every feature `f`. |
| `MapFunctions.FixedLayoutWins` | src/helpers/mapFunctions.ts:28-49 | No descriptor layout can change any of the five fixed label properties. |
| `MapFunctions.CompositeKey` | src/helpers/mapFunctions.ts:7 | The bulk key is the place, then one `-`, then the id, and has exactly that length. |
| `MapFunctions.CompositeKeysDistinct` | src/helpers/mapFunctions.ts:7 | Within one place, two composite keys are equal exactly when the ids are equal. |
| `MapFunctions.CompositeKeyAcrossPlaces` | src/helpers/mapFunctions.ts:7 | Two different (place, id) pairs can give the same composite key. |
| `MapFunctions.CompositeKeyCollision` | src/helpers/mapFunctions.ts:7 | If two descriptors share a key and their places have the same length, then they agree on place and id. Otherwise the shorter place followed by `-` is a prefix of the longer place. |
| `MapFunctions.DashFreePlacesInjective` | src/helpers/mapFunctions.ts:7 | When neither place contains `-`, equal keys mean equal places and equal ids. |
| `MapFunctions.BulkKeyIsNotId` | src/helpers/mapFunctions.ts:7 | The bulk key `place-id` always differs from the bare `id` that a direct call falls back to. |
| `MapFunctions.RebindTakesKey` | src/helpers/mapFunctions.ts:18-21 | After a descriptor is bound, its key is registered, so binding it again under the same key is rejected. |
| `MapFunctions.BulkKeys` | src/helpers/mapFunctions.ts:6-8 | The keys a bulk bind uses number at most one per descriptor. Each is the composite key of a descriptor in the array that has a source. |
| `MapFunctions.BulkSources` | src/helpers/mapFunctions.ts:6-8 | A bulk bind adds at most one source per descriptor. Each added source is some sourced descriptor's own data under that descriptor's composite key. |
| `MapFunctions.BulkLayers` | src/helpers/mapFunctions.ts:6-8 | A bulk bind adds at most one layer per descriptor. Each added layer is some sourced descriptor's bound layer under that descriptor's composite key. |
| `MapFunctions.BulkSourcesAppend` | src/helpers/mapFunctions.ts:6-8 | Binding `a + b` registers the sources of `a` and then those of `b`, so `[A, B, C]` registers A, then B, then C. |
| `MapFunctions.BulkLayersAppend` | src/helpers/mapFunctions.ts:6-8 | The same order holds for layers: those of `a`, then those of `b`. |
| `MapFunctions.BulkKeysAppend` | src/helpers/mapFunctions.ts:6-8 | The keys of `a + b` are the keys of `a` followed by the keys of `b`. |
| `MapFunctions.BulkSourceKeys` | src/helpers/mapFunctions.ts:7 | Bulk binding registers its sources under exactly the composite keys of the sourced descriptors, in order. |
| `MapFunctions.BulkLayerIds` | src/helpers/mapFunctions.ts:24-27 | Every layer that bulk binding registers has a composite key as its id, in order, and draws from the source under its own id. |
| `MapFunctions.BulkSkipsSourceless` | src/helpers/mapFunctions.ts:17 | Binding a sequence gives the same result as binding only its descriptors that have a source. The number of sources and of layers added both equal the number of those descriptors. |
| `MapFunctions.BulkSourcesAllSourced` | src/helpers/mapFunctions.ts:6-8 | If every descriptor has a source, the i-th source added is the i-th descriptor's own data under its composite key. |
| `MapFunctions.BulkLayersAllSourced` | src/helpers/mapFunctions.ts:6-8 | If every descriptor has a source, the i-th layer added is the i-th descriptor's bound layer. |
| `MapFunctions.BulkKeysAllSourced` | src/helpers/mapFunctions.ts:7 | If every descriptor has a source, the i-th bulk key is the i-th descriptor's `place-id`. |
| `MapFunctions.BulkKeyFresh` | src/helpers/mapFunctions.ts:6-8 | If the bulk keys are distinct, no descriptor's key was used by an earlier one. |
| `MapFunctions.KeyFreeAt` | src/helpers/mapFunctions.ts:6-8 | Given fresh bulk keys, the i-th key is still free on the surface once the descriptors before it are bound. |
| `MapFunctions.RegistryBindsEveryEntry` | src/layers.ts:111-120 | Bulk binding of the registry skips nothing. The i-th source and layer belong to the i-th entry. |
| `MapFunctions.RegistryKeysInOrder` | src/layers.ts:111-120 | The registry binds under the keys `Eidfjord-track`, `Eidfjord-path`, `Eidfjord-piste`, `Eidfjord-hill`, `Eidfjord-farm`, `Eidfjord-water-with-name`, `Eidfjord-hamlet` and `Eidfjord-peak`, in that order. |
| `MapFunctions.RegistryKeysDistinct` | src/layers.ts:22-109 | The registry's composite keys are pairwise distinct. |
| `MapFunctions.PeakBinding` | src/layers.ts:99-120 | The eighth registered source is the peaks asset under `Eidfjord-peak`, and the eighth layer is the peak descriptor bound under that key. |
| `MapFunctions.SymbolBound` | src/helpers/mapFunctions.ts:24-54 | A symbol descriptor whose own layout shares no name with the fixed layout keeps all of its own layout, gains exactly the five fixed properties, and gets the fixed paint. |
| `MapFunctions.PathsBound` | src/layers.ts:22-33 | Under any key, the paths descriptor is registered as a line with no layout. Its paint is exactly dash `[6, 2]`, colour `#ff5c5c` and width `1.5`. |
| `MapFunctions.TracksBound` | src/layers.ts:34-44 | Under any key, the tracks descriptor is registered as a line with no layout. Its paint is exactly colour `#ff5c5c` and width `1.5`. |
| `MapFunctions.PisteBound` | src/layers.ts:45-55 | Under any key, the piste descriptor is registered as a line with no layout. Its paint is exactly colour `#046c8b` and width `1.5`. |
| `MapFunctions.WaterBound` | src/layers.ts:56-65 | Under any key, the water descriptor is registered as a symbol layer. Its layout is the fixed label rule plus `text-size` 16, and its paint is the fixed paint. |
| `MapFunctions.HillsBound` | src/layers.ts:66-76 | Under any key, the hills descriptor is registered as a symbol layer. Its layout is the fixed label rule plus icon `mountain` and `text-size` 14. |
| `MapFunctions.FarmsBound` | src/layers.ts:77-87 | Under any key, the farms descriptor is registered as a symbol layer. Its layout is the fixed label rule plus icon `marker` and `text-size` 18. |
| `MapFunctions.HamletsBound` | src/layers.ts:88-98 | Under any key, the hamlets descriptor is registered as a symbol layer. Its layout is the fixed label rule plus icon `marker` and `text-size` 18. |
| `MapFunctions.PeaksBound` | src/layers.ts:99-109 | Under any key, the peaks descriptor is registered as a symbol layer. Its layout is the fixed label rule plus icon `mountain` and `text-size` 20. |
| `MapFunctions.BindRegistry` | src/layers.ts:111-122 | Binding the registry satisfies the engine's preconditions on any map whose existing sources and layers use none of the eight registry keys. The new sources and layers follow the existing ones, and the keys and ids added are the eight registry keys, in order. |
| `Surface.MapSurface.AddSource` | src/helpers/mapFunctions.ts:18-21 | Requires a fresh key. Appends exactly one source, so the key list grows by that key, and leaves the layers unchanged. |
| `Surface.MapSurface.AddLayer` | src/helpers/mapFunctions.ts:24-27 | Requires a fresh id and, when the layer names a source, a registered one. Appends exactly one layer, so the id list grows by that id, and leaves the sources unchanged. |
| `LabelRule.LabelText` | src/helpers/mapFunctions.ts:30-38 | The label always starts with the name, and it is longer than the name exactly when the feature has an elevation. |
| `LabelRule.SortKey` | src/helpers/mapFunctions.ts:41-46 | Without an elevation the key is 5000. With an elevation, the key is 5000 minus it, so the elevation can be read back from the key. The key is below 5000 exactly when the feature has an elevation above 0. |
| `LabelRule.LabelRoundTrip` | src/helpers/mapFunctions.ts:30-38 | `ParseLabel(LabelText(f)) == f` for every name without a line break, so the label determines both the name and the elevation. |
| `LabelRule.IntToString` | src/helpers/mapFunctions.ts:35 | `String(ele)` for an integer: non-empty, starting with a digit exactly when the integer is non-negative, and free of line breaks. |
| `LabelRule.IntToStringRoundTrip` | src/helpers/mapFunctions.ts:35 | Parsing the decimal text of an integer gives back that integer. |
| `LabelRule.NatToString` | src/helpers/mapFunctions.ts:35 | The decimal text of a natural number is non-empty, all digits, and has no leading zero. |
| `LabelRule.ParseNatToString` | src/helpers/mapFunctions.ts:35 | Parsing the digits of `n` gives `n`. |
| `LabelRule.HigherFeatureSortsFirst` | src/helpers/mapFunctions.ts:41-46 | For two features that both have an elevation, the first has the smaller sort key exactly when it is higher. |
| `LabelRule.ElevationOutranksNone` | src/helpers/mapFunctions.ts:41-46 | A feature above sea level gets a smaller sort key than one without an elevation, and features without one tie at 5000. |
| `LabelRule.HarteigenLabel` | src/helpers/mapFunctions.ts:30-46 | Hårteigen at 1690 m is labelled `Hårteigen\n1690 m` and gets sort key 3310. |
| `Layers.Layer.HasSource` | src/helpers/mapFunctions.ts:17 | The `"source" in layer` test holds exactly for the symbol and other sourced variants. Among those, the symbol branch is taken exactly for the symbol variant. |
| `Wrappers.Option.GetOr` | src/helpers/mapFunctions.ts:18-20 | `x ?? d`: the value when one is given, otherwise the default. It models every `??` of the binder, for the key (lines 18, 25, 27, 58, 60) and the source data (line 20). |
| `Layers.Layer.Type` | src/layers.ts:124 | A descriptor is a symbol layer with a source, another type with a source, or a descriptor without one, such as a custom layer. Its type is `symbol` exactly for the first shape, or for a source-less symbol descriptor. |
| `Layers.RegistryOrder` | src/layers.ts:111-120 | The registry ids are, in order, track, path, piste, hill, farm, water-with-name, hamlet and peak. |
| `Layers.RegistryPlace` | src/layers.ts:22-109 | Every entry has the place `Eidfjord`. |
| `Layers.RegistryIdsUnique` | src/layers.ts:22-109 | No two entries share an id. |
| `Layers.RegistryAllSourced` | src/layers.ts:22-109 | Every entry has a source. |
| `Layers.RegistryStyledForType` | src/layers.ts:22-109 | Line entries carry paint and no layout. Symbol entries carry a layout with a `text-size`, and no paint. |
| `Layers.RegistryTypes` | src/layers.ts:111-120 | The first three entries are line layers and the other five are symbol layers. |
| `Layers.RegistryIcons` | src/layers.ts:56-109 | Hill and peak show `mountain`, and farm and hamlet show `marker`. Water and the line layers have no icon. |

## Left out

- The engine's expression language is evaluated only for the forms the label
  rule uses, and only for a feature's `name` and `ele`. `case` is evaluated
  only with one condition and a fallback. Numbers are integers.
- Elevation is an unbounded integer, printed in plain decimal. The engine's
  numbers are doubles: it prints values from 1e21 up in exponent form and loses
  integer precision above 2^53. Real elevations stay far below both limits.
  Fractional elevations, string-valued `ele` properties, and the
  `to-number`/`to-string` coercions beyond printing an integer are not modelled.
  A feature's `name` is assumed to be present.
- Float style values (`1.5`, `-0.3`) are opaque `Decimal` literals, and
  `line-dasharray` is a plain array of integers.
- GeoJSON imports are modelled as the asset path strings the bundler turns
  into URLs. The explicit `geoJson` argument is modelled as such a string too.
  The contents of the GeoJSON files are not part of this model.
- The `query` strings are carried and never read. The commented-out
  highway and waterway imports are not part of this model.
- Rendering, paint order on screen and the engine's own checks are outside this
  model. The engine's checks appear only as the preconditions described above.
  The engine throws an exception when a check fails; that case is excluded by
  those preconditions rather than modelled.
- The application bootstrap (`src/main.ts`) and the component that calls
  `addLayersToMap` are not part of this model. `BindRegistry` stands in for
  that component's single call.
- The binder drops every other field a descriptor may carry, such as `filter`,
  `minzoom`, `maxzoom`, `source-layer` and `metadata`. It builds a new object
  with only id, type, source, layout and paint. The descriptor datatype has no
  such fields, so the model cannot show that they are lost. The registry sets
  none of them.
- `MapSurface` keeps the sources and the layers in two separate sequences. The
  contracts fix the order within each. They do not fix how the calls
  interleave (source A, layer A, source B, layer B), which a recording of the
  engine's call order would show.
- JavaScript's `??` treats `null` the same as a missing argument. Here both are
  `None`.
