/**
 * The layer binder: `addLayerToMap` registers one descriptor's source and layer
 * on a map surface, `addLayersToMap` does so for a whole registry in order,
 * keying every entry by `"{place}-{id}"`.
 */
module MapFunctions {
  import opened Wrappers
  import opened Seqs
  import opened Style
  import opened LabelRule
  import opened Expressions
  import opened Layers
  import opened Surface

  // ---------------------------------------------------------------------------
  // The fixed style of symbol layers.

  /** `["get", p]`: read feature property `p`. */
  function GetProperty(p: string): Value
  {
    Array([Str("get"), Str(p)])
  }

  /** `["has", "ele"]`: the test both label expressions branch on. */
  const HasElevation: Value := Array([Str("has"), Str("ele")])

  /** The `text-field` expression; `LabelText` states what it shows for one feature. */
  const TextFieldExpression: Value :=
    Array([Str("case"), HasElevation,
           Array([Str("to-string"),
                  Array([Str("concat"), GetProperty("name"), Str("\n"), GetProperty("ele"), Str(" m")])]),
           GetProperty("name")])

  /** The `symbol-sort-key` expression; `SortKey` states its value for one feature. */
  const SortKeyExpression: Value :=
    Array([Str("case"), HasElevation,
           Array([Str("-"), Int(BaseSortKey), Array([Str("to-number"), GetProperty("ele")])]),
           Int(BaseSortKey)])

  /** For every feature, the `text-field` expression shows exactly `LabelText`. */
  lemma TextFieldMeaning(f: Feature)
    ensures Eval(TextFieldExpression, f) == Some(Text(LabelText(f)))
  {
    assert Eval(HasElevation, f) == Some(Bool(f.ele.Some?));
    assert Eval(GetProperty("name"), f) == Some(Text(f.name));
    if f.ele.Some? {
      var e := f.ele.value;
      var es := [Str("concat"), GetProperty("name"), Str("\n"), GetProperty("ele"), Str(" m")];
      assert Eval(GetProperty("ele"), f) == Some(Number(e));
      var ds := seq(|es| - 1, i requires 0 <= i < |es| - 1 => Eval(es[i + 1], f));
      assert ds == [Some(Text(f.name)), Some(Text("\n")), Some(Number(e)), Some(Text(" m"))];
      ConcatSteps(ds, f.name, "\n", IntToString(e), " m");
      assert Eval(Array(es), f) == Some(Text(LabelText(f)));
      assert Eval(Array([Str("to-string"), Array(es)]), f) == Some(Text(LabelText(f)));
    }
  }

  /** `concat` of four arguments joins their texts. */
  lemma ConcatSteps(ds: seq<Option<Datum>>, a: string, b: string, c: string, d: string)
    requires |ds| == 4 && ds[0].Some? && ds[1].Some? && ds[2].Some? && ds[3].Some?
    requires ToText(ds[0].value) == a && ToText(ds[1].value) == b
    requires ToText(ds[2].value) == c && ToText(ds[3].value) == d
    ensures Concat(ds) == Some(a + b + c + d)
  {
    assert ds[..1][..0] == [];
    assert "" + a == a;
    assert Concat(ds[..1]) == Some(a);
    assert ds[..2][..1] == ds[..1];
    assert Concat(ds[..2]) == Some(a + b);
    assert ds[..3][..2] == ds[..2];
    assert Concat(ds[..3]) == Some(a + b + c);
    assert ds[..3] == ds[..|ds| - 1];
  }

  /** For every feature, the `symbol-sort-key` expression evaluates to `SortKey`. */
  lemma SortKeyMeaning(f: Feature)
    ensures Eval(SortKeyExpression, f) == Some(Number(SortKey(f)))
  {
    assert Eval(HasElevation, f) == Some(Bool(f.ele.Some?));
    if f.ele.Some? {
      var e := f.ele.value;
      var toNumber := Array([Str("to-number"), GetProperty("ele")]);
      assert Eval(GetProperty("ele"), f) == Some(Number(e));
      assert Eval(toNumber, f) == Some(Number(e));
      assert Eval(Int(BaseSortKey), f) == Some(Number(BaseSortKey));
      assert Eval(Array([Str("-"), Int(BaseSortKey), toNumber]), f) == Some(Number(BaseSortKey - e));
    }
  }

  /** The five layout properties that every symbol layer gets, whatever its descriptor says. */
  const FixedLayout: Props :=
    map[
      "text-field" := TextFieldExpression,
      "text-font" := Array([Str("Spectral Medium Italic")]),
      "symbol-sort-key" := SortKeyExpression,
      "text-anchor" := Str("bottom"),
      "text-offset" := Array([Int(0), Decimal("-0.3")])
    ]

  /** The paint of every symbol layer. */
  const SymbolPaint: Props :=
    map["text-color" := Str("#333"), "text-halo-color" := Str("#f2f2f2"), "text-halo-width" := Int(3)]

  /** The fixed layout: exactly five properties, a label showing `LabelText` and ranked by `SortKey`. */
  lemma FixedLayoutValues()
    ensures FixedLayout.Keys == {"text-field", "text-font", "symbol-sort-key", "text-anchor", "text-offset"}
    ensures forall f :: Eval(FixedLayout["text-field"], f) == Some(Text(LabelText(f)))
    ensures forall f :: Eval(FixedLayout["symbol-sort-key"], f) == Some(Number(SortKey(f)))
    ensures FixedLayout["text-font"] == Array([Str("Spectral Medium Italic")])
    ensures FixedLayout["text-anchor"] == Str("bottom")
    ensures FixedLayout["text-offset"] == Array([Int(0), Decimal("-0.3")])
  {
    forall f: Feature ensures Eval(FixedLayout["text-field"], f) == Some(Text(LabelText(f))) {
      TextFieldMeaning(f);
    }
    forall f: Feature ensures Eval(FixedLayout["symbol-sort-key"], f) == Some(Number(SortKey(f))) {
      SortKeyMeaning(f);
    }
  }

  /** The symbol paint: dark grey text with a light halo 3 pixels wide, and nothing else. */
  lemma SymbolPaintValues()
    ensures SymbolPaint.Keys == {"text-color", "text-halo-color", "text-halo-width"}
    ensures SymbolPaint["text-color"] == Str("#333")
    ensures SymbolPaint["text-halo-color"] == Str("#f2f2f2")
    ensures SymbolPaint["text-halo-width"] == Int(3)
  {
  }

  /**
   * The layout of a bound symbol layer: the descriptor's entries spread first,
   * then the fixed entries, which win on a shared name.
   */
  function SymbolLayout(desc: Option<Props>): (r: Props)
    ensures r.Keys == FixedLayout.Keys + (if desc.Some? then desc.value.Keys else {})
    ensures forall k :: k in FixedLayout ==> r[k] == FixedLayout[k]
    ensures forall k :: desc.Some? && k in desc.value && k !in FixedLayout ==> r[k] == desc.value[k]
  {
    desc.GetOr(map[]) + FixedLayout
  }

  /** No descriptor layout changes a fixed label property. */
  lemma FixedLayoutWins(d1: Option<Props>, d2: Option<Props>, k: string)
    requires k in FixedLayout
    ensures k in SymbolLayout(d1) && k in SymbolLayout(d2) && SymbolLayout(d1)[k] == SymbolLayout(d2)[k]
  {
  }

  // ---------------------------------------------------------------------------
  // Keys.

  /** The key of the bulk path: `` `${place}-${id}` ``. */
  function CompositeKey(l: Layer): (k: string)
    ensures |k| == |l.place| + 1 + |l.id|
    ensures k[..|l.place|] == l.place && k[|l.place|] == '-' && k[|l.place| + 1..] == l.id
  {
    l.place + "-" + l.id
  }

  /** Within one place, distinct ids give distinct composite keys. */
  lemma CompositeKeysDistinct(a: Layer, b: Layer)
    requires a.place == b.place
    ensures CompositeKey(a) == CompositeKey(b) <==> a.id == b.id
  {
    var n := |a.place| + 1;
    assert CompositeKey(a)[n..] == a.id;
    assert CompositeKey(b)[n..] == b.id;
  }

  /**
   * Across places the composite key can collide: place `a-b` with id `c` and
   * place `a` with id `b-c` both give `a-b-c`.
   */
  lemma CompositeKeyAcrossPlaces()
    ensures CompositeKey(SourcelessLayer("c", "a-b", Line, None, None, ""))
         == CompositeKey(SourcelessLayer("b-c", "a", Line, None, None, ""))
  {
  }

  /**
   * Two descriptors share a key only if their places have the same length (and
   * then they agree on place and id), or the shorter place followed by `-` begins
   * the longer one.
   */
  lemma CompositeKeyCollision(a: Layer, b: Layer)
    requires CompositeKey(a) == CompositeKey(b)
    ensures |a.place| == |b.place| ==> a.place == b.place && a.id == b.id
    ensures |a.place| < |b.place| ==> a.place + "-" <= b.place
  {
    var k := CompositeKey(a);
    if |a.place| == |b.place| {
      CompositeKeysDistinct(a, b);
    }
    if |a.place| < |b.place| {
      assert a.place + "-" == k[..|a.place| + 1];
      assert b.place == k[..|b.place|];
    }
  }

  /** When no place contains `-`, the key determines both the place and the id. */
  lemma DashFreePlacesInjective(a: Layer, b: Layer)
    requires '-' !in a.place && '-' !in b.place
    requires CompositeKey(a) == CompositeKey(b)
    ensures a.place == b.place && a.id == b.id
  {
    var k := CompositeKey(a);
    assert k == a.place + ['-'] + a.id;
    assert k == b.place + ['-'] + b.id;
    FirstIndexAfterPrefix(a.place, '-', a.id);
    FirstIndexAfterPrefix(b.place, '-', b.id);
    CompositeKeyCollision(a, b);
  }

  /** The bulk key never equals the bare id a direct call falls back to. */
  lemma BulkKeyIsNotId(l: Layer)
    ensures CompositeKey(l) != l.id
  {
    assert |CompositeKey(l)| > |l.id|;
  }

  // ---------------------------------------------------------------------------
  // What one call registers.

  /** The layer object registered for a descriptor that has a source, under `key`. */
  function BoundLayer(l: Layer, key: string): (r: LayerEntry)
    requires l.HasSource()
    ensures r.id == key && r.source == Some(key) && r.kind == l.Type()
    ensures l.Type() == Symbol ==> r.layout == Some(SymbolLayout(l.layout)) && r.paint == Some(SymbolPaint)
    ensures l.Type() != Symbol ==> r.layout.None? && r.paint == l.paint
  {
    match l
    case SymbolLayer(_, _, _, layout, _, _) => LayerEntry(key, Symbol, Some(key), Some(SymbolLayout(layout)), Some(SymbolPaint))
    case PaintLayer(_, _, t, _, _, paint, _) => LayerEntry(key, t, Some(key), None, paint)
  }

  /** The sources one call adds: one for a descriptor with a source, none otherwise. */
  function SourcesFor(l: Layer, key: string, geoJson: Option<SourceData>): (r: seq<SourceEntry>)
    ensures |r| == (if l.HasSource() then 1 else 0)
    ensures l.HasSource() ==> r[0] == SourceEntry(key, GeoJson(geoJson.GetOr(l.source)))
  {
    if l.HasSource() then [SourceEntry(key, GeoJson(geoJson.GetOr(l.source)))] else []
  }

  /** The layers one call adds: one for a descriptor with a source, none otherwise. */
  function LayersFor(l: Layer, key: string): (r: seq<LayerEntry>)
    ensures |r| == (if l.HasSource() then 1 else 0)
    ensures l.HasSource() ==> r[0] == BoundLayer(l, key)
  {
    if l.HasSource() then [BoundLayer(l, key)] else []
  }

  /**
   * `addLayerToMap(map, layer, layerId?, geoJson?)`. The key is `layerId ?? layer.id`
   * and serves as source key, layer id and the layer's source; the source data is
   * `geoJson ?? layer.source`. A descriptor without a source leaves the surface as it was.
   */
  method AddLayerToMap(m: MapSurface, layer: Layer, layerId: Option<string>, geoJson: Option<SourceData>)
    requires m.Valid()
    requires layer.HasSource() ==> layerId.GetOr(layer.id) !in SourceKeys(m.sources)
    requires layer.HasSource() ==> layerId.GetOr(layer.id) !in LayerIds(m.layers)
    modifies m
    ensures m.Valid()
    ensures m.sources == old(m.sources) + SourcesFor(layer, layerId.GetOr(layer.id), geoJson)
    ensures m.layers == old(m.layers) + LayersFor(layer, layerId.GetOr(layer.id))
  {
    if layer.HasSource() {
      var key := layerId.GetOr(layer.id);
      m.AddSource(key, GeoJson(geoJson.GetOr(layer.source)));
      if layer.Type() == Symbol {
        m.AddLayer(LayerEntry(key, layer.Type(), Some(key),
                              Some(layer.layout.GetOr(map[]) + FixedLayout), Some(SymbolPaint)));
      } else {
        m.AddLayer(LayerEntry(key, layer.Type(), Some(key), None, layer.paint));
      }
    }
  }

  /** Binding is not idempotent: after one call the key is taken, so a second call with it is rejected. */
  lemma RebindTakesKey(sources: seq<SourceEntry>, l: Layer, key: string, geoJson: Option<SourceData>)
    requires l.HasSource()
    ensures key in SourceKeys(sources + SourcesFor(l, key, geoJson))
  {
    assert SourceKeys(sources + SourcesFor(l, key, geoJson))[|sources|] == key;
  }

  // ---------------------------------------------------------------------------
  // What the bulk call registers.

  /** The composite keys of the descriptors that have a source, in order. */
  function BulkKeys(ls: seq<Layer>): (r: seq<string>)
    ensures |r| <= |ls|
    ensures forall k :: k in r ==> exists i :: 0 <= i < |ls| && ls[i].HasSource() && k == CompositeKey(ls[i])
  {
    if ls == [] then []
    else BulkKeys(ls[..|ls| - 1]) + (if ls[|ls| - 1].HasSource() then [CompositeKey(ls[|ls| - 1])] else [])
  }

  /** The sources binding `ls` adds, in order. */
  function BulkSources(ls: seq<Layer>): (r: seq<SourceEntry>)
    ensures |r| <= |ls|
    ensures forall e :: e in r ==>
              exists i :: 0 <= i < |ls| && ls[i].HasSource() && e == SourceEntry(CompositeKey(ls[i]), GeoJson(ls[i].source))
  {
    if ls == [] then []
    else BulkSources(ls[..|ls| - 1]) + SourcesFor(ls[|ls| - 1], CompositeKey(ls[|ls| - 1]), None)
  }

  /** The layers binding `ls` adds, in order. */
  function BulkLayers(ls: seq<Layer>): (r: seq<LayerEntry>)
    ensures |r| <= |ls|
    ensures forall e :: e in r ==>
              exists i :: 0 <= i < |ls| && ls[i].HasSource() && e == BoundLayer(ls[i], CompositeKey(ls[i]))
  {
    if ls == [] then []
    else BulkLayers(ls[..|ls| - 1]) + LayersFor(ls[|ls| - 1], CompositeKey(ls[|ls| - 1]))
  }

  /** Binding `a + b` is binding `a`, then binding `b`: so `[A, B, C]` registers A, then B, then C. */
  lemma {:induction false} BulkSourcesAppend(a: seq<Layer>, b: seq<Layer>)
    ensures BulkSources(a + b) == BulkSources(a) + BulkSources(b)
    decreases |b|
  {
    if b == [] {
      assert a + b == a;
    } else {
      var init := b[..|b| - 1];
      assert (a + b)[..|a + b| - 1] == a + init;
      assert (a + b)[|a + b| - 1] == b[|b| - 1];
      BulkSourcesAppend(a, init);
    }
  }

  /** The layers of `a + b` are those of `a`, then those of `b`. */
  lemma {:induction false} BulkLayersAppend(a: seq<Layer>, b: seq<Layer>)
    ensures BulkLayers(a + b) == BulkLayers(a) + BulkLayers(b)
    decreases |b|
  {
    if b == [] {
      assert a + b == a;
    } else {
      var init := b[..|b| - 1];
      assert (a + b)[..|a + b| - 1] == a + init;
      assert (a + b)[|a + b| - 1] == b[|b| - 1];
      BulkLayersAppend(a, init);
    }
  }

  /** The bulk keys of `a + b` are those of `a`, then those of `b`. */
  lemma {:induction false} BulkKeysAppend(a: seq<Layer>, b: seq<Layer>)
    ensures BulkKeys(a + b) == BulkKeys(a) + BulkKeys(b)
    decreases |b|
  {
    if b == [] {
      assert a + b == a;
    } else {
      var init := b[..|b| - 1];
      assert (a + b)[..|a + b| - 1] == a + init;
      assert (a + b)[|a + b| - 1] == b[|b| - 1];
      BulkKeysAppend(a, init);
    }
  }

  /** The sources binding `ls` adds are keyed exactly by `BulkKeys(ls)`. */
  lemma {:induction false} BulkSourceKeys(ls: seq<Layer>)
    ensures SourceKeys(BulkSources(ls)) == BulkKeys(ls)
    decreases |ls|
  {
    if ls != [] {
      var init, last := ls[..|ls| - 1], ls[|ls| - 1];
      BulkSourceKeys(init);
      var key := CompositeKey(last);
      var ss := SourcesFor(last, key, None);
      assert BulkSources(ls) == BulkSources(init) + ss;
      SourceKeysAppend(BulkSources(init), ss);
      assert SourceKeys(ss) == if last.HasSource() then [key] else [];
    }
  }

  /** The layers binding `ls` adds have the ids `BulkKeys(ls)`, and each draws from the source of its own key. */
  lemma {:induction false} BulkLayerIds(ls: seq<Layer>)
    ensures LayerIds(BulkLayers(ls)) == BulkKeys(ls)
    ensures forall i :: 0 <= i < |BulkLayers(ls)| ==> BulkLayers(ls)[i].source == Some(BulkLayers(ls)[i].id)
    decreases |ls|
  {
    if ls != [] {
      var init, last := ls[..|ls| - 1], ls[|ls| - 1];
      BulkLayerIds(init);
      var key := CompositeKey(last);
      var ys := LayersFor(last, key);
      assert BulkLayers(ls) == BulkLayers(init) + ys;
      LayerIdsAppend(BulkLayers(init), ys);
      assert LayerIds(ys) == if last.HasSource() then [key] else [];
    }
  }

  /** The sources binding `ls` adds are those of its descriptors that have a source. */
  function Sourced(ls: seq<Layer>): (r: seq<Layer>)
    ensures forall l :: l in r <==> l in ls && l.HasSource()
  {
    if ls == [] then []
    else Sourced(ls[..|ls| - 1]) + (if ls[|ls| - 1].HasSource() then [ls[|ls| - 1]] else [])
  }

  /** Descriptors without a source contribute nothing: binding `ls` is binding its sourced part. */
  lemma {:induction false} BulkSkipsSourceless(ls: seq<Layer>)
    ensures BulkSources(ls) == BulkSources(Sourced(ls))
    ensures BulkLayers(ls) == BulkLayers(Sourced(ls))
    ensures |BulkSources(ls)| == |BulkLayers(ls)| == |Sourced(ls)|
    decreases |ls|
  {
    if ls != [] {
      var init, last := ls[..|ls| - 1], ls[|ls| - 1];
      BulkSkipsSourceless(init);
      var tail := if last.HasSource() then [last] else [];
      BulkSourcesAppend(Sourced(init), tail);
      BulkLayersAppend(Sourced(init), tail);
      if last.HasSource() {
        assert [last][..0] == [];
        assert BulkSources([last]) == BulkSources([]) + SourcesFor(last, CompositeKey(last), None);
        assert BulkLayers([last]) == BulkLayers([]) + LayersFor(last, CompositeKey(last));
      }
    }
  }

  /** When every descriptor has a source, the i-th bulk key is the i-th descriptor's composite key. */
  lemma {:induction false} BulkKeysAllSourced(ls: seq<Layer>)
    requires forall i :: 0 <= i < |ls| ==> ls[i].HasSource()
    ensures |BulkKeys(ls)| == |ls|
    ensures forall i :: 0 <= i < |ls| ==> BulkKeys(ls)[i] == CompositeKey(ls[i])
    decreases |ls|
  {
    if ls != [] {
      var n := |ls| - 1;
      BulkKeysAllSourced(ls[..n]);
      assert BulkKeys(ls) == BulkKeys(ls[..n]) + [CompositeKey(ls[n])];
    }
  }

  /** When every descriptor has a source, the i-th source is the i-th descriptor's, under its composite key. */
  lemma {:induction false} BulkSourcesAllSourced(ls: seq<Layer>)
    requires forall i :: 0 <= i < |ls| ==> ls[i].HasSource()
    ensures |BulkSources(ls)| == |ls|
    ensures forall i :: 0 <= i < |ls| ==>
              ls[i].HasSource() && BulkSources(ls)[i] == SourceEntry(CompositeKey(ls[i]), GeoJson(ls[i].source))
    decreases |ls|
  {
    if ls != [] {
      var n := |ls| - 1;
      BulkSourcesAllSourced(ls[..n]);
      assert ls[..n + 1] == ls;
      BulkStep(ls, n);
    }
  }

  /** When every descriptor has a source, the i-th layer is the i-th descriptor's, under its composite key. */
  lemma {:induction false} BulkLayersAllSourced(ls: seq<Layer>)
    requires forall i :: 0 <= i < |ls| ==> ls[i].HasSource()
    ensures |BulkLayers(ls)| == |ls|
    ensures forall i :: 0 <= i < |ls| ==>
              ls[i].HasSource() && BulkLayers(ls)[i] == BoundLayer(ls[i], CompositeKey(ls[i]))
    decreases |ls|
  {
    if ls != [] {
      var n := |ls| - 1;
      BulkLayersAllSourced(ls[..n]);
      assert ls[..n + 1] == ls;
      BulkStep(ls, n);
    }
  }

  /** What binding the i-th descriptor adds to what binding the ones before it added. */
  lemma BulkStep(ls: seq<Layer>, i: nat)
    requires i < |ls|
    ensures BulkSources(ls[..i + 1]) == BulkSources(ls[..i]) + SourcesFor(ls[i], CompositeKey(ls[i]), None)
    ensures BulkLayers(ls[..i + 1]) == BulkLayers(ls[..i]) + LayersFor(ls[i], CompositeKey(ls[i]))
    ensures ls[i].HasSource() ==> BulkKeys(ls[..i + 1]) == BulkKeys(ls[..i]) + [CompositeKey(ls[i])]
  {
    assert ls[..i + 1][..i] == ls[..i];
  }

  /** The bulk keys of `p + [l] + q` for `l` with a source: those of `p`, the key of `l`, those of `q`. */
  lemma BulkKeysMiddle(p: seq<Layer>, l: Layer, q: seq<Layer>)
    requires l.HasSource()
    ensures BulkKeys(p + [l] + q) == BulkKeys(p) + [CompositeKey(l)] + BulkKeys(q)
  {
    var pl := p + [l];
    assert pl[..|pl| - 1] == p && pl[|pl| - 1] == l;
    assert BulkKeys(pl) == BulkKeys(p) + [CompositeKey(l)];
    BulkKeysAppend(pl, q);
  }

  /** The bulk keys around a descriptor with a source: those before it, its own, those after it. */
  lemma BulkKeysSplit(ls: seq<Layer>, i: nat)
    requires i < |ls| && ls[i].HasSource()
    ensures BulkKeys(ls) == BulkKeys(ls[..i]) + [CompositeKey(ls[i])] + BulkKeys(ls[i + 1..])
  {
    assert ls == ls[..i] + [ls[i]] + ls[i + 1..];
    BulkKeysMiddle(ls[..i], ls[i], ls[i + 1..]);
  }

  /** With duplicate-free bulk keys, the i-th descriptor's key was not used by any before it. */
  lemma BulkKeyFresh(ls: seq<Layer>, i: nat)
    requires i < |ls| && ls[i].HasSource()
    requires Distinct(BulkKeys(ls))
    ensures CompositeKey(ls[i]) in BulkKeys(ls)
    ensures CompositeKey(ls[i]) !in BulkKeys(ls[..i])
  {
    var pre := BulkKeys(ls[..i]);
    BulkKeysSplit(ls, i);
    DistinctMiddle(pre, CompositeKey(ls[i]), BulkKeys(ls[i + 1..]));
    assert BulkKeys(ls)[|pre|] == CompositeKey(ls[i]);
  }

  /** The bulk keys of `ls` are duplicate-free and unused by `sources` and `layers`. */
  predicate KeysFresh(ls: seq<Layer>, sources: seq<SourceEntry>, layers: seq<LayerEntry>)
  {
    && Distinct(BulkKeys(ls))
    && Disjoint(BulkKeys(ls), SourceKeys(sources))
    && Disjoint(BulkKeys(ls), LayerIds(layers))
  }

  /** Once the descriptors before the i-th are bound, the i-th one's key is still free. */
  lemma KeyFreeAt(ls: seq<Layer>, i: nat, sources: seq<SourceEntry>, layers: seq<LayerEntry>)
    requires i < |ls| && ls[i].HasSource()
    requires KeysFresh(ls, sources, layers)
    ensures CompositeKey(ls[i]) !in SourceKeys(sources + BulkSources(ls[..i]))
    ensures CompositeKey(ls[i]) !in LayerIds(layers + BulkLayers(ls[..i]))
  {
    var key, done := CompositeKey(ls[i]), ls[..i];
    BulkKeyFresh(ls, i);
    BulkSourceKeys(done);
    BulkLayerIds(done);
    SourceKeysAppend(sources, BulkSources(done));
    LayerIdsAppend(layers, BulkLayers(done));
    NotInAppend(key, BulkKeys(ls), SourceKeys(sources), BulkKeys(done));
    NotInAppend(key, BulkKeys(ls), LayerIds(layers), BulkKeys(done));
  }

  /** Binding the i-th descriptor after the ones before it gives what binding the first i + 1 gives. */
  lemma BindNext(ls: seq<Layer>, i: nat, sources: seq<SourceEntry>, layers: seq<LayerEntry>)
    requires i < |ls|
    ensures sources + BulkSources(ls[..i]) + SourcesFor(ls[i], CompositeKey(ls[i]), None)
         == sources + BulkSources(ls[..i + 1])
    ensures layers + BulkLayers(ls[..i]) + LayersFor(ls[i], CompositeKey(ls[i]))
         == layers + BulkLayers(ls[..i + 1])
  {
    BulkStep(ls, i);
  }

  /**
   * `addLayersToMap(map, layersArr)`: binds every descriptor in array order
   * under its composite key, with the descriptor's own source data.
   */
  method AddLayersToMap(m: MapSurface, layersArr: seq<Layer>)
    requires m.Valid()
    requires KeysFresh(layersArr, m.sources, m.layers)
    modifies m
    ensures m.Valid()
    ensures m.sources == old(m.sources) + BulkSources(layersArr)
    ensures m.layers == old(m.layers) + BulkLayers(layersArr)
  {
    ghost var sources, layers := m.sources, m.layers;
    assert layersArr[..0] == [];
    for i := 0 to |layersArr|
      invariant m.Valid()
      invariant m.sources == sources + BulkSources(layersArr[..i])
      invariant m.layers == layers + BulkLayers(layersArr[..i])
    {
      var layer := layersArr[i];
      var key := CompositeKey(layer);
      if layer.HasSource() {
        KeyFreeAt(layersArr, i, sources, layers);
      }
      AddLayerToMap(m, layer, Some(key), None);
      assert Some(key).GetOr(layer.id) == key;
      BindNext(layersArr, i, sources, layers);
    }
    assert layersArr[..|layersArr|] == layersArr;
  }

  // ---------------------------------------------------------------------------
  // The registry, bound.

  const RegistryKeys: seq<string> :=
    ["Eidfjord-track", "Eidfjord-path", "Eidfjord-piste", "Eidfjord-hill",
     "Eidfjord-farm", "Eidfjord-water-with-name", "Eidfjord-hamlet", "Eidfjord-peak"]

  /** Binding the registry skips nothing: every entry adds its own source and layer, in registry order. */
  lemma RegistryBindsEveryEntry()
    ensures |BulkSources(Registry)| == |BulkLayers(Registry)| == |Registry|
    ensures forall i :: 0 <= i < |Registry| ==>
              && Registry[i].HasSource()
              && BulkSources(Registry)[i] == SourceEntry(CompositeKey(Registry[i]), GeoJson(Registry[i].source))
              && BulkLayers(Registry)[i] == BoundLayer(Registry[i], CompositeKey(Registry[i]))
  {
    RegistryAllSourced();
    BulkSourcesAllSourced(Registry);
    BulkLayersAllSourced(Registry);
  }

  /** The registry's keys spelled out: the place, a dash, the id. */
  lemma RegistryKeyTexts()
    ensures forall i :: 0 <= i < |RegistryIds| ==> Eidfjord + "-" + RegistryIds[i] == RegistryKeys[i]
  {
    assert Eidfjord + "-" + "track" == "Eidfjord-track";
    assert Eidfjord + "-" + "path" == "Eidfjord-path";
    assert Eidfjord + "-" + "piste" == "Eidfjord-piste";
    assert Eidfjord + "-" + "hill" == "Eidfjord-hill";
    assert Eidfjord + "-" + "farm" == "Eidfjord-farm";
    assert Eidfjord + "-" + "water-with-name" == "Eidfjord-water-with-name";
    assert Eidfjord + "-" + "hamlet" == "Eidfjord-hamlet";
    assert Eidfjord + "-" + "peak" == "Eidfjord-peak";
  }

  /** The registry binds under the keys `Eidfjord-track`, ..., `Eidfjord-peak`, in registry order. */
  lemma RegistryKeysInOrder()
    ensures BulkKeys(Registry) == RegistryKeys
  {
    RegistryAllSourced();
    BulkKeysAllSourced(Registry);
    RegistryOrder();
    RegistryPlace();
    RegistryKeyTexts();
    forall i | 0 <= i < |Registry| ensures BulkKeys(Registry)[i] == RegistryKeys[i] {
      assert Registry[i].id == RegistryIds[i];
    }
  }

  /** No two registry entries bind under the same key, so bulk binding never reuses one. */
  lemma RegistryKeysDistinct()
    ensures Distinct(BulkKeys(Registry))
  {
    RegistryAllSourced();
    BulkKeysAllSourced(Registry);
    RegistryIdsUnique();
    RegistryPlace();
    forall i, j | 0 <= i < j < |Registry| ensures BulkKeys(Registry)[i] != BulkKeys(Registry)[j] {
      CompositeKeysDistinct(Registry[i], Registry[j]);
    }
  }

  /** What the engine receives for a line descriptor under `key`: no layout, and `paint` as given. */
  predicate RegisteredLine(r: LayerEntry, key: string, paint: Props)
  {
    r == LayerEntry(key, Line, Some(key), None, Some(paint))
  }

  /** What the engine receives for a symbol descriptor under `key`: the fixed label rule and paint, and `own`. */
  predicate RegisteredSymbol(r: LayerEntry, key: string, own: Props)
  {
    && r.id == key && r.source == Some(key) && r.kind == Symbol
    && r.layout.Some? && r.layout.value.Keys == FixedLayout.Keys + own.Keys
    && (forall k :: k in FixedLayout ==> r.layout.value[k] == FixedLayout[k])
    && (forall k :: k in own ==> r.layout.value[k] == own[k])
    && r.paint == Some(SymbolPaint)
  }

  /** A symbol descriptor whose own layout shares no name with the fixed one keeps all of it. */
  lemma SymbolBound(l: Layer, key: string, own: Props)
    requires l.SymbolLayer? && l.layout == Some(own) && own.Keys !! FixedLayout.Keys
    ensures RegisteredSymbol(BoundLayer(l, key), key, own)
  {
  }

  // What the engine receives for each registry entry, under any key.

  /** Tracks: a solid red line, 1.5 wide. */
  lemma TracksBound(key: string)
    ensures RegisteredLine(BoundLayer(TracksLayer, key), key,
                           map["line-color" := Str("#ff5c5c"), "line-width" := Decimal("1.5")])
  {
  }

  /** Paths: a red line dashed 6 on, 2 off, 1.5 wide. */
  lemma PathsBound(key: string)
    ensures RegisteredLine(BoundLayer(PathsLayer, key), key,
                           map["line-dasharray" := Array([Int(6), Int(2)]), "line-color" := Str("#ff5c5c"),
                               "line-width" := Decimal("1.5")])
  {
  }

  /** Ski pistes: a solid blue line, 1.5 wide. */
  lemma PisteBound(key: string)
    ensures RegisteredLine(BoundLayer(PisteLayer, key), key,
                           map["line-color" := Str("#046c8b"), "line-width" := Decimal("1.5")])
  {
  }

  /** Named water: the label rule at size 16, no icon. */
  lemma WaterBound(key: string)
    ensures RegisteredSymbol(BoundLayer(WaterLayer, key), key,
                             map["text-size" := Int(16)])
  {
    SymbolBound(WaterLayer, key, map["text-size" := Int(16)]);
  }

  /** Hills: a mountain icon and the label rule at size 14. */
  lemma HillsBound(key: string)
    ensures RegisteredSymbol(BoundLayer(HillsLayer, key), key,
                             map["icon-image" := Str("mountain"), "text-size" := Int(14)])
  {
    SymbolBound(HillsLayer, key, map["icon-image" := Str("mountain"), "text-size" := Int(14)]);
  }

  /** Farms: a marker icon and the label rule at size 18. */
  lemma FarmsBound(key: string)
    ensures RegisteredSymbol(BoundLayer(FarmsLayer, key), key,
                             map["icon-image" := Str("marker"), "text-size" := Int(18)])
  {
    SymbolBound(FarmsLayer, key, map["icon-image" := Str("marker"), "text-size" := Int(18)]);
  }

  /** Hamlets: a marker icon and the label rule at size 18. */
  lemma HamletsBound(key: string)
    ensures RegisteredSymbol(BoundLayer(HamletsLayer, key), key,
                             map["icon-image" := Str("marker"), "text-size" := Int(18)])
  {
    SymbolBound(HamletsLayer, key, map["icon-image" := Str("marker"), "text-size" := Int(18)]);
  }

  /** Peaks: a mountain icon and the label rule at size 20. */
  lemma PeaksBound(key: string)
    ensures RegisteredSymbol(BoundLayer(PeaksLayer, key), key,
                             map["icon-image" := Str("mountain"), "text-size" := Int(20)])
  {
    SymbolBound(PeaksLayer, key, map["icon-image" := Str("mountain"), "text-size" := Int(20)]);
  }

  /** The registry's last entry is the peak layer, bound last under `Eidfjord-peak`. */
  lemma PeakBinding()
    ensures |BulkSources(Registry)| == |BulkLayers(Registry)| == 8
    ensures BulkSources(Registry)[7] == SourceEntry("Eidfjord-peak", GeoJson(EidfjordPeaks))
    ensures BulkLayers(Registry)[7] == BoundLayer(PeaksLayer, "Eidfjord-peak")
  {
    RegistryBindsEveryEntry();
    assert Registry[7] == PeaksLayer;
    assert CompositeKey(PeaksLayer) == "Eidfjord-peak";
  }

  /**
   * The application's single bind: the whole registry onto the ready map, which
   * may already hold the base style's sources and layers. The registry's distinct
   * keys discharge the freshness the engine demands, provided the base style uses
   * none of them.
   */
  method BindRegistry(m: MapSurface)
    requires m.Valid()
    requires Disjoint(RegistryKeys, SourceKeys(m.sources)) && Disjoint(RegistryKeys, LayerIds(m.layers))
    modifies m
    ensures m.Valid()
    ensures m.sources == old(m.sources) + BulkSources(Registry)
    ensures m.layers == old(m.layers) + BulkLayers(Registry)
    ensures SourceKeys(m.sources) == SourceKeys(old(m.sources)) + RegistryKeys
    ensures LayerIds(m.layers) == LayerIds(old(m.layers)) + RegistryKeys
  {
    RegistryKeysInOrder();
    RegistryKeysDistinct();
    BulkSourceKeys(Registry);
    BulkLayerIds(Registry);
    SourceKeysAppend(m.sources, BulkSources(Registry));
    LayerIdsAppend(m.layers, BulkLayers(Registry));
    AddLayersToMap(m, Registry);
  }
}
