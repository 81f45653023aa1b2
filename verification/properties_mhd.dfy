/** `PlotPropertiesMHD` of src/sapphireppplot/plot_properties_mhd.py: series
    names and labels of the MHD quantities with a fallback to the loaded
    series, six debug indicators, and the series list, labels and line styles
    `__post_init__` builds. */
module PropertiesMhd {
  import opened Wrappers
  import opened Seqs
  import opened Variants
  import opened Quantities

  /** The debug indicators; their series names carry no prefix. */
  const Indicators: seq<string> := [
    "magnetic_divergence", "magnetic_divergence_cells", "magnetic_divergence_faces",
    "shock_indicator", "positivity_limiter", "subdomian"]

  lemma IndicatorsDistinct()
    ensures Distinct(Indicators)
  {
    assert Indicators[1][20] != Indicators[2][20];
  }

  function IndicatorLabel(q: string): string
    requires q in Indicators
  {
    if q == "magnetic_divergence" then @"$\nabla \cdot \mathbf{B}$"
    else if q == "magnetic_divergence_cells" then @"$\nabla \cdot \mathbf{B} \mid_{\mathrm{Cell}}$"
    else if q == "magnetic_divergence_faces" then @"$\nabla \cdot \mathbf{B} \mid_{\mathrm{Face}}$"
    else if q == "shock_indicator" then "Shock Indicator"
    else if q == "positivity_limiter" then "Pos. Limiter"
    else "Subdomain"
  }

  /** Python truthiness of `self.series_names` together with membership. */
  predicate Loaded(p: MhdProps, quantity: string) {
    p.seriesNames.Some? && |p.seriesNames.value| > 0 && quantity in p.seriesNames.value
  }

  /** `quantity_name`: indicators pass through unprefixed, physical
      quantities get the prefix and their dimension-dependent name, a
      quantity already among the series names is returned as it is, and
      anything else is a `ValueError`. */
  function QuantityName(p: MhdProps, quantity: string, prefix: string): (r: Result<string>)
    ensures quantity in Indicators ==> r == Ok(quantity)
    ensures quantity in Physical ==> r == Ok(prefix + ReferenceName(quantity, p.dimension))
    ensures quantity !in Indicators && quantity !in Physical ==> (r.Ok? <==> Loaded(p, quantity))
    ensures r.Ok? && quantity !in Physical ==> r.value == quantity
    ensures r.Err? ==> r.error.ValueError?
  {
    NameTableRule(p.dimension, quantity);
    if quantity in Indicators then Ok(quantity)
    else
      var table := NameTable(p.dimension);
      if quantity in table then Ok(prefix + table[quantity])
      else if p.seriesNames.Some? && |p.seriesNames.value| > 0 && quantity in p.seriesNames.value then Ok(quantity)
      else Err(ValueError("Unknown quantity '" + quantity + "'!"))
  }

  /** `quantity_label`: the table label (annotated for physical quantities),
      else an entry of `labels`, else a `ValueError`. */
  function QuantityLabel(p: MhdProps, quantity: string, annotation: string): (r: Result<string>)
    ensures quantity in Physical ==> r == Ok(PhysicalLabel(quantity, annotation))
    ensures quantity in Indicators ==> r == Ok(IndicatorLabel(quantity))
    ensures quantity !in Physical && quantity !in Indicators ==>
      (r.Ok? <==> quantity in p.labels) && (r.Ok? ==> r.value == p.labels[quantity])
    ensures r.Err? ==> r.error.ValueError?
  {
    if quantity in Physical then Ok(PhysicalLabel(quantity, annotation))
    else if quantity in Indicators then Ok(IndicatorLabel(quantity))
    else if quantity in p.labels then Ok(p.labels[quantity])
    else Err(ValueError("Unknown quantity '" + quantity + "'!"))
  }

  function IndicatorLabels(): (r: seq<string>)
    ensures |r| == |Indicators|
    ensures forall n :: 0 <= n < |Indicators| ==> r[n] == IndicatorLabel(Indicators[n])
  {
    seq(|Indicators|, n requires 0 <= n < |Indicators| => IndicatorLabel(Indicators[n]))
  }

  /** `__post_init__`. */
  function PostInit(p: MhdProps): (r: MhdProps)
    ensures r == p.(seriesNames := r.seriesNames, labels := r.labels, lineStyles := r.lineStyles)
    ensures r.seriesNames.Some?
  {
    var q := WriteQuantities(p);
    IndicatorsDistinct();
    if p.showIndicators then AddIndicators(q, Indicators, IndicatorLabels()) else q
  }

  /** Per variant seven series plus three per unresolved axis, in variant
      order; the indicators follow once, at the end, iff they are shown. */
  lemma PostInitSeries(p: MhdProps)
    ensures var vs := VariantsOf(p); var n := |SeriesBlock("", p.dimension)|; var s := PostInit(p).seriesNames.value;
      && |s| == |vs| * n + (if p.showIndicators then |Indicators| else 0)
      && (forall i, j :: 0 <= i < |vs| && 0 <= j < n ==> AtRowMajor(s, n, i, j, SeriesBlock(vs[i].prefix, p.dimension)[j]))
      && (p.showIndicators ==> s[|vs| * n..] == Indicators)
  {
    var vs := VariantsOf(p);
    var n := |SeriesBlock("", p.dimension)|;
    var w := WriteQuantities(p).seriesNames.value;
    var tail := if p.showIndicators then Indicators else [];
    PostInitSplit(p);
    WriteQuantitiesSeries(p);
    assert |w| == |vs| * n;
    assert (w + tail)[|w|..] == tail;
    assert SeriesInOrder(w, vs, p.dimension);
    SeriesInOrderAppend(w, tail, vs, p.dimension);
    assert SeriesInOrder(PostInit(p).seriesNames.value, vs, p.dimension);
  }

  /** The series list is the prefix loop's, followed by the shown indicators. */
  lemma PostInitSplit(p: MhdProps)
    ensures PostInit(p).seriesNames.value
         == WriteQuantities(p).seriesNames.value + (if p.showIndicators then Indicators else [])
  {
    IndicatorsDistinct();
    var w := WriteQuantities(p);
    if p.showIndicators {
      assert PostInit(p) == AddIndicators(w, Indicators, IndicatorLabels());
    } else {
      assert PostInit(p) == w;
    }
  }

  /** Label keys of the prefix loop never collide with an indicator. */
  lemma NotIndicator(key: string)
    requires KeyShape(key)
    ensures key !in Indicators
  {
  }

  /** Every physical quantity of every variant is keyed by its
      `quantity_name` and carries its annotated `quantity_label` and the
      variant's line style. */
  lemma PostInitQuantities(p: MhdProps, i: nat, k: nat)
    requires i < |VariantsOf(p)| && k < |Physical|
    ensures var v := VariantsOf(p)[i]; var r := PostInit(p);
      var name := QuantityName(p, Physical[k], v.prefix);
      && name.Ok?
      && name.value in r.labels && Ok(r.labels[name.value]) == QuantityLabel(p, Physical[k], v.labelPostfix)
      && name.value in r.lineStyles && r.lineStyles[name.value] == v.lineStyle
  {
    var vs := VariantsOf(p);
    var v := vs[i];
    var q := Physical[k];
    var key := TableName(q, v.prefix, p.dimension);
    NameTableRule(p.dimension, q);
    assert QuantityName(p, q, v.prefix) == Ok(key);
    assert QuantityLabel(p, q, v.labelPostfix) == Ok(PhysicalLabel(q, v.labelPostfix));
    WriteQuantitiesValues(p, i, k);
    var w := WriteQuantities(p);
    IndicatorsDistinct();
    if p.showIndicators {
      assert key == KeyBlocks(vs, p.dimension)[i][k];
      FlattenMembership(KeyBlocks(vs, p.dimension), key);
      KeysShape(p, key);
      NotIndicator(key);
      assert PostInit(p) == AddIndicators(w, Indicators, IndicatorLabels());
    } else {
      assert PostInit(p) == w;
    }
  }

  /** Shown indicators are keyed by their own name, with their label and
      line style `1`. */
  lemma PostInitIndicators(p: MhdProps, n: nat)
    requires p.showIndicators && n < |Indicators|
    ensures var r := PostInit(p); var q := Indicators[n];
      && q in r.labels && Ok(r.labels[q]) == QuantityLabel(p, q, "")
      && q in r.lineStyles && r.lineStyles[q] == "1"
  {
    IndicatorsDistinct();
    assert Indicators[n] !in Physical;
  }

  /** Labels and line styles are keyed by exactly the names of the physical
      quantities under every prefix, plus the indicators when shown. */
  lemma PostInitKeys(p: MhdProps, key: string)
    ensures var r := PostInit(p); var vs := VariantsOf(p);
      && (key in r.labels <==> key in r.lineStyles)
      && (key in r.labels <==>
           || (exists i, k :: 0 <= i < |vs| && 0 <= k < |Physical| && key == TableName(Physical[k], vs[i].prefix, p.dimension))
           || (p.showIndicators && key in Indicators))
  {
    IndicatorsDistinct();
    WriteQuantitiesKeys(p, key);
  }
}
