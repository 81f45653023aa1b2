/** The older `PlotPropertiesMHD` of src/sapphireppplot/mhd.py, which
    `PlotPropertiesAthena` extends: four debug indicators, dictionary lookups
    without fallback, and the title and visible-line rules of
    `plot_quantities_1d`. */
module Mhd {
  import opened Wrappers
  import opened Seqs
  import opened Variants
  import opened Quantities

  const Indicators: seq<string> := ["magnetic_divergence", "shock_indicator", "positivity_limiter", "subdomian"]

  lemma IndicatorsDistinct()
    ensures Distinct(Indicators)
  {
  }

  function IndicatorLabel(q: string): string
    requires q in Indicators
  {
    if q == "magnetic_divergence" then @"$\nabla \cdot \mathbf{B}$"
    else if q == "shock_indicator" then "Shock Indicator"
    else if q == "positivity_limiter" then "Pos. Limiter"
    else "Subdomain"
  }

  /** `quantity_name`: indicators pass through unprefixed, physical
      quantities get the prefix and their dimension-dependent name, and any
      other quantity fails the dictionary lookup with a `KeyError`. */
  function QuantityName(p: MhdProps, quantity: string, prefix: string): (r: Result<string>)
    ensures r.Ok? <==> quantity in Indicators || quantity in Physical
    ensures quantity in Indicators ==> r == Ok(quantity)
    ensures quantity in Physical ==> r == Ok(prefix + ReferenceName(quantity, p.dimension))
    ensures r.Err? ==> r.error == KeyError(quantity)
  {
    NameTableRule(p.dimension, quantity);
    if quantity in Indicators then Ok(quantity)
    else
      var table := NameTable(p.dimension);
      if quantity in table then Ok(prefix + table[quantity])
      else Err(KeyError(quantity))
  }

  /** `quantity_label`: the table label, annotated for physical quantities;
      a `KeyError` for anything else. */
  function QuantityLabel(quantity: string, annotation: string): (r: Result<string>)
    ensures r.Ok? <==> quantity in Indicators || quantity in Physical
    ensures quantity in Physical ==> r == Ok(PhysicalLabel(quantity, annotation))
    ensures quantity in Indicators ==> r == Ok(IndicatorLabel(quantity))
    ensures r.Err? ==> r.error == KeyError(quantity)
  {
    if quantity in Physical then Ok(PhysicalLabel(quantity, annotation))
    else if quantity in Indicators then Ok(IndicatorLabel(quantity))
    else Err(KeyError(quantity))
  }

  function IndicatorLabels(): (r: seq<string>)
    ensures |r| == |Indicators|
    ensures forall n :: 0 <= n < |Indicators| ==> r[n] == IndicatorLabel(Indicators[n])
  {
    seq(|Indicators|, n requires 0 <= n < |Indicators| => IndicatorLabel(Indicators[n]))
  }

  /** `__post_init__`, without its line colours. */
  function PostInit(p: MhdProps): (r: MhdProps)
    ensures r == p.(seriesNames := r.seriesNames, labels := r.labels, lineStyles := r.lineStyles)
    ensures r.seriesNames.Some?
  {
    var q := WriteQuantities(p);
    IndicatorsDistinct();
    if p.showIndicators then AddIndicators(q, Indicators, IndicatorLabels()) else q
  }

  /** Per variant seven series plus three per unresolved axis, in variant
      order; the four indicators follow once, at the end, iff they are shown. */
  lemma PostInitSeries(p: MhdProps)
    ensures var vs := VariantsOf(p); var n := |SeriesBlock("", p.dimension)|; var s := PostInit(p).seriesNames.value;
      && |s| == |vs| * n + (if p.showIndicators then |Indicators| else 0)
      && (forall i, j :: 0 <= i < |vs| && 0 <= j < n ==> AtRowMajor(s, n, i, j, SeriesBlock(vs[i].prefix, p.dimension)[j]))
      && (p.showIndicators ==> s[|vs| * n..] == Indicators)
  {
    var vs := VariantsOf(p);
    var n := |SeriesBlock("", p.dimension)|;
    var w := WriteQuantities(p).seriesNames.value;
    var tail := if p.showIndicators then Indicators else [];
    PostInitSplit(p);
    WriteQuantitiesSeries(p);
    assert |w| == |vs| * n;
    assert (w + tail)[|w|..] == tail;
    assert SeriesInOrder(w, vs, p.dimension);
    SeriesInOrderAppend(w, tail, vs, p.dimension);
    assert SeriesInOrder(PostInit(p).seriesNames.value, vs, p.dimension);
  }

  /** The series list is the prefix loop's, followed by the shown indicators. */
  lemma PostInitSplit(p: MhdProps)
    ensures PostInit(p).seriesNames.value
         == WriteQuantities(p).seriesNames.value + (if p.showIndicators then Indicators else [])
  {
    IndicatorsDistinct();
    var w := WriteQuantities(p);
    if p.showIndicators {
      assert PostInit(p) == AddIndicators(w, Indicators, IndicatorLabels());
    } else {
      assert PostInit(p) == w;
    }
  }

  lemma NotIndicator(key: string)
    requires KeyShape(key)
    ensures key !in Indicators
  {
  }

  /** Every physical quantity of every variant is keyed by its
      `quantity_name` and carries its annotated `quantity_label` and the
      variant's line style. */
  lemma PostInitQuantities(p: MhdProps, i: nat, k: nat)
    requires i < |VariantsOf(p)| && k < |Physical|
    ensures var v := VariantsOf(p)[i]; var r := PostInit(p);
      var name := QuantityName(p, Physical[k], v.prefix);
      && name.Ok?
      && name.value in r.labels && Ok(r.labels[name.value]) == QuantityLabel(Physical[k], v.labelPostfix)
      && name.value in r.lineStyles && r.lineStyles[name.value] == v.lineStyle
  {
    var vs := VariantsOf(p);
    var v := vs[i];
    var q := Physical[k];
    var key := TableName(q, v.prefix, p.dimension);
    NameTableRule(p.dimension, q);
    assert QuantityName(p, q, v.prefix) == Ok(key);
    WriteQuantitiesValues(p, i, k);
    var w := WriteQuantities(p);
    IndicatorsDistinct();
    if p.showIndicators {
      assert key == KeyBlocks(vs, p.dimension)[i][k];
      FlattenMembership(KeyBlocks(vs, p.dimension), key);
      KeysShape(p, key);
      NotIndicator(key);
      assert PostInit(p) == AddIndicators(w, Indicators, IndicatorLabels());
    } else {
      assert PostInit(p) == w;
    }
  }

  /** Shown indicators are keyed by their own name, with their label and
      line style `1`. */
  lemma PostInitIndicators(p: MhdProps, n: nat)
    requires p.showIndicators && n < |Indicators|
    ensures var r := PostInit(p); var q := Indicators[n];
      && q in r.labels && Ok(r.labels[q]) == QuantityLabel(q, "")
      && q in r.lineStyles && r.lineStyles[q] == "1"
  {
    IndicatorsDistinct();
    assert Indicators[n] !in Physical;
  }

  // ---------------------------------------------------------------------------
  // plot_quantities_1d

  /** What `plot_quantities_1d` hands to the line-chart view. */
  datatype LinePlot = LinePlot(title: string, visibleLines: seq<string>)

  const StateTitle: string := @"$\mathbf{w}(x)$"

  /** The title and visible lines of `plot_quantities_1d`, for any
      properties class given by its `quantity_name` and `quantity_label`
      (without annotation): a single quantity is titled by its label, several
      by the state vector; each quantity shows one line per visible prefix.
      The first failing lookup, title first, is the result. */
  function PlotQuantities1d(prefixNumeric: bool, project: bool, interpol: bool, quantities: seq<string>,
                            name: (string, string) -> Result<string>, labelOf: string -> Result<string>): (r: Result<LinePlot>)
    ensures var prefixes := VisiblePrefixes(prefixNumeric, project, interpol);
      r.Ok? <==> (|quantities| == 1 ==> labelOf(quantities[0]).Ok?)
                 && forall i, j :: 0 <= i < |quantities| && 0 <= j < |prefixes| ==> name(quantities[i], prefixes[j]).Ok?
    ensures r.Ok? && |quantities| == 1 ==> Ok(r.value.title) == labelOf(quantities[0])
    ensures r.Ok? && |quantities| != 1 ==> r.value.title == StateTitle
    ensures r.Ok? ==> r.value.visibleLines == VisibleLines(quantities, VisiblePrefixes(prefixNumeric, project, interpol), name).value
    ensures |quantities| == 1 && labelOf(quantities[0]).Err? ==> r == Err(labelOf(quantities[0]).error)
    ensures (|quantities| != 1 || labelOf(quantities[0]).Ok?)
            && VisibleLines(quantities, VisiblePrefixes(prefixNumeric, project, interpol), name).Err?
        ==> r == Err(VisibleLines(quantities, VisiblePrefixes(prefixNumeric, project, interpol), name).error)
  {
    var title :- if |quantities| == 1 then labelOf(quantities[0]) else Ok(StateTitle);
    var lines :- VisibleLines(quantities, VisiblePrefixes(prefixNumeric, project, interpol), name);
    Ok(LinePlot(title, lines))
  }

  /** `quantity_name` of these properties, as the closure the plot calls. */
  function NameOf(p: MhdProps): (string, string) -> Result<string>
  {
    (q, pre) => QuantityName(p, q, pre)
  }

  /** `quantity_label` without annotation, as the closure the plot calls. */
  function LabelOf(): string -> Result<string>
  {
    q => QuantityLabel(q, "")
  }

  /** With these properties a plot succeeds exactly when every quantity is
      physical or an indicator. */
  lemma PlotQuantities1dMhdSucceeds(p: MhdProps, quantities: seq<string>)
    ensures PlotQuantities1d(p.prefixNumeric, p.project, p.interpol, quantities,
                             NameOf(p), LabelOf()).Ok?
        <==> forall i :: 0 <= i < |quantities| ==> quantities[i] in Physical || quantities[i] in Indicators
  {
    var prefixes := VisiblePrefixes(p.prefixNumeric, p.project, p.interpol);
    var name := NameOf(p);
    assert |prefixes| >= 1;
    if !(forall i :: 0 <= i < |quantities| ==> quantities[i] in Physical || quantities[i] in Indicators) {
      var i :| 0 <= i < |quantities| && quantities[i] !in Physical && quantities[i] !in Indicators;
      assert !name(quantities[i], prefixes[0]).Ok?;
    }
  }

  /** Line `j` of quantity `i` is the quantity's series under visible prefix
      `j`, or the bare indicator. */
  lemma PlotQuantities1dMhdLines(p: MhdProps, quantities: seq<string>, i: nat, j: nat)
    requires forall i :: 0 <= i < |quantities| ==> quantities[i] in Physical || quantities[i] in Indicators
    requires i < |quantities| && j < |VisiblePrefixes(p.prefixNumeric, p.project, p.interpol)|
    ensures var prefixes := VisiblePrefixes(p.prefixNumeric, p.project, p.interpol);
      var r := PlotQuantities1d(p.prefixNumeric, p.project, p.interpol, quantities,
                                NameOf(p), LabelOf());
      && r.Ok?
      && |r.value.visibleLines| == |quantities| * |prefixes|
      && AtRowMajor(r.value.visibleLines, |prefixes|, i, j,
                    if quantities[i] in Indicators then quantities[i]
                    else prefixes[j] + ReferenceName(quantities[i], p.dimension))
  {
    var prefixes := VisiblePrefixes(p.prefixNumeric, p.project, p.interpol);
    var name := NameOf(p);
    PlotQuantities1dMhdVisible(p, quantities);
    VisibleLinesLength(quantities, prefixes, name);
    VisibleLinesAt(quantities, prefixes, name, i, j);
    NameOfValue(p, quantities[i], prefixes[j]);
  }

  /** A successful plot shows exactly the visible lines of the name closure. */
  lemma PlotQuantities1dMhdVisible(p: MhdProps, quantities: seq<string>)
    requires forall i :: 0 <= i < |quantities| ==> quantities[i] in Physical || quantities[i] in Indicators
    ensures var r := PlotQuantities1d(p.prefixNumeric, p.project, p.interpol, quantities, NameOf(p), LabelOf());
      && r.Ok?
      && VisibleLines(quantities, VisiblePrefixes(p.prefixNumeric, p.project, p.interpol), NameOf(p)).Ok?
      && r.value.visibleLines == VisibleLines(quantities, VisiblePrefixes(p.prefixNumeric, p.project, p.interpol), NameOf(p)).value
  {
    PlotQuantities1dMhdSucceeds(p, quantities);
  }

  /** The name closure on a physical quantity or an indicator. */
  lemma NameOfValue(p: MhdProps, q: string, prefix: string)
    requires q in Physical || q in Indicators
    ensures NameOf(p)(q, prefix) == Ok(if q in Indicators then q else prefix + ReferenceName(q, p.dimension))
  {
    assert NameOf(p)(q, prefix) == QuantityName(p, q, prefix);
  }
}
