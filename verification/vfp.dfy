/** The pure rules inside the plotting functions of src/sapphireppplot/vfp.py:
    the calculators `scale_distribution_function` chains to rescale the
    distribution function, and the labels, axes and visible lines of
    `plot_f_lms_over_x` and `plot_f_lms_over_p`. The ParaView filters, views
    and screenshots are left to the caller. */
module Vfp {
  import opened Wrappers
  import opened Text
  import opened Seqs
  import opened Variants
  import opened PropertiesVfp
  import Transform

  // ---------------------------------------------------------------------------
  // scale_distribution_function

  /** The momentum coordinate of the phase space: the coordinate named after
      the last phase-space axis, `exp(...)` of it on a logarithmic momentum
      grid. Any other phase-space dimension fails an assertion. */
  function MomentumCoordinate(dimPs: int, logarithmicP: bool): (r: Result<string>)
    ensures r.Ok? <==> 1 <= dimPs <= 3
    ensures r.Err? ==> r.error.AssertionError?
    ensures r.Ok? ==>
      var coord := "coords" + ["XYZ"[dimPs - 1]];
      r.value == if logarithmicP then "exp(" + coord + ")" else coord
  {
    var coord :- match dimPs
      case 1 => Ok("coordsX")
      case 2 => Ok("coordsY")
      case 3 => Ok("coordsZ")
      case _ => Err(AssertionError(""));
    Ok(if logarithmicP then "exp(" + coord + ")" else coord)
  }

  /** A `Calculator` filter: the array it writes and its formula. */
  datatype Calculator = Calculator(resultArrayName: string, formula: string)

  /** The calculators, one per index in order: each writes the rescaled
      name and multiplies the original series by the momentum coordinate to
      the power of the spectral index. */
  function Calculators(pIn: VfpProps, p: VfpProps, lms: seq<Lms>, coord: string, spectralIndex: Float): (r: seq<Calculator>)
    ensures |r| == |lms|
    ensures forall k :: 0 <= k < |lms| ==>
      && r[k].resultArrayName == FLmsName(p, lms[k], "", None)
      && r[k].formula == coord + "^" + spectralIndex.repr + " * " + FLmsName(pIn, lms[k], "", None)
  {
    seq(|lms|, k requires 0 <= k < |lms| =>
      Calculator(FLmsName(p, lms[k], "", None), coord + "^" + spectralIndex.repr + " * " + FLmsName(pIn, lms[k], "", None)))
  }

  datatype Scaled = Scaled(properties: VfpProps, calculators: seq<Calculator>)

  /** The index list `scale_distribution_function` and the f_lms plots fall
      back to: `[[0, 0, 0]]`. */
  function DefaultIndices(lmsIndices: Option<seq<Lms>>): seq<Lms> {
    if lmsIndices.Some? then lmsIndices.value else [Lms(0, 0, 0)]
  }

  /** The default `spectral_index` of 4.0, which prints as `4.0`. */
  const DefaultSpectralIndex: Float := Float(4.0, "4", "4.0")

  function SpectralIndexOrDefault(spectralIndex: Option<Float>): Float {
    if spectralIndex.Some? then spectralIndex.value else DefaultSpectralIndex
  }

  /** One calculator per index, in order: each writes the rescaled series of
      `sc.properties` from the original series times the momentum coordinate
      `coord` to the power of the spectral index. */
  predicate Rescales(pIn: VfpProps, coord: string, spectralIndex: Float, lms: seq<Lms>, sc: Scaled) {
    && |sc.calculators| == |lms|
    && forall k :: 0 <= k < |lms| ==>
         && sc.calculators[k].resultArrayName == FLmsName(sc.properties, lms[k], "", None)
         && sc.calculators[k].formula == coord + "^" + spectralIndex.repr + " * " + FLmsName(pIn, lms[k], "", None)
  }

  /** The rescaling for explicit indices and an explicit spectral index. */
  function ScaleWith(pIn: VfpProps, lms: seq<Lms>, spectralIndex: Float): (r: Result<Scaled>)
    ensures r.Ok? <==> pIn.momentum && 1 <= pIn.dimPs <= 3
    ensures r.Err? ==> r.error.AssertionError?
    ensures r.Ok? ==>
      && r.value.properties == ScaleBySpectralIndex(pIn, spectralIndex, lms)
      && Rescales(pIn, MomentumCoordinate(pIn.dimPs, pIn.logarithmicP).value, spectralIndex, lms, r.value)
  {
    var p := ScaleBySpectralIndex(pIn, spectralIndex, lms);
    ScaleBySpectralIndexFrame(pIn, spectralIndex, lms);
    if !p.momentum then Err(AssertionError("Can only scale p-dependent data"))
    else
      var coord :- MomentumCoordinate(p.dimPs, p.logarithmicP);
      Ok(Scaled(p, Calculators(pIn, p, lms, coord, spectralIndex)))
  }

  /** `scale_distribution_function`: a rescaled copy of the properties, and
      the calculators that produce its series. The index list defaults to
      `[[0, 0, 0]]` and the spectral index to 4.0; data without momentum
      dependence or with an unsupported phase-space dimension fail an
      assertion. */
  function ScaleDistributionFunction(pIn: VfpProps, lmsIndices: Option<seq<Lms>>, spectralIndex: Option<Float>): (r: Result<Scaled>)
    ensures r.Ok? <==> pIn.momentum && 1 <= pIn.dimPs <= 3
    ensures r.Err? ==> r.error.AssertionError?
    ensures var lms := DefaultIndices(lmsIndices);
      var s := SpectralIndexOrDefault(spectralIndex);
      r.Ok? ==>
        && r.value.properties == ScaleBySpectralIndex(pIn, s, lms)
        && Rescales(pIn, MomentumCoordinate(pIn.dimPs, pIn.logarithmicP).value, s, lms, r.value)
  {
    ScaleWith(pIn, DefaultIndices(lmsIndices), SpectralIndexOrDefault(spectralIndex))
  }

  /** Leaving out the spectral index is the same as passing 4.0, and the
      rescaled properties then record 4.0 as their spectral index. */
  lemma DefaultSpectralIndexUsed(pIn: VfpProps, lmsIndices: Option<seq<Lms>>)
    requires pIn.momentum && 1 <= pIn.dimPs <= 3
    ensures ScaleDistributionFunction(pIn, lmsIndices, None) == ScaleDistributionFunction(pIn, lmsIndices, Some(DefaultSpectralIndex))
    ensures ScaleDistributionFunction(pIn, lmsIndices, None).value.properties.spectralIndex == Some(DefaultSpectralIndex)
  {
    ScaleBySpectralIndexFrame(pIn, DefaultSpectralIndex, DefaultIndices(lmsIndices));
  }

  /** Without the `numeric_` prefix the rescaled properties list every
      calculator output: the first variant's block is exactly the calculators'
      result arrays, in order. */
  lemma CalculatorsListed(pIn: VfpProps, lms: seq<Lms>, spectralIndex: Float, k: nat)
    requires pIn.momentum && 1 <= pIn.dimPs <= 3 && !pIn.prefixNumeric
    requires k < |lms|
    ensures var r := ScaleDistributionFunction(pIn, Some(lms), Some(spectralIndex)).value;
      && k < |r.properties.seriesNames.value|
      && r.properties.seriesNames.value[k] == r.calculators[k].resultArrayName
  {
    var q := pIn.(spectralIndex := Some(spectralIndex), seriesNames := Some([]));
    var r := ScaleDistributionFunction(pIn, Some(lms), Some(spectralIndex)).value;
    var names := SeriesFor(q, lms);
    assert VariantsOf(q)[0].prefix == "";
    SeriesForOrder(q, lms);
    assert AtRowMajor(names, |lms|, 0, k, FLmsName(q, lms[k], "", None));
    assert names[k] == FLmsName(q, lms[k], "", None);
    ScaledPrefix(pIn, spectralIndex, lms);
    assert r.properties.spectralIndex == q.spectralIndex;
    assert r.properties.seriesNames.value[k] == names[k];
  }

  /** The rescaled series list starts with the prefix loop's names. */
  lemma ScaledPrefix(p: VfpProps, spectralIndex: Float, lms: seq<Lms>)
    ensures var q := p.(spectralIndex := Some(spectralIndex), seriesNames := Some([]));
      SeriesFor(q, lms) <= ScaleBySpectralIndex(p, spectralIndex, lms).seriesNames.value
  {
    var q := p.(spectralIndex := Some(spectralIndex), seriesNames := Some([]));
    var w := WriteSeries(q, lms);
    if p.debugInputFunctions {
      assert ScaleBySpectralIndex(p, spectralIndex, lms) == AddDebugInputFunctions(w, lms, "func_", "1");
    } else {
      assert ScaleBySpectralIndex(p, spectralIndex, lms) == w;
    }
  }

  /** The series list of `__post_init__` starts with the prefix loop's names. */
  lemma PostInitPrefix(p: VfpProps)
    ensures SeriesFor(Initialised(p), LmsIndices(p.expansionOrder)) <= PostInit(p).seriesNames.value
  {
    var w := WriteSeries(Initialised(p), LmsIndices(p.expansionOrder));
    if p.debugInputFunctions {
      assert PostInit(p) == AddDebugInputFunctions(w, LmsIndices(p.expansionOrder), "func_", "1");
    } else {
      assert PostInit(p) == w;
    }
  }

  // ---------------------------------------------------------------------------
  // plot_f_lms_over_x and plot_f_lms_over_p

  /** The y-axis label: the label of the one index plotted, or the generic
      `l m s` label for several. */
  function YLabel(p: VfpProps, lms: seq<Lms>): string {
    if |lms| == 1 then FLmsLabel(p, Written(lms[0]), "", None) else FLmsLabel(p, Symbolic, "", None)
  }

  /** The label is index-specific exactly when one index is plotted: a
      written index never reads `l`. */
  lemma YLabelSpecific(p: VfpProps, lms: seq<Lms>)
    ensures YLabel(p, lms) == FLmsLabel(p, Symbolic, "", None) <==> |lms| != 1
  {
    if |lms| == 1 {
      var l := IntToString(lms[0].l);
      LabelIndexChar(p, Written(lms[0]));
      LabelIndexChar(p, Symbolic);
      assert l[0] == '-' || IsDigit(l[0]);
    }
  }

  /** The first character of the `l` text sits right after the label's
      opening `$<var>_{ `. */
  lemma LabelIndexChar(p: VfpProps, idx: IndexText)
    requires |idx.l| > 0
    ensures var head := "$" + VariableName(p.spectralIndex, None) + "_{ ";
      |head| < |FLmsLabel(p, idx, "", None)| && FLmsLabel(p, idx, "", None)[|head|] == idx.l[0]
  {
    var head := "$" + VariableName(p.spectralIndex, None) + "_{ ";
    var tail := " " + idx.m + " " + idx.s + " " + "" + " }$";
    assert FLmsLabel(p, idx, "", None) == head + (idx.l + tail);
  }

  /** The visible lines of both plots: for each index in order, its name
      under the numeric-or-plain prefix, then `project_`, then `interpol_`. */
  function VisibleFLms(p: VfpProps, lms: seq<Lms>): (r: seq<string>)
    ensures |r| == |lms| * |VisiblePrefixes(p.prefixNumeric, p.project, p.interpol)|
  {
    var prefixes := VisiblePrefixes(p.prefixNumeric, p.project, p.interpol);
    VisibleLinesLength(lms, prefixes, LineName(p));
    VisibleLines(lms, prefixes, LineName(p)).value
  }

  /** `f_lms_name` with the default base name, which never fails. */
  function LineName(p: VfpProps): (Lms, string) -> Result<string> {
    (idx, prefix) => Ok(FLmsName(p, idx, prefix, None))
  }

  /** Every visible line of a table index is a series `__post_init__` lists:
      the plots only show loaded series. */
  lemma VisibleFLmsLoaded(p: VfpProps, lms: seq<Lms>, i: nat, j: nat)
    requires forall k :: 0 <= k < |lms| ==> lms[k] in LmsIndices(p.expansionOrder)
    requires i < |lms| && j < |VisiblePrefixes(p.prefixNumeric, p.project, p.interpol)|
    ensures var prefixes := VisiblePrefixes(p.prefixNumeric, p.project, p.interpol);
      && AtRowMajor(VisibleFLms(p, lms), |prefixes|, i, j, FLmsName(p, lms[i], prefixes[j], None))
      && FLmsName(p, lms[i], prefixes[j], None) in PostInit(p).seriesNames.value
  {
    VisibleFLmsAt(p, lms, i, j);
    var table := LmsIndices(p.expansionOrder);
    assert lms[i] in table;
    var t :| 0 <= t < |table| && table[t] == lms[i];
    VisiblePrefixesAreVariants(p.prefixNumeric, p.project, p.interpol, p.annotation);
    PostInitMember(p, j, t);
  }

  /** The line for prefix `j` of index `i` sits at position `i * |prefixes| + j`. */
  lemma VisibleFLmsAt(p: VfpProps, lms: seq<Lms>, i: nat, j: nat)
    requires i < |lms| && j < |VisiblePrefixes(p.prefixNumeric, p.project, p.interpol)|
    ensures var prefixes := VisiblePrefixes(p.prefixNumeric, p.project, p.interpol);
      AtRowMajor(VisibleFLms(p, lms), |prefixes|, i, j, FLmsName(p, lms[i], prefixes[j], None))
  {
    var prefixes := VisiblePrefixes(p.prefixNumeric, p.project, p.interpol);
    VisibleLinesAt(lms, prefixes, LineName(p), i, j);
  }

  /** The name of variant `i` and table index `t` is a `__post_init__` series. */
  lemma PostInitMember(p: VfpProps, i: nat, t: nat)
    requires i < |VariantsOf(p)| && t < |LmsIndices(p.expansionOrder)|
    ensures FLmsName(p, LmsIndices(p.expansionOrder)[t], VariantsOf(p)[i].prefix, None) in PostInit(p).seriesNames.value
  {
    var q := Initialised(p);
    assert VariantsOf(q) == VariantsOf(p);
    SeriesForMember(q, LmsIndices(p.expansionOrder), i, t);
    PostInitPrefix(p);
  }

  /** The name of variant `i` and index `j` is among the prefix loop's names. */
  lemma SeriesForMember(p: VfpProps, lms: seq<Lms>, i: nat, j: nat)
    requires i < |VariantsOf(p)| && j < |lms|
    ensures FLmsName(p, lms[j], VariantsOf(p)[i].prefix, None) in SeriesFor(p, lms)
  {
    var blocks := NameBlocks(p, VariantsOf(p), lms);
    var x := FLmsName(p, lms[j], VariantsOf(p)[i].prefix, None);
    assert blocks[i][j] == x;
    FlattenMembership(blocks, x);
  }

  /** The x-axis of `plot_f_lms_over_x`: array and label. */
  datatype XAxis = XAxis(arrayName: string, text: string)

  /** A point list is plotted over the distance `d` without a named array; a
      coordinate direction over its point coordinate; `d` over the arc
      length. Any other name is a `ValueError`. */
  function XAxisOverX(direction: Transform.Direction): (r: Result<XAxis>)
    ensures direction.Line? ==> r == Ok(XAxis("", "$d$"))
    ensures direction.Named? && Transform.AxisOf(direction.name).Some? ==>
      r == Ok(XAxis("Points_" + ["XYZ"[Transform.AxisOf(direction.name).value]], "$" + direction.name + "$"))
    ensures direction.Named? && direction.name == "d" ==> r == Ok(XAxis("arc_length", "$d$"))
    ensures r.Err? <==> direction.Named? && direction.name != "d" && Transform.AxisOf(direction.name).None?
    ensures r.Err? ==> r.error.ValueError?
  {
    match direction
    case Line(_) => Ok(XAxis("", "$d$"))
    case Named(name) =>
      if name == "x" then
        assert "Points_" + ["XYZ"[0]] == "Points_X" && "$" + name + "$" == "$x$";
        Ok(XAxis("Points_X", "$x$"))
      else if name == "y" then
        assert "Points_" + ["XYZ"[1]] == "Points_Y" && "$" + name + "$" == "$y$";
        Ok(XAxis("Points_Y", "$y$"))
      else if name == "z" then
        assert "Points_" + ["XYZ"[2]] == "Points_Z" && "$" + name + "$" == "$z$";
        Ok(XAxis("Points_Z", "$z$"))
      else if name == "d" then Ok(XAxis("arc_length", "$d$"))
      else Err(ValueError("Unknown direction " + name))
  }

  /** The plot accepts the same direction names as the line it samples, and
      the arc length it plots over is among the arrays saved with that line. */
  lemma XAxisMatchesLine(direction: Transform.Direction, offset: Option<seq<real>>, bounds: Transform.Bounds,
                         seriesNames: Option<seq<string>>)
    ensures XAxisOverX(direction).Err? <==>
      Transform.LineEndpoints(direction, offset, bounds).Err? && Transform.LineEndpoints(direction, offset, bounds).error.ValueError?
    ensures XAxisOverX(direction).Ok? && XAxisOverX(direction).value.arrayName == "arc_length" ==>
      "arc_length" in Transform.SavedArrays(seriesNames, direction)
  {
  }

  /** The momentum axis of `plot_f_lms_over_p`: the direction of the line
      along which momentum varies, and its point-coordinate array. */
  datatype PAxis = PAxis(direction: string, arrayName: string, text: string)

  /** The momentum axis is the last phase-space axis; its label reads
      `ln p` on a logarithmic grid. Any other phase-space dimension fails an
      assertion. */
  function PAxisOverP(dimPs: int, logarithmicP: bool): (r: Result<PAxis>)
    ensures r.Ok? <==> 1 <= dimPs <= 3
    ensures r.Err? ==> r.error.AssertionError?
    ensures r.Ok? ==>
      && r.value.direction == ["xyz"[dimPs - 1]]
      && r.value.arrayName == "Points_" + ["XYZ"[dimPs - 1]]
      && (r.value.text == @"$\ln p$" <==> logarithmicP)
      && (!logarithmicP ==> r.value.text == "$p$")
  {
    var axis :- match dimPs
      case 1 => Ok(("x", "Points_X"))
      case 2 => Ok(("y", "Points_Y"))
      case 3 => Ok(("z", "Points_Z"))
      case _ => Err(AssertionError(""));
    Ok(PAxis(axis.0, axis.1, if logarithmicP then @"$\ln p$" else "$p$"))
  }

  /** The momentum plot samples along the axis whose coordinate the
      rescaling calculators use, and that axis is a coordinate direction the
      x-plot names by the same array. */
  lemma MomentumAxisAgrees(dimPs: int, logarithmicP: bool)
    requires 1 <= dimPs <= 3
    ensures var axis := PAxisOverP(dimPs, logarithmicP).value;
      && MomentumCoordinate(dimPs, false).value == "coords" + [axis.arrayName[7]]
      && XAxisOverX(Transform.Named(axis.direction)).Ok?
      && XAxisOverX(Transform.Named(axis.direction)).value.arrayName == axis.arrayName
  {
  }

  /** What `plot_f_lms_over_x` and `plot_f_lms_over_p` hand to the line
      chart: the sampling direction, the x-axis array and label, the y-axis
      label and the visible lines. */
  datatype FLmsPlot = FLmsPlot(direction: Transform.Direction, xArrayName: string, xLabel: string,
                               yLabel: string, visibleLines: seq<string>)

  /** `plot_f_lms_over_x` up to the ParaView calls: fails with a
      `ValueError` exactly for an unknown direction name; the y-axis names
      the index when exactly one is plotted, which the default `[[0, 0, 0]]`
      is; every index shows one line per visible prefix. */
  function PlotFLmsOverX(p: VfpProps, lmsIndices: Option<seq<Lms>>, direction: Transform.Direction): (r: Result<FLmsPlot>)
    ensures r.Ok? <==> XAxisOverX(direction).Ok?
    ensures r.Err? ==> r.error.ValueError?
    ensures r.Ok? ==>
      var lms := DefaultIndices(lmsIndices);
      && r.value.direction == direction
      && (r.value.yLabel == FLmsLabel(p, Symbolic, "", None) <==> |lms| != 1)
      && (lmsIndices.None? ==> r.value.yLabel == FLmsLabel(p, Written(Lms(0, 0, 0)), "", None))
      && r.value.visibleLines == VisibleFLms(p, lms)
      && XAxisOverX(direction) == Ok(XAxis(r.value.xArrayName, r.value.xLabel))
  {
    var lms := DefaultIndices(lmsIndices);
    YLabelSpecific(p, lms);
    var axis :- XAxisOverX(direction);
    Ok(FLmsPlot(direction, axis.arrayName, axis.text, YLabel(p, lms), VisibleFLms(p, lms)))
  }

  /** `plot_f_lms_over_p` up to the ParaView calls: samples along the last
      phase-space axis, over `ln p` on a logarithmic grid; an unsupported
      phase-space dimension fails an assertion. */
  function PlotFLmsOverP(p: VfpProps, lmsIndices: Option<seq<Lms>>): (r: Result<FLmsPlot>)
    ensures r.Ok? <==> 1 <= p.dimPs <= 3
    ensures r.Err? ==> r.error.AssertionError?
    ensures r.Ok? ==>
      var lms := DefaultIndices(lmsIndices);
      && r.value.direction == Transform.Named(["xyz"[p.dimPs - 1]])
      && r.value.xArrayName == "Points_" + ["XYZ"[p.dimPs - 1]]
      && (r.value.xLabel == @"$\ln p$" <==> p.logarithmicP)
      && (r.value.yLabel == FLmsLabel(p, Symbolic, "", None) <==> |lms| != 1)
      && r.value.visibleLines == VisibleFLms(p, lms)
  {
    var lms := DefaultIndices(lmsIndices);
    YLabelSpecific(p, lms);
    var axis :- PAxisOverP(p.dimPs, p.logarithmicP);
    Ok(FLmsPlot(Transform.Named(axis.direction), axis.arrayName, axis.text, YLabel(p, lms), VisibleFLms(p, lms)))
  }
}
