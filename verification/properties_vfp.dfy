/** `PlotPropertiesVFP` (src/sapphireppplot/plot_properties_vfp.py): the
    spherical-harmonic index table of a VFP solution, the series names and
    labels of its expansion coefficients `f_lms`, and the series list with
    labels and line styles that initialisation and rescaling by a spectral
    index produce. */
module PropertiesVfp {
  import opened Wrappers
  import opened Text
  import opened Seqs
  import opened Variants

  /** A spherical-harmonic index `[l, m, s]`. */
  datatype Lms = Lms(l: int, m: int, s: int)

  /** A Python float together with its renderings by format spec `g` and by
      `str()`; the model does not compute floating-point text. */
  datatype Float = Float(value: real, formatG: string, repr: string)

  /** Python truthiness of an `Optional[float]`: set and non-zero. */
  predicate Truthy(x: Option<Float>) {
    x.Some? && x.value.value != 0.0
  }

  /** The fields of a `PlotPropertiesVFP` the modelled code reads or writes. */
  datatype VfpProps = VfpProps(
    seriesNames: Option<seq<string>>,
    dataType: string,
    labels: map<string, string>,
    lineStyles: map<string, string>,
    dimension: int,
    momentum: bool,
    dimPs: int,
    dimCs: int,
    logarithmicP: bool,
    expansionOrder: int,
    debugInputFunctions: bool,
    prefixNumeric: bool,
    project: bool,
    interpol: bool,
    annotation: string,
    spectralIndex: Option<Float>)

  // ---------------------------------------------------------------------------
  // The index table of create_lms_indices

  /** An index the table can hold: `0 <= m <= l`, `s` is 0 or 1, and `s` is 0
      when `m` is 0. */
  predicate WellFormed(e: Lms) {
    && 0 <= e.m <= e.l
    && (e.s == 0 || e.s == 1)
    && (e.m == 0 ==> e.s == 0)
  }

  function Abs(x: int): nat {
    if x < 0 then -x else x
  }

  /** The triple the table loop records when its signed counter is `m` at
      degree `l`. */
  function Entry(l: nat, m: int): Lms {
    Lms(l, Abs(m), if m <= 0 then 0 else 1)
  }

  /** The `2l + 1` triples of degree `l`, in table order. */
  function Block(l: nat): (r: seq<Lms>)
    ensures |r| == 2 * l + 1
    ensures forall k :: 0 <= k <= l ==> r[k] == Lms(l, l - k, 0)
    ensures forall k :: l < k <= 2 * l ==> r[k] == Lms(l, k - l, 1)
  {
    var r := seq(2 * l + 1, k requires 0 <= k < 2 * l + 1 => Entry(l, k - l));
    assert forall k :: 0 <= k < 2 * l + 1 ==> r[k] == Entry(l, k - l);
    r
  }

  /** The blocks of degrees `0 .. n-1`, one after the other. */
  function Blocks(n: nat): (r: seq<Lms>)
    ensures |r| == n * n
  {
    if n == 0 then [] else Blocks(n - 1) + Block(n - 1)
  }

  /** The table `create_lms_indices(n)` returns: its loop runs `(n+1)^2`
      times, which completes exactly `|n+1|` degree blocks. */
  function LmsIndices(expansionOrder: int): (r: seq<Lms>)
    ensures |r| == (expansionOrder + 1) * (expansionOrder + 1)
  {
    AbsSquare(expansionOrder + 1);
    Blocks(Abs(expansionOrder + 1))
  }

  lemma AbsSquare(x: int)
    ensures Abs(x) * Abs(x) == x * x
  {
    if x < 0 {
      assert Abs(x) * Abs(x) == (-x) * (-x);
    }
  }

  /** Degree `l` starts at position `l * l`. */
  lemma {:induction false} BlocksAt(n: nat, l: nat, k: nat)
    requires l < n && k <= 2 * l
    ensures l * l + k < |Blocks(n)|
    ensures Blocks(n)[l * l + k] == Block(l)[k]
    decreases n
  {
    if l < n - 1 {
      BlocksAt(n - 1, l, k);
    }
  }

  /** Every position of the table lies in the block of its degree. */
  lemma {:induction false} BlocksPosition(n: nat, i: nat)
    requires i < |Blocks(n)|
    ensures var e := Blocks(n)[i]; 0 <= e.l < n && e.l * e.l <= i < e.l * e.l + 2 * e.l + 1
    ensures var e := Blocks(n)[i]; e == Block(e.l)[i - e.l * e.l]
    decreases n
  {
    if i >= (n - 1) * (n - 1) {
      assert Blocks(n)[i] == Block(n - 1)[i - (n - 1) * (n - 1)];
    } else {
      BlocksPosition(n - 1, i);
    }
  }

  /** The table holds exactly the well-formed indices of degree below `n`. */
  lemma BlocksMembership(n: nat, e: Lms)
    ensures e in Blocks(n) <==> WellFormed(e) && 0 <= e.l < n
  {
    if e in Blocks(n) {
      var i :| 0 <= i < |Blocks(n)| && Blocks(n)[i] == e;
      BlocksPosition(n, i);
    }
    if WellFormed(e) && 0 <= e.l < n {
      var k := if e.s == 0 then e.l - e.m else e.l + e.m;
      BlocksAt(n, e.l, k);
    }
  }

  /** Degrees never decrease along the table. */
  lemma BlocksDegreeSorted(n: nat)
    ensures forall i, j :: 0 <= i <= j < |Blocks(n)| ==> Blocks(n)[i].l <= Blocks(n)[j].l
  {
    forall i, j | 0 <= i <= j < |Blocks(n)|
      ensures Blocks(n)[i].l <= Blocks(n)[j].l
    {
      BlocksPosition(n, i);
      BlocksPosition(n, j);
    }
  }

  lemma MulMonotone(x: nat, y: nat)
    requires x <= y
    ensures x * x <= y * y
  {
    assert x * x <= x * y <= y * y;
  }

  /** No index occurs twice in the table. */
  lemma BlocksDistinct(n: nat)
    ensures Distinct(Blocks(n))
  {
    forall i, j | 0 <= i < j < |Blocks(n)|
      ensures Blocks(n)[i] != Blocks(n)[j]
    {
      BlocksPosition(n, i);
      BlocksPosition(n, j);
      var a, b := Blocks(n)[i].l, Blocks(n)[j].l;
      if a == b {
        assert i - a * a != j - a * a;
      }
    }
  }

  /** The table loop of `create_lms_indices`, with its signed order counter. */
  method CreateLmsIndices(expansionOrder: int) returns (r: seq<Lms>)
    ensures |r| == (expansionOrder + 1) * (expansionOrder + 1)
    ensures r == LmsIndices(expansionOrder)
    ensures forall e :: e in r ==> WellFormed(e) && e.l < Abs(expansionOrder + 1)
    ensures Distinct(r)
  {
    var systemSize := (expansionOrder + 1) * (expansionOrder + 1);
    r := [];
    var l: nat := 0;
    var m: int := 0;
    var i := 0;
    while i < systemSize
      invariant 0 <= i <= systemSize
      invariant -(l as int) <= m <= l
      invariant i == l * l + (m + l)
      invariant r == Blocks(l) + Block(l)[..m + l]
    {
      var s := if m <= 0 then 0 else 1;
      LoopStep(l, m);
      r := r + [Lms(l, Abs(m), s)];
      m := m + 1;
      if m > l {
        l := l + 1;
        m := -(l as int);
      }
      i := i + 1;
    }
    LoopExit(l, m, expansionOrder);
    TableFacts(Abs(expansionOrder + 1));
  }

  /** When the counter reaches `(n+1)^2` the loop has built the whole table. */
  lemma LoopExit(l: nat, m: int, expansionOrder: int)
    requires -(l as int) <= m <= l
    requires l * l + (m + l) == (expansionOrder + 1) * (expansionOrder + 1)
    ensures Blocks(l) + Block(l)[..m + l] == LmsIndices(expansionOrder)
    ensures l == Abs(expansionOrder + 1)
  {
    var n := Abs(expansionOrder + 1);
    AbsSquare(expansionOrder + 1);
    SquareBetween(l, m + l, n);
    assert Block(l)[..m + l] == [];
  }

  /** One loop iteration appends the next triple and advances the counter,
      moving to the next degree after `m == l`. */
  lemma LoopStep(l: nat, m: int)
    requires -(l as int) <= m <= l
    ensures Blocks(l) + Block(l)[..m + l] + [Lms(l, Abs(m), if m <= 0 then 0 else 1)]
         == if m + 1 > l then Blocks(l + 1) + Block(l + 1)[..0] else Blocks(l) + Block(l)[..m + 1 + l]
    ensures l * l + (m + l) + 1 == if m + 1 > l then (l + 1) * (l + 1) else l * l + (m + 1 + l)
  {
    assert Block(l)[..m + l + 1] == Block(l)[..m + l] + [Entry(l, m)];
    if m + 1 > l {
      assert Block(l)[..m + l + 1] == Block(l);
    }
  }

  /** The table's indices are well-formed, of degree below `n`, and distinct. */
  lemma TableFacts(n: nat)
    ensures forall e :: e in Blocks(n) ==> WellFormed(e) && e.l < n
    ensures Distinct(Blocks(n))
  {
    forall e | e in Blocks(n)
      ensures WellFormed(e) && e.l < n
    {
      BlocksMembership(n, e);
    }
    BlocksDistinct(n);
  }

  /** `l * l + j` with `0 <= j <= 2l` equals a square `K * K` only for
      `l == K` and `j == 0`. */
  lemma SquareBetween(l: nat, j: int, K: nat)
    requires 0 <= j <= 2 * l
    requires l * l + j == K * K
    ensures l == K && j == 0
  {
    if l < K {
      MulMonotone(l + 1, K);
    } else if l > K {
      MulMonotone(K + 1, l);
    }
  }

  // ---------------------------------------------------------------------------
  // Series names and labels of one coefficient

  /** The base of a series name: `baseName` when given and non-empty, else
      `p^s f` while the spectral index is truthy, else `f`. */
  function BaseName(spectralIndex: Option<Float>, baseName: Option<string>): string {
    if baseName.Some? && baseName.value != "" then baseName.value
    else if Truthy(spectralIndex) then "p^s f"
    else "f"
  }

  /** `f_lms_name`: prefix, base, `_` and the three indices written out. */
  function FLmsName(p: VfpProps, idx: Lms, prefix: string, baseName: Option<string>): (r: string)
    ensures prefix <= r
    ensures r[|prefix|..] == BaseName(p.spectralIndex, baseName) + "_"
                             + IntToString(idx.l) + IntToString(idx.m) + IntToString(idx.s)
  {
    prefix + BaseName(p.spectralIndex, baseName) + "_" + IntToString(idx.l) + IntToString(idx.m) + IntToString(idx.s)
  }

  predicate SingleDigits(idx: Lms) {
    0 <= idx.l < 10 && 0 <= idx.m < 10 && 0 <= idx.s < 10
  }

  /** With single-digit indices a name ends in `_` and exactly the three
      index digits, which read back as `l`, `m` and `s`. */
  lemma FLmsNameDigits(p: VfpProps, idx: Lms, prefix: string, baseName: Option<string>)
    requires SingleDigits(idx)
    ensures var r := FLmsName(p, idx, prefix, baseName);
      && |r| == |prefix| + |BaseName(p.spectralIndex, baseName)| + 4
      && r[|r| - 4] == '_'
      && IsDigit(r[|r| - 3]) && DigitValue(r[|r| - 3]) == idx.l
      && IsDigit(r[|r| - 2]) && DigitValue(r[|r| - 2]) == idx.m
      && IsDigit(r[|r| - 1]) && DigitValue(r[|r| - 1]) == idx.s
  {
    SingleDigit(idx.l);
    SingleDigit(idx.m);
    SingleDigit(idx.s);
  }

  /** Under one base name, single-digit names determine prefix and index. */
  lemma FLmsNameInjective(p: VfpProps, a: Lms, pa: string, b: Lms, pb: string, baseName: Option<string>)
    requires SingleDigits(a) && SingleDigits(b)
    requires FLmsName(p, a, pa, baseName) == FLmsName(p, b, pb, baseName)
    ensures a == b && pa == pb
  {
    FLmsNameDigits(p, a, pa, baseName);
    FLmsNameDigits(p, b, pb, baseName);
    var r := FLmsName(p, a, pa, baseName);
    assert pa == r[..|pa|] && pb == r[..|pb|];
  }

  /** A spectral index of exactly zero is falsy: names keep the base `f`. */
  lemma FLmsNameZeroSpectralIndex(p: VfpProps, idx: Lms, prefix: string, g: string, repr: string)
    ensures FLmsName(p.(spectralIndex := Some(Float(0.0, g, repr))), idx, prefix, None)
         == FLmsName(p.(spectralIndex := None), idx, prefix, None)
    ensures FLmsName(p.(spectralIndex := None), idx, prefix, None)[|prefix|] == 'f'
  {
  }

  /** The three index positions of a label, as text: the digits of an index,
      or the symbols `l`, `m`, `s` for a generic label. */
  datatype IndexText = IndexText(l: string, m: string, s: string)

  function Written(idx: Lms): IndexText {
    IndexText(IntToString(idx.l), IntToString(idx.m), IntToString(idx.s))
  }

  const Symbolic: IndexText := IndexText("l", "m", "s")

  /** The variable of a label: `variableName` when given and non-empty, else
      `p^{ <s> } f` while the spectral index is truthy, else `f`. */
  function VariableName(spectralIndex: Option<Float>, variableName: Option<string>): string {
    if variableName.Some? && variableName.value != "" then variableName.value
    else if Truthy(spectralIndex) then "p^{ " + spectralIndex.value.formatG + " } f"
    else "f"
  }

  /** `f_lms_label`: a LaTeX label `$<var>_{ l m s <postfix> }$`. */
  function FLmsLabel(p: VfpProps, idx: IndexText, annotation: string, variableName: Option<string>): (r: string)
    ensures "$" + VariableName(p.spectralIndex, variableName) + "_{ " <= r
    ensures |r| >= 3 && r[|r| - 3..] == " }$"
  {
    "$" + VariableName(p.spectralIndex, variableName) + "_{ " + idx.l + " " + idx.m + " " + idx.s + " "
    + (if annotation != "" then " ," + annotation else "") + " }$"
  }

  /** An annotation enters a label only when non-empty, and then as the text
      ` ,<annotation>` just before the closing ` }$` of the plain label. */
  lemma FLmsLabelAnnotation(p: VfpProps, idx: IndexText, annotation: string, variableName: Option<string>)
    ensures var plain := FLmsLabel(p, idx, "", variableName);
      var annotated := FLmsLabel(p, idx, annotation, variableName);
      && (annotation == "" ==> annotated == plain)
      && (annotation != "" ==> annotated == plain[..|plain| - 3] + " ," + annotation + plain[|plain| - 3..])
  {
  }

  // ---------------------------------------------------------------------------
  // The series list, labels and line styles

  /** Series names, one block per variant, each in index order. */
  function NameBlocks(p: VfpProps, vs: seq<Variant>, lms: seq<Lms>): (r: seq<seq<string>>)
    ensures |r| == |vs|
    ensures forall i :: 0 <= i < |vs| ==> |r[i]| == |lms|
    ensures forall i, j :: 0 <= i < |vs| && 0 <= j < |lms| ==> r[i][j] == FLmsName(p, lms[j], vs[i].prefix, None)
  {
    seq(|vs|, i requires 0 <= i < |vs| =>
      seq(|lms|, j requires 0 <= j < |lms| => FLmsName(p, lms[j], vs[i].prefix, None)))
  }

  /** Labels matching NameBlocks, annotated with each variant's postfix. */
  function LabelBlocks(p: VfpProps, vs: seq<Variant>, lms: seq<Lms>): (r: seq<seq<string>>)
    ensures |r| == |vs|
    ensures forall i :: 0 <= i < |vs| ==> |r[i]| == |lms|
    ensures forall i, j :: 0 <= i < |vs| && 0 <= j < |lms| ==> r[i][j] == FLmsLabel(p, Written(lms[j]), vs[i].labelPostfix, None)
  {
    seq(|vs|, i requires 0 <= i < |vs| =>
      seq(|lms|, j requires 0 <= j < |lms| => FLmsLabel(p, Written(lms[j]), vs[i].labelPostfix, None)))
  }

  /** Line styles matching NameBlocks: each variant's style throughout. */
  function StyleBlocks(vs: seq<Variant>, lms: seq<Lms>): (r: seq<seq<string>>)
    ensures |r| == |vs|
    ensures forall i :: 0 <= i < |vs| ==> |r[i]| == |lms|
    ensures forall i, j :: 0 <= i < |vs| && 0 <= j < |lms| ==> r[i][j] == vs[i].lineStyle
  {
    seq(|vs|, i requires 0 <= i < |vs| => seq(|lms|, j requires 0 <= j < |lms| => vs[i].lineStyle))
  }

  function VariantsOf(p: VfpProps): seq<Variant> {
    VariantList(p.prefixNumeric, p.project, p.interpol, p.annotation)
  }

  /** The series names the prefix loop of `__post_init__` and
      `scale_by_spectral_index` produces for the indices `lms`. */
  function SeriesFor(p: VfpProps, lms: seq<Lms>): seq<string> {
    Flatten(NameBlocks(p, VariantsOf(p), lms))
  }

  /** The prefix loop: replaces the series list by SeriesFor and records a
      label and a line style for every name it writes. */
  function WriteSeries(p: VfpProps, lms: seq<Lms>): (r: VfpProps)
    ensures r.seriesNames == Some(SeriesFor(p, lms))
    ensures |SeriesFor(p, lms)| == |VariantsOf(p)| * |lms|
    ensures r.labels.Keys == p.labels.Keys + (set k | k in SeriesFor(p, lms))
    ensures r.lineStyles.Keys == p.lineStyles.Keys + (set k | k in SeriesFor(p, lms))
    ensures forall k :: k in p.labels && k !in SeriesFor(p, lms) ==> r.labels[k] == p.labels[k]
    ensures forall k :: k in p.lineStyles && k !in SeriesFor(p, lms) ==> r.lineStyles[k] == p.lineStyles[k]
    ensures r == p.(seriesNames := r.seriesNames, labels := r.labels, lineStyles := r.lineStyles)
  {
    var vs := VariantsOf(p);
    var names := SeriesFor(p, lms);
    FlattenLength(NameBlocks(p, vs, lms), |lms|);
    FlattenLength(LabelBlocks(p, vs, lms), |lms|);
    FlattenLength(StyleBlocks(vs, lms), |lms|);
    p.(seriesNames := Some(names),
       labels := PutAll(p.labels, names, Flatten(LabelBlocks(p, vs, lms))),
       lineStyles := PutAll(p.lineStyles, names, Flatten(StyleBlocks(vs, lms))))
  }

  const Axes: seq<string> := ["x", "y", "z"]

  /** The series `_add_debug_input_functions` declares: `nu`, the source
      terms `S_lms`, `B_*`, `u_*`, `div_u`, `DT_u_*` and the nine `du*_d*`. */
  function DebugNames(p: VfpProps, lms: seq<Lms>, prefix: string): (r: seq<string>)
    ensures |r| == 20 + |lms|
  {
    [prefix + "nu"]
    + seq(|lms|, j requires 0 <= j < |lms| => FLmsName(p, lms[j], prefix, Some("S")))
    + seq(3, a requires 0 <= a < 3 => prefix + "B_" + Axes[a])
    + seq(3, a requires 0 <= a < 3 => prefix + "u_" + Axes[a])
    + [prefix + "div_u"]
    + seq(3, a requires 0 <= a < 3 => prefix + "DT_u_" + Axes[a])
    + seq(9, a requires 0 <= a < 9 => prefix + "du" + Axes[a / 3] + "_d" + Axes[a % 3])
  }

  /** The labels of DebugNames, position by position. */
  function DebugLabels(p: VfpProps, lms: seq<Lms>): (r: seq<string>)
    ensures |r| == 20 + |lms|
  {
    [@"$\nu$"]
    + seq(|lms|, j requires 0 <= j < |lms| => FLmsLabel(p, Written(lms[j]), "", Some("S")))
    + seq(3, a requires 0 <= a < 3 => "$B_" + Axes[a] + "$")
    + seq(3, a requires 0 <= a < 3 => "$u_" + Axes[a] + "$")
    + [@"$\nabla \cdot u$"]
    + seq(3, a requires 0 <= a < 3 => "$D u_" + Axes[a] + " / Dt$")
    + seq(9, a requires 0 <= a < 9 => "$d u_" + Axes[a / 3] + " / d" + Axes[a % 3] + "$")
  }

  /** Python truthiness of the series list. */
  predicate HasSeries(names: Option<seq<string>>) {
    names.Some? && names.value != []
  }

  /** `_add_debug_input_functions`: labels and line styles for the debug
      series are always set, but the names join the series list only when it
      is already non-empty. */
  function AddDebugInputFunctions(p: VfpProps, lms: seq<Lms>, prefix: string, lineStyle: string): (r: VfpProps)
    ensures HasSeries(p.seriesNames) ==> r.seriesNames == Some(p.seriesNames.value + DebugNames(p, lms, prefix))
    ensures !HasSeries(p.seriesNames) ==> r.seriesNames == p.seriesNames
    ensures r.labels.Keys == p.labels.Keys + (set k | k in DebugNames(p, lms, prefix))
    ensures r.lineStyles.Keys == p.lineStyles.Keys + (set k | k in DebugNames(p, lms, prefix))
    ensures forall k :: k in DebugNames(p, lms, prefix) ==> r.lineStyles[k] == lineStyle
    ensures forall k :: k in p.labels && k !in DebugNames(p, lms, prefix) ==> r.labels[k] == p.labels[k]
    ensures forall k :: k in p.lineStyles && k !in DebugNames(p, lms, prefix) ==> r.lineStyles[k] == p.lineStyles[k]
    ensures r == p.(seriesNames := r.seriesNames, labels := r.labels, lineStyles := r.lineStyles)
  {
    var names := DebugNames(p, lms, prefix);
    var styles := seq(|names|, _ => lineStyle);
    PutAllConstant(p.lineStyles, names, styles, lineStyle);
    p.(seriesNames := if HasSeries(p.seriesNames) then Some(p.seriesNames.value + names) else p.seriesNames,
       labels := PutAll(p.labels, names, DebugLabels(p, lms)),
       lineStyles := PutAll(p.lineStyles, names, styles))
  }

  /** The fields `__post_init__` sets before its prefix loop. */
  function Initialised(p: VfpProps): VfpProps {
    p.(dimPs := p.dimension, dimCs := p.dimension - (if p.momentum then 1 else 0),
       seriesNames := Some([]), labels := map[], lineStyles := map[])
  }

  /** `__post_init__`: derives the phase-space and configuration-space
      dimensions and builds the series list, labels and line styles for the
      full index table of the expansion order. */
  function PostInit(p: VfpProps): (r: VfpProps)
    ensures r.dimPs == p.dimension
    ensures r.dimCs == p.dimension - (if p.momentum then 1 else 0)
    ensures r.seriesNames.Some?
    ensures forall k :: k in r.seriesNames.value ==> k in r.labels && k in r.lineStyles
    ensures r.spectralIndex == p.spectralIndex && r.expansionOrder == p.expansionOrder
  {
    var lms := LmsIndices(p.expansionOrder);
    var w := WriteSeries(Initialised(p), lms);
    if p.debugInputFunctions then AddDebugInputFunctions(w, lms, "func_", "1") else w
  }

  /** Without debug functions the series list holds one name per variant and
      table index; debug functions add `20 + (n+1)^2` names when that list is
      non-empty. */
  lemma PostInitSeriesCount(p: VfpProps)
    ensures var size := |VariantsOf(p)| * ((p.expansionOrder + 1) * (p.expansionOrder + 1));
      && (!p.debugInputFunctions ==> |PostInit(p).seriesNames.value| == size)
      && (p.debugInputFunctions ==>
            |PostInit(p).seriesNames.value| == if size == 0 then 0 else size + 20 + (p.expansionOrder + 1) * (p.expansionOrder + 1))
  {
    var q := Initialised(p);
    var lms := LmsIndices(p.expansionOrder);
    var w := WriteSeries(q, lms);
    var k := (p.expansionOrder + 1) * (p.expansionOrder + 1);
    assert VariantsOf(q) == VariantsOf(p);
    var size := |VariantsOf(p)| * k;
    assert |w.seriesNames.value| == size;
    SizeZero(|VariantsOf(p)|, k);
    if p.debugInputFunctions {
      var r := AddDebugInputFunctions(w, lms, "func_", "1");
      assert PostInit(p) == r;
      if size == 0 {
        assert !HasSeries(w.seriesNames);
        assert |r.seriesNames.value| == 0;
      } else {
        assert HasSeries(w.seriesNames);
        assert |r.seriesNames.value| == size + 20 + k;
      }
    } else {
      assert PostInit(p) == w;
    }
  }

  /** Without debug functions the labels and line styles are keyed by exactly
      the series names. */
  lemma PostInitKeys(p: VfpProps)
    requires !p.debugInputFunctions
    ensures PostInit(p).labels.Keys == (set k | k in PostInit(p).seriesNames.value)
    ensures PostInit(p).lineStyles.Keys == (set k | k in PostInit(p).seriesNames.value)
  {
    assert PostInit(p) == WriteSeries(Initialised(p), LmsIndices(p.expansionOrder));
  }

  lemma SizeZero(v: nat, k: nat)
    requires v >= 1
    ensures v * k == 0 <==> k == 0
  {
    if k > 0 {
      assert v * k >= k;
    }
  }

  /** `scale_by_spectral_index`: sets the spectral index and replaces the
      series list by the rescaled names of exactly the given indices; labels
      and line styles are only added or overwritten. */
  function ScaleBySpectralIndex(p: VfpProps, spectralIndex: Float, lms: seq<Lms>): (r: VfpProps)
    ensures r.spectralIndex == Some(spectralIndex)
    ensures r.seriesNames.Some?
    ensures p.labels.Keys <= r.labels.Keys && p.lineStyles.Keys <= r.lineStyles.Keys
    ensures forall k :: k in r.seriesNames.value ==> k in r.labels && k in r.lineStyles
  {
    var q := p.(spectralIndex := Some(spectralIndex), seriesNames := Some([]));
    var w := WriteSeries(q, lms);
    if p.debugInputFunctions then AddDebugInputFunctions(w, lms, "func_", "1") else w
  }

  /** Rescaling touches only the spectral index, the series list and the
      label and line-style dictionaries. */
  lemma ScaleBySpectralIndexFrame(p: VfpProps, spectralIndex: Float, lms: seq<Lms>)
    ensures var r := ScaleBySpectralIndex(p, spectralIndex, lms);
      r == p.(spectralIndex := Some(spectralIndex), seriesNames := r.seriesNames, labels := r.labels, lineStyles := r.lineStyles)
  {
    var q := p.(spectralIndex := Some(spectralIndex), seriesNames := Some([]));
    var w := WriteSeries(q, lms);
    if p.debugInputFunctions {
      assert ScaleBySpectralIndex(p, spectralIndex, lms) == AddDebugInputFunctions(w, lms, "func_", "1");
    } else {
      assert ScaleBySpectralIndex(p, spectralIndex, lms) == w;
    }
  }

  /** After rescaling, the series list holds one name per variant and given
      index, plus `20 + |lms|` debug names when enabled and that list is
      non-empty. */
  lemma ScaleBySpectralIndexCount(p: VfpProps, spectralIndex: Float, lms: seq<Lms>)
    ensures var r := ScaleBySpectralIndex(p, spectralIndex, lms);
      && (!p.debugInputFunctions ==> |r.seriesNames.value| == |VariantsOf(p)| * |lms|)
      && (p.debugInputFunctions ==>
            |r.seriesNames.value| == if lms == [] then 0 else |VariantsOf(p)| * |lms| + 20 + |lms|)
  {
    var q := p.(spectralIndex := Some(spectralIndex), seriesNames := Some([]));
    assert VariantsOf(q) == VariantsOf(p);
    SizeZero(|VariantsOf(q)|, |lms|);
    var w := WriteSeries(q, lms);
    assert |w.seriesNames.value| == |VariantsOf(p)| * |lms|;
    if p.debugInputFunctions {
      assert ScaleBySpectralIndex(p, spectralIndex, lms) == AddDebugInputFunctions(w, lms, "func_", "1");
    } else {
      assert ScaleBySpectralIndex(p, spectralIndex, lms) == w;
    }
  }

  /** After rescaling, the series list is exactly the prefix loop's names
      for the given indices under the new spectral index, followed by the
      debug names when they are enabled and the index list is non-empty. */
  lemma ScaleBySpectralIndexSeries(p: VfpProps, spectralIndex: Float, lms: seq<Lms>)
    ensures var q := p.(spectralIndex := Some(spectralIndex), seriesNames := Some([]));
      ScaleBySpectralIndex(p, spectralIndex, lms).seriesNames.value
      == SeriesFor(q, lms)
         + (if p.debugInputFunctions && lms != [] then DebugNames(WriteSeries(q, lms), lms, "func_") else [])
  {
    var q := p.(spectralIndex := Some(spectralIndex), seriesNames := Some([]));
    var w := WriteSeries(q, lms);
    var series := SeriesFor(q, lms);
    SizeZero(|VariantsOf(q)|, |lms|);
    assert series != [] <==> lms != [];
    if p.debugInputFunctions {
      ScaledDebug(p, spectralIndex, lms);
      DebugSeries(w, lms, series);
    } else {
      ScaledPlain(p, spectralIndex, lms);
      assert series + [] == series;
    }
  }

  lemma ScaledDebug(p: VfpProps, spectralIndex: Float, lms: seq<Lms>)
    requires p.debugInputFunctions
    ensures var q := p.(spectralIndex := Some(spectralIndex), seriesNames := Some([]));
      ScaleBySpectralIndex(p, spectralIndex, lms) == AddDebugInputFunctions(WriteSeries(q, lms), lms, "func_", "1")
  {
  }

  lemma ScaledPlain(p: VfpProps, spectralIndex: Float, lms: seq<Lms>)
    requires !p.debugInputFunctions
    ensures var q := p.(spectralIndex := Some(spectralIndex), seriesNames := Some([]));
      ScaleBySpectralIndex(p, spectralIndex, lms) == WriteSeries(q, lms)
  {
  }

  /** The debug step appends its names to a written list exactly when that
      list is non-empty. */
  lemma DebugSeries(w: VfpProps, lms: seq<Lms>, series: seq<string>)
    requires w.seriesNames == Some(series)
    ensures AddDebugInputFunctions(w, lms, "func_", "1").seriesNames.value
         == series + (if series != [] then DebugNames(w, lms, "func_") else [])
  {
    if series == [] {
      assert series + [] == series;
    }
  }

  // ---------------------------------------------------------------------------
  // Order and uniqueness of the series list

  /** The series list is prefix-major: variant `i`, index `j` sits at
      position `i * |lms| + j`. */
  lemma SeriesForOrder(p: VfpProps, lms: seq<Lms>)
    ensures var vs := VariantsOf(p);
      forall i, j :: 0 <= i < |vs| && 0 <= j < |lms| ==>
        AtRowMajor(SeriesFor(p, lms), |lms|, i, j, FLmsName(p, lms[j], vs[i].prefix, None))
  {
    var vs := VariantsOf(p);
    FlattenUniform(NameBlocks(p, vs, lms), |lms|);
  }

  /** For distinct single-digit indices the series names are distinct. */
  lemma SeriesForDistinct(p: VfpProps, lms: seq<Lms>)
    requires Distinct(lms)
    requires forall j :: 0 <= j < |lms| ==> SingleDigits(lms[j])
    ensures Distinct(SeriesFor(p, lms))
  {
    var vs := VariantsOf(p);
    var blocks := NameBlocks(p, vs, lms);
    forall i | 0 <= i < |blocks|
      ensures Distinct(blocks[i])
    {
      forall a, b | 0 <= a < b < |blocks[i]|
        ensures blocks[i][a] != blocks[i][b]
      {
        if blocks[i][a] == blocks[i][b] {
          FLmsNameInjective(p, lms[a], vs[i].prefix, lms[b], vs[i].prefix, None);
        }
      }
    }
    forall i, j, x | 0 <= i < j < |blocks| && x in blocks[i]
      ensures x !in blocks[j]
    {
      var a :| 0 <= a < |blocks[i]| && blocks[i][a] == x;
      if x in blocks[j] {
        var b :| 0 <= b < |blocks[j]| && blocks[j][b] == x;
        FLmsNameInjective(p, lms[a], vs[i].prefix, lms[b], vs[j].prefix, None);
      }
    }
    DistinctFlatten(blocks);
  }

  /** For distinct single-digit indices every written name keeps the label
      and line style of its own variant and index. */
  lemma WriteSeriesValues(p: VfpProps, lms: seq<Lms>, i: nat, j: nat)
    requires Distinct(lms)
    requires forall j :: 0 <= j < |lms| ==> SingleDigits(lms[j])
    requires i < |VariantsOf(p)| && j < |lms|
    ensures var v := VariantsOf(p)[i]; var r := WriteSeries(p, lms);
      var name := FLmsName(p, lms[j], v.prefix, None);
      && name in r.labels && r.labels[name] == FLmsLabel(p, Written(lms[j]), v.labelPostfix, None)
      && name in r.lineStyles && r.lineStyles[name] == v.lineStyle
  {
    var vs := VariantsOf(p);
    SeriesForDistinct(p, lms);
    PutAllBlocks(p.labels, NameBlocks(p, vs, lms), LabelBlocks(p, vs, lms), |lms|, i, j);
    PutAllBlocks(p.lineStyles, NameBlocks(p, vs, lms), StyleBlocks(vs, lms), |lms|, i, j);
  }

  /** Table indices of an expansion order up to 9 are single digits. */
  lemma TableSingleDigits(expansionOrder: int)
    requires 0 <= expansionOrder <= 9
    ensures Distinct(LmsIndices(expansionOrder))
    ensures forall j :: 0 <= j < |LmsIndices(expansionOrder)| ==> SingleDigits(LmsIndices(expansionOrder)[j])
  {
    TableFacts(expansionOrder + 1);
  }

  /** Without debug functions and for expansion orders up to 9,
      `__post_init__` lists every (variant, index) name once, prefix-major,
      each with its own label and line style. */
  lemma PostInitSeries(p: VfpProps, i: nat, j: nat)
    requires !p.debugInputFunctions
    requires 0 <= p.expansionOrder <= 9
    requires i < |VariantsOf(p)| && j < |LmsIndices(p.expansionOrder)|
    ensures var r := PostInit(p); var v := VariantsOf(p)[i]; var lms := LmsIndices(p.expansionOrder);
      var name := FLmsName(p, lms[j], v.prefix, None);
      && Distinct(r.seriesNames.value)
      && AtRowMajor(r.seriesNames.value, |lms|, i, j, name)
      && name in r.labels && r.labels[name] == FLmsLabel(p, Written(lms[j]), v.labelPostfix, None)
      && name in r.lineStyles && r.lineStyles[name] == v.lineStyle
  {
    var q := Initialised(p);
    var lms := LmsIndices(p.expansionOrder);
    assert VariantsOf(q) == VariantsOf(p);
    TableSingleDigits(p.expansionOrder);
    SeriesForDistinct(q, lms);
    WriteSeriesValues(q, lms, i, j);
    SeriesForOrder(q, lms);
  }
}
