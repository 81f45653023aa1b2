/** What the two `PlotPropertiesMHD` classes
    (src/sapphireppplot/plot_properties_mhd.py and src/sapphireppplot/mhd.py)
    share: the thirteen conserved and primitive quantities, the table that
    turns a quantity into a ParaView series name for a given dimension, the
    LaTeX label table with its annotation rule, and the per-prefix series
    list and label/line-style loop of `__post_init__`. */
module Quantities {
  import opened Wrappers
  import opened Seqs
  import opened Variants

  /** The physical quantities, in the order `__post_init__` visits them. */
  const Physical: seq<string> := ["rho", "E", "p_x", "p_y", "p_z", "b_x", "b_y", "b_z", "P", "u_x", "u_y", "u_z", "psi"]

  /** The fields of a `PlotPropertiesMHD` the modelled code reads or writes. */
  datatype MhdProps = MhdProps(
    seriesNames: Option<seq<string>>,
    dataType: string,
    labels: map<string, string>,
    lineStyles: map<string, string>,
    dimension: int,
    prefixNumeric: bool,
    project: bool,
    interpol: bool,
    annotation: string,
    showIndicators: bool)

  // ---------------------------------------------------------------------------
  // Series names

  /** The `quantity_names` dictionary of `quantity_name`: vector components
      get an upper-case axis, and the axes a low-dimensional run does not
      resolve are switched back to lower case. */
  function NameTable(dimension: int): map<string, string> {
    var full := map["rho" := "rho", "E" := "E",
                    "p_x" := "p_X", "p_y" := "p_Y", "p_z" := "p_Z",
                    "b_x" := "b_X", "b_y" := "b_Y", "b_z" := "b_Z",
                    "P" := "P",
                    "u_x" := "u_X", "u_y" := "u_Y", "u_z" := "u_Z",
                    "psi" := "psi"];
    var lowY := if dimension <= 1 then full["p_y" := "p_y"]["b_y" := "b_y"]["u_y" := "u_y"] else full;
    if dimension <= 2 then lowY["p_z" := "p_z"]["b_z" := "b_z"]["u_z" := "u_z"] else lowY
  }

  /** A vector component `<v>_<axis>`. */
  predicate IsComponent(q: string) {
    |q| == 3 && q[1] == '_'
  }

  /** An axis a run of this dimension does not resolve: `y` below two
      dimensions, `z` below three. Such components are stored as separate
      series under their lower-case name. */
  predicate Unresolved(axis: char, dimension: int) {
    (axis == 'y' && dimension <= 1) || (axis == 'z' && dimension <= 2)
  }

  function Upper(c: char): char {
    if 'a' <= c <= 'z' then (c as int - 32) as char else c
  }

  function Lower(c: char): char {
    if 'A' <= c <= 'Z' then (c as int + 32) as char else c
  }

  /** The naming rule, stated independently of the table: a resolved
      component gets its axis in upper case, everything else keeps its name. */
  function ReferenceName(q: string, dimension: int): string {
    if IsComponent(q) && !Unresolved(q[2], dimension) then q[..2] + [Upper(q[2])] else q
  }

  /** The table knows exactly the physical quantities and follows the rule. */
  lemma NameTableRule(dimension: int, q: string)
    ensures q in NameTable(dimension) <==> q in Physical
    ensures q in Physical ==> NameTable(dimension)[q] == ReferenceName(q, dimension)
  {
    if q in Physical {
      if IsComponent(q) {
        ComponentName(dimension, q);
      }
    }
  }

  /** The rule for the nine vector components, one axis at a time. */
  lemma ComponentName(dimension: int, q: string)
    requires q in Physical && IsComponent(q)
    ensures q in NameTable(dimension) && NameTable(dimension)[q] == ReferenceName(q, dimension)
  {
    if q[2] == 'x' {
      AxisNameX(dimension, q);
    } else if q[2] == 'y' {
      AxisNameY(dimension, q);
    } else {
      AxisNameZ(dimension, q);
    }
  }

  /** The table row of an `x` component. */
  lemma AxisNameX(dimension: int, q: string)
    requires q == "p_x" || q == "b_x" || q == "u_x"
    ensures q in NameTable(dimension) && NameTable(dimension)[q] == ReferenceName(q, dimension)
  {
    assert Upper('x') == 'X';
  }

  /** The table rows of a `y` component. */
  lemma AxisNameY(dimension: int, q: string)
    requires q == "p_y" || q == "b_y" || q == "u_y"
    ensures q in NameTable(dimension) && NameTable(dimension)[q] == ReferenceName(q, dimension)
  {
    assert Upper('y') == 'Y';
  }

  /** The table rows of a `z` component. */
  lemma AxisNameZ(dimension: int, q: string)
    requires q == "p_z" || q == "b_z" || q == "u_z"
    ensures q in NameTable(dimension) && NameTable(dimension)[q] == ReferenceName(q, dimension)
  {
    assert Upper('z') == 'Z';
  }

  /** The axis letter read back from a series name. */
  function ReferenceQuantity(name: string): string {
    if IsComponent(name) then name[..2] + [Lower(name[2])] else name
  }

  /** Different quantities get different series names, whatever the
      dimension: the name determines the quantity. */
  lemma NameTableInjective(dimension: int, q: string)
    requires q in Physical
    ensures ReferenceQuantity(NameTable(dimension)[q]) == q
    ensures 1 <= |NameTable(dimension)[q]| <= 3
  {
    NameTableRule(dimension, q);
  }

  // ---------------------------------------------------------------------------
  // Labels

  /** The quantities whose label carries the annotation as a subscript
      `_{<annotation>}`; the vector components append `, <annotation>` to
      their existing subscript. */
  predicate Scalar(q: string) {
    q == "rho" || q == "E" || q == "P" || q == "psi"
  }

  /** The label `quantity_label` gives a physical quantity: one entry of its
      `quantity_labels` dictionary. */
  function PhysicalLabel(q: string, annotation: string): string
    requires q in Physical
  {
    var post1 := if annotation != "" then "_{" + annotation + "}" else "";
    var post2 := if annotation != "" then ", " + annotation else "";
    if q == "rho" then @"$\rho" + post1 + "$"
    else if q == "E" then "$E" + post1 + "$"
    else if q == "p_x" then "$p_{x" + post2 + "}$"
    else if q == "p_y" then "$p_{y" + post2 + "}$"
    else if q == "p_z" then "$p_{z" + post2 + "}$"
    else if q == "b_x" then "$B_{x" + post2 + "}$"
    else if q == "b_y" then "$B_{y" + post2 + "}$"
    else if q == "b_z" then "$B_{z" + post2 + "}$"
    else if q == "P" then "$P" + post1 + "$"
    else if q == "u_x" then "$_{x" + post2 + "}$"
    else if q == "u_y" then "$_{y" + post2 + "}$"
    else if q == "u_z" then "$_{z" + post2 + "}$"
    else @"$\psi" + post1 + "r$"
  }

  /** What an annotation adds to a label. */
  function Postfix(q: string, annotation: string): string {
    if annotation == "" then ""
    else if Scalar(q) then "_{" + annotation + "}"
    else ", " + annotation
  }

  /** How many closing characters of the plain label follow the postfix: the
      `$` of `rho`, `E`, `P`; the `}$` of a component; and the `r$` that the
      `psi` label ends with. */
  function Closing(q: string): nat {
    if q == "rho" || q == "E" || q == "P" then 1 else 2
  }

  /** Annotating a label inserts the postfix just before its closing
      characters and changes nothing else; an empty annotation changes
      nothing at all. */
  lemma LabelAnnotation(annotation: string, q: string)
    requires q in Physical
    ensures var plain := PhysicalLabel(q, "");
      && Closing(q) <= |plain|
      && PhysicalLabel(q, annotation)
         == plain[..|plain| - Closing(q)] + Postfix(q, annotation) + plain[|plain| - Closing(q)..]
  {
    if Scalar(q) {
      ScalarAnnotation(annotation, q);
    } else {
      ComponentAnnotation(annotation, q);
    }
  }

  /** The annotation rule for the scalars `rho`, `E`, `P` and `psi`. */
  lemma ScalarAnnotation(annotation: string, q: string)
    requires Scalar(q)
    ensures var plain := PhysicalLabel(q, "");
      && Closing(q) <= |plain|
      && PhysicalLabel(q, annotation)
         == plain[..|plain| - Closing(q)] + Postfix(q, annotation) + plain[|plain| - Closing(q)..]
  {
    if q == "rho" {
      Spliced("rho", annotation, @"$\rho", "$");
    } else if q == "E" {
      Spliced("E", annotation, "$E", "$");
    } else if q == "P" {
      Spliced("P", annotation, "$P", "$");
    } else {
      Spliced(q, annotation, @"$\psi", "r$");
    }
  }

  /** The annotation rule for the vector components, by vector. */
  lemma ComponentAnnotation(annotation: string, q: string)
    requires q in Physical && !Scalar(q)
    ensures var plain := PhysicalLabel(q, "");
      && Closing(q) <= |plain|
      && PhysicalLabel(q, annotation)
         == plain[..|plain| - Closing(q)] + Postfix(q, annotation) + plain[|plain| - Closing(q)..]
  {
    if q[0] == 'p' {
      MomentumAnnotation(annotation, q);
    } else if q[0] == 'b' {
      FieldAnnotation(annotation, q);
    } else {
      VelocityAnnotation(annotation, q);
    }
  }

  /** The annotation rule for the momentum components `p_x`, `p_y`, `p_z`. */
  lemma MomentumAnnotation(annotation: string, q: string)
    requires q == "p_x" || q == "p_y" || q == "p_z"
    ensures var plain := PhysicalLabel(q, "");
      && Closing(q) <= |plain|
      && PhysicalLabel(q, annotation)
         == plain[..|plain| - Closing(q)] + Postfix(q, annotation) + plain[|plain| - Closing(q)..]
  {
    if q == "p_x" {
      Spliced("p_x", annotation, "$p_{x", "}$");
    } else if q == "p_y" {
      Spliced("p_y", annotation, "$p_{y", "}$");
    } else {
      Spliced("p_z", annotation, "$p_{z", "}$");
    }
  }

  /** The annotation rule for the magnetic-field components `b_x`, `b_y`, `b_z`. */
  lemma FieldAnnotation(annotation: string, q: string)
    requires q == "b_x" || q == "b_y" || q == "b_z"
    ensures var plain := PhysicalLabel(q, "");
      && Closing(q) <= |plain|
      && PhysicalLabel(q, annotation)
         == plain[..|plain| - Closing(q)] + Postfix(q, annotation) + plain[|plain| - Closing(q)..]
  {
    if q == "b_x" {
      Spliced("b_x", annotation, "$B_{x", "}$");
    } else if q == "b_y" {
      Spliced("b_y", annotation, "$B_{y", "}$");
    } else {
      Spliced("b_z", annotation, "$B_{z", "}$");
    }
  }

  /** The annotation rule for the velocity components `u_x`, `u_y`, `u_z`. */
  lemma VelocityAnnotation(annotation: string, q: string)
    requires q == "u_x" || q == "u_y" || q == "u_z"
    ensures var plain := PhysicalLabel(q, "");
      && Closing(q) <= |plain|
      && PhysicalLabel(q, annotation)
         == plain[..|plain| - Closing(q)] + Postfix(q, annotation) + plain[|plain| - Closing(q)..]
  {
    if q == "u_x" {
      Spliced("u_x", annotation, "$_{x", "}$");
    } else if q == "u_y" {
      Spliced("u_y", annotation, "$_{y", "}$");
    } else {
      Spliced("u_z", annotation, "$_{z", "}$");
    }
  }

  /** LabelAnnotation for one label, given as its text before and after the
      postfix. */
  lemma Spliced(q: string, annotation: string, head: string, tail: string)
    requires q in Physical
    requires |tail| == Closing(q)
    requires PhysicalLabel(q, "") == head + tail
    requires PhysicalLabel(q, annotation) == head + Postfix(q, annotation) + tail
    ensures var plain := PhysicalLabel(q, "");
      && Closing(q) <= |plain|
      && PhysicalLabel(q, annotation)
         == plain[..|plain| - Closing(q)] + Postfix(q, annotation) + plain[|plain| - Closing(q)..]
  {
    Splice(head, Postfix(q, annotation), tail);
  }

  /** Cutting `head + tail` at the length of `tail` gives both parts back. */
  lemma Splice(head: string, post: string, tail: string)
    ensures var plain := head + tail;
      (head + tail)[..|plain| - |tail|] == head && (head + tail)[|plain| - |tail|..] == tail
  {
    assert (head + tail)[..|head|] == head;
  }

  // ---------------------------------------------------------------------------
  // The prefix loop of __post_init__

  /** The series one prefix contributes: the seven base series (vectors as a
      whole), then the separately stored `y` components below two
      dimensions and `z` components below three. */
  function SeriesBlock(prefix: string, dimension: int): (r: seq<string>)
    ensures |r| == 7 + (if dimension <= 1 then 3 else 0) + (if dimension <= 2 then 3 else 0)
  {
    [prefix + "rho", prefix + "E", prefix + "p", prefix + "b", prefix + "P", prefix + "u", prefix + "psi"]
    + (if dimension <= 1 then [prefix + "p_y", prefix + "b_y", prefix + "u_y"] else [])
    + (if dimension <= 2 then [prefix + "p_z", prefix + "b_z", prefix + "u_z"] else [])
  }

  /** The series name of a physical quantity under a prefix. */
  function TableName(q: string, prefix: string, dimension: int): string
    requires q in Physical
  {
    prefix + NameTable(dimension)[q]
  }

  /** A quantity's own series is loaded exactly when it is a scalar or a
      component the run does not resolve; a resolved component is only
      present inside its vector series `p`, `b` or `u`. */
  lemma SeriesBlockQuantities(prefix: string, dimension: int, q: string)
    requires q in Physical
    ensures TableName(q, prefix, dimension) in SeriesBlock(prefix, dimension)
        <==> !IsComponent(q) || Unresolved(q[2], dimension)
  {
    NameTableRule(dimension, q);
    var name := NameTable(dimension)[q];
    SeriesBlockPrefixed(prefix, dimension, name);
    BareSeriesBlock(dimension, q);
  }

  /** A name is in a prefixed block iff it is in the bare block. */
  lemma SeriesBlockPrefixed(prefix: string, dimension: int, name: string)
    ensures prefix + name in SeriesBlock(prefix, dimension) <==> name in SeriesBlock("", dimension)
  {
    var block := SeriesBlock(prefix, dimension);
    var bare := SeriesBlock("", dimension);
    assert forall j :: 0 <= j < |block| ==> block[j] == prefix + bare[j];
    if prefix + name in block {
      var j :| 0 <= j < |block| && block[j] == prefix + name;
      assert (prefix + bare[j])[|prefix|..] == bare[j];
      assert (prefix + name)[|prefix|..] == name;
    }
    if name in bare {
      var j :| 0 <= j < |bare| && bare[j] == name;
      assert block[j] == prefix + name;
    }
  }

  /** The bare block lists scalars and unresolved components by their own
      names. */
  lemma BareSeriesBlock(dimension: int, q: string)
    requires q in Physical
    ensures ReferenceName(q, dimension) in SeriesBlock("", dimension) <==> !IsComponent(q) || Unresolved(q[2], dimension)
  {
    if !IsComponent(q) {
      BareScalar(dimension, q);
    } else if q[2] == 'x' {
      BareAxisX(dimension, q);
    } else if q[2] == 'y' {
      BareAxisY(dimension, q);
    } else {
      BareAxisZ(dimension, q);
    }
  }

  /** Every scalar has its own series. */
  lemma BareScalar(dimension: int, q: string)
    requires q == "rho" || q == "E" || q == "P" || q == "psi"
    ensures ReferenceName(q, dimension) in SeriesBlock("", dimension)
  {
    var bare := SeriesBlock("", dimension);
    assert q == bare[0] || q == bare[1] || q == bare[4] || q == bare[6];
  }

  /** An `x` component is always resolved: no series of its own. */
  lemma BareAxisX(dimension: int, q: string)
    requires q == "p_x" || q == "b_x" || q == "u_x"
    ensures ReferenceName(q, dimension) !in SeriesBlock("", dimension)
  {
    var bare := SeriesBlock("", dimension);
    assert Upper('x') == 'X';
    assert ReferenceName(q, dimension)[2] == 'X';
    assert forall j :: 0 <= j < |bare| ==> |bare[j]| != 3 || bare[j][2] != 'X';
  }

  /** A `y` component has its own series exactly below two dimensions. */
  lemma BareAxisY(dimension: int, q: string)
    requires q == "p_y" || q == "b_y" || q == "u_y"
    ensures ReferenceName(q, dimension) in SeriesBlock("", dimension) <==> dimension <= 1
  {
    var bare := SeriesBlock("", dimension);
    assert Upper('y') == 'Y';
    if dimension <= 1 {
      assert q == bare[7] || q == bare[8] || q == bare[9];
    } else {
      assert ReferenceName(q, dimension)[2] == 'Y';
      assert forall j :: 0 <= j < |bare| ==> |bare[j]| != 3 || bare[j][2] != 'Y';
    }
  }

  /** A `z` component has its own series exactly below three dimensions. */
  lemma BareAxisZ(dimension: int, q: string)
    requires q == "p_z" || q == "b_z" || q == "u_z"
    ensures ReferenceName(q, dimension) in SeriesBlock("", dimension) <==> dimension <= 2
  {
    var bare := SeriesBlock("", dimension);
    assert Upper('z') == 'Z';
    if dimension <= 2 {
      var k := if dimension <= 1 then 10 else 7;
      assert q == bare[k] || q == bare[k + 1] || q == bare[k + 2];
    } else {
      assert ReferenceName(q, dimension)[2] == 'Z';
      assert forall j :: 0 <= j < |bare| ==> |bare[j]| != 3 || bare[j][2] != 'Z';
    }
  }

  function VariantsOf(p: MhdProps): seq<Variant> {
    VariantList(p.prefixNumeric, p.project, p.interpol, p.annotation)
  }

  /** Series names per variant. */
  function SeriesBlocks(vs: seq<Variant>, dimension: int): (r: seq<seq<string>>)
    ensures |r| == |vs|
    ensures forall i :: 0 <= i < |vs| ==> r[i] == SeriesBlock(vs[i].prefix, dimension)
  {
    seq(|vs|, i requires 0 <= i < |vs| => SeriesBlock(vs[i].prefix, dimension))
  }

  /** Label keys per variant: the series name of every physical quantity. */
  function KeyBlocks(vs: seq<Variant>, dimension: int): (r: seq<seq<string>>)
    ensures |r| == |vs|
    ensures forall i :: 0 <= i < |vs| ==> |r[i]| == |Physical|
    ensures forall i, k :: 0 <= i < |vs| && 0 <= k < |Physical| ==> r[i][k] == TableName(Physical[k], vs[i].prefix, dimension)
  {
    seq(|vs|, i requires 0 <= i < |vs| =>
      seq(|Physical|, k requires 0 <= k < |Physical| => TableName(Physical[k], vs[i].prefix, dimension)))
  }

  /** Labels matching KeyBlocks, annotated with each variant's postfix. */
  function LabelBlocks(vs: seq<Variant>): (r: seq<seq<string>>)
    ensures |r| == |vs|
    ensures forall i :: 0 <= i < |vs| ==> |r[i]| == |Physical|
    ensures forall i, k :: 0 <= i < |vs| && 0 <= k < |Physical| ==> r[i][k] == PhysicalLabel(Physical[k], vs[i].labelPostfix)
  {
    seq(|vs|, i requires 0 <= i < |vs| =>
      seq(|Physical|, k requires 0 <= k < |Physical| => PhysicalLabel(Physical[k], vs[i].labelPostfix)))
  }

  /** Line styles matching KeyBlocks. */
  function StyleBlocks(vs: seq<Variant>): (r: seq<seq<string>>)
    ensures |r| == |vs|
    ensures forall i :: 0 <= i < |vs| ==> |r[i]| == |Physical|
    ensures forall i, k :: 0 <= i < |vs| && 0 <= k < |Physical| ==> r[i][k] == vs[i].lineStyle
  {
    seq(|vs|, i requires 0 <= i < |vs| => seq(|Physical|, k requires 0 <= k < |Physical| => vs[i].lineStyle))
  }

  /** The first part of `__post_init__`: fresh series list, labels and line
      styles, filled variant by variant. */
  function WriteQuantities(p: MhdProps): (r: MhdProps)
    ensures r.seriesNames.Some?
    ensures r.labels.Keys == r.lineStyles.Keys == set k | k in Flatten(KeyBlocks(VariantsOf(p), p.dimension))
    ensures r == p.(seriesNames := r.seriesNames, labels := r.labels, lineStyles := r.lineStyles)
  {
    var vs := VariantsOf(p);
    var keys := Flatten(KeyBlocks(vs, p.dimension));
    FlattenLength(KeyBlocks(vs, p.dimension), |Physical|);
    FlattenLength(LabelBlocks(vs), |Physical|);
    FlattenLength(StyleBlocks(vs), |Physical|);
    p.(seriesNames := Some(Flatten(SeriesBlocks(vs, p.dimension))),
       labels := PutAll(map[], keys, Flatten(LabelBlocks(vs))),
       lineStyles := PutAll(map[], keys, Flatten(StyleBlocks(vs))))
  }

  /** The variants' series blocks in variant order at the front of `s`. */
  predicate SeriesInOrder(s: seq<string>, vs: seq<Variant>, dimension: int) {
    forall i, j :: 0 <= i < |vs| && 0 <= j < |SeriesBlock("", dimension)| ==>
      AtRowMajor(s, |SeriesBlock("", dimension)|, i, j, SeriesBlock(vs[i].prefix, dimension)[j])
  }

  /** Appending keeps the blocks at the front where they are. */
  lemma SeriesInOrderAppend(s: seq<string>, t: seq<string>, vs: seq<Variant>, dimension: int)
    requires SeriesInOrder(s, vs, dimension)
    ensures SeriesInOrder(s + t, vs, dimension)
  {
    var n := |SeriesBlock("", dimension)|;
    forall i, j | 0 <= i < |vs| && 0 <= j < n
      ensures AtRowMajor(s + t, n, i, j, SeriesBlock(vs[i].prefix, dimension)[j])
    {
      AtRowMajorAppend(s, t, n, i, j, SeriesBlock(vs[i].prefix, dimension)[j]);
    }
  }

  /** Without indicators, each variant contributes one SeriesBlock, in order. */
  lemma WriteQuantitiesSeries(p: MhdProps)
    ensures var vs := VariantsOf(p); var n := |SeriesBlock("", p.dimension)|;
      && |WriteQuantities(p).seriesNames.value| == |vs| * n
      && forall i, j :: 0 <= i < |vs| && 0 <= j < n ==>
           AtRowMajor(WriteQuantities(p).seriesNames.value, n, i, j, SeriesBlock(vs[i].prefix, p.dimension)[j])
  {
    var vs := VariantsOf(p);
    FlattenUniform(SeriesBlocks(vs, p.dimension), |SeriesBlock("", p.dimension)|);
  }

  /** A known prefix followed by a short name can be split in one way only:
      the prefixes are empty or at least eight characters long, and the
      non-empty ones differ in their first character. */
  lemma PrefixedInjective(a: string, x: string, b: string, y: string)
    requires KnownPrefix(a) && KnownPrefix(b)
    requires 1 <= |x| <= 3 && 1 <= |y| <= 3
    requires a + x == b + y
    ensures a == b && x == y
  {
    if a == "" || b == "" {
      assert |a| <= 3 && |b| <= 3;
    } else {
      assert a[0] == (a + x)[0] && b[0] == (b + y)[0];
    }
    assert x == (a + x)[|a|..] && y == (b + y)[|b|..];
  }

  /** The physical quantities are listed once each. */
  lemma PhysicalDistinct()
    ensures Distinct(Physical)
  {
  }

  /** A label key determines its prefix and its quantity. */
  lemma TableNameInjective(dimension: int, q1: string, prefix1: string, q2: string, prefix2: string)
    requires q1 in Physical && q2 in Physical
    requires KnownPrefix(prefix1) && KnownPrefix(prefix2)
    requires TableName(q1, prefix1, dimension) == TableName(q2, prefix2, dimension)
    ensures q1 == q2 && prefix1 == prefix2
  {
    NameTableInjective(dimension, q1);
    NameTableInjective(dimension, q2);
    PrefixedInjective(prefix1, NameTable(dimension)[q1], prefix2, NameTable(dimension)[q2]);
  }

  /** The label keys written by the prefix loop are pairwise different. */
  lemma KeysDistinct(p: MhdProps)
    ensures Distinct(Flatten(KeyBlocks(VariantsOf(p), p.dimension)))
  {
    var vs := VariantsOf(p);
    var blocks := KeyBlocks(vs, p.dimension);
    PhysicalDistinct();
    forall i | 0 <= i < |blocks|
      ensures Distinct(blocks[i])
    {
      forall a, b | 0 <= a < b < |Physical|
        ensures blocks[i][a] != blocks[i][b]
      {
        if blocks[i][a] == blocks[i][b] {
          TableNameInjective(p.dimension, Physical[a], vs[i].prefix, Physical[b], vs[i].prefix);
        }
      }
    }
    forall i, j, x | 0 <= i < j < |blocks| && x in blocks[i]
      ensures x !in blocks[j]
    {
      var a :| 0 <= a < |Physical| && blocks[i][a] == x;
      if x in blocks[j] {
        var b :| 0 <= b < |Physical| && blocks[j][b] == x;
        TableNameInjective(p.dimension, Physical[a], vs[i].prefix, Physical[b], vs[j].prefix);
      }
    }
    DistinctFlatten(blocks);
  }

  /** Every physical quantity of every variant is labelled with its own
      annotated label and styled with the variant's line style. */
  lemma WriteQuantitiesValues(p: MhdProps, i: nat, k: nat)
    requires i < |VariantsOf(p)| && k < |Physical|
    ensures var v := VariantsOf(p)[i]; var r := WriteQuantities(p);
      var key := TableName(Physical[k], v.prefix, p.dimension);
      && key in r.labels && r.labels[key] == PhysicalLabel(Physical[k], v.labelPostfix)
      && key in r.lineStyles && r.lineStyles[key] == v.lineStyle
  {
    var vs := VariantsOf(p);
    KeysDistinct(p);
    PutAllBlocks(map[], KeyBlocks(vs, p.dimension), LabelBlocks(vs), |Physical|, i, k);
    PutAllBlocks(map[], KeyBlocks(vs, p.dimension), StyleBlocks(vs), |Physical|, i, k);
  }

  /** The shape of every label key of the prefix loop: at most twelve
      characters, and either at most three or starting with the `n`, `p` or
      `i` of a prefix. Indicator names do not have it. */
  predicate KeyShape(k: string) {
    |k| <= 12 && (|k| <= 3 || k[0] == 'n' || k[0] == 'p' || k[0] == 'i')
  }

  /** Every label key of the prefix loop has the key shape. */
  lemma KeysShape(p: MhdProps, k: string)
    requires k in Flatten(KeyBlocks(VariantsOf(p), p.dimension))
    ensures KeyShape(k)
  {
    var vs := VariantsOf(p);
    KeyBlocksMembership(vs, p.dimension, k);
    var i, a :| 0 <= i < |vs| && 0 <= a < |Physical| && k == TableName(Physical[a], vs[i].prefix, p.dimension);
    NameTableInjective(p.dimension, Physical[a]);
    PrefixedShape(vs[i].prefix, NameTable(p.dimension)[Physical[a]]);
  }

  /** A short name under a known prefix has the key shape. */
  lemma PrefixedShape(prefix: string, name: string)
    requires KnownPrefix(prefix) && 1 <= |name| <= 3
    ensures KeyShape(prefix + name)
  {
    if prefix != "" {
      assert (prefix + name)[0] == prefix[0];
    }
  }

  /** The `show_indicators` branch: the indicators are appended to the series
      list, each keyed by its own name with the given label and line style
      `1`. Earlier entries under other keys are kept. */
  function AddIndicators(p: MhdProps, indicators: seq<string>, labels: seq<string>): (r: MhdProps)
    requires p.seriesNames.Some?
    requires |labels| == |indicators|
    requires Distinct(indicators)
    ensures r.seriesNames == Some(p.seriesNames.value + indicators)
    ensures r.labels.Keys == p.labels.Keys + (set k | k in indicators)
    ensures r.lineStyles.Keys == p.lineStyles.Keys + (set k | k in indicators)
    ensures forall k :: k in p.labels && k !in indicators ==> r.labels[k] == p.labels[k]
    ensures forall k :: k in p.lineStyles && k !in indicators ==> r.lineStyles[k] == p.lineStyles[k]
    ensures forall n :: 0 <= n < |indicators| ==> r.labels[indicators[n]] == labels[n] && r.lineStyles[indicators[n]] == "1"
    ensures r == p.(seriesNames := r.seriesNames, labels := r.labels, lineStyles := r.lineStyles)
  {
    var styles := seq(|indicators|, n requires 0 <= n < |indicators| => "1");
    PutAllDistinct(p.labels, indicators, labels);
    PutAllDistinct(p.lineStyles, indicators, styles);
    p.(seriesNames := Some(p.seriesNames.value + indicators),
       labels := PutAll(p.labels, indicators, labels),
       lineStyles := PutAll(p.lineStyles, indicators, styles))
  }

  /** The prefix loop keys labels and line styles by exactly the names of
      the physical quantities under every variant's prefix. */
  lemma WriteQuantitiesKeys(p: MhdProps, key: string)
    ensures var r := WriteQuantities(p); var vs := VariantsOf(p);
      && (key in r.labels <==> key in r.lineStyles)
      && (key in r.labels <==> exists i, k :: 0 <= i < |vs| && 0 <= k < |Physical| && key == TableName(Physical[k], vs[i].prefix, p.dimension))
  {
    var vs := VariantsOf(p);
    var r := WriteQuantities(p);
    assert key in r.labels <==> key in Flatten(KeyBlocks(vs, p.dimension));
    KeyBlocksMembership(vs, p.dimension, key);
  }

  /** A key is in the flattened key blocks iff it names some physical
      quantity under some variant's prefix. */
  lemma KeyBlocksMembership(vs: seq<Variant>, dimension: int, key: string)
    ensures key in Flatten(KeyBlocks(vs, dimension))
        <==> exists i, k :: 0 <= i < |vs| && 0 <= k < |Physical| && key == TableName(Physical[k], vs[i].prefix, dimension)
  {
    var blocks := KeyBlocks(vs, dimension);
    FlattenMembership(blocks, key);
    if key in Flatten(blocks) {
      var i :| 0 <= i < |blocks| && key in blocks[i];
      var k :| 0 <= k < |Physical| && blocks[i][k] == key;
      assert key == TableName(Physical[k], vs[i].prefix, dimension);
    }
    if exists i, k :: 0 <= i < |vs| && 0 <= k < |Physical| && key == TableName(Physical[k], vs[i].prefix, dimension) {
      var i, k :| 0 <= i < |vs| && 0 <= k < |Physical| && key == TableName(Physical[k], vs[i].prefix, dimension);
      assert key == blocks[i][k];
    }
  }
}
