/** The result variants every plot-properties class shows side by side: the
    numeric solution (optionally under the `numeric_` prefix), then the
    projected and the interpolated analytic solution. Each variant carries
    the series-name prefix, the label annotation and the line style used for
    it. The same three parallel lists are built in
    `PlotPropertiesVFP.__post_init__`, `scale_by_spectral_index` and both
    copies of `PlotPropertiesMHD.__post_init__`. */
module Variants {
  import opened Wrappers
  import opened Seqs

  datatype Variant = Variant(prefix: string, labelPostfix: string, lineStyle: string)

  const NumericPrefix: string := "numeric_"
  const ProjectPrefix: string := "project_"
  const InterpolPrefix: string := "interpol_"

  /** The prefixes a variant list can use. */
  predicate KnownPrefix(prefix: string) {
    prefix == "" || prefix == NumericPrefix || prefix == ProjectPrefix || prefix == InterpolPrefix
  }

  /** The series variants a properties object declares, in order: the plain
      (or `numeric_`) series, then `project_`, then `interpol_` when enabled. */
  function VariantList(prefixNumeric: bool, project: bool, interpol: bool, annotation: string): (r: seq<Variant>)
    ensures |r| == 1 + (if project then 1 else 0) + (if interpol then 1 else 0)
    ensures r[0] == Variant(if prefixNumeric then NumericPrefix else "", "", "1")
    ensures forall i :: 1 <= i < |r| ==> r[i].labelPostfix == annotation && r[i].lineStyle == "2"
    ensures project ==> r[1].prefix == ProjectPrefix
    ensures interpol ==> r[|r| - 1].prefix == InterpolPrefix
    ensures forall i :: 0 <= i < |r| ==> KnownPrefix(r[i].prefix)
    ensures Distinct(Prefixes(r))
  {
    [Variant(if prefixNumeric then NumericPrefix else "", "", "1")]
    + (if project then [Variant(ProjectPrefix, annotation, "2")] else [])
    + (if interpol then [Variant(InterpolPrefix, annotation, "2")] else [])
  }

  function Prefixes(vs: seq<Variant>): (r: seq<string>)
    ensures |r| == |vs|
    ensures forall i :: 0 <= i < |vs| ==> r[i] == vs[i].prefix
  {
    seq(|vs|, i requires 0 <= i < |vs| => vs[i].prefix)
  }

  /** The prefixes of the lines a plot function shows for one quantity, in
      order: `numeric_` or none, then `project_`, then `interpol_`. */
  function VisiblePrefixes(prefixNumeric: bool, project: bool, interpol: bool): seq<string> {
    [if prefixNumeric then NumericPrefix else ""]
    + (if project then [ProjectPrefix] else [])
    + (if interpol then [InterpolPrefix] else [])
  }

  /** The lines a plot shows are exactly the series variants its properties
      declare, in the same order. */
  lemma VisiblePrefixesAreVariants(prefixNumeric: bool, project: bool, interpol: bool, annotation: string)
    ensures VisiblePrefixes(prefixNumeric, project, interpol)
         == Prefixes(VariantList(prefixNumeric, project, interpol, annotation))
  {
  }

  /** The names one item contributes to the visible lines, one per prefix;
      the first failing name lookup aborts. */
  function ItemLines<T>(item: T, prefixes: seq<string>, name: (T, string) -> Result<string>): (r: Result<seq<string>>)
    ensures r.Ok? <==> forall j :: 0 <= j < |prefixes| ==> name(item, prefixes[j]).Ok?
    ensures r.Ok? ==> |r.value| == |prefixes|
    ensures r.Ok? ==> forall j :: 0 <= j < |prefixes| ==> r.value[j] == name(item, prefixes[j]).value
    ensures r.Err? ==> exists j :: 0 <= j < |prefixes| && name(item, prefixes[j]) == Err(r.error)
    decreases |prefixes|
  {
    if |prefixes| == 0 then Ok([])
    else
      var first :- name(item, prefixes[0]);
      var rest :- ItemLines(item, prefixes[1..], name);
      assert forall j :: 1 <= j < |prefixes| ==> prefixes[1..][j - 1] == prefixes[j];
      Ok([first] + rest)
  }

  /** The `visible_lines` list the 1D plot functions build: item-major, and
      for each item one name per prefix in prefix order. */
  function VisibleLines<T>(items: seq<T>, prefixes: seq<string>, name: (T, string) -> Result<string>): (r: Result<seq<string>>)
    ensures r.Ok? <==> forall i, j :: 0 <= i < |items| && 0 <= j < |prefixes| ==> name(items[i], prefixes[j]).Ok?
    ensures r.Err? ==> exists i, j :: 0 <= i < |items| && 0 <= j < |prefixes| && name(items[i], prefixes[j]) == Err(r.error)
    decreases |items|
  {
    if |items| == 0 then Ok([])
    else
      var first :- ItemLines(items[0], prefixes, name);
      var rest :- VisibleLines(items[1..], prefixes, name);
      assert forall i :: 1 <= i < |items| ==> items[1..][i - 1] == items[i];
      Ok(first + rest)
  }

  /** A successful list holds one line per item and prefix. */
  lemma {:induction false} VisibleLinesLength<T>(items: seq<T>, prefixes: seq<string>, name: (T, string) -> Result<string>)
    requires VisibleLines(items, prefixes, name).Ok?
    ensures |VisibleLines(items, prefixes, name).value| == |items| * |prefixes|
    decreases |items|
  {
    if |items| > 0 {
      VisibleLinesLength(items[1..], prefixes, name);
      assert |items| * |prefixes| == |prefixes| + (|items| - 1) * |prefixes|;
    }
  }

  /** The line for prefix `j` of item `i` sits at position `i * |prefixes| + j`. */
  lemma {:induction false} VisibleLinesAt<T>(items: seq<T>, prefixes: seq<string>, name: (T, string) -> Result<string>, i: nat, j: nat)
    requires VisibleLines(items, prefixes, name).Ok?
    requires i < |items| && j < |prefixes|
    ensures i * |prefixes| + j < |VisibleLines(items, prefixes, name).value|
    ensures VisibleLines(items, prefixes, name).value[i * |prefixes| + j] == name(items[i], prefixes[j]).value
    decreases i
  {
    if i == 0 {
      VisibleLinesHead(items, prefixes, name, j);
    } else {
      VisibleLinesCons(items, prefixes, name);
      VisibleLinesAt(items[1..], prefixes, name, i - 1, j);
      VisibleLinesNext(items, prefixes, name, i, j);
    }
  }

  /** The first item's lines open the list. */
  lemma VisibleLinesHead<T>(items: seq<T>, prefixes: seq<string>, name: (T, string) -> Result<string>, j: nat)
    requires VisibleLines(items, prefixes, name).Ok?
    requires 0 < |items| && j < |prefixes|
    ensures j < |VisibleLines(items, prefixes, name).value|
    ensures VisibleLines(items, prefixes, name).value[j] == name(items[0], prefixes[j]).value
  {
    VisibleLinesCons(items, prefixes, name);
    AtRowMajorHead(ItemLines(items[0], prefixes, name).value, VisibleLines(items[1..], prefixes, name).value, |prefixes|, j);
  }

  /** Row `i - 1` of the rest's lines is row `i` of the whole list. */
  lemma VisibleLinesNext<T>(items: seq<T>, prefixes: seq<string>, name: (T, string) -> Result<string>, i: nat, j: nat)
    requires VisibleLines(items, prefixes, name).Ok?
    requires 0 < i < |items| && j < |prefixes|
    requires VisibleLines(items[1..], prefixes, name).Ok?
    requires (i - 1) * |prefixes| + j < |VisibleLines(items[1..], prefixes, name).value|
    requires VisibleLines(items[1..], prefixes, name).value[(i - 1) * |prefixes| + j] == name(items[1..][i - 1], prefixes[j]).value
    ensures i * |prefixes| + j < |VisibleLines(items, prefixes, name).value|
    ensures VisibleLines(items, prefixes, name).value[i * |prefixes| + j] == name(items[i], prefixes[j]).value
  {
    assert items[1..][i - 1] == items[i];
    VisibleLinesCons(items, prefixes, name);
    AtRowMajorNext(ItemLines(items[0], prefixes, name).value, VisibleLines(items[1..], prefixes, name).value, |prefixes|, i, j);
  }

  /** An item's lines fail with the error of the first failing prefix, in
      prefix order. */
  lemma {:induction false} ItemLinesFirstError<T>(item: T, prefixes: seq<string>, name: (T, string) -> Result<string>)
    requires ItemLines(item, prefixes, name).Err?
    ensures exists j ::
              && 0 <= j < |prefixes|
              && name(item, prefixes[j]) == Err(ItemLines(item, prefixes, name).error)
              && forall k :: 0 <= k < j ==> name(item, prefixes[k]).Ok?
    decreases |prefixes|
  {
    var e := ItemLines(item, prefixes, name).error;
    var head := name(item, prefixes[0]);
    if head.Err? {
      assert ItemLines(item, prefixes, name) == Err(head.error);
      assert name(item, prefixes[0]) == Err(e);
    } else {
      var tail := prefixes[1..];
      assert ItemLines(item, prefixes, name) == Err(ItemLines(item, tail, name).error);
      ItemLinesFirstError(item, tail, name);
      var j :| 0 <= j < |tail| && name(item, tail[j]) == Err(e)
        && forall k :: 0 <= k < j ==> name(item, tail[k]).Ok?;
      assert tail[j] == prefixes[j + 1];
      forall k | 0 <= k < j + 1
        ensures name(item, prefixes[k]).Ok?
      {
        if k > 0 {
          assert prefixes[k] == tail[k - 1];
        }
      }
    }
  }

  /** Lookup `(i, j)` fails with `e`, and every lookup the loop makes
      before it (all of the earlier items, the earlier prefixes of item `i`)
      resolves. */
  predicate FailsFirstAt<T>(items: seq<T>, prefixes: seq<string>, name: (T, string) -> Result<string>, i: int, j: int, e: Error) {
    && 0 <= i < |items| && 0 <= j < |prefixes|
    && name(items[i], prefixes[j]) == Err(e)
    && (forall a, b :: 0 <= a < i && 0 <= b < |prefixes| ==> name(items[a], prefixes[b]).Ok?)
    && (forall b :: 0 <= b < j ==> name(items[i], prefixes[b]).Ok?)
  }

  /** The visible lines fail with the error of the first failing lookup of
      the loop, in item-major, prefix order. */
  lemma {:induction false} VisibleLinesFirstError<T>(items: seq<T>, prefixes: seq<string>, name: (T, string) -> Result<string>)
    requires VisibleLines(items, prefixes, name).Err?
    ensures exists i, j :: FailsFirstAt(items, prefixes, name, i, j, VisibleLines(items, prefixes, name).error)
    decreases |items|
  {
    var e := VisibleLines(items, prefixes, name).error;
    var first := ItemLines(items[0], prefixes, name);
    if first.Err? {
      FirstItemFails(items, prefixes, name);
    } else {
      var tail := items[1..];
      assert VisibleLines(items, prefixes, name) == Err(VisibleLines(tail, prefixes, name).error);
      VisibleLinesFirstError(tail, prefixes, name);
      var i, j :| FailsFirstAt(tail, prefixes, name, i, j, e);
      FailsFirstShift(items, prefixes, name, i, j, e);
    }
  }

  /** When the first item's lines fail, the list fails there. */
  lemma FirstItemFails<T>(items: seq<T>, prefixes: seq<string>, name: (T, string) -> Result<string>)
    requires |items| > 0 && ItemLines(items[0], prefixes, name).Err?
    ensures VisibleLines(items, prefixes, name).Err?
    ensures exists j :: FailsFirstAt(items, prefixes, name, 0, j, VisibleLines(items, prefixes, name).error)
  {
    var e := ItemLines(items[0], prefixes, name).error;
    assert VisibleLines(items, prefixes, name) == Err(e);
    ItemLinesFirstError(items[0], prefixes, name);
    var j :| 0 <= j < |prefixes| && name(items[0], prefixes[j]) == Err(e)
      && forall k :: 0 <= k < j ==> name(items[0], prefixes[k]).Ok?;
    assert FailsFirstAt(items, prefixes, name, 0, j, e);
  }

  /** A first failure in the rest is a first failure one item later, once
      the first item resolves. */
  lemma FailsFirstShift<T>(items: seq<T>, prefixes: seq<string>, name: (T, string) -> Result<string>, i: int, j: int, e: Error)
    requires |items| > 0 && ItemLines(items[0], prefixes, name).Ok?
    requires FailsFirstAt(items[1..], prefixes, name, i, j, e)
    ensures FailsFirstAt(items, prefixes, name, i + 1, j, e)
  {
    var tail := items[1..];
    assert tail[i] == items[i + 1];
    forall a, b | 0 <= a < i + 1 && 0 <= b < |prefixes|
      ensures name(items[a], prefixes[b]).Ok?
    {
      if a > 0 {
        assert items[a] == tail[a - 1];
      }
    }
  }

  /** A successful list is the first item's lines followed by the rest's. */
  lemma VisibleLinesCons<T>(items: seq<T>, prefixes: seq<string>, name: (T, string) -> Result<string>)
    requires VisibleLines(items, prefixes, name).Ok? && |items| > 0
    ensures ItemLines(items[0], prefixes, name).Ok?
    ensures VisibleLines(items[1..], prefixes, name).Ok?
    ensures VisibleLines(items, prefixes, name).value
         == ItemLines(items[0], prefixes, name).value + VisibleLines(items[1..], prefixes, name).value
  {
  }

  /** Successful visible lines hold `|prefixes|` names per item, item-major. */
  lemma VisibleLinesOrder<T>(items: seq<T>, prefixes: seq<string>, name: (T, string) -> Result<string>)
    requires VisibleLines(items, prefixes, name).Ok?
    ensures |VisibleLines(items, prefixes, name).value| == |items| * |prefixes|
    ensures forall i, j :: 0 <= i < |items| && 0 <= j < |prefixes| ==>
      AtRowMajor(VisibleLines(items, prefixes, name).value, |prefixes|, i, j, name(items[i], prefixes[j]).value)
  {
    VisibleLinesLength(items, prefixes, name);
    forall i, j | 0 <= i < |items| && 0 <= j < |prefixes|
      ensures AtRowMajor(VisibleLines(items, prefixes, name).value, |prefixes|, i, j, name(items[i], prefixes[j]).value)
    {
      VisibleLinesAt(items, prefixes, name, i, j);
    }
  }
}
