/** `PlotPropertiesAthena` of src/sapphireppplot/plot_properties_athena.py:
    Athena++ output uses its own series names, cell data and a fixed series
    list; labels come from the `PlotPropertiesMHD` of mhd.py it extends. */
module PropertiesAthena {
  import opened Wrappers
  import opened Seqs
  import opened Variants
  import opened Quantities
  import Mhd

  /** The series list `__post_init__` sets; it names `dens` twice. */
  const AthenaSeries: seq<string> := ["dens", "Etot", "mom", "dens"]

  /** `__post_init__`: cell data and the fixed series list. It does not run
      the parent initialiser, so labels and line styles stay as they were. */
  function PostInit(p: MhdProps): (r: MhdProps)
    ensures r.dataType == "CELLS"
    ensures r.seriesNames == Some(AthenaSeries)
    ensures !Distinct(r.seriesNames.value)
    ensures r == p.(dataType := r.dataType, seriesNames := r.seriesNames)
  {
    assert AthenaSeries[0] == AthenaSeries[3];
    p.(dataType := "CELLS", seriesNames := Some(["dens", "Etot", "mom", "dens"]))
  }

  /** The `quantity_names` dictionary of the override. */
  function AthenaTable(): map<string, string> {
    map["rho" := "dens", "E" := "Etot",
        "p_x" := "mom_X", "p_y" := "mom_Y", "p_z" := "mom_Z",
        "b_x" := "Bcc_X", "b_y" := "Bcc_Y", "b_z" := "Bcc_Z"]
  }

  /** The Athena++ naming rule, stated independently of the table: density
      and total energy are renamed, momentum and magnetic-field components
      become `mom_<AXIS>` and `Bcc_<AXIS>` in every dimension, and nothing
      else has a name of its own. */
  function AthenaReference(q: string): Option<string> {
    if q == "rho" then Some("dens")
    else if q == "E" then Some("Etot")
    else if IsComponent(q) && (q[0] == 'p' || q[0] == 'b') && (q[2] == 'x' || q[2] == 'y' || q[2] == 'z') then
      Some((if q[0] == 'p' then "mom_" else "Bcc_") + [Upper(q[2])])
    else None
  }

  lemma AthenaTableRule(q: string)
    ensures q in AthenaTable() <==> AthenaReference(q).Some?
    ensures q in AthenaTable() ==> AthenaTable()[q] == AthenaReference(q).value
  {
    if IsComponent(q) {
      assert q == [q[0], '_', q[2]];
    }
  }

  /** Python truthiness of `self.series_names` together with membership. */
  predicate Loaded(p: MhdProps, quantity: string) {
    p.seriesNames.Some? && |p.seriesNames.value| > 0 && quantity in p.seriesNames.value
  }

  /** The `quantity_name` override: the Athena++ name under the prefix, else
      a quantity already among the series names as it is, else a
      `ValueError`. Pressure, velocity and `psi` have no Athena++ name. */
  function QuantityName(p: MhdProps, quantity: string, prefix: string): (r: Result<string>)
    ensures AthenaReference(quantity).Some? ==> r == Ok(prefix + AthenaReference(quantity).value)
    ensures AthenaReference(quantity).None? ==> (r.Ok? <==> Loaded(p, quantity))
    ensures AthenaReference(quantity).None? && r.Ok? ==> r.value == quantity
    ensures r.Err? ==> r.error.ValueError?
  {
    AthenaTableRule(quantity);
    var table := AthenaTable();
    if quantity in table then Ok(prefix + table[quantity])
    else if p.seriesNames.Some? && |p.seriesNames.value| > 0 && quantity in p.seriesNames.value then Ok(quantity)
    else Err(ValueError("Unknown quantity '" + quantity + "'!"))
  }

  /** Unlike the MHD classes, Athena++ names do not depend on the dimension. */
  lemma QuantityNameIgnoresDimension(p: MhdProps, quantity: string, prefix: string, dimension: int)
    ensures QuantityName(p.(dimension := dimension), quantity, prefix) == QuantityName(p, quantity, prefix)
  {
  }

  /** After initialisation, exactly the quantities with an Athena++ name and
      the fixed series resolve; pressure, velocity components and `psi` fail. */
  lemma PostInitQuantityName(p: MhdProps, quantity: string, prefix: string)
    ensures QuantityName(PostInit(p), quantity, prefix).Ok?
        <==> AthenaReference(quantity).Some? || quantity in AthenaSeries
    ensures quantity in ["P", "u_x", "u_y", "u_z", "psi"] ==> QuantityName(PostInit(p), quantity, prefix).Err?
  {
  }

  /** A plot with these properties: the names come from the override, the
      title label from mhd.py, so a single quantity plots only when mhd.py
      knows its label. */
  lemma PlotQuantities1dAthena(p: MhdProps, quantities: seq<string>)
    ensures Mhd.PlotQuantities1d(p.prefixNumeric, p.project, p.interpol, quantities,
                                 (q, pre) => QuantityName(p, q, pre), q => Mhd.QuantityLabel(q, "")).Ok?
        <==> && (|quantities| == 1 ==> quantities[0] in Physical || quantities[0] in Mhd.Indicators)
             && forall i :: 0 <= i < |quantities| ==> AthenaReference(quantities[i]).Some? || Loaded(p, quantities[i])
  {
    var prefixes := VisiblePrefixes(p.prefixNumeric, p.project, p.interpol);
    var name := (q, pre) => QuantityName(p, q, pre);
    assert |prefixes| >= 1;
    if !(forall i :: 0 <= i < |quantities| ==> AthenaReference(quantities[i]).Some? || Loaded(p, quantities[i])) {
      var i :| 0 <= i < |quantities| && AthenaReference(quantities[i]).None? && !Loaded(p, quantities[i]);
      assert !name(quantities[i], prefixes[0]).Ok?;
    }
  }
}
