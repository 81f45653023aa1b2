# sapphireppplot naming, indexing and filtering rules in Dafny

This project models the pure logic inside sapphireppplot. sapphireppplot is a
ParaView plotting package for Sapphire++ results. Most of it is ParaView glue;
the logic it decides for itself is modelled here:

- **Spherical-harmonic index table and VFP series** (`PropertiesVfp`):
  - `create_lms_indices` is modelled as a function and as the original loop.
  - `f_lms_name` and `f_lms_label`.
  - The series list, labels and line styles built by `__post_init__`,
    `_add_debug_input_functions` and `scale_by_spectral_index`.
- **MHD quantity naming** (`Quantities`, `PropertiesMhd`, `Mhd`, `PropertiesAthena`):
  - The dimension-dependent series-name table and the LaTeX label table with
    its annotation rule.
  - The per-prefix series list and the debug indicators.
  - The newer `PlotPropertiesMHD` (fallback to loaded series, `ValueError`).
  - The older copy in `mhd.py` (dictionary lookups, `KeyError`).
  - The Athena++ override.
  - The title and visible-line rule of `plot_quantities_1d`.
- **1D extraction** (`Numpyify`): `to_numpy_1d` as a masked, order-keeping
  row filter over given points and point-data arrays.
- **Line sampling** (`Transform`): the end points, sampling settings and
  saved arrays of `plot_over_line`.
- **VFP plotting rules** (`Vfp`):
  - The calculators of `scale_distribution_function`.
  - The axes, labels and visible lines of `plot_f_lms_over_x` and
    `plot_f_lms_over_p`.

Shared modules:

- `Wrappers` holds `Option`, `Result` and the Python exceptions the code raises.
- `Text` holds `str(int)` and its inverse.
- `Seqs` holds list flattening, distinctness and dictionary updates in order.
- `Variants` holds the numeric/project/interpol variant list that every
  properties class builds in the same way.

Python objects are immutable records here. Dictionaries are `map`s, and a
sequence of `d[k] = v` assignments is `Seqs.PutAll` (the last write wins).
Exceptions are `Err` results. A Python float is carried as its value together
with its `g` and `str()` renderings, which the model does not compute.

## Model

| member | source | states |
|---|---|---|
| PropertiesVfp.LmsIndices | src/sapphireppplot/plot_properties_vfp.py:121-134 | the table of `create_lms_indices(n)` has exactly `(n+1)^2` entries |
| PropertiesVfp.Block | src/sapphireppplot/plot_properties_vfp.py:124-133 | degree `l` contributes `2l+1` triples: `(l,l,0) … (l,0,0)`, then `(l,1,1) … (l,l,1)` |
| PropertiesVfp.CreateLmsIndices | src/sapphireppplot/plot_properties_vfp.py:121-134 | the signed-counter loop returns exactly the block table: `(n+1)^2` well-formed, pairwise distinct triples of degree below `abs(n+1)` |
| PropertiesVfp.LoopStep | src/sapphireppplot/plot_properties_vfp.py:126-133 | one loop iteration appends the next triple of the block table and moves to the next degree after `m == l` |
| PropertiesVfp.BlocksAt | src/sapphireppplot/plot_properties_vfp.py:124-133 | degree `l` starts at position `l*l` of the table |
| PropertiesVfp.BlocksPosition | src/sapphireppplot/plot_properties_vfp.py:124-133 | every position lies in the block of its degree, within `[l*l, l*l+2l]` |
| PropertiesVfp.BlocksMembership | src/sapphireppplot/plot_properties_vfp.py:124-133 | a triple is in the table iff `0 <= m <= l < n`, `s` is 0 or 1, and `s == 0` when `m == 0` |
| PropertiesVfp.BlocksDegreeSorted | src/sapphireppplot/plot_properties_vfp.py:124-133 | `l` never decreases along the table |
| PropertiesVfp.BlocksDistinct | src/sapphireppplot/plot_properties_vfp.py:124-133 | no triple occurs twice |
| PropertiesVfp.TableFacts | src/sapphireppplot/plot_properties_vfp.py:124-133 | table entries are well-formed, of degree below `n`, and distinct |
| PropertiesVfp.FLmsNameDigits | src/sapphireppplot/plot_properties_vfp.py:160-167 | with single-digit indices a name ends in `_` and three digits that read back as `l`, `m`, `s` |
| PropertiesVfp.FLmsNameInjective | src/sapphireppplot/plot_properties_vfp.py:160-167 | under one base name, single-digit names determine prefix and index |
| PropertiesVfp.FLmsNameZeroSpectralIndex | src/sapphireppplot/plot_properties_vfp.py:160-164 | a spectral index of `0.0` is falsy, so the base stays `f` as if none were set |
| PropertiesVfp.FLmsLabel | src/sapphireppplot/plot_properties_vfp.py:193-202 | a label starts with `$<variable>_{ ` and ends with ` }$` |
| PropertiesVfp.FLmsLabelAnnotation | src/sapphireppplot/plot_properties_vfp.py:197-202 | an empty annotation leaves the label unchanged; otherwise ` ,<annotation>` is inserted just before ` }$` |
| PropertiesVfp.WriteSeries | src/sapphireppplot/plot_properties_vfp.py:92-102 | the prefix loop replaces the series list, adds one label and line-style key per name, and keeps all other keys and fields |
| PropertiesVfp.AddDebugInputFunctions | src/sapphireppplot/plot_properties_vfp.py:204-269 | the debug names join the series list only when it is non-empty; their labels and line styles are always set; other keys are kept |
| PropertiesVfp.DebugNames | src/sapphireppplot/plot_properties_vfp.py:224-269 | the debug functions add `20 + |lms|` names |
| PropertiesVfp.PostInit | src/sapphireppplot/plot_properties_vfp.py:61-105 | `dim_ps = dimension`, `dim_cs = dimension - momentum`, and every series name has a label and a line style |
| PropertiesVfp.PostInitSeriesCount | src/sapphireppplot/plot_properties_vfp.py:92-105 | `|prefixes| * (n+1)^2` names, plus `20 + (n+1)^2` debug names when the list is non-empty |
| PropertiesVfp.PostInitKeys | src/sapphireppplot/plot_properties_vfp.py:92-102 | without debug functions, labels and line styles are keyed by exactly the series names |
| PropertiesVfp.PostInitSeries | src/sapphireppplot/plot_properties_vfp.py:72-102 | for `n <= 9` the series are distinct and prefix-major; each name carries its variant's annotated label and line style `1` or `2` |
| PropertiesVfp.SeriesForOrder | src/sapphireppplot/plot_properties_vfp.py:92-99 | variant `i`, index `j` sits at position `i*|lms|+j` |
| PropertiesVfp.SeriesForDistinct | src/sapphireppplot/plot_properties_vfp.py:92-99 | distinct single-digit indices give distinct series names |
| PropertiesVfp.WriteSeriesValues | src/sapphireppplot/plot_properties_vfp.py:92-102 | each written name maps to its variant's label and line style |
| PropertiesVfp.ScaleBySpectralIndex | src/sapphireppplot/plot_properties_vfp.py:271-320 | sets the spectral index; label and line-style keys are only added; every series name is keyed |
| PropertiesVfp.ScaleBySpectralIndexFrame | src/sapphireppplot/plot_properties_vfp.py:285-320 | the copy differs from the input only in its spectral index, series list, labels and line styles |
| PropertiesVfp.ScaleBySpectralIndexCount | src/sapphireppplot/plot_properties_vfp.py:285-320 | the series list has `|lms|` names per prefix, plus `20 + |lms|` debug names when enabled and non-empty |
| PropertiesVfp.ScaleBySpectralIndexSeries | src/sapphireppplot/plot_properties_vfp.py:285-320 | the series list is exactly the fresh list for the given indices under the new spectral index, followed by the `func_` debug names iff debugging is on and the indices are non-empty |
| Variants.VariantList | src/sapphireppplot/plot_properties_vfp.py:74-90 | one, two or three variants: `numeric_` or none with style `1`, then `project_`, then `interpol_`, annotated with style `2`; prefixes distinct |
| Variants.VisiblePrefixesAreVariants | src/sapphireppplot/vfp.py:215-225 | the lines a plot shows per item are exactly the declared variants, in order |
| Variants.VisibleLines | src/sapphireppplot/mhd.py:330-345 | the visible-line list succeeds iff every name lookup does, and otherwise fails with one of the lookups' errors |
| Variants.VisibleLinesFirstError | src/sapphireppplot/mhd.py:330-345 | on failure the error is that of the first failing lookup in item-major, then prefix order: every earlier lookup succeeds |
| Variants.ItemLinesFirstError | src/sapphireppplot/mhd.py:332-345 | for one item, the error is that of the first prefix whose lookup fails |
| Variants.VisibleLinesOrder | src/sapphireppplot/mhd.py:330-345 | visible lines are item-major: item `i`, prefix `j` sits at `i*|prefixes|+j` |
| Text.ParseIntToString | src/sapphireppplot/plot_properties_vfp.py:165-167 | `str(int)` is read back by its inverse |
| Text.IntToStringInjective | src/sapphireppplot/plot_properties_vfp.py:165-167 | different integers are written differently |
| Quantities.NameTableRule | src/sapphireppplot/plot_properties_mhd.py:149-171 | the name table knows exactly the 13 quantities; a component gets an upper-case axis unless `dimension <= 1` (for `y`) or `<= 2` (for `z`) |
| Quantities.NameTableInjective | src/sapphireppplot/plot_properties_mhd.py:149-171 | the series name determines the quantity, in every dimension |
| Quantities.LabelAnnotation | src/sapphireppplot/plot_properties_mhd.py:197-225 | an annotation inserts `_{ann}` (rho, E, P, psi) or `, ann` (components) just before the label's closing characters; empty changes nothing |
| Quantities.SeriesBlock | src/sapphireppplot/plot_properties_mhd.py:76-96 | each prefix contributes 7 series, plus 3 when `dimension <= 1` and 3 more when `dimension <= 2` |
| Quantities.SeriesBlockQuantities | src/sapphireppplot/plot_properties_mhd.py:76-96 | a quantity has a series of its own iff it is a scalar or a component the dimension does not resolve |
| Quantities.WriteQuantities | src/sapphireppplot/plot_properties_mhd.py:37-104 | labels and line styles are keyed by exactly the quantity names under every prefix; other fields are unchanged |
| Quantities.WriteQuantitiesSeries | src/sapphireppplot/plot_properties_mhd.py:72-96 | the series list is one block per variant, in variant order |
| Quantities.KeysDistinct | src/sapphireppplot/plot_properties_mhd.py:98-104 | no two quantity/prefix pairs share a label key |
| Quantities.TableNameInjective | src/sapphireppplot/plot_properties_mhd.py:98-104 | a label key determines its prefix and its quantity |
| Quantities.WriteQuantitiesValues | src/sapphireppplot/plot_properties_mhd.py:98-104 | each quantity under each prefix carries its annotated label and the variant's line style |
| Quantities.AddIndicators | src/sapphireppplot/plot_properties_mhd.py:106-120 | indicators are appended to the series once, keyed by their own name with line style `1`; other keys are kept |
| Quantities.WriteQuantitiesKeys | src/sapphireppplot/plot_properties_mhd.py:98-104 | a key is labelled iff it is styled iff it is some quantity's name under some prefix |
| PropertiesMhd.QuantityName | src/sapphireppplot/plot_properties_mhd.py:122-179 | indicators pass through; physical quantities get prefix plus the dimension rule; else a loaded series is returned as is; else `ValueError` |
| PropertiesMhd.QuantityLabel | src/sapphireppplot/plot_properties_mhd.py:181-230 | table label (annotated), else the `labels` entry, else `ValueError` |
| PropertiesMhd.PostInitSeries | src/sapphireppplot/plot_properties_mhd.py:72-115 | `|variants| * block` series in variant order, then the six indicators once iff shown |
| PropertiesMhd.PostInitQuantities | src/sapphireppplot/plot_properties_mhd.py:98-104 | every quantity is keyed by its `quantity_name` and labelled by its `quantity_label` |
| PropertiesMhd.PostInitIndicators | src/sapphireppplot/plot_properties_mhd.py:106-120 | shown indicators carry their `quantity_label` and line style `1` |
| PropertiesMhd.PostInitKeys | src/sapphireppplot/plot_properties_mhd.py:36-120 | labels and line styles are keyed by exactly the quantity names under every prefix, plus the indicators when shown |
| PropertiesMhd.NotIndicator | src/sapphireppplot/plot_properties_mhd.py:106-120 | a quantity key never collides with an indicator name |
| Mhd.QuantityName | src/sapphireppplot/mhd.py:190-239 | four indicators pass through, physical quantities follow the dimension rule, anything else is a `KeyError` |
| Mhd.QuantityLabel | src/sapphireppplot/mhd.py:241-282 | table label (annotated), else a `KeyError` |
| Mhd.PostInitSeries | src/sapphireppplot/mhd.py:41-172 | the 7/+3/+3 block per variant, then the four indicators once iff shown |
| Mhd.PostInitQuantities | src/sapphireppplot/mhd.py:103-110 | every quantity is keyed by its `quantity_name` and labelled by its `quantity_label` |
| Mhd.PostInitIndicators | src/sapphireppplot/mhd.py:160-172 | shown indicators carry their label and line style `1` |
| Mhd.PlotQuantities1d | src/sapphireppplot/mhd.py:326-345 | title is the label iff exactly one quantity, else `$\mathbf{w}(x)$`; visible lines per quantity in prefix order; a failing title label is the error, otherwise the first failing name lookup |
| Mhd.PlotQuantities1dMhdSucceeds | src/sapphireppplot/mhd.py:326-345 | the plot succeeds iff every quantity is physical or an indicator |
| Mhd.PlotQuantities1dMhdLines | src/sapphireppplot/mhd.py:330-345 | line `j` of quantity `i` is the prefixed series name, or the bare indicator |
| PropertiesAthena.PostInit | src/sapphireppplot/plot_properties_athena.py:15-23 | cell data and the fixed list naming `dens` twice; nothing else changes |
| PropertiesAthena.AthenaTableRule | src/sapphireppplot/plot_properties_athena.py:42-51 | the table is the Athena++ rule: `dens`, `Etot`, `mom_<AXIS>`, `Bcc_<AXIS>` |
| PropertiesAthena.QuantityName | src/sapphireppplot/plot_properties_athena.py:26-59 | Athena++ name under the prefix, else a loaded series as is, else `ValueError` |
| PropertiesAthena.QuantityNameIgnoresDimension | src/sapphireppplot/plot_properties_athena.py:42-54 | Athena++ names do not depend on the dimension |
| PropertiesAthena.PostInitQuantityName | src/sapphireppplot/plot_properties_athena.py:15-59 | after initialisation exactly the table quantities and the fixed series resolve; `P`, `u_*`, `psi` fail |
| PropertiesAthena.PlotQuantities1dAthena | src/sapphireppplot/mhd.py:326-345 | with Athena++ properties a plot succeeds iff every quantity resolves and a single quantity has an `mhd.py` label |
| Numpyify.ToNumpy1d | src/sapphireppplot/numpyify.py:9-69 | bad column is `IndexError`; otherwise Ok iff every array exists and matches the points; x-values and each data row are the masked subsequences, aligned by original index |
| Numpyify.FilterRows | src/sapphireppplot/numpyify.py:59-67 | one row per array name in order, each the masked array; the first missing or misfitting array is the error |
| Numpyify.SelectLoop | src/sapphireppplot/numpyify.py:57 | boolean indexing keeps the masked entries in order |
| Numpyify.Kept | src/sapphireppplot/numpyify.py:52-57 | the kept positions are strictly increasing and are exactly the masked ones |
| Numpyify.SelectInRange | src/sapphireppplot/numpyify.py:52-57 | every kept x lies within the bounds, and every x within the bounds is kept |
| Numpyify.NoBoundsKeepsAll | src/sapphireppplot/numpyify.py:52-57 | without bounds every point is kept |
| Transform.LineEndpoints | src/sapphireppplot/transform.py:54-89 | list: first two points; `x`/`y`/`z`: min to max of that axis at the offset; `d`: bounding-box diagonal; other names `ValueError`, short lists `IndexError` |
| Transform.OffsetLength | src/sapphireppplot/transform.py:61-78 | a coordinate line succeeds iff the offset has the entries it reads (3 for `x`/`y`, 2 for `z`) |
| Transform.DefaultOffset | src/sapphireppplot/transform.py:54-55 | without an offset the other two coordinates are zero |
| Transform.SamplingFor | src/sapphireppplot/transform.py:91-109 | the three patterns are accepted, anything else is `ValueError`; resolution or tolerance is set iff the resolution is truthy |
| Transform.SamplingPatternsDistinct | src/sapphireppplot/transform.py:91-105 | different patterns give different ParaView sampling patterns |
| Transform.SavedArrays | src/sapphireppplot/transform.py:116-120 | the series names (if any) come first; `arc_length` is added only for `d` or the empty list |
| Transform.PlotOverLine | src/sapphireppplot/transform.py:54-131 | succeeds iff both the end points and the sampling do, with the end-point error first and then the sampling error; on success the filter uses those end points and that sampling; saves iff a non-empty file name is given, writing only the chosen arrays (flag 1) iff series names are set |
| Transform.SavedArcLength | src/sapphireppplot/transform.py:112-131 | a saved line carries `arc_length` beyond its series exactly for the direction `d` |
| Vfp.MomentumCoordinate | src/sapphireppplot/vfp.py:49-60 | `dim_ps` 1/2/3 selects `coordsX/Y/Z`, wrapped in `exp()` on a logarithmic grid; anything else fails an assertion |
| Vfp.ScaleDistributionFunction | src/sapphireppplot/vfp.py:12-74 | indices default to `[[0,0,0]]` and the spectral index to 4.0; Ok iff momentum and `dim_ps` in 1..3; one calculator per index writing the new name as `<coord>^<s> * <old name>` |
| Vfp.DefaultSpectralIndexUsed | src/sapphireppplot/vfp.py:16 | leaving out the spectral index is the same as passing 4.0, which the result records |
| Vfp.CalculatorsListed | src/sapphireppplot/vfp.py:42-74 | without `numeric_`, calculator `k`'s result is series `k` of the rescaled properties |
| Vfp.YLabelSpecific | src/sapphireppplot/vfp.py:211-213 | the y-label is the generic `l m s` label iff not exactly one index is plotted |
| Vfp.VisibleFLmsLoaded | src/sapphireppplot/vfp.py:215-225 | each visible line of a table index is a series `__post_init__` lists |
| Vfp.VisibleFLmsAt | src/sapphireppplot/vfp.py:215-225 | index `i`, prefix `j` sits at `i*|prefixes|+j` |
| Vfp.XAxisOverX | src/sapphireppplot/vfp.py:227-246 | list: no array, `$d$`; `x`/`y`/`z`: `Points_<AXIS>`, `$<axis>$`; `d`: `arc_length`; other names `ValueError` |
| Vfp.XAxisMatchesLine | src/sapphireppplot/vfp.py:227-255 | the plot rejects exactly the names the line rejects with `ValueError`, and its `arc_length` axis is saved with the line |
| Vfp.PAxisOverP | src/sapphireppplot/vfp.py:345-361 | `dim_ps` 1/2/3 gives direction `x`/`y`/`z` over `Points_X/Y/Z`; label `$\ln p$` iff logarithmic, else `$p$`; else an assertion fails |
| Vfp.MomentumAxisAgrees | src/sapphireppplot/vfp.py:345-361 | the momentum plot samples along the axis whose coordinate the rescaling uses, named as the x-plot names it |
| Vfp.PlotFLmsOverX | src/sapphireppplot/vfp.py:208-255 | `ValueError` iff the direction is unknown; y-label, visible lines and x-axis as above, with default indices `[[0,0,0]]` |
| Vfp.PlotFLmsOverP | src/sapphireppplot/vfp.py:329-370 | fails an assertion iff `dim_ps` is not 1..3; momentum axis, y-label and visible lines as above |

## Left out

- ParaView and VTK calls are not modelled: the filters, views, layouts,
  screenshots, animations, `Fetch`, `GetBounds` and `SaveData`. Bounds,
  points and point-data arrays are parameters instead.
- `os.path.join` and the `print` in `plot_over_line` are I/O and are left out.
- The loaders in `pvload.py`, `load.py` and `plot1d.py` are left out. They are
  file and reader I/O.
- The view code in `plot.py`, `pvplot.py` and `plot1d.py` is left out, and
  so are `plot_f_lms_2d`, `clip_area`, `plot_split_view_1d` and
  `plot_quantity_2d`. All of it is ParaView UI configuration.
- `utils.py` and `athena.py` are not part of this model: they are command-line
  input, global state and a ParaView filter.
- Floating point is not modelled. A float is its value plus the text
  renderings `:g` and `str()`, and those are given as data.
- Coordinates and array values are `real`. Comparisons are exact.
- `line_colors` is left out. `mhd.py`'s `__post_init__` calls
  `self.line_colors.update(...)`, but the base class defaults `line_colors`
  to `None`, so that call raises `AttributeError` unless a dictionary was
  passed in. The model is the state of the series, labels and line styles.
- `scale_distribution_function` also copies colours between
  `line_colors` entries. This is left out for the same reason.
- `grid_labels` is left out. `PlotPropertiesVFP.__post_init__` writes
  `grid_labels[dim_ps - 1]` when `momentum` is set, but the base class has no
  such field, so that write raises `AttributeError` unless a subclass or
  caller provides one. The model assumes such a field exists, as it does for
  `line_colors` and `sampling_pattern`: `PropertiesVfp.PostInit` never fails,
  and the axis label it would write is not modelled.
- The `colors` field that `PlotPropertiesMHD.__post_init__` resets is never
  read by the modelled code and is left out.
- `labels` and `line_styles` are plain maps. In `PlotPropertiesAthena` they
  stay `None`, which the modelled code never reads.
- Vector-valued point-data arrays are left out. `Numpyify` covers one-component
  arrays: an array is a sequence with one value per point.
- In `plot_over_line`, `sampling_pattern` and `sampling_resolution` are
  attributes the base `PlotProperties` does not declare. They are parameters
  here, and a missing `sampling_pattern` is an `AttributeError`.
  - A missing `sampling_resolution` is not modelled.
  - The VFP plots hand their properties to `plot_over_line`, so they would
    stop there. This composition is left out; `Vfp.PlotFLmsOverX` and
    `Vfp.PlotFLmsOverP` model the plot functions' own rules.
- The `Calculator` pipeline chaining (each filter's input is the previous
  one) is represented only by the order of `Vfp.Calculators`.
- PropertiesVfp.SeriesForDistinct: distinctness is stated for single-digit
  indices only. Indices of two or more digits can give equal names, e.g.
  `[1, 11, 0]` and `[11, 1, 0]`.
- PropertiesVfp.PostInitSeries: stated for expansion orders 0 to 9, where all
  table indices have one digit.
- PropertiesVfp.ScaleBySpectralIndex: its own contract states only keys and
  the spectral index; the exact series list is stated by
  ScaleBySpectralIndexSeries, and the label and line-style values by
  WriteSeries, which it applies.
- Transform.LineEndpoints: for a list direction the end points are whatever
  the first two list entries are. The model does not check their length,
  and neither does the source.
