/** `plot_over_line` of src/sapphireppplot/transform.py: the end points of
    the sampling line, the sampling pattern, and the arrays written when the
    line data is saved. The ParaView filter, the fetch of the data bounds and
    the file writing are left to the caller. */
module Transform {
  import opened Wrappers

  /** A direction: one of the names `x`, `y`, `z`, `d`, or a list of points. */
  datatype Direction = Named(name: string) | Line(points: seq<seq<real>>)

  /** `GetBounds()`: minimum and maximum along each axis. */
  datatype Bounds = Bounds(xMin: real, xMax: real, yMin: real, yMax: real, zMin: real, zMax: real)

  datatype Endpoints = Endpoints(point1: seq<real>, point2: seq<real>)

  function Lo(b: Bounds, axis: nat): real {
    if axis == 0 then b.xMin else if axis == 1 then b.yMin else b.zMin
  }

  function Hi(b: Bounds, axis: nat): real {
    if axis == 0 then b.xMax else if axis == 1 then b.yMax else b.zMax
  }

  /** The axis a coordinate direction runs along. */
  function AxisOf(name: string): Option<nat> {
    if name == "x" then Some(0) else if name == "y" then Some(1) else if name == "z" then Some(2) else None
  }

  const Origin: seq<real> := [0.0, 0.0, 0.0]

  /** The two end points of the line. A point list gives its first two
      points; a coordinate direction runs from the minimum to the maximum of
      its axis, at the offset in the other two coordinates; `d` runs along
      the diagonal of the bounding box. Indexing a too short list is an
      `IndexError`, any other name a `ValueError`. */
  function LineEndpoints(direction: Direction, offset: Option<seq<real>>, bounds: Bounds): (r: Result<Endpoints>)
    ensures direction.Line? ==> (r.Ok? <==> |direction.points| >= 2)
    ensures direction.Line? && r.Ok? ==> r.value == Endpoints(direction.points[0], direction.points[1])
    ensures direction.Named? && direction.name == "d" ==>
      r == Ok(Endpoints([bounds.xMin, bounds.yMin, bounds.zMin], [bounds.xMax, bounds.yMax, bounds.zMax]))
    ensures direction.Named? && direction.name != "d" && AxisOf(direction.name).None? ==> r.Err? && r.error.ValueError?
    ensures r.Err? ==> r.error.ValueError? || r.error.IndexError?
    ensures r.Ok? && direction.Named? && AxisOf(direction.name).Some? ==>
      var axis := AxisOf(direction.name).value;
      var off := if offset.Some? then offset.value else Origin;
      && |r.value.point1| == 3 && |r.value.point2| == 3
      && r.value.point1[axis] == Lo(bounds, axis) && r.value.point2[axis] == Hi(bounds, axis)
      && forall k :: 0 <= k < 3 && k != axis ==> k < |off| && r.value.point1[k] == off[k] && r.value.point2[k] == off[k]
  {
    var off := if offset.Some? then offset.value else Origin;
    match direction
    case Line(points) =>
      if |points| < 2 then Err(IndexError("list index out of range"))
      else Ok(Endpoints(points[0], points[1]))
    case Named(name) =>
      if name == "x" then
        if |off| <= 2 then Err(IndexError("list index out of range"))
        else Ok(Endpoints([bounds.xMin, off[1], off[2]], [bounds.xMax, off[1], off[2]]))
      else if name == "y" then
        if |off| <= 2 then Err(IndexError("list index out of range"))
        else Ok(Endpoints([off[0], bounds.yMin, off[2]], [off[0], bounds.yMax, off[2]]))
      else if name == "z" then
        if |off| <= 1 then Err(IndexError("list index out of range"))
        else Ok(Endpoints([off[0], off[1], bounds.zMin], [off[0], off[1], bounds.zMax]))
      else if name == "d" then
        Ok(Endpoints([bounds.xMin, bounds.yMin, bounds.zMin], [bounds.xMax, bounds.yMax, bounds.zMax]))
      else Err(ValueError("Unknown direction " + name))
  }

  /** The offset entries a coordinate direction reads: `x` and `y` read the
      third entry, `z` only the first two. */
  lemma OffsetLength(name: string, offset: seq<real>, bounds: Bounds)
    requires AxisOf(name).Some?
    ensures LineEndpoints(Named(name), Some(offset), bounds).Ok? <==> |offset| >= (if name == "z" then 2 else 3)
  {
  }

  /** Without an offset every coordinate line passes through the origin's
      plane: the other two coordinates are zero. */
  lemma DefaultOffset(name: string, bounds: Bounds, k: nat)
    requires AxisOf(name).Some? && k < 3 && k != AxisOf(name).value
    ensures LineEndpoints(Named(name), None, bounds).Ok?
    ensures LineEndpoints(Named(name), None, bounds).value.point1[k] == 0.0
    ensures LineEndpoints(Named(name), None, bounds).value.point2[k] == 0.0
  {
  }

  // ---------------------------------------------------------------------------
  // Sampling pattern

  /** What the sampling branch sets on the filter: the pattern, and either a
      resolution (uniform sampling) or a fixed tolerance with automatic
      tolerance switched off (the other two patterns). */
  datatype Sampling = Sampling(pattern: string, resolution: Option<real>, tolerance: Option<real>, computeTolerance: bool)

  /** Python truthiness of `sampling_resolution`. */
  predicate Truthy(x: Option<real>) {
    x.Some? && x.value != 0.0
  }

  /** The sampling settings for `sampling_pattern` and `sampling_resolution`;
      `pattern` is `None` when the properties object has no such attribute. */
  function SamplingFor(pattern: Option<string>, resolution: Option<real>): (r: Result<Sampling>)
    ensures pattern.None? ==> r.Err? && r.error.AttributeError?
    ensures pattern.Some? ==> (r.Ok? <==> pattern.value in ["uniform", "center", "boundary"])
    ensures pattern.Some? && r.Err? ==> r.error.ValueError?
    ensures r.Ok? ==> (r.value.resolution.Some? <==> pattern.value == "uniform" && Truthy(resolution))
    ensures r.Ok? ==> (r.value.tolerance.Some? <==> pattern.value != "uniform" && Truthy(resolution))
    ensures r.Ok? ==> (!r.value.computeTolerance <==> r.value.tolerance.Some?)
    ensures r.Ok? && Truthy(resolution) ==> r.value.resolution == resolution || r.value.tolerance == resolution
  {
    if pattern.None? then Err(AttributeError("sampling_pattern"))
    else if pattern.value == "uniform" then
      Ok(Sampling("Sample Uniformly", if Truthy(resolution) then resolution else None, None, true))
    else if pattern.value == "center" then
      Ok(Sampling("Sample At Segment Centers", None, if Truthy(resolution) then resolution else None, !Truthy(resolution)))
    else if pattern.value == "boundary" then
      Ok(Sampling("Sample At Cell Boundaries", None, if Truthy(resolution) then resolution else None, !Truthy(resolution)))
    else Err(ValueError("Unknown sampling pattern " + pattern.value))
  }

  /** The three patterns map to three different ParaView sampling patterns. */
  lemma SamplingPatternsDistinct(a: string, b: string, resolution: Option<real>)
    requires SamplingFor(Some(a), resolution).Ok? && SamplingFor(Some(b), resolution).Ok?
    ensures SamplingFor(Some(a), resolution).value.pattern == SamplingFor(Some(b), resolution).value.pattern <==> a == b
  {
  }

  // ---------------------------------------------------------------------------
  // Saved arrays

  /** The point-data arrays saved with the line: the series names, if any,
      then `arc_length` when the direction is `d` or the empty list. */
  function SavedArrays(seriesNames: Option<seq<string>>, direction: Direction): (r: seq<string>)
    ensures seriesNames.Some? ==> seriesNames.value <= r
    ensures seriesNames.None? ==> r == [] || r == ["arc_length"]
    ensures "arc_length" in r && (seriesNames.None? || "arc_length" !in seriesNames.value)
        ==> direction == Named("d") || direction == Line([])
  {
    (if seriesNames.Some? && |seriesNames.value| > 0 then seriesNames.value else [])
    + (if direction == Line([]) || direction == Named("d") then ["arc_length"] else [])
  }

  /** `ChooseArraysToWrite`: restrict the saved arrays exactly when the
      properties list series. */
  function ChooseArraysToWrite(seriesNames: Option<seq<string>>): (r: int)
    ensures r == 1 <==> seriesNames.Some?
    ensures r == 0 || r == 1
  {
    if seriesNames.Some? then 1 else 0
  }

  /** What `plot_over_line` configures: the line, the sampling, and the
      save request when a file name is given. */
  datatype SaveRequest = SaveRequest(chooseArraysToWrite: int, pointDataArrays: seq<string>)
  datatype LineSetup = LineSetup(endpoints: Endpoints, sampling: Sampling, save: Option<SaveRequest>)

  /** `plot_over_line`: end points first, then the sampling pattern, then the
      save request for a non-empty file name. */
  function PlotOverLine(direction: Direction, offset: Option<seq<real>>, bounds: Bounds, filename: Option<string>,
                        seriesNames: Option<seq<string>>, pattern: Option<string>, resolution: Option<real>): (r: Result<LineSetup>)
    ensures r.Ok? <==> LineEndpoints(direction, offset, bounds).Ok? && SamplingFor(pattern, resolution).Ok?
    ensures LineEndpoints(direction, offset, bounds).Err? ==> r == Err(LineEndpoints(direction, offset, bounds).error)
    ensures LineEndpoints(direction, offset, bounds).Ok? && SamplingFor(pattern, resolution).Err?
        ==> r == Err(SamplingFor(pattern, resolution).error)
    ensures r.Ok? ==> r.value.endpoints == LineEndpoints(direction, offset, bounds).value
    ensures r.Ok? ==> r.value.sampling == SamplingFor(pattern, resolution).value
    ensures r.Ok? ==> (r.value.save.Some? <==> filename.Some? && filename.value != "")
    ensures r.Ok? && r.value.save.Some? ==>
      && (r.value.save.value.chooseArraysToWrite == 1 <==> seriesNames.Some?)
      && (r.value.save.value.chooseArraysToWrite == 0 <==> seriesNames.None?)
      && r.value.save.value.pointDataArrays == SavedArrays(seriesNames, direction)
  {
    var endpoints :- LineEndpoints(direction, offset, bounds);
    var sampling :- SamplingFor(pattern, resolution);
    var save := if filename.Some? && filename.value != "" then
      Some(SaveRequest(ChooseArraysToWrite(seriesNames), SavedArrays(seriesNames, direction)))
    else None;
    Ok(LineSetup(endpoints, sampling, save))
  }

  /** An empty point list fails before anything is saved, so a saved line
      carries `arc_length` beyond its series exactly for the direction `d`. */
  lemma SavedArcLength(direction: Direction, offset: Option<seq<real>>, bounds: Bounds, filename: Option<string>,
                       seriesNames: Option<seq<string>>, pattern: Option<string>, resolution: Option<real>)
    requires PlotOverLine(direction, offset, bounds, filename, seriesNames, pattern, resolution).Ok?
    requires PlotOverLine(direction, offset, bounds, filename, seriesNames, pattern, resolution).value.save.Some?
    ensures var arrays := PlotOverLine(direction, offset, bounds, filename, seriesNames, pattern, resolution).value.save.value.pointDataArrays;
      var series := if seriesNames.Some? && |seriesNames.value| > 0 then seriesNames.value else [];
      arrays == series + (if direction == Named("d") then ["arc_length"] else [])
  {
  }
}
