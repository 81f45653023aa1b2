/** `to_numpy_1d` of src/sapphireppplot/numpyify.py: one coordinate column of
    a fetched line of points as x-values, and named point-data arrays as rows,
    all filtered by the same mask `x_min <= x <= x_max`. The fetch and the
    VTK-to-numpy conversion become the given Dataset. */
module Numpyify {
  import opened Wrappers

  /** A point of the fetched data set. */
  datatype Point = Point(x: real, y: real, z: real)

  /** What the fetch delivers: the points, and the scalar point-data arrays
      by name. */
  datatype Dataset = Dataset(points: seq<Point>, pointData: map<string, seq<real>>)

  /** The x-values and one row per requested array. */
  datatype Extracted = Extracted(xValues: seq<real>, data: seq<seq<real>>)

  /** `points[:, x_direction]` on the three coordinate columns accepts
      numpy's indices -3 to 2. */
  predicate ValidDirection(xDirection: int) {
    -3 <= xDirection <= 2
  }

  function Coordinate(pt: Point, xDirection: int): real
    requires ValidDirection(xDirection)
  {
    var axis := if xDirection < 0 then xDirection + 3 else xDirection;
    if axis == 0 then pt.x else if axis == 1 then pt.y else pt.z
  }

  function Column(points: seq<Point>, xDirection: int): (r: seq<real>)
    requires ValidDirection(xDirection)
    ensures |r| == |points|
    ensures forall i :: 0 <= i < |points| ==> r[i] == Coordinate(points[i], xDirection)
  {
    seq(|points|, i requires 0 <= i < |points| => Coordinate(points[i], xDirection))
  }

  /** A bound that is `None` does not restrict. */
  predicate InRange(x: real, xMin: Option<real>, xMax: Option<real>) {
    (xMin.None? || x >= xMin.value) && (xMax.None? || x <= xMax.value)
  }

  /** The boolean mask, element by element. */
  function Mask(xs: seq<real>, xMin: Option<real>, xMax: Option<real>): (r: seq<bool>)
    ensures |r| == |xs|
    ensures forall i :: 0 <= i < |xs| ==> r[i] == InRange(xs[i], xMin, xMax)
  {
    seq(|xs|, i requires 0 <= i < |xs| => InRange(xs[i], xMin, xMax))
  }

  /** The positions a mask keeps, in increasing order. */
  function Kept(mask: seq<bool>): (r: seq<nat>)
    ensures forall j :: 0 <= j < |r| ==> r[j] < |mask| && mask[r[j]]
    ensures forall j, k :: 0 <= j < k < |r| ==> r[j] < r[k]
    ensures forall i :: 0 <= i < |mask| && mask[i] ==> i in r
  {
    if |mask| == 0 then []
    else Kept(mask[..|mask| - 1]) + (if mask[|mask| - 1] then [|mask| - 1] else [])
  }

  /** `array[mask]`: the elements at the kept positions, in order. */
  function Select(a: seq<real>, mask: seq<bool>): (r: seq<real>)
    requires |a| == |mask|
    ensures |r| == |Kept(mask)|
    ensures forall j :: 0 <= j < |r| ==> r[j] == a[Kept(mask)[j]]
  {
    if |a| == 0 then []
    else
      var n := |a| - 1;
      var front := Select(a[..n], mask[..n]);
      var r := front + (if mask[n] then [a[n]] else []);
      var kept := Kept(mask[..n]);
      SelectStep(a, mask, front, kept);
      r
  }

  /** Selecting from all but the last position, then appending the last
      element if it is kept, selects from the whole array. */
  lemma SelectStep(a: seq<real>, mask: seq<bool>, front: seq<real>, kept: seq<nat>)
    requires |a| == |mask| > 0
    requires kept == Kept(mask[..|a| - 1])
    requires |front| == |kept|
    requires forall j :: 0 <= j < |front| ==> kept[j] < |a| - 1 && front[j] == a[..|a| - 1][kept[j]]
    ensures var n := |a| - 1; var r := front + (if mask[n] then [a[n]] else []);
      && |r| == |Kept(mask)|
      && forall j :: 0 <= j < |r| ==> r[j] == a[Kept(mask)[j]]
  {
    var n := |a| - 1;
    assert mask[..n] == mask[..|mask| - 1];
    assert Kept(mask) == kept + (if mask[n] then [n] else []);
  }

  /** An array the loop can filter: present, and one value per point. */
  predicate Usable(ds: Dataset, name: string) {
    name in ds.pointData && |ds.pointData[name]| == |ds.points|
  }

  /** The exception the first unusable array raises: a missing array is
      `None`, which the conversion cannot read; a length other than the
      mask's fails the boolean index. */
  function ArrayError(ds: Dataset, name: string): Error {
    if name !in ds.pointData then AttributeError(name) else IndexError(name)
  }

  /** `to_numpy_1d`. */
  method ToNumpy1d(ds: Dataset, arrayNames: seq<string>, xDirection: int, xMin: Option<real>, xMax: Option<real>)
    returns (r: Result<Extracted>)
    ensures !ValidDirection(xDirection) ==> r.Err? && r.error.IndexError?
    ensures ValidDirection(xDirection) ==> (r.Ok? <==> forall i :: 0 <= i < |arrayNames| ==> Usable(ds, arrayNames[i]))
    ensures ValidDirection(xDirection) && r.Err? ==>
      exists i :: 0 <= i < |arrayNames| && !Usable(ds, arrayNames[i]) && r.error == ArrayError(ds, arrayNames[i])
             && forall k :: 0 <= k < i ==> Usable(ds, arrayNames[k])
    ensures r.Ok? ==>
      var mask := Mask(Column(ds.points, xDirection), xMin, xMax);
      && r.value.xValues == Select(Column(ds.points, xDirection), mask)
      && |r.value.data| == |arrayNames|
      && forall i :: 0 <= i < |arrayNames| ==> r.value.data[i] == Select(ds.pointData[arrayNames[i]], mask)
    ensures r.Ok? ==>
      var kept := Kept(Mask(Column(ds.points, xDirection), xMin, xMax));
      && |r.value.xValues| == |kept|
      && forall i, j :: 0 <= i < |arrayNames| && 0 <= j < |kept| ==>
           && kept[j] < |ds.points|
           && r.value.xValues[j] == Coordinate(ds.points[kept[j]], xDirection)
           && |r.value.data[i]| == |kept|
           && r.value.data[i][j] == ds.pointData[arrayNames[i]][kept[j]]
  {
    if !ValidDirection(xDirection) {
      return Err(IndexError("index out of bounds for axis 1 with size 3"));
    }
    var xs := Column(ds.points, xDirection);
    var mask := Mask(xs, xMin, xMax);
    var xValues := SelectLoop(xs, mask);
    var data :- FilterRows(ds, arrayNames, mask);
    return Ok(Extracted(xValues, data));
  }

  /** The loop over `array_names`: each array filtered by the mask, in
      order; the first unusable array aborts. */
  method FilterRows(ds: Dataset, arrayNames: seq<string>, mask: seq<bool>) returns (r: Result<seq<seq<real>>>)
    requires |mask| == |ds.points|
    ensures r.Ok? <==> forall i :: 0 <= i < |arrayNames| ==> Usable(ds, arrayNames[i])
    ensures r.Err? ==>
      exists i :: 0 <= i < |arrayNames| && !Usable(ds, arrayNames[i]) && r.error == ArrayError(ds, arrayNames[i])
             && forall k :: 0 <= k < i ==> Usable(ds, arrayNames[k])
    ensures r.Ok? ==> |r.value| == |arrayNames|
    ensures r.Ok? ==> forall i :: 0 <= i < |arrayNames| ==> r.value[i] == Select(ds.pointData[arrayNames[i]], mask)
  {
    var data: seq<seq<real>> := [];
    var i := 0;
    while i < |arrayNames|
      invariant 0 <= i <= |arrayNames|
      invariant |data| == i
      invariant forall k :: 0 <= k < i ==> Usable(ds, arrayNames[k]) && data[k] == Select(ds.pointData[arrayNames[k]], mask)
    {
      var name := arrayNames[i];
      if !Usable(ds, name) {
        r := Err(ArrayError(ds, name));
        assert 0 <= i < |arrayNames| && !Usable(ds, arrayNames[i]) && r.error == ArrayError(ds, arrayNames[i]);
        return;
      }
      var row := SelectLoop(ds.pointData[name], mask);
      data := data + [row];
      i := i + 1;
    }
    return Ok(data);
  }

  /** The boolean index `array[mask]`, element by element. */
  method SelectLoop(a: seq<real>, mask: seq<bool>) returns (r: seq<real>)
    requires |a| == |mask|
    ensures r == Select(a, mask)
  {
    r := [];
    var i := 0;
    while i < |a|
      invariant 0 <= i <= |a|
      invariant r == Select(a[..i], mask[..i])
    {
      assert a[..i + 1][..i] == a[..i] && mask[..i + 1][..i] == mask[..i];
      if mask[i] {
        r := r + [a[i]];
      }
      i := i + 1;
    }
    assert a[..i] == a && mask[..i] == mask;
  }

  /** Every returned x lies within the bounds, every point within them is
      kept, and the kept positions keep their input order. */
  lemma SelectInRange(xs: seq<real>, xMin: Option<real>, xMax: Option<real>)
    ensures var mask := Mask(xs, xMin, xMax); var kept := Kept(mask);
      && (forall j :: 0 <= j < |kept| ==> InRange(Select(xs, mask)[j], xMin, xMax))
      && (forall i :: 0 <= i < |xs| ==> (InRange(xs[i], xMin, xMax) <==> i in kept))
      && (forall j, k :: 0 <= j < k < |kept| ==> kept[j] < kept[k])
  {
  }

  /** The positions `0 .. n-1` in order. */
  function Positions(n: nat): (r: seq<nat>)
    ensures |r| == n
    ensures forall i :: 0 <= i < n ==> r[i] == i
  {
    seq(n, i => i)
  }

  /** A mask without a false entry keeps every position. */
  lemma {:induction false} KeptAll(mask: seq<bool>)
    requires forall i :: 0 <= i < |mask| ==> mask[i]
    ensures Kept(mask) == Positions(|mask|)
  {
    if |mask| > 0 {
      var n := |mask| - 1;
      var front := mask[..n];
      assert forall i :: 0 <= i < |front| ==> front[i];
      KeptAll(front);
      var k := Kept(front);
      assert Kept(mask) == k + [n];
      forall i | 0 <= i < |mask|
        ensures (k + [n])[i] == Positions(|mask|)[i]
      {
        if i < n {
          assert k[i] == Positions(n)[i];
        }
      }
    }
  }

  /** With neither bound set nothing is filtered out. */
  lemma NoBoundsKeepsAll(a: seq<real>, xs: seq<real>)
    requires |a| == |xs|
    ensures Select(a, Mask(xs, None, None)) == a
  {
    var mask := Mask(xs, None, None);
    assert forall i :: 0 <= i < |mask| ==> mask[i];
    KeptAll(mask);
    SelectIdentity(a, mask);
  }

  /** Keeping every position selects the whole array. */
  lemma SelectIdentity(a: seq<real>, mask: seq<bool>)
    requires |a| == |mask|
    requires Kept(mask) == Positions(|mask|)
    ensures Select(a, mask) == a
  {
    var r := Select(a, mask);
    forall j | 0 <= j < |a|
      ensures r[j] == a[j]
    {
      assert Kept(mask)[j] == j;
    }
  }
}
