/**
 * Schema discovery (`get_cube_meta`): the backend's `/meta` reply is projected
 * onto a compact per-cube summary of measure names, dimension names and the
 * names of the time dimensions. The reply is an input value; fetching it is
 * the backend's business.
 */
module CubeMeta {
  import opened Wrappers
  import opened Json

  /** A raw measure of the `/meta` reply; only its required `name` is read. */
  datatype RawMeasure = RawMeasure(name: string)

  /** A raw dimension; `dtype` is its optional `type` value, which may be any JSON value. */
  datatype RawDimension = RawDimension(name: string, dtype: Option<Json>)

  /** A raw cube; `measures` and `dimensions` are `None` when the key is absent. */
  datatype RawCube = RawCube(
    name: string,
    measures: Option<seq<RawMeasure>>,
    dimensions: Option<seq<RawDimension>>)

  /** The whole `/meta` reply; `cubes` is `None` when the key is absent. */
  datatype RawMeta = RawMeta(cubes: Option<seq<RawCube>>)

  /** One cube as returned to the caller. */
  datatype CubeSummary = CubeSummary(
    name: string,
    measures: seq<string>,
    dimensions: seq<string>,
    timeDimensions: seq<string>)

  /** The reply of `get_cube_meta`: `{"cubes": [...]}`. */
  datatype MetaResponse = MetaResponse(cubes: seq<CubeSummary>)

  /** A dimension is a time dimension when its `type` is present and is the string "time". */
  predicate IsTime(d: RawDimension)
  {
    d.dtype == Some(JStr("time"))
  }

  /** The names of the measures, one per measure and in order. */
  function MeasureNames(ms: seq<RawMeasure>): (r: seq<string>)
    ensures |r| == |ms|
    ensures forall i :: 0 <= i < |ms| ==> r[i] == ms[i].name
  {
    if ms == [] then [] else [ms[0].name] + MeasureNames(ms[1..])
  }

  /** The names of all dimensions, whatever their type, one per dimension and in order. */
  function DimensionNames(ds: seq<RawDimension>): (r: seq<string>)
    ensures |r| == |ds|
    ensures forall i :: 0 <= i < |ds| ==> r[i] == ds[i].name
  {
    if ds == [] then [] else [ds[0].name] + DimensionNames(ds[1..])
  }

  /** The names of the time dimensions, in the order the dimensions come. */
  function TimeDimensionNames(ds: seq<RawDimension>): (r: seq<string>)
    ensures |r| <= |ds|
  {
    if ds == [] then []
    else (if IsTime(ds[0]) then [ds[0].name] else []) + TimeDimensionNames(ds[1..])
  }

  /** Independent reference: the positions of the time dimensions, built from the back. */
  function TimeIndices(ds: seq<RawDimension>): (idx: seq<nat>)
  {
    if ds == [] then []
    else TimeIndices(ds[..|ds| - 1]) + (if IsTime(ds[|ds| - 1]) then [|ds| - 1] else [])
  }

  /** `r` is the subsequence of `s` at the strictly increasing positions `idx`. */
  ghost predicate SelectedAt(r: seq<string>, s: seq<string>, idx: seq<nat>)
  {
    |idx| == |r| &&
    (forall k :: 0 <= k < |idx| ==> idx[k] < |s| && r[k] == s[idx[k]]) &&
    (forall k, l :: 0 <= k < l < |idx| ==> idx[k] < idx[l])
  }

  /** TimeIndices lists, in increasing order, exactly the positions whose dimension has type "time". */
  lemma {:induction false} TimeIndicesExact(ds: seq<RawDimension>)
    ensures forall k :: 0 <= k < |TimeIndices(ds)| ==> TimeIndices(ds)[k] < |ds|
    ensures forall k, l :: 0 <= k < l < |TimeIndices(ds)| ==> TimeIndices(ds)[k] < TimeIndices(ds)[l]
    ensures forall i :: 0 <= i < |ds| ==> (i in TimeIndices(ds) <==> IsTime(ds[i]))
  {
    if ds != [] {
      var init := ds[..|ds| - 1];
      TimeIndicesExact(init);
      assert forall i :: 0 <= i < |init| ==> init[i] == ds[i];
    }
  }

  /** Filtering distributes over concatenation of dimension lists. */
  lemma {:induction false} TimeDimensionNamesAppend(a: seq<RawDimension>, b: seq<RawDimension>)
    ensures TimeDimensionNames(a + b) == TimeDimensionNames(a) + TimeDimensionNames(b)
  {
    if a == [] {
      assert a + b == b;
    } else {
      var ab := a + b;
      assert ab[0] == a[0];
      assert ab[1..] == a[1..] + b;
      var head := if IsTime(a[0]) then [a[0].name] else [];
      assert TimeDimensionNames(ab) == head + TimeDimensionNames(a[1..] + b);
      TimeDimensionNamesAppend(a[1..], b);
      assert TimeDimensionNames(a) == head + TimeDimensionNames(a[1..]);
    }
  }

  /** The time-dimension names are the dimension names at the positions of TimeIndices. */
  lemma {:induction false} TimeDimensionNamesSelected(ds: seq<RawDimension>)
    ensures SelectedAt(TimeDimensionNames(ds), DimensionNames(ds), TimeIndices(ds))
  {
    TimeIndicesExact(ds);
    if ds != [] {
      var init, last := ds[..|ds| - 1], ds[|ds| - 1];
      TimeDimensionNamesSelected(init);
      assert ds == init + [last];
      TimeDimensionNamesAppend(init, [last]);
      assert TimeDimensionNames([last]) == if IsTime(last) then [last.name] else [];
      var r, idx := TimeDimensionNames(ds), TimeIndices(ds);
      var ri, idxi := TimeDimensionNames(init), TimeIndices(init);
      assert r == ri + (if IsTime(last) then [last.name] else []);
      assert idx == idxi + (if IsTime(last) then [|ds| - 1] else []);
      forall k | 0 <= k < |idx|
        ensures idx[k] < |ds| && r[k] == DimensionNames(ds)[idx[k]]
      {
        if k < |idxi| {
          assert idx[k] == idxi[k] && r[k] == ri[k];
        }
      }
    }
  }

  /**
   * `timeDimensions` is exactly the order-preserving subsequence of the
   * dimension names whose type is "time": there are positions, strictly
   * increasing, that select it from the dimension names, and a position is
   * selected if and only if the dimension there has type "time".
   */
  lemma TimeDimensionsExactly(ds: seq<RawDimension>)
    ensures var idx := TimeIndices(ds);
      SelectedAt(TimeDimensionNames(ds), DimensionNames(ds), idx) &&
      forall i :: 0 <= i < |ds| ==> (i in idx <==> IsTime(ds[i]))
  {
    TimeIndicesExact(ds);
    TimeDimensionNamesSelected(ds);
  }

  /** When every dimension is a time dimension, the two lists coincide. */
  lemma {:induction false} AllTimeDimensions(ds: seq<RawDimension>)
    requires forall i :: 0 <= i < |ds| ==> IsTime(ds[i])
    ensures TimeDimensionNames(ds) == DimensionNames(ds)
  {
    if ds != [] {
      AllTimeDimensions(ds[1..]);
    }
  }

  /** A name appears among the time dimensions only if some dimension with that name has type "time". */
  lemma {:induction false} TimeDimensionNameOrigin(ds: seq<RawDimension>, x: string)
    requires x in TimeDimensionNames(ds)
    ensures exists i :: 0 <= i < |ds| && ds[i].name == x && IsTime(ds[i])
  {
    if IsTime(ds[0]) && ds[0].name == x {
      assert ds[0].name == x && IsTime(ds[0]);
    } else {
      TimeDimensionNameOrigin(ds[1..], x);
      var i :| 0 <= i < |ds[1..]| && ds[1..][i].name == x && IsTime(ds[1..][i]);
      assert ds[i + 1] == ds[1..][i];
    }
  }

  /** Without any time dimension, `timeDimensions` is empty. */
  lemma {:induction false} NoTimeDimensions(ds: seq<RawDimension>)
    requires forall i :: 0 <= i < |ds| ==> !IsTime(ds[i])
    ensures TimeDimensionNames(ds) == []
  {
    if TimeDimensionNames(ds) != [] {
      TimeDimensionNameOrigin(ds, TimeDimensionNames(ds)[0]);
    }
  }

  /** The summary of one raw cube (one iteration of the loop in `get_cube_meta`). */
  function ProjectCube(c: RawCube): (r: CubeSummary)
    ensures r.name == c.name
    ensures var ms := c.measures.GetOr([]);
      |r.measures| == |ms| && forall i :: 0 <= i < |ms| ==> r.measures[i] == ms[i].name
    ensures var ds := c.dimensions.GetOr([]);
      |r.dimensions| == |ds| && forall i :: 0 <= i < |ds| ==> r.dimensions[i] == ds[i].name
    ensures c.measures.None? ==> r.measures == []
    ensures c.dimensions.None? ==> r.dimensions == [] && r.timeDimensions == []
    ensures |r.timeDimensions| <= |r.dimensions|
  {
    var ds := c.dimensions.GetOr([]);
    CubeSummary(
      c.name,
      MeasureNames(c.measures.GetOr([])),
      DimensionNames(ds),
      TimeDimensionNames(ds))
  }

  /**
   * The time dimensions of a summary are selected from its own dimension
   * list, at exactly the positions whose raw dimension has type "time".
   */
  lemma ProjectCubeTimeDimensions(c: RawCube)
    ensures var r, ds := ProjectCube(c), c.dimensions.GetOr([]);
      SelectedAt(r.timeDimensions, r.dimensions, TimeIndices(ds)) &&
      forall i :: 0 <= i < |ds| ==> (i in TimeIndices(ds) <==> IsTime(ds[i]))
  {
    TimeDimensionsExactly(c.dimensions.GetOr([]));
  }

  /**
   * `get_cube_meta` on a given `/meta` reply: one summary per raw cube, in
   * order and under the same name; no `cubes` key gives `{"cubes": []}`.
   */
  method GetCubeMeta(meta: RawMeta) returns (r: MetaResponse)
    ensures var raw := meta.cubes.GetOr([]);
      |r.cubes| == |raw| &&
      (forall i :: 0 <= i < |raw| ==> r.cubes[i] == ProjectCube(raw[i])) &&
      (forall i :: 0 <= i < |raw| ==> r.cubes[i].name == raw[i].name)
    ensures meta.cubes.None? ==> r.cubes == []
  {
    var raw := meta.cubes.GetOr([]);
    var cubes: seq<CubeSummary> := [];
    for i := 0 to |raw|
      invariant |cubes| == i
      invariant forall k :: 0 <= k < i ==> cubes[k] == ProjectCube(raw[k])
    {
      cubes := cubes + [ProjectCube(raw[i])];
    }
    r := MetaResponse(cubes);
  }
}
