/** The time domain of the x axis: the smallest and largest sample time
    over all curves. */
module Domain {
  import opened Samples

  /** The extent of a list of numbers. The minimum and maximum of an empty
      list are +infinity and -infinity in the source; this model names that
      case `NoExtent` instead of using infinities. */
  datatype Extent = Extent(lo: real, hi: real) | NoExtent

  /** The minimum and maximum of `xs`. */
  function Bounds(xs: seq<real>): (r: Extent)
    ensures r.NoExtent? <==> xs == []
    ensures r.Extent? ==>
              && r.lo in xs && r.hi in xs && r.lo <= r.hi
              && forall k :: 0 <= k < |xs| ==> r.lo <= xs[k] <= r.hi
    decreases |xs|
  {
    if xs == [] then NoExtent
    else
      match Bounds(xs[1..])
      case NoExtent => Extent(xs[0], xs[0])
      case Extent(lo, hi) =>
        Extent(if xs[0] < lo then xs[0] else lo, if xs[0] > hi then xs[0] else hi)
  }

  /** `x` is the time of some sample of some curve. */
  ghost predicate IsSampleTime(curves: seq<Curve>, x: real) {
    exists i, j :: 0 <= i < |curves| && 0 <= j < |curves[i]| && x == curves[i][j].t
  }

  /** The times of one curve, in order. */
  function CurveTimes(c: Curve): (r: seq<real>)
    ensures |r| == |c| && forall j :: 0 <= j < |c| ==> r[j] == c[j].t
  {
    seq(|c|, j requires 0 <= j < |c| => c[j].t)
  }

  /** `r` holds exactly the sample times of `curves` (with repetitions),
      and is empty exactly when every curve is. */
  ghost predicate HoldsTimesOf(curves: seq<Curve>, r: seq<real>) {
    && (forall i, j :: 0 <= i < |curves| && 0 <= j < |curves[i]| ==> curves[i][j].t in r)
    && (forall k :: 0 <= k < |r| ==> IsSampleTime(curves, r[k]))
    && (r == [] <==> forall i :: 0 <= i < |curves| ==> curves[i] == [])
  }

  /** All sample times of all curves, curve by curve, in order. */
  function Times(curves: seq<Curve>): (r: seq<real>)
    ensures forall i, j :: 0 <= i < |curves| && 0 <= j < |curves[i]| ==> curves[i][j].t in r
    ensures forall k :: 0 <= k < |r| ==> IsSampleTime(curves, r[k])
    ensures r == [] <==> forall i :: 0 <= i < |curves| ==> curves[i] == []
    decreases |curves|
  {
    if curves == [] then []
    else
      var rest := Times(curves[1..]);
      TimesCons(curves, rest);
      CurveTimes(curves[0]) + rest
  }

  /** One step of `Times`: the first curve's times in front of the times
      of the other curves hold the times of all curves. */
  lemma TimesCons(curves: seq<Curve>, rest: seq<real>)
    requires curves != [] && HoldsTimesOf(curves[1..], rest)
    ensures HoldsTimesOf(curves, CurveTimes(curves[0]) + rest)
  {
    var head := CurveTimes(curves[0]);
    var r := head + rest;
    assert forall k :: 0 <= k < |rest| ==> r[|head| + k] == rest[k];
    forall i, j | 0 <= i < |curves| && 0 <= j < |curves[i]|
      ensures curves[i][j].t in r
    {
      if i == 0 {
        assert r[j] == curves[0][j].t;
      } else {
        assert curves[i] == curves[1..][i - 1];
        assert curves[i][j].t in rest;
      }
    }
    forall k | 0 <= k < |r|
      ensures IsSampleTime(curves, r[k])
    {
      if k < |head| {
        assert r[k] == curves[0][k].t;
      } else {
        assert r[k] == rest[k - |head|];
        assert IsSampleTime(curves[1..], rest[k - |head|]);
        var i, j :| 0 <= i < |curves[1..]| && 0 <= j < |curves[1..][i]| && rest[k - |head|] == curves[1..][i][j].t;
        assert r[k] == curves[i + 1][j].t;
      }
    }
    if r == [] {
      assert curves[0] == [];
    }
    assert (forall i :: 1 <= i < |curves| ==> curves[i] == []) <==> (forall i :: 0 <= i < |curves[1..]| ==> curves[1..][i] == []) by {
      assert forall i :: 1 <= i < |curves| ==> curves[i] == curves[1..][i - 1];
    }
  }

  /** The x domain of a plot, the extent of all its sample times: every
      sample of every curve lies within it and both its ends are times of
      actual samples; there is no domain exactly when every curve is empty. */
  function XDomain(curves: seq<Curve>): (d: Extent)
    ensures d.NoExtent? <==> forall i :: 0 <= i < |curves| ==> curves[i] == []
    ensures d.Extent? ==>
              && (forall i, j :: 0 <= i < |curves| && 0 <= j < |curves[i]| ==> d.lo <= curves[i][j].t <= d.hi)
              && IsSampleTime(curves, d.lo) && IsSampleTime(curves, d.hi)
  {
    BoundsOfTimes(curves);
    Bounds(Times(curves))
  }

  lemma BoundsOfTimes(curves: seq<Curve>)
    ensures var d := Bounds(Times(curves));
      d.Extent? ==>
        && (forall i, j :: 0 <= i < |curves| && 0 <= j < |curves[i]| ==> d.lo <= curves[i][j].t <= d.hi)
        && IsSampleTime(curves, d.lo) && IsSampleTime(curves, d.hi)
  {
    var ts := Times(curves);
    var d := Bounds(ts);
    if d.Extent? {
      forall i, j | 0 <= i < |curves| && 0 <= j < |curves[i]|
        ensures d.lo <= curves[i][j].t <= d.hi
      {
        var k :| 0 <= k < |ts| && ts[k] == curves[i][j].t;
      }
      var klo :| 0 <= klo < |ts| && ts[klo] == d.lo;
      var khi :| 0 <= khi < |ts| && ts[khi] == d.hi;
      assert IsSampleTime(curves, ts[klo]) && IsSampleTime(curves, ts[khi]);
    }
  }
}
