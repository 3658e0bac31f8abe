/** The step-path builder: a curve becomes a move to the origin followed by
    one horizontal and one vertical segment per sample, so the drawn line is
    a right-continuous step function with no diagonal segments. */
module StepPath {
  import opened Wrappers
  import opened Samples

  /** A path command: move the pen, draw horizontally to x, or draw
      vertically to y. */
  datatype PathCmd = Move(x: real, y: real) | H(x: real) | V(y: real)

  datatype Point = Point(x: real, y: real)

  /** The scaled position of every sample, in curve order. */
  function Coords(xScale: Scale, yScale: Scale, c: Curve): (r: seq<Point>)
    ensures |r| == |c|
    ensures forall i :: 0 <= i < |c| ==> r[i] == Point(xScale(c[i].t), yScale(c[i].s))
  {
    seq(|c|, i requires 0 <= i < |c| => Point(xScale(c[i].t), yScale(c[i].s)))
  }

  /** One `H x V y` pair per point, in order. */
  function Steps(pts: seq<Point>): (r: seq<PathCmd>)
    ensures |r| == 2 * |pts|
    ensures forall i :: 0 <= i < |pts| ==> r[2 * i] == H(pts[i].x) && r[2 * i + 1] == V(pts[i].y)
  {
    if pts == [] then []
    else [H(pts[0].x), V(pts[0].y)] + Steps(pts[1..])
  }

  /** The path of a curve: the origin move, then the steps of its scaled samples. */
  function Line(xScale: Scale, yScale: Scale, c: Curve): (r: seq<PathCmd>)
    ensures |r| == 1 + 2 * |c|
    ensures r[0] == Move(0.0, 0.0)
    ensures forall i :: 0 <= i < |c| ==>
              r[1 + 2 * i] == H(xScale(c[i].t)) && r[2 + 2 * i] == V(yScale(c[i].s))
    ensures forall k :: 1 <= k < |r| ==> !r[k].Move? && (r[k].H? <==> k % 2 == 1)
    ensures c == [] ==> r == [Move(0.0, 0.0)]
  {
    var pts := Coords(xScale, yScale, c);
    var r := [Move(0.0, 0.0)] + Steps(pts);
    assert forall k :: 1 <= k < |r| ==> !r[k].Move? && (r[k].H? <==> k % 2 == 1) by {
      forall k | 1 <= k < |r|
        ensures !r[k].Move? && (r[k].H? <==> k % 2 == 1)
      {
        var i := (k - 1) / 2;
        assert r[k] == Steps(pts)[k - 1];
        if k % 2 == 1 {
          assert k - 1 == 2 * i;
          assert r[k] == H(pts[i].x);
        } else {
          assert k - 1 == 2 * i + 1;
          assert r[k] == V(pts[i].y);
        }
      }
    }
    r
  }

  // ---------------------------------------------------------------------
  // Reading a path back: the inverse of the builder.

  /** Reads consecutive `H x V y` pairs back into points; None if the
      commands are not such pairs. */
  function ParseSteps(cmds: seq<PathCmd>): (r: Option<seq<Point>>)
    decreases |cmds|
  {
    if cmds == [] then Some([])
    else if |cmds| >= 2 && cmds[0].H? && cmds[1].V? then
      match ParseSteps(cmds[2..])
      case None => None
      case Some(rest) => Some([Point(cmds[0].x, cmds[1].y)] + rest)
    else None
  }

  /** Reads a whole path: the origin move followed by step pairs. */
  function ParseLine(cmds: seq<PathCmd>): Option<seq<Point>> {
    if |cmds| >= 1 && cmds[0] == Move(0.0, 0.0) then ParseSteps(cmds[1..]) else None
  }

  lemma {:induction false} ParseSteps_Steps(pts: seq<Point>)
    ensures ParseSteps(Steps(pts)) == Some(pts)
    decreases |pts|
  {
    if pts != [] {
      var cmds := Steps(pts);
      assert cmds[2..] == Steps(pts[1..]);
      ParseSteps_Steps(pts[1..]);
      assert [pts[0]] + pts[1..] == pts;
    }
  }

  lemma {:induction false} Steps_ParseSteps(cmds: seq<PathCmd>, pts: seq<Point>)
    requires ParseSteps(cmds) == Some(pts)
    ensures Steps(pts) == cmds
    decreases |cmds|
  {
    if cmds != [] {
      var rest := ParseSteps(cmds[2..]).value;
      Steps_ParseSteps(cmds[2..], rest);
      assert pts == [Point(cmds[0].x, cmds[1].y)] + rest;
      assert pts[1..] == rest;
      assert cmds == [cmds[0], cmds[1]] + cmds[2..];
    }
  }

  /** Round trip: reading the path of a curve gives back exactly the scaled
      samples, in order. */
  lemma LineRoundTrip(xScale: Scale, yScale: Scale, c: Curve)
    ensures ParseLine(Line(xScale, yScale, c)) == Some(Coords(xScale, yScale, c))
  {
    var r := Line(xScale, yScale, c);
    assert r[1..] == Steps(Coords(xScale, yScale, c));
    ParseSteps_Steps(Coords(xScale, yScale, c));
  }

  /** The converse: every readable path is the path of its points, so a path
      and its point sequence determine each other. */
  lemma ParsedIsLine(cmds: seq<PathCmd>, pts: seq<Point>)
    requires ParseLine(cmds) == Some(pts)
    ensures cmds == [Move(0.0, 0.0)] + Steps(pts)
  {
    Steps_ParseSteps(cmds[1..], pts);
    assert cmds == [cmds[0]] + cmds[1..];
  }

  // ---------------------------------------------------------------------
  // Tracing a path: where the pen goes.

  /** The pen position after one command. */
  function Apply(pen: Point, cmd: PathCmd): Point {
    match cmd
    case Move(x, y) => Point(x, y)
    case H(x) => Point(x, pen.y)
    case V(y) => Point(pen.x, y)
  }

  /** The pen position after each command of the path, starting from `pen`. */
  function Trace(pen: Point, cmds: seq<PathCmd>): (r: seq<Point>)
    ensures |r| == |cmds|
    decreases |cmds|
  {
    if cmds == [] then []
    else
      var p := Apply(pen, cmds[0]);
      [p] + Trace(p, cmds[1..])
  }

  /** Drawing steps from `pen`: each point is first reached horizontally at
      the previous height, then vertically at its own height. */
  lemma {:induction false} TraceSteps(pen: Point, pts: seq<Point>)
    ensures var v := Trace(pen, Steps(pts));
      && (forall i :: 0 <= i < |pts| ==> v[2 * i + 1] == pts[i])
      && (|pts| > 0 ==> v[0] == Point(pts[0].x, pen.y))
      && (forall i :: 0 < i < |pts| ==> v[2 * i] == Point(pts[i].x, pts[i - 1].y))
    decreases |pts|
  {
    if pts != [] {
      var cmds := Steps(pts);
      var p0 := Point(pts[0].x, pen.y);
      var p1 := pts[0];
      assert cmds[1..][1..] == Steps(pts[1..]);
      var v := Trace(pen, cmds);
      var w := Trace(p1, Steps(pts[1..]));
      assert v == [p0] + Trace(p0, cmds[1..]);
      assert Trace(p0, cmds[1..]) == [p1] + w;
      TraceSteps(p1, pts[1..]);
      forall i | 0 < i < |pts|
        ensures v[2 * i + 1] == pts[i] && v[2 * i] == Point(pts[i].x, pts[i - 1].y)
      {
        assert v[2 * i + 1] == w[2 * (i - 1) + 1];
        assert v[2 * i] == w[2 * (i - 1)];
        assert pts[1..][i - 1] == pts[i];
        if i > 1 {
          assert pts[1..][i - 2] == pts[i - 1];
        }
      }
    }
  }

  /** The vertices of a curve's path: the origin, then for every sample the
      corner at its time and the previous survival level, then the sample
      itself. So survival is held constant between consecutive sample times
      and changes only by vertical drops. */
  lemma LineVertices(xScale: Scale, yScale: Scale, c: Curve)
    ensures var v := Trace(Point(0.0, 0.0), Line(xScale, yScale, c));
      && |v| == 1 + 2 * |c|
      && v[0] == Point(0.0, 0.0)
      && (|c| > 0 ==> v[1] == Point(xScale(c[0].t), 0.0))
      && (forall i :: 0 < i < |c| ==> v[1 + 2 * i] == Point(xScale(c[i].t), yScale(c[i - 1].s)))
      && (forall i :: 0 <= i < |c| ==> v[2 + 2 * i] == Point(xScale(c[i].t), yScale(c[i].s)))
  {
    var pts := Coords(xScale, yScale, c);
    var r := Line(xScale, yScale, c);
    assert r == [Move(0.0, 0.0)] + Steps(pts);
    assert r[1..] == Steps(pts);
    var v := Trace(Point(0.0, 0.0), r);
    assert v == [Point(0.0, 0.0)] + Trace(Point(0.0, 0.0), Steps(pts));
    TraceSteps(Point(0.0, 0.0), pts);
  }

  /** A path of horizontal and vertical commands only never draws a
      diagonal: each segment keeps either its x or its y. */
  lemma {:induction false} NoDiagonals(pen: Point, cmds: seq<PathCmd>)
    requires forall k :: 0 <= k < |cmds| ==> !cmds[k].Move?
    ensures var v := Trace(pen, cmds);
      && (|cmds| > 0 ==> v[0].x == pen.x || v[0].y == pen.y)
      && (forall k :: 0 < k < |v| ==> v[k].x == v[k - 1].x || v[k].y == v[k - 1].y)
    decreases |cmds|
  {
    if cmds != [] {
      var p := Apply(pen, cmds[0]);
      var v := Trace(pen, cmds);
      var w := Trace(p, cmds[1..]);
      assert v == [p] + w;
      NoDiagonals(p, cmds[1..]);
      forall k | 0 < k < |v|
        ensures v[k].x == v[k - 1].x || v[k].y == v[k - 1].y
      {
        if k == 1 {
          assert v[1] == w[0] && v[0] == p;
        } else {
          assert v[k] == w[k - 1] && v[k - 1] == w[k - 2];
        }
      }
    }
  }

  /** After the origin move, the path of a curve has no diagonal segment. */
  lemma LineIsAxisParallel(xScale: Scale, yScale: Scale, c: Curve)
    ensures var v := Trace(Point(0.0, 0.0), Line(xScale, yScale, c));
      forall k :: 0 < k < |v| ==> v[k].x == v[k - 1].x || v[k].y == v[k - 1].y
  {
    var r := Line(xScale, yScale, c);
    var v := Trace(Point(0.0, 0.0), r);
    assert v == [Point(0.0, 0.0)] + Trace(Point(0.0, 0.0), r[1..]);
    NoDiagonals(Point(0.0, 0.0), r[1..]);
  }

  /** With samples ordered by time and an increasing x scale, the horizontal
      commands of the path never move left. */
  lemma LineRunsRightward(xScale: Scale, yScale: Scale, c: Curve)
    requires SortedByTime(c) && Monotone(xScale)
    ensures var r := Line(xScale, yScale, c);
      forall i, j :: 0 <= i < j < |c| ==> r[1 + 2 * i].x <= r[1 + 2 * j].x
  {
  }

  /** A two-sample example: a curve under an identity x scale and
      the y scale `y -> 100 - 100 y`. */
  lemma TwoSampleExample()
    ensures var c := [Sample(0.0, 1.0, 10, true), Sample(5.0, 0.8, 8, true)];
      var xScale := (t: real) => t;
      var yScale := (s: real) => 100.0 - 100.0 * s;
      && Line(xScale, yScale, c) == [Move(0.0, 0.0), H(0.0), V(0.0), H(5.0), V(20.0)]
      && Trace(Point(0.0, 0.0), Line(xScale, yScale, c))
         == [Point(0.0, 0.0), Point(0.0, 0.0), Point(0.0, 0.0), Point(5.0, 0.0), Point(5.0, 20.0)]
  {
    var c := [Sample(0.0, 1.0, 10, true), Sample(5.0, 0.8, 8, true)];
    var xScale := (t: real) => t;
    var yScale := (s: real) => 100.0 - 100.0 * s;
    var r := Line(xScale, yScale, c);
    assert r == [Move(0.0, 0.0), H(0.0), V(0.0), H(5.0), V(20.0)];
    LineVertices(xScale, yScale, c);
  }
}
