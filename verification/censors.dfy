/** Censor marks: the censored samples of a curve and the short vertical
    tick drawn at each of them. */
module CensorMarks {
  import opened Samples
  import opened StepPath

  /** The censored samples (event flag false), in curve order. */
  function Censors(c: Curve): (r: Curve)
    ensures |r| <= |c|
    ensures forall k :: 0 <= k < |r| ==> !r[k].e && r[k] in c
    ensures forall i :: 0 <= i < |c| && !c[i].e ==> c[i] in r
  {
    if c == [] then []
    else if !c[0].e then [c[0]] + Censors(c[1..])
    else Censors(c[1..])
  }

  /** The event samples (event flag true), in curve order. */
  function Events(c: Curve): (r: Curve)
    ensures forall k :: 0 <= k < |r| ==> r[k].e && r[k] in c
  {
    if c == [] then []
    else if c[0].e then [c[0]] + Events(c[1..])
    else Events(c[1..])
  }

  /** `a` is obtained from `b` by deleting elements, keeping the order. */
  predicate IsSubsequence<T(==)>(a: seq<T>, b: seq<T>)
    decreases |b|
  {
    || a == []
    || (b != [] && ((a[0] == b[0] && IsSubsequence(a[1..], b[1..])) || IsSubsequence(a, b[1..])))
  }

  /** The censor list keeps the original order of the curve. */
  lemma {:induction false} CensorsInOrder(c: Curve)
    ensures IsSubsequence(Censors(c), c)
    decreases |c|
  {
    if c != [] {
      CensorsInOrder(c[1..]);
      var r := Censors(c);
      if !c[0].e {
        assert r[0] == c[0] && r[1..] == Censors(c[1..]);
      }
    }
  }

  /** Every sample is either a censor or an event: the two lists together
      hold exactly the samples of the curve, so their lengths add up to the
      curve's length. */
  lemma {:induction false} CensorsEventsPartition(c: Curve)
    ensures multiset(Censors(c)) + multiset(Events(c)) == multiset(c)
    ensures |Censors(c)| + |Events(c)| == |c|
    decreases |c|
  {
    if c != [] {
      CensorsEventsPartition(c[1..]);
      assert c == [c[0]] + c[1..];
    }
  }

  /** Filtering commutes with concatenation, which is what keeping the
      order of the samples means. */
  lemma {:induction false} CensorsAppend(a: Curve, b: Curve)
    ensures Censors(a + b) == Censors(a) + Censors(b)
    decreases |a|
  {
    if a != [] {
      assert (a + b)[0] == a[0];
      assert (a + b)[1..] == a[1..] + b;
      CensorsAppend(a[1..], b);
      if !a[0].e {
        calc {
          Censors(a + b);
          [a[0]] + Censors(a[1..] + b);
          [a[0]] + (Censors(a[1..]) + Censors(b));
          ([a[0]] + Censors(a[1..])) + Censors(b);
        }
      }
    } else {
      assert a + b == b;
    }
  }

  /** A censor tick: a vertical segment from (x1, y1) to (x2, y2) in its
      own frame, translated to `at`; `key` is its position in the list. */
  datatype Tick = Tick(key: nat, x1: real, x2: real, y1: real, y2: real, at: Point)

  /** Half the height of a tick, in pixels. */
  const TickHalfHeight: real := 5.0

  /** One tick per censor, in the same order, each centred on the scaled
      position of its censor. */
  function CensorLines(xScale: Scale, yScale: Scale, censors: Curve): (r: seq<Tick>)
    ensures |r| == |censors|
    ensures forall i :: 0 <= i < |r| ==>
              && r[i].key == i
              && r[i].x1 == r[i].x2 == 0.0
              && r[i].y1 == -TickHalfHeight && r[i].y2 == TickHalfHeight
              && r[i].at == Point(xScale(censors[i].t), yScale(censors[i].s))
  {
    var pts := Coords(xScale, yScale, censors);
    seq(|pts|, i requires 0 <= i < |pts| => Tick(i, 0.0, 0.0, -TickHalfHeight, TickHalfHeight, pts[i]))
  }

  /** The ticks of a curve: one per censored sample. */
  function CurveTicks(xScale: Scale, yScale: Scale, c: Curve): seq<Tick> {
    CensorLines(xScale, yScale, Censors(c))
  }

  /** Every tick is vertical, ten pixels long and centred on its anchor. */
  lemma TickShape(xScale: Scale, yScale: Scale, c: Curve)
    ensures var ts := CurveTicks(xScale, yScale, c);
      forall k :: 0 <= k < |ts| ==>
        ts[k].x1 == ts[k].x2 && ts[k].y2 - ts[k].y1 == 10.0 && ts[k].y1 + ts[k].y2 == 0.0
  {
  }

  /** Every censor tick sits on a vertex of the curve's step path, and
      there are as many ticks as censored samples. */
  lemma TicksOnCurve(xScale: Scale, yScale: Scale, c: Curve)
    ensures var ts := CurveTicks(xScale, yScale, c);
      && |ts| + |Events(c)| == |c|
      && forall k :: 0 <= k < |ts| ==> ts[k].at in Trace(Point(0.0, 0.0), Line(xScale, yScale, c))
  {
    CensorsEventsPartition(c);
    LineVertices(xScale, yScale, c);
    var ts := CurveTicks(xScale, yScale, c);
    var v := Trace(Point(0.0, 0.0), Line(xScale, yScale, c));
    var cs := Censors(c);
    forall k | 0 <= k < |ts|
      ensures ts[k].at in v
    {
      assert cs[k] in c;
      var i :| 0 <= i < |c| && c[i] == cs[k];
      assert v[2 + 2 * i] == ts[k].at;
    }
  }
}
