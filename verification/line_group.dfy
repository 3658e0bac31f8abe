/** One curve group of the plot: its step path drawn twice (a wide outline
    and a narrow line on top), its censor ticks under each, the emphasis
    chosen by the highlight flag, and the hovers it reports. */
module LineGroup {
  import opened Wrappers
  import opened Samples
  import opened StepPath
  import opened CensorMarks
  import opened Interaction

  /** A group: one colour, label and curve taken from the plot's parallel lists. */
  datatype Group = Group(color: Color, name: Label, curve: Curve)

  /** The drawing of one group. `emphasised` selects the hover pair of
      stroke styles for both layers; `onOver` and `onOut` are the hovers
      the group hands to the state setter. */
  datatype GroupView = GroupView(
    color: Color,
    name: Label,
    emphasised: bool,
    outlinePath: seq<PathCmd>,
    linePath: seq<PathCmd>,
    outlineTicks: seq<Tick>,
    lineTicks: seq<Tick>,
    onOver: Hover,
    onOut: Hover)

  /** Renders one group. Both layers follow the same step path and carry the
      same ticks, one per censored sample; the path reads back to the scaled
      samples; entering reports the group's label and leaving reports none. */
  function RenderLineGroup(xScale: Scale, yScale: Scale, g: Group, isActive: bool): (v: GroupView)
    ensures v.color == g.color && v.name == g.name && v.emphasised == isActive
    ensures v.outlinePath == v.linePath && v.outlineTicks == v.lineTicks
    ensures ParseLine(v.linePath) == Some(Coords(xScale, yScale, g.curve))
    ensures |v.lineTicks| + |Events(g.curve)| == |g.curve|
    ensures forall k :: 0 <= k < |v.lineTicks| ==>
              v.lineTicks[k].at in Trace(Point(0.0, 0.0), v.linePath)
    ensures v.lineTicks == CurveTicks(xScale, yScale, g.curve)
    ensures Written(v.onOver) == g.name && Written(v.onOut) == ""
  {
    LineRoundTrip(xScale, yScale, g.curve);
    TicksOnCurve(xScale, yScale, g.curve);
    var path := Line(xScale, yScale, g.curve);
    var ticks := CurveTicks(xScale, yScale, g.curve);
    GroupView(g.color, g.name, isActive, path, path, ticks, ticks,
              Enter(CurveGroup, g.name), Leave(CurveGroup))
  }

  /** A group with an empty curve draws only the origin move and no tick. */
  lemma EmptyCurveGroup(xScale: Scale, yScale: Scale, color: Color, name: Label, isActive: bool)
    ensures var v := RenderLineGroup(xScale, yScale, Group(color, name, []), isActive);
      v.linePath == [Move(0.0, 0.0)] && v.lineTicks == []
  {
  }
}
