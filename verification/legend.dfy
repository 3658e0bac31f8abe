/** The legend: one entry per group, showing the group's label, its
    initial number at risk and a colour swatch whose border thickens while
    the group is highlighted. */
module Legend {
  import opened Samples
  import opened Display
  import opened Highlight
  import opened Interaction
  import opened LineGroup

  /** One legend entry; `onOver` and `onOut` are the hovers it reports. */
  datatype LegendKey = LegendKey(
    color: Color,
    name: Label,
    count: Display<nat>,
    active: bool,
    borderWidth: nat,
    onOver: Hover,
    onOut: Hover)

  /** The entry of one group: its swatch has the group's colour and its
      text is the group's label. It is active exactly when the active label is
      non-empty and is the group's label; its swatch border is 2 pixels then
      and 1 otherwise; the count is the first sample's number at risk, or
      the glyph for an empty curve. */
  function MakeLegendKey(g: Group, active: Label): (k: LegendKey)
    ensures k.color == g.color && k.name == g.name
    ensures k.active <==> active != "" && g.name == active
    ensures k.borderWidth == (if k.active then 2 else 1)
    ensures k.count.EmptySet? <==> g.curve == []
    ensures g.curve != [] ==> k.count.value == g.curve[0].n
    ensures Written(k.onOver) == g.name && Written(k.onOut) == ""
  {
    var isActive := CheckIfActive(g.name, active);
    LegendKey(g.color, g.name, SampleCount(g.curve), isActive,
              if isActive then 2 else 1, Enter(LegendEntry, g.name), Leave(LegendEntry))
  }

  /** The legend: the entries of the groups, in group order. */
  function MakeLegend(groups: seq<Group>, active: Label): (r: seq<LegendKey>)
    ensures |r| == |groups|
    ensures forall i :: 0 <= i < |groups| ==> r[i] == MakeLegendKey(groups[i], active)
  {
    seq(|groups|, i requires 0 <= i < |groups| => MakeLegendKey(groups[i], active))
  }
}
