/** The plot as a whole: the choice between the loading placeholder, the
    "cannot be made" message and the chart, and the chart's pieces built
    from the group set and the one active label. */
module KmPlot {
  import opened Wrappers
  import opened Samples
  import opened StepPath
  import opened Display
  import opened Layout
  import opened Highlight
  import opened Interaction
  import opened LineGroup
  import opened Legend

  /** The groups computed upstream: parallel lists of colours, labels and
      curves (one group per index), the cutoff domain, a warning for the
      feature label, whether a three-way split is offered, and the two
      statistics, either of which may be null. */
  datatype GroupSet = GroupSet(
    colors: seq<Color>,
    labels: seq<Label>,
    curves: seq<Curve>,
    domain: Option<(real, real)>,
    warning: Option<string>,
    maySplit: bool,
    pValue: Option<real>,
    logRank: Option<real>)

  /** The `splits` prop: left unset (the default of two applies), set to
      null (no default applies), or set to a number. */
  datatype SplitsProp = Unset | Null | Given(n: int)

  /** The plot's input. `groups` is None while the data has not loaded
      (absent, or an object with no keys). */
  datatype KmProps = KmProps(
    splits: SplitsProp,
    featureLabel: string,
    groups: Option<GroupSet>,
    cutoff: Option<real>)

  /** What the normal branch shows. */
  datatype Chart = Chart(
    sections: map<string, Box>,
    graph: seq<GroupView>,
    legend: seq<LegendKey>,
    pValue: Display<real>,
    logRank: Display<real>,
    splitControl: Option<SplitControl>,
    cutoffMin: Option<real>,
    cutoffMax: Option<real>,
    cutoffInitial: Option<real>,
    caption: string)

  /** The two radio buttons of the split choice. */
  datatype SplitControl = SplitControl(twoChecked: bool, threeChecked: bool)

  datatype RenderState = Loading | CannotBeMade | Normal(chart: Chart)

  /** The parallel lists line up, one entry per group. */
  predicate Aligned(gs: GroupSet) {
    |gs.colors| == |gs.labels| == |gs.curves|
  }

  /** The groups of a set, zipped index by index. */
  function Groups(gs: GroupSet): (r: seq<Group>)
    requires Aligned(gs)
    ensures |r| == |gs.colors|
    ensures forall i :: 0 <= i < |r| ==>
              r[i].color == gs.colors[i] && r[i].name == gs.labels[i] && r[i].curve == gs.curves[i]
  {
    seq(|gs.colors|, i requires 0 <= i < |gs.colors| => Group(gs.colors[i], gs.labels[i], gs.curves[i]))
  }

  /** The feature label, followed by the warning in parentheses when there
      is a non-empty one. */
  function Caption(featureLabel: string, warning: Option<string>): (r: string)
    ensures (warning.Some? && warning.value != "") ==> r == featureLabel + " (" + warning.value + ")"
    ensures !(warning.Some? && warning.value != "") ==> r == featureLabel
  {
    match warning
    case Some(w) => if w != "" then featureLabel + " (" + w + ")" else featureLabel
    case None => featureLabel
  }

  /** The split choice: the "2 groups" button is checked when the split
      count is two, unset counting as two; the "3 groups" button when it is
      three; a null count checks neither, and never are both checked. */
  function MakeSplits(splits: SplitsProp): (r: SplitControl)
    ensures r.twoChecked <==> splits.Unset? || splits == Given(2)
    ensures r.threeChecked <==> splits == Given(3)
    ensures !(r.twoChecked && r.threeChecked)
  {
    var value: Option<int> :=
      match splits
      case Unset => Some(2)
      case Null => None
      case Given(n) => Some(n);
    SplitControl(value == Some(2), value == Some(3))
  }

  /** The curve groups of the graph: group i is emphasised when its label
      equals the active label. */
  function Graph(xScale: Scale, yScale: Scale, groups: seq<Group>, active: Label): (r: seq<GroupView>)
    ensures |r| == |groups|
    ensures forall i :: 0 <= i < |groups| ==>
              r[i] == RenderLineGroup(xScale, yScale, groups[i], CurveIsActive(groups[i].name, active))
  {
    seq(|groups|, i requires 0 <= i < |groups| =>
      RenderLineGroup(xScale, yScale, groups[i], CurveIsActive(groups[i].name, active)))
  }

  /** The three-way choice: loading while there are no groups, the "cannot
      be made" message when there are groups but no colours, the chart
      otherwise. In the chart, group i appears in both the graph and the
      legend under label i, the graph emphasising it when its label is the
      active one and the legend when, besides, the active label is
      non-empty; the legend counts and the two statistics are formatted
      from the group set; the regions are sized by the plot's ratio table,
      the cutoff control is bounded by the group set's domain, and the
      split choice is offered only when a split may be made. */
  function Render(km: KmProps, dims: Box, active: Label, xScale: Scale, yScale: Scale): (r: RenderState)
    requires km.groups.Some? && km.groups.value.colors != [] ==> Aligned(km.groups.value)
    ensures r.Loading? <==> km.groups.None?
    ensures r.CannotBeMade? <==> km.groups.Some? && km.groups.value.colors == []
    ensures r.Normal? ==>
              var gs := km.groups.value;
              var c := r.chart;
              && |c.graph| == |c.legend| == |gs.colors|
              && (forall i :: 0 <= i < |gs.colors| ==>
                    && c.graph[i].name == gs.labels[i] && c.legend[i].name == gs.labels[i]
                    && c.graph[i].color == gs.colors[i] && c.legend[i].color == gs.colors[i]
                    && (c.graph[i].emphasised <==> gs.labels[i] == active)
                    && (c.legend[i].active <==> active != "" && gs.labels[i] == active))
              && c.sections.Keys == {"graph", "definitions"}
              && (forall i :: 0 <= i < |gs.colors| ==> c.legend[i].count == SampleCount(gs.curves[i]))
              && c.pValue == FormatPValue(gs.pValue) && c.logRank == FormatPValue(gs.logRank)
              && (c.splitControl.Some? <==> gs.maySplit)
              && (c.splitControl.Some? ==> c.splitControl.value == MakeSplits(km.splits))
              && c.sections["graph"] == Box(dims.width * 0.75, dims.height * 1.0)
              && c.sections["definitions"] == Box(dims.width * 0.4, dims.height * 1.0)
              && (c.cutoffMin.Some? <==> gs.domain.Some?)
              && (c.cutoffMax.Some? <==> gs.domain.Some?)
              && (gs.domain.Some? ==> c.cutoffMin.value == gs.domain.value.0 && c.cutoffMax.value == gs.domain.value.1)
              && c.cutoffInitial == km.cutoff
              && (forall i :: 0 <= i < |gs.colors| ==>
                    c.graph[i] == RenderLineGroup(xScale, yScale, Group(gs.colors[i], gs.labels[i], gs.curves[i]),
                                                  gs.labels[i] == active))
              && (forall i :: 0 <= i < |gs.colors| ==>
                    c.legend[i] == MakeLegendKey(Group(gs.colors[i], gs.labels[i], gs.curves[i]), active))
              && c.caption == Caption(km.featureLabel, gs.warning)
  {
    var sections := CalcDims(dims, PlotRatios);
    assert "graph" in PlotRatios && "definitions" in PlotRatios;
    match km.groups
    case None => Loading
    case Some(gs) =>
      if gs.colors == [] then CannotBeMade
      else
        var groups := Groups(gs);
        Normal(Chart(
          sections,
          Graph(xScale, yScale, groups, active),
          MakeLegend(groups, active),
          FormatPValue(gs.pValue),
          FormatPValue(gs.logRank),
          if gs.maySplit then Some(MakeSplits(km.splits)) else None,
          if gs.domain.Some? then Some(gs.domain.value.0) else None,
          if gs.domain.Some? then Some(gs.domain.value.1) else None,
          km.cutoff,
          Caption(km.featureLabel, gs.warning)))
  }

  // ---------------------------------------------------------------------
  // Cross-highlighting between the graph and the legend.

  /** The plot's labels are non-empty and pairwise distinct. */
  predicate GoodLabels(labels: seq<Label>) {
    DistinctLabels(labels) && forall i :: 0 <= i < |labels| ==> labels[i] != ""
  }

  /** With non-empty labels the graph and the legend agree on every group,
      and with distinct labels at most one group is highlighted; the
      highlighted group is the one whose label is active. */
  lemma CrossHighlight(km: KmProps, dims: Box, active: Label, xScale: Scale, yScale: Scale)
    requires km.groups.Some? && km.groups.value.colors != [] && Aligned(km.groups.value)
    requires GoodLabels(km.groups.value.labels)
    ensures var r := Render(km, dims, active, xScale, yScale);
      var labels := km.groups.value.labels;
      && r.Normal?
      && (forall i :: 0 <= i < |labels| ==> r.chart.graph[i].emphasised == r.chart.legend[i].active)
      && (forall i, j ::
            0 <= i < |labels| && 0 <= j < |labels| && r.chart.legend[i].active && r.chart.legend[j].active
            ==> i == j)
      && (forall i :: 0 <= i < |labels| ==> (r.chart.legend[i].active <==> labels[i] == active))
  {
    var labels := km.groups.value.labels;
    var r := Render(km, dims, active, xScale, yScale);
    forall i | 0 <= i < |labels|
      ensures r.chart.graph[i].emphasised == r.chart.legend[i].active
    {
      CurveAgreesWithLegend(labels[i], active);
    }
    forall i, j | 0 <= i < |labels| && 0 <= j < |labels| && r.chart.legend[i].active && r.chart.legend[j].active
      ensures i == j
    {
      assert labels[i] == active == labels[j];
    }
  }

  /** A hover session: starting from no highlight and after any series of
      hovers, entering group i last highlights group i alone in both the
      graph and the legend, and leaving last highlights nothing. */
  lemma HoverSession(km: KmProps, dims: Box, hs: seq<Hover>, xScale: Scale, yScale: Scale)
    requires km.groups.Some? && km.groups.value.colors != [] && Aligned(km.groups.value)
    requires GoodLabels(km.groups.value.labels)
    requires hs != []
    ensures var r := Render(km, dims, Run(Initial, hs), xScale, yScale);
      var labels := km.groups.value.labels;
      var last := hs[|hs| - 1];
      && r.Normal?
      && (last.Leave? ==> forall i :: 0 <= i < |labels| ==>
            !r.chart.graph[i].emphasised && !r.chart.legend[i].active)
      && (last.Enter? ==> forall i :: 0 <= i < |labels| ==>
            (r.chart.graph[i].emphasised <==> labels[i] == last.groupLabel)
            && (r.chart.legend[i].active <==> labels[i] == last.groupLabel))
  {
    LastWriterWins(Initial, hs);
    CrossHighlight(km, dims, Run(Initial, hs), xScale, yScale);
  }

  /** Hovering a curve group and then re-rendering highlights the legend
      entry of the same group, and the other way round. */
  lemma HoverPropagates(km: KmProps, dims: Box, active: Label, i: nat, xScale: Scale, yScale: Scale)
    requires km.groups.Some? && km.groups.value.colors != [] && Aligned(km.groups.value)
    requires GoodLabels(km.groups.value.labels)
    requires i < |km.groups.value.labels|
    ensures var r := Render(km, dims, active, xScale, yScale);
      && r.Normal?
      && var fromCurve := Render(km, dims, SetActiveLabel(active, r.chart.graph[i].onOver), xScale, yScale);
         var fromLegend := Render(km, dims, SetActiveLabel(active, r.chart.legend[i].onOver), xScale, yScale);
         && fromCurve.chart.legend[i].active && fromCurve.chart.graph[i].emphasised
         && fromLegend.chart.legend[i].active && fromLegend.chart.graph[i].emphasised
  {
  }

  /** A plot whose groups have only empty curves: every legend count is the
      glyph and every path is the lone origin move. */
  lemma EmptyCurvesScenario(km: KmProps, dims: Box, active: Label, xScale: Scale, yScale: Scale)
    requires km.groups.Some? && km.groups.value.colors != [] && Aligned(km.groups.value)
    requires forall i :: 0 <= i < |km.groups.value.curves| ==> km.groups.value.curves[i] == []
    ensures var r := Render(km, dims, active, xScale, yScale);
      && r.Normal?
      && forall i :: 0 <= i < |r.chart.legend| ==>
           r.chart.legend[i].count == EmptySet && r.chart.graph[i].linePath == [Move(0.0, 0.0)]
  {
  }
}
