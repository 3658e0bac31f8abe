# Kaplan-Meier plot: geometry and highlight model

This project is a Dafny model of the pure core of the Kaplan-Meier plot
component `js/KmPlot.js`. The component draws survival curves as step
functions, marks censored subjects with short ticks, keeps one shared
"active label" that highlights a curve and its legend entry together on
hover, and splits its outer box into a graph region and a definitions
region by a fixed ratio table. The model proves properties of each of
these parts.

Modules, one per component:

- `Samples` (`samples.dfy`): a sample `{t, s, n, e}`, a curve (a sequence
  of samples), and scales as plain `real -> real` function values.
- `StepPath` (`step_path.dfy`): the path builder `line`. A path is a
  sequence of commands `Move(0,0)`, `H(x)`, `V(y)` rather than a string.
  The module also has a reader for paths (`ParseLine`, the inverse of the
  builder) and a pen tracer (`Trace`) that gives the vertices a path visits.
- `CensorMarks` (`censors.dfy`): the censor filter `curve.filter(pt => !pt.e)`
  and `censorLines`.
- `Highlight` (`highlight.dfy`): `checkIfActive` (the legend's test) and
  `label === activeLabel` (the curve group's test).
- `Interaction` (`interaction.dfy`): `setActiveLabel` and the hover handlers
  of curve groups and legend entries.
- `Layout` (`layout.dfy`): `calcDims` and the `plotSize.ratios` table.
- `Display` (`display.dfy`): `formatPValue`, `sampleCount` and the
  empty-set glyph U+2205.
- `Domain` (`domain.dfy`): `bounds` and the x domain of all sample times.
- `LineGroup` (`line_group.dfy`) and `Legend` (`legend.dfy`): what one
  curve group and one legend entry consist of.
- `KmPlot` (`km_plot.dfy`): the loading / "cannot be made" / chart
  selection of `KmPlot.render`, and lemmas about highlighting across the
  graph and the legend.

Modelling choices:

- Times, probabilities and pixels are `real`: exact arithmetic, without
  IEEE double rounding.
- The x and y scales are parameters. The source builds them with an
  external `linear` from the x domain (`Domain.XDomain`) and the region box.
- For the statistics and the group set, JavaScript `null` and `undefined`
  are both `Option.None`, since the source treats them alike there. The
  `splits` prop is different: its default of two replaces only
  `undefined`, so `KmPlot.SplitsProp` keeps `Unset` and `Null` apart.
- A group set that is `undefined` or an object with no keys is
  `groups == None`, since `_.isEmpty` treats them alike. Missing `colors`
  is modelled as the empty list.
- `label` is a reserved word in Dafny, so the label of a group, a group
  view and a legend entry is called `name`, and the label an `Enter` hover
  carries is called `groupLabel`.
- underscore's `_.min` and `_.max` of an empty list are +∞ and −∞. The
  model's `Bounds` names that case `NoExtent`.

The two highlight tests differ in one case. The curve group uses
`label === activeLabel`. The legend uses `!!activeLabel && activeLabel === label`.
They agree for every non-empty label (`Highlight.CurveAgreesWithLegend`).
A group whose label is the empty string would be emphasised on the curve
side while nothing is active, but not in the legend
(`Highlight.EmptyLabelDisagreement`). The model follows the code. The
cross-highlighting lemmas assume non-empty, distinct labels, since a label
is meant to identify one group of a plot.

## Model

| member | source | states |
|---|---|---|
| StepPath.Line | js/KmPlot.js:20-23 | the path has 1 + 2·n commands: the move to (0,0), then for sample i an `H` to its scaled time followed by a `V` to its scaled survival; after the move only `H` (odd positions) and `V` (even positions) occur; an empty curve gives the lone origin move |
| StepPath.LineRoundTrip | js/KmPlot.js:20-23 | reading the path back gives exactly the scaled samples in curve order |
| StepPath.ParsedIsLine | js/KmPlot.js:22 | conversely, any path that reads back to a point list is the origin move followed by that list's steps, so a path and its points determine each other |
| StepPath.LineVertices | js/KmPlot.js:20-23 | the pen visits the origin, then for each sample the corner at its time and the previous sample's scaled survival (pixel height 0, the top of the plot, before the first sample), then the sample itself, so survival is held constant between sample times |
| StepPath.LineIsAxisParallel | js/KmPlot.js:22 | every segment of the path keeps its x or its y: no diagonal interpolation |
| StepPath.TwoSampleExample | js/KmPlot.js:20-23 | the two-sample curve under x ↦ x and y ↦ 100 − 100y gives M0,0 H0 V0 H5 V20 and visits (0,0), (0,0), (0,0), (5,0), (5,20) |
| StepPath.LineRunsRightward | js/KmPlot.js:21 | for time-ordered samples and an increasing x scale, the horizontal commands never move left |
| CensorMarks.Censors | js/KmPlot.js:54 | the censor list holds only censored samples of the curve and every censored sample of it |
| CensorMarks.CensorsInOrder | js/KmPlot.js:54 | the censor list is a subsequence of the curve, in the original order |
| CensorMarks.CensorsEventsPartition | js/KmPlot.js:54 | censors and events together are exactly the curve's samples as a multiset, and their counts add up to the curve's length |
| CensorMarks.CensorsAppend | js/KmPlot.js:54 | filtering a concatenation is the concatenation of the filtered parts |
| CensorMarks.CensorLines | js/KmPlot.js:25-32 | one tick per censor in the same order, tick i keyed i, vertical from y = −5 to y = 5 and translated to the censor's scaled (t, s) |
| CensorMarks.TickShape | js/KmPlot.js:30 | every tick of a curve is vertical, ten pixels long and centred on its anchor |
| CensorMarks.TicksOnCurve | js/KmPlot.js:25-32 | ticks plus events number the curve's samples, and each tick sits on a vertex of the curve's step path |
| Highlight.CheckIfActive | js/KmPlot.js:41-44 | false whenever the active label is empty; otherwise true exactly when the label equals the active label |
| Highlight.CurveIsActive | js/KmPlot.js:93 | the curve side's `label === activeLabel` holds exactly when `checkIfActive` does, or when the label and the active label are both empty |
| Highlight.CurveAgreesWithLegend | js/KmPlot.js:93 | the curve side's `label === activeLabel` agrees with `checkIfActive` for every non-empty label |
| Highlight.EmptyLabelDisagreement | js/KmPlot.js:93 | with label and active label both empty, the curve side reports active and the legend does not |
| Highlight.AtMostOneActive | js/KmPlot.js:41-44 | with distinct labels at most one index is active; none when the active label is empty; exactly the index carrying a non-empty active label |
| Interaction.Written | js/KmPlot.js:61-62 | hover-enter hands the group's label to the setter, hover-leave hands the empty label |
| Interaction.SetActiveLabel | js/KmPlot.js:339-341 | after entering a group its label is active; after leaving, no label is |
| Interaction.SetIgnoresPrevious | js/KmPlot.js:339-341 | the new active label does not depend on the one active before, so leaving clears the highlight whichever group held it |
| Interaction.LastWriterWins | js/KmPlot.js:339-341 | after a series of hovers the active label is the one written by the last hover, or unchanged for no hover |
| Interaction.SourceIrrelevant | js/KmPlot.js:239-240 | legend entries and curve groups change the active label in the same way |
| Layout.CalcDims | js/KmPlot.js:35-39 | the result has the table's regions, and each region's width and height are the outer box's width and height times that region's ratios |
| Layout.CalcDimsLinear | js/KmPlot.js:35-39 | scaling the outer box by k scales every region by k |
| Layout.DefaultSections | js/KmPlot.js:302-322 | the default 700 × 450 box gives a 525 × 450 graph and a 280 × 450 definitions column |
| Display.FormatPValue | js/KmPlot.js:136 | a null statistic shows the empty-set glyph and any present value is shown as itself |
| Display.Display.GlyphText | js/KmPlot.js:136 | the glyph case, and only it, shows text, and that text is the empty-set glyph |
| Display.GlyphCodePoint | js/KmPlot.js:136 | the glyph is the one character with code 8709 |
| Display.SampleCount | js/KmPlot.js:217-220 | the count is the glyph exactly for an empty curve and otherwise the first sample's number at risk |
| Domain.Bounds | js/KmPlot.js:72 | no extent exactly for an empty list; otherwise lo and hi occur in the list, lo ≤ hi, and every element lies between them |
| Domain.Times | js/KmPlot.js:77 | the times of all curves: every sample's time occurs, every entry is some sample's time, and the list is empty exactly when every curve is |
| Domain.XDomain | js/KmPlot.js:77 | every sample of every curve lies inside the x domain, both ends are actual sample times, and there is no domain exactly when all curves are empty |
| LineGroup.RenderLineGroup | js/KmPlot.js:51-69 | both layers share the step path and the ticks; the path reads back to the scaled samples; ticks plus events number the samples; the ticks are exactly `censorLines` of the censored samples, so tick k sits at censor k's scaled point; each tick sits on the path; emphasis is the isActive flag; enter reports the label and leave the empty label |
| LineGroup.EmptyCurveGroup | js/KmPlot.js:51-69 | a group with an empty curve draws only the origin move and no tick |
| Legend.MakeLegendKey | js/KmPlot.js:222-245 | the swatch has the group's colour and the text is the group's label; the entry is active exactly for a non-empty active label equal to the group's; the border is 2 when active and 1 otherwise; the count is the glyph exactly for an empty curve; enter and leave write the label and the empty label |
| Legend.MakeLegend | js/KmPlot.js:247-258 | one entry per group, in group order |
| KmPlot.Groups | js/KmPlot.js:84 | zipping aligned lists gives one group per index carrying that index's colour, label and curve |
| KmPlot.Caption | js/KmPlot.js:368 | the feature label gets the warning in parentheses exactly when the warning is present and non-empty |
| KmPlot.MakeSplits | js/KmPlot.js:269-283 | the "2 groups" button is checked exactly when splits is unset or 2, the "3 groups" button exactly when it is 3; a null or other value checks neither, and never both |
| KmPlot.Graph | js/KmPlot.js:84-95 | one group view per group, in order, emphasised when its label equals the active label |
| KmPlot.Render | js/KmPlot.js:361-405 | loading exactly when there are no groups; "cannot be made" exactly when groups exist with no colours; otherwise graph and legend list the groups in order with their labels and colours and the two highlight tests; the regions are sized by the ratio table; each legend count is the `sampleCount` of its group's curve; the p-value and the log-rank statistic are both formatted by `formatPValue`; the split choice appears exactly when a split may be made; the cutoff bounds are the domain's ends; each graph view is the line group of the group's colour, label and curve, emphasised exactly when its label equals the active label; each legend entry is the legend key of the same group under the active label, so it carries that key's hovers and swatch border; the caption is the feature label with the warning |
| KmPlot.CrossHighlight | js/KmPlot.js:87-94 | with non-empty distinct labels, graph and legend agree on every group, at most one group is highlighted, and it is the one whose label is active |
| KmPlot.HoverSession | js/KmPlot.js:324-341 | starting from no highlight, if the last hover enters group i then group i alone is highlighted in graph and legend; if it leaves, nothing is |
| KmPlot.HoverPropagates | js/KmPlot.js:235-241 | entering a curve group or its legend entry and re-rendering highlights that group in both the graph and the legend |
| KmPlot.EmptyCurvesScenario | js/KmPlot.js:217-220 | when every curve is empty, every legend count is the glyph and every path is the lone origin move |

## Left out

- React and JSX rendering, CSS class names and inline styles (other than
  the swatch border width and the hover emphasis flag). These are
  framework plumbing.
- `LineGroup.shouldComponentUpdate` (js/KmPlot.js:47-49). It is a
  re-render optimisation based on `_.isEqual`, and changes nothing that
  is drawn.
- `WarningTrigger`, `WarningDialog`, `Dialog` and the `document.body`
  style changes (js/KmPlot.js:138-193, 356-359), and the dialog's
  `'Kaplan Meier' + title` heading (js/KmPlot.js:419), so the `title` prop
  is not part of the model's input. These are DOM and dialog side effects.
- PDF export (`kmpdf`) and the help page redirect through
  `window.location` (js/KmPlot.js:343-349). These are foreign calls and I/O.
- The callback intents `km-close`, `km-cutoff` and `km-splits` with its
  `parseInt` (js/KmPlot.js:326-337, 351-354). They pass values straight
  to the host.
- `Axis`, `linear`, `linearTicks` and `NumberForm` are not part of this
  model. The scales are opaque function parameters. Monotonicity is
  assumed only where a lemma says so (`StepPath.LineRunsRightward`).
- The margins and the 0.9 × 0.8 graph sizing of `svg` and `makeGraph`
  (js/KmPlot.js:17, 74-82, 98-103, 260-267). They size and position the
  svg and feed the external scales; all of this is drawing, not modelled.
- Display.FormatPValue: `toPrecision(4)` is floating-point string
  rendering, so a present value is kept as the number itself rather than
  as its four-significant-digit text. That text is lossy (0.12341 and
  0.12344 both show as 0.1234), so the model claims no read-back property
  for present values.
- StepPath.Line: the number-to-text interpolation of the path string is
  not modelled; the path is a sequence of commands with real coordinates.
- Layout.CalcDimsLinear: the arithmetic is exact real arithmetic, with no
  IEEE double rounding. In doubles, scaling by k commutes with the ratios
  exactly only for some k (a power of two does). For example,
  (0.7 × 700) × 0.75 is 367.49999999999994 but 0.7 × (700 × 0.75) is 367.5.
- Layout.CalcDims: a ratio-table entry is modelled as a width/height pair.
  So a table entry with keys other than `width` and `height` (which
  `_.mapObject` would carry through as NaN) cannot be written.
- KmPlot.Render: the parallel colour, label and curve lists must line up
  when there are colours. The source zips them and would fail on a
  missing curve.
