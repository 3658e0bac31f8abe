/** The interaction state: the single active label, written by hover
    enter and leave on either a curve group or a legend entry. */
module Interaction {
  import opened Samples

  /** Where a hover happened; both places behave identically. */
  datatype Source = CurveGroup | LegendEntry

  /** Pointer over an element of the group labelled `groupLabel`, or pointer out. */
  datatype Hover = Enter(source: Source, groupLabel: Label) | Leave(source: Source)

  /** The active label a freshly mounted plot starts with: none. */
  const Initial: Label := ""

  /** The label a hover hands to the state setter: enter passes its group's
      label, leave passes the empty label whatever is active. */
  function Written(h: Hover): (l: Label)
    ensures h.Leave? ==> l == ""
    ensures h.Enter? ==> l == h.groupLabel
  {
    match h
    case Enter(_, l) => l
    case Leave(_) => ""
  }

  /** The state setter: entering makes the group's label active, leaving
      clears the active label. */
  function SetActiveLabel(active: Label, h: Hover): (r: Label)
    ensures h.Enter? ==> r == h.groupLabel
    ensures h.Leave? ==> r == ""
  {
    Written(h)
  }

  /** The setter replaces the active label, ignoring what it was: leaving
      clears it even when another group is active. */
  lemma SetIgnoresPrevious(a: Label, b: Label, h: Hover)
    ensures SetActiveLabel(a, h) == SetActiveLabel(b, h)
  {
  }

  /** The active label after a series of hovers, applied first to last. */
  function Run(active: Label, hs: seq<Hover>): Label
    decreases |hs|
  {
    if hs == [] then active else Run(SetActiveLabel(active, hs[0]), hs[1..])
  }

  /** Last writer wins: after any non-empty series of hovers the active
      label is the one written by the last hover, whatever came before. */
  lemma {:induction false} LastWriterWins(active: Label, hs: seq<Hover>)
    ensures hs == [] ==> Run(active, hs) == active
    ensures hs != [] ==> Run(active, hs) == Written(hs[|hs| - 1])
    decreases |hs|
  {
    if hs != [] {
      LastWriterWins(SetActiveLabel(active, hs[0]), hs[1..]);
      if |hs| > 1 {
        assert hs[1..][|hs[1..]| - 1] == hs[|hs| - 1];
      }
    }
  }

  /** Hovers on a curve group and on a legend entry are interchangeable. */
  lemma SourceIrrelevant(a: Source, b: Source, l: Label, active: Label)
    ensures SetActiveLabel(active, Enter(a, l)) == SetActiveLabel(active, Enter(b, l))
    ensures SetActiveLabel(active, Leave(a)) == SetActiveLabel(active, Leave(b))
  {
  }
}
