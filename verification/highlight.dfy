/** The highlight decision: which group is drawn emphasised, given the one
    shared active label (the empty label meaning "none"). */
module Highlight {
  import opened Samples

  /** The legend's test: a label is active when the active label is
      non-empty and equal to it. */
  function CheckIfActive(current: Label, active: Label): (r: bool)
    ensures active == "" ==> !r
    ensures active != "" ==> (r <==> current == active)
  {
    active != "" && active == current
  }

  /** The curve group's test: plain equality with the active label. It is
      the legend's test plus one case, an empty label while nothing is
      active. */
  function CurveIsActive(current: Label, active: Label): (r: bool)
    ensures r <==> CheckIfActive(current, active) || (current == "" && active == "")
  {
    current == active
  }

  /** The two tests agree on every non-empty label. */
  lemma CurveAgreesWithLegend(current: Label, active: Label)
    requires current != ""
    ensures CurveIsActive(current, active) == CheckIfActive(current, active)
  {
  }

  /** Where they differ: a group whose label is empty counts as active on
      the curve side when nothing is active, but not in the legend. */
  lemma EmptyLabelDisagreement()
    ensures CurveIsActive("", "") && !CheckIfActive("", "")
  {
  }

  /** No two groups of a plot share a label. */
  predicate DistinctLabels(labels: seq<Label>) {
    forall i, j :: 0 <= i < j < |labels| ==> labels[i] != labels[j]
  }

  /** The indices of the groups the legend shows as active. */
  function ActiveIndices(labels: seq<Label>, active: Label): set<nat> {
    set i: nat | i < |labels| && CheckIfActive(labels[i], active)
  }

  /** With distinct labels at most one group is active; exactly one when
      the active label belongs to a group, none when it is empty. */
  lemma AtMostOneActive(labels: seq<Label>, active: Label)
    requires DistinctLabels(labels)
    ensures |ActiveIndices(labels, active)| <= 1
    ensures active == "" ==> ActiveIndices(labels, active) == {}
    ensures forall i :: 0 <= i < |labels| && labels[i] == active && active != "" ==>
              ActiveIndices(labels, active) == {i}
  {
    var s := ActiveIndices(labels, active);
    if s != {} {
      var i :| i in s;
      assert s == {i} by {
        forall j | j in s ensures j == i {
          assert labels[j] == active == labels[i];
        }
      }
    }
  }
}
