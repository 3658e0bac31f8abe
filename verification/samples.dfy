/** The data a Kaplan-Meier curve is made of. */
module Samples {

  /** One point of a survival curve: time `t`, survival probability `s`,
      number at risk `n`, and the event flag `e` (true for an event,
      false for a censored subject). */
  datatype Sample = Sample(t: real, s: real, n: nat, e: bool)

  /** A curve is the ordered sequence of its samples; it may be empty. */
  type Curve = seq<Sample>

  /** A scale maps a domain value (a time or a survival probability) to a
      pixel coordinate. Scales are built outside the plot, so the model
      takes them as plain function values. */
  type Scale = real -> real

  type Label = string
  type Color = string

  /** Curves arrive ordered by non-decreasing time. */
  predicate SortedByTime(c: Curve) {
    forall i, j :: 0 <= i < j < |c| ==> c[i].t <= c[j].t
  }

  /** An increasing scale, as a linear scale over an ascending range is. */
  ghost predicate Monotone(f: Scale) {
    forall a, b :: a <= b ==> f(a) <= f(b)
  }
}
