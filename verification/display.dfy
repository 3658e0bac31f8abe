/** What the plot shows for a statistic or a sample count: a value, or the
    empty-set glyph when there is none. */
module Display {
  import opened Wrappers
  import opened Samples

  /** The glyph U+2205 EMPTY SET, shown in place of a missing number. */
  const EmptySetGlyph: string := "\U{2205}"

  /** A shown value or the empty-set glyph. The four-significant-digit
      rendering of a statistic is not part of this model, so a value is
      kept as the number itself. */
  datatype Display<T> = Shown(value: T) | EmptySet {
    /** The text for the glyph case; None for a value. */
    function GlyphText(): (r: Option<string>)
      ensures r.Some? <==> EmptySet?
      ensures EmptySet? ==> r == Some(EmptySetGlyph)
    {
      if EmptySet? then Some(EmptySetGlyph) else None
    }
  }

  /** A p-value or log-rank statistic: null or undefined becomes the glyph,
      anything else is shown. */
  function FormatPValue(v: Option<real>): (r: Display<real>)
    ensures r.EmptySet? <==> v.None?
    ensures v.Some? ==> r.value == v.value
  {
    match v
    case None => EmptySet
    case Some(x) => Shown(x)
  }

  /** The legend's sample count: the number at risk of the first sample,
      or the glyph for an empty curve. */
  function SampleCount(c: Curve): (r: Display<nat>)
    ensures r.EmptySet? <==> c == []
    ensures c != [] ==> r.value == c[0].n
  {
    if c == [] then EmptySet else Shown(c[0].n)
  }

  /** The glyph is the single character with code point 8709. */
  lemma GlyphCodePoint()
    ensures |EmptySetGlyph| == 1 && EmptySetGlyph[0] as int == 8709
  {
  }
}
