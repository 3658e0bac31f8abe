/** The layout ratios: each named region of the plot gets a fixed fraction
    of the outer box's width and height. */
module Layout {

  /** A width-by-height box: in pixels for the outer box and the regions,
      as fractions for an entry of the ratio table. */
  datatype Box = Box(width: real, height: real)

  /** The box with both sides multiplied by k. */
  function Scaled(view: Box, k: real): Box {
    Box(k * view.width, k * view.height)
  }

  /** Region name to the ratios applied to the outer box's sides. */
  type Ratios = map<string, Box>

  /** The plot's ratio table: the graph takes three quarters of the width,
      the definitions column two fifths; both take the full height. */
  const PlotRatios: Ratios :=
    map["graph" := Box(0.75, 1.0), "definitions" := Box(0.4, 1.0)]

  /** The outer box a plot gets when the host gives none. */
  const DefaultDims: Box := Box(700.0, 450.0)

  /** One region: each side of the outer box times that side's ratio. */
  function ScaleSection(view: Box, ratio: Box): Box {
    Box(view.width * ratio.width, view.height * ratio.height)
  }

  /** Every region of the table, sized by its ratios against the outer box;
      the regions are exactly those of the table and each side is the outer
      box's matching side times the region's ratio for that side. */
  function CalcDims(view: Box, ratios: Ratios): (r: map<string, Box>)
    ensures r.Keys == ratios.Keys
    ensures forall region :: region in r ==>
              && r[region].width == view.width * ratios[region].width
              && r[region].height == view.height * ratios[region].height
  {
    map region | region in ratios :: ScaleSection(view, ratios[region])
  }

  /** Scaling the outer box by k scales every region by k. */
  lemma CalcDimsLinear(view: Box, ratios: Ratios, k: real)
    ensures var a := CalcDims(Scaled(view, k), ratios);
      var b := CalcDims(view, ratios);
      a.Keys == b.Keys && forall region :: region in a ==> a[region] == Scaled(b[region], k)
  {
    forall region | region in ratios
      ensures ScaleSection(Scaled(view, k), ratios[region]) == Scaled(ScaleSection(view, ratios[region]), k)
    {
      SectionLinear(view, ratios[region], k);
    }
  }

  lemma SectionLinear(view: Box, ratio: Box, k: real)
    ensures ScaleSection(Scaled(view, k), ratio) == Scaled(ScaleSection(view, ratio), k)
  {
    MulAssoc(k, view.width, ratio.width);
    MulAssoc(k, view.height, ratio.height);
  }

  lemma MulAssoc(k: real, x: real, q: real)
    ensures (k * x) * q == k * (x * q)
  {
  }

  /** The default 700 by 450 box gives a 525 by 450 graph and a 280 by 450
      definitions column. */
  lemma DefaultSections()
    ensures var d := CalcDims(DefaultDims, PlotRatios);
      && d.Keys == {"graph", "definitions"}
      && d["graph"] == Box(525.0, 450.0)
      && d["definitions"] == Box(280.0, 450.0)
  {
    var d := CalcDims(DefaultDims, PlotRatios);
    assert PlotRatios.Keys == {"graph", "definitions"};
    assert d["graph"] == ScaleSection(DefaultDims, Box(0.75, 1.0));
    assert d["definitions"] == ScaleSection(DefaultDims, Box(0.4, 1.0));
  }
}
