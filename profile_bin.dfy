/**
 * TProfile2PolyBin: one polygon bin of the profile, whose methods update its fields in place.
 * Each method is specified by a function of BinStatistics applied to the bin's State(): Merge by
 * MergeSums, SetContent, ClearContent and SetErrorOption by record updates, and the others by the
 * function of the same name.
 */
module ProfileBin {
  import opened Wrappers
  import S = BinStatistics

  /** The polygon of a bin, reduced to the containment test it offers (TH2PolyBin::IsInside).
      No polygon geometry is modelled. */
  datatype Geometry = Geometry(contains: (real, real) -> bool)

  class Bin {
    /** The bin number given at creation (TH2PolyBin::fNumber); 0 for an overflow bin. */
    const number: int
    /** The polygon; an overflow bin has none. */
    const poly: Option<Geometry>

    var sumw: real
    var sumvw: real
    var sumw2: real
    var sumwv2: real
    var average: real
    var error: S.Quantity
    var mode: S.ErrorMode
    /** The displayed content (TH2PolyBin::fContent). */
    var content: S.Quantity

    function RunningSums(): S.Sums
      reads this
    {
      S.Sums(sumw, sumvw, sumw2, sumwv2)
    }

    function State(): S.BinState
      reads this
    {
      S.BinState(RunningSums(), average, error, mode, content)
    }

    /** The default constructor, used for the nine overflow bins. */
    constructor ()
      ensures State() == S.NewBin() && number == 0 && poly == None
    {
      number := 0;
      poly := None;
      sumw, sumvw, sumw2, sumwv2 := 0.0, 0.0, 0.0, 0.0;
      error := S.Exact(0.0);
      average := 0.0;
      mode := S.ErrorSpread;
      content := S.Exact(0.0);
    }

    /** The constructor for a polygon bin: the sums are zero and the mode is spread, whatever
        mode the owning profile has. */
    constructor Polygon(geometry: Geometry, binNumber: int)
      ensures State() == S.NewBin() && number == binNumber && poly == Some(geometry)
    {
      number := binNumber;
      poly := Some(geometry);
      sumw, sumvw, sumw2, sumwv2 := 0.0, 0.0, 0.0, 0.0;
      error := S.Exact(0.0);
      average := 0.0;
      mode := S.ErrorSpread;
      content := S.Exact(0.0);
    }

    /** Whether the bin's polygon contains the point; an overflow bin has no polygon and
        contains nothing. */
    predicate IsInside(x: real, y: real) {
      poly.Some? && poly.value.contains(x, y)
    }

    /** Adds the other bin's four sums to this bin's; the other bin may be this bin itself. */
    method Merge(other: Bin)
      modifies this
      ensures State() == S.MergeSums(old(State()), old(other.RunningSums()))
    {
      sumw := sumw + other.sumw;
      sumvw := sumvw + other.sumvw;
      sumw2 := sumw2 + other.sumw2;
      sumwv2 := sumwv2 + other.sumwv2;
    }

    method Update()
      modifies this
      ensures State() == S.Update(old(State()))
    {
      UpdateAverage();
      UpdateError();
    }

    method UpdateAverage()
      modifies this
      ensures State() == S.UpdateAverage(old(State()))
    {
      if sumw != 0.0 {
        average := sumvw / sumw;
      }
    }

    method UpdateError()
      modifies this
      ensures State() == S.UpdateError(old(State()))
    {
      var tmp := 0.0;
      if sumw != 0.0 {
        tmp := sumwv2 / sumw - average * average;
      }
      assert tmp == S.Radicand(State());
      match mode
      case ErrorMean =>
        error := S.SqrtPerEffectiveEntries(tmp, sumw, sumw2);
      case ErrorSpread =>
        error := S.Sqrt(tmp);
      case _ =>
        error := S.SqrtPerEffectiveEntries(tmp, sumw, sumw2);
    }

    method ClearStats()
      modifies this
      ensures State() == S.ClearStats(old(State()))
    {
      sumw, sumvw, sumw2, sumwv2 := 0.0, 0.0, 0.0, 0.0;
      error := S.Exact(0.0);
      average := 0.0;
    }

    method Fill(value: real, weight: real)
      modifies this
      ensures State() == S.Fill(old(State()), value, weight)
    {
      sumw := sumw + weight;
      sumvw := sumvw + value * weight;
      sumw2 := sumw2 + weight * weight;
      sumwv2 := sumwv2 + weight * value * value;
      Update();
    }

    method SetContent(c: S.Quantity)
      modifies this
      ensures State() == old(State()).(content := c)
    {
      content := c;
    }

    method ClearContent()
      modifies this
      ensures State() == old(State()).(content := S.Exact(0.0))
    {
      content := S.Exact(0.0);
    }

    method SetErrorOption(m: S.ErrorMode)
      modifies this
      ensures State() == old(State()).(mode := m)
    {
      mode := m;
    }
  }
}
