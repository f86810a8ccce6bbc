/**
 * TProfile2Poly: a 2-D profile histogram whose bins are polygons. The profile owns a list of
 * polygon bins, nine overflow bins laid out as a 3×3 compass around the axis ranges, a super-grid
 * of cells listing the candidate bins for each part of the plane, fEntries and nine global
 * accumulators. Every method that updates the profile's statistics is specified by a function of
 * ProfileStatistics applied to State(); CreateBin and AddBin by the new bin and the lists it
 * joins; CellOf, the GetBin* functions and GetStats by what they read from State().
 */
module Profile2Poly {
  import opened Wrappers
  import S = BinStatistics
  import opened Overflow
  import opened ProfileBin
  import opened ProfileStatistics

  /** The default super-grid size of TH2Poly in each direction. */
  const DefaultCells: int := 25

  /** No object occurs twice. */
  predicate Distinct(bs: seq<Bin>) {
    forall i, j :: 0 <= i < j < |bs| ==> bs[i] != bs[j]
  }

  function StatesOf(bs: seq<Bin>): (r: seq<S.BinState>)
    reads bs
    ensures |r| == |bs| && forall i :: 0 <= i < |bs| ==> r[i] == bs[i].State()
  {
    seq(|bs|, i requires 0 <= i < |bs| reads bs => bs[i].State())
  }

  /** The number of bins of a cell list that contain the point: what Fill adds to fEntries. */
  function CountInside(cell: seq<Bin>, x: real, y: real): (c: nat)
    ensures c <= |cell|
  {
    if cell == [] then 0
    else CountInside(cell[..|cell| - 1], x, y) + (if cell[|cell| - 1].IsInside(x, y) then 1 else 0)
  }

  /** For each bin of the list, whether a fill at (x, y) through the given cell reaches it. */
  function Mask(bins: seq<Bin>, cell: seq<Bin>, x: real, y: real): (m: seq<bool>)
    ensures |m| == |bins|
    ensures forall i :: 0 <= i < |bins| ==> (m[i] <==> bins[i] in cell && bins[i].IsInside(x, y))
  {
    seq(|bins|, i requires 0 <= i < |bins| => bins[i] in cell && bins[i].IsInside(x, y))
  }

  lemma {:induction false} HitsNone(m: seq<bool>)
    requires forall i :: 0 <= i < |m| ==> !m[i]
    ensures Hits(m) == 0
  {
    if m != [] {
      HitsNone(m[..|m| - 1]);
    }
  }

  lemma {:induction false} HitsSet(m: seq<bool>, k: nat)
    requires k < |m| && !m[k]
    ensures Hits(m[k := true]) == Hits(m) + 1
  {
    var m' := m[k := true];
    var last := |m| - 1;
    if k == last {
      assert m'[..last] == m[..last];
    } else {
      assert m'[..last] == m[..last][k := true];
      HitsSet(m[..last], k);
    }
  }

  /** Counting the bins of a cell that contain the point is counting the bins a fill reaches,
      when the cell lists each of its bins once. */
  lemma {:induction false} CountInsideIsHits(bins: seq<Bin>, cell: seq<Bin>, x: real, y: real)
    requires Distinct(bins) && Distinct(cell)
    requires forall j :: 0 <= j < |cell| ==> cell[j] in bins
    ensures CountInside(cell, x, y) == Hits(Mask(bins, cell, x, y))
  {
    if cell == [] {
      HitsNone(Mask(bins, cell, x, y));
    } else {
      var c' := cell[..|cell| - 1];
      var e := cell[|cell| - 1];
      assert Distinct(c');
      assert forall j :: 0 <= j < |c'| ==> c'[j] in bins;
      CountInsideIsHits(bins, c', x, y);
      var m', m := Mask(bins, c', x, y), Mask(bins, cell, x, y);
      assert e !in c';
      var k :| 0 <= k < |bins| && bins[k] == e;
      assert forall i :: 0 <= i < |bins| && i != k ==> (bins[i] in cell <==> bins[i] in c') by {
        assert cell == c' + [e];
      }
      assert bins[k] in cell;
      if e.IsInside(x, y) {
        assert m == m'[k := true];
        HitsSet(m', k);
      } else {
        assert m == m';
      }
    }
  }

  /** A cell list drawn from all but the last bin, with the last bin appended or not, is still
      without repeats and drawn from the bins. */
  lemma CellListsNewBin(cell: seq<Bin>, bins: seq<Bin>, append: bool)
    requires |bins| >= 1 && Distinct(bins) && Distinct(cell)
    requires forall j :: 0 <= j < |cell| ==> cell[j] in bins[..|bins| - 1]
    ensures var r := if append then cell + [bins[|bins| - 1]] else cell;
      Distinct(r) && forall j :: 0 <= j < |r| ==> r[j] in bins
  {
    var n := |bins| - 1;
    forall j | 0 <= j < |cell| ensures cell[j] in bins && cell[j] != bins[n] {
      var t :| 0 <= t < n && bins[..n][t] == cell[j];
      assert bins[t] == cell[j];
    }
  }

  /** The given profiles and their bins: what their states read. */
  ghost function Footprint(list: seq<Profile>): set<object>
    reads list
  {
    if list == [] then {}
    else
      var p := list[|list| - 1];
      Footprint(list[..|list| - 1]) + {p} + (set b | b in p.bins) + (set b | b in p.overflowBins)
  }

  /** The states of the given profiles, in list order. */
  ghost function InputStates(list: seq<Profile>): (ins: seq<ProfileState>)
    reads list, Footprint(list)
    ensures |ins| == |list|
    ensures forall q :: 0 <= q < |list| ==> ins[q] == list[q].State()
  {
    if list == [] then []
    else InputStates(list[..|list| - 1]) + [list[|list| - 1].State()]
  }

  /** The inner merge loop: bin i of every profile of the list merged into dst, which is then
      updated. The listed bins hold the states ins, and keep names bins that must not change. */
  method MergeColumn(dst: Bin, list: seq<Profile>, i: nat, ghost ins: seq<ProfileState>, ghost keep: seq<Bin>)
    requires |ins| == |list| && dst !in keep
    requires forall q :: 0 <= q < |list| ==>
      i < |list[q].bins| == |ins[q].bins| && dst !in list[q].bins && dst !in list[q].overflowBins
    requires forall q, k :: 0 <= q < |list| && 0 <= k < |list[q].bins| ==> list[q].bins[k].State() == ins[q].bins[k]
    modifies dst
    ensures dst.State() == S.Update(S.MergeSums(old(dst.State()), AddAll(BinColumn(ins, i))))
    ensures forall q, k :: 0 <= q < |list| && 0 <= k < |list[q].bins| ==> list[q].bins[k].State() == ins[q].bins[k]
    ensures forall q, k :: 0 <= q < |list| && 0 <= k < |list[q].overflowBins| ==>
      list[q].overflowBins[k].State() == old(list[q].overflowBins[k].State())
    ensures StatesOf(keep) == old(StatesOf(keep))
  {
    ghost var column := BinColumn(ins, i);
    for e := 0 to |list|
      invariant dst.State() == S.MergeSums(old(dst.State()), AddAll(column[..e]))
      invariant forall q, k :: 0 <= q < |list| && 0 <= k < |list[q].bins| ==> list[q].bins[k].State() == ins[q].bins[k]
      invariant forall q, k :: 0 <= q < |list| && 0 <= k < |list[q].overflowBins| ==>
        list[q].overflowBins[k].State() == old(list[q].overflowBins[k].State())
      invariant StatesOf(keep) == old(StatesOf(keep))
    {
      dst.Merge(list[e].bins[i]);
      assert column[..e + 1][..e] == column[..e];
      S.AddSumsAssociative(old(dst.State()).sums, AddAll(column[..e]), column[e]);
    }
    assert column[..|list|] == column;
    dst.Update();
  }

  /**
   * What GetBinEffectiveEntries returns: 0 for a bin number that addresses no bin; the entry of the
   * base class's own fOverflow array for an overflow bin number (that array is not part of this
   * model); or a polygon bin's effective entries sumw²/sumw2, kept unevaluated like the error.
   */
  datatype EffectiveEntries =
    | NoEntries
    | BaseOverflowEntry(slot: nat)
    | SumwSquaredOverSumw2(sumw: real, sumw2: real)

  /** Makes the nine overflow bins, each with the default bin constructor. */
  method NewOverflowBins() returns (bs: seq<Bin>)
    ensures |bs| == NOverflow && Distinct(bs) && fresh(bs)
    ensures forall k :: 0 <= k < NOverflow ==> bs[k].poly.None? && bs[k].State() == S.NewBin()
  {
    bs := [];
    while |bs| < NOverflow
      invariant |bs| <= NOverflow && Distinct(bs) && fresh(bs)
      invariant forall k :: 0 <= k < |bs| ==> bs[k].poly.None? && bs[k].State() == S.NewBin()
    {
      var b := new Bin();
      bs := bs + [b];
    }
  }

  class Profile {
    /** fOverflowBins: the nine compass bins, slot k for region -k-1. */
    const overflowBins: seq<Bin>
    /** fBins: the polygon bins; bin number i + 1 is bins[i]. */
    var bins: seq<Bin>
    /** fCells: for each super-grid cell n + cellX·m, the bins that may contain its points. */
    var cells: seq<seq<Bin>>
    /** The axis ranges. */
    const domain: Domain
    const cellX: int
    const cellY: int
    const stepX: real
    const stepY: real
    /** fNcells: the overflow bins plus the polygon bins created so far. */
    var nCells: int
    var entries: real
    var tsums: Accumulators
    var errorMode: S.ErrorMode

    ghost predicate Valid()
      reads this`bins, this`cells, this`nCells
    {
      && |overflowBins| == NOverflow && Distinct(overflowBins)
      && (forall k :: 0 <= k < |overflowBins| ==> overflowBins[k].poly.None?)
      && Distinct(bins)
      && (forall i :: 0 <= i < |bins| ==> bins[i].poly.Some? && bins[i].number == i + 1)
      && nCells == NOverflow + |bins|
      && cellX >= 1 && cellY >= 1 && stepX > 0.0 && stepY > 0.0
      && |cells| == cellX * cellY
      && (forall c :: 0 <= c < |cells| ==> Distinct(cells[c]))
      && (forall c, j :: 0 <= c < |cells| && 0 <= j < |cells[c]| ==> cells[c][j] in bins)
    }

    function State(): ProfileState
      reads this, bins, overflowBins
    {
      ProfileState(entries, tsums, errorMode, StatesOf(bins), StatesOf(overflowBins))
    }

    /** No bin of the other profile is a bin of this one. */
    ghost predicate SharesNoBin(other: Profile)
      reads this, other
    {
      && (forall b :: b in other.bins ==> b !in bins)
      && (forall b :: b in other.overflowBins ==> b !in overflowBins)
    }

    /** The profiles a merge may read: well formed and owning bins of their own. */
    ghost predicate MergeableInputs(list: seq<Profile>)
      reads this, list
    {
      forall q :: 0 <= q < |list| ==> list[q] != this && list[q].Valid() && SharesNoBin(list[q])
    }

    /** The super-grid cell a point falls in, with the column and the row clamped to the grid. */
    function CellOf(x: real, y: real): (c: nat)
      reads this`bins, this`cells, this`nCells
      requires Valid()
      ensures c < |cells|
    {
      var n := GridCell(x, domain.xMin, stepX, cellX);
      var m := GridCell(y, domain.yMin, stepY, cellY);
      CellIndexInRange(n, m, cellX, cellY);
      n + cellX * m
    }

    /** The polygon bins a fill at (x, y) reaches. */
    ghost function HitMask(x: real, y: real): (mask: seq<bool>)
      reads this`bins, this`cells, this`nCells
      requires Valid()
      ensures |mask| == |bins|
    {
      Mask(bins, cells[CellOf(x, y)], x, y)
    }

    /** The profile over [xlow, xup] × [ylow, yup] with the default 25 × 25 super-grid. */
    constructor (xlow: real, xup: real, ylow: real, yup: real)
      requires xlow < xup && ylow < yup
      ensures Valid() && fresh(overflowBins)
      ensures domain == Domain(xlow, xup, ylow, yup) && cellX == DefaultCells && cellY == DefaultCells
      ensures bins == [] && nCells == NOverflow
      ensures State() == ProfileState(0.0, NoAccumulators, S.ErrorMean, [], seq(NOverflow, k => S.NewBin()))
    {
      var ob := NewOverflowBins();
      overflowBins := ob;
      bins := [];
      cells := seq(DefaultCells * DefaultCells, c => []);
      domain := Domain(xlow, xup, ylow, yup);
      cellX, cellY := DefaultCells, DefaultCells;
      stepX := (xup - xlow) / DefaultCells as real;
      stepY := (yup - ylow) / DefaultCells as real;
      nCells := NOverflow;
      entries := 0.0;
      tsums := NoAccumulators;
      errorMode := S.ErrorMean;
    }

    /** The profile over [xlow, xup] × [ylow, yup] with an nX × nY super-grid. */
    constructor WithGrid(nX: int, xlow: real, xup: real, nY: int, ylow: real, yup: real)
      requires nX >= 1 && nY >= 1 && xlow < xup && ylow < yup
      ensures Valid() && fresh(overflowBins)
      ensures domain == Domain(xlow, xup, ylow, yup) && cellX == nX && cellY == nY
      ensures bins == [] && nCells == NOverflow
      ensures State() == ProfileState(0.0, NoAccumulators, S.ErrorMean, [], seq(NOverflow, k => S.NewBin()))
    {
      var ob := NewOverflowBins();
      overflowBins := ob;
      bins := [];
      cells := seq(nX * nY, c => []);
      domain := Domain(xlow, xup, ylow, yup);
      cellX, cellY := nX, nY;
      stepX := (xup - xlow) / nX as real;
      stepY := (yup - ylow) / nY as real;
      nCells := NOverflow;
      entries := 0.0;
      tsums := NoAccumulators;
      errorMode := S.ErrorMean;
    }

    /** A new polygon bin numbered after the cells created so far; none without a polygon. The
        bin starts in spread mode whatever the profile's error mode. */
    method CreateBin(poly: Option<Geometry>) returns (b: Bin?)
      modifies this`nCells
      ensures poly.None? ==> b == null && nCells == old(nCells)
      ensures poly.Some? ==>
        b != null && fresh(b) && nCells == old(nCells) + 1
        && b.number == nCells - NOverflow && b.poly == poly
        && b.State() == S.NewBin() && b.State().mode == S.ErrorSpread
      ensures bins == old(bins) && cells == old(cells) && entries == old(entries) && tsums == old(tsums)
      ensures errorMode == old(errorMode) && StatesOf(bins) == old(StatesOf(bins))
      ensures StatesOf(overflowBins) == old(StatesOf(overflowBins))
    {
      if poly.None? {
        return null;
      }
      nCells := nCells + 1;
      var ibin := nCells - NOverflow;
      b := new Bin.Polygon(poly.value, ibin);
    }

    /** Adds a polygon bin: creates it, appends it to the bin list and lists it in the given
        super-grid cells. */
    method AddBin(geometry: Geometry, cellIndices: set<nat>) returns (bin: int)
      requires Valid() && forall c :: c in cellIndices ==> c < |cells|
      modifies this
      ensures Valid()
      ensures |bins| == |old(bins)| + 1 && bins[..|old(bins)|] == old(bins) && bin == |bins|
      ensures fresh(bins[bin - 1]) && bins[bin - 1].poly == Some(geometry)
      ensures forall c :: 0 <= c < |cells| ==>
        cells[c] == (if c in cellIndices then old(cells[c]) + [bins[bin - 1]] else old(cells[c]))
      ensures State() == old(State()).(bins := old(State()).bins + [S.NewBin()])
    {
      var created := CreateBin(Some(geometry));
      var b: Bin := created;
      assert forall i :: 0 <= i < |bins| ==> bins[i] != b;
      bins := bins + [b];
      assert StatesOf(bins) == old(StatesOf(bins)) + [S.NewBin()];
      ListInCells(b, cellIndices);
      bin := |bins|;
    }

    /** The new bin b, last of the bin list, is listed in the given super-grid cells. */
    method ListInCells(b: Bin, cellIndices: set<nat>)
      requires |bins| >= 1 && b == bins[|bins| - 1] && b.poly.Some? && b.number == |bins|
      requires |overflowBins| == NOverflow && Distinct(overflowBins)
      requires forall k :: 0 <= k < |overflowBins| ==> overflowBins[k].poly.None?
      requires Distinct(bins) && forall i :: 0 <= i < |bins| ==> bins[i].poly.Some? && bins[i].number == i + 1
      requires nCells == NOverflow + |bins| && cellX >= 1 && cellY >= 1 && stepX > 0.0 && stepY > 0.0
      requires |cells| == cellX * cellY
      requires forall c :: 0 <= c < |cells| ==> Distinct(cells[c])
      requires forall c, j :: 0 <= c < |cells| && 0 <= j < |cells[c]| ==> cells[c][j] in bins[..|bins| - 1]
      requires forall c :: c in cellIndices ==> c < |cells|
      modifies this`cells
      ensures Valid()
      ensures forall c :: 0 <= c < |cells| ==> cells[c] == (if c in cellIndices then old(cells[c]) + [b] else old(cells[c]))
    {
      var before := cells;
      cells := seq(|before|, c requires 0 <= c < |before| => if c in cellIndices then before[c] + [b] else before[c]);
      forall c | 0 <= c < |cells|
        ensures Distinct(cells[c]) && forall j :: 0 <= j < |cells[c]| ==> cells[c][j] in bins
      {
        CellListsNewBin(before[c], bins, c in cellIndices);
      }
    }

    /** The bins of one cell list that contain the point take the fill, are updated and show their
        average; each of them adds one to fEntries. */
    method FillCell(cell: seq<Bin>, x: real, y: real, value: real, weight: real)
      requires Distinct(cell)
      modifies this`entries, cell
      ensures entries == old(entries) + CountInside(cell, x, y) as real
      ensures forall t :: 0 <= t < |cell| ==>
        cell[t].State() == (if cell[t].IsInside(x, y) then FillShow(old(cell[t].State()), value, weight) else old(cell[t].State()))
    {
      var j := 0;
      while j < |cell|
        invariant 0 <= j <= |cell|
        invariant entries == old(entries) + CountInside(cell[..j], x, y) as real
        invariant forall t :: 0 <= t < |cell| ==>
          cell[t].State() == (if t < j && cell[t].IsInside(x, y) then FillShow(old(cell[t].State()), value, weight) else old(cell[t].State()))
      {
        var bin := cell[j];
        if bin.IsInside(x, y) {
          entries := entries + 1.0;
          bin.Fill(value, weight);
          bin.Update();
          bin.SetContent(S.Exact(bin.average));
        }
        assert cell[..j + 1][..j] == cell[..j];
        j := j + 1;
      }
      assert cell[..|cell|] == cell;
    }

    /** The fill of the overflow slot of a region, if the region has one. */
    method FillOverflowSlot(region: int, value: real, weight: real)
      requires Valid() && -(NOverflow as int) <= region <= 0
      modifies overflowBins
      ensures StatesOf(overflowBins) == FillOverflow(old(StatesOf(overflowBins)), region, value, weight)
      ensures StatesOf(bins) == old(StatesOf(bins))
      ensures entries == old(entries) && tsums == old(tsums)
      ensures bins == old(bins) && cells == old(cells) && nCells == old(nCells) && errorMode == old(errorMode)
      ensures Valid()
    {
      var slot := FilledOverflowSlot(region);
      if slot.Some? {
        overflowBins[slot.value].Fill(value, weight);
      }
      assert StatesOf(overflowBins) == FillOverflow(old(StatesOf(overflowBins)), region, value, weight);
    }

    /** The fill of the polygon bins listed in cell c. */
    method FillCellBins(c: nat, x: real, y: real, value: real, weight: real)
      requires Valid() && c < |cells|
      modifies this`entries, bins
      ensures entries == old(entries) + Hits(Mask(bins, cells[c], x, y)) as real
      ensures StatesOf(bins) == FillBins(old(StatesOf(bins)), Mask(bins, cells[c], x, y), value, weight)
      ensures StatesOf(overflowBins) == old(StatesOf(overflowBins))
      ensures tsums == old(tsums)
      ensures bins == old(bins) && cells == old(cells) && nCells == old(nCells) && errorMode == old(errorMode)
      ensures Valid()
    {
      var cell := cells[c];
      FillCell(cell, x, y, value, weight);
      CountInsideIsHits(bins, cell, x, y);
      var mask := Mask(bins, cell, x, y);
      forall i | 0 <= i < |bins|
        ensures StatesOf(bins)[i] == FillBins(old(StatesOf(bins)), mask, value, weight)[i]
      {
        if bins[i] in cell {
          var t :| 0 <= t < |cell| && cell[t] == bins[i];
        }
      }
      assert StatesOf(bins) == FillBins(old(StatesOf(bins)), mask, value, weight);
    }

    /** The global accumulators take the point (x, y) with the value and the weight. */
    method FillStatistics(x: real, y: real, value: real, weight: real)
      requires Valid()
      modifies this`tsums
      ensures tsums == FillAccumulators(old(tsums), x, y, value, weight)
      ensures StatesOf(bins) == old(StatesOf(bins)) && StatesOf(overflowBins) == old(StatesOf(overflowBins))
      ensures entries == old(entries)
      ensures bins == old(bins) && cells == old(cells) && nCells == old(nCells) && errorMode == old(errorMode)
      ensures Valid()
    {
      tsums := FillAccumulators(tsums, x, y, value, weight);
    }

    /** Fill(x, y, value, weight): returns the overflow region of the point. */
    method Fill(x: real, y: real, value: real, weight: real) returns (region: int)
      requires Valid()
      modifies this`entries, this`tsums, bins, overflowBins
      ensures Valid()
      ensures region == OverflowRegion(nCells, domain, x, y)
      ensures State() == FillStates(old(State()), HitMask(x, y), region, x, y, value, weight)
    {
      region := OverflowRegion(nCells, domain, x, y);
      FillOverflowSlot(region, value, weight);
      ghost var mask := HitMask(x, y);
      var c := CellOf(x, y);
      FillStatistics(x, y, value, weight);
      FillCellBins(c, x, y, value, weight);
      assert HitMask(x, y) == mask;
      FillStatesParts(old(State()), mask, region, x, y, value, weight, State());
    }

    /** Fill(x, y, value): a fill of weight one. */
    method FillUnweighted(x: real, y: real, value: real) returns (region: int)
      requires Valid()
      modifies this`entries, this`tsums, bins, overflowBins
      ensures Valid()
      ensures region == OverflowRegion(nCells, domain, x, y)
      ensures State() == FillStates(old(State()), HitMask(x, y), region, x, y, value, 1.0)
    {
      region := Fill(x, y, value, 1.0);
    }
  
    // ------------------------------------------------------------ merge

    /** No bin of the other profile is a bin, polygon or overflow, of this one. */
    ghost predicate Untouched(other: Profile)
      reads this`bins, other`bins
    {
      && other != this
      && (forall k :: 0 <= k < |other.bins| ==> other.bins[k] !in bins && other.bins[k] !in overflowBins)
      && (forall k :: 0 <= k < |other.overflowBins| ==> other.overflowBins[k] !in bins && other.overflowBins[k] !in overflowBins)
    }

    /** The inputs of a merge keep out of this profile's bins: the polygon bins of a profile
        carry a geometry and its overflow bins none. */
    lemma InputsUntouched(list: seq<Profile>)
      requires Valid() && MergeableInputs(list)
      ensures forall q :: 0 <= q < |list| ==> Untouched(list[q])
    {
      forall q | 0 <= q < |list| ensures Untouched(list[q]) {
        var p := list[q];
        assert p.Valid() && SharesNoBin(p);
        forall k | 0 <= k < |p.bins| ensures p.bins[k] !in bins && p.bins[k] !in overflowBins {
          assert p.bins[k] in p.bins && p.bins[k].poly.Some?;
        }
        forall k | 0 <= k < |p.overflowBins| ensures p.overflowBins[k] !in bins && p.overflowBins[k] !in overflowBins {
          assert p.overflowBins[k] in p.overflowBins && p.overflowBins[k].poly.None?;
        }
      }
    }

    /** The fields of the listed profiles hold the states ins. */
    ghost predicate Mirrors(list: seq<Profile>, ins: seq<ProfileState>)
      reads this`bins, list
    {
      && |ins| == |list| && AllShaped(ins, |bins|)
      && forall q :: 0 <= q < |list| ==>
           && Untouched(list[q])
           && list[q].entries == ins[q].entries && list[q].tsums == ins[q].tsums
           && |list[q].bins| == |bins| && |list[q].overflowBins| == NOverflow
    }

    /** Merge(list): adds the fEntries, the accumulators and the bins of every input, position
        by position, then updates every polygon bin and shows its average. Returns -1, changing
        nothing, when the list is empty or the inputs and this profile do not all have the same
        number of polygon bins; 1 otherwise. */
    method Merge(list: seq<Profile>) returns (r: int)
      requires Valid() && MergeableInputs(list)
      modifies this`entries, this`tsums, bins, overflowBins
      ensures Valid()
      ensures r == 1 || r == -1
      ensures r == 1 <==> MergeAccepted(|bins|, old(InputStates(list)))
      ensures r == 1 ==> State() == MergeStates(old(State()), old(InputStates(list)))
      ensures r == -1 ==> State() == old(State())
    {
      if |list| == 0 {
        return -1;
      }
      ghost var ins := InputStates(list);
      var counts: set<int> := {};
      for q := 0 to |list|
        invariant counts == set j | 0 <= j < q :: |list[j].bins|
      {
        counts := counts + {|list[q].bins|};
        assert counts == set j | 0 <= j < q + 1 :: |list[j].bins| by {
          forall j | 0 <= j < q + 1 ensures |list[j].bins| in counts { }
        }
      }
      assert counts == BinCounts(ins);
      MergeAcceptedExtendsAsWritten(|bins|, ins);
      if |counts| != 1 {
        return -1;
      }
      var nbins :| nbins in counts;
      if nbins != |bins| {
        if |bins| in counts {
          SingletonMembers(counts, nbins, |bins|);
        }
        return -1;
      }
      MergeAll(list, ins);
      r := 1;
    }

    /** Before the merge the inputs' fields and bins hold their states. */
    lemma InputsMirrored(list: seq<Profile>, ins: seq<ProfileState>)
      requires Valid() && MergeableInputs(list) && ins == InputStates(list)
      requires MergeAccepted(|bins|, ins)
      ensures Mirrors(list, ins)
      ensures forall q, k :: 0 <= q < |list| && 0 <= k < |list[q].bins| ==> list[q].bins[k].State() == ins[q].bins[k]
      ensures forall q, k :: 0 <= q < |list| && 0 <= k < |list[q].overflowBins| ==>
        list[q].overflowBins[k].State() == ins[q].overflow[k]
    {
      InputsUntouched(list);
      forall q | 0 <= q < |list|
        ensures Shaped(ins[q], |bins|) && |list[q].overflowBins| == NOverflow
        ensures forall k :: 0 <= k < |list[q].bins| ==> list[q].bins[k].State() == ins[q].bins[k]
        ensures forall k :: 0 <= k < |list[q].overflowBins| ==> list[q].overflowBins[k].State() == ins[q].overflow[k]
      {
        assert list[q].Valid() && list[q].State() == ins[q];
      }
    }

    /** The accepted merge: the inputs are added to every sum, then the bins are updated and
        show their averages. */
    method MergeAll(list: seq<Profile>, ghost ins: seq<ProfileState>)
      requires Valid() && MergeableInputs(list) && ins == InputStates(list)
      requires MergeAccepted(|bins|, ins)
      modifies this`entries, this`tsums, bins, overflowBins
      ensures State() == MergeStates(old(State()), ins)
      ensures bins == old(bins) && cells == old(cells) && nCells == old(nCells) && errorMode == old(errorMode)
    {
      InputsMirrored(list, ins);
      ghost var tot := Total(|bins|, ins);
      MergeGlobals(list, ins);
      ghost var overflow := StatesOf(overflowBins);
      ghost var e, a := entries, tsums;
      MergeBins(list, ins);
      ghost var merged := StatesOf(bins);
      SetContentToAverage();
      assert StatesOf(overflowBins) == overflow == MergeEach(old(StatesOf(overflowBins)), tot.overflow);
      assert StatesOf(bins) == ShowAverageEach(merged);
      assert entries == e == old(entries) + tot.entries;
      assert tsums == a == AddAccumulators(old(tsums), tot.tsums);
      MergeStatesParts(old(State()), ins, State());
    }

    /** The first merge loop: fEntries, the accumulators and the overflow bins of every input. */
    method MergeGlobals(list: seq<Profile>, ghost ins: seq<ProfileState>)
      requires Valid() && Mirrors(list, ins)
      requires forall q, k :: 0 <= q < |list| && 0 <= k < |list[q].bins| ==> list[q].bins[k].State() == ins[q].bins[k]
      requires forall q, k :: 0 <= q < |list| && 0 <= k < |list[q].overflowBins| ==>
        list[q].overflowBins[k].State() == ins[q].overflow[k]
      modifies this`entries, this`tsums, overflowBins
      ensures entries == old(entries) + Total(|bins|, ins).entries
      ensures tsums == AddAccumulators(old(tsums), Total(|bins|, ins).tsums)
      ensures StatesOf(overflowBins) == MergeEach(old(StatesOf(overflowBins)), Total(|bins|, ins).overflow)
      ensures StatesOf(bins) == old(StatesOf(bins))
      ensures Mirrors(list, ins)
      ensures forall q, k :: 0 <= q < |list| && 0 <= k < |list[q].bins| ==> list[q].bins[k].State() == ins[q].bins[k]
      ensures bins == old(bins) && cells == old(cells) && nCells == old(nCells) && errorMode == old(errorMode)
    {
      for q := 0 to |list|
        invariant Mirrors(list, ins)
        invariant AllShaped(ins[..q], |bins|)
        invariant entries == old(entries) + Total(|bins|, ins[..q]).entries
        invariant tsums == AddAccumulators(old(tsums), Total(|bins|, ins[..q]).tsums)
        invariant StatesOf(overflowBins) == MergeEach(old(StatesOf(overflowBins)), Total(|bins|, ins[..q]).overflow)
        invariant StatesOf(bins) == old(StatesOf(bins))
        invariant forall j, k :: 0 <= j < |list| && 0 <= k < |list[j].bins| ==> list[j].bins[k].State() == ins[j].bins[k]
        invariant forall j, k :: 0 <= j < |list| && 0 <= k < |list[j].overflowBins| ==>
          list[j].overflowBins[k].State() == ins[j].overflow[k]
        invariant bins == old(bins) && cells == old(cells) && nCells == old(nCells) && errorMode == old(errorMode)
      {
        GlobalsStep(|bins|, ins, q, old(entries), old(tsums), old(StatesOf(overflowBins)));
        MergeInput(list, q, ins);
      }
      TotalWhole(|bins|, ins);
    }

    /** One pass of the first merge loop: fEntries and the accumulators of input q are added,
        and each of its overflow bins is merged into the overflow bin of the same slot. */
    method MergeInput(list: seq<Profile>, q: nat, ghost ins: seq<ProfileState>)
      requires Valid() && Mirrors(list, ins) && q < |list|
      requires forall j, k :: 0 <= j < |list| && 0 <= k < |list[j].bins| ==> list[j].bins[k].State() == ins[j].bins[k]
      requires forall j, k :: 0 <= j < |list| && 0 <= k < |list[j].overflowBins| ==>
        list[j].overflowBins[k].State() == ins[j].overflow[k]
      modifies this`entries, this`tsums, overflowBins
      ensures entries == old(entries) + ins[q].entries
      ensures tsums == AddAccumulators(old(tsums), ins[q].tsums)
      ensures StatesOf(overflowBins) == MergeEach(old(StatesOf(overflowBins)), SumsOf(ins[q].overflow))
      ensures StatesOf(bins) == old(StatesOf(bins))
      ensures Mirrors(list, ins)
      ensures forall j, k :: 0 <= j < |list| && 0 <= k < |list[j].bins| ==> list[j].bins[k].State() == ins[j].bins[k]
      ensures forall j, k :: 0 <= j < |list| && 0 <= k < |list[j].overflowBins| ==>
        list[j].overflowBins[k].State() == ins[j].overflow[k]
      ensures bins == old(bins) && cells == old(cells) && nCells == old(nCells) && errorMode == old(errorMode)
    {
      var histo := list[q];
      entries := entries + histo.entries;
      tsums := AddAccumulators(tsums, histo.tsums);
      MergeOverflowOf(list, q, ins);
    }

    /** The overflow bins of input q, each merged into the overflow bin of the same slot. */
    method MergeOverflowOf(list: seq<Profile>, q: nat, ghost ins: seq<ProfileState>)
      requires Valid() && Mirrors(list, ins) && q < |list|
      requires forall j, k :: 0 <= j < |list| && 0 <= k < |list[j].bins| ==> list[j].bins[k].State() == ins[j].bins[k]
      requires forall j, k :: 0 <= j < |list| && 0 <= k < |list[j].overflowBins| ==>
        list[j].overflowBins[k].State() == ins[j].overflow[k]
      modifies overflowBins
      ensures StatesOf(overflowBins) == MergeEach(old(StatesOf(overflowBins)), SumsOf(ins[q].overflow))
      ensures StatesOf(bins) == old(StatesOf(bins))
      ensures Valid() && Mirrors(list, ins)
      ensures forall j, k :: 0 <= j < |list| && 0 <= k < |list[j].bins| ==> list[j].bins[k].State() == ins[j].bins[k]
      ensures forall j, k :: 0 <= j < |list| && 0 <= k < |list[j].overflowBins| ==>
        list[j].overflowBins[k].State() == ins[j].overflow[k]
      ensures bins == old(bins) && cells == old(cells) && nCells == old(nCells) && errorMode == old(errorMode)
      ensures entries == old(entries) && tsums == old(tsums)
    {
      var src := list[q].overflowBins;
      for k := 0 to NOverflow
        invariant forall j :: 0 <= j < NOverflow ==>
          overflowBins[j].State() == (if j < k then S.MergeSums(old(overflowBins[j].State()), ins[q].overflow[j].sums)
                                      else old(overflowBins[j].State()))
        invariant StatesOf(bins) == old(StatesOf(bins))
        invariant forall j, k :: 0 <= j < |list| && 0 <= k < |list[j].bins| ==> list[j].bins[k].State() == ins[j].bins[k]
        invariant forall j, k :: 0 <= j < |list| && 0 <= k < |list[j].overflowBins| ==>
          list[j].overflowBins[k].State() == ins[j].overflow[k]
        invariant bins == old(bins) && cells == old(cells) && nCells == old(nCells) && errorMode == old(errorMode)
        invariant entries == old(entries) && tsums == old(tsums)
      {
        var dst := overflowBins[k];
        assert dst !in bins;
        forall j | 0 <= j < |list| ensures dst !in list[j].bins && dst !in list[j].overflowBins {
          assert Untouched(list[j]);
        }
        dst.Merge(src[k]);
      }
      assert StatesOf(overflowBins) == MergeEach(old(StatesOf(overflowBins)), SumsOf(ins[q].overflow));
    }

    /** One pass of the second merge loop: bin i of every input into bin i of this profile. */
    method MergeBinAt(list: seq<Profile>, ghost ins: seq<ProfileState>, i: nat)
      requires Valid() && Mirrors(list, ins) && i < |bins|
      requires forall q, k :: 0 <= q < |list| && 0 <= k < |list[q].bins| ==> list[q].bins[k].State() == ins[q].bins[k]
      modifies bins[i]
      ensures bins[i].State() == S.Update(S.MergeSums(old(bins[i].State()), Total(|bins|, ins).bins[i]))
      ensures forall j :: 0 <= j < |bins| && j != i ==> bins[j].State() == old(bins[j].State())
      ensures Valid() && Mirrors(list, ins)
      ensures StatesOf(overflowBins) == old(StatesOf(overflowBins))
      ensures forall q, k :: 0 <= q < |list| && 0 <= k < |list[q].bins| ==> list[q].bins[k].State() == ins[q].bins[k]
      ensures bins == old(bins) && cells == old(cells) && nCells == old(nCells) && errorMode == old(errorMode)
      ensures entries == old(entries) && tsums == old(tsums)
    {
      var dst := bins[i];
      assert dst !in overflowBins by { assert dst.poly.Some?; }
      forall q | 0 <= q < |list| ensures dst !in list[q].bins && dst !in list[q].overflowBins {
        assert Untouched(list[q]);
      }
      TotalColumn(|bins|, ins, i);
      MergeColumn(dst, list, i, ins, overflowBins);
    }

    /** The second merge loop: bin i of every input into bin i of this profile, then Update. */
    method MergeBins(list: seq<Profile>, ghost ins: seq<ProfileState>)
      requires Valid() && Mirrors(list, ins)
      requires forall q, k :: 0 <= q < |list| && 0 <= k < |list[q].bins| ==> list[q].bins[k].State() == ins[q].bins[k]
      modifies bins
      ensures StatesOf(bins) == UpdateEach(MergeEach(old(StatesOf(bins)), Total(|bins|, ins).bins))
      ensures StatesOf(overflowBins) == old(StatesOf(overflowBins))
      ensures bins == old(bins) && cells == old(cells) && nCells == old(nCells) && errorMode == old(errorMode)
      ensures entries == old(entries) && tsums == old(tsums)
    {
      ghost var before, tot := old(StatesOf(bins)), Total(|bins|, ins).bins;
      for i := 0 to |bins|
        invariant forall j :: 0 <= j < |bins| ==>
          bins[j].State() == (if j < i then S.Update(S.MergeSums(before[j], tot[j]))
                              else before[j])
        invariant StatesOf(overflowBins) == old(StatesOf(overflowBins))
        invariant forall q, k :: 0 <= q < |list| && 0 <= k < |list[q].bins| ==> list[q].bins[k].State() == ins[q].bins[k]
        invariant bins == old(bins) && cells == old(cells) && nCells == old(nCells) && errorMode == old(errorMode)
        invariant entries == old(entries) && tsums == old(tsums)
        invariant Valid() && Mirrors(list, ins)
      {
        MergeBinAt(list, ins, i);
      }
      forall j | 0 <= j < |bins| ensures StatesOf(bins)[j] == S.Update(S.MergeSums(before[j], tot[j])) {
      }
      UpdatedMergeParts(before, tot, StatesOf(bins));
    }

    // ------------------------------------------------------------ whole-profile bin passes

    /** SetContentToAverage: every polygon bin is updated and shows its average. */
    method SetContentToAverage()
      requires Valid()
      modifies bins
      ensures StatesOf(bins) == ShowAverageEach(old(StatesOf(bins)))
      ensures StatesOf(overflowBins) == old(StatesOf(overflowBins))
      ensures State() == ShowAverages(old(State()))
      ensures bins == old(bins) && cells == old(cells) && nCells == old(nCells) && errorMode == old(errorMode)
      ensures entries == old(entries) && tsums == old(tsums)
    {
      for i := 0 to |bins|
        invariant forall j :: 0 <= j < |bins| ==>
          bins[j].State() == (if j < i then ShowAverage(old(bins[j].State())) else old(bins[j].State()))
        invariant StatesOf(overflowBins) == old(StatesOf(overflowBins))
        invariant bins == old(bins) && cells == old(cells) && nCells == old(nCells) && errorMode == old(errorMode)
        invariant entries == old(entries) && tsums == old(tsums)
      {
        var bin := bins[i];
        bin.Update();
        bin.SetContent(S.Exact(bin.average));
      }
      assert StatesOf(bins) == ShowAverageEach(old(StatesOf(bins)));
    }

    /** SetContentToError: every polygon bin is updated and shows its error. */
    method SetContentToError()
      requires Valid()
      modifies bins
      ensures StatesOf(bins) == ShowErrorEach(old(StatesOf(bins)))
      ensures StatesOf(overflowBins) == old(StatesOf(overflowBins))
      ensures State() == ShowErrors(old(State()))
    {
      for i := 0 to |bins|
        invariant forall j :: 0 <= j < |bins| ==>
          bins[j].State() == (if j < i then ShowError(old(bins[j].State())) else old(bins[j].State()))
        invariant StatesOf(overflowBins) == old(StatesOf(overflowBins))
      {
        var bin := bins[i];
        bin.Update();
        bin.SetContent(bin.error);
      }
      assert StatesOf(bins) == ShowErrorEach(old(StatesOf(bins)));
    }

    /** Reset: clears every polygon bin, then zeroes fEntries and the base-class accumulators. */
    method Reset()
      requires Valid()
      modifies this`entries, this`tsums, bins
      ensures Valid()
      ensures StatesOf(bins) == ClearEach(old(StatesOf(bins)))
      ensures StatesOf(overflowBins) == old(StatesOf(overflowBins))
      ensures entries == 0.0 && tsums == ResetBaseAccumulators(old(tsums))
      ensures State() == ResetState(old(State()))
    {
      for i := 0 to |bins|
        invariant forall j :: 0 <= j < |bins| ==>
          bins[j].State() == (if j < i then S.ClearStats(old(bins[j].State()).(content := S.Exact(0.0))) else old(bins[j].State()))
        invariant StatesOf(overflowBins) == old(StatesOf(overflowBins))
        invariant entries == old(entries) && tsums == old(tsums)
      {
        var bin := bins[i];
        bin.ClearContent();
        bin.ClearStats();
      }
      assert StatesOf(bins) == ClearEach(old(StatesOf(bins)));
      entries := 0.0;
      tsums := ResetBaseAccumulators(tsums);
    }

    /** SetErrorOption(m): the profile's mode and the mode of every polygon bin. */
    method SetErrorOption(m: S.ErrorMode)
      requires Valid()
      modifies this`errorMode, bins
      ensures Valid()
      ensures errorMode == m
      ensures StatesOf(bins) == WithModeEach(old(StatesOf(bins)), m)
      ensures StatesOf(overflowBins) == old(StatesOf(overflowBins))
      ensures State() == WithErrorMode(old(State()), m)
    {
      errorMode := m;
      for i := 0 to |bins|
        invariant forall j :: 0 <= j < |bins| ==>
          bins[j].State() == (if j < i then old(bins[j].State()).(mode := m) else old(bins[j].State()))
        invariant StatesOf(overflowBins) == old(StatesOf(overflowBins))
        invariant errorMode == m
      {
        bins[i].SetErrorOption(m);
      }
      assert StatesOf(bins) == WithModeEach(old(StatesOf(bins)), m);
    }

    // ------------------------------------------------------------ read access

    /** GetBinEntries: fSumw of the addressed bin, 0 for a bin number that addresses none. */
    function GetBinEntries(bin: int): (r: real)
      reads this, bins, overflowBins
      requires Valid()
      ensures r == (match BinAt(State(), bin) case None => 0.0 case Some(b) => b.sums.sumw)
    {
      if bin > |bins| || bin == 0 || bin < -(NOverflow as int) then 0.0
      else if bin < 0 then overflowBins[-bin - 1].sumw
      else bins[bin - 1].sumw
    }

    /** GetBinEntriesW2: fSumw2 of the addressed bin, 0 for a bin number that addresses none. */
    function GetBinEntriesW2(bin: int): (r: real)
      reads this, bins, overflowBins
      requires Valid()
      ensures r == (match BinAt(State(), bin) case None => 0.0 case Some(b) => b.sums.sumw2)
    {
      if bin > |bins| || bin == 0 || bin < -(NOverflow as int) then 0.0
      else if bin < 0 then overflowBins[-bin - 1].sumw2
      else bins[bin - 1].sumw2
    }

    /** GetBinEntriesVW: fSumvw of the addressed bin, 0 for a bin number that addresses none. */
    function GetBinEntriesVW(bin: int): (r: real)
      reads this, bins, overflowBins
      requires Valid()
      ensures r == (match BinAt(State(), bin) case None => 0.0 case Some(b) => b.sums.sumvw)
    {
      if bin > |bins| || bin == 0 || bin < -(NOverflow as int) then 0.0
      else if bin < 0 then overflowBins[-bin - 1].sumvw
      else bins[bin - 1].sumvw
    }

    /** GetBinEntriesWV2: fSumwv2 of the addressed bin, 0 for a bin number that addresses none. */
    function GetBinEntriesWV2(bin: int): (r: real)
      reads this, bins, overflowBins
      requires Valid()
      ensures r == (match BinAt(State(), bin) case None => 0.0 case Some(b) => b.sums.sumwv2)
    {
      if bin > |bins| || bin == 0 || bin < -(NOverflow as int) then 0.0
      else if bin < 0 then overflowBins[-bin - 1].sumwv2
      else bins[bin - 1].sumwv2
    }

    /** GetBinError: fError of the addressed bin, 0 for a bin number that addresses none. */
    function GetBinError(bin: int): (r: S.Quantity)
      reads this, bins, overflowBins
      requires Valid()
      ensures r == (match BinAt(State(), bin) case None => S.Exact(0.0) case Some(b) => b.error)
    {
      if bin > |bins| || bin == 0 || bin < -(NOverflow as int) then S.Exact(0.0)
      else if bin < 0 then overflowBins[-bin - 1].error
      else bins[bin - 1].error
    }

    /**
     * GetBinEffectiveEntries: nothing for a number that addresses no bin, the base class's fOverflow
     * entry for an overflow bin, and for a polygon bin the effective entries built from the same
     * Σw and Σw² that GetBinEntries and GetBinEntriesW2 read, the quantity kERRORMEAN divides by.
     */
    function GetBinEffectiveEntries(bin: int): (r: EffectiveEntries)
      reads this, bins, overflowBins
      requires Valid()
      ensures r.NoEntries? <==> BinAt(State(), bin).None?
      ensures -(NOverflow as int) <= bin < 0 ==> r == BaseOverflowEntry(-bin - 1)
      ensures 0 < bin <= |bins| ==> r == SumwSquaredOverSumw2(GetBinEntries(bin), GetBinEntriesW2(bin))
      ensures 0 < bin <= |bins| && bins[bin - 1].mode == S.ErrorMean ==>
        var b := bins[bin - 1].State();
        S.UpdateError(b).error == S.SqrtPerEffectiveEntries(S.Radicand(b), r.sumw, r.sumw2)
    {
      if bin > |bins| || bin == 0 || bin < -(NOverflow as int) then NoEntries
      else if bin < 0 then BaseOverflowEntry(-bin - 1)
      else SumwSquaredOverSumw2(bins[bin - 1].sumw, bins[bin - 1].sumw2)
    }

    /** GetStats: writes the nine accumulators into the first nine elements of the array. */
    method GetStats(stats: array<real>)
      requires stats.Length >= NStats
      modifies stats
      ensures stats[..NStats] == StatsArray(tsums) && AccumulatorsOf(stats[..NStats]) == tsums
      ensures stats[NStats..] == old(stats[NStats..])
    {
      stats[0] := tsums.tsumw;
      stats[1] := tsums.tsumw2;
      stats[2] := tsums.tsumwx;
      stats[3] := tsums.tsumwx2;
      stats[4] := tsums.tsumwy;
      stats[5] := tsums.tsumwy2;
      stats[6] := tsums.tsumwxy;
      stats[7] := tsums.tsumwz;
      stats[8] := tsums.tsumwz2;
    }
  }
}
