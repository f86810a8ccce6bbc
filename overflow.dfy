/**
 * The read-only index arithmetic of TProfile2Poly: the 3×3 compass classification of a point
 * into an overflow region, the mapping of region numbers and public bin numbers to storage
 * slots, and the clamped super-grid cell of a coordinate.
 */
module Overflow {
  import opened Wrappers

  /** kNOverflow: the number of overflow bins. */
  const NOverflow: nat := 9

  /** The x and y ranges of the profile's axes. */
  datatype Domain = Domain(xMin: real, xMax: real, yMin: real, yMax: real)

  /** GetOverflowRegionFromCoordinates: 0 while the profile has no polygon bin
      (fNcells <= kNOverflow), otherwise a y offset in {-1, -4, -7} plus an x offset in {-2, -1, 0}. */
  function OverflowRegion(nCells: int, d: Domain, x: real, y: real): (region: int)
    ensures region == 0 <==> nCells <= NOverflow
    ensures region != 0 ==> -(NOverflow as int) <= region <= -1
  {
    if nCells <= NOverflow then 0
    else
      var yOffset := if y > d.yMax then -1 else if y > d.yMin then -4 else -7;
      var xOffset := if x > d.xMax then -2 else if x > d.xMin then -1 else 0;
      yOffset + xOffset
  }

  /** The row of the compass grid a y coordinate falls in: 0 above yMax, 1 in (yMin, yMax],
      2 at or below yMin. */
  function Row(d: Domain, y: real): (r: nat)
    ensures r < 3
  {
    if y > d.yMax then 0 else if y > d.yMin then 1 else 2
  }

  /** The column of the compass grid an x coordinate falls in: 2 above xMax, 1 in (xMin, xMax],
      0 at or below xMin. */
  function Column(d: Domain, x: real): (c: nat)
    ensures c < 3
  {
    if x > d.xMax then 2 else if x > d.xMin then 1 else 0
  }

  /** The overflow region is the compass cell of the point, counted row by row from -1. */
  lemma RegionIsCompassCell(nCells: int, d: Domain, x: real, y: real)
    requires nCells > NOverflow
    ensures OverflowRegion(nCells, d, x, y) == -(3 * Row(d, y) + Column(d, x)) - 1
  {
  }

  /** The nine regions partition the plane: a region number determines the row and the column. */
  lemma RegionPartition(nCells: int, d: Domain, x: real, y: real, region: int)
    requires nCells > NOverflow && -(NOverflow as int) <= region <= -1
    ensures OverflowRegion(nCells, d, x, y) == region
        <==> Row(d, y) == (-region - 1) / 3 && Column(d, x) == (-region - 1) % 3
  {
    RegionIsCompassCell(nCells, d, x, y);
    var k := -region - 1;
    assert 0 <= k < 9;
    var r, c := Row(d, y), Column(d, x);
    if r == k / 3 && c == k % 3 {
      assert k == 3 * (k / 3) + k % 3;
    }
    if 3 * r + c == k {
      assert k / 3 == r && k % 3 == c;
    }
  }

  /** Every one of the nine regions is reached by some point once the domain is not empty. */
  lemma RegionSurjective(nCells: int, d: Domain, region: int)
    requires nCells > NOverflow && d.xMin < d.xMax && d.yMin < d.yMax
    requires -(NOverflow as int) <= region <= -1
    ensures exists x, y :: OverflowRegion(nCells, d, x, y) == region
  {
    var k := -region - 1;
    var r, c := k / 3, k % 3;
    var y := if r == 0 then d.yMax + 1.0 else if r == 1 then d.yMax else d.yMin;
    var x := if c == 0 then d.xMin else if c == 1 then d.xMax else d.xMax + 1.0;
    assert Row(d, y) == r && Column(d, x) == c;
    RegionPartition(nCells, d, x, y, region);
  }

  /** On the upper edges a point counts as inside; on the lower edges as outside. */
  lemma RegionEdges(nCells: int, d: Domain)
    requires nCells > NOverflow && d.xMin < d.xMax && d.yMin < d.yMax
    ensures OverflowRegion(nCells, d, d.xMax, d.yMax) == -5
    ensures OverflowRegion(nCells, d, d.xMin, d.yMax) == -4
    ensures OverflowRegion(nCells, d, d.xMax, d.yMin) == -8
  {
  }

  /** A point inside the domain lands in region -5, the centre slot. */
  lemma InsidePointIsCentre(nCells: int, d: Domain, x: real, y: real)
    requires nCells > NOverflow && d.xMin < x <= d.xMax && d.yMin < y <= d.yMax
    ensures OverflowRegion(nCells, d, x, y) == -5
  {
  }

  // ---------------------------------------------------------------- overflow storage slots

  /** OverflowIdxToArrayIdx as it is applied in Fill: region r is stored in fOverflowBins[-r - 1],
      also for r == 0. */
  function OverflowIndexAsWritten(region: int): int {
    -region - 1
  }

  /** As written, Fill on a profile without polygon bins indexes fOverflowBins at -1. */
  lemma EmptyProfileOverflowIndexAsWritten(nCells: int, d: Domain, x: real, y: real)
    requires nCells <= NOverflow
    ensures OverflowIndexAsWritten(OverflowRegion(nCells, d, x, y)) == -1
  {
  }

  /** The overflow bin that Fill updates for a region: the slot -r - 1 for a region r in
      [-9, -1], none for the region 0 of a profile without polygon bins. */
  function FilledOverflowSlot(region: int): (slot: Option<nat>)
    requires -(NOverflow as int) <= region <= 0
    ensures slot.None? <==> region == 0
    ensures slot.Some? ==> slot.value < NOverflow && region == -(slot.value as int) - 1
  {
    if region == 0 then None else Some(-region - 1)
  }

  /** Whatever the point, the corrected Fill touches an overflow bin that exists. */
  lemma FilledOverflowSlotInRange(nCells: int, d: Domain, x: real, y: real)
    ensures var slot := FilledOverflowSlot(OverflowRegion(nCells, d, x, y));
      (slot.Some? ==> slot.value < NOverflow) && (slot.Some? <==> nCells > NOverflow)
  {
  }

  // ---------------------------------------------------------------- public bin numbers

  /** Where a public bin number points: nowhere, one of the overflow bins, or a polygon bin. */
  datatype BinSlot = NoBin | OverflowBin(slot: nat) | PolygonBin(index: nat)

  /** The lenient bin lookup shared by the GetBin* accessors: 0, numbers above the bin count and
      numbers below -kNOverflow give no bin; -k - 1 is overflow slot k; i + 1 is list element i. */
  function Locate(bin: int, nBins: nat): (r: BinSlot)
    ensures r.NoBin? <==> bin == 0 || bin > nBins || bin < -(NOverflow as int)
    ensures r.OverflowBin? ==> r.slot < NOverflow && bin == -(r.slot as int) - 1
    ensures r.PolygonBin? ==> r.index < nBins && bin == r.index as int + 1
  {
    if bin > nBins || bin == 0 || bin < -(NOverflow as int) then NoBin
    else if bin < 0 then OverflowBin(-bin - 1)
    else PolygonBin(bin - 1)
  }

  /** The public number of a slot: the inverse of Locate. */
  function BinNumber(s: BinSlot): int {
    match s
    case NoBin => 0
    case OverflowBin(k) => -(k as int) - 1
    case PolygonBin(i) => i as int + 1
  }

  /** Locate and BinNumber are inverse on every slot that exists. */
  lemma LocateRoundTrip(s: BinSlot, nBins: nat)
    requires s.OverflowBin? ==> s.slot < NOverflow
    requires s.PolygonBin? ==> s.index < nBins
    ensures Locate(BinNumber(s), nBins) == s
  {
  }

  /** The region number Fill returns addresses, through the accessors, the overflow bin Fill
      updated. */
  lemma RegionAddressesFilledSlot(nCells: int, d: Domain, x: real, y: real, nBins: nat)
    requires nCells > NOverflow
    ensures var region := OverflowRegion(nCells, d, x, y);
      Locate(region, nBins) == OverflowBin(FilledOverflowSlot(region).value)
  {
  }

  // ---------------------------------------------------------------- super-grid cells

  lemma ScaleBounds(q: real, step: real, n: int)
    requires step > 0.0
    ensures n as real <= q ==> n as real * step <= q * step
    ensures q < n as real ==> q * step < n as real * step
  {
  }

  /** The super-grid column (or row) of a coordinate: floor((coord - lo) / step), clamped to
      [0, count - 1]. */
  function GridCell(coord: real, lo: real, step: real, count: int): (n: int)
    requires step > 0.0 && count >= 1
    ensures 0 <= n < count
  {
    var f := ((coord - lo) / step).Floor;
    var clampedHigh := if f >= count then count - 1 else f;
    if clampedHigh < 0 then 0 else clampedHigh
  }

  /** The cell GridCell picks holds the coordinate when the coordinate is inside the axis range;
      a coordinate below the range goes to the first cell, one at or above it to the last. */
  lemma GridCellHolds(coord: real, lo: real, step: real, count: int)
    requires step > 0.0 && count >= 1
    ensures var n := GridCell(coord, lo, step, count);
      && (lo <= coord < lo + count as real * step ==>
            lo + n as real * step <= coord < lo + (n + 1) as real * step)
      && (coord < lo ==> n == 0)
      && (coord >= lo + count as real * step ==> n == count - 1)
  {
    FloorCell(coord, lo, step, count, ((coord - lo) / step).Floor);
  }

  /** The unclamped cell floor((coord - lo) / step) lies below, inside or above [0, count)
      exactly as the coordinate lies below, inside or above [lo, lo + count·step). */
  lemma FloorCell(coord: real, lo: real, step: real, count: int, f: int)
    requires step > 0.0 && f == ((coord - lo) / step).Floor
    ensures coord < lo ==> f < 0
    ensures coord >= lo + count as real * step ==> f >= count
    ensures lo <= coord < lo + count as real * step ==> 0 <= f < count
    ensures lo + f as real * step <= coord < lo + (f + 1) as real * step
  {
    var q := (coord - lo) / step;
    assert f as real <= q < f as real + 1.0;
    assert (f + 1) as real == f as real + 1.0;
    assert q * step == coord - lo;
    ScaleBounds(q, step, f);
    ScaleBounds(q, step, f + 1);
    ScaleBounds(q, step, count);
    ScaleBounds(q, step, 0);
    assert f as real * step <= q * step < (f + 1) as real * step;
    assert coord - lo < (f + 1) as real * step;
  }

  /** The position of cell (n, m) in fCells, n + fCellX·m, lies inside the fCellX·fCellY cells. */
  lemma CellIndexInRange(n: int, m: int, cellX: int, cellY: int)
    requires 0 <= n < cellX && 0 <= m < cellY
    ensures 0 <= n + cellX * m < cellX * cellY
  {
    assert cellX * m <= cellX * (cellY - 1);
  }
}
