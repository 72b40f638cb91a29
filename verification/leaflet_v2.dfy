/** The estimator of the drawing page (generate_leaflet_V2.py): a piecewise
    per-day CPU cost anchored at 24 CPU-hours for one million cells and
    4 CPU-hours for 2.72 million cells, a user-chosen resolution, and the
    coordinate-order check of the "Inputs -> Rectangle" button. */
module LeafletV2 {
  import opened Grid
  import opened WallClock
  import opened CostEstimate

  /** The small reference domain and its cost per simulated day. */
  const SmallCells: real := 1000000.0
  const SmallCost: real := 24.0
  /** The large reference domain and its cost per simulated day. */
  const LargeCells: real := 2720000.0
  const LargeCost: real := 4.0

  /** The steepest slope of the per-day cost, that of the small-domain
      branch: 24 CPU-hours per million cells. */
  const MaxSlope: real := 0.000024

  /** The straight line through `(x1, y1)` and `(x2, y2)`, evaluated at `n`:
      it passes through both points, and between them a falling line stays
      between the two values. */
  function Interpolate(x1: real, y1: real, x2: real, y2: real, n: real): (c: real)
    requires x1 < x2
    ensures n == x1 ==> c == y1
    ensures n == x2 ==> c == y2
    ensures y2 <= y1 && x1 <= n <= x2 ==> y2 <= c <= y1
  {
    var frac := (n - x1) / (x2 - x1);
    FractionInUnit(n - x1, x2 - x1);
    BetweenEnds(y1, y2, frac);
    y1 + (y2 - y1) * frac
  }

  lemma FractionInUnit(a: real, b: real)
    requires b > 0.0
    ensures a == 0.0 ==> a / b == 0.0
    ensures a == b ==> a / b == 1.0
    ensures 0.0 <= a <= b ==> 0.0 <= a / b <= 1.0
  {
  }

  lemma BetweenEnds(y1: real, y2: real, t: real)
    ensures y2 <= y1 && 0.0 <= t <= 1.0 ==> y2 <= y1 + (y2 - y1) * t <= y1
  {
  }

  /** A line whose end value is not above its start value never rises. */
  lemma InterpolateNonIncreasing(x1: real, y1: real, x2: real, y2: real, a: real, b: real)
    requires x1 < x2 && y2 <= y1 && a <= b
    ensures Interpolate(x1, y1, x2, y2, a) >= Interpolate(x1, y1, x2, y2, b)
  {
    var d := x2 - x1;
    assert (b - x1) / d - (a - x1) / d == (b - a) / d;
    assert (b - a) / d >= 0.0;
    assert (y2 - y1) * ((b - a) / d) <= 0.0;
    assert (y2 - y1) * ((b - x1) / d) - (y2 - y1) * ((a - x1) / d) == (y2 - y1) * ((b - a) / d);
  }

  /** `hpcForOneDay(N)`: CPU-hours for one simulated day of an `N`-cell
      domain. Proportional to `N` up to the small anchor, proportional again
      from the large anchor on, and the straight line between the anchors in
      between. The cost of a non-empty domain is positive, never above the
      small anchor's cost up to the large domain, and on the ramp between the
      anchors never below the large anchor's cost. */
  function HpcForOneDay(n: real): (c: real)
    ensures n >= 0.0 ==> c >= 0.0
    ensures n > 0.0 ==> c > 0.0
    ensures 0.0 <= n <= LargeCells ==> c <= SmallCost
    ensures SmallCells <= n <= LargeCells ==> LargeCost <= c
  {
    if n <= SmallCells then
      SmallCost * (n / SmallCells)
    else if n >= LargeCells then
      LargeCost * (n / LargeCells)
    else
      Interpolate(SmallCells, SmallCost, LargeCells, LargeCost, n)
  }

  /** The reference values: nothing costs nothing, each anchor domain costs
      its anchor's value, and the midpoint between the anchors costs the mean
      of the two, 14 CPU-hours. */
  lemma HpcAnchorValues()
    ensures HpcForOneDay(0.0) == 0.0
    ensures HpcForOneDay(SmallCells) == SmallCost
    ensures HpcForOneDay(LargeCells) == LargeCost
    ensures HpcForOneDay((SmallCells + LargeCells) / 2.0) == (SmallCost + LargeCost) / 2.0
    ensures HpcForOneDay(1860000.0) == 14.0
  {
  }

  /** The outer branches charge a fixed price per cell: that of the small
      anchor below it, that of the large anchor above it. */
  lemma HpcOuterBranchesProportional(n: real)
    ensures MaxSlope == SmallCost / SmallCells
    ensures n <= SmallCells ==> HpcForOneDay(n) == n * (SmallCost / SmallCells)
    ensures n >= LargeCells ==> HpcForOneDay(n) == n * (LargeCost / LargeCells)
  {
  }

  /** Between the anchors the cost falls: a larger domain on the ramp never
      costs more per day than a smaller one. */
  lemma HpcNonIncreasingOnRamp(a: real, b: real)
    requires SmallCells <= a <= b <= LargeCells
    ensures HpcForOneDay(a) >= HpcForOneDay(b)
  {
  }

  /** Outside the ramp the cost grows with the domain. */
  lemma HpcNonDecreasingOffRamp(a: real, b: real)
    requires a <= b
    requires b <= SmallCells || LargeCells <= a
    ensures HpcForOneDay(a) <= HpcForOneDay(b)
  {
  }

  /** The piecewise cost is not monotone overall: the large reference domain,
      2.72 times the cells of the small one, is estimated at a sixth of its
      per-day cost. */
  lemma LargerDomainCanCostLess()
    ensures SmallCells < LargeCells
    ensures HpcForOneDay(LargeCells) < HpcForOneDay(SmallCells)
  {
  }

  /** Continuity, in its strongest usual form: the per-day cost never
      changes faster than the small branch's price per cell, so the three
      branches meet without a jump at both anchors. */
  lemma HpcLipschitz(a: real, b: real)
    ensures Abs(HpcForOneDay(b) - HpcForOneDay(a)) <= MaxSlope * Abs(b - a)
  {
  }

  /** On the ramp the cost falls by 20 CPU-hours over 1.72 million cells. */
  lemma RampSlope(a: real, b: real)
    requires SmallCells <= a <= b <= LargeCells
    ensures HpcForOneDay(a) - HpcForOneDay(b) == (b - a) * (20.0 / 1720000.0)
  {
  }

  /** The "Inputs -> Rectangle" button: south above north is refused first,
      then west beyond east; a box in order is drawn as typed. */
  function InputsToRect(box: Box): (r: Result<Box>)
    ensures r.Accepted? <==> box.Ordered()
    ensures r.Accepted? ==> r.value == box
    ensures box.south > box.north ==> r == Rejected(SouthAboveNorth)
    ensures box.south <= box.north && box.west > box.east ==> r == Rejected(WestBeyondEast)
  {
    if box.south > box.north then Rejected(SouthAboveNorth)
    else if box.west > box.east then Rejected(WestBeyondEast)
    else Accepted(box)
  }

  /** The "Calculate HPC" button. Days, cores and resolution must all be
      strictly positive; the coordinates are not checked for order. The grid
      comes from the typed box and resolution, the per-day cost from the
      piecewise model, and the estimate is non-negative and well displayed. */
  function CalcHpc(box: Box, res: real, days: real, cores: real): (r: Result<Estimate>)
    ensures r.Rejected? <==> days <= 0.0 || cores <= 0.0 || res <= 0.0
    ensures r.Rejected? ==> r.reason == NonPositiveInput
    ensures r.Accepted? ==>
      && r.value.grid == Discretize(box, res)
      && r.value.cpuHoursPerDay == HpcForOneDay(r.value.grid.TotalCells() as real)
      && r.value.cpuHoursTotal / days == r.value.cpuHoursPerDay
      && r.value.wallHours * cores == r.value.cpuHoursTotal
      && r.value.cpuHoursTotal >= 0.0
      && r.value.wallHours >= 0.0
      && WellDisplayed(r.value)
  {
    if days <= 0.0 || cores <= 0.0 || res <= 0.0 then
      Rejected(NonPositiveInput)
    else
      var grid := Discretize(box, res);
      Accepted(Assemble(grid, HpcForOneDay(grid.TotalCells() as real), days, cores))
  }

  /** Typing the latitudes or the longitudes in either order gives the same
      estimate. */
  lemma CalcHpcIgnoresCoordinateOrder(box: Box, res: real, days: real, cores: real)
    ensures CalcHpc(box.SwapLat(), res, days, cores) == CalcHpc(box, res, days, cores)
    ensures CalcHpc(box.SwapLon(), res, days, cores) == CalcHpc(box, res, days, cores)
  {
  }

  /** A span narrower than one cell gives an empty grid, and an empty grid is
      a zero estimate, not an error. */
  lemma NarrowBoxCostsNothing(box: Box, res: real, days: real, cores: real)
    requires res > 0.0 && days > 0.0 && cores > 0.0
    requires Abs(box.north - box.south) < res || Abs(box.east - box.west) < res
    ensures CalcHpc(box, res, days, cores).Accepted?
    ensures CalcHpc(box, res, days, cores).value.grid.TotalCells() == 0
    ensures CalcHpc(box, res, days, cores).value.cpuHoursTotal == 0.0
    ensures CalcHpc(box, res, days, cores).value.display == HoursMinutes(0, 0)
  {
  }

  /** The page's default inputs: a one-degree box at 0.01 degrees is a
      100 x 100 grid, costing 0.24 CPU-hours for one day, which on 8 cores is
      1.8 minutes and displays as 0 hr 1 min. */
  lemma DefaultInputsEstimate()
    ensures CalcHpc(Box(24.0, 23.0, -103.0, -102.0), 0.01, 1.0, 8.0)
      == Accepted(Estimate(GridShape(100, 100), 0.24, 0.24, 0.03, HoursMinutes(0, 1)))
  {
    assert Discretize(Box(24.0, 23.0, -103.0, -102.0), 0.01) == GridShape(100, 100);
    assert HpcForOneDay(10000.0) == 0.24;
    assert TotalMinutes(0.03) == 1;
    FloorDivAgrees(1);
  }
}
