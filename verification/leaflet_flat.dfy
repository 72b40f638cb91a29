/** The estimator of the fixed-resolution page (generate_leaflet.py): a flat
    price of 4 CPU-hours per 2.72 million cells per simulated day, derived
    from a reference run over Colombia, on a grid fixed at 0.01 degrees. */
module Leaflet {
  import opened Grid
  import opened WallClock
  import opened CostEstimate
  import LeafletV2

  /** CPU-hours per cell per simulated day: 4 CPU-hours for the 2.72-million
      cell reference domain. */
  const CostFactor: real := 4.0 / 2720000.0

  /** The fixed cell edge, in degrees. */
  const ResolutionDeg: real := 0.01

  /** The page's default inputs: the Colombia box, one day, eight cores. */
  const DefaultBox: Box := Box(13.0, -4.0, -82.0, -66.0)
  const DefaultDays: real := 1.0
  const DefaultCores: real := 8.0

  /** `totalCells * costFactor`: the per-day cost grows in proportion to the
      cells, with the reference domain costing exactly 4 CPU-hours. */
  function CpuHoursPerDay(cells: int): (c: real)
    ensures cells >= 0 ==> c >= 0.0
    ensures c * 2720000.0 == 4.0 * cells as real
  {
    cells as real * CostFactor
  }

  /** `drawAndCalculate`: days and cores must be strictly positive; the grid
      is the typed box at the fixed resolution, the per-day cost is the flat
      price, and the estimate is non-negative and well displayed. */
  function DrawAndCalculate(box: Box, days: real, cores: real): (r: Result<Estimate>)
    ensures r.Rejected? <==> days <= 0.0 || cores <= 0.0
    ensures r.Rejected? ==> r.reason == NonPositiveInput
    ensures r.Accepted? ==>
      && r.value.grid == Discretize(box, ResolutionDeg)
      && r.value.cpuHoursPerDay * 2720000.0 == 4.0 * r.value.grid.TotalCells() as real
      && r.value.cpuHoursTotal / days == r.value.cpuHoursPerDay
      && r.value.wallHours * cores == r.value.cpuHoursTotal
      && r.value.cpuHoursTotal >= 0.0
      && r.value.wallHours >= 0.0
      && WellDisplayed(r.value)
  {
    if days <= 0.0 || cores <= 0.0 then
      Rejected(NonPositiveInput)
    else
      var grid := Discretize(box, ResolutionDeg);
      Accepted(Assemble(grid, CpuHoursPerDay(grid.TotalCells()), days, cores))
  }

  /** The reference domain costs exactly 4 CPU-hours per day. */
  lemma ReferenceDomainCostsFour()
    ensures CpuHoursPerDay(2720000) == 4.0
  {
  }

  /** The total CPU-hours, per-day cost times days, is linear in the cells
      and in the days, and is zero for an empty grid. */
  lemma TotalIsLinear(c1: int, c2: int, d1: real, d2: real)
    ensures CpuHoursPerDay(c1 + c2) * d1 == CpuHoursPerDay(c1) * d1 + CpuHoursPerDay(c2) * d1
    ensures CpuHoursPerDay(c1) * (d1 + d2) == CpuHoursPerDay(c1) * d1 + CpuHoursPerDay(c1) * d2
    ensures CpuHoursPerDay(0) * d1 == 0.0
  {
  }

  /** Typing the latitudes or the longitudes in either order gives the same
      estimate. */
  lemma DrawAndCalculateIgnoresCoordinateOrder(box: Box, days: real, cores: real)
    ensures DrawAndCalculate(box.SwapLat(), days, cores) == DrawAndCalculate(box, days, cores)
    ensures DrawAndCalculate(box.SwapLon(), days, cores) == DrawAndCalculate(box, days, cores)
  {
  }

  /** The Colombia box spans 17 by 16 degrees: 1700 x 1600 cells at 0.01
      degrees, the 2.72-million cell reference domain. */
  lemma DefaultBoxGrid()
    ensures Discretize(DefaultBox, ResolutionDeg) == GridShape(1700, 1600)
    ensures Discretize(DefaultBox, ResolutionDeg).TotalCells() == 2720000
  {
  }

  /** With the default inputs the page shows 4 CPU-hours, and half an hour of
      wall-clock time on 8 cores, displayed as 0 hr 30 min. */
  lemma DefaultInputsEstimate()
    ensures DrawAndCalculate(DefaultBox, DefaultDays, DefaultCores)
      == Accepted(Estimate(GridShape(1700, 1600), 4.0, 4.0, 0.5, HoursMinutes(0, 30)))
  {
    DefaultBoxGrid();
    FloorDivAgrees(30);
  }

  /** From the large anchor on, the flat price coincides with the piecewise
      page's per-day cost. */
  lemma FlatMatchesPiecewiseAboveLargeAnchor(cells: int)
    requires cells as real >= LeafletV2.LargeCells
    ensures CpuHoursPerDay(cells) == LeafletV2.HpcForOneDay(cells as real)
  {
  }

  /** For any grid the flat price never exceeds the piecewise cost: below the
      small anchor the piecewise price per cell is higher, and on the ramp the
      piecewise cost stays at or above the 4 CPU-hours that the flat price
      only reaches at the large anchor. */
  lemma FlatNeverAbovePiecewise(cells: int)
    requires cells >= 0
    ensures CpuHoursPerDay(cells) <= LeafletV2.HpcForOneDay(cells as real)
  {
  }

  /** Both pages estimate the default Colombia run alike: the piecewise page
      at 0.01 degrees gives the same estimate as the flat page. */
  lemma PagesAgreeOnReferenceRun()
    ensures LeafletV2.CalcHpc(DefaultBox, ResolutionDeg, DefaultDays, DefaultCores)
      == DrawAndCalculate(DefaultBox, DefaultDays, DefaultCores)
  {
    DefaultInputsEstimate();
    DefaultBoxGrid();
    FlatMatchesPiecewiseAboveLargeAnchor(2720000);
  }
}
