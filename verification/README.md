# HPC cost estimator: a verified Dafny model

Two Python scripts each write an HTML page. On each page you type or draw a
latitude/longitude bounding box, and the page estimates the cost of
simulating that domain on a cluster. The estimator itself is JavaScript
embedded in the page. It has three steps:

1. **Grid.** The bounding box and a resolution in degrees give
   `nLat = floor(|north - south| / res)` rows and
   `nLon = floor(|east - west| / res)` columns. The total is
   `nLat * nLon` cells.
2. **Per-day cost.** The two pages price a day of simulation differently.
   - The drawing page (`generate_leaflet_V2.py`) uses a piecewise cost.
     Below one million cells it is proportional, reaching 24 CPU-hours at
     one million. Between one million and 2.72 million cells it is the
     straight line from 24 down to 4 CPU-hours. From 2.72 million cells on
     it is proportional again, starting from 4 CPU-hours.
   - The fixed-resolution page (`generate_leaflet.py`) uses a flat price of
     4 CPU-hours per 2.72 million cells, on a grid fixed at 0.01 degrees.
3. **Totals.** Total CPU-hours are the per-day cost times the days. Wall
   hours are the total divided by the cores. The wall time is shown as
   whole hours and minutes: `Math.floor(wall * 60)` minutes, then
   `Math.floor(m / 60)` hours and `m % 60` minutes.

The model uses Dafny `real` for the arithmetic and `.Floor` for
`Math.floor`. Cell and minute counts are `int`. JavaScript's `%` is
modelled by `WallClock.JsRem`, whose result takes the sign of the dividend.

Modules:

- `Grid` (`grid.dfy`): bounding boxes and discretisation. Both pages share it.
- `WallClock` (`wall_clock.dfy`): minutes, the JavaScript remainder, and
  the hours/minutes display.
- `CostEstimate` (`cost_estimate.dfy`): the estimate record and the
  accepted/rejected outcome. Also the total, wall-time and display step
  that both pages share.
- `LeafletV2` (`leaflet_v2.dfy`): the drawing page. It has the piecewise
  cost, the "Inputs -> Rectangle" order check and the "Calculate HPC" button.
- `Leaflet` (`leaflet_flat.dfy`): the fixed-resolution page, with the flat
  price and `drawAndCalculate`. It also holds the lemmas that compare the
  two pages.

A rejected request is a `Rejected(reason)` value. Examples are non-positive
days, cores or resolution, or an out-of-order box typed for the rectangle
button. The calculation buttons do not check the box's coordinate order;
they take absolute spans. The model follows the code here: only
`InputsToRect` rejects a south above north or a west beyond east.

## Model

| member | source | states |
|---|---|---|
| Grid.AxisCount | generate_leaflet_V2.py:271-272 | the row or column count is the unique n >= 0 with n*res <= abs(span) < (n+1)*res; it is 0 exactly when the span is narrower than one cell |
| Grid.Discretize | generate_leaflet_V2.py:267-273 | both axis counts are floors of the absolute spans over the resolution; total cells >= 0; total is 0 exactly when either span is narrower than the resolution |
| Grid.DiscretizeIgnoresCoordinateOrder | generate_leaflet_V2.py:267-268 | exchanging north/south or east/west leaves the grid unchanged, because the spans go through Math.abs |
| Grid.OrderedBoxNeedsNoAbs | generate_leaflet_V2.py:267-272 | for a box with south <= north and west <= east, the counts are the floors of the signed spans |
| WallClock.JsRem | generate_leaflet_V2.py:285 | JavaScript `%`: dividend minus remainder is a multiple of the divisor; the remainder lies in [0, b) for a non-negative dividend and in (-b, 0] for a negative one |
| WallClock.TotalMinutes | generate_leaflet_V2.py:283 | whole minutes m with m <= wall*60 < m+1, non-negative for a non-negative wall time |
| WallClock.Split | generate_leaflet_V2.py:284-285 | for m >= 0: hours >= 0, 0 <= minutes < 60 and hours*60 + minutes = m; for m < 0 both parts are non-positive |
| WallClock.Display | generate_leaflet_V2.py:283-285 | a non-negative wall time displays as hours >= 0 and minutes in [0, 60) which, read back as minutes, are the wall time truncated to a whole minute |
| WallClock.FloorDivAgrees | generate_leaflet_V2.py:284 | Math.floor of m/60 over the reals equals integer division by 60, for every sign of m |
| WallClock.NegativeMinutesDoNotRecombine | generate_leaflet_V2.py:284-285 | for -1 minutes the floored hours and the JavaScript remainder give -1 hr -1 min, which does not add back up to -1 |
| CostEstimate.Assemble | generate_leaflet_V2.py:278-285 | total divided by days gives the per-day cost back; wall hours times cores give the total back; a non-negative per-day cost gives a non-negative total and wall time, correctly displayed |
| LeafletV2.Interpolate | generate_leaflet_V2.py:242-245 | the interpolation passes through (x1, y1) and (x2, y2); between them a falling line stays within [y2, y1] |
| LeafletV2.InterpolateNonIncreasing | generate_leaflet_V2.py:242-245 | for any anchors with y2 <= y1 the interpolation never rises as N grows |
| LeafletV2.HpcForOneDay | generate_leaflet_V2.py:228-247 | the per-day cost is >= 0 for N >= 0, > 0 for N > 0, at most 24 on [0, 2.72e6], and at least 4 on [1e6, 2.72e6] |
| LeafletV2.HpcAnchorValues | generate_leaflet_V2.py:234-246 | 0 cells cost 0; 1e6 cells cost 24; 2.72e6 cells cost 4; the midpoint 1.86e6 costs 14 |
| LeafletV2.HpcOuterBranchesProportional | generate_leaflet_V2.py:234-239 | at or below 1e6 cells the cost is N times 24/1e6; at or above 2.72e6 it is N times 4/2.72e6 |
| LeafletV2.HpcNonIncreasingOnRamp | generate_leaflet_V2.py:240-246 | on [1e6, 2.72e6] a larger domain never costs more per day |
| LeafletV2.HpcNonDecreasingOffRamp | generate_leaflet_V2.py:234-239 | below 1e6 and from 2.72e6 on, a larger domain never costs less per day |
| LeafletV2.LargerDomainCanCostLess | generate_leaflet_V2.py:231-233 | the cost is not monotone overall: 2.72e6 cells cost less per day than 1e6 cells |
| LeafletV2.HpcLipschitz | generate_leaflet_V2.py:228-247 | continuity across both anchors: the cost of two domains differs by at most 24/1e6 CPU-hours per cell of difference |
| LeafletV2.RampSlope | generate_leaflet_V2.py:240-246 | on the ramp the cost falls by exactly 20 CPU-hours per 1.72e6 cells |
| LeafletV2.InputsToRect | generate_leaflet_V2.py:202-209 | the rectangle is accepted exactly when south <= north and west <= east; south above north is reported before west beyond east |
| LeafletV2.CalcHpc | generate_leaflet_V2.py:260-285 | rejected exactly when days, cores or resolution is <= 0; otherwise the grid comes from the box, the per-day cost from the piecewise model, total and wall time are consistent and non-negative, and the display is correct |
| LeafletV2.CalcHpcIgnoresCoordinateOrder | generate_leaflet_V2.py:267-273 | the button's result, accepted or rejected, is the same whichever order the latitudes or longitudes are typed in |
| LeafletV2.NarrowBoxCostsNothing | generate_leaflet_V2.py:267-285 | a span narrower than one cell is accepted, not rejected, and gives 0 cells, 0 CPU-hours and 0 hr 0 min |
| LeafletV2.DefaultInputsEstimate | generate_leaflet_V2.py:68-93 | the default inputs (24/23/-103/-102, 0.01 degrees, 1 day, 8 cores) give 100 x 100 cells, 0.24 CPU-hours, 0.03 wall hours, 0 hr 1 min |
| Leaflet.CpuHoursPerDay | generate_leaflet.py:155 | the flat per-day cost is non-negative and proportional to the cells, at 4 CPU-hours per 2.72e6 cells |
| Leaflet.DrawAndCalculate | generate_leaflet.py:113-163 | rejected exactly when days or cores is <= 0; otherwise a 0.01-degree grid of the box, the flat per-day cost, consistent non-negative total and wall time, and a correct display |
| Leaflet.ReferenceDomainCostsFour | generate_leaflet.py:9-10 | a 2,720,000-cell domain costs exactly 4 CPU-hours per day |
| Leaflet.TotalIsLinear | generate_leaflet.py:155-157 | total CPU-hours are additive in the cells and in the days, and are 0 for no cells |
| Leaflet.DrawAndCalculateIgnoresCoordinateOrder | generate_leaflet.py:147-152 | exchanging north/south or east/west does not change the page's result |
| Leaflet.DefaultBoxGrid | generate_leaflet.py:147-152 | the default Colombia box (13, -4, -82, -66) at 0.01 degrees is 1700 x 1600 = 2,720,000 cells |
| Leaflet.DefaultInputsEstimate | generate_leaflet.py:63-84 | the default inputs give 4 CPU-hours, 0.5 wall hours on 8 cores, displayed as 0 hr 30 min |
| Leaflet.FlatMatchesPiecewiseAboveLargeAnchor | generate_leaflet.py:155 | from 2.72e6 cells on, the flat price equals the drawing page's piecewise cost |
| Leaflet.FlatNeverAbovePiecewise | generate_leaflet.py:155 | for every non-negative cell count, the flat price is at most the piecewise cost |
| Leaflet.PagesAgreeOnReferenceRun | generate_leaflet.py:2-6 | for the Colombia reference run (1 day, 8 cores, 0.01 degrees) both pages give the same estimate |

## Left out

- NaN handling and text parsing (`parseFloat`, `isNaN`): inputs are modelled as numbers that have already been parsed. The NaN branches of the validation guards are therefore absent.
- Floating point: all arithmetic is over exact reals. IEEE-754 rounding is not modelled, for example in `17 / 0.01` before the floor, or in the Python float `4 / 2_720_000` that is spliced into the page as a decimal literal.
- Display formatting (`toFixed`, `toLocaleString`, the HTML strings): presentation only.
- The map, the tile layer, the Leaflet.Draw controls and their created/edited/deleted handlers, `fitBounds`, `alert` and DOM reads and writes: these are foreign library calls and UI glue. The "Rectangle -> Inputs" button only copies the drawn rectangle's bounds into the fields, so it is left out too.
- The Python wrappers that write the HTML file and print messages: file I/O.
- A power-law calibration strategy: neither page computes one.
- Idempotence of an estimate: every operation is a pure Dafny function, so identical inputs always give identical results. No lemma is needed.
- WallClock.JsRem: covers positive divisors only. JavaScript's `%` also accepts negative and zero divisors, but the pages only ever compute `% 60`.
