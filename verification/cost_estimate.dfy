/** What both pages compute once they know the per-day cost of a grid: the
    total CPU-hours over the simulated days, the wall-clock hours on the given
    number of cores (perfect parallel efficiency), and the hours-and-minutes
    display. Also the outcome of a request: an estimate, or the reason the
    page turned the inputs away. */
module CostEstimate {
  import opened Grid
  import opened WallClock

  /** Why a request was turned away (the page raises an alert and stops). */
  datatype Rejection =
    | NonPositiveInput  // days, cores or resolution not strictly positive
    | SouthAboveNorth
    | WestBeyondEast

  datatype Result<T> = Accepted(value: T) | Rejected(reason: Rejection)

  datatype Estimate = Estimate(
    grid: GridShape,
    cpuHoursPerDay: real,
    cpuHoursTotal: real,
    wallHours: real,
    display: HoursMinutes)

  /** Total CPU-hours, wall-clock hours and their display, from a per-day
      cost. Dividing the total by the days gives back the per-day cost, and
      the wall-clock hours times the cores give back the total. A
      non-negative per-day cost gives a non-negative total and wall time,
      and the display then reads as the wall time truncated to whole minutes. */
  function Assemble(grid: GridShape, perDay: real, days: real, cores: real): (e: Estimate)
    requires days > 0.0 && cores > 0.0
    ensures e.grid == grid && e.cpuHoursPerDay == perDay
    ensures e.cpuHoursTotal / days == perDay
    ensures e.wallHours * cores == e.cpuHoursTotal
    ensures perDay >= 0.0 ==> e.cpuHoursTotal >= 0.0 && e.wallHours >= 0.0
    ensures perDay >= 0.0 ==> WellDisplayed(e)
  {
    var total := perDay * days;
    var wall := total / cores;
    Estimate(grid, perDay, total, wall, Display(wall))
  }

  /** The display is whole hours and minutes below 60, and, read back as
      minutes, is the wall-clock time truncated to a whole minute. */
  predicate WellDisplayed(e: Estimate) {
    var minutes := e.display.hours * 60 + e.display.minutes;
    && e.display.hours >= 0
    && 0 <= e.display.minutes < 60
    && minutes as real <= e.wallHours * 60.0 < (minutes + 1) as real
  }
}
