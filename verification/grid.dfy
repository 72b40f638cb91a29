/** Discretisation of a latitude/longitude bounding box into a regular grid of
    square cells whose edge is `res` degrees. Both page scripts share this step:
    the number of rows and columns is the floor of each span over the
    resolution, and the span is taken as an absolute value. */
module Grid {

  /** A bounding box in degrees, as typed into the four coordinate fields. */
  datatype Box = Box(north: real, south: real, west: real, east: real) {

    /** The order the rectangle button insists on: south not above north,
        west not beyond east. */
    predicate Ordered() {
      south <= north && west <= east
    }

    /** The same box with the north and south fields exchanged. */
    function SwapLat(): Box {
      Box(south, north, west, east)
    }

    /** The same box with the west and east fields exchanged. */
    function SwapLon(): Box {
      Box(north, south, east, west)
    }
  }

  /** Rows (latitude direction) and columns (longitude direction) of cells. */
  datatype GridShape = GridShape(nLat: int, nLon: int) {
    function TotalCells(): int {
      nLat * nLon
    }
  }

  /** `Math.abs` on a finite number. */
  function Abs(x: real): (r: real)
    ensures r >= 0.0
    ensures r == x || r == -x
  {
    if x < 0.0 then -x else x
  }

  /** `Math.floor(Math.abs(span) / res)`: how many whole cells of edge `res`
      fit along a span. The result is the unique count `n` with
      `n * res <= |span| < (n + 1) * res`. */
  function AxisCount(span: real, res: real): (n: int)
    requires res > 0.0
    ensures n >= 0
    ensures n as real * res <= Abs(span) < (n + 1) as real * res
    ensures n == 0 <==> Abs(span) < res
  {
    FloorOfQuotient(Abs(span), res);
    (Abs(span) / res).Floor
  }

  /** The floor inequalities `q.Floor <= q < q.Floor + 1` for `q = a / res`,
      multiplied through by the positive resolution. */
  lemma FloorOfQuotient(a: real, res: real)
    requires res > 0.0
    ensures (a / res).Floor as real * res <= a < ((a / res).Floor + 1) as real * res
    ensures (a / res).Floor >= 1 ==> res <= (a / res).Floor as real * res
  {
    var q := a / res;
    var f := q.Floor as real;
    assert q * res == a;
    assert f <= q < f + 1.0;
    MulMonotone(f, q, res);
    MulStrict(q, f + 1.0, res);
    assert (q.Floor + 1) as real == f + 1.0;
    assert q * res < (f + 1.0) * res;
    assert a < (f + 1.0) * res;
    if q.Floor >= 1 {
      MulMonotone(1.0, f, res);
    }
  }

  lemma MulMonotone(a: real, b: real, c: real)
    requires a <= b && c > 0.0
    ensures a * c <= b * c
  {
  }

  lemma MulStrict(a: real, b: real, c: real)
    requires a < b && c > 0.0
    ensures a * c < b * c
  {
  }

  /** Cells of the grid that a box and a resolution produce: floor of each
      absolute span over the resolution, multiplied together. */
  function Discretize(box: Box, res: real): (g: GridShape)
    requires res > 0.0
    ensures g.nLat >= 0 && g.nLon >= 0
    ensures g.nLat as real * res <= Abs(box.north - box.south) < (g.nLat + 1) as real * res
    ensures g.nLon as real * res <= Abs(box.east - box.west) < (g.nLon + 1) as real * res
    ensures g.TotalCells() >= 0
    ensures g.TotalCells() == 0 <==> Abs(box.north - box.south) < res || Abs(box.east - box.west) < res
  {
    GridShape(AxisCount(box.north - box.south, res), AxisCount(box.east - box.west, res))
  }

  /** Because the spans go through `Math.abs`, the order in which the two
      latitudes or the two longitudes are typed does not change the grid. */
  lemma DiscretizeIgnoresCoordinateOrder(box: Box, res: real)
    requires res > 0.0
    ensures Discretize(box.SwapLat(), res) == Discretize(box, res)
    ensures Discretize(box.SwapLon(), res) == Discretize(box, res)
  {
  }

  /** For a box in the rectangle button's order the absolute values are
      no-ops: the grid is the floor of the signed spans. */
  lemma OrderedBoxNeedsNoAbs(box: Box, res: real)
    requires res > 0.0 && box.Ordered()
    ensures Discretize(box, res).nLat == ((box.north - box.south) / res).Floor
    ensures Discretize(box, res).nLon == ((box.east - box.west) / res).Floor
  {
  }
}
