/** The polar layout of the chart: a grid of 12 angular columns (one per key)
    by 7 radial rows (the root band, then six scale-degree bands), computed
    from nothing but the outer radius.

    Angles are kept exact as whole multiples of pi/12 (15 degrees), so a
    column centre `Math.PI / 6 * col` is `2 * col` and its edges, pi/12 either
    side, are `2 * col - 1` and `2 * col + 1`; a full turn is 24 units.
    Radii are exact reals. */
module Layout {

  /** An angle, counted in twelfths of pi. */
  type Angle = int

  /** Number of columns (keys) and of rows (root band plus six degrees). */
  const Columns: nat := 12
  const Rows: nat := 7

  /** A full turn, 2 pi, in twelfths of pi. */
  const FullTurn: Angle := 24

  /** One cell of the grid: the column's centre angle, the column's two edges,
      and the inner and outer radius of the cell's band. */
  datatype Cell = Cell(theta: Angle, thetaMin: Angle, thetaMax: Angle, rMin: real, rMax: real)

  /** `new Cell(theta, rMin, rMax)`: the cell's wedge is one twelfth of a turn
      wide and centred on theta; the radii are kept as given. */
  function NewCell(theta: Angle, rMin: real, rMax: real): (c: Cell)
    ensures c.theta == theta && c.rMin == rMin && c.rMax == rMax
    ensures c.thetaMax - c.thetaMin == FullTurn / Columns
    ensures c.thetaMin + c.thetaMax == 2 * theta
  {
    Cell(theta, theta - 1, theta + 1, rMin, rMax)
  }

  /** Centre angle of a column: col * pi/6. */
  function ColumnTheta(col: int): Angle
  {
    2 * col
  }

  /** Width of the outer root band, and the allowance subtracted before the
      six degree bands share what is left. */
  function RootWidth(r: real): real
  {
    r / 5.0
  }

  function DeadSpace(r: real): real
  {
    r / 5.0
  }

  /** Width of each of rows 1..6: what is left after the root band and the
      dead space, in six equal parts, which comes to a tenth of the radius. */
  function DefaultWidth(r: real): (w: real)
    ensures w == r / 10.0
    ensures 6.0 * w + RootWidth(r) + DeadSpace(r) == r
  {
    (r - RootWidth(r) - DeadSpace(r)) / 6.0
  }

  /** The cell that the layout puts at (col, row), by the formulas of the
      layout routine: row 0 spans from r - rootWidth to r, row k >= 1 spans
      from r - rootWidth - k * defaultWidth to r - rootWidth - (k-1) * defaultWidth. */
  function CellAt(r: real, col: int, row: int): (c: Cell)
    ensures c.thetaMin == 2 * col - 1 && c.thetaMax == 2 * col + 1
    ensures 0 <= row < Rows ==> c.rMax - c.rMin == if row == 0 then r / 5.0 else r / 10.0
  {
    var theta := ColumnTheta(col);
    if row == 0 then
      NewCell(theta, r - RootWidth(r), r)
    else
      NewCell(theta, r - RootWidth(r) - DefaultWidth(r) * (row as real),
                     r - RootWidth(r) - DefaultWidth(r) * ((row - 1) as real))
  }

  /** The layout routine: two counted loops that push a fresh cell per row
      onto a column and each finished column onto the grid. */
  method ComputeCells(r: real) returns (cells: seq<seq<Cell>>)
    ensures |cells| == Columns
    ensures forall col :: 0 <= col < |cells| ==> |cells[col]| == Rows
    ensures forall col, row :: 0 <= col < |cells| && 0 <= row < |cells[col]| ==>
              cells[col][row] == CellAt(r, col, row)
  {
    cells := [];
    var rootWidth := r / 5.0;
    var deadSpace := r / 5.0;
    var defaultWidth := (r - rootWidth - deadSpace) / 6.0;
    assert rootWidth == RootWidth(r) && defaultWidth == DefaultWidth(r);
    var col := 0;
    while col < 12
      invariant 0 <= col <= 12
      invariant |cells| == col
      invariant forall c :: 0 <= c < col ==> |cells[c]| == Rows
      invariant forall c, k :: 0 <= c < col && 0 <= k < |cells[c]| ==> cells[c][k] == CellAt(r, c, k)
    {
      var column: seq<Cell> := [];
      var theta := 2 * col;
      column := column + [NewCell(theta, r - rootWidth, r)];
      var row := 1;
      while row < 7
        invariant 1 <= row <= 7
        invariant |column| == row
        invariant forall k :: 0 <= k < row ==> column[k] == CellAt(r, col, k)
      {
        var cell := NewCell(theta, r - rootWidth - defaultWidth * (row as real),
                                   r - rootWidth - defaultWidth * ((row - 1) as real));
        assert cell == CellAt(r, col, row);
        column := column + [cell];
        row := row + 1;
      }
      cells := cells + [column];
      col := col + 1;
    }
  }

  /** Inner and outer edge of each row's band, in tenths of the radius. */
  function InnerTenths(row: int): int
  {
    if row == 0 then 8 else 8 - row
  }

  function OuterTenths(row: int): int
  {
    if row == 0 then 10 else 9 - row
  }

  /** Every band edge is a whole number of tenths of r: the root band spans
      8/10 r .. r, and row k >= 1 spans (8-k)/10 r .. (9-k)/10 r. */
  lemma CellRadiiInTenths(r: real, col: int, row: int)
    requires 0 <= row < Rows
    ensures CellAt(r, col, row).rMin == r * (InnerTenths(row) as real) / 10.0
    ensures CellAt(r, col, row).rMax == r * (OuterTenths(row) as real) / 10.0
  {
  }

  /** The root band is a fifth of the radius wide and touches the outer
      circle; each of rows 1..6 is a tenth of the radius wide. */
  lemma BandWidths(r: real, col: int, row: int)
    requires 0 <= row < Rows
    ensures row == 0 ==> CellAt(r, col, row).rMax == r && CellAt(r, col, row).rMin == r - r / 5.0
    ensures CellAt(r, col, row).rMax - CellAt(r, col, row).rMin == if row == 0 then r / 5.0 else r / 10.0
  {
    CellRadiiInTenths(r, col, row);
  }

  /** Rows meet without gap: each band's outer edge is the inner edge of the
      band outside it (so the dead space leaves no visible gap). */
  lemma BandsContiguous(r: real, col: int, row: int)
    requires 1 <= row < Rows
    ensures CellAt(r, col, row).rMax == CellAt(r, col, row - 1).rMin
  {
    CellRadiiInTenths(r, col, row);
    CellRadiiInTenths(r, col, row - 1);
  }

  /** A cell has positive radial extent exactly when the radius is positive. */
  lemma CellNonEmptyIff(r: real, col: int, row: int)
    requires 0 <= row < Rows
    ensures CellAt(r, col, row).rMin < CellAt(r, col, row).rMax <==> r > 0.0
  {
    BandWidths(r, col, row);
  }

  /** For a positive radius every band lies between r/5 and r and has
      positive width. */
  lemma BandWithinChart(r: real, col: int, row: int)
    requires r > 0.0 && 0 <= row < Rows
    ensures r / 5.0 <= CellAt(r, col, row).rMin < CellAt(r, col, row).rMax <= r
  {
    CellRadiiInTenths(r, col, row);
    ScaleMonotone(r, 2, InnerTenths(row));
    ScaleMonotone(r, InnerTenths(row), OuterTenths(row));
    ScaleMonotone(r, OuterTenths(row), 10);
  }

  /** For a positive radius the bands are nested strictly inward: a row
      further in lies entirely inside every row further out, and all of them
      lie between r/5 and r. */
  lemma {:induction false} BandsStrictlyInward(r: real, col: int, i: int, j: int)
    requires r > 0.0
    requires 0 <= i < j < Rows
    ensures r / 5.0 <= CellAt(r, col, j).rMin < CellAt(r, col, j).rMax <= CellAt(r, col, i).rMin
    ensures CellAt(r, col, i).rMin < CellAt(r, col, i).rMax <= r
    decreases j - i
  {
    BandWithinChart(r, col, i);
    BandWithinChart(r, col, j);
    BandsContiguous(r, col, j);
    if i < j - 1 {
      BandsStrictlyInward(r, col, i, j - 1);
    }
  }

  /** Scaling by a positive radius keeps the order of tenths. */
  lemma ScaleMonotone(r: real, a: int, b: int)
    requires r > 0.0 && a <= b
    ensures r * (a as real) / 10.0 <= r * (b as real) / 10.0
    ensures a < b ==> r * (a as real) / 10.0 < r * (b as real) / 10.0
  {
  }

  /** The innermost band's inner edge sits at r/5, the radius the spokes
      start from. */
  lemma InnermostEdge(r: real, col: int)
    ensures CellAt(r, col, Rows - 1).rMin == r / 5.0
  {
    CellRadiiInTenths(r, col, Rows - 1);
  }

  /** The radii of a row do not depend on the column. */
  lemma RadiiIndependentOfColumn(r: real, c1: int, c2: int, row: int)
    ensures CellAt(r, c1, row).rMin == CellAt(r, c2, row).rMin
    ensures CellAt(r, c1, row).rMax == CellAt(r, c2, row).rMax
  {
  }

  /** Every cell of column col is centred on col * pi/6, with edges pi/12
      either side. */
  lemma ColumnAngles(r: real, col: int, row: int)
    ensures CellAt(r, col, row).theta == 2 * col
    ensures CellAt(r, col, row).thetaMin == 2 * col - 1 && CellAt(r, col, row).thetaMax == 2 * col + 1
  {
  }

  /** The twelve wedges tile the circle: each column's trailing edge is the
      next column's leading edge, the last column's trailing edge is the first
      column's leading edge one full turn later, and wedges of different
      columns do not overlap. */
  lemma WedgesTile(r: real, row: int, c1: int, c2: int)
    requires 0 <= c1 < c2 < Columns
    ensures c2 == c1 + 1 ==> CellAt(r, c1, row).thetaMax == CellAt(r, c2, row).thetaMin
    ensures CellAt(r, c1, row).thetaMax <= CellAt(r, c2, row).thetaMin
    ensures CellAt(r, Columns - 1, row).thetaMax == CellAt(r, 0, row).thetaMin + FullTurn
  {
  }
}
