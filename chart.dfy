/** What the render routine works out before it touches the canvas: the
    radius and centre from the viewport, the concentric circles, one spoke
    per key wedge and one label per cell. Positions stay in polar form (an
    angle in twelfths of pi and a radius from the centre); turning them into
    x and y with cosine and sine is the drawing surface's business. */
module Chart {
  import opened Layout
  import opened KeyTable

  /** A radial divider line, at one angle, between two radii. */
  datatype Spoke = Spoke(angle: Angle, rFrom: real, rTo: real)

  /** One note name to write: its text, font weight and size, and its
      anchor point in polar form. */
  datatype Label = Label(text: string, weight: nat, size: real, angle: Angle, radius: real)

  /** Everything one render pass draws, in drawing order: the centre, the
      circles (outer circle first), the spokes and, column by column, the
      labels. */
  datatype Drawing = Drawing(cx: real, cy: real, circles: seq<real>, spokes: seq<Spoke>, labels: seq<seq<Label>>)

  /** The outer radius for a viewport: half of the smaller side less one
      pixel, so the circle and its one-pixel outline fit. */
  function Radius(width: nat, height: nat): (r: real)
    ensures r + 0.5 <= (width as real) / 2.0 && r + 0.5 <= (height as real) / 2.0
    ensures r + 0.5 == (width as real) / 2.0 || r + 0.5 == (height as real) / 2.0
    ensures r > 0.0 <==> width > 1 && height > 1
  {
    var size := (if width < height then width else height) as real - 1.0;
    size / 2.0
  }

  /** Rows 0 and 5 are written bold: of the seven degrees these are the
      tonic of the key and the tonic of its relative minor, nine semitones up. */
  function IsBold(row: int): (b: bool)
    ensures 0 <= row < Rows ==> (b <==> MajorDegrees[row] == 0 || MajorDegrees[row] == 9)
  {
    row == 0 || row == 5
  }

  /** The numeric font weight the label font uses for bold and for normal text. */
  function FontWeight(bold: bool): (w: nat)
    ensures w == 800 || w == 300
    ensures bold <==> w > 300
  {
    if bold then 800 else 300
  }

  /** Label size: half the radial thickness of the cell's band, which is the
      distance from either band edge to the middle of the band. */
  function FontSize(cell: Cell): (s: real)
    ensures cell.rMin + s == (cell.rMin + cell.rMax) / 2.0 == cell.rMax - s
    ensures s > 0.0 <==> cell.rMin < cell.rMax
  {
    (cell.rMax - cell.rMin) * 0.5
  }

  /** Circle i of the chart: the outer circle for i = 0, otherwise the inner
      edge of row i - 1 (read from column 0). */
  function CircleAt(r: real, i: int): (c: real)
    ensures i == 0 ==> c == r
    ensures 1 <= i <= Rows ==> c == r * ((9 - i) as real) / 10.0
  {
    if i == 0 then r else CellAt(r, 0, i - 1).rMin
  }

  /** The spoke of column col: along the column's leading edge, from r/5
      out to r. */
  function SpokeAt(r: real, col: int): (s: Spoke)
    ensures s.angle == 2 * col - 1
    ensures s.rFrom == CellAt(r, col, Rows - 1).rMin && s.rTo == CellAt(r, col, 0).rMax
  {
    Spoke(CellAt(r, col, 0).thetaMin, r / 5.0, r)
  }

  /** The label of cell (col, row): the row-th name of the column's scale,
      styled by row and band thickness, anchored mid-band on the column's
      centre line. */
  function LabelAt(r: real, col: nat, row: int): (l: Label)
    requires 0 <= row < Rows
    ensures l.angle == CellAt(r, col, row).theta
    ensures l.radius - l.size == CellAt(r, col, row).rMin && l.radius + l.size == CellAt(r, col, row).rMax
  {
    var cell := CellAt(r, col, row);
    Label(Scale(col)[row], FontWeight(IsBold(row)), FontSize(cell), cell.theta, (cell.rMin + cell.rMax) / 2.0)
  }

  /** One render pass for a viewport of width x height CSS pixels. */
  method Render(width: nat, height: nat) returns (d: Drawing)
    ensures d.cx == (width as real) / 2.0 && d.cy == (height as real) / 2.0
    ensures |d.circles| == Rows + 1
    ensures forall i :: 0 <= i < |d.circles| ==> d.circles[i] == CircleAt(Radius(width, height), i)
    ensures |d.spokes| == Columns
    ensures forall col :: 0 <= col < |d.spokes| ==> d.spokes[col] == SpokeAt(Radius(width, height), col)
    ensures forall col :: 0 <= col < |d.spokes| ==>
              d.spokes[col].rFrom == d.circles[Rows] && d.spokes[col].rTo == d.circles[0]
    ensures |d.labels| == Columns
    ensures forall col :: 0 <= col < |d.labels| ==> |d.labels[col]| == Rows
    ensures forall col, row :: 0 <= col < |d.labels| && 0 <= row < |d.labels[col]| ==>
              d.labels[col][row] == LabelAt(Radius(width, height), col, row)
  {
    var cx := (width as real) / 2.0;
    var cy := (height as real) / 2.0;
    var size := (if width < height then width else height) as real - 1.0;
    var r := size / 2.0;
    var cells: seq<seq<Cell>> := ComputeCells(r);

    var circles := [r];
    var i := 0;
    while i < |cells[0]|
      invariant 0 <= i <= |cells[0]|
      invariant |circles| == i + 1
      invariant forall j :: 0 <= j < |circles| ==> circles[j] == CircleAt(r, j)
    {
      circles := circles + [cells[0][i].rMin];
      i := i + 1;
    }

    var spokes: seq<Spoke> := [];
    i := 0;
    while i < |cells|
      invariant 0 <= i <= |cells|
      invariant |spokes| == i
      invariant forall j :: 0 <= j < i ==> spokes[j] == SpokeAt(r, j)
    {
      spokes := spokes + [Spoke(cells[i][0].thetaMin, r / 5.0, r)];
      i := i + 1;
    }

    var labels: seq<seq<Label>> := [];
    var col := 0;
    while col < |cells|
      invariant 0 <= col <= |cells|
      invariant |labels| == col
      invariant forall c :: 0 <= c < col ==> |labels[c]| == Rows
      invariant forall c, k :: 0 <= c < col && 0 <= k < |labels[c]| ==> labels[c][k] == LabelAt(r, c, k)
    {
      var scale := Keys[(col * 7) % 12];
      var column: seq<Label> := [];
      var row := 0;
      while row < |cells[col]|
        invariant 0 <= row <= |cells[col]|
        invariant |column| == row
        invariant forall k :: 0 <= k < row ==> column[k] == LabelAt(r, col, k)
      {
        var cell := cells[col][row];
        column := column + [Label(scale[row], FontWeight(row == 0 || row == 5), (cell.rMax - cell.rMin) * 0.5,
                                  cell.theta, (cell.rMin + cell.rMax) / 2.0)];
        row := row + 1;
      }
      labels := labels + [column];
      col := col + 1;
    }

    InnermostEdge(r, 0);
    d := Drawing(cx, cy, circles, spokes, labels);
  }

  /** The viewports used as examples: 400 x 400 gives radius 199.5 and
      300 x 600 gives 149.5, whatever the larger side. */
  lemma RadiusExamples()
    ensures Radius(400, 400) == 199.5
    ensures Radius(300, 600) == 149.5 && Radius(300, 900) == 149.5
  {
  }

  /** The circles are drawn at r, 8/10 r, 7/10 r, ..., 2/10 r: circle i >= 1
      lies (9 - i) tenths of r from the centre, and for a positive radius
      each circle lies strictly inside the one before. */
  lemma CirclesInTenths(r: real, i: int)
    requires 1 <= i <= Rows
    ensures CircleAt(r, i) == r * ((9 - i) as real) / 10.0
    ensures r > 0.0 ==> CircleAt(r, i) < CircleAt(r, i - 1)
  {
    CellRadiiInTenths(r, 0, i - 1);
    if i > 1 {
      CellRadiiInTenths(r, 0, i - 2);
    }
  }

  /** The circles trace every band edge of every column: the cell in row
      row lies between circle row + 1 and circle row. */
  lemma CirclesTraceBandEdges(r: real, col: int, row: int)
    requires 0 <= row < Rows
    ensures CellAt(r, col, row).rMin == CircleAt(r, row + 1)
    ensures CellAt(r, col, row).rMax == CircleAt(r, row)
  {
    if row > 0 {
      BandsContiguous(r, 0, row);
    }
  }

  /** Each spoke runs along the edge between two neighbouring wedges, from the
      innermost band edge out to the outer circle. */
  lemma SpokesOnWedgeEdges(r: real, col: int, row: int)
    requires 0 <= col < Columns && 0 <= row < Rows
    ensures SpokeAt(r, col).rFrom == CellAt(r, col, Rows - 1).rMin
    ensures SpokeAt(r, col).rTo == CellAt(r, col, 0).rMax
    ensures SpokeAt(r, col).angle == CellAt(r, col, row).thetaMin
    ensures SpokeAt(r, col).angle ==
              if col == 0 then CellAt(r, Columns - 1, row).thetaMax - FullTurn
              else CellAt(r, col - 1, row).thetaMax
  {
    InnermostEdge(r, col);
  }

  /** Labels are bold (weight 800) exactly in rows 0 and 5 and light (weight
      300) elsewhere; root labels are r/10 high, all others r/20. */
  lemma LabelStyle(r: real, col: nat, row: int)
    requires 0 <= row < Rows
    ensures LabelAt(r, col, row).weight == 800 <==> row == 0 || row == 5
    ensures LabelAt(r, col, row).weight == 300 <==> row != 0 && row != 5
    ensures LabelAt(r, col, row).size == if row == 0 then r / 10.0 else r / 20.0
  {
    BandWidths(r, col, row);
  }

  /** For a positive radius each label is anchored strictly inside its own
      cell, on the column's centre line, and has a positive size. */
  lemma LabelInsideCell(r: real, col: nat, row: int)
    requires r > 0.0 && 0 <= row < Rows
    ensures CellAt(r, col, row).rMin < LabelAt(r, col, row).radius < CellAt(r, col, row).rMax
    ensures CellAt(r, col, row).thetaMin < LabelAt(r, col, row).angle < CellAt(r, col, row).thetaMax
    ensures LabelAt(r, col, row).size > 0.0
  {
    CellNonEmptyIff(r, col, row);
  }

  /** The label in row row of column col spells degree row of the major
      scale on that column's key. */
  lemma LabelSpellsDegree(r: real, col: nat, row: int)
    requires 0 <= row < Rows
    ensures IsDegree(LabelAt(r, col, row).text, KeyIndex(col), LetterIndex(LabelAt(r, col, 0).text), row)
  {
    ScaleDegree(col, row);
  }

  /** The twelve root labels name twelve different keys. */
  lemma RootLabelsDistinct(r: real, c1: nat, c2: nat)
    requires c1 < Columns && c2 < Columns && c1 != c2
    ensures LabelAt(r, c1, 0).text != LabelAt(r, c2, 0).text
  {
    KeyIndexIsPermutation();
    ScaleDegree(c1, 0);
    ScaleDegree(c2, 0);
  }
}
