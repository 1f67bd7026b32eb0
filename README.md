# Circle of fifths chart: verified model of the layout

The program draws a circle-of-fifths chart on a canvas that fills the browser
window. The chart has twelve wedges, one per major key, and seven concentric
bands. The outer band holds the key's root. The six inner bands hold the other
degrees of the key's major scale. This project models the part of `index.js`
that computes values. It does not model the canvas calls.

- `Layout`: the grid that `computeCells` builds from the outer radius, and the
  `Cell` record. Angles are exact integers in units of pi/12. A column centre
  `Math.PI / 6 * col` is `2 * col`, and its edges are `2 * col - 1` and
  `2 * col + 1`. Radii are exact reals. `ComputeCells` keeps the source's two
  counted loops, which append a cell to a column and a column to the grid. It is
  proved against the function `CellAt`. The lemmas state what the grid looks
  like:
  - every band edge is a whole number of tenths of r;
  - the root band is r/5 wide and rows 1 to 6 are r/10 wide;
  - the bands touch, with no gap between them;
  - for r > 0 the bands nest strictly inward;
  - the innermost edge is at r/5;
  - the wedges tile one full turn.
- `KeyTable`: the `keys` table and the rule that column `col` reads row
  `(col * 7) % 12`. The lemmas prove four things:
  - this rule undoes itself on 0..11 (7 · 7 = 49 ≡ 1 mod 12), so it is a
    permutation;
  - every row has seven names;
  - row k is the major scale k semitones above A, spelled with one name per
    letter;
  - moving one column along moves one fifth around the circle.
- `Chart`: the values `render` computes before it draws:
  - the radius `(min(w, h) - 1) / 2` and the centre;
  - the concentric circles;
  - one spoke per column, from r/5 out to r, on the column's leading edge;
  - one label per cell, with the text `keys[(col * 7) % 12][row]`, weight 800
    for rows 0 and 5 and 300 otherwise, size half the band thickness, and its
    anchor in the middle of the band on the column's centre line.

  `Render` returns all of this as a value in drawing order, and it keeps the
  source's loops.

`Cell` is a datatype, not a class. The JavaScript constructor sets the fields
once and nothing changes them afterwards.

Two details of the source that the model keeps as written:
- `drawCircle` (index.js:49-58) only strokes an outline, so no ring of the
  chart is filled.
- The `keys` table writes sharps as `#` and flats as `b`.

## Model

| member | source | states |
|---|---|---|
| Layout.NewCell | index.js:83-91 | a cell keeps its centre angle and radii; its wedge is pi/6 wide (one twelfth of a turn) and centred on theta |
| Layout.DefaultWidth | index.js:62-64 | each of rows 1..6 gets r/10: six of them plus root width and dead space make up exactly r |
| Layout.CellAt | index.js:67-70 | cell (col,row) has edges 2·col ∓ 1 (col·pi/6 ∓ pi/12) and a band r/5 wide for the root row, r/10 for rows 1..6 |
| Layout.ComputeCells | index.js:60-75 | returns 12 columns of 7 cells each, cell (col,row) being the one the layout formulas give |
| Layout.CellRadiiInTenths | index.js:62-70 | root band spans 8/10 r..r; row k>=1 spans (8-k)/10 r..(9-k)/10 r |
| Layout.BandWidths | index.js:62-70 | row 0 has rMax = r and rMin = r - r/5; root band is r/5 wide, every other band r/10 wide |
| Layout.BandsContiguous | index.js:68-70 | for rows 1..6 the outer edge equals the inner edge of the row outside it (no gap) |
| Layout.CellNonEmptyIff | index.js:62-70 | rMin < rMax for a cell if and only if r > 0 |
| Layout.BandWithinChart | index.js:62-70 | for r > 0 every cell lies between r/5 and r with rMin < rMax |
| Layout.BandsStrictlyInward | index.js:62-70 | for r > 0 and i < j, row j lies strictly inside row i, all within [r/5, r] |
| Layout.InnermostEdge | index.js:64-70 | the innermost row's rMin is r/5, the radius the spokes start from |
| Layout.RadiiIndependentOfColumn | index.js:65-71 | the radii of a row are the same in every column |
| Layout.ColumnAngles | index.js:67-70 | every cell of column col has theta = col·pi/6 and edges theta ∓ pi/12 |
| Layout.WedgesTile | index.js:67-91 | each column's trailing edge is the next column's leading edge; wedges do not overlap; the twelve close one full turn |
| KeyTable.KeyIndex | index.js:34 | the table row chosen for any column is a valid row index 0..11 |
| KeyTable.Scale | index.js:34 | the scale read for a column is a table row with seven names |
| KeyTable.KeyIndexSelfInverse | index.js:34 | applying (col*7)%12 twice returns the column, for col in 0..11 |
| KeyTable.KeyIndexIsPermutation | index.js:33-34 | distinct columns read distinct rows and every row 0..11 is read |
| KeyTable.KeysShape | index.js:110-123 | the table has 12 rows of exactly 7 names, so scale[row] is defined for rows 0..6 |
| KeyTable.NameFacts | index.js:110-123 | pitch class (semitones above A) and letter of each note name the table uses |
| KeyTable.FewSharpKeysAreMajor | index.js:114-121 | the rows of C, G and D major are major scales on their row index, one letter per degree |
| KeyTable.ManySharpKeysAreMajor | index.js:111-118 | the rows of A, E and B major are major scales on their row index, one letter per degree |
| KeyTable.FewFlatKeysAreMajor | index.js:112-119 | the rows of F, Bb and Eb major are major scales on their row index, one letter per degree |
| KeyTable.ManyFlatKeysAreMajor | index.js:115-122 | the rows of Ab, Db and Gb major are major scales on their row index, one letter per degree |
| KeyTable.RowIsMajorScale | index.js:110-123 | row k of the table is the major scale k semitones above A, letters rising one per degree |
| KeyTable.KeyIndexNext | index.js:34 | for columns 0..11, one column further the key index rises by 7 modulo 12, and twelve columns further it is unchanged |
| KeyTable.ScaleDegree | index.js:34-40 | name row of column col's scale is degree row of the major scale on the column's key |
| KeyTable.ColumnsAscendByFifths | index.js:33-34 | for columns 0..11, the next column's root has the pitch of this column's fifth degree, and column 12 would read column 0's scale again |
| KeyTable.FirstColumns | index.js:110-118 | column 0 reads A major (A B C# D E F# G#), column 1 reads E major |
| Chart.Radius | index.js:16-17 | the radius plus half a pixel fits both half-sides and touches the smaller; r > 0 iff both sides exceed 1 |
| Chart.IsBold | index.js:37 | a label is bold exactly when its degree is the key's tonic (0 semitones) or the tonic of its relative minor (9 semitones) |
| Chart.FontWeight | index.js:46 | the weight is 800 or 300, and it is the heavier one exactly when the label is bold |
| Chart.FontSize | index.js:37 | the size is the distance from either band edge to the middle of the band; it is positive iff the band is |
| Chart.CircleAt | index.js:19-22 | circle 0 is the outer radius r; circle i in 1..7 lies at (9-i)/10 of r |
| Chart.SpokeAt | index.js:23-27 | the spoke of column col lies on its leading edge 2·col - 1 and runs from the innermost band's inner edge to the root band's outer edge |
| Chart.LabelAt | index.js:34-40 | the label sits on its cell's centre angle, and its anchor radius plus or minus its size gives exactly the band's two edges |
| Chart.Render | index.js:8-43 | centre is half the viewport; 8 circles at r and each row's inner edge; 12 spokes on the leading edges from the innermost circle to the outer one; 12 columns of 7 labels as the layout and key rules give |
| Chart.RadiusExamples | index.js:14-17 | a 400x400 viewport gives r = 199.5; 300x600 and 300x900 give 149.5 |
| Chart.CirclesInTenths | index.js:19-22 | circle i>=1 lies at (9-i)/10 r, strictly inside circle i-1 when r > 0 |
| Chart.CirclesTraceBandEdges | index.js:20-22 | both edges of every cell, in every column, lie on drawn circles |
| Chart.SpokesOnWedgeEdges | index.js:23-30 | each spoke lies on the edge between two neighbouring wedges and runs from the innermost band edge to r |
| Chart.LabelStyle | index.js:37-46 | weight is 800 iff row is 0 or 5, else 300; size is r/10 for the root row and r/20 for others |
| Chart.LabelInsideCell | index.js:36-39 | for r > 0 each label is anchored strictly inside its cell with a positive size |
| Chart.LabelSpellsDegree | index.js:34-40 | the label at (col,row) spells degree row of the major scale on the column's key |
| Chart.RootLabelsDistinct | index.js:33-40 | the twelve root labels are twelve different names |

## Left out

- Canvas and DOM work is not modelled: `createCanvas`, `drawCircle`, path, stroke and text calls, `clearRect`, and the save and restore of context state. The device-pixel-ratio resize and scale of the backing buffer are left out too. These are host effects with no return value.
- The `load` and `resize` listeners are event plumbing. They only re-run `render`. Render's contract fixes its whole result from the viewport size, so two renders of the same viewport give the same drawing.
- `Math.cos` and `Math.sin` are not modelled. Spoke ends and label anchors stay in polar form, as an angle in units of pi/12 and a radius. They are not converted to x and y.
- Chart.Render: records the font weight as the number 800 or 300 and the size as a real. It does not build the CSS font string `"<weight> <size>px sans-serif"`.
- The commented-out `Scale` and `MajorScale` classes are dead code and are not modelled.
- Floating point is not modelled. Radii are exact reals, so the equalities hold in exact arithmetic. They may not hold bit for bit in JavaScript doubles.
- A non-positive radius, from a viewport side of at most one pixel, is not guarded against, just as in the source. The model accepts every size. The lemmas that need r > 0 say so.
