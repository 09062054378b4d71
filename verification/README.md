# Shooting target layout and MOA labels

A Dafny model of `target.rb`, a script that draws a printable shooting target:
a six-inch square grid with a filled one-inch bull, emphasised inch lines and a
crosshair, a one-inch reference ruler, and a table that gives, for each
shooting distance in yards, how many grid squares one minute of arc (MOA)
covers. The model covers the script's arithmetic: the MOA label classifier
`moa_string`, the table rows, and the layout values the drawing calls are
given. It states them for every positive grid density (`BOXES_PER_INCH`,
fixed to 2 in the source) and for any page bounds.

Modules:

- `Units`, `Config` (`config.dfy`): points and inches (`x.in` is `72 * x`
  points, `x.pt` is `x`), the density type and the source's constants.
- `Numeric` (`numeric.dfy`): Ruby's `Float#to_i` (truncation toward zero)
  and `Float#round` (nearest integer, halves away from zero) on exact reals.
- `Results` (`results.dfy`): the one exception the modelled code can raise.
- `Moa` (`moa.dfy`): the classifier, returning a `Label` datatype with the
  four forms "1 square per MOA", "n MOA per square", "n squares per MOA" and
  "x.x squares per MOA".
- `MoaExact` (`moa_exact.dfy`): an integer-only reference classifier on
  `yards * bpi`, proved equal to the real-valued one for every input.
- `DistanceTable` (`table.dfy`): the table rows and the table the source
  prints.
- `Layout` (`layout.dfy`): box counts, spacing, side and bull lengths, the
  bull rectangle, the target's bounding box, the crosshair offset, the ruler.
- `Grid` (`grid.dfy`): the interior grid lines with their widths, and the
  crosshair.

Behaviour the model follows from the code:

- At zero yards `moa_string` divides by zero, gets Infinity, and
  `Infinity.to_i` raises `FloatDomainError`. `Classify` returns that error
  and `Table` propagates it. Negative distances do not raise: they truncate
  toward zero and always get the fractional form.
- The target's bounding box is centred horizontally. Vertically, its bottom
  is at (height − SIDE)/2 and its top is one line width higher than the
  centred square's top. The ruler is eight points above the centred square's
  top, since PDF y grows upward, which is seven points above the top of the
  target's box.
- Inside the bounding box the grid lines are drawn at i·SPACING and the
  crosshair at SIDE/2, while the bull is centred in [Delta, Delta + SIDE],
  the square inset by Delta = LINE_WIDTH/2 (target.rb:23). So on both axes
  the bull's centre is half a point right of and above the crosshair
  (`Grid.BullOffCrosshair`). At an even density, such as the configured 2,
  the bull's edges are half a point past grid lines 5·bpi/2 and 7·bpi/2. At
  an odd density the bull's margin of 2.5·bpi squares is not whole, and each
  edge lies half a square and half a point past a line
  (`Grid.BullEdgesAgainstLines`).
- The grid lines are drawn from the bounding box's edge, not from the inset
  square, and the box is SIDE + LINE_WIDTH wide. So every row and column is
  SPACING wide except the last, which is SPACING + LINE_WIDTH
  (`Grid.ColumnWidths`).
- The code does not validate its configuration. The model requires a
  positive density through the `Density` type.
- With whole yards and a whole density, the edge of the inclusive 10% band is
  never met exactly. `MoaExact.ToleranceBoundaryMissedByWholeProducts` proves
  this. The inclusive edge still decides the label for other real
  boxes_per_moa values; `Moa.ToleranceBoundaryIsInclusive` shows such a case.

## Model

| member | source | states |
|---|---|---|
| `Numeric.Trunc` | target.rb:30 | `to_i` truncates toward zero: for x ≥ 0 the result is the floor, for x < 0 the ceiling |
| `Numeric.TruncPositive` | target.rb:30 | `to_i` is positive exactly when the value is at least 1 |
| `Numeric.Round` | target.rb:31-37 | `round` lies within a half of x, and a half is rounded away from zero; these bounds fix the result uniquely |
| `Numeric.RoundIsNearest` | target.rb:36-37 | no integer is closer to x than `round(x)` |
| `Numeric.RoundHalfAwayFromZero` | target.rb:31-37 | k + 0.5 rounds to k + 1 for k ≥ 0 and to k for k < 0 |
| `Moa.BoxesPerMoa` | target.rb:28 | boxes_per_moa depends only on yards·bpi (it is yards·bpi/100); it is zero exactly at zero yards and positive exactly for positive yards |
| `Moa.MoaPerBox` | target.rb:29 | moa_per_box is the reciprocal of boxes_per_moa |
| `Moa.ClassifyBoxesPerMoa` | target.rb:28-40 | a "per square" form exactly when 0 < b ≤ 1; "n MOA per square" has n ≥ 2; "n squares per MOA" has b > 1, n ≥ 1 and n within b/10 of b; the fractional form carries b itself, with b < 0 or b > 1 |
| `Moa.Classify` | target.rb:27-41 | raises exactly at zero yards; otherwise a "per square" form exactly when 0 < yards·bpi ≤ 100; the fractional form carries boxes_per_moa |
| `Moa.PerSquareIffOneMoaPerBox` | target.rb:30 | the "per square" forms are chosen iff `moa_per_box.to_i > 0`, iff moa_per_box ≥ 1 |
| `Moa.PerSquareForms` | target.rb:30-35 | when moa_per_box ≥ 1: "1 square per MOA" iff moa_per_box rounds to 1, otherwise "n MOA per square" with n the rounded moa_per_box, n ≥ 2 |
| `Moa.SquaresPerMoaForms` | target.rb:36-39 | when moa_per_box < 1: "n squares per MOA" with n = round(b) iff abs(b − round(b)) ≤ b/10, otherwise the fractional form with b |
| `Moa.ToleranceBoundaryIsInclusive` | target.rb:36 | b = 10/9, exactly on the edge of the 10% band, gets "1 squares per MOA"; b just past the edge gets the fractional form |
| `MoaExact.ClassifyMatchesExact` | target.rb:27-41 | for every non-zero distance and every density, moa_string equals an integer-only classifier on p = yards·bpi: one square per MOA iff 200 < 3p ≤ 300; n MOA per square with n = 100/p rounded half up when 3p ≤ 200; p/100 rounded when within a tenth of p/100 above 100; else the fractional form |
| `MoaExact.ClassifyBoxesPerMoaMatchesExact` | target.rb:28-40 | the same agreement, stated on boxes_per_moa = p/100 for any non-zero integer p |
| `MoaExact.PerSquareMatchesExact` | target.rb:31-34 | for 0 < p ≤ 100, moa_per_box = 100/p rounds to (200 + p) div 2p, which is 1 exactly when 3p > 200 |
| `MoaExact.SquaresPerMoaMatchesExact` | target.rb:36-37 | for p > 100, boxes_per_moa = p/100 rounds to (p + 50) div 100, and the 10% test on reals is the test 10·abs(p − 100n) ≤ p on integers |
| `MoaExact.MoaPerSquareRange` | target.rb:34 | an "n MOA per square" label has 2 ≤ n ≤ 100 |
| `MoaExact.ToleranceBoundaryMissedByWholeProducts` | target.rb:36 | for whole yards·bpi > 100, abs(b − round(b)) is never exactly b/10 |
| `DistanceTable.Table` | target.rb:47 | the table succeeds iff no distance is zero; then it has one row per distance, in order, each row holding that distance and its moa_string label |
| `DistanceTable.TableOfLabels` | target.rb:47 | a list of rows carrying each distance and its label, in order, is exactly the table |
| `DistanceTable.ConfiguredLabels` | target.rb:20-40 | at 2 boxes per inch: 7, 10, 15 and 25 yards give 7, 5, 3 and 2 MOA per square; 50 gives 1 square per MOA; 100, 200 and 300 give 2, 4 and 6 squares per MOA |
| `DistanceTable.ConfiguredTable` | target.rb:20-47 | the printed table is exactly those eight rows in the order of YARDS, and none uses the fractional form |
| `DistanceTable.FiftyYardsOnPerSquareEdge` | target.rb:28-37 | at 50 yards and 2 boxes per inch boxes_per_moa and moa_per_box are both exactly 1.0, on the edge of the `to_i > 0` test: b = 1.0 gives "1 square per MOA", and b just above 1.0 gives "1 squares per MOA" |
| `DistanceTable.FractionalFormReachable` | target.rb:39 | the fractional form is reachable: 75 yards at 2 boxes per inch gives 1.5 squares per MOA |
| `Layout.BoxesPerSide` | target.rb:13 | BOXES_PER_SIDE = 6·bpi is positive and spans exactly six inches of squares |
| `Layout.BoxesPerBullSide` | target.rb:14 | the bull has a positive number of boxes on a side, no more than the square, and they span exactly one inch |
| `Layout.Spacing` | target.rb:22 | a box side is positive, and bpi boxes make exactly one inch |
| `Layout.SideLength` | target.rb:24 | the square's side is 6 inches (432 pt) whatever the density |
| `Layout.BullLength` | target.rb:25 | the bull's side is 1 inch whatever the density, so it is no longer than the square's side |
| `Layout.WholeSquares` | target.rb:24-25 | side and bull are whole numbers of boxes: 6·bpi and bpi |
| `Layout.BullRect` | target.rb:84-92 | the bull rectangle is BULL_LENGTH square and is centred inside the stroked border [Delta, Delta + SIDE], Delta = LINE_WIDTH/2 (target.rb:23), with equal margins (SIDE − BULL)/2 on all four sides; it is not centred on the grid lines (see `Grid.BullOffCrosshair`) |
| `Layout.TargetBox` | target.rb:74-80 | the bounding box is SIDE + LINE_WIDTH square, horizontally centred; its bottom is at (height − SIDE)/2 and its top margin is one line width smaller |
| `Layout.CrosshairOffset` | target.rb:110 | with integer division of BOXES_PER_SIDE by 2 the crosshair offset is exactly SIDE/2, 3 inches |
| `Layout.RulerPlacement` | target.rb:56-59 | ruler_right − ruler_left is 1 in − LINE_WIDTH (71 pt); ruler_right leaves a right margin of (width − SIDE)/2, so it is the right edge of the centred square; the ruler is 8 pt above that square's top |
| `Layout.RulerSegments` | target.rb:62-64 | the baseline spans the ruler, and the two ticks are vertical, 8 pt long, centred on the baseline at its two ends |
| `Layout.RulerAlignsWithTarget` | target.rb:56-80 | with equal page margins m, the ruler (in the margin box) ends in page coordinates at the right edge of the page-centred square, half a line width inside the target box's right edge, and 8 pt above the square's top, which is 7 pt above the target box's top |
| `Grid.LineWidths` | target.rb:97-102 | the per-line width list (each entry `LineWidthAt`, chosen by the test `IsInchLine`) has one entry per interior line 1..BOXES_PER_SIDE−1, each LINE_WIDTH or INCH_LINE_WIDTH |
| `Grid.LineWidthsAtWholeInches` | target.rb:97-103 | entry k of the width list is INCH_LINE_WIDTH iff bpi > 1 and line k + 1 is a whole number of inches from the edge, and LINE_WIDTH otherwise |
| `Grid.InchLineIffWholeInches` | target.rb:98-103 | interior line i is emphasised iff the density is above one and its offset is a whole number of inches |
| `Grid.OffsetInside` | target.rb:103 | every interior line's offset lies strictly between 0 and SIDE_LENGTH |
| `Grid.DrawGrid` | target.rb:97-106 | one pair of strokes per interior line 1..BOXES_PER_SIDE−1, in order, evenly spaced strictly inside the square; each is INCH_LINE_WIDTH iff the density is above one and it lies on a whole inch, and LINE_WIDTH otherwise |
| `Grid.InchLinesUpToIsQuotient` | target.rb:97-98 | above one box per inch, lines 1..n include n / bpi emphasised ones |
| `Grid.CountPrefix` | target.rb:97-102 | the inch-width entries in the first n widths are the emphasised lines among 1..n |
| `Grid.EmphasisedLineCount` | target.rb:97-102 | exactly five interior lines are emphasised when bpi > 1, none when bpi = 1 |
| `Grid.NoneUpToAtOneBoxPerInch` | target.rb:98 | at one box per inch no line is emphasised |
| `Grid.Border` | target.rb:96 | the rectangle `stroke_bounds` draws is the target's bounding box, SIDE + LINE_WIDTH square, with its origin at the bottom-left corner |
| `Grid.Strokes` | target.rb:104-105 | a line's two strokes: a vertical one at x = offset from the bottom to the top of the bounds, and a horizontal one at y = offset from the left to the right edge |
| `Grid.ColumnWidths` | target.rb:74-105 | the first column and each interior column are SPACING wide; the last column and the last row are SPACING + LINE_WIDTH wide |
| `Grid.BullEdgesAgainstLines` | target.rb:84-105 | at an even density the bull's edges are Delta past lines 5·bpi/2 and 7·bpi/2; at an odd density they are half a square and Delta past those lines |
| `Grid.BullOffCrosshair` | target.rb:84-110 | the bull's centre is at CrosshairOffset + Delta on both axes: half a line width off the crosshair |
| `Grid.CrosshairOnMiddleLine` | target.rb:109-112 | the crosshair pair (`Grid.Crosshair`, width CROSSHAIR_LINE_WIDTH, stroked as `Grid.Strokes`) lies on the middle interior line, which is an inch line iff bpi > 1, and is wider than that line; its two strokes are exactly the middle line's strokes, drawn over them |

## Left out

- Document creation, fonts, colours, cell styling, `text` (including the
  `1"` label box at target.rb:67-69), `stroke_bounds`, and the library's
  rendering of `table`, `stroke_line` and `fill_rectangle`. These are calls
  into the PDF library, whose behaviour is not part of this model. The
  coordinates they are given are modelled: rectangles as `Rect`, strokes as
  `Segment`. A grid line is kept as its width and offset (`GridLine`), with
  its two strokes given by `Grid.Strokes`.
- Writing `target.pdf`: file output.
- Floating-point rounding. All values are exact reals. For example, `7/100.0`
  is inexact in the source, and the model uses exact 7/100. One configured
  distance sits exactly on a branch edge: at 50 yards moa_per_box is 1.0, the
  edge of the `to_i > 0` test (target.rb:30). A float just below 1.0 there
  would print "1 squares per MOA" instead of "1 square per MOA"
  (`DistanceTable.FiftyYardsOnPerSquareEdge`). The source gets the right label
  because 50/100.0 = 0.5, 0.5·2 = 1.0 and 1/1.0 = 1.0 are exact in binary
  floating point. The other configured distances give moa_per_box and
  boxes_per_moa values away from every edge.
- Moa.ClassifyBoxesPerMoa: the fractional form carries boxes_per_moa exactly,
  not the one-decimal text `%.1f` prints. The digits printed by `%d` are not
  modelled either.
- DistanceTable.Table: a row keeps its distance rather than the text
  `'%d yards'`.
- The colour constants (target.rb:7-9, 18) have no behaviour beyond the
  drawing calls.
- The assignment to `offset` at target.rb:84 is never read, so it is not
  modelled.
- Repeatability of the layout: every modelled value is a pure function of the
  density and the bounds, so it needs no separate statement.
