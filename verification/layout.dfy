/** Geometry of the target (target.rb:13-25, 56-59, 74-92, 110): box counts,
    lengths in points, the bull rectangle, the target's bounding box, the
    crosshair offset and the ruler. Every value is stated for an arbitrary
    density and arbitrary page bounds. */
module Layout {
  import opened Units
  import opened Config

  /** A point, y growing upward as in PDF coordinates. */
  datatype Point = Point(x: real, y: real)

  /** A rectangle given by its top-left corner, width and height, as
      `bounding_box` and `fill_rectangle` take it. */
  datatype Rect = Rect(topLeft: Point, width: real, height: real) {
    function Left(): real { topLeft.x }
    function Right(): real { topLeft.x + width }
    function Top(): real { topLeft.y }
    function Bottom(): real { topLeft.y - height }
  }

  /** The width and height of the bounds drawing happens in. */
  datatype Bounds = Bounds(width: real, height: real)

  /** BOXES_PER_SIDE: six inches of squares on a side. */
  function BoxesPerSide(bpi: Density): (n: int)
    ensures 0 < n
    ensures n as real * Spacing(bpi) == Inches(6.0)
  {
    assert (6 * bpi) as real * Spacing(bpi) == 6.0 * (Spacing(bpi) * bpi as real);
    6 * bpi
  }

  /** BOXES_PER_BULL_SIDE: the bull is one inch of squares on a side. */
  function BoxesPerBullSide(bpi: Density): (n: int)
    ensures 0 < n <= BoxesPerSide(bpi)
    ensures n as real * Spacing(bpi) == Inches(1.0)
  {
    bpi
  }

  /** SPACING: the side of one square; `bpi` squares make an inch. */
  function Spacing(bpi: Density): (s: real)
    ensures 0.0 < s
    ensures s * bpi as real == Inches(1.0)
  {
    Inches(1.0 / bpi as real)
  }

  /** DELTA: half the base line width. */
  const Delta: real := LineWidth / 2.0

  /** SIDE_LENGTH: six inches whatever the density. */
  function SideLength(bpi: Density): (l: real)
    ensures l == Inches(6.0)
  {
    Spacing(bpi) * BoxesPerSide(bpi) as real
  }

  /** BULL_LENGTH: one inch whatever the density, so the bull fits inside the
      target. */
  function BullLength(bpi: Density): (l: real)
    ensures l == Inches(1.0)
    ensures l <= SideLength(bpi)
  {
    Spacing(bpi) * BoxesPerBullSide(bpi) as real
  }

  /** The side and the bull are whole numbers of squares. */
  lemma WholeSquares(bpi: Density)
    ensures SideLength(bpi) / Spacing(bpi) == (6 * bpi) as real
    ensures BullLength(bpi) / Spacing(bpi) == bpi as real
  {
  }

  /** The filled bull (target.rb:84-92), in the coordinates of the target's
      bounding box, where the grid square spans [Delta, Delta + SideLength] on
      both axes. It is centred in that square: equal margins on all four
      sides. */
  function BullRect(bpi: Density): (r: Rect)
    ensures r.width == BullLength(bpi) && r.height == BullLength(bpi)
    ensures r.Left() - Delta == (SideLength(bpi) - BullLength(bpi)) / 2.0
    ensures r.Left() - Delta == (Delta + SideLength(bpi)) - r.Right()
    ensures r.Bottom() - Delta == (Delta + SideLength(bpi)) - r.Top()
    ensures r.Left() - Delta == r.Bottom() - Delta
    ensures Delta <= r.Left() && r.Right() <= Delta + SideLength(bpi)
  {
    var side, bull := SideLength(bpi), BullLength(bpi);
    Rect(Point(Delta + (side - bull) / 2.0, Delta + (side + bull) / 2.0), bull, bull)
  }

  /** The target's bounding box (target.rb:74-80) on a page of the given
      bounds: one line width wider and taller than the square. It is centred
      horizontally; vertically its bottom edge is where the bottom of a
      centred square would be, so it overhangs the centred square by a line
      width at the top only. */
  function TargetBox(bpi: Density, page: Bounds): (r: Rect)
    ensures r.width == SideLength(bpi) + LineWidth && r.height == r.width
    ensures r.Left() == page.width - r.Right()
    ensures r.Bottom() == (page.height - SideLength(bpi)) / 2.0
    ensures page.height - r.Top() == r.Bottom() - LineWidth
  {
    var side := SideLength(bpi);
    Rect(Point(Delta + (page.width - side) / 2.0 - LineWidth, (page.height + side) / 2.0 + LineWidth),
         side + LineWidth, side + LineWidth)
  }

  /** The crosshair offset (target.rb:110), with Ruby's integer division of
      BOXES_PER_SIDE by 2. The division is exact, so the crosshair is at half
      the side: three inches. */
  function CrosshairOffset(bpi: Density): (o: real)
    ensures o == SideLength(bpi) / 2.0
    ensures o == Inches(3.0)
  {
    var half := BoxesPerSide(bpi) / 2;
    assert half == 3 * bpi;
    assert half as real * Spacing(bpi) == 3.0 * (Spacing(bpi) * bpi as real);
    half as real * Spacing(bpi)
  }

  /** The ruler's two ends and its height (target.rb:56-59). */
  datatype Ruler = Ruler(left: real, right: real, y: real)

  /** The ruler in the given bounds: one inch less a line width long, ending at
      the right edge of the square centred in the bounds, eight points above
      the top of that square. */
  function RulerPlacement(bpi: Density, page: Bounds): (r: Ruler)
    ensures r.right - r.left == Inches(1.0) - LineWidth
    ensures r.right - r.left == Pt(71.0)
    ensures page.width - r.right == (page.width - SideLength(bpi)) / 2.0
    ensures r.y - Pt(8.0) == page.height - (page.height - SideLength(bpi)) / 2.0
  {
    var side := SideLength(bpi);
    var right := (page.width - side) / 2.0 + side;
    var width := Inches(1.0) - LineWidth;
    Ruler(right - width, right, (page.height - side) / 2.0 + side + Pt(8.0))
  }

  /** A straight segment drawn with `stroke_line`. */
  datatype Segment = Segment(from: Point, to: Point)

  /** The ruler's baseline and its two end ticks (target.rb:62-64). */
  function RulerSegments(r: Ruler): (s: seq<Segment>)
    ensures |s| == 3
    ensures s[0].from == Point(r.left, r.y) && s[0].to == Point(r.right, r.y)
    ensures forall k :: 1 <= k < 3 ==>
              s[k].from.x == s[k].to.x && s[k].to.y - s[k].from.y == Pt(8.0)
              && (s[k].from.y + s[k].to.y) / 2.0 == r.y
    ensures s[1].from.x == r.left && s[2].from.x == r.right
  {
    [ Segment(Point(r.left, r.y), Point(r.right, r.y)),
      Segment(Point(r.left, r.y - Pt(4.0)), Point(r.left, r.y + Pt(4.0))),
      Segment(Point(r.right, r.y - Pt(4.0)), Point(r.right, r.y + Pt(4.0))) ]
  }

  /** The ruler is placed in the page's margin box, the target on the whole
      page (`canvas`). With equal margins m on every side the ruler, taken to
      page coordinates, ends half a line width inside the right edge of the
      target's box, that is on the right edge of the page-centred square, and
      lies eight points above that square's top, which is seven points above
      the top of the target's box. */
  lemma RulerAlignsWithTarget(bpi: Density, page: Bounds, m: real)
    ensures var ruler := RulerPlacement(bpi, Bounds(page.width - 2.0 * m, page.height - 2.0 * m));
            var box := TargetBox(bpi, page);
            && m + ruler.right == box.Right() - Delta
            && m + ruler.right == (page.width + SideLength(bpi)) / 2.0
            && m + ruler.y == box.Bottom() + SideLength(bpi) + Pt(8.0)
            && m + ruler.y == box.Top() + Pt(7.0)
  {
  }
}
