/** The interior grid lines and the crosshair (target.rb:97-112). Line `i`,
    for `i` from 1 to BOXES_PER_SIDE - 1, is drawn as one vertical and one
    horizontal stroke at `i * SPACING`, across the whole bounding box, whose
    edges are stroked too. Coordinates are those of the bounding box, origin
    at its bottom-left corner. */
module Grid {
  import opened Units
  import opened Config
  import opened Layout
  import Numeric

  /** The width set by `line_width` and the offset of one pair of strokes. */
  datatype GridLine = GridLine(width: real, offset: real)

  /** The condition of target.rb:98 for line `i`. */
  predicate IsInchLine(bpi: Density, i: int) {
    bpi > 1 && i % bpi == 0
  }

  function LineWidthAt(bpi: Density, i: int): real {
    if IsInchLine(bpi, i) then InchLineWidth else LineWidth
  }

  function LineOffset(bpi: Density, i: int): real {
    i as real * Spacing(bpi)
  }

  /** A length that is a whole number of inches. */
  predicate WholeInches(o: real) {
    (o / PointsPerInch).Floor as real == o / PointsPerInch
  }

  /** The widths of the interior lines, line 1 first. */
  function LineWidths(bpi: Density): (ws: seq<real>)
    ensures |ws| == BoxesPerSide(bpi) - 1
    ensures forall k :: 0 <= k < |ws| ==> ws[k] == LineWidth || ws[k] == InchLineWidth
  {
    seq(BoxesPerSide(bpi) - 1, k requires 0 <= k => LineWidthAt(bpi, k + 1))
  }

  /** Each width of the list is the inch width exactly for the lines a whole
      number of inches from the edge, above one box per inch. */
  lemma LineWidthsAtWholeInches(bpi: Density)
    ensures forall k :: 0 <= k < |LineWidths(bpi)| ==>
              (LineWidths(bpi)[k] == InchLineWidth <==> bpi > 1 && WholeInches(LineOffset(bpi, k + 1)))
    ensures forall k :: 0 <= k < |LineWidths(bpi)| ==>
              (LineWidths(bpi)[k] == LineWidth <==> !(bpi > 1 && WholeInches(LineOffset(bpi, k + 1))))
  {
    forall k | 0 <= k < |LineWidths(bpi)|
      ensures LineWidths(bpi)[k] == InchLineWidth <==> bpi > 1 && WholeInches(LineOffset(bpi, k + 1))
    {
      InchLineIffWholeInches(bpi, k + 1);
    }
  }

  /** The interior line widths, checked one condition per line as the source's
      loop does: a line is emphasised exactly when the density is above one and
      the line lies a whole number of inches from the edge. */
  lemma InchLineIffWholeInches(bpi: Density, i: int)
    ensures IsInchLine(bpi, i) <==> bpi > 1 && WholeInches(LineOffset(bpi, i))
  {
    var x := LineOffset(bpi, i) / PointsPerInch;
    OffsetInInches(bpi, i);
    Numeric.FloorOfRatio(i, bpi);
    var q := i / bpi;
    if q as real == x {
      assert (q * bpi) as real == i as real by {
        assert q as real * bpi as real == x * bpi as real;
      }
      Numeric.DivModUnique(i, bpi, q, 0);
    }
    if i % bpi == 0 {
      assert i == bpi * q;
      assert x == q as real;
    }
  }

  /** What the source's loop draws for interior line i, listed as line k = i - 1. */
  predicate DrawnAs(bpi: Density, k: int, g: GridLine) {
    && g.offset == (k + 1) as real * Spacing(bpi)
    && 0.0 < g.offset < SideLength(bpi)
    && (g.width == InchLineWidth <==> bpi > 1 && WholeInches(g.offset))
    && (g.width == InchLineWidth || g.width == LineWidth)
    && 0 <= k < |LineWidths(bpi)| && g.width == LineWidths(bpi)[k]
  }

  lemma LineDrawnAs(bpi: Density, i: int, width: real)
    requires 1 <= i < BoxesPerSide(bpi)
    requires width == if bpi > 1 && i % bpi == 0 then InchLineWidth else LineWidth
    ensures DrawnAs(bpi, i - 1, GridLine(width, LineOffset(bpi, i)))
  {
    InchLineIffWholeInches(bpi, i);
    OffsetInside(bpi, i);
  }

  /** Interior lines lie strictly inside the square. */
  lemma OffsetInside(bpi: Density, i: int)
    requires 1 <= i < BoxesPerSide(bpi)
    ensures 0.0 < LineOffset(bpi, i) < SideLength(bpi)
  {
  }

  /** Line i lies i / bpi inches from the edge. */
  lemma OffsetInInches(bpi: Density, i: int)
    ensures LineOffset(bpi, i) / PointsPerInch == i as real / bpi as real
  {
    assert Spacing(bpi) * bpi as real == PointsPerInch;
  }

  /** `(1..BOXES_PER_SIDE - 1).each`: the interior lines in order, each with
      the width chosen by target.rb:98-102 and the offset of target.rb:103. */
  method DrawGrid(bpi: Density) returns (lines: seq<GridLine>)
    ensures |lines| == BoxesPerSide(bpi) - 1
    ensures forall k :: 0 <= k < |lines| ==> lines[k].offset == (k + 1) as real * Spacing(bpi)
    ensures forall k :: 0 <= k < |lines| ==> 0.0 < lines[k].offset < SideLength(bpi)
    ensures forall k :: 0 <= k < |lines| ==>
              (lines[k].width == InchLineWidth <==> bpi > 1 && WholeInches(lines[k].offset))
    ensures forall k :: 0 <= k < |lines| ==>
              lines[k].width == InchLineWidth || lines[k].width == LineWidth
    ensures forall k :: 0 <= k < |lines| ==> lines[k].width == LineWidths(bpi)[k]
  {
    var n := BoxesPerSide(bpi);
    lines := [];
    var i := 1;
    while i < n
      invariant 1 <= i <= n
      invariant |lines| == i - 1
      invariant forall k :: 0 <= k < |lines| ==> DrawnAs(bpi, k, lines[k])
    {
      var width := if bpi > 1 && i % bpi == 0 then InchLineWidth else LineWidth;
      LineDrawnAs(bpi, i, width);
      lines := lines + [GridLine(width, LineOffset(bpi, i))];
      i := i + 1;
    }
  }

  /** Number of entries of `ws` equal to `w`. */
  function Count(ws: seq<real>, w: real): nat {
    if |ws| == 0 then 0
    else Count(ws[..|ws| - 1], w) + (if ws[|ws| - 1] == w then 1 else 0)
  }

  /** Number of inch lines among lines 1..n. */
  function InchLinesUpTo(bpi: Density, n: nat): nat {
    if n == 0 then 0 else InchLinesUpTo(bpi, n - 1) + (if IsInchLine(bpi, n) then 1 else 0)
  }

  /** Above one box per inch, every bpi-th line is an inch line. */
  lemma {:induction false} InchLinesUpToIsQuotient(bpi: Density, n: nat)
    requires bpi > 1
    ensures InchLinesUpTo(bpi, n) == n / bpi
  {
    if n > 0 {
      InchLinesUpToIsQuotient(bpi, n - 1);
      var q, r := (n - 1) / bpi, (n - 1) % bpi;
      if r == bpi - 1 {
        Numeric.DivModUnique(n, bpi, q + 1, 0);
      } else {
        Numeric.DivModUnique(n, bpi, q, r + 1);
      }
    }
  }

  /** The widths counted over a prefix agree with the count of inch lines. */
  lemma {:induction false} CountPrefix(bpi: Density, n: nat)
    requires n <= |LineWidths(bpi)|
    ensures Count(LineWidths(bpi)[..n], InchLineWidth) == InchLinesUpTo(bpi, n)
  {
    if n > 0 {
      var ws := LineWidths(bpi);
      assert ws[..n][..n - 1] == ws[..n - 1];
      CountPrefix(bpi, n - 1);
    }
  }

  /** Five of the interior lines are emphasised when there is more than one
      box per inch (one per inch, the edges being drawn by the box's border),
      and none at one box per inch. */
  lemma EmphasisedLineCount(bpi: Density)
    ensures Count(LineWidths(bpi), InchLineWidth) == if bpi > 1 then 5 else 0
  {
    var ws := LineWidths(bpi);
    CountPrefix(bpi, |ws|);
    assert ws[..|ws|] == ws;
    if bpi > 1 {
      InchLinesUpToIsQuotient(bpi, 6 * bpi - 1);
      Numeric.DivModUnique(6 * bpi - 1, bpi, 5, bpi - 1);
    } else {
      NoneUpToAtOneBoxPerInch(bpi, |ws|);
    }
  }

  lemma {:induction false} NoneUpToAtOneBoxPerInch(bpi: Density, n: nat)
    requires bpi == 1
    ensures InchLinesUpTo(bpi, n) == 0
  {
    if n > 0 {
      NoneUpToAtOneBoxPerInch(bpi, n - 1);
    }
  }

  /** The bounds strokes are drawn in: the target's bounding box, in its own
      coordinates. `stroke_bounds` draws this rectangle. */
  function Border(bpi: Density): (r: Rect)
    ensures r.Left() == 0.0 && r.Bottom() == 0.0
    ensures forall page :: r.width == TargetBox(bpi, page).width && r.height == TargetBox(bpi, page).height
  {
    var side := SideLength(bpi) + LineWidth;
    Rect(Point(0.0, side), side, side)
  }

  /** The two `stroke_line` calls for a line (target.rb:104-105, 111-112): a
      vertical stroke at x = offset from the bottom to the top of the bounds,
      and a horizontal stroke at y = offset from the left to the right. */
  function Strokes(bpi: Density, g: GridLine): (s: seq<Segment>)
    ensures |s| == 2
    ensures s[0].from.x == g.offset && s[0].to.x == g.offset
    ensures s[0].from.y == Border(bpi).Bottom() && s[0].to.y == Border(bpi).Top()
    ensures s[1].from.y == g.offset && s[1].to.y == g.offset
    ensures s[1].from.x == Border(bpi).Left() && s[1].to.x == Border(bpi).Right()
  {
    var b := Border(bpi);
    [Segment(Point(g.offset, 0.0), Point(g.offset, b.height)),
     Segment(Point(0.0, g.offset), Point(b.width, g.offset))]
  }

  /** The lines and the border cut the box into columns (and, the strokes
      being symmetric, rows): every one is SPACING wide except the last, which
      also takes the line width the box adds to the square. */
  lemma ColumnWidths(bpi: Density)
    ensures LineOffset(bpi, 1) - Border(bpi).Left() == Spacing(bpi)
    ensures forall i :: 1 <= i < BoxesPerSide(bpi) - 1 ==>
              LineOffset(bpi, i + 1) - LineOffset(bpi, i) == Spacing(bpi)
    ensures Border(bpi).Right() - LineOffset(bpi, BoxesPerSide(bpi) - 1) == Spacing(bpi) + LineWidth
    ensures Border(bpi).Top() - LineOffset(bpi, BoxesPerSide(bpi) - 1) == Spacing(bpi) + LineWidth
  {
  }

  /** The bull's edges against the grid lines. At an even density the bull
      starts half a line width past line 5·bpi/2 and ends half a line width
      past line 7·bpi/2; at an odd density each edge lies half a square past
      a line. */
  lemma BullEdgesAgainstLines(bpi: Density)
    ensures bpi % 2 == 0 ==>
              && BullRect(bpi).Left() == LineOffset(bpi, 5 * bpi / 2) + Delta
              && BullRect(bpi).Right() == LineOffset(bpi, 7 * bpi / 2) + Delta
              && BullRect(bpi).Bottom() == BullRect(bpi).Left()
    ensures bpi % 2 == 1 ==>
              && BullRect(bpi).Left() == LineOffset(bpi, 5 * bpi / 2) + Spacing(bpi) / 2.0 + Delta
              && BullRect(bpi).Right() == LineOffset(bpi, 7 * bpi / 2) + Spacing(bpi) / 2.0 + Delta
              && BullRect(bpi).Bottom() == BullRect(bpi).Left()
  {
    var k, s := bpi / 2, Spacing(bpi);
    assert s * bpi as real == 72.0;
    if bpi % 2 == 0 {
      assert 5 * bpi / 2 == 5 * k && 7 * bpi / 2 == 7 * k;
      assert k as real * s == 36.0 by {
        assert bpi as real == 2.0 * k as real;
      }
      assert LineOffset(bpi, 5 * k) == 5.0 * (k as real * s);
      assert LineOffset(bpi, 7 * k) == 7.0 * (k as real * s);
    } else {
      assert 5 * bpi / 2 == 5 * k + 2 && 7 * bpi / 2 == 7 * k + 3;
      assert k as real * s + s / 2.0 == 36.0 by {
        assert bpi as real == 2.0 * k as real + 1.0;
      }
      assert LineOffset(bpi, 5 * k + 2) == 5.0 * (k as real * s) + 2.0 * s;
      assert LineOffset(bpi, 7 * k + 3) == 7.0 * (k as real * s) + 3.0 * s;
    }
  }

  /** The crosshair strokes (target.rb:109-112). */
  function Crosshair(bpi: Density): GridLine {
    GridLine(CrosshairLineWidth, CrosshairOffset(bpi))
  }

  /** The crosshair lies on the middle interior line, which is an inch line
      whenever the density is above one, and is drawn wider than any grid
      line, over that line's own strokes. */
  lemma CrosshairOnMiddleLine(bpi: Density)
    ensures var mid := BoxesPerSide(bpi) / 2;
            && 1 <= mid < BoxesPerSide(bpi)
            && Crosshair(bpi).offset == LineOffset(bpi, mid)
            && (IsInchLine(bpi, mid) <==> bpi > 1)
            && Crosshair(bpi).width > LineWidthAt(bpi, mid)
            && Strokes(bpi, Crosshair(bpi)) == Strokes(bpi, GridLine(LineWidthAt(bpi, mid), LineOffset(bpi, mid)))
  {
  }

  /** The bull is centred in the stroked border [Delta, Delta + SIDE], so its
      centre is half a line width right of and above the crosshair, on both
      axes. */
  lemma BullOffCrosshair(bpi: Density)
    ensures (BullRect(bpi).Left() + BullRect(bpi).Right()) / 2.0 == Crosshair(bpi).offset + Delta
    ensures (BullRect(bpi).Bottom() + BullRect(bpi).Top()) / 2.0 == Crosshair(bpi).offset + Delta
    ensures Delta == Pt(0.5)
  {
  }
}
