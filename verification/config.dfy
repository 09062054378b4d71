/** Units of length and the configuration constants at the top of target.rb.

    Lengths are exact reals measured in PostScript points. The source writes
    its lengths with the measurement extensions of the PDF library, where
    `x.in` is `72 * x` points and `x.pt` is `x` itself. */
module Units {

  /** Points per inch, as used by the `.in` measurement extension. */
  const PointsPerInch: real := 72.0

  /** `x.in`: a length of x inches, in points. */
  function Inches(x: real): real {
    PointsPerInch * x
  }

  /** `x.pt`: a length of x points (the identity). */
  function Pt(x: real): real {
    x
  }
}

/** Grid density and the fixed lists of the target. */
module Config {
  import opened Units

  /** A grid density in boxes per inch. The source fixes it to 2; the model
      admits every positive integer. */
  type Density = n: int | 0 < n witness 1

  /** BOXES_PER_INCH. */
  const BoxesPerInch: Density := 2

  /** YARDS: the shooting distances listed in the table, in table order. */
  const Yards: seq<int> := [7, 10, 15, 25, 50, 100, 200, 300]

  /** LINE_WIDTH, INCH_LINE_WIDTH and CROSSHAIR_LINE_WIDTH, in points. */
  const LineWidth: real := Pt(1.0)
  const InchLineWidth: real := Pt(3.0)
  const CrosshairLineWidth: real := Pt(6.0)
}
