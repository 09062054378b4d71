/** The MOA label of a shooting distance (`moa_string`, target.rb:27-41).

    At `yards` yards one minute of arc spans `yards / 100` inches (the source's
    approximation), so one MOA covers `yards / 100 * bpi` grid squares. The
    label names whichever of "squares per MOA" or "MOA per square" is at least
    one. The label is kept as a datatype; its rendering as text is not
    modelled. */
module Moa {
  import opened Numeric
  import opened Config
  import opened Results

  /** The four label forms:
      "1 square per MOA", "n MOA per square", "n squares per MOA" and
      "x.x squares per MOA" (x kept exact, not rounded to one digit). */
  datatype Label =
    | OneSquarePerMoa
    | MoaPerSquare(n: int)
    | SquaresPerMoa(n: int)
    | SquaresPerMoaFrac(x: real)

  /** The "per square" forms, chosen when one square subtends at least one MOA. */
  predicate PerSquare(l: Label) {
    l.OneSquarePerMoa? || l.MoaPerSquare?
  }

  /** boxes_per_moa: grid squares spanned by one MOA at `yards` yards. It
      depends on the distance and the density only through their product. */
  function BoxesPerMoa(yards: int, bpi: Density): (b: real)
    ensures b == (yards * bpi) as real / 100.0
    ensures b == 0.0 <==> yards == 0
    ensures 0.0 < b <==> 0 < yards
  {
    (yards as real / 100.0) * bpi as real
  }

  /** moa_per_box: minutes of arc subtended by one grid square. */
  function MoaPerBox(yards: int, bpi: Density): (m: real)
    requires yards != 0
    ensures m * BoxesPerMoa(yards, bpi) == 1.0
  {
    1.0 / BoxesPerMoa(yards, bpi)
  }

  /** The classifier proper, on a non-zero boxes-per-MOA value `b`. */
  function ClassifyBoxesPerMoa(b: real): (l: Label)
    requires b != 0.0
    ensures PerSquare(l) <==> 0.0 < b <= 1.0
    ensures l.MoaPerSquare? ==> 2 <= l.n
    ensures l.SquaresPerMoa? ==> 1.0 < b && 1 <= l.n && Abs(b - l.n as real) <= b / 10.0
    ensures l.SquaresPerMoaFrac? ==> l.x == b && (b < 0.0 || 1.0 < b)
  {
    var m := 1.0 / b;
    if Trunc(m) > 0 then
      if Round(m) == 1 then OneSquarePerMoa else MoaPerSquare(Round(m))
    else if Abs(b - Round(b) as real) <= b * 0.1 then
      SquaresPerMoa(Round(b))
    else
      SquaresPerMoaFrac(b)
  }

  /** moa_string: the label of `yards` at density `bpi`. At zero yards the
      source divides by zero, obtains Infinity and `Infinity.to_i` raises. */
  function Classify(yards: int, bpi: Density): (r: Result<Label>)
    ensures r.Failure? <==> yards == 0
    ensures r.Success? ==> (PerSquare(r.value) <==> 0 < yards * bpi <= 100)
    ensures r.Success? && r.value.SquaresPerMoaFrac? ==> r.value.x == BoxesPerMoa(yards, bpi)
  {
    if yards == 0 then Failure(FloatDomainError)
    else Success(ClassifyBoxesPerMoa(BoxesPerMoa(yards, bpi)))
  }

  /** The "per square" forms are chosen exactly when moa_per_box truncates to
      a positive integer, that is when one square subtends at least one MOA. */
  lemma PerSquareIffOneMoaPerBox(yards: int, bpi: Density)
    requires yards != 0
    ensures PerSquare(Classify(yards, bpi).value) <==> Trunc(MoaPerBox(yards, bpi)) > 0
    ensures PerSquare(Classify(yards, bpi).value) <==> MoaPerBox(yards, bpi) >= 1.0
  {
  }

  /** Within the "per square" forms: one square per MOA exactly when
      moa_per_box rounds to 1, and otherwise its rounded value, at least 2. */
  lemma PerSquareForms(yards: int, bpi: Density)
    requires yards != 0 && MoaPerBox(yards, bpi) >= 1.0
    ensures Classify(yards, bpi).value == OneSquarePerMoa <==> Round(MoaPerBox(yards, bpi)) == 1
    ensures Classify(yards, bpi).value != OneSquarePerMoa ==>
              Classify(yards, bpi).value == MoaPerSquare(Round(MoaPerBox(yards, bpi)))
              && 2 <= Round(MoaPerBox(yards, bpi))
  {
  }

  /** Below one MOA per square: the whole number of squares per MOA exactly
      when boxes_per_moa lies within 10% of its rounded value, boundary
      included; otherwise boxes_per_moa itself. */
  lemma SquaresPerMoaForms(yards: int, bpi: Density)
    requires yards != 0 && MoaPerBox(yards, bpi) < 1.0
    ensures var b := BoxesPerMoa(yards, bpi);
            (Classify(yards, bpi).value == SquaresPerMoa(Round(b))
             <==> Abs(b - Round(b) as real) <= b / 10.0)
    ensures var b := BoxesPerMoa(yards, bpi);
            !Classify(yards, bpi).value.SquaresPerMoa? ==>
              Classify(yards, bpi).value == SquaresPerMoaFrac(b)
  {
  }

  /** The 10% band is inclusive: a boxes_per_moa value exactly on its edge
      gets the whole number label, and one just past the edge gets the
      fractional one. */
  lemma ToleranceBoundaryIsInclusive()
    ensures ClassifyBoxesPerMoa(10.0 / 9.0) == SquaresPerMoa(1)
    ensures ClassifyBoxesPerMoa(10.0 / 9.0 + 0.001) == SquaresPerMoaFrac(10.0 / 9.0 + 0.001)
  {
  }
}
