/** An integer-only reference for the MOA label, stated on the product
    `p = yards * bpi` (one hundred times boxes_per_moa), and its agreement with
    the real-valued classifier for every distance and density. */
module MoaExact {
  import opened Numeric
  import opened Config
  import opened Moa

  function IAbs(i: int): nat {
    if i < 0 then -i else i
  }

  /** The label read off `p` with integer arithmetic alone:
      - negative p: the fractional form;
      - 0 < p <= 100 (at least one MOA per square): one square per MOA when
        100 / p is below 1.5, else 100 / p rounded half up;
      - p > 100: p / 100 rounded half up when it is within a tenth of p / 100,
        else the fractional form. */
  function ExactLabel(p: int): Label
    requires p != 0
  {
    if p < 0 then SquaresPerMoaFrac(p as real / 100.0)
    else if p <= 100 then
      if 200 < 3 * p then OneSquarePerMoa else MoaPerSquare((200 + p) / (2 * p))
    else
      var n := (p + 50) / 100;
      if 10 * IAbs(p - 100 * n) <= p then SquaresPerMoa(n)
      else SquaresPerMoaFrac(p as real / 100.0)
  }

  /** moa_string agrees with the integer reference for every non-zero distance
      and every density. */
  lemma ClassifyMatchesExact(yards: int, bpi: Density)
    requires yards != 0
    ensures Classify(yards, bpi) == Results.Success(ExactLabel(yards * bpi))
  {
    var p := yards * bpi;
    assert p != 0;
    ClassifyBoxesPerMoaMatchesExact(p);
  }

  lemma ClassifyBoxesPerMoaMatchesExact(p: int)
    requires p != 0
    ensures ClassifyBoxesPerMoa(p as real / 100.0) == ExactLabel(p)
  {
    var b := p as real / 100.0;
    if p < 0 {
      assert Trunc(1.0 / b) <= 0;
    } else {
      assert 1.0 / b == 100.0 / p as real;
      FloorOfRatio(100, p);
      assert Trunc(1.0 / b) == 100 / p;
      if p <= 100 {
        PerSquareMatchesExact(p);
      } else {
        SquaresPerMoaMatchesExact(p);
      }
    }
  }

  /** At least one MOA per square: moa_per_box = 100 / p, rounded half up. */
  lemma PerSquareMatchesExact(p: int)
    requires 0 < p <= 100
    ensures Round(100.0 / p as real) == (200 + p) / (2 * p)
    ensures (200 + p) / (2 * p) == 1 <==> 200 < 3 * p
  {
    var m := 100.0 / p as real;
    assert m + 0.5 == (200 + p) as real / (2 * p) as real;
    FloorOfRatio(200 + p, 2 * p);
    RoundedQuotientIsOne(p);
  }

  /** Less than one MOA per square: boxes_per_moa = p / 100 rounded half up,
      and the 10% band read on integers. */
  lemma SquaresPerMoaMatchesExact(p: int)
    requires 100 < p
    ensures var b := p as real / 100.0;
            var n := (p + 50) / 100;
            && Round(b) == n
            && (Abs(b - n as real) <= b * 0.1 <==> 10 * IAbs(p - 100 * n) <= p)
  {
  }

  /** 100 / p rounded half up is 1 exactly when 3 * p exceeds 200. */
  lemma RoundedQuotientIsOne(p: int)
    requires 0 < p <= 100
    ensures (200 + p) / (2 * p) == 1 <==> 200 < 3 * p
  {
  }

  /** "n MOA per square" labels name between 2 and 100 MOA: one square spans
      at most 100 MOA because yards * bpi is at least 1. */
  lemma MoaPerSquareRange(yards: int, bpi: Density)
    requires yards != 0 && Classify(yards, bpi).value.MoaPerSquare?
    ensures 2 <= Classify(yards, bpi).value.n <= 100
  {
    ClassifyMatchesExact(yards, bpi);
    var p := yards * bpi;
    assert 0 < p <= 66;
    assert (200 + p) / (2 * p) <= 100;
  }

  /** With whole distances and densities the edge of the inclusive 10% band
      is never met exactly: the boundary case only arises for densities that
      are not hundredths. */
  lemma ToleranceBoundaryMissedByWholeProducts(yards: int, bpi: Density)
    requires yards * bpi > 100
    ensures var b := BoxesPerMoa(yards, bpi);
            Abs(b - Round(b) as real) != b / 10.0
  {
  }
}
