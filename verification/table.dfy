/** The distance table (target.rb:46-47): one row per configured distance,
    in order, pairing the distance with its MOA label. The row's first cell is
    the text "<yards> yards"; the model keeps the distance it is printed
    from. */
module DistanceTable {
  import opened Config
  import opened Results
  import opened Moa
  import opened MoaExact

  datatype Row = Row(yards: int, description: Label)

  /** The table rows: each distance, in order, with its MOA label. The map
      stops at the first distance whose label raises. */
  function Table(ys: seq<int>, bpi: Density): (r: Result<seq<Row>>)
    ensures r.Success? <==> forall i :: 0 <= i < |ys| ==> ys[i] != 0
    ensures r.Success? ==> |r.value| == |ys|
    ensures r.Success? ==> forall i :: 0 <= i < |ys| ==>
              r.value[i].yards == ys[i] && Classify(ys[i], bpi) == Success(r.value[i].description)
  {
    if |ys| == 0 then Success([])
    else
      match Classify(ys[0], bpi)
      case Failure(e) => Failure(e)
      case Success(l) =>
        match Table(ys[1..], bpi)
        case Failure(e) => Failure(e)
        case Success(rows) => Success([Row(ys[0], l)] + rows)
  }

  /** The labels the source prints with two boxes per inch. The fractional
      form is never reached by the configured distances. */
  lemma ConfiguredLabels()
    ensures Classify(7, BoxesPerInch) == Success(MoaPerSquare(7))
    ensures Classify(10, BoxesPerInch) == Success(MoaPerSquare(5))
    ensures Classify(15, BoxesPerInch) == Success(MoaPerSquare(3))
    ensures Classify(25, BoxesPerInch) == Success(MoaPerSquare(2))
    ensures Classify(50, BoxesPerInch) == Success(OneSquarePerMoa)
    ensures Classify(100, BoxesPerInch) == Success(SquaresPerMoa(2))
    ensures Classify(200, BoxesPerInch) == Success(SquaresPerMoa(4))
    ensures Classify(300, BoxesPerInch) == Success(SquaresPerMoa(6))
  {
    LabelFromExact(7, MoaPerSquare(7));
    LabelFromExact(10, MoaPerSquare(5));
    LabelFromExact(15, MoaPerSquare(3));
    LabelFromExact(25, MoaPerSquare(2));
    LabelFromExact(50, OneSquarePerMoa);
    assert (200 + 50) / 100 == 2 && (400 + 50) / 100 == 4 && (600 + 50) / 100 == 6;
    LabelFromExact(100, SquaresPerMoa(2));
    LabelFromExact(200, SquaresPerMoa(4));
    LabelFromExact(300, SquaresPerMoa(6));
  }

  /** Reads a configured label off the integer reference. */
  lemma LabelFromExact(yards: int, l: Label)
    requires yards != 0 && ExactLabel(yards * BoxesPerInch) == l
    ensures Classify(yards, BoxesPerInch) == Success(l)
  {
    ClassifyMatchesExact(yards, BoxesPerInch);
  }

  /** The table the source renders: eight rows in the order of YARDS. */
  lemma ConfiguredTable()
    ensures Table(Yards, BoxesPerInch) == Success([
      Row(7, MoaPerSquare(7)), Row(10, MoaPerSquare(5)), Row(15, MoaPerSquare(3)),
      Row(25, MoaPerSquare(2)), Row(50, OneSquarePerMoa), Row(100, SquaresPerMoa(2)),
      Row(200, SquaresPerMoa(4)), Row(300, SquaresPerMoa(6))])
    ensures forall i :: 0 <= i < |Yards| ==> !Table(Yards, BoxesPerInch).value[i].description.SquaresPerMoaFrac?
  {
    ConfiguredLabels();
    var expected := [Row(7, MoaPerSquare(7)), Row(10, MoaPerSquare(5)), Row(15, MoaPerSquare(3)),
                     Row(25, MoaPerSquare(2)), Row(50, OneSquarePerMoa), Row(100, SquaresPerMoa(2)),
                     Row(200, SquaresPerMoa(4)), Row(300, SquaresPerMoa(6))];
    assert Yards == [7, 10, 15, 25, 50, 100, 200, 300];
    TableOfLabels(Yards, BoxesPerInch, expected);
  }

  /** A table is determined by its rows' labels. */
  lemma TableOfLabels(ys: seq<int>, bpi: Density, rows: seq<Row>)
    requires |rows| == |ys|
    requires forall i :: 0 <= i < |ys| ==>
               rows[i].yards == ys[i] && Classify(ys[i], bpi) == Success(rows[i].description)
    ensures Table(ys, bpi) == Success(rows)
  {
    forall i | 0 <= i < |ys|
      ensures ys[i] != 0
    {
      assert Classify(ys[i], bpi).Success?;
    }
    var t := Table(ys, bpi);
    forall i | 0 <= i < |ys|
      ensures t.value[i] == rows[i]
    {
      assert Classify(ys[i], bpi) == Success(t.value[i].description);
    }
    assert t.value == rows;
  }

  /** At 50 yards and two boxes per inch one square is exactly one MOA, the
      edge of the `to_i > 0` test: exactly 1.0 gives "1 square per MOA", and a
      boxes_per_moa value just above it gives "1 squares per MOA". */
  lemma FiftyYardsOnPerSquareEdge()
    ensures BoxesPerMoa(50, BoxesPerInch) == 1.0 && MoaPerBox(50, BoxesPerInch) == 1.0
    ensures Classify(50, BoxesPerInch) == Success(ClassifyBoxesPerMoa(1.0))
    ensures ClassifyBoxesPerMoa(1.0) == OneSquarePerMoa
    ensures ClassifyBoxesPerMoa(1.0 + 1.0 / 1000000.0) == SquaresPerMoa(1)
  {
  }

  /** The fractional form is reachable in general: at 75 yards and two boxes
      per inch one MOA spans 1.5 squares. */
  lemma FractionalFormReachable()
    ensures Classify(75, BoxesPerInch) == Success(SquaresPerMoaFrac(1.5))
  {
    LabelFromExact(75, SquaresPerMoaFrac(1.5));
  }
}
