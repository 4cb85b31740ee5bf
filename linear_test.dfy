/**
  The linear test of unittest.cpp: the three points (-1, 7), (0, 4), (1, 9) are
  inserted into an interpolator. The names are kept from that test, although
  the curve through the points is the quadratic 4x^2 + x + 4 and the arithmetic
  here is exact `real` rather than `double`. The source test only inserts the
  points; the refused second insert at x = 0 and the four `Calc` queries (at the
  three points, and at x = 2 where the quadratic is 22) are checks added here.
 */
module LinearTest {
  import opened CosineKitty

  /** The records after inserting (-1, 7), (0, 4) and (1, 9) in that order. */
  lemma LinearTestRecords()
    ensures Inserted(Inserted(Inserted([], -1.0, 7.0), 0.0, 4.0), 1.0, 9.0) ==
      [Coefficient(DataPoint(-1.0, 7.0), [0.0, 1.0], 2.0),
       Coefficient(DataPoint(0.0, 4.0), [-1.0, 1.0], -1.0),
       Coefficient(DataPoint(1.0, 9.0), [-1.0, 0.0], 2.0)]
  {
    var r1 := [Coefficient(DataPoint(-1.0, 7.0), [], 1.0)];
    var r2 := [Coefficient(DataPoint(-1.0, 7.0), [0.0], -1.0),
               Coefficient(DataPoint(0.0, 4.0), [-1.0], 1.0)];
    FirstRecord();
    SecondRecord(r1);
    ThirdRecord(r2);
  }

  lemma FirstRecord()
    ensures Inserted([], -1.0, 7.0) == [Coefficient(DataPoint(-1.0, 7.0), [], 1.0)]
  {
    InsertedRecords([], -1.0, 7.0);
  }

  lemma SecondRecord(r1: seq<Coefficient>)
    requires r1 == [Coefficient(DataPoint(-1.0, 7.0), [], 1.0)]
    ensures Inserted(r1, 0.0, 4.0) ==
      [Coefficient(DataPoint(-1.0, 7.0), [0.0], -1.0),
       Coefficient(DataPoint(0.0, 4.0), [-1.0], 1.0)]
  {
    var r2 := Inserted(r1, 0.0, 4.0);
    InsertedRecords(r1, 0.0, 4.0);
    assert Xs(r1) == [-1.0];
    assert RootProduct(0.0, [-1.0]) == 1.0 by { assert [-1.0][..0] == []; }
    assert r2[0] == Coefficient(DataPoint(-1.0, 7.0), [0.0], -1.0);
    assert r2[1] == Coefficient(DataPoint(0.0, 4.0), [-1.0], 1.0);
  }

  lemma ThirdRecord(r2: seq<Coefficient>)
    requires r2 == [Coefficient(DataPoint(-1.0, 7.0), [0.0], -1.0),
                    Coefficient(DataPoint(0.0, 4.0), [-1.0], 1.0)]
    ensures Inserted(r2, 1.0, 9.0) ==
      [Coefficient(DataPoint(-1.0, 7.0), [0.0, 1.0], 2.0),
       Coefficient(DataPoint(0.0, 4.0), [-1.0, 1.0], -1.0),
       Coefficient(DataPoint(1.0, 9.0), [-1.0, 0.0], 2.0)]
  {
    var r3 := Inserted(r2, 1.0, 9.0);
    InsertedRecords(r2, 1.0, 9.0);
    assert Xs(r2) == [-1.0, 0.0];
    assert RootProduct(1.0, [-1.0, 0.0]) == 2.0 by {
      assert [-1.0, 0.0][..1] == [-1.0];
      assert [-1.0][..0] == [];
    }
    assert r3[0] == Coefficient(DataPoint(-1.0, 7.0), [0.0, 1.0], 2.0);
    assert r3[1] == Coefficient(DataPoint(0.0, 4.0), [-1.0, 1.0], -1.0);
    assert r3[2] == Coefficient(DataPoint(1.0, 9.0), [-1.0, 0.0], 2.0);
  }

  /** The quadratic through the three points, 4x^2 + x + 4, is 22 at x = 2. */
  lemma LinearTestAtTwo(cs: seq<Coefficient>)
    requires cs == [Coefficient(DataPoint(-1.0, 7.0), [0.0, 1.0], 2.0),
                    Coefficient(DataPoint(0.0, 4.0), [-1.0, 1.0], -1.0),
                    Coefficient(DataPoint(1.0, 9.0), [-1.0, 0.0], 2.0)]
    ensures Interpolant(cs, 2.0) == 22.0
  {
    assert cs[..2][..1] == cs[..1];
    assert cs[..1][..0] == [];
    assert [0.0, 1.0][..1] == [0.0] && [-1.0, 1.0][..1] == [-1.0] && [-1.0, 0.0][..1] == [-1.0];
    assert [0.0][..0] == [] && [-1.0][..0] == [];
    assert Interpolant(cs[..1], 2.0) == 7.0;
    assert Interpolant(cs[..2], 2.0) == -5.0;
  }

  method LinearTestFloat() returns (ok: bool)
    ensures ok
  {
    LinearTestRecords();
    var interp := new Interpolator();
    var ok1 := interp.Insert(-1.0, 7.0);
    assert ok1 by { assert Xs([]) == []; }
    var ok2 := interp.Insert(0.0, 4.0);
    assert ok2 by { assert Xs(Inserted([], -1.0, 7.0)) == [-1.0]; }
    var ok3 := interp.Insert(1.0, 9.0);
    var cs := interp.coeffs;
    assert Xs(cs) == [-1.0, 0.0, 1.0];
    var again := interp.Insert(0.0, 5.0);
    assert Xs(cs)[1] == 0.0;
    var y1 := interp.Calc(-1.0);
    var y2 := interp.Calc(0.0);
    var y3 := interp.Calc(1.0);
    LinearTestAtTwo(cs);
    var y4 := interp.Calc(2.0);
    ok := ok1 && ok2 && ok3 && !again && y1 == 7.0 && y2 == 4.0 && y3 == 9.0 && y4 == 22.0;
  }
}
