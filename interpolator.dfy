/**
  Incremental Lagrange interpolation, as done by the class template
  `CosineKitty::Interpolator<domain_t, range_t>`, with both the domain and the
  range instantiated as exact `real`.

  Every inserted point keeps one record (a `Coefficient`): the point itself,
  the roots of its basis numerator (`diffs`) and the scalar denominator
  (`denom`). Inserting a point rewrites every earlier record so that its basis
  term vanishes at the new x, then appends a record for the new point.
  `Calc` sums the weighted basis terms at a query point.
 */
module CosineKitty {

  /** One sample point of the curve. */
  datatype DataPoint = DataPoint(x: real, y: real)

  /** The per-point record: basis term L(t) = RootProduct(t, diffs) / denom. */
  datatype Coefficient = Coefficient(point: DataPoint, diffs: seq<real>, denom: real)

  // ---------------------------------------------------------------------------
  // Specification functions
  // ---------------------------------------------------------------------------

  /** Product of (t - d) over the roots, accumulated from the first root on
      (the empty product is 1). */
  function RootProduct(t: real, roots: seq<real>): real
  {
    if roots == [] then 1.0
    else RootProduct(t, roots[..|roots| - 1]) * (t - roots[|roots| - 1])
  }

  /** The x-coordinates of the records, in insertion order. */
  function Xs(cs: seq<Coefficient>): seq<real>
  {
    seq(|cs|, i requires 0 <= i < |cs| => cs[i].point.x)
  }

  /** The sequence `s` with the element at index `j` left out. */
  function Others(s: seq<real>, j: nat): seq<real>
    requires j < |s|
  {
    s[..j] + s[j + 1..]
  }

  predicate Distinct(s: seq<real>)
  {
    forall i, k :: 0 <= i < k < |s| ==> s[i] != s[k]
  }

  predicate NonzeroDenoms(cs: seq<Coefficient>)
  {
    forall i :: 0 <= i < |cs| ==> cs[i].denom != 0.0
  }

  /** The value at `t` of the basis term a record stands for. */
  function BasisValue(c: Coefficient, t: real): real
    requires c.denom != 0.0
  {
    RootProduct(t, c.diffs) / c.denom
  }

  /** The interpolant at `t`: the sum of y_j * L_j(t) over the records,
      accumulated from the first record on (the empty sum is 0). */
  function Interpolant(cs: seq<Coefficient>, t: real): real
    requires NonzeroDenoms(cs)
  {
    if cs == [] then 0.0
    else
      var c := cs[|cs| - 1];
      Interpolant(cs[..|cs| - 1], t) + BasisValue(c, t) * c.point.y
  }

  /** The invariant the records keep: the stored x's are pairwise distinct, and
      record j's numerator roots are all other stored x's in insertion order,
      while its denominator is the product of (x_j - x_k) over those same x's,
      which is therefore never zero. */
  predicate Lagrange(cs: seq<Coefficient>)
  {
    Distinct(Xs(cs)) &&
    (forall j {:trigger cs[j].diffs} :: 0 <= j < |cs| ==>
      cs[j].diffs == Others(Xs(cs), j)) &&
    (forall j {:trigger RootProduct(cs[j].point.x, cs[j].diffs)} :: 0 <= j < |cs| ==>
      cs[j].denom == RootProduct(cs[j].point.x, cs[j].diffs)) &&
    NonzeroDenoms(cs)
  }

  /** An existing record after the point x has been inserted: x becomes one more
      root of its numerator, and (own x - x) one more factor of its denominator. */
  function Extend(c: Coefficient, x: real): Coefficient
  {
    c.(diffs := c.diffs + [x], denom := c.denom * (c.point.x - x))
  }

  /** The record built for a newly inserted point (x, y). */
  function NewRecord(cs: seq<Coefficient>, x: real, y: real): Coefficient
  {
    Coefficient(DataPoint(x, y), Xs(cs), RootProduct(x, Xs(cs)))
  }

  /** The records after a successful insertion of (x, y). */
  function Inserted(cs: seq<Coefficient>, x: real, y: real): seq<Coefficient>
  {
    seq(|cs|, i requires 0 <= i < |cs| => Extend(cs[i], x)) + [NewRecord(cs, x, y)]
  }

  // ---------------------------------------------------------------------------
  // Lemmas
  // ---------------------------------------------------------------------------

  /** The numerator product vanishes exactly at its roots. */
  lemma {:induction false} RootProductZeroIff(t: real, roots: seq<real>)
    ensures RootProduct(t, roots) == 0.0 <==> t in roots
  {
    if roots != [] {
      var init, last := roots[..|roots| - 1], roots[|roots| - 1];
      RootProductZeroIff(t, init);
      assert roots == init + [last];
      assert t in roots <==> t in init || t == last;
      var a, b := RootProduct(t, init), t - last;
      assert a * b == 0.0 <==> a == 0.0 || b == 0.0;
    }
  }

  /** Extending the roots by one multiplies the product by one more factor. */
  lemma RootProductStep(t: real, roots: seq<real>, k: nat)
    requires k < |roots|
    ensures RootProduct(t, roots[..k + 1]) == RootProduct(t, roots[..k]) * (t - roots[k])
  {
    assert roots[..k + 1][..k] == roots[..k];
  }

  /** Every other element of `s` is among the others of index j. */
  lemma OthersContains(s: seq<real>, j: nat, k: nat)
    requires j < |s| && k < |s| && j != k
    ensures s[k] in Others(s, j)
  {
  }

  /** In a sequence without repeats, element j is not among its others. */
  lemma OthersExcludes(s: seq<real>, j: nat)
    requires Distinct(s) && j < |s|
    ensures s[j] !in Others(s, j)
  {
  }

  /** What a successful insertion does to each record: the records grow by one;
      every earlier record keeps its point, gains x as a numerator root and
      (own x - x) as a denominator factor; the new record holds (x, y), all
      earlier x's as its roots, and the product of (x - x_k) over them as its
      denominator, which is 1 for the first point. */
  lemma InsertedRecords(cs: seq<Coefficient>, x: real, y: real)
    ensures var r := Inserted(cs, x, y);
      |r| == |cs| + 1 &&
      (forall i :: 0 <= i < |cs| ==>
         r[i].point == cs[i].point &&
         r[i].diffs == cs[i].diffs + [x] &&
         r[i].denom == cs[i].denom * (cs[i].point.x - x)) &&
      r[|cs|].point == DataPoint(x, y) &&
      r[|cs|].diffs == Xs(cs) &&
      r[|cs|].denom == RootProduct(x, Xs(cs)) &&
      (cs == [] ==> r[0].denom == 1.0)
  {
  }

  /** Insertion appends x to the stored x's. */
  lemma InsertedXs(cs: seq<Coefficient>, x: real, y: real)
    ensures Xs(Inserted(cs, x, y)) == Xs(cs) + [x]
  {
  }

  /** One record of the inserted sequence satisfies the invariant's per-record
      conditions, given that the stored x's stay distinct. */
  lemma InsertedRecordOk(cs: seq<Coefficient>, x: real, y: real, j: nat)
    requires Lagrange(cs)
    requires Distinct(Xs(cs) + [x])
    requires j <= |cs|
    ensures var r, xs' := Inserted(cs, x, y), Xs(cs) + [x];
      r[j].diffs == Others(xs', j) &&
      r[j].denom == RootProduct(r[j].point.x, r[j].diffs) &&
      r[j].denom != 0.0
  {
    var n, xs := |cs|, Xs(cs);
    var r, xs' := Inserted(cs, x, y), xs + [x];
    if j < n {
      var d := cs[j].diffs;
      assert r[j].diffs == d + [x];
      assert d == Others(xs, j);
      assert Others(xs', j) == d + [x] by {
        assert xs'[..j] == xs[..j];
        assert xs'[j + 1..] == xs[j + 1..] + [x];
      }
      assert (d + [x])[..|d|] == d;
      assert r[j].point.x == xs'[j];
    } else {
      assert Others(xs', j) == xs;
    }
    OthersExcludes(xs', j);
    RootProductZeroIff(r[j].point.x, r[j].diffs);
  }

  /** Inserting an x that is not yet stored keeps the Lagrange invariant. */
  lemma InsertPreservesLagrange(cs: seq<Coefficient>, x: real, y: real)
    requires Lagrange(cs)
    requires x !in Xs(cs)
    ensures Lagrange(Inserted(cs, x, y))
  {
    var xs, r := Xs(cs), Inserted(cs, x, y);
    var xs' := xs + [x];
    InsertedXs(cs, x, y);
    assert Distinct(xs') by {
      forall i, k | 0 <= i < k < |xs'|
        ensures xs'[i] != xs'[k]
      {
        if k == |xs| {
          assert xs'[i] == xs[i];
        }
      }
    }
    forall j | 0 <= j < |r|
      ensures r[j].diffs == Others(xs', j)
      ensures r[j].denom == RootProduct(r[j].point.x, r[j].diffs)
      ensures r[j].denom != 0.0
    {
      InsertedRecordOk(cs, x, y, j);
    }
  }

  /** A quotient of a nonzero by itself is 1, and of zero by anything nonzero is 0. */
  lemma QuotientCases(p: real, d: real)
    requires d != 0.0
    ensures p == d ==> p / d == 1.0
    ensures p == 0.0 ==> p / d == 0.0
  {
  }

  /** Each basis term is 1 at its own x and 0 at every other stored x. */
  lemma BasisCardinal(cs: seq<Coefficient>, j: nat, k: nat)
    requires Lagrange(cs)
    requires j < |cs| && k < |cs|
    ensures BasisValue(cs[j], cs[k].point.x) == if j == k then 1.0 else 0.0
  {
    var p, d := RootProduct(cs[k].point.x, cs[j].diffs), cs[j].denom;
    if j != k {
      OthersContains(Xs(cs), j, k);
      RootProductZeroIff(cs[k].point.x, cs[j].diffs);
    }
    QuotientCases(p, d);
  }

  /** A sum whose terms all vanish except the one of record j equals that term. */
  lemma {:induction false} InterpolantSingleTerm(cs: seq<Coefficient>, t: real, j: nat)
    requires NonzeroDenoms(cs)
    requires forall i :: 0 <= i < |cs| && i != j ==> BasisValue(cs[i], t) * cs[i].point.y == 0.0
    ensures Interpolant(cs, t) == if j < |cs| then BasisValue(cs[j], t) * cs[j].point.y else 0.0
  {
    if cs != [] {
      InterpolantSingleTerm(cs[..|cs| - 1], t, j);
    }
  }

  /** Adding record i's term to the sum over the first i records gives the sum
      over the first i + 1. */
  lemma InterpolantStep(cs: seq<Coefficient>, i: nat, t: real, sum: real, product: real)
    requires NonzeroDenoms(cs) && i < |cs|
    requires sum == Interpolant(cs[..i], t)
    requires product == RootProduct(t, cs[i].diffs)
    ensures sum + (product / cs[i].denom) * cs[i].point.y == Interpolant(cs[..i + 1], t)
  {
    assert cs[..i + 1][..i] == cs[..i];
  }

  /** The interpolant passes through every stored point. */
  lemma Interpolates(cs: seq<Coefficient>, j: nat)
    requires Lagrange(cs)
    requires j < |cs|
    ensures Interpolant(cs, cs[j].point.x) == cs[j].point.y
  {
    var t := cs[j].point.x;
    forall i | 0 <= i < |cs|
      ensures BasisValue(cs[i], t) == if i == j then 1.0 else 0.0
    {
      BasisCardinal(cs, i, j);
    }
    InterpolantSingleTerm(cs, t, j);
  }

  /** The numerator product of one record at t, accumulated root by root. */
  method Product(t: real, roots: seq<real>) returns (product: real)
    ensures product == RootProduct(t, roots)
    ensures product == 0.0 <==> t in roots
  {
    product := 1.0;
    var k := 0;
    while k < |roots|
      invariant 0 <= k <= |roots|
      invariant product == RootProduct(t, roots[..k])
    {
      RootProductStep(t, roots, k);
      product := product * (t - roots[k]);
      k := k + 1;
    }
    assert roots[..k] == roots;
    RootProductZeroIff(t, roots);
  }

  // ---------------------------------------------------------------------------
  // The interpolator object
  // ---------------------------------------------------------------------------

  class Interpolator {
    var coeffs: seq<Coefficient>

    ghost predicate Valid()
      reads this
    {
      Lagrange(coeffs)
    }

    constructor ()
      ensures coeffs == [] && Valid()
    {
      coeffs := [];
    }

    /** Adds the point (x, y); refuses an x that is already stored. */
    method Insert(x: real, y: real) returns (ok: bool)
      modifies this
      ensures ok <==> x !in Xs(old(coeffs))
      ensures !ok ==> coeffs == old(coeffs)
      ensures ok ==> coeffs == Inserted(old(coeffs), x, y)
      ensures old(Valid()) ==> Valid()
    {
      var i := 0;
      while i < |coeffs|
        invariant 0 <= i <= |coeffs|
        invariant forall k :: 0 <= k < i ==> coeffs[k].point.x != x
      {
        if coeffs[i].point.x == x {
          assert Xs(coeffs)[i] == x;
          return false;
        }
        i := i + 1;
      }

      ghost var cs := coeffs;
      i := 0;
      while i < |coeffs|
        invariant 0 <= i <= |coeffs| == |cs|
        invariant forall k :: 0 <= k < i ==> coeffs[k] == Extend(cs[k], x)
        invariant forall k :: i <= k < |coeffs| ==> coeffs[k] == cs[k]
      {
        var c := coeffs[i];
        c := c.(diffs := c.diffs + [x], denom := c.denom * (c.point.x - x));
        coeffs := coeffs[i := c];
        i := i + 1;
      }

      var diffs: seq<real> := [];
      var denom := 1.0;
      i := 0;
      while i < |coeffs|
        invariant 0 <= i <= |coeffs|
        invariant diffs == Xs(cs)[..i]
        invariant denom == RootProduct(x, diffs)
      {
        assert (diffs + [coeffs[i].point.x])[..i] == diffs;
        diffs := diffs + [coeffs[i].point.x];
        denom := denom * (x - coeffs[i].point.x);
        i := i + 1;
      }
      coeffs := coeffs + [Coefficient(DataPoint(x, y), diffs, denom)];
      ok := true;

      assert Xs(cs)[..|cs|] == Xs(cs);
      ghost var r := Inserted(cs, x, y);
      assert |coeffs| == |r|;
      forall k | 0 <= k < |r|
        ensures coeffs[k] == r[k]
      {
      }
      assert coeffs == r;
      if Lagrange(cs) {
        InsertPreservesLagrange(cs, x, y);
      }
    }

    /** The interpolated y at x: the sum over the records of
        (product of (x - d) over its roots) / denom * y. */
    method Calc(x: real) returns (y: real)
      requires NonzeroDenoms(coeffs)
      ensures y == Interpolant(coeffs, x)
      ensures coeffs == [] ==> y == 0.0
      ensures Valid() ==>
        forall j :: 0 <= j < |coeffs| && coeffs[j].point.x == x ==> y == coeffs[j].point.y
    {
      y := 0.0;
      var i := 0;
      while i < |coeffs|
        invariant 0 <= i <= |coeffs|
        invariant y == Interpolant(coeffs[..i], x)
      {
        var c := coeffs[i];
        var product := Product(x, c.diffs);
        assert coeffs[..i + 1][..i] == coeffs[..i];
        InterpolantStep(coeffs, i, x, y, product);
        y := y + (product / c.denom) * c.point.y;
        i := i + 1;
      }
      assert coeffs[..i] == coeffs;
      if Valid() {
        forall j | 0 <= j < |coeffs| && coeffs[j].point.x == x
          ensures y == coeffs[j].point.y
        {
          Interpolates(coeffs, j);
        }
      }
    }
  }
}

