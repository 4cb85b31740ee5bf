# Incremental Lagrange interpolation (CosineKitty::Interpolator)

This project models `CosineKitty::Interpolator<domain_t, range_t>` from
`interpolator.hpp`. The class keeps one record per inserted sample point. A
record is a `Coefficient`: the point `(x, y)`, the list `diffs` of the roots of
its Lagrange basis numerator, and the scalar denominator `denom`. Together they
stand for the basis term `L(t) = Π_{d ∈ diffs} (t − d) / denom`.

- `insert(x, y)` refuses an x that is already stored and then changes nothing.
  Otherwise it rewrites every stored record in place: x joins the record's
  `diffs`, and `denom` is multiplied by (own x − x). It then appends a record
  for the new point. That record's roots are all earlier x's, and its
  denominator is the product of (x − x_k) over them.
- `calc(x)` sums `(Π (x − d) / denom) · y` over the records.

Both template parameters are instantiated as Dafny `real`, so all arithmetic
is exact.

Layout:

- `interpolator.dfy`, module `CosineKitty`, holds the model:
  - the value records `DataPoint` and `Coefficient`;
  - the specification functions: `RootProduct` (the numerator product),
    `BasisValue`, `Interpolant` (the weighted sum `calc` computes) and
    `Inserted` (the records after a successful insertion);
  - the invariant `Lagrange`: the stored x's are pairwise distinct, record j's
    `diffs` are the other stored x's in insertion order, and `denom_j` is
    `Π_{k≠j} (x_j − x_k)`, which is never zero;
  - the lemmas;
  - the class `Interpolator`, whose field `coeffs: seq<Coefficient>` stands for
    the `std::vector<Coefficient>` and which `Insert` rewrites record by record.
- `linear_test.dfy`, module `LinearTest`, is a client. It takes the three
  points of `unittest.cpp`, inserts them, and proves what the interpolator
  returns.

Both methods are proved against the specification functions. `Insert` ensures
that its new records are `Inserted(old records, x, y)`, or that nothing
changed, and that the `Lagrange` invariant holds afterwards whenever it held
before. `Calc` ensures that its result is `Interpolant(records, x)`. Lemmas
prove that each basis term is 1 at its own x and 0 at every other stored x, and
that the interpolant therefore passes through every stored point.

The inner loop of `calc` (interpolator.hpp:74-76) is the method `Product`. The
outer loop in `Calc` calls it once per record.

## Model

| member | source | states |
|---|---|---|
| CosineKitty.Interpolator.constructor | interpolator.hpp:29 | a new interpolator holds no records, and the invariant holds |
| CosineKitty.Interpolator.Insert | interpolator.hpp:32-67 | returns true exactly when x is not among the stored x's; on false the records are unchanged; on true they become `Inserted(old, x, y)`; the Lagrange invariant is preserved |
| CosineKitty.InsertedRecords | interpolator.hpp:44-63 | a successful insert adds exactly one record; every earlier record keeps its point, gains x as its last root and (own x − x) as a denominator factor; the new record holds (x, y), the earlier x's in insertion order as roots, and Π (x − x_k) as its denominator, which is 1 for the first point |
| CosineKitty.InsertedRecordOk | interpolator.hpp:44-62 | after inserting a fresh x, every record's roots are the other stored x's and its denominator equals the root product at its own x and is nonzero |
| CosineKitty.InsertPreservesLagrange | interpolator.hpp:34-63 | inserting an x that is not stored keeps the x's distinct and keeps every record's roots and nonzero denominator in the Lagrange form |
| CosineKitty.RootProductZeroIff | interpolator.hpp:74-76 | the numerator product Π (t − d) is zero if and only if t is one of the roots |
| CosineKitty.Product | interpolator.hpp:74-76 | the accumulating loop computes the root product, which is zero exactly when t is a root |
| CosineKitty.InterpolantStep | interpolator.hpp:77 | adding record i's `(product / denom) · y` to the sum over the first i records gives the sum over the first i + 1 |
| CosineKitty.Interpolator.Calc | interpolator.hpp:69-80 | on any records with nonzero denominators, returns the sum over the records of their weighted basis values at x; returns 0 when there are no records; under the Lagrange invariant, returns y_j whenever x is a stored x_j |
| CosineKitty.BasisCardinal | interpolator.hpp:41-43 | under the invariant, record j's basis term is 1 at x_j and 0 at every other stored x_k |
| CosineKitty.InterpolantSingleTerm | interpolator.hpp:72-79 | a sum whose terms vanish except that of record j equals that term, or 0 when j is past the end |
| CosineKitty.Interpolates | interpolator.hpp:41-43 | under the invariant, the interpolant at every stored x_j equals y_j |
| LinearTest.LinearTestRecords | unittest.cpp:8-10 | inserting (−1, 7), (0, 4), (1, 9) gives the records with roots [0, 1], [−1, 1], [−1, 0] and denominators 2, −1, 2 |
| LinearTest.LinearTestAtTwo | unittest.cpp:8-10 | the interpolant of those records at x = 2 is 22, the value of 4x² + x + 4 |
| LinearTest.LinearTestFloat | unittest.cpp:4-14 | the three inserts of the source test succeed; added checks beyond the source test: a second insert at x = 0 is refused, and `Calc` returns 7, 4, 9 at the three points and 22 at x = 2 (the data are quadratic and the arithmetic exact, despite the kept name) |

## Left out

- `Polynomial`, its algebra (construction, canonical form, +, −, ×, `pow`, `derivative`, `integral`, `compose`), `Interpolator::polynomial()` and `clear()` are not defined in `interpolator.hpp`. `demo.cpp` refers to `Polynomial`, `coefficients()` and `polynomial()` (demo.cpp:6, 12, 43), which are not part of this model.
- `demo.cpp` is not modelled: it is a printing and tabulation driver (`printf`, `std::abs`, a `double` loop).
- IEEE `double` semantics (rounding, underflow, NaN), complex scalars and templating over other field types are not modelled. Domain and range are both exact `real`.
- CosineKitty.Interpolator.Calc: requires every stored denominator to be nonzero, because Dafny's real division needs a nonzero divisor. It promises `y_j` at a stored `x_j` only when the Lagrange invariant holds. Every interpolator built by the constructor and `Insert` satisfies the invariant, so in exact arithmetic a zero denominator cannot arise. With `double` it can: underflow of a product of tiny differences, or a NaN x (which passes the duplicate check because NaN == NaN is false), can give a zero or NaN denominator, and `calc` then returns inf or NaN. That IEEE behaviour is not modelled.
- The accumulator of `calc` is value-initialised (`range_t y {}`). For `real` this is 0.
