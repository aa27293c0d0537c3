/** The parts of the C math library the renderer calls (sqrt, cos, sin, tan, atan).
    They cannot be computed over the reals, so each is a function value held in a
    record, and `Valid()` states the few facts about them that the model relies on. */
module Libm {

  /** r * r; facts about squares are stated through this function so that the
      solver keeps them as facts about one term */
  function Sq(r: real): real {
    r * r
  }

  /** squaring is strictly increasing on the non-negative reals */
  lemma SquareStrictlyMonotone(q: real, r: real)
    requires 0.0 <= q < r
    ensures Sq(q) < Sq(r)
  {
    var qq, qr, rr := q * q, q * r, r * r;
    assert qq <= qr;
    assert qr < rr;
  }

  /** the square of a non-zero number is positive */
  lemma SquarePositive(r: real)
    requires r != 0.0
    ensures Sq(r) > 0.0
  {
    if r < 0.0 {
      assert Sq(r) == Sq(-r);
      SquareStrictlyMonotone(0.0, -r);
    } else {
      SquareStrictlyMonotone(0.0, r);
    }
  }

  lemma SquareNonNegative(r: real)
    ensures Sq(r) >= 0.0
  {
    if r != 0.0 {
      SquarePositive(r);
    }
  }

  datatype Libm = Libm(
    sqrt: real -> real,
    cos: real -> real,
    sin: real -> real,
    tan: real -> real,
    atan: real -> real)
  {
    /** sqrt is the non-negative square root on non-negative arguments; sqrt(0) = 0 is
        stated on its own, as the solver reaches it from the general fact only through
        nonlinear reasoning */
    ghost predicate SqrtValid() {
      && sqrt(0.0) == 0.0
      && forall x :: x >= 0.0 ==> sqrt(x) >= 0.0 && Sq(sqrt(x)) == x
    }

    /** cos and sin lie on the unit circle and start at (1, 0) */
    ghost predicate TrigValid() {
      && cos(0.0) == 1.0
      && sin(0.0) == 0.0
      && forall a :: Sq(cos(a)) + Sq(sin(a)) == 1.0
    }

    ghost predicate Valid() {
      SqrtValid() && TrigValid()
    }

    /** sqrt(x) > 0 exactly when x > 0, for non-negative x */
    lemma SqrtPositive(x: real)
      requires SqrtValid() && x >= 0.0
      ensures sqrt(x) >= 0.0 && Sq(sqrt(x)) == x
      ensures sqrt(x) > 0.0 <==> x > 0.0
    {
      var r := sqrt(x);
      assert r >= 0.0 && Sq(r) == x;
      if r > 0.0 {
        SquarePositive(r);
      }
    }

    /** sqrt of the square of a non-negative number gives it back */
    lemma SqrtOfSquare(r: real)
      requires SqrtValid() && r >= 0.0
      ensures sqrt(Sq(r)) == r
    {
      SquareNonNegative(r);
      var q := sqrt(Sq(r));
      assert q >= 0.0 && Sq(q) == Sq(r);
      if q < r {
        SquareStrictlyMonotone(q, r);
      } else if q > r {
        SquareStrictlyMonotone(r, q);
      }
    }
  }
}
