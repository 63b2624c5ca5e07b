/** Two-dimensional vectors over the reals and the game's direction normalisation. */
module Vectors {

  datatype Vec2 = Vec2(x: real, y: real)

  const Zero: Vec2 := Vec2(0.0, 0.0)

  function Add(a: Vec2, b: Vec2): Vec2 {
    Vec2(a.x + b.x, a.y + b.y)
  }

  function Sub(a: Vec2, b: Vec2): Vec2 {
    Vec2(a.x - b.x, a.y - b.y)
  }

  function Scale(a: Vec2, k: real): Vec2 {
    Vec2(a.x * k, a.y * k)
  }

  /** Squared Euclidean length. */
  function Len2(a: Vec2): real {
    a.x * a.x + a.y * a.y
  }

  function Sign(v: real): int {
    if v > 0.0 then 1 else if v < 0.0 then -1 else 0
  }

  function Abs(v: real): real {
    if v < 0.0 then -v else v
  }

  /** The constant added to the length before dividing, so that the zero vector divides by a positive number. */
  const NormEpsilon: real := 0.0000000001

  /** `root` is the square root on the non-negative reals. */
  ghost predicate IsSqrt(root: real -> real) {
    forall s {:trigger root(s)} :: 0.0 <= s ==> 0.0 <= root(s) && root(s) * root(s) == s
  }

  /** The divisor `normalize_direction` uses: the Euclidean length plus NormEpsilon. */
  function Norm(d: Vec2, root: real -> real): (n: real)
    requires IsSqrt(root)
    ensures n >= NormEpsilon
    ensures (n - NormEpsilon) * (n - NormEpsilon) == Len2(d)
  {
    root(Len2(d)) + NormEpsilon
  }

  /**
   * `normalize_direction`: divides both axes by the same positive number, so each
   * axis keeps its sign, the zero vector stays the zero vector, and scaling the result
   * back by that number recovers the input.
   */
  function Normalize(d: Vec2, root: real -> real): (r: Vec2)
    requires IsSqrt(root)
    ensures Sign(r.x) == Sign(d.x) && Sign(r.y) == Sign(d.y)
    ensures r == Zero <==> d == Zero
    ensures Abs(r.x) <= Abs(d.x) / NormEpsilon && Abs(r.y) <= Abs(d.y) / NormEpsilon
    ensures Scale(r, Norm(d, root)) == d
  {
    var n := Norm(d, root);
    DivSign(d.x, n);
    DivSign(d.y, n);
    Vec2(d.x / n, d.y / n)
  }

  lemma DivSign(a: real, n: real)
    requires n >= NormEpsilon
    ensures Sign(a / n) == Sign(a)
    ensures Abs(a / n) <= Abs(a) / NormEpsilon
    ensures a / n * n == a
  {
    if a > 0.0 {
      assert a / n > 0.0;
      assert a / n <= a / NormEpsilon by {
        assert a / n * n == a;
        assert a / NormEpsilon * NormEpsilon == a;
      }
    } else if a < 0.0 {
      assert a / n < 0.0;
      assert (-a) / n <= (-a) / NormEpsilon by {
        assert (-a) / n * n == -a;
        assert (-a) / NormEpsilon * NormEpsilon == -a;
      }
      assert Abs(a / n) == (-a) / n;
    }
  }

  /** A normalised vector is strictly shorter than one unit, because of NormEpsilon. */
  lemma {:induction false} NormalizeShorterThanUnit(d: Vec2, root: real -> real)
    requires IsSqrt(root)
    ensures Len2(Normalize(d, root)) < 1.0
  {
    var n := Norm(d, root);
    var q := n - NormEpsilon;
    var r := Normalize(d, root);
    ScaledLength(d, r, n);
    assert q * q == Len2(d);
    assert 0.0 <= q < n;
    assert q * q < n * n;
    assert Len2(r) * (n * n) < n * n;
  }

  /**
   * For a vector at least one unit long, the normalised vector is within
   * 2 * NormEpsilon of unit squared length.
   */
  lemma {:induction false} NormalizeNearUnit(d: Vec2, root: real -> real)
    requires IsSqrt(root)
    requires Len2(d) >= 1.0
    ensures Len2(Normalize(d, root)) > 1.0 - 2.0 * NormEpsilon
  {
    var n := Norm(d, root);
    var q := n - NormEpsilon;
    var r := Normalize(d, root);
    ScaledLength(d, r, n);
    assert q >= 1.0 by {
      SquareAtLeastOne(q);
    }
    EpsilonShrinksLittle(q, NormEpsilon);
    assert q + NormEpsilon == n;
    var lower, nn := 1.0 - 2.0 * NormEpsilon, n * n;
    assert lower * nn < q * q;
    assert Len2(r) * nn == q * q;
    CancelPositive(Len2(r), lower, nn);
  }

  lemma ScaledLength(d: Vec2, r: Vec2, n: real)
    requires r.x * n == d.x && r.y * n == d.y
    ensures Len2(r) * (n * n) == Len2(d)
  {
    calc {
      Len2(r) * (n * n);
      (r.x * n) * (r.x * n) + (r.y * n) * (r.y * n);
    }
  }

  /** (1 - 2e) (q + e)^2 < q^2 for q >= 1 and a small positive e. */
  lemma EpsilonShrinksLittle(q: real, e: real)
    requires q >= 1.0 && 0.0 < e < 0.25
    ensures (1.0 - 2.0 * e) * ((q + e) * (q + e)) < q * q
  {
    assert (1.0 - 2.0 * e) * ((q + e) * (q + e))
        == q * q + 2.0 * q * e * (1.0 - q) + e * e * (1.0 - 4.0 * q - 2.0 * e);
    assert q * e * (1.0 - q) <= 0.0 by {
      assert q * e > 0.0;
    }
    assert e * e * (1.0 - 4.0 * q - 2.0 * e) < 0.0 by {
      assert e * e > 0.0;
    }
  }

  lemma SquareAtLeastOne(q: real)
    requires q >= 0.0 && q * q >= 1.0
    ensures q >= 1.0
  {
    SquareBelowOne(q);
  }

  lemma SquareBelowOne(q: real)
    requires q >= 0.0
    ensures q < 1.0 ==> q * q < 1.0
  {
    if q < 1.0 {
      assert q * q <= q * 1.0;
    }
  }

  lemma CancelPositive(a: real, b: real, c: real)
    requires c > 0.0 && a * c > b * c
    ensures a > b
  {
  }
}
