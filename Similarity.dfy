// Cosine similarity of two embedding vectors (netlify/functions/ask.js,
// `cosineSim`). Vectors are sequences of reals; the square root is a
// parameter that is only assumed to return the non-negative root.

module Similarity {

  /** The dot product of two vectors of the same dimension. */
  function Dot(a: seq<real>, b: seq<real>): real
    requires |a| == |b|
    decreases |a|
  {
    if a == [] then 0.0 else Dot(a[..|a| - 1], b[..|b| - 1]) + a[|a| - 1] * b[|b| - 1]
  }

  predicate IsZeroVector(a: seq<real>) {
    forall i :: 0 <= i < |a| ==> a[i] == 0.0
  }

  /** `sqrt` returns the non-negative square root of every non-negative real. */
  ghost predicate IsSqrt(sqrt: real -> real) {
    forall x :: 0.0 <= x ==> 0.0 <= sqrt(x) && sqrt(x) * sqrt(x) == x
  }

  /** The value `cosineSim(a, b)` returns: 0 when either vector has norm 0,
      otherwise the dot product over the product of the norms. */
  function Cosine(a: seq<real>, b: seq<real>, sqrt: real -> real): real
    requires |a| == |b| && IsSqrt(sqrt)
  {
    var na, nb := Dot(a, a), Dot(b, b);
    if na == 0.0 || nb == 0.0 then 0.0
    else
      SquaredNormNonNegative(a);
      SquaredNormNonNegative(b);
      NormRootPositive(na, sqrt);
      NormRootPositive(nb, sqrt);
      Dot(a, b) / (sqrt(na) * sqrt(nb))
  }

  lemma NormRootPositive(n: real, sqrt: real -> real)
    requires IsSqrt(sqrt) && n > 0.0
    ensures sqrt(n) > 0.0
  {
    assert sqrt(n) * sqrt(n) == n;
  }

  // ------------------------------------------------------------------
  // Properties of the dot product

  lemma {:induction false} DotSymmetric(a: seq<real>, b: seq<real>)
    requires |a| == |b|
    ensures Dot(a, b) == Dot(b, a)
    decreases |a|
  {
    if a != [] {
      DotSymmetric(a[..|a| - 1], b[..|b| - 1]);
    }
  }

  /** A squared norm is never negative. */
  lemma {:induction false} SquaredNormNonNegative(a: seq<real>)
    ensures Dot(a, a) >= 0.0
    decreases |a|
  {
    if a != [] {
      var n := |a| - 1;
      SquaredNormNonNegative(a[..n]);
      if a[n] != 0.0 {
        SquarePositive(a[n]);
      }
    }
  }

  lemma SquarePositive(x: real)
    requires x != 0.0
    ensures x * x > 0.0
  {
    if x < 0.0 {
      assert x * x == (-x) * (-x);
    }
  }

  /** The dot product with a zero vector is zero. */
  lemma {:induction false} DotWithZero(a: seq<real>, b: seq<real>)
    requires |a| == |b| && IsZeroVector(b)
    ensures Dot(a, b) == 0.0 && Dot(b, a) == 0.0
    decreases |a|
  {
    if a != [] {
      var n := |a| - 1;
      assert IsZeroVector(b[..n]) by {
        assert forall i :: 0 <= i < n ==> b[..n][i] == b[i];
      }
      DotWithZero(a[..n], b[..n]);
    }
  }

  // ------------------------------------------------------------------
  // Properties of the similarity

  /** The similarity does not depend on the order of its arguments. */
  lemma CosineSymmetric(a: seq<real>, b: seq<real>, sqrt: real -> real)
    requires |a| == |b| && IsSqrt(sqrt)
    ensures Cosine(a, b, sqrt) == Cosine(b, a, sqrt)
  {
    DotSymmetric(a, b);
    var sa, sb := sqrt(Dot(a, a)), sqrt(Dot(b, b));
    assert sa * sb == sb * sa;
  }

  /** A zero vector is similar to nothing. */
  lemma CosineWithZero(a: seq<real>, b: seq<real>, sqrt: real -> real)
    requires |a| == |b| && IsSqrt(sqrt) && IsZeroVector(b)
    ensures Cosine(a, b, sqrt) == 0.0 && Cosine(b, a, sqrt) == 0.0
  {
    DotWithZero(b, b);
  }

  // ------------------------------------------------------------------
  // The function itself

  /** `cosineSim(a, b)`: one pass accumulating the dot product and the two
      squared norms. */
  method CosineSim(a: seq<real>, b: seq<real>, sqrt: real -> real) returns (s: real)
    requires |a| == |b| && IsSqrt(sqrt)
    ensures s == Cosine(a, b, sqrt)
    ensures IsZeroVector(a) || IsZeroVector(b) ==> s == 0.0
  {
    var dot, na, nb := 0.0, 0.0, 0.0;
    for i := 0 to |a|
      invariant dot == Dot(a[..i], b[..i])
      invariant na == Dot(a[..i], a[..i])
      invariant nb == Dot(b[..i], b[..i])
    {
      assert a[..i + 1][..i] == a[..i];
      assert b[..i + 1][..i] == b[..i];
      dot := dot + a[i] * b[i];
      na := na + a[i] * a[i];
      nb := nb + b[i] * b[i];
    }
    assert a[..|a|] == a && b[..|b|] == b;
    if na == 0.0 || nb == 0.0 {
      s := 0.0;
    } else {
      SquaredNormNonNegative(a);
      SquaredNormNonNegative(b);
      NormRootPositive(na, sqrt);
      NormRootPositive(nb, sqrt);
      s := dot / (sqrt(na) * sqrt(nb));
    }
    if IsZeroVector(a) {
      CosineWithZero(b, a, sqrt);
    }
    if IsZeroVector(b) {
      CosineWithZero(a, b, sqrt);
    }
  }
}
