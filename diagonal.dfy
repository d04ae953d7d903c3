/**
 * The exactly solvable diagonal linear system (src/diag.rs): for
 * dx/dt = D x with D diagonal, one step of length dt multiplies entry i by
 * exp(D_i dt). The factors are computed once, at construction.
 */
module Diagonal {
  import opened Complex

  /** The stored propagator: one factor per diagonal entry, and the step it was built for. */
  datatype Diagonal = Diagonal(diag: seq<Complex>, dt: real)

  /** `new`: one factor exp(d * dt) per entry of the diagonal; `exp` is the scalar exponential. */
  function New(d: seq<Complex>, dt: real, exp: Complex -> Complex): (p: Diagonal)
    ensures |p.diag| == |d| && p.dt == dt
    ensures forall i :: 0 <= i < |d| ==> p.diag[i] == exp(Scale(dt, d[i]))
  {
    Diagonal(seq(|d|, i requires 0 <= i < |d| => exp(Scale(dt, d[i]))), dt)
  }

  /**
   * The meaning of `iterate`: entry i multiplied by factor i wherever both
   * exist; entries of x beyond the diagonal's length are left as they are.
   */
  function ApplyOf(p: Diagonal, x: seq<Complex>): (y: seq<Complex>)
    ensures |y| == |x|
  {
    seq(|x|, i requires 0 <= i < |x| => if i < |p.diag| then Mul(x[i], p.diag[i]) else x[i])
  }

  /** `iterate` on an owned state: walk x and the factors side by side, as far as the shorter goes. */
  method Iterate(p: Diagonal, x: seq<Complex>) returns (y: seq<Complex>)
    ensures y == ApplyOf(p, x)
  {
    y := x;
    var m := if |x| < |p.diag| then |x| else |p.diag|;
    for i := 0 to m
      invariant |y| == |x|
      invariant forall j :: 0 <= j < i ==> y[j] == Mul(x[j], p.diag[j])
      invariant forall j :: i <= j < |x| ==> y[j] == x[j]
    {
      y := y[i := Mul(y[i], p.diag[i])];
    }
  }

  function GetDt(p: Diagonal): real {
    p.dt
  }

  /** `get_dt` returns the step the propagator was built for. */
  lemma GetDtOfNew(d: seq<Complex>, dt: real, exp: Complex -> Complex)
    ensures GetDt(New(d, dt, exp)) == dt
  {
  }

  /** Entries beyond the diagonal's length are never touched. */
  lemma BeyondDiagonalUnchanged(p: Diagonal, x: seq<Complex>, i: nat)
    requires |p.diag| <= i < |x|
    ensures ApplyOf(p, x)[i] == x[i]
  {
  }

  /** The zero state stays zero. */
  lemma {:induction false} ZeroStaysZero(p: Diagonal, z: seq<Complex>, i: nat)
    requires forall k :: 0 <= k < |z| ==> z[k] == Zero
    requires i < |z|
    ensures ApplyOf(p, z)[i] == Zero
  {
    if i < |p.diag| {
      MulZeroRight(p.diag[i]);
    }
  }

  /** Two steps multiply each covered entry by the square of its factor. */
  lemma {:induction false} TwoSteps(p: Diagonal, x: seq<Complex>, i: nat)
    requires i < |x| && i < |p.diag|
    ensures ApplyOf(p, ApplyOf(p, x))[i] == Mul(x[i], Mul(p.diag[i], p.diag[i]))
  {
    MulAssoc(x[i], p.diag[i], p.diag[i]);
  }

  lemma ScaleDistributes(s: real, t: real, z: Complex)
    ensures Scale(s + t, z) == Add(Scale(s, z), Scale(t, z))
  {
  }

  /**
   * The propagator is exact: given exp(z + w) = exp(z) exp(w), a step built
   * for s followed by a step built for t is the step built for s + t.
   */
  lemma {:induction false} StepsCompose(d: seq<Complex>, s: real, t: real, exp: Complex -> Complex, x: seq<Complex>)
    requires forall z: Complex, w: Complex :: exp(Add(z, w)) == Mul(exp(z), exp(w))
    ensures ApplyOf(New(d, t, exp), ApplyOf(New(d, s, exp), x)) == ApplyOf(New(d, s + t, exp), x)
  {
    var ps, pt, pst := New(d, s, exp), New(d, t, exp), New(d, s + t, exp);
    forall i | 0 <= i < |x|
      ensures ApplyOf(pt, ApplyOf(ps, x))[i] == ApplyOf(pst, x)[i]
    {
      if i < |d| {
        var a, b := Scale(s, d[i]), Scale(t, d[i]);
        ScaleDistributes(s, t, d[i]);
        assert pst.diag[i] == exp(Add(a, b)) == Mul(exp(a), exp(b));
        MulAssoc(x[i], exp(a), exp(b));
      }
    }
  }
}
