/**
 * The finite-difference Jacobian of a time-evolution operator
 * (src/lyapunov.rs): around a base point x, a direction dx is scaled so
 * that the perturbation is at most alpha long, the perturbed point is
 * advanced one step, and the divided difference against the advanced base
 * point is returned.
 */
module Lyapunov {
  import opened Adaptor
  import opened Explicit

  /** The operator: the stepper f, the base point x, its image fx = f(x), and the perturbation size alpha. */
  datatype Jacobian = Jacobian(f: Stepper<real>, x: seq<real>, fx: seq<real>, alpha: real)

  /**
   * `jacobian`: keep x, and advance a copy of it in place to cache fx; x
   * itself is left as it was.
   */
  method NewJacobian(f: Stepper<real>, x: seq<real>, alpha: real) returns (j: Jacobian)
    requires InPlace(f)
    ensures j.f == f && j.x == x && j.alpha == alpha
    ensures j.fx == Flow(f, x)
  {
    var fx := new real[|x|](i requires 0 <= i < |x| => x[i]);
    assert fx[..] == x;
    Evolve(f, fx);
    j := Jacobian(f, x, fx[..], alpha);
  }

  function Max(a: real, b: real): real {
    if a >= b then a else b
  }

  /**
   * The scale n = alpha / max(|dx|, alpha): it shrinks a long direction to
   * length alpha and leaves a short one as it is.
   */
  function ScaleOf(nrm: real, alpha: real): (n: real)
    requires alpha > 0.0
    ensures 0.0 < n <= 1.0
    ensures n * Max(nrm, alpha) == alpha
    ensures nrm <= alpha ==> n == 1.0
  {
    alpha / Max(nrm, alpha)
  }

  /** The base point moved by n times the direction. */
  function Perturbed(x: seq<real>, d: seq<real>, n: real): (y: seq<real>)
    requires |x| == |d|
    ensures |y| == |d|
  {
    seq(|d|, i requires 0 <= i < |d| => x[i] + d[i] * n)
  }

  /** The divided difference (y - fx) / n. */
  function Quotient(y: seq<real>, fx: seq<real>, n: real): (q: seq<real>)
    requires |y| == |fx| && n != 0.0
    ensures |q| == |y|
  {
    seq(|y|, i requires 0 <= i < |y| => (y[i] - fx[i]) / n)
  }

  /** The meaning of `op`: (f(x + n dx) - f(x)) / n, n the scale of dx. */
  function OpOf(j: Jacobian, d: seq<real>, norm: seq<real> -> real): (r: seq<real>)
    requires j.alpha > 0.0 && InPlace(j.f) && |j.x| == |d| && |j.fx| == |d|
    ensures |r| == |d|
  {
    var n := ScaleOf(norm(d), j.alpha);
    var y := Flow(j.f, Perturbed(j.x, d, n));
    FlowKeepsLength(j.f, Perturbed(j.x, d, n));
    Quotient(y, j.fx, n)
  }

  /**
   * `op`: overwrite dx with x + n dx, advance that buffer in place, overwrite
   * it with the divided difference, and return the same buffer.
   */
  method Op(j: Jacobian, dx: array<real>, norm: seq<real> -> real) returns (r: array<real>)
    requires j.alpha > 0.0 && InPlace(j.f) && |j.x| == dx.Length && |j.fx| == dx.Length
    modifies dx
    ensures r == dx
    ensures dx[..] == OpOf(j, old(dx[..]), norm)
  {
    ghost var d := dx[..];
    var nrm := Max(norm(dx[..]), j.alpha);
    var n := j.alpha / nrm;
    Perturb(dx, j.x, n);
    Evolve(j.f, dx);
    ghost var y := dx[..];
    Divide(dx, j.fx, n);
    OpOfUnfolds(j, d, norm, n, y);
    r := dx;
  }

  /** The first `Zip` of `op`: dx[i] := x[i] + n dx[i], entry by entry. */
  method Perturb(dx: array<real>, x: seq<real>, n: real)
    requires |x| == dx.Length
    modifies dx
    ensures dx[..] == Perturbed(x, old(dx[..]), n)
  {
    ghost var d := dx[..];
    ghost var p := Perturbed(x, d, n);
    for i := 0 to dx.Length
      invariant forall k :: 0 <= k < i ==> dx[k] == p[k]
      invariant forall k :: i <= k < dx.Length ==> dx[k] == d[k]
    {
      assert p[i] == x[i] + dx[i] * n;
      dx[i] := x[i] + dx[i] * n;
    }
    assert dx[..] == p;
  }

  /** The second `Zip` of `op`: dx[i] := (dx[i] - fx[i]) / n, entry by entry. */
  method Divide(dx: array<real>, fx: seq<real>, n: real)
    requires |fx| == dx.Length && n != 0.0
    modifies dx
    ensures dx[..] == Quotient(old(dx[..]), fx, n)
  {
    ghost var y := dx[..];
    ghost var q := Quotient(y, fx, n);
    for i := 0 to dx.Length
      invariant forall k :: 0 <= k < i ==> dx[k] == q[k]
      invariant forall k :: i <= k < dx.Length ==> dx[k] == y[k]
    {
      assert q[i] == (dx[i] - fx[i]) / n;
      dx[i] := (dx[i] - fx[i]) / n;
    }
    assert dx[..] == q;
  }

  /** OpOf at the scale and the stepped perturbation `op` computes. */
  lemma OpOfUnfolds(j: Jacobian, d: seq<real>, norm: seq<real> -> real, n: real, y: seq<real>)
    requires j.alpha > 0.0 && InPlace(j.f) && |j.x| == |d| && |j.fx| == |d|
    requires n == j.alpha / Max(norm(d), j.alpha) && y == Flow(j.f, Perturbed(j.x, d, n))
    ensures |y| == |d| && n != 0.0
    ensures OpOf(j, d, norm) == Quotient(y, j.fx, n)
  {
    FlowKeepsLength(j.f, Perturbed(j.x, d, n));
  }

  /** For an operator built by `jacobian`, the zero direction maps to zero. */
  lemma {:induction false} ZeroDirection(j: Jacobian, d: seq<real>, norm: seq<real> -> real)
    requires j.alpha > 0.0 && InPlace(j.f) && |j.x| == |d| && |j.fx| == |d|
    requires j.fx == Flow(j.f, j.x)
    requires forall k :: 0 <= k < |d| ==> d[k] == 0.0
    ensures forall k :: 0 <= k < |d| ==> OpOf(j, d, norm)[k] == 0.0
  {
    var n := ScaleOf(norm(d), j.alpha);
    assert Perturbed(j.x, d, n) == j.x;
  }

  /**
   * For a stepper that multiplies every state by c (a linear flow; c = 1 is
   * a stepper that does nothing), the operator is exactly that linear map:
   * the divided difference is c dx, whatever the scale.
   */
  lemma {:induction false} LinearFlow(j: Jacobian, c: real, d: seq<real>, norm: seq<real> -> real)
    requires j.alpha > 0.0 && InPlace(j.f) && |j.x| == |d| && |j.fx| == |d|
    requires j.fx == Flow(j.f, j.x)
    requires forall v: seq<real> :: Flow(j.f, v) == Times(c, v)
    ensures OpOf(j, d, norm) == Times(c, d)
  {
    var n := ScaleOf(norm(d), j.alpha);
    var p := Perturbed(j.x, d, n);
    assert j.fx == Times(c, j.x);
    assert Flow(j.f, p) == Times(c, p);
    QuotientOfLinear(c, j.x, d, n, Flow(j.f, p), j.fx);
  }

  /** The divided difference of the linear map v -> c v at x in direction d is c d. */
  lemma {:induction false} QuotientOfLinear(c: real, x: seq<real>, d: seq<real>, n: real, y: seq<real>, fx: seq<real>)
    requires n != 0.0 && |x| == |d|
    requires y == Times(c, Perturbed(x, d, n)) && fx == Times(c, x)
    ensures Quotient(y, fx, n) == Times(c, d)
  {
    forall k | 0 <= k < |d|
      ensures Quotient(y, fx, n)[k] == Times(c, d)[k]
    {
      QuotientEntry(c, x, d, n, y, fx, k);
    }
  }

  lemma {:induction false} QuotientEntry(c: real, x: seq<real>, d: seq<real>, n: real, y: seq<real>, fx: seq<real>, k: nat)
    requires n != 0.0 && |x| == |d| && k < |d|
    requires y == Times(c, Perturbed(x, d, n)) && fx == Times(c, x)
    ensures Quotient(y, fx, n)[k] == c * d[k]
  {
    var p := Perturbed(x, d, n);
    assert p[k] == x[k] + d[k] * n;
    assert y[k] == c * p[k];
    assert fx[k] == c * x[k];
    DividedDifference(c, x[k], d[k], n, p[k], y[k], fx[k]);
  }

  /** The divided difference of the linear map v -> c v is c times the direction. */
  lemma DividedDifference(c: real, xk: real, dk: real, n: real, pk: real, yk: real, fk: real)
    requires n != 0.0 && pk == xk + dk * n && yk == c * pk && fk == c * xk
    ensures (yk - fk) / n == c * dk
  {
    assert yk - fk == (c * dk) * n;
  }

  /** With the zero-step adaptor as stepper (it leaves every state as it is), `op` returns dx unchanged. */
  lemma {:induction false} IdentityStepper(j: Jacobian, d: seq<real>, norm: seq<real> -> real)
    requires j.alpha > 0.0 && InPlace(j.f) && |j.x| == |d| && |j.fx| == |d|
    requires j.f.NStep? && j.f.n == 0 && j.fx == Flow(j.f, j.x)
    ensures OpOf(j, d, norm) == d
  {
    forall v: seq<real>
      ensures Flow(j.f, v) == Times(1.0, v)
    {
      ZeroStepsIsIdentity(j.f.teo, v);
    }
    LinearFlow(j, 1.0, d, norm);
  }

  /**
   * For a linear stepper the operator is additive: J v + J w = J (v + w),
   * the identity a linearity test of the Jacobian compares.
   */
  lemma {:induction false} Additive(j: Jacobian, c: real, v: seq<real>, w: seq<real>, norm: seq<real> -> real)
    requires j.alpha > 0.0 && InPlace(j.f) && |j.x| == |v| && |w| == |v| && |j.fx| == |v|
    requires j.fx == Flow(j.f, j.x)
    requires forall u: seq<real> :: Flow(j.f, u) == Times(c, u)
    ensures Plus(OpOf(j, v, norm), OpOf(j, w, norm)) == OpOf(j, Plus(v, w), norm)
  {
    LinearFlow(j, c, v, norm);
    LinearFlow(j, c, w, norm);
    LinearFlow(j, c, Plus(v, w), norm);
    TimesDistributes(c, v, w);
  }

  /** c v + c w = c (v + w). */
  lemma {:induction false} TimesDistributes(c: real, v: seq<real>, w: seq<real>)
    requires |v| == |w|
    ensures Plus(Times(c, v), Times(c, w)) == Times(c, Plus(v, w))
  {
    forall k | 0 <= k < |v|
      ensures Plus(Times(c, v), Times(c, w))[k] == Times(c, Plus(v, w))[k]
    {
      assert c * v[k] + c * w[k] == c * (v[k] + w[k]);
    }
  }

  /**
   * The linearity test as written compares J v + J w with J (w + w). Even for
   * the stepper that does nothing, where J is the identity, the two differ:
   * v = [1], w = [0] gives [1] on one side and [0] on the other.
   */
  lemma {:induction false} TestAsWrittenFails(j: Jacobian, norm: seq<real> -> real)
    requires j.alpha > 0.0 && InPlace(j.f) && |j.x| == 1 && |j.fx| == 1
    requires j.fx == Flow(j.f, j.x)
    requires forall u: seq<real> :: Flow(j.f, u) == Times(1.0, u)
    ensures Plus(OpOf(j, [1.0], norm), OpOf(j, [0.0], norm)) != OpOf(j, Plus([0.0], [0.0]), norm)
  {
    var v, w := [1.0], [0.0];
    LinearFlow(j, 1.0, v, norm);
    LinearFlow(j, 1.0, w, norm);
    LinearFlow(j, 1.0, Plus(w, w), norm);
    assert Plus(OpOf(j, v, norm), OpOf(j, w, norm))[0] == 1.0;
    assert OpOf(j, Plus(w, w), norm)[0] == 0.0;
  }
}
