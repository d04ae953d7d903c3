/**
 * The GOY shell model of the turbulent energy cascade (src/ode/goy_shell.rs):
 *
 *   (d/dt + nu k_n^2) u_n = i k_n (a u*_{n+1} u*_{n+2} + b/2 u*_{n-1} u*_{n+1}
 *                                  + c/4 u*_{n-1} u*_{n-2}) + f delta_{n,m}
 *
 * with k_n = k0 2^n, a = 1, b = -e, c = -(1 - e). The nonlinear part is
 * evaluated in place by a sliding window of five conjugated neighbours.
 */
module GoyShell {
  import opened Complex
  import opened ShellSweep

  datatype GoyShell = GoyShell(size: nat, nu: real, e: real, k0: real, f: real, fIdx: nat)

  /** 2^n, the integer power in `k(n)` converted to a scalar. */
  function Pow2(n: nat): real {
    if n == 0 then 1.0 else 2.0 * Pow2(n - 1)
  }

  function Pow4(n: nat): real {
    if n == 0 then 1.0 else 4.0 * Pow4(n - 1)
  }

  lemma {:induction false} Pow2Squared(n: nat)
    ensures Pow2(n) * Pow2(n) == Pow4(n)
  {
    if n > 0 {
      Pow2Squared(n - 1);
      calc {
        Pow2(n) * Pow2(n);
        (2.0 * Pow2(n - 1)) * (2.0 * Pow2(n - 1));
        4.0 * (Pow2(n - 1) * Pow2(n - 1));
      }
    }
  }

  /** The wave number of shell n, as an imaginary number. */
  function K(p: GoyShell, n: nat): Complex {
    Complex(0.0, p.k0 * Pow2(n))
  }

  /** `nu * k(n) * k(n)`, the damping of shell n. */
  function Rate(p: GoyShell, n: nat): Complex {
    Mul(Scale(p.nu, K(p, n)), K(p, n))
  }

  /** The damping rate of shell n is real and equals -nu k0^2 4^n; it is nonpositive when nu is nonnegative. */
  lemma {:induction false} DampingRate(p: GoyShell, n: nat)
    ensures Rate(p, n) == Complex(-(p.nu * p.k0 * p.k0 * Pow4(n)), 0.0)
    ensures p.nu >= 0.0 ==> Rate(p, n).re <= 0.0
  {
    var q := Pow2(n);
    Pow2Squared(n);
    var r := p.nu * p.k0 * p.k0 * Pow4(n);
    ImaginarySquare(p.nu, p.k0, q, Pow4(n), r);
  }

  /** nu (i k0 q)^2 with q^2 = q4 is the real number -nu k0^2 q4, and it is nonpositive when nu >= 0. */
  lemma ImaginarySquare(nu: real, k0: real, q: real, q4: real, r: real)
    requires q * q == q4 && r == nu * k0 * k0 * q4
    ensures Mul(Scale(nu, Complex(0.0, k0 * q)), Complex(0.0, k0 * q)) == Complex(-r, 0.0)
    ensures nu >= 0.0 ==> -r <= 0.0
  {
    var kq := k0 * q;
    assert (nu * kq) * kq == nu * k0 * k0 * (q * q);
    if nu >= 0.0 {
      assert k0 * k0 >= 0.0 && q4 >= 0.0;
      assert nu * (k0 * k0) >= 0.0;
    }
  }

  /** The parameters of the reference run; they meet every requirement of Nlin and Diag. */
  function Default(): (p: GoyShell)
    ensures p.size == 27 && p.fIdx == 4 && p.nu == 0.000000001 && p.e == 0.5 && p.k0 == 0.0625 && p.f == 0.005
    ensures 3 <= p.size && p.fIdx < p.size
    ensures p.nu >= 0.0 && 0.0 <= p.e <= 1.0 && p.k0 > 0.0
  {
    GoyShell(27, 0.000000001, 0.5, 0.0625, 0.005, 4)
  }

  function ModelSize(p: GoyShell): (n: nat)
    ensures n == p.size
  {
    p.size
  }

  /**
   * The diagonal (linear, stiff) part of the model: one real, nonpositive
   * damping rate per shell.
   */
  function Diag(p: GoyShell): (d: seq<Complex>)
    ensures |d| == ModelSize(p)
    ensures forall n :: 0 <= n < |d| ==> d[n] == Complex(-(p.nu * p.k0 * p.k0 * Pow4(n)), 0.0)
    ensures p.nu >= 0.0 ==> forall n :: 0 <= n < |d| ==> d[n].re <= 0.0
  {
    var d := seq(p.size, n requires 0 <= n => Rate(p, n));
    DampingRates(p, d);
    d
  }

  /** A sequence of the damping rates of the shells, in order, holds the real rates -nu k0^2 4^n. */
  lemma {:induction false} DampingRates(p: GoyShell, d: seq<Complex>)
    requires forall n :: 0 <= n < |d| ==> d[n] == Rate(p, n)
    ensures forall n :: 0 <= n < |d| ==> d[n] == Complex(-(p.nu * p.k0 * p.k0 * Pow4(n)), 0.0)
    ensures p.nu >= 0.0 ==> forall n :: 0 <= n < |d| ==> d[n].re <= 0.0
  {
    forall n | 0 <= n < |d|
      ensures d[n] == Complex(-(p.nu * p.k0 * p.k0 * Pow4(n)), 0.0)
      ensures p.nu >= 0.0 ==> d[n].re <= 0.0
    {
      DampingRate(p, n);
    }
  }

  /**
   * One evaluation of the coupling of a shell with wave number k from the
   * conjugated neighbours m2, m1 (below) and p1, p2 (above), as the loop
   * body of `nlin` writes it.
   */
  function Coupling(k: Complex, e: real, m2: Complex, m1: Complex, p1: Complex, p2: Complex): Complex {
    var a, b, c := 1.0, -e, -(1.0 - e);
    Mul(k, Add(Add(Mul(Scale(a, p1), p2), Mul(Scale(0.5 * b, p1), m1)), Mul(Scale(0.25 * c, m1), m2)))
  }

  lemma CouplingOfRest(k: Complex, e: real)
    ensures Coupling(k, e, Zero, Zero, Zero, Zero) == Zero
  {
  }

  /** The GOY rule: shell i has wave number k(i). */
  function GoyRule(p: GoyShell): Rule {
    (i: nat, m2: Complex, m1: Complex, p1: Complex, p2: Complex) => Coupling(K(p, i), p.e, m2, m1, p1, p2)
  }

  /** The GOY coupling of shell i, computed from the original state v0 only. */
  function Stencil(p: GoyShell, v0: seq<Complex>, bound: nat, i: nat): Complex
    requires bound <= |v0|
  {
    Coupling(K(p, i), p.e, C(v0, bound, i - 2), C(v0, bound, i - 1), C(v0, bound, i + 1), C(v0, bound, i + 2))
  }

  /** The kernel without the forcing. */
  function Unforced(p: GoyShell, v0: seq<Complex>): (u: seq<Complex>)
    requires Window(p.size) <= |v0|
  {
    SweepOf(GoyRule(p), p.size, v0)
  }

  /** The out-of-place meaning of `nlin`: the coupling on every shell plus the forcing f on shell f_idx. */
  function NlinOf(p: GoyShell, v0: seq<Complex>): (r: seq<Complex>)
    requires Window(p.size) <= |v0| && p.fIdx < |v0|
  {
    var u := Unforced(p, v0);
    u[p.fIdx := Add(u[p.fIdx], FromReal(p.f))]
  }

  /** `nlin`: the sweep with the GOY coupling, then the forcing added in place to entry f_idx. */
  method Nlin(p: GoyShell, v: array<Complex>)
    requires 3 <= v.Length && p.size <= v.Length && p.fIdx < v.Length
    modifies v
    ensures v[..] == NlinOf(p, old(v[..]))
  {
    Sweep(GoyRule(p), p.size, v);
    v[p.fIdx] := Add(v[p.fIdx], FromReal(p.f));
  }

  /**
   * With at least three shells the window is exactly [0, size): the kernel is
   * the GOY equation with u_j = 0 outside the shells, so entries at and
   * beyond size neither feed the result nor change (unless f_idx points there).
   */
  lemma {:induction false} ZeroPadded(p: GoyShell, v0: seq<Complex>, w0: seq<Complex>, i: nat)
    requires 3 <= p.size <= |v0| && p.fIdx < |v0|
    requires |w0| == |v0| && v0[..p.size] == w0[..p.size]
    requires i < |v0|
    ensures i < p.size ==> NlinOf(p, v0)[i] == NlinOf(p, w0)[i]
    ensures i < p.size ==> NlinOf(p, v0)[i] == Add(Stencil(p, v0, p.size, i), if i == p.fIdx then FromReal(p.f) else Zero)
    ensures p.size <= i && i != p.fIdx ==> NlinOf(p, v0)[i] == v0[i]
  {
    if i < p.size {
      ShellsOnly(GoyRule(p), p.size, v0, w0, i);
      assert Window(p.size) == p.size;
    }
  }

  /** The forcing adds exactly f, as a real number, to shell f_idx and nothing to any other entry. */
  lemma ForcingOnlyAtIndex(p: GoyShell, v0: seq<Complex>, j: nat)
    requires Window(p.size) <= |v0| && p.fIdx < |v0| && j < |v0|
    ensures j != p.fIdx ==> NlinOf(p, v0)[j] == NlinOf(p.(f := 0.0), v0)[j]
    ensures j == p.fIdx ==> NlinOf(p, v0)[j].re == NlinOf(p.(f := 0.0), v0)[j].re + p.f
    ensures NlinOf(p, v0)[j].im == NlinOf(p.(f := 0.0), v0)[j].im
  {
    var q := p.(f := 0.0);
    forall i | 0 <= i < |v0| ensures Unforced(p, v0)[i] == Unforced(q, v0)[i] {
      assert K(p, i) == K(q, i);
    }
    assert Unforced(p, v0) == Unforced(q, v0);
  }

  /** The state at rest is driven only by the forcing: the kernel returns f on shell f_idx and zero on every other shell. */
  lemma {:induction false} RestIsForcedOnly(p: GoyShell, z: seq<Complex>, j: nat)
    requires 3 <= p.size <= |z| && p.fIdx < |z| && j < p.size
    requires forall k :: 0 <= k < |z| ==> z[k] == Zero
    ensures NlinOf(p, z)[j] == if j == p.fIdx then FromReal(p.f) else Zero
  {
    var u := Unforced(p, z);
    assert u[j] == Zero by {
      RestWindow(GoyRule(p), p.size, z, j);
      assert u[j] == Coupling(K(p, j), p.e, Zero, Zero, Zero, Zero);
      CouplingOfRest(K(p, j), p.e);
    }
  }
}
