/**
 * The Lorenz three-variable system (src/ode/lorenz63.rs):
 *
 *   dx/dt = p (y - x),  dy/dt = x (r - z) - y,  dz/dt = x y - b z.
 *
 * Every kernel reads x, y, z into locals before overwriting v[0..3]; the
 * semi-implicit split separates the linear diagonal (-p, -1, -b) from the
 * nonlinear remainder.
 */
module Lorenz63 {

  datatype Lorenz63 = Lorenz63(p: real, r: real, b: real)

  /** The classical chaotic parameters p = 10, r = 28, b = 8/3. */
  function Default(): (l: Lorenz63)
    ensures l.p > 0.0 && l.b > 0.0 && l.r > 1.0
    ensures l.p == 10.0 && l.r == 28.0 && l.b * 3.0 == 8.0
  {
    Lorenz63(10.0, 28.0, 8.0 / 3.0)
  }

  function ModelSize(l: Lorenz63): (n: nat)
    ensures n == 3
  {
    3
  }

  /** The out-of-place meaning of `rhs`: the Lorenz equations on the first three entries, the rest kept. */
  function RhsOf(l: Lorenz63, v: seq<real>): (w: seq<real>)
    requires |v| >= 3
    ensures |w| == |v| && w[3..] == v[3..]
  {
    var x, y, z := v[0], v[1], v[2];
    [l.p * (y - x), x * (l.r - z) - y, x * y - l.b * z] + v[3..]
  }

  /** The out-of-place meaning of `nlin`: what remains of `rhs` once the diagonal part is taken out. */
  function NlinOf(l: Lorenz63, v: seq<real>): (w: seq<real>)
    requires |v| >= 3
    ensures |w| == |v| && w[3..] == v[3..]
  {
    var x, y, z := v[0], v[1], v[2];
    [l.p * y, x * (l.r - z), x * y] + v[3..]
  }

  /** `diag`: the stiff linear part, one rate per coordinate. */
  function Diag(l: Lorenz63): (d: seq<real>)
    ensures |d| == ModelSize(l)
  {
    [-l.p, -1.0, -l.b]
  }

  /** `rhs`: read x, y, z, then overwrite v[0], v[1], v[2]; every output uses the original coordinates. */
  method Rhs(l: Lorenz63, v: array<real>)
    requires v.Length >= 3
    modifies v
    ensures v[..] == RhsOf(l, old(v[..]))
  {
    ghost var v0 := v[..];
    var x := v[0];
    var y := v[1];
    var z := v[2];
    assert x == v0[0] && y == v0[1] && z == v0[2];
    v[0] := l.p * (y - x);
    v[1] := x * (l.r - z) - y;
    v[2] := x * y - l.b * z;
    forall k | 0 <= k < v.Length
      ensures v[k] == RhsOf(l, v0)[k]
    {
      if k >= 3 {
        assert RhsOf(l, v0)[k] == RhsOf(l, v0)[3..][k - 3];
      } else {
        assert RhsOf(l, v0)[0] == l.p * (v0[1] - v0[0]);
        assert RhsOf(l, v0)[1] == v0[0] * (l.r - v0[2]) - v0[1];
        assert RhsOf(l, v0)[2] == v0[0] * v0[1] - l.b * v0[2];
      }
    }
  }

  /** `nlin`: the nonlinear part, in place, from the original coordinates. */
  method Nlin(l: Lorenz63, v: array<real>)
    requires v.Length >= 3
    modifies v
    ensures v[..] == NlinOf(l, old(v[..]))
  {
    ghost var v0 := v[..];
    var x := v[0];
    var y := v[1];
    var z := v[2];
    assert x == v0[0] && y == v0[1] && z == v0[2];
    v[0] := l.p * y;
    v[1] := x * (l.r - z);
    v[2] := x * y;
    forall k | 0 <= k < v.Length
      ensures v[k] == NlinOf(l, v0)[k]
    {
      if k >= 3 {
        assert NlinOf(l, v0)[k] == NlinOf(l, v0)[3..][k - 3];
      } else {
        assert NlinOf(l, v0)[0] == l.p * v0[1];
        assert NlinOf(l, v0)[1] == v0[0] * (l.r - v0[2]);
        assert NlinOf(l, v0)[2] == v0[0] * v0[1];
      }
    }
  }

  /** The semi-implicit split is exact: nonlinear part plus diagonal times state is the full right-hand side. */
  lemma SplitConsistency(l: Lorenz63, v: seq<real>, j: nat)
    requires |v| >= 3 && j < 3
    ensures NlinOf(l, v)[j] + Diag(l)[j] * v[j] == RhsOf(l, v)[j]
  {
  }

  /** The origin is an equilibrium, of the full right-hand side and of its nonlinear part. */
  lemma OriginIsFixed(l: Lorenz63)
    ensures RhsOf(l, [0.0, 0.0, 0.0]) == [0.0, 0.0, 0.0]
    ensures NlinOf(l, [0.0, 0.0, 0.0]) == [0.0, 0.0, 0.0]
  {
  }

  /** v is an equilibrium when the right-hand side vanishes on all three coordinates. */
  predicate Equilibrium(l: Lorenz63, v: seq<real>)
    requires |v| >= 3
  {
    var w := RhsOf(l, v);
    w[0] == 0.0 && w[1] == 0.0 && w[2] == 0.0
  }

  lemma ProductZero(a: real, c: real)
    requires a != 0.0 && a * c == 0.0
    ensures c == 0.0
  {
  }

  /**
   * The equilibria of the Lorenz system: y = x, x (r - 1 - z) = 0 and
   * x^2 = b z; that is, the origin and, for b (r - 1) > 0, the pair with
   * z = r - 1 and x^2 = b (r - 1).
   */
  lemma {:induction false} EquilibriumIff(l: Lorenz63, v: seq<real>)
    requires |v| >= 3 && l.p != 0.0
    ensures Equilibrium(l, v) <==>
      v[1] == v[0] && v[0] * (l.r - 1.0 - v[2]) == 0.0 && v[0] * v[0] == l.b * v[2]
  {
    var x, y, z := v[0], v[1], v[2];
    if Equilibrium(l, v) {
      assert l.p * (y - x) == 0.0;
      ProductZero(l.p, y - x);
      assert x * (l.r - z) - y == x * (l.r - 1.0 - z) + (x - y);
    }
    if y == x {
      assert x * (l.r - z) - y == x * (l.r - 1.0 - z);
    }
  }
}
