/**
 * The older Lorenz-63 revision (src/model/lorenz63.rs): the same kernels on
 * a borrowed buffer, with the diagonal called `diagonal`.
 */
module Lorenz63Model {
  import L63 = Lorenz63

  /** The classical parameters, the same as in the newer revision. */
  function Default(): (l: L63.Lorenz63)
    ensures l == L63.Default()
  {
    L63.Lorenz63(10.0, 28.0, 8.0 / 3.0)
  }

  /** `diagonal`: the linear rates (-p, -1, -b); with `nlin` it splits `rhs` exactly. */
  function Diagonal(l: L63.Lorenz63): (d: seq<real>)
    ensures |d| == 3
    ensures forall v: seq<real>, j: nat | |v| >= 3 && j < 3 :: L63.NlinOf(l, v)[j] + d[j] * v[j] == L63.RhsOf(l, v)[j]
  {
    [-l.p, -1.0, -l.b]
  }

  /** `rhs`: the Lorenz equations in place, all outputs from the original x, y, z. */
  method Rhs(l: L63.Lorenz63, v: array<real>)
    requires v.Length >= 3
    modifies v
    ensures v[..] == L63.RhsOf(l, old(v[..]))
  {
    ghost var v0 := v[..];
    var x := v[0];
    var y := v[1];
    var z := v[2];
    assert x == v0[0] && y == v0[1] && z == v0[2];
    v[0] := l.p * (y - x);
    v[1] := x * (l.r - z) - y;
    v[2] := x * y - l.b * z;
    forall k | 0 <= k < v.Length
      ensures v[k] == L63.RhsOf(l, v0)[k]
    {
      if k >= 3 {
        assert L63.RhsOf(l, v0)[k] == L63.RhsOf(l, v0)[3..][k - 3];
      } else {
        assert L63.RhsOf(l, v0)[0] == l.p * (v0[1] - v0[0]);
        assert L63.RhsOf(l, v0)[1] == v0[0] * (l.r - v0[2]) - v0[1];
        assert L63.RhsOf(l, v0)[2] == v0[0] * v0[1] - l.b * v0[2];
      }
    }
  }

  /** `nlin`: the nonlinear part in place, from the original coordinates. */
  method Nlin(l: L63.Lorenz63, v: array<real>)
    requires v.Length >= 3
    modifies v
    ensures v[..] == L63.NlinOf(l, old(v[..]))
  {
    ghost var v0 := v[..];
    var x := v[0];
    var y := v[1];
    var z := v[2];
    assert x == v0[0] && y == v0[1] && z == v0[2];
    v[0] := l.p * y;
    v[1] := x * (l.r - z);
    v[2] := x * y;
    forall k | 0 <= k < v.Length
      ensures v[k] == L63.NlinOf(l, v0)[k]
    {
      if k >= 3 {
        assert L63.NlinOf(l, v0)[k] == L63.NlinOf(l, v0)[3..][k - 3];
      } else {
        assert L63.NlinOf(l, v0)[0] == l.p * v0[1];
        assert L63.NlinOf(l, v0)[1] == v0[0] * (l.r - v0[2]);
        assert L63.NlinOf(l, v0)[2] == v0[0] * v0[1];
      }
    }
  }
}
