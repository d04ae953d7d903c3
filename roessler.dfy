/**
 * The Rössler system (src/ode/roessler.rs):
 *
 *   dx/dt = -y - z,  dy/dt = x + a y,  dz/dt = b + x z - c z,
 *
 * evaluated in place after reading x, y, z into locals.
 */
module Roessler {

  datatype Roessler = Roessler(a: real, b: real, c: real)

  /** The classical parameters a = b = 0.2, c = 5.7; they give two equilibria (c^2 > 4 a b). */
  function Default(): (q: Roessler)
    ensures q.a == 0.2 && q.b == 0.2 && q.c == 5.7
    ensures q.a > 0.0 && q.c * q.c > 4.0 * q.a * q.b
  {
    Roessler(0.2, 0.2, 5.7)
  }

  function ModelSize(q: Roessler): (n: nat)
    ensures n == 3
  {
    3
  }

  /** The out-of-place meaning of `rhs`: the Rössler equations on the first three entries, the rest kept. */
  function RhsOf(q: Roessler, v: seq<real>): (w: seq<real>)
    requires |v| >= 3
    ensures |w| == |v| && w[3..] == v[3..]
  {
    var x, y, z := v[0], v[1], v[2];
    [-y - z, x + q.a * y, q.b + x * z - q.c * z] + v[3..]
  }

  /** `rhs`: read x, y, z, then overwrite v[0], v[1], v[2] from the original coordinates. */
  method Rhs(q: Roessler, v: array<real>)
    requires v.Length >= 3
    modifies v
    ensures v[..] == RhsOf(q, old(v[..]))
  {
    ghost var v0 := v[..];
    var x := v[0];
    var y := v[1];
    var z := v[2];
    assert x == v0[0] && y == v0[1] && z == v0[2];
    v[0] := -y - z;
    v[1] := x + q.a * y;
    v[2] := q.b + x * z - q.c * z;
    forall k | 0 <= k < v.Length
      ensures v[k] == RhsOf(q, v0)[k]
    {
      if k >= 3 {
        assert RhsOf(q, v0)[k] == RhsOf(q, v0)[3..][k - 3];
      } else {
        assert RhsOf(q, v0)[0] == -v0[1] - v0[2];
        assert RhsOf(q, v0)[1] == v0[0] + q.a * v0[1];
        assert RhsOf(q, v0)[2] == q.b + v0[0] * v0[2] - q.c * v0[2];
      }
    }
  }

  /** The origin is not at rest: it is pushed along z at rate b. */
  lemma OriginImage(q: Roessler)
    ensures RhsOf(q, [0.0, 0.0, 0.0]) == [0.0, 0.0, q.b]
  {
  }

  predicate Equilibrium(q: Roessler, v: seq<real>)
    requires |v| >= 3
  {
    var w := RhsOf(q, v);
    w[0] == 0.0 && w[1] == 0.0 && w[2] == 0.0
  }

  /**
   * The equilibria of the Rössler system: y = -z, x = a z, and z a root of
   * a z^2 - c z + b = 0.
   */
  lemma {:induction false} EquilibriumIff(q: Roessler, v: seq<real>)
    requires |v| >= 3
    ensures Equilibrium(q, v) <==>
      v[1] == -v[2] && v[0] == q.a * v[2] && q.a * v[2] * v[2] - q.c * v[2] + q.b == 0.0
  {
    var x, y, z := v[0], v[1], v[2];
    if Equilibrium(q, v) {
      assert y == -z;
      assert x == -(q.a * y) == q.a * z;
      assert q.b + x * z - q.c * z == q.a * z * z - q.c * z + q.b;
    }
    if y == -z && x == q.a * z {
      assert x + q.a * y == 0.0;
      assert q.b + x * z - q.c * z == q.a * z * z - q.c * z + q.b;
    }
  }
}
