/** The older Rössler revision (src/model/roessler.rs): the same kernel on a borrowed buffer. */
module RoesslerModel {
  import R = Roessler

  /** The classical parameters, the same as in the newer revision. */
  function Default(): (q: R.Roessler)
    ensures q == R.Default()
  {
    R.Roessler(0.2, 0.2, 5.7)
  }

  function ModelSize(q: R.Roessler): (n: nat)
    ensures n == R.ModelSize(q)
  {
    3
  }

  /** `rhs`: the Rössler equations in place, every output from the original x, y, z. */
  method Rhs(q: R.Roessler, v: array<real>)
    requires v.Length >= 3
    modifies v
    ensures v[..] == R.RhsOf(q, old(v[..]))
  {
    ghost var v0 := v[..];
    var x := v[0];
    var y := v[1];
    var z := v[2];
    assert x == v0[0] && y == v0[1] && z == v0[2];
    v[0] := -y - z;
    v[1] := x + q.a * y;
    v[2] := q.b + x * z - q.c * z;
    forall k | 0 <= k < v.Length
      ensures v[k] == R.RhsOf(q, v0)[k]
    {
      if k >= 3 {
        assert R.RhsOf(q, v0)[k] == R.RhsOf(q, v0)[3..][k - 3];
      } else {
        assert R.RhsOf(q, v0)[0] == -v0[1] - v0[2];
        assert R.RhsOf(q, v0)[1] == v0[0] + q.a * v0[1];
        assert R.RhsOf(q, v0)[2] == q.b + v0[0] * v0[2] - q.c * v0[2];
      }
    }
  }
}
