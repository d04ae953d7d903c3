/**
 * The oldest Lorenz-63 revision (src/lorenz63.rs): a parameter record and a
 * free function `f` that takes the state by value and returns it overwritten.
 */
module Lorenz63Fn {
  import L63 = Lorenz63

  datatype Parameter = Parameter(p: real, r: real, b: real)

  /** The parameters of the strange attractor, the same as in the newer revisions. */
  function DefaultParameter(): (q: Parameter)
    ensures L63.Lorenz63(q.p, q.r, q.b) == L63.Default()
  {
    Parameter(10.0, 28.0, 8.0 / 3.0)
  }

  /**
   * `f`: read x, y, z, then overwrite entries 0, 1, 2 one after the other;
   * the result is the Lorenz right-hand side of the original coordinates,
   * every other entry kept.
   */
  method F(q: Parameter, v: seq<real>) returns (w: seq<real>)
    requires |v| >= 3
    ensures w == L63.RhsOf(L63.Lorenz63(q.p, q.r, q.b), v)
  {
    w := v;
    var x := w[0];
    var y := w[1];
    var z := w[2];
    assert x == v[0] && y == v[1] && z == v[2];
    w := w[0 := q.p * (y - x)];
    w := w[1 := x * (q.r - z) - y];
    w := w[2 := x * y - q.b * z];
    ghost var l := L63.Lorenz63(q.p, q.r, q.b);
    assert w[0] == l.p * (y - x) && w[1] == x * (l.r - z) - y && w[2] == x * y - l.b * z;
    forall k | 0 <= k < |w|
      ensures w[k] == L63.RhsOf(l, v)[k]
    {
      if k >= 3 {
        assert L63.RhsOf(l, v)[k] == L63.RhsOf(l, v)[3..][k - 3];
      } else {
        assert L63.RhsOf(l, v)[0] == q.p * (v[1] - v[0]);
        assert L63.RhsOf(l, v)[1] == v[0] * (q.r - v[2]) - v[1];
        assert L63.RhsOf(l, v)[2] == v[0] * v[1] - q.b * v[2];
      }
    }
  }
}
