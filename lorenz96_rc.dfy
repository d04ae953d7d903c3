/**
 * The oldest Lorenz-96 revision (src/lorenz96.rs): `rhs` takes the state by
 * value, clones it as the snapshot and returns the overwritten array.
 */
module Lorenz96Rc {
  import L96 = Lorenz96

  datatype Lorenz96 = Lorenz96(f: real)

  /** The default forcing, the same as in the newer revisions. */
  function Default(): (p: Lorenz96)
    ensures p.f == L96.Default().f
  {
    Lorenz96(8.0)
  }

  /**
   * `rhs` on an owned state: the returned array has the input's length and
   * every entry is the cyclic stencil over the cloned original.
   */
  method Rhs(p: Lorenz96, v: seq<real>) returns (r: seq<real>)
    requires |v| != 1
    ensures r == L96.RhsOf(p.f, v)
  {
    var n := |v|;
    var v0 := v;
    r := v;
    for i := 0 to n
      invariant |r| == n
      invariant forall j :: 0 <= j < i ==> r[j] == L96.RhsOf(p.f, v0)[j]
    {
      var p1 := (i + 1) % n;
      var m1 := (i + n - 1) % n;
      var m2 := (i + n - 2) % n;
      L96.SiteByModulo(p.f, v0, i, p1, m1, m2);
      r := r[i := (v0[p1] - v0[m2]) * v0[m1] - v0[i] + p.f];
    }
  }
}
