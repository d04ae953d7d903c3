/**
 * The older Lorenz-96 revision (src/model/lorenz96.rs): only the forcing is
 * a parameter, and `rhs` works in place on a borrowed buffer after taking a
 * `to_owned` snapshot.
 */
module Lorenz96Model {
  import L96 = Lorenz96

  datatype Lorenz96 = Lorenz96(f: real)

  /** The default forcing, the same as in the newer revision. */
  function Default(): (p: Lorenz96)
    ensures p.f == L96.Default().f
  {
    Lorenz96(8.0)
  }

  /**
   * `rhs`: snapshot, then every v[i] overwritten once from the snapshot
   * only; the result is the cyclic Lorenz-96 stencil over the original state.
   */
  method Rhs(p: Lorenz96, v: array<real>)
    requires v.Length != 1
    modifies v
    ensures v[..] == L96.RhsOf(p.f, old(v[..]))
  {
    var n := v.Length;
    var v0 := v[..];
    for i := 0 to n
      invariant forall j :: 0 <= j < i ==> v[j] == L96.RhsOf(p.f, v0)[j]
    {
      var p1 := (i + 1) % n;
      var m1 := (i + n - 1) % n;
      var m2 := (i + n - 2) % n;
      L96.SiteByModulo(p.f, v0, i, p1, m1, m2);
      v[i] := (v0[p1] - v0[m2]) * v0[m1] - v0[i] + p.f;
    }
  }
}
