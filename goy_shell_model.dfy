/**
 * The older GOY shell revision (src/model/goy_shell.rs): the same
 * sliding-window kernel, with the forcing written as
 * v[f_idx] = v[f_idx] + f, and the same diagonal.
 */
module GoyShellModel {
  import opened Complex
  import opened ShellSweep
  import G = GoyShell

  /** The reference run of this revision, the same parameters as the newer one. */
  function Default(): (p: G.GoyShell)
    ensures p == G.Default()
  {
    G.GoyShell(27, 0.000000001, 0.5, 0.0625, 0.005, 4)
  }

  /** `diag`: the same diagonal as the newer revision, one entry nu k(n) k(n) per shell, real and nonpositive when nu >= 0. */
  function Diag(p: G.GoyShell): (d: seq<Complex>)
    ensures |d| == p.size
    ensures forall n :: 0 <= n < |d| ==> d[n] == Complex(-(p.nu * p.k0 * p.k0 * G.Pow4(n)), 0.0)
    ensures p.nu >= 0.0 ==> forall n :: 0 <= n < |d| ==> d[n].re <= 0.0
  {
    G.Diag(p)
  }

  /**
   * `nlin`: the in-place sweep with the GOY coupling, then
   * v[f_idx] = v[f_idx] + f; the result is the out-of-place stencil over the
   * original values plus the forcing, as in the newer revision.
   */
  method Nlin(p: G.GoyShell, v: array<Complex>)
    requires 3 <= v.Length && p.size <= v.Length && p.fIdx < v.Length
    modifies v
    ensures v[..] == G.NlinOf(p, old(v[..]))
  {
    Sweep(G.GoyRule(p), p.size, v);
    v[p.fIdx] := Add(v[p.fIdx], FromReal(p.f));
  }
}
