/**
 * The in-place sliding-window sweep of the GOY shell kernels
 * (src/ode/goy_shell.rs and src/model/goy_shell.rs): each shell is
 * overwritten with a rule applied to the conjugates of its neighbours
 * i-2, i-1, i+1, i+2, which five rotating locals carry along.
 */
module ShellSweep {
  import opened Complex

  /**
   * The number of leading entries the sweep treats as shells: it reads v[0],
   * v[1], v[2] before looking at `size`, so below three shells those entries
   * still feed the stencil.
   */
  function Window(size: nat): nat {
    if size < 3 then 3 else size
  }

  /** Conjugate of the original entry j as the window sees it: zero outside [0, bound). */
  function C(v0: seq<Complex>, bound: nat, j: int): Complex
    requires bound <= |v0|
  {
    if 0 <= j < bound then Conj(v0[j]) else Zero
  }

  /** What the sweep writes into shell i, given the conjugated neighbours i-2, i-1, i+1, i+2. */
  type Rule = (nat, Complex, Complex, Complex, Complex) -> Complex

  /** The out-of-place meaning of the sweep: the rule applied to the original values on every shell, the rest as it was. */
  function SweepOf(rule: Rule, size: nat, v0: seq<Complex>): (u: seq<Complex>)
    requires Window(size) <= |v0|
  {
    var w := Window(size);
    seq(|v0|, i requires 0 <= i < |v0| =>
      if i < size then rule(i, C(v0, w, i - 2), C(v0, w, i - 1), C(v0, w, i + 1), C(v0, w, i + 2)) else v0[i])
  }

  /**
   * The in-place sweep of `nlin`: left to right, overwriting v[i] while the
   * locals am2, am1, a0, ap1, ap2 carry the conjugates of the original
   * neighbours i-2 .. i+2; v[i+3] is read one step before it is written.
   * The result is the out-of-place stencil over the original values.
   */
  method Sweep(rule: Rule, size: nat, v: array<Complex>)
    requires 3 <= v.Length && size <= v.Length
    modifies v
    ensures v[..] == SweepOf(rule, size, old(v[..]))
  {
    ghost var v0 := v[..];
    ghost var w := Window(size);
    ghost var u := SweepOf(rule, size, v0);
    var am2 := Zero;
    var am1 := Zero;
    var a0 := Conj(v[0]);
    var ap1 := Conj(v[1]);
    var ap2 := Conj(v[2]);

    for i := 0 to size
      invariant am2 == C(v0, w, i - 2) && am1 == C(v0, w, i - 1) && a0 == C(v0, w, i)
      invariant ap1 == C(v0, w, i + 1) && ap2 == C(v0, w, i + 2)
      invariant forall j :: 0 <= j < i ==> v[j] == u[j]
      invariant forall j :: i <= j < v.Length ==> v[j] == v0[j]
    {
      v[i] := rule(i, am2, am1, ap1, ap2);
      assert v[i] == u[i];
      am2 := am1;
      am1 := a0;
      a0 := ap1;
      ap1 := ap2;
      if i + 3 < size {
        // the look-ahead entry has not been overwritten yet
        assert v[i + 3] == v0[i + 3];
        ap2 := Conj(v[i + 3]);
        assert w == size && ap2 == C(v0, w, i + 3);
      } else {
        ap2 := Zero;
        assert i + 3 >= w && ap2 == C(v0, w, i + 3);
      }
    }
    assert forall j :: 0 <= j < v.Length ==> v[j] == u[j];
    assert v[..] == u;
  }

  /** Two states that agree on the first `bound` entries look the same through the window. */
  lemma SameWindow(v0: seq<Complex>, w0: seq<Complex>, bound: nat, j: int)
    requires bound <= |v0| && |w0| == |v0| && v0[..bound] == w0[..bound]
    ensures C(v0, bound, j) == C(w0, bound, j)
  {
    if 0 <= j < bound {
      assert v0[j] == v0[..bound][j];
      assert w0[j] == w0[..bound][j];
    }
  }

  /** With at least three shells, a shell's new value depends on the shells alone, not on the entries past them. */
  lemma {:induction false} ShellsOnly(rule: Rule, size: nat, v0: seq<Complex>, w0: seq<Complex>, i: nat)
    requires 3 <= size <= |v0| && |w0| == |v0| && v0[..size] == w0[..size] && i < size
    ensures SweepOf(rule, size, v0)[i] == SweepOf(rule, size, w0)[i]
  {
    SameWindow(v0, w0, size, i - 2);
    SameWindow(v0, w0, size, i - 1);
    SameWindow(v0, w0, size, i + 1);
    SameWindow(v0, w0, size, i + 2);
  }

  /** A state at rest feeds only zeros to the rule. */
  lemma RestWindow(rule: Rule, size: nat, z: seq<Complex>, j: nat)
    requires 3 <= size <= |z| && j < size
    requires forall k :: 0 <= k < |z| ==> z[k] == Zero
    ensures SweepOf(rule, size, z)[j] == rule(j, Zero, Zero, Zero, Zero)
  {
    var w := Window(size);
    assert w == size;
    assert C(z, w, j - 2) == Zero;
    assert C(z, w, j - 1) == Zero;
    assert C(z, w, j + 1) == Zero;
    assert C(z, w, j + 2) == Zero;
  }

  /**
   * Below three shells the window is wider than the shells: with two shells,
   * entry 2, which is not a shell, is the second upper neighbour of shell 0.
   */
  lemma TwoShellsReadEntryTwo(rule: Rule, v0: seq<Complex>)
    requires 3 <= |v0|
    ensures SweepOf(rule, 2, v0)[0] == rule(0, Zero, Zero, Conj(v0[1]), Conj(v0[2]))
  {
  }
}
