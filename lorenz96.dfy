/**
 * The Lorenz-96 model (src/ode/lorenz96.rs): a ring of sites with
 *
 *   dx_i/dt = (x_{i+1} - x_{i-2}) x_{i-1} - x_i + F,
 *
 * indices taken cyclically. The right-hand side is evaluated in place from a
 * snapshot of the state, with the neighbours found by unsigned `%` arithmetic.
 */
module Lorenz96 {

  datatype Lorenz96 = Lorenz96(f: real, n: nat)

  /** The reference run: forcing 8 on 40 sites, a size the stencil accepts. */
  function Default(): (p: Lorenz96)
    ensures p.f == 8.0
    ensures p.n != 1 && ModelSize(p) == 40
  {
    Lorenz96(8.0, 40)
  }

  function ModelSize(p: Lorenz96): (n: nat)
    ensures n == p.n
  {
    p.n
  }

  /** Index j of a ring of n sites, for j at most one turn away from [0, n). */
  function Wrap(j: int, n: nat): (k: nat)
    requires -(n as int) <= j < 2 * n
    ensures n > 0 ==> k < n
  {
    if j < 0 then j + n else if j >= n then j - n else j
  }

  /**
   * The out-of-place meaning of `rhs`: every entry computed from the original
   * state v0 with the cyclic neighbours i + 1, i - 1 and i - 2, n being the
   * length of the state itself.
   */
  function RhsOf(f: real, v0: seq<real>): (r: seq<real>)
    requires |v0| != 1
    ensures |r| == |v0|
  {
    seq(|v0|, i requires 0 <= i < |v0| => Site(f, v0, i))
  }

  /** The tendency of site i: (x_{i+1} - x_{i-2}) x_{i-1} - x_i + F, neighbours taken around the ring. */
  function Site(f: real, v0: seq<real>, i: nat): real
    requires |v0| != 1 && i < |v0|
  {
    var n := |v0|;
    (v0[Wrap(i + 1, n)] - v0[Wrap(i - 2, n)]) * v0[Wrap(i - 1, n)] - v0[i] + f
  }

  lemma ModOfSmall(x: int, n: int)
    requires 0 <= x < n
    ensures x % n == x
  {
  }

  lemma ModWrap(x: int, n: int)
    requires n <= x < 2 * n
    ensures x % n == x - n
  {
    assert (x - n) + n * 1 == x;
  }

  lemma ModNegative(x: int, n: int)
    requires -n <= x < 0
    ensures x % n == x + n
  {
    assert (x + n) + n * (-1) == x;
  }

  /** Within one turn of the ring, Wrap is the mathematical (Euclidean) cyclic index. */
  lemma {:induction false} WrapIsModulo(j: int, n: nat)
    requires n > 0 && -(n as int) <= j < 2 * n
    ensures Wrap(j, n) == j % n
  {
    if j < 0 { ModNegative(j, n); } else if j >= n { ModWrap(j, n); } else { ModOfSmall(j, n); }
  }

  /** For n >= 2 the unsigned neighbour indices never underflow and land on the cyclic neighbours of site i. */
  lemma {:induction false} UnsignedNeighbours(n: nat, i: nat)
    requires 2 <= n && i < n
    ensures (i + 1) % n == Wrap(i + 1, n)
    ensures (i + n - 1) % n == Wrap(i - 1, n)
    ensures (i + n - 2) % n == Wrap(i - 2, n)
  {
    if i + 1 < n { ModOfSmall(i + 1, n); } else { ModWrap(i + 1, n); }
    if i >= 1 { ModWrap(i + n - 1, n); } else { ModOfSmall(i + n - 1, n); }
    if i >= 2 { ModWrap(i + n - 2, n); } else { ModOfSmall(i + n - 2, n); }
  }

  /**
   * For n >= 2 the indices (i + 1) % n, (i + n - 1) % n and (i + n - 2) % n
   * lie in [0, n) and are i + 1, i - 1 and i - 2 modulo n.
   */
  lemma {:induction false} NeighbourIndices(n: nat, i: nat)
    requires 2 <= n && i < n
    ensures 0 <= (i + 1) % n < n
    ensures 0 <= (i + n - 1) % n < n && (i + n - 1) % n == (i - 1) % n
    ensures 0 <= (i + n - 2) % n < n && (i + n - 2) % n == (i - 2) % n
  {
    UnsignedNeighbours(n, i);
    WrapIsModulo(i + 1, n);
    WrapIsModulo(i - 1, n);
    WrapIsModulo(i - 2, n);
  }

  /** Site i computed with the unsigned `%` neighbour indices of the source is the tendency of site i. */
  lemma {:induction false} SiteByModulo(f: real, v0: seq<real>, i: nat, p1: nat, m1: nat, m2: nat)
    requires 2 <= |v0| && i < |v0|
    requires p1 == (i + 1) % |v0| && m1 == (i + |v0| - 1) % |v0| && m2 == (i + |v0| - 2) % |v0|
    ensures p1 < |v0| && m1 < |v0| && m2 < |v0|
    ensures Site(f, v0, i) == (v0[p1] - v0[m2]) * v0[m1] - v0[i] + f
  {
    UnsignedNeighbours(|v0|, i);
  }

  /**
   * `rhs`: take a snapshot v0 of the state, then overwrite every v[i] from
   * the snapshot only, with the neighbours found by unsigned `%` arithmetic.
   */
  method Rhs(p: Lorenz96, v: array<real>)
    requires v.Length != 1
    modifies v
    ensures v[..] == RhsOf(p.f, old(v[..]))
  {
    var n := v.Length;
    var v0 := v[..];
    for i := 0 to n
      invariant forall j :: 0 <= j < i ==> v[j] == RhsOf(p.f, v0)[j]
    {
      var p1 := (i + 1) % n;
      var m1 := (i + n - 1) % n;
      var m2 := (i + n - 2) % n;
      SiteByModulo(p.f, v0, i, p1, m1, m2);
      v[i] := (v0[p1] - v0[m2]) * v0[m1] - v0[i] + p.f;
    }
  }

  /** The ring turned by one site: entry i is the old entry i + 1, the first site moving to the end. */
  function Rotate(v: seq<real>): (w: seq<real>)
    requires |v| > 0
  {
    v[1..] + [v[0]]
  }

  lemma RotateAt(v: seq<real>, i: nat)
    requires 0 < |v| && i < |v|
    ensures Rotate(v)[i] == v[Wrap(i + 1, |v|)]
  {
  }

  /**
   * The Lorenz-96 right-hand side commutes with turning the ring: no site is
   * special, as the cyclic stencil promises.
   */
  lemma {:induction false} RhsCommutesWithRotation(f: real, v: seq<real>)
    requires |v| >= 2
    ensures RhsOf(f, Rotate(v)) == Rotate(RhsOf(f, v))
  {
    forall i | 0 <= i < |v|
      ensures RhsOf(f, Rotate(v))[i] == Rotate(RhsOf(f, v))[i]
    {
      RotateAt(RhsOf(f, v), i);
      SiteRotated(f, v, i);
    }
  }

  /** Site i of the turned ring is site i + 1 of the original one. */
  lemma {:induction false} SiteRotated(f: real, v: seq<real>, i: nat)
    requires |v| >= 2 && i < |v|
    ensures Site(f, Rotate(v), i) == Site(f, v, Wrap(i + 1, |v|))
  {
    var n := |v|;
    var w := Rotate(v);
    var k := Wrap(i + 1, n);
    WrapShift(i, n);
    RotateAt(v, i);
    RotateAt(v, Wrap(i + 1, n));
    RotateAt(v, Wrap(i - 2, n));
    RotateAt(v, Wrap(i - 1, n));
  }

  /** Moving every index of the stencil one site on stays within the ring. */
  lemma WrapShift(i: nat, n: nat)
    requires 2 <= n && i < n
    ensures var k := Wrap(i + 1, n);
      Wrap(Wrap(i + 1, n) + 1, n) == Wrap(k + 1, n) &&
      Wrap(Wrap(i - 2, n) + 1, n) == Wrap(k - 2, n) &&
      Wrap(Wrap(i - 1, n) + 1, n) == Wrap(k - 1, n)
  {
  }

  /** A uniform state equal to the forcing is an equilibrium: its right-hand side is zero everywhere. */
  lemma {:induction false} UniformForcingIsEquilibrium(f: real, v: seq<real>, i: nat)
    requires |v| != 1 && i < |v|
    requires forall k :: 0 <= k < |v| ==> v[k] == f
    ensures RhsOf(f, v)[i] == 0.0
  {
    var n := |v|;
    assert v[Wrap(i + 1, n)] == f;
    assert v[Wrap(i - 2, n)] == f;
  }
}
