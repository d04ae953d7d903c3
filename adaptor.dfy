/**
 * Time-evolution adaptors (src/adaptor.rs). A stepper advances a state by
 * one time step in place; `NStep` wraps a stepper so that one of its steps is
 * n inner steps, and `TimeSeries` walks a state forward, yielding a copy
 * after every step.
 */
module Adaptor {

  datatype Option<T> = None | Some(value: T)

  /**
   * A time-evolution operator: an explicit scheme, given by its time step,
   * its model size and the state it produces from a state in one step; or
   * the N-step adaptor around another stepper.
   */
  datatype Stepper<!A> =
    | Scheme(dt: real, size: nat, flow: (real, seq<A>) -> seq<A>)
    | NStep(teo: Stepper<A>, n: nat)

  /** Every scheme inside works in place: a step keeps the length of the state. */
  ghost predicate InPlace<A(!new)>(s: Stepper<A>) {
    match s
    case Scheme(_, _, flow) => forall dt: real, v: seq<A> :: |flow(dt, v)| == |v|
    case NStep(teo, _) => InPlace(teo)
  }

  /** The state after one `iterate` of s. */
  function Flow<A>(s: Stepper<A>, x: seq<A>): seq<A>
    decreases s, 0, 0
  {
    match s
    case Scheme(dt, _, flow) => flow(dt, x)
    case NStep(teo, n) => Iter(teo, n, x)
  }

  /** The state after k iterates of s. */
  function Iter<A>(s: Stepper<A>, k: nat, x: seq<A>): seq<A>
    decreases s, 1, k
  {
    if k == 0 then x else Flow(s, Iter(s, k - 1, x))
  }

  /** The scheme at the bottom of a tower of adaptors. */
  function Innermost<A>(s: Stepper<A>): (b: Stepper<A>)
    ensures b.Scheme?
  {
    match s
    case Scheme(_, _, _) => s
    case NStep(teo, _) => Innermost(teo)
  }

  /** How many steps of the innermost scheme one iterate of s performs. */
  function Steps<A>(s: Stepper<A>): nat {
    match s
    case Scheme(_, _, _) => 1
    case NStep(teo, n) => n * Steps(teo)
  }

  /** No adaptor in the tower has n = 0. */
  predicate Positive<A>(s: Stepper<A>) {
    match s
    case Scheme(_, _, _) => true
    case NStep(teo, n) => n > 0 && Positive(teo)
  }

  /** r and s are the same tower: the same n at every level, and the same size and scheme at the bottom. */
  ghost predicate SameShape<A>(r: Stepper<A>, s: Stepper<A>)
    decreases r
  {
    match r
    case Scheme(_, size, flow) => s.Scheme? && s.size == size && s.flow == flow
    case NStep(teo, n) => s.NStep? && s.n == n && SameShape(teo, s.teo)
  }

  /** `nstep`: wrap a stepper so that one iterate is n of its steps. */
  function NStepOf<A>(teo: Stepper<A>, n: nat): (s: Stepper<A>)
    ensures Steps(s) == n * Steps(teo) && Innermost(s) == Innermost(teo)
  {
    NStep(teo, n)
  }

  /** `model_size`: every adaptor delegates to its inner stepper, so the size is the innermost scheme's. */
  function ModelSize<A>(s: Stepper<A>): (size: nat)
    ensures size == Innermost(s).size
  {
    match s
    case Scheme(_, size, _) => size
    case NStep(teo, _) => ModelSize(teo)
  }

  /**
   * `get_dt`: the inner dt times n, at every level; so it is the time one
   * iterate spans, the innermost dt times the number of innermost steps.
   */
  function GetDt<A>(s: Stepper<A>): (dt: real)
    ensures dt == Innermost(s).dt * (Steps(s) as real)
  {
    match s
    case Scheme(dt, _, _) => dt
    case NStep(teo, n) => GetDt(teo) * (n as real)
  }

  /**
   * `set_dt`: store dt / n in the inner stepper, at every level; the tower's
   * shape, sizes and schemes stay as they were.
   */
  function SetDt<A>(s: Stepper<A>, dt: real): (r: Stepper<A>)
    requires Positive(s)
    ensures SameShape(r, s)
    ensures Steps(r) == Steps(s) && ModelSize(r) == ModelSize(s) && Positive(r)
    ensures Innermost(r).size == Innermost(s).size && Innermost(r).flow == Innermost(s).flow
  {
    match s
    case Scheme(_, _, _) => s.(dt := dt)
    case NStep(teo, n) => NStep(SetDt(teo, dt / (n as real)), n)
  }

  /** After `set_dt(dt)` the innermost scheme steps by dt divided by the number of its steps per iterate. */
  lemma {:induction false} SetDtInnermost<A>(s: Stepper<A>, dt: real)
    requires Positive(s)
    ensures Steps(s) > 0 && Innermost(SetDt(s, dt)).dt == dt / (Steps(s) as real)
  {
    match s
    case Scheme(_, _, _) =>
    case NStep(teo, n) =>
      var a, b := n as real, Steps(teo) as real;
      SetDtInnermost(teo, dt / a);
      PositiveSteps(teo);
      calc {
        Innermost(SetDt(s, dt)).dt;
        Innermost(SetDt(teo, dt / a)).dt;
        dt / a / b;
        { DivDiv(dt, a, b); }
        dt / (a * b);
        { CastMul(n, Steps(teo));
          DivSame(dt, a * b, Steps(s) as real); }
        dt / (Steps(s) as real);
      }
  }

  /** `get_dt` after `set_dt(dt)` gives dt back when no adaptor has n = 0. */
  lemma SetDtGetDt<A>(s: Stepper<A>, dt: real)
    requires Positive(s)
    ensures GetDt(SetDt(s, dt)) == dt
  {
    SetDtInnermost(s, dt);
    DivMul(dt, Steps(s) as real);
  }

  lemma DivMul(x: real, a: real)
    requires a != 0.0
    ensures x / a * a == x
  {
  }

  lemma DivSame(x: real, a: real, b: real)
    requires a == b && a != 0.0
    ensures x / a == x / b
  {
  }

  lemma CastMul(a: nat, b: nat)
    ensures (a * b) as real == (a as real) * (b as real)
  {
  }

  lemma DivDiv(x: real, a: real, b: real)
    requires a > 0.0 && b > 0.0
    ensures x / a / b == x / (a * b)
  {
    assert x / a / b * (a * b) == x;
  }

  lemma PositiveSteps<A>(s: Stepper<A>)
    requires Positive(s)
    ensures Steps(s) > 0
  {
  }

  /** Iterating a then b times is iterating a + b times. */
  lemma {:induction false} IterAdd<A>(s: Stepper<A>, a: nat, b: nat, x: seq<A>)
    ensures Iter(s, a + b, x) == Iter(s, b, Iter(s, a, x))
    decreases b
  {
    if b > 0 {
      IterAdd(s, a, b - 1, x);
    }
  }

  /** One iterate of s is Steps(s) steps of its innermost scheme. */
  lemma {:induction false} FlowUnfolds<A>(s: Stepper<A>, x: seq<A>)
    ensures Flow(s, x) == Iter(Innermost(s), Steps(s), x)
    decreases s, 0
  {
    match s
    case Scheme(_, _, _) =>
    case NStep(teo, n) =>
      IterUnfolds(teo, n, x);
  }

  /** k iterates of s are k * Steps(s) steps of its innermost scheme. */
  lemma {:induction false} IterUnfolds<A>(s: Stepper<A>, k: nat, x: seq<A>)
    ensures Iter(s, k, x) == Iter(Innermost(s), k * Steps(s), x)
    decreases s, k
  {
    if k > 0 {
      var b := Innermost(s);
      var m := Steps(s);
      var y := Iter(s, k - 1, x);
      IterUnfolds(s, k - 1, x);
      FlowUnfolds(s, y);
      IterAdd(b, (k - 1) * m, m, x);
      assert (k - 1) * m + m == k * m;
    }
  }

  /** Nesting `nstep(nstep(t, a), b)` performs a * b steps of t per iterate. */
  lemma {:induction false} NestedNStep<A>(t: Stepper<A>, a: nat, b: nat, x: seq<A>)
    ensures Flow(NStep(NStep(t, a), b), x) == Flow(NStep(t, a * b), x)
  {
    var s := NStep(NStep(t, a), b);
    var s' := NStep(t, a * b);
    FlowUnfolds(s, x);
    FlowUnfolds(s', x);
    var m := Steps(t);
    assert Steps(s) == Steps(s') by {
      MulAssoc(a, b, m);
    }
  }

  lemma MulAssoc(a: nat, b: nat, m: nat)
    ensures b * (a * m) == (a * b) * m
  {
  }

  /** `nstep(t, 0)` leaves the state as it is. */
  lemma ZeroStepsIsIdentity<A>(t: Stepper<A>, x: seq<A>)
    ensures Flow(NStep(t, 0), x) == x
  {
  }

  lemma {:induction false} FlowKeepsLength<A(!new)>(s: Stepper<A>, x: seq<A>)
    requires InPlace(s)
    ensures |Flow(s, x)| == |x|
    decreases s, 0
  {
    match s
    case Scheme(dt, _, flow) =>
    case NStep(teo, n) =>
      IterKeepsLength(teo, n, x);
  }

  lemma {:induction false} IterKeepsLength<A(!new)>(s: Stepper<A>, k: nat, x: seq<A>)
    requires InPlace(s)
    ensures |Iter(s, k, x)| == |x|
    decreases s, k
  {
    if k > 0 {
      IterKeepsLength(s, k - 1, x);
      FlowKeepsLength(s, Iter(s, k - 1, x));
    }
  }

  /**
   * `iterate`, in place: a scheme overwrites x with its step; the N-step
   * adaptor calls the inner stepper's `iterate` on x, n times.
   */
  method Evolve<A(!new)>(s: Stepper<A>, x: array<A>)
    requires InPlace(s)
    modifies x
    ensures x[..] == Flow(s, old(x[..]))
    decreases s
  {
    match s
    case Scheme(dt, _, flow) =>
      var y := flow(dt, x[..]);
      forall i | 0 <= i < x.Length {
        x[i] := y[i];
      }
    case NStep(teo, n) =>
      ghost var x0 := x[..];
      for k := 0 to n
        invariant x[..] == Iter(teo, k, x0)
      {
        Evolve(teo, x);
      }
  }

  /**
   * A stepper walking a state forward: `state` holds the initial state x0
   * advanced `count` times.
   */
  class TimeSeries<A(!new)> {
    var state: array<A>
    const teo: Stepper<A>
    ghost var x0: seq<A>
    ghost var count: nat

    ghost predicate Valid()
      reads this, state
    {
      InPlace(teo) && state[..] == Iter(teo, count, x0)
    }

    /** `time_series`: take ownership of the initial state. */
    constructor (x: array<A>, teo: Stepper<A>)
      requires InPlace(teo)
      ensures Valid() && state == x && this.teo == teo
      ensures x0 == x[..] && count == 0
    {
      state := x;
      this.teo := teo;
      x0 := x[..];
      count := 0;
    }

    /** `iterate`: advance the state by one step, in place. */
    method Iterate()
      requires Valid()
      modifies this, state
      ensures Valid() && state == old(state) && x0 == old(x0)
      ensures count == old(count) + 1
      ensures state[..] == Flow(teo, old(state[..]))
    {
      Evolve(teo, state);
      count := count + 1;
    }

    /**
     * `next`: advance, then yield a copy of the new state; there is always
     * a next item, and it is x0 advanced `count` times.
     */
    method Next() returns (item: Option<array<A>>)
      requires Valid()
      modifies this, state
      ensures Valid() && state == old(state) && x0 == old(x0) && count == old(count) + 1
      ensures item.Some? && fresh(item.value)
      ensures item.value[..] == state[..] == Iter(teo, count, x0)
    {
      Iterate();
      var st := state;
      var copy := new A[st.Length](i requires 0 <= i < st.Length reads st => st[i]);
      item := Some(copy);
    }
  }

  /**
   * Two items drawn in a row: the first is one step from x0, the second two
   * steps, and drawing the second leaves the first as it was, since items are
   * copies.
   */
  method TwoItems<A(!new)>(series: TimeSeries<A>) returns (first: array<A>, second: array<A>)
    requires series.Valid() && series.count == 0
    modifies series, series.state
    ensures first[..] == Iter(series.teo, 1, series.x0)
    ensures second[..] == Iter(series.teo, 2, series.x0)
  {
    var a := series.Next();
    first := a.value;
    var b := series.Next();
    second := b.value;
  }
}
