/**
 * The classical explicit one-step formulas (src/explicit.rs) over a
 * right-hand side u given as a function of the state.
 */
module Explicit {

  /** Entrywise sum of two states of the same length. */
  function Plus(a: seq<real>, b: seq<real>): (c: seq<real>)
    requires |a| == |b|
    ensures |c| == |a|
  {
    seq(|a|, i requires 0 <= i < |a| => a[i] + b[i])
  }

  /** A scalar times a state. */
  function Times(c: real, a: seq<real>): (b: seq<real>)
    ensures |b| == |a|
  {
    seq(|a|, i requires 0 <= i < |a| => c * a[i])
  }

  /** u maps every state of x's shape to a state of the same shape; the model asks for equal lengths in every sum. */
  ghost predicate KeepsShape(u: seq<real> -> seq<real>, n: nat) {
    forall v: seq<real> :: |v| == n ==> |u(v)| == n
  }

  /** `euler`: x + dt u(x). */
  function Euler(u: seq<real> -> seq<real>, dt: real, x: seq<real>): (y: seq<real>)
    requires |u(x)| == |x|
    ensures |y| == |x|
  {
    Plus(x, Times(dt, u(x)))
  }

  /**
   * `rk4`: the stages k1 = u(x), k2 = u(x + dt/2 k1), k3 = u(x + dt/2 k2),
   * k4 = u(x + dt k3), combined as x + dt/6 (k1 + 2 (k2 + k3) + k4).
   */
  function Rk4(u: seq<real> -> seq<real>, dt: real, x: seq<real>): (y: seq<real>)
    requires KeepsShape(u, |x|)
    ensures |y| == |x|
  {
    var k1 := u(x);
    var k2 := u(Plus(Times(0.5 * dt, k1), x));
    var k3 := u(Plus(Times(0.5 * dt, k2), x));
    var k4 := u(Plus(Times(dt, k3), x));
    Plus(x, Times(dt / 6.0, Plus(Plus(k1, Times(2.0, Plus(k2, k3))), k4)))
  }

  /** Entry i of an RK4 step, from the four stage values at i. */
  lemma {:induction false} Rk4At(u: seq<real> -> seq<real>, dt: real, x: seq<real>, i: nat)
    requires KeepsShape(u, |x|) && i < |x|
    ensures var k1 := u(x);
            var k2 := u(Plus(Times(0.5 * dt, k1), x));
            var k3 := u(Plus(Times(0.5 * dt, k2), x));
            var k4 := u(Plus(Times(dt, k3), x));
            Rk4(u, dt, x)[i] == x[i] + dt / 6.0 * (k1[i] + 2.0 * (k2[i] + k3[i]) + k4[i])
  {
  }

  /** With dt = 0 both formulas return x. */
  lemma {:induction false} ZeroStep(u: seq<real> -> seq<real>, x: seq<real>)
    requires KeepsShape(u, |x|)
    ensures Euler(u, 0.0, x) == x
    ensures Rk4(u, 0.0, x) == x
  {
    forall i | 0 <= i < |x| ensures Rk4(u, 0.0, x)[i] == x[i] {
      Rk4At(u, 0.0, x, i);
    }
  }

  /** At a rest point of u (u(x) = 0) both formulas return x. */
  lemma {:induction false} RestPoint(u: seq<real> -> seq<real>, dt: real, x: seq<real>)
    requires KeepsShape(u, |x|)
    requires forall i :: 0 <= i < |x| ==> u(x)[i] == 0.0
    ensures Euler(u, dt, x) == x
    ensures Rk4(u, dt, x) == x
  {
    var k1 := u(x);
    var y := Plus(Times(0.5 * dt, k1), x);
    assert y == x;
    var k3 := u(Plus(Times(0.5 * dt, k1), x));
    forall i | 0 <= i < |x| ensures Rk4(u, dt, x)[i] == x[i] {
      Rk4At(u, dt, x, i);
      assert Plus(Times(dt, k1), x) == x;
    }
  }

  /** For a constant right-hand side u = c both formulas advance x by dt c, exactly. */
  lemma {:induction false} ConstantField(u: seq<real> -> seq<real>, c: seq<real>, dt: real, x: seq<real>)
    requires |c| == |x|
    requires forall v: seq<real> :: |v| == |x| ==> u(v) == c
    ensures KeepsShape(u, |x|)
    ensures Euler(u, dt, x) == Plus(x, Times(dt, c))
    ensures Rk4(u, dt, x) == Plus(x, Times(dt, c))
  {
    forall i | 0 <= i < |x| ensures Rk4(u, dt, x)[i] == Plus(x, Times(dt, c))[i] {
      Rk4At(u, dt, x, i);
      assert u(Plus(Times(0.5 * dt, c), x)) == c;
      assert u(Plus(Times(dt, c), x)) == c;
      assert dt / 6.0 * (c[i] + 2.0 * (c[i] + c[i]) + c[i]) == dt * c[i];
    }
  }

  /** The degree-4 Taylor polynomial of exp(h), the growth of one RK4 step on a linear equation. */
  function Taylor4(h: real): real {
    1.0 + h + h * h / 2.0 + h * h * h / 6.0 + h * h * h * h / 24.0
  }

  /**
   * The growth of one RK4 step on x' = lam x: started from x = 1, the stage
   * slopes a1 .. a4 (taken at the points b2 .. b4) combine to the Taylor
   * polynomial of exp(lam dt).
   */
  lemma {:induction false} GrowthFactor(lam: real, dt: real, a1: real, b2: real, a2: real, b3: real, a3: real, b4: real, a4: real,
                                        s: real)
    requires a1 == lam
    requires b2 == 0.5 * dt * a1 + 1.0 && a2 == lam * b2
    requires b3 == 0.5 * dt * a2 + 1.0 && a3 == lam * b3
    requires b4 == dt * a3 + 1.0 && a4 == lam * b4
    requires s == a1 + 2.0 * (a2 + a3) + a4
    ensures Taylor4(lam * dt) == 1.0 + dt / 6.0 * s
  {
    var d1, d2, d3, d4 := dt * a1, dt * a2, dt * a3, dt * a4;
    StageStep(lam, dt, 1.0, 1.0, a1, d1);
    StageStep(lam, dt, 0.5 * d1 + 1.0, b2, a2, d2);
    StageStep(lam, dt, 0.5 * d2 + 1.0, b3, a3, d3);
    StageStep(lam, dt, d3 + 1.0, b4, a4, d4);
    WeightedSum(dt, s, a1, a2, a3, a4, d1, d2, d3, d4);
    TaylorOfStages(lam * dt, d1, d2, d3, d4);
  }

  /** dt / 6 times the weighted stage sum is the weighted sum of the dt-multiples. */
  lemma WeightedSum(dt: real, s: real, a1: real, a2: real, a3: real, a4: real, d1: real, d2: real, d3: real, d4: real)
    requires s == a1 + 2.0 * (a2 + a3) + a4
    requires d1 == dt * a1 && d2 == dt * a2 && d3 == dt * a3 && d4 == dt * a4
    ensures dt / 6.0 * s == (d1 + 2.0 * (d2 + d3) + d4) / 6.0
  {
  }

  /** The stage recursion in h = lam dt sums to the Taylor polynomial. */
  lemma TaylorOfStages(h: real, d1: real, d2: real, d3: real, d4: real)
    requires d1 == h * 1.0 && d2 == h * (0.5 * d1 + 1.0)
    requires d3 == h * (0.5 * d2 + 1.0) && d4 == h * (d3 + 1.0)
    ensures Taylor4(h) == 1.0 + (d1 + 2.0 * (d2 + d3) + d4) / 6.0
  {
    assert d2 == h + 0.5 * h * h;
    assert d3 == h + 0.5 * h * h + 0.25 * h * h * h;
    assert d4 == h + h * h + 0.5 * h * h * h + 0.25 * h * h * h * h;
  }

  /** One stage of GrowthFactor: dt a = (lam dt) c when a = lam b and b = c. */
  lemma StageStep(lam: real, dt: real, c: real, b: real, a: real, d: real)
    requires b == c && a == lam * b && d == dt * a
    ensures d == (lam * dt) * c
  {
  }

  /** On the linear equation u(v) = lam v, Euler multiplies the state by 1 + lam dt. */
  lemma {:induction false} EulerLinear(u: seq<real> -> seq<real>, lam: real, dt: real, x: seq<real>)
    requires forall v: seq<real> :: u(v) == Times(lam, v)
    ensures |u(x)| == |x|
    ensures Euler(u, dt, x) == Times(1.0 + lam * dt, x)
  {
    assert u(x) == Times(lam, x);
    forall i | 0 <= i < |x| ensures Euler(u, dt, x)[i] == Times(1.0 + lam * dt, x)[i] {
      assert Euler(u, dt, x)[i] == x[i] + dt * (lam * x[i]);
      assert x[i] + dt * (lam * x[i]) == (1.0 + lam * dt) * x[i];
    }
  }

  /**
   * On the linear equation u(v) = lam v, RK4 multiplies the state by
   * 1 + h + h^2/2 + h^3/6 + h^4/24 with h = lam dt: the Taylor polynomial of
   * exp(h) of degree 4. Every stage is a multiple of x; the multiples follow
   * the scalar recursion of GrowthFactor.
   */
  lemma {:induction false} Rk4Linear(u: seq<real> -> seq<real>, lam: real, dt: real, x: seq<real>)
    requires forall v: seq<real> :: u(v) == Times(lam, v)
    ensures KeepsShape(u, |x|)
    ensures Rk4(u, dt, x) == Times(Taylor4(lam * dt), x)
  {
    assert KeepsShape(u, |x|) by {
      forall v: seq<real> | |v| == |x| ensures |u(v)| == |x| {
        assert u(v) == Times(lam, v);
      }
    }
    var h := 0.5 * dt;
    var a1 := lam;
    var b2 := h * a1 + 1.0;
    var a2 := lam * b2;
    var b3 := h * a2 + 1.0;
    var a3 := lam * b3;
    var b4 := dt * a3 + 1.0;
    var a4 := lam * b4;
    StagesAreMultiples(u, lam, dt, x, a1, b2, a2, b3, a3, b4, a4);
  }

  /**
   * On u(v) = lam v, given the stage multipliers a1 .. a4 of k1 .. k4 and
   * b2 .. b4 of the points they are taken at, one RK4 step is the Taylor
   * polynomial times x.
   */
  lemma {:induction false} StagesAreMultiples(u: seq<real> -> seq<real>, lam: real, dt: real, x: seq<real>,
                                              a1: real, b2: real, a2: real, b3: real, a3: real, b4: real, a4: real)
    requires forall v: seq<real> :: u(v) == Times(lam, v)
    requires KeepsShape(u, |x|)
    requires a1 == lam
    requires b2 == 0.5 * dt * a1 + 1.0 && a2 == lam * b2
    requires b3 == 0.5 * dt * a2 + 1.0 && a3 == lam * b3
    requires b4 == dt * a3 + 1.0 && a4 == lam * b4
    ensures Rk4(u, dt, x) == Times(Taylor4(lam * dt), x)
  {
    var h := 0.5 * dt;
    var k1 := u(x);
    assert k1 == Times(a1, x);
    var k2 := u(Plus(Times(h, k1), x));
    NextStage(u, lam, h, a1, b2, a2, x, k1);
    var k3 := u(Plus(Times(h, k2), x));
    NextStage(u, lam, h, a2, b3, a3, x, k2);
    var k4 := u(Plus(Times(dt, k3), x));
    NextStage(u, lam, dt, a3, b4, a4, x, k3);
    var s := a1 + 2.0 * (a2 + a3) + a4;
    SumOfMultiples(a1, a2, a3, a4, s, x);
    var sum := Plus(Plus(k1, Times(2.0, Plus(k2, k3))), k4);
    assert sum == Times(s, x);
    Rk4OfStages(u, dt, x, k1, k2, k3, k4);
    GrowthFactor(lam, dt, a1, b2, a2, b3, a3, b4, a4, s);
    PlusMultiple(dt / 6.0, s, Taylor4(lam * dt), x);
  }

  /**
   * On u(v) = lam v, a stage taken at x + c k, k being the multiple a x of x,
   * is the multiple lam (c a + 1) x of x.
   */
  lemma {:induction false} NextStage(u: seq<real> -> seq<real>, lam: real, c: real, a: real, b: real, a': real,
                                     x: seq<real>, k: seq<real>)
    requires forall v: seq<real> :: u(v) == Times(lam, v)
    requires k == Times(a, x)
    requires b == c * a + 1.0 && a' == lam * b
    ensures u(Plus(Times(c, k), x)) == Times(a', x)
  {
    AxpyMultiple(c, a, b, x);
    TimesTimes(lam, b, a', x);
  }

  /** An RK4 step from its four stage values. */
  lemma Rk4OfStages(u: seq<real> -> seq<real>, dt: real, x: seq<real>, k1: seq<real>, k2: seq<real>, k3: seq<real>, k4: seq<real>)
    requires KeepsShape(u, |x|)
    requires k1 == u(x) && k2 == u(Plus(Times(0.5 * dt, k1), x))
    requires k3 == u(Plus(Times(0.5 * dt, k2), x)) && k4 == u(Plus(Times(dt, k3), x))
    ensures |k1| == |k2| == |k3| == |k4| == |x|
    ensures Rk4(u, dt, x) == Plus(x, Times(dt / 6.0, Plus(Plus(k1, Times(2.0, Plus(k2, k3))), k4)))
  {
  }

  /** A multiple of a multiple of x is a multiple of x. */
  lemma {:induction false} TimesTimes(c: real, a: real, b: real, x: seq<real>)
    requires b == c * a
    ensures Times(c, Times(a, x)) == Times(b, x)
  {
    forall i | 0 <= i < |x| ensures Times(c, Times(a, x))[i] == Times(b, x)[i] {
      assert c * (a * x[i]) == (c * a) * x[i];
    }
  }

  /** x plus c times a multiple a x of x is the multiple (c a + 1) x. */
  lemma {:induction false} AxpyMultiple(c: real, a: real, b: real, x: seq<real>)
    requires b == c * a + 1.0
    ensures Plus(Times(c, Times(a, x)), x) == Times(b, x)
  {
    forall i | 0 <= i < |x| ensures Plus(Times(c, Times(a, x)), x)[i] == Times(b, x)[i] {
      assert c * (a * x[i]) + x[i] == (c * a + 1.0) * x[i];
    }
  }

  /** The weighted stage sum k1 + 2 (k2 + k3) + k4 of four multiples of x is a multiple of x. */
  lemma {:induction false} SumOfMultiples(a1: real, a2: real, a3: real, a4: real, b: real, x: seq<real>)
    requires b == a1 + 2.0 * (a2 + a3) + a4
    ensures Plus(Plus(Times(a1, x), Times(2.0, Plus(Times(a2, x), Times(a3, x)))), Times(a4, x)) == Times(b, x)
  {
    var c23 := a2 + a3;
    AddMultiples(a2, a3, c23, x);
    var d23 := 2.0 * c23;
    TimesTimes(2.0, c23, d23, x);
    var c123 := a1 + d23;
    AddMultiples(a1, d23, c123, x);
    AddMultiples(c123, a4, b, x);
  }

  /** The sum of two multiples of x is a multiple of x. */
  lemma {:induction false} AddMultiples(a: real, b: real, c: real, x: seq<real>)
    requires c == a + b
    ensures Plus(Times(a, x), Times(b, x)) == Times(c, x)
  {
    forall i | 0 <= i < |x| ensures Plus(Times(a, x), Times(b, x))[i] == Times(c, x)[i] {
      assert a * x[i] + b * x[i] == (a + b) * x[i];
    }
  }

  /** x plus c times a multiple a x of x is the multiple (1 + c a) x. */
  lemma {:induction false} PlusMultiple(c: real, a: real, b: real, x: seq<real>)
    requires b == 1.0 + c * a
    ensures Plus(x, Times(c, Times(a, x))) == Times(b, x)
  {
    forall i | 0 <= i < |x| ensures Plus(x, Times(c, Times(a, x)))[i] == Times(b, x)[i] {
      assert x[i] + c * (a * x[i]) == (1.0 + c * a) * x[i];
    }
  }
}
