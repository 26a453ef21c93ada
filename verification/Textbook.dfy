/** The schemes as a textbook writes them, over exact real arithmetic, on state vectors
    of any size, and the sequencer's ALU read over the reals. */
module Textbook {
  import opened Sequencer
  import opened StageVectors

  type Vec = seq<real>

  /** Exact arithmetic: the ALU with nothing rounded. */
  function Exact(): Alu<real> {
    Alu((a: real, b: real, c: real) => a * b + c,
        (a: real, b: real) => a + b,
        (a: real, b: real) => a - b,
        (a: real, b: real) => a * b,
        (a: real) => -a)
  }

  lemma ExactOps(a: real, b: real, c: real)
    ensures Exact().fma(a, b, c) == a * b + c
    ensures Exact().add(a, b) == a + b && Exact().sub(a, b) == a - b && Exact().mul(a, b) == a * b
    ensures Exact().neg(a) == -a
  {
  }

  /** y + h k */
  function Shift(y: Vec, h: real, k: Vec): (z: Vec)
    requires |k| == |y|
    ensures |z| == |y|
  {
    seq(|y|, i requires 0 <= i < |y| => y[i] + h * k[i])
  }

  /** k1 + w k2 + w k3 + k4 */
  function Weighted(w: real, k1: Vec, k2: Vec, k3: Vec, k4: Vec): (z: Vec)
    requires |k1| == |k2| == |k3| == |k4|
    ensures |z| == |k1|
  {
    seq(|k1|, i requires 0 <= i < |k1| => k1[i] + w * k2[i] + w * k3[i] + k4[i])
  }

  ghost predicate KeepsSize(f: Vec -> Vec) {
    forall y :: |f(y)| == |y|
  }

  /** The classic fourth-order Runge-Kutta step. */
  ghost function Rk4(f: Vec -> Vec, h: real, y: Vec): (y': Vec)
    requires KeepsSize(f)
    ensures |y'| == |y|
  {
    var k1 := f(y);
    var k2 := f(Shift(y, h / 2.0, k1));
    var k3 := f(Shift(y, h / 2.0, k2));
    var k4 := f(Shift(y, h, k3));
    Shift(y, h / 6.0, Weighted(2.0, k1, k2, k3, k4))
  }

  /** Kutta's 3/8 rule. */
  ghost function Rk38(f: Vec -> Vec, h: real, y: Vec): (y': Vec)
    requires KeepsSize(f)
    ensures |y'| == |y|
  {
    var k1 := f(y);
    var k2 := f(Shift(y, h / 3.0, k1));
    var k3 := f(Shift(Shift(y, -(h / 3.0), k1), h, k2));
    var k4 := f(Shift(Shift(Shift(y, h, k1), -h, k2), h, k3));
    Shift(y, h / 8.0, Weighted(3.0, k1, k2, k3, k4))
  }

  ghost function Iterate(step: Vec -> Vec, n: nat, y: Vec): Vec {
    if n == 0 then y else step(Iterate(step, n - 1, y))
  }

  lemma AxpyIsShift(h: real, k: Vec, y: Vec)
    requires |k| == |y|
    ensures Axpy(Exact(), h, k, y) == Shift(y, h, k)
  {
    forall i | 0 <= i < |y|
      ensures Axpy(Exact(), h, k, y)[i] == Shift(y, h, k)[i]
    {
      assert Exact().fma(h, k[i], y[i]) == h * k[i] + y[i];
    }
  }

  lemma SumIsWeighted(w: real, k1: Vec, k2: Vec, k3: Vec, k4: Vec)
    requires |k1| == |k2| == |k3| == |k4|
    ensures Plus(Exact(), Axpy(Exact(), w, k3, Axpy(Exact(), w, k2, k1)), k4) == Weighted(w, k1, k2, k3, k4)
  {
    AxpyIsShift(w, k2, k1);
    AxpyIsShift(w, k3, Shift(k1, w, k2));
    forall i | 0 <= i < |k1|
      ensures Plus(Exact(), Shift(Shift(k1, w, k2), w, k3), k4)[i] == Weighted(w, k1, k2, k3, k4)[i]
    {
      assert Shift(Shift(k1, w, k2), w, k3)[i] == Shift(k1, w, k2)[i] + w * k3[i];
    }
  }
}
