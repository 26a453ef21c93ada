/** Lorenz-96 under exact arithmetic: the emitted steps are the textbook schemes. */
module Lorenz96Exact {
  import opened Sequencer
  import opened Lorenz96
  import opened StageVectors
  import T = Textbook

  /** x_i' = (x_(i+1) - x_(i-2)) x_(i-1) - x_i + F, indices mod N. */
  function Rate(F: real, x: T.Vec, i: nat): real
    requires i < |x|
  {
    (At(x, i + 1) - At(x, i - 2)) * At(x, i - 1) - x[i] + F
  }

  function Field96(F: real): T.Vec -> T.Vec {
    (x: T.Vec) => seq(|x|, i requires 0 <= i < |x| => Rate(F, x, i))
  }

  /** H, H/2, H/6, 2, F; and the 3/8 rule's H, H/3, -(H/3), -H, H/8, 3, F. */
  function ExactBank(v: Variant, h: real, F: real): (bank: seq<real>)
    ensures |bank| == BankSize(v)
  {
    if v == Rk38 then [h, h / 3.0, -(h / 3.0), -h, h / 8.0, 3.0, F] else [h, h / 2.0, h / 6.0, 2.0, F]
  }

  lemma RhsIsField96(F: real, v: Variant, x: T.Vec, i: nat)
    requires v != Index && i < |x|
    ensures Rhs(T.Exact(), F, v, x, i) == Rate(F, x, i)
  {
    hide At;
    var a, b := At(x, i + 1) - At(x, i - 2), At(x, i - 1);
    assert Rhs(T.Exact(), F, v, x, i) == a * b + (F - x[i]);
  }

  lemma FieldIsField96(F: real, v: Variant, x: T.Vec)
    requires v != Index
    ensures Field(T.Exact(), F, v, x) == Field96(F)(x)
  {
    hide Rate, Rhs, T.Exact;
    forall i | 0 <= i < |x|
      ensures Field(T.Exact(), F, v, x)[i] == Field96(F)(x)[i]
    {
      RhsIsField96(F, v, x, i);
    }
  }

  lemma KeepsSize96(F: real)
    ensures T.KeepsSize(Field96(F))
  {
  }

  /** One emitted step is one textbook Runge-Kutta step, for every ring size. */
  lemma StepIsRk4(h: real, F: real, y: T.Vec)
    ensures T.KeepsSize(Field96(F))
    ensures StepOf(T.Exact(), ExactBank(Real, h, F), Real, y) == T.Rk4(Field96(F), h, y)
  {
    KeepsSize96(F);
    var A, b, f := T.Exact(), ExactBank(Real, h, F), Field96(F);
    hide T.Exact, Field, Axpy, Plus, Field96;
    FieldIsField96(F, Real, y);
    var k1 := f(y);
    T.AxpyIsShift(h / 2.0, k1, y);
    FieldIsField96(F, Real, T.Shift(y, h / 2.0, k1));
    var k2 := f(T.Shift(y, h / 2.0, k1));
    T.AxpyIsShift(h / 2.0, k2, y);
    FieldIsField96(F, Real, T.Shift(y, h / 2.0, k2));
    var k3 := f(T.Shift(y, h / 2.0, k2));
    T.AxpyIsShift(h, k3, y);
    FieldIsField96(F, Real, T.Shift(y, h, k3));
    var k4 := f(T.Shift(y, h, k3));
    T.SumIsWeighted(2.0, k1, k2, k3, k4);
    T.AxpyIsShift(h / 6.0, T.Weighted(2.0, k1, k2, k3, k4), y);
  }

  lemma StepIsRk38(h: real, F: real, y: T.Vec)
    ensures T.KeepsSize(Field96(F))
    ensures StepOf(T.Exact(), ExactBank(Rk38, h, F), Rk38, y) == T.Rk38(Field96(F), h, y)
  {
    KeepsSize96(F);
    var f := Field96(F);
    hide T.Exact, Field, Axpy, Plus, Field96;
    FieldIsField96(F, Rk38, y);
    var k1 := f(y);
    T.AxpyIsShift(h / 3.0, k1, y);
    FieldIsField96(F, Rk38, T.Shift(y, h / 3.0, k1));
    var k2 := f(T.Shift(y, h / 3.0, k1));
    var y3 := T.Shift(y, -(h / 3.0), k1);
    T.AxpyIsShift(-(h / 3.0), k1, y);
    T.AxpyIsShift(h, k2, y3);
    FieldIsField96(F, Rk38, T.Shift(y3, h, k2));
    var k3 := f(T.Shift(y3, h, k2));
    var y4 := T.Shift(y, h, k1);
    T.AxpyIsShift(h, k1, y);
    T.AxpyIsShift(-h, k2, y4);
    T.AxpyIsShift(h, k3, T.Shift(y4, -h, k2));
    FieldIsField96(F, Rk38, T.Shift(T.Shift(y4, -h, k2), h, k3));
    var k4 := f(T.Shift(T.Shift(y4, -h, k2), h, k3));
    T.SumIsWeighted(3.0, k1, k2, k3, k4);
    T.AxpyIsShift(h / 8.0, T.Weighted(3.0, k1, k2, k3, k4), y);
  }

  ghost function TextStep(v: Variant, h: real, F: real): T.Vec -> T.Vec {
    KeepsSize96(F);
    (y: T.Vec) => if v == Rk38 then T.Rk38(Field96(F), h, y) else T.Rk4(Field96(F), h, y)
  }

  lemma {:induction false} StepsAreText(v: Variant, h: real, F: real, n: nat, y: T.Vec)
    requires v == Real || v == Rk38
    ensures Steps(T.Exact(), ExactBank(v, h, F), v, n, y) == T.Iterate(TextStep(v, h, F), n, y)
  {
    hide StepOf, T.Rk4, T.Rk38, ExactBank;
    if n > 0 {
      StepsAreText(v, h, F, n - 1, y);
      var z := Steps(T.Exact(), ExactBank(v, h, F), v, n - 1, y);
      if v == Rk38 { StepIsRk38(h, F, z); } else { StepIsRk4(h, F, z); }
    }
  }

  /** The emitted image itself: run for n trips under exact arithmetic from any lane, it
      leaves n textbook steps of its carried block - RK4, and the 3/8 rule for rk38. */
  lemma ProgramIsTextbook(N: nat, v: Variant, h: real, F: real, n: nat, m: Lane<real>)
    requires v == Real || v == Rk38
    requires Ready(N, v, ExactBank(v, h, F), m)
    ensures ProgramLoads(L96Program(N, v, n), BankSize(v), |m.s|)
    ensures RunProgram(T.Exact(), ExactBank(v, h, F), L96Program(N, v, n), m).s[..N]
         == T.Iterate(TextStep(v, h, F), n, m.s[..N])
  {
    hide RunProgram, ExactBank, Steps;
    ProgramIsSteps(T.Exact(), ExactBank(v, h, F), N, v, n, m);
    StepsAreText(v, h, F, n, m.s[..N]);
  }
}
