/** Lorenz-63 and Henon-Heiles under exact arithmetic: textbook schemes, and time
    reversal. */
module Lorenz63Exact {
  import opened Sequencer
  import opened StageVectors
  import opened Lorenz63
  import T = Textbook

  /** x' = sigma (y - x), y' = x (rho - z) - y, z' = x y - beta z. */
  function Field63(sigma: real, rho: real, beta: real): T.Vec -> T.Vec {
    (u: T.Vec) =>
      if |u| != 3 then u
      else [sigma * (u[1] - u[0]), u[0] * (rho - u[2]) - u[1], u[0] * u[1] - beta * u[2]]
  }

  function ExactBank(v: Variant, h: real, sigma: real, rho: real, beta: real): (bank: seq<real>)
    ensures |bank| == BankSize(v)
  {
    if v == Rk38 then [h, h / 3.0, -(h / 3.0), -h, h / 8.0, 3.0, sigma, rho, beta]
    else [h, h / 2.0, h / 6.0, 2.0, sigma, rho, beta]
  }

  lemma ComponentsAre(sigma: real, rho: real, beta: real, x: real, y: real, z: real)
    ensures var A := T.Exact();
            && A.mul(sigma, A.sub(y, x)) == sigma * (y - x)
            && A.fma(x, A.sub(rho, z), A.neg(y)) == x * (rho - z) - y
            && A.fma(x, y, A.neg(A.mul(beta, z))) == x * y - beta * z
  {
    hide T.Exact;
    T.ExactOps(y, x, 0.0);
    T.ExactOps(sigma, y - x, 0.0);
    T.ExactOps(rho, z, 0.0);
    T.ExactOps(x, rho - z, -y);
    T.ExactOps(beta, z, 0.0);
    T.ExactOps(beta * z, 0.0, 0.0);
    T.ExactOps(x, y, -(beta * z));
  }

  lemma FieldIsField63(v: Variant, h: real, sigma: real, rho: real, beta: real, u: T.Vec)
    requires v != Zsign && |u| == 3
    ensures Field(T.Exact(), ExactBank(v, h, sigma, rho, beta), v, u) == Field63(sigma, rho, beta)(u)
  {
    hide T.Exact;
    ComponentsAre(sigma, rho, beta, u[0], u[1], u[2]);
    var bank := ExactBank(v, h, sigma, rho, beta);
    assert bank[Sigma(v)] == sigma && bank[Sigma(v) + 1] == rho && bank[Sigma(v) + 2] == beta;
    var k := Field(T.Exact(), bank, v, u);
    assert k[0] == sigma * (u[1] - u[0]);
    assert k[1] == u[0] * (rho - u[2]) - u[1];
    assert k[2] == u[0] * u[1] - beta * u[2];
    var f := Field63(sigma, rho, beta)(u);
    assert |f| == 3 && f[0] == k[0] && f[1] == k[1] && f[2] == k[2];
  }

  lemma KeepsSize63(sigma: real, rho: real, beta: real)
    ensures T.KeepsSize(Field63(sigma, rho, beta))
  {
  }

  lemma StepIsRk4(h: real, sigma: real, rho: real, beta: real, y: T.Vec)
    requires |y| == 3
    ensures T.KeepsSize(Field63(sigma, rho, beta))
    ensures StepOf(T.Exact(), ExactBank(Real, h, sigma, rho, beta), Real, y) == T.Rk4(Field63(sigma, rho, beta), h, y)
  {
    KeepsSize63(sigma, rho, beta);
    var f := Field63(sigma, rho, beta);
    hide T.Exact, Field, Axpy, Plus, Field63;
    FieldIsField63(Real, h, sigma, rho, beta, y);
    var k1 := f(y);
    T.AxpyIsShift(h / 2.0, k1, y);
    FieldIsField63(Real, h, sigma, rho, beta, T.Shift(y, h / 2.0, k1));
    var k2 := f(T.Shift(y, h / 2.0, k1));
    T.AxpyIsShift(h / 2.0, k2, y);
    FieldIsField63(Real, h, sigma, rho, beta, T.Shift(y, h / 2.0, k2));
    var k3 := f(T.Shift(y, h / 2.0, k2));
    T.AxpyIsShift(h, k3, y);
    FieldIsField63(Real, h, sigma, rho, beta, T.Shift(y, h, k3));
    var k4 := f(T.Shift(y, h, k3));
    T.SumIsWeighted(2.0, k1, k2, k3, k4);
    T.AxpyIsShift(h / 6.0, T.Weighted(2.0, k1, k2, k3, k4), y);
  }

  lemma StepIsRk38(h: real, sigma: real, rho: real, beta: real, y: T.Vec)
    requires |y| == 3
    ensures T.KeepsSize(Field63(sigma, rho, beta))
    ensures StepOf(T.Exact(), ExactBank(Rk38, h, sigma, rho, beta), Rk38, y) == T.Rk38(Field63(sigma, rho, beta), h, y)
  {
    KeepsSize63(sigma, rho, beta);
    var f := Field63(sigma, rho, beta);
    hide T.Exact, Field, Axpy, Plus, Field63;
    FieldIsField63(Rk38, h, sigma, rho, beta, y);
    var k1 := f(y);
    T.AxpyIsShift(h / 3.0, k1, y);
    FieldIsField63(Rk38, h, sigma, rho, beta, T.Shift(y, h / 3.0, k1));
    var k2 := f(T.Shift(y, h / 3.0, k1));
    var y3 := T.Shift(y, -(h / 3.0), k1);
    T.AxpyIsShift(-(h / 3.0), k1, y);
    T.AxpyIsShift(h, k2, y3);
    FieldIsField63(Rk38, h, sigma, rho, beta, T.Shift(y3, h, k2));
    var k3 := f(T.Shift(y3, h, k2));
    var y4 := T.Shift(y, h, k1);
    T.AxpyIsShift(h, k1, y);
    T.AxpyIsShift(-h, k2, y4);
    T.AxpyIsShift(h, k3, T.Shift(y4, -h, k2));
    FieldIsField63(Rk38, h, sigma, rho, beta, T.Shift(T.Shift(y4, -h, k2), h, k3));
    var k4 := f(T.Shift(T.Shift(y4, -h, k2), h, k3));
    T.SumIsWeighted(3.0, k1, k2, k3, k4);
    T.AxpyIsShift(h / 8.0, T.Weighted(3.0, k1, k2, k3, k4), y);
  }

  ghost function TextStep(v: Variant, h: real, sigma: real, rho: real, beta: real): T.Vec -> T.Vec {
    KeepsSize63(sigma, rho, beta);
    (y: T.Vec) => if v == Rk38 then T.Rk38(Field63(sigma, rho, beta), h, y) else T.Rk4(Field63(sigma, rho, beta), h, y)
  }

  lemma {:induction false} StepsAreText(v: Variant, h: real, sigma: real, rho: real, beta: real, n: nat, y: T.Vec)
    requires (v == Real || v == Rk38) && |y| == 3
    ensures Steps(T.Exact(), ExactBank(v, h, sigma, rho, beta), v, n, y)
         == T.Iterate(TextStep(v, h, sigma, rho, beta), n, y)
  {
    hide StepOf, T.Rk4, T.Rk38, ExactBank;
    if n > 0 {
      StepsAreText(v, h, sigma, rho, beta, n - 1, y);
      var z := Steps(T.Exact(), ExactBank(v, h, sigma, rho, beta), v, n - 1, y);
      if v == Rk38 { StepIsRk38(h, sigma, rho, beta, z); } else { StepIsRk4(h, sigma, rho, beta, z); }
    }
  }

  /** The emitted image itself: n trips under exact arithmetic are n textbook steps. */
  lemma ProgramIsTextbook(v: Variant, h: real, sigma: real, rho: real, beta: real, n: nat, m: Lane<real>)
    requires (v == Real || v == Rk38) && IsLane(m) && |m.s| >= 3
    ensures ProgramLoads(L63Program(v, n), BankSize(v), |m.s|)
    ensures RunProgram(T.Exact(), ExactBank(v, h, sigma, rho, beta), L63Program(v, n), m).s[..3]
         == T.Iterate(TextStep(v, h, sigma, rho, beta), n, m.s[..3])
  {
    hide RunProgram, ExactBank, Steps, L63Program;
    ProgramIsSteps(T.Exact(), ExactBank(v, h, sigma, rho, beta), v, n, m);
    StepsAreText(v, h, sigma, rho, beta, n, m.s[..3]);
  }
}

module HenonHeilesExact {
  import opened Sequencer
  import opened HenonHeiles
  import T = Textbook

  /** H, H/2, -H, 1, 2. */
  function ExactBank(h: real): (bank: seq<real>)
    ensures |bank| == BANK
  {
    [h, h / 2.0, -h, 1.0, 2.0]
  }

  /** q += c p */
  function Drifted(c: real, u: Hh<real>): Hh<real> {
    u.(x := u.x + c * u.px, y := u.y + c * u.py)
  }

  /** p += c a(q), with a = (-x (1 + 2 y), y (y - 1) - x^2). */
  function Kicked(c: real, u: Hh<real>): Hh<real> {
    u.(px := u.px + c * -PullX(u), py := u.py + c * PullY(u))
  }

  function PullX(u: Hh<real>): real { u.x * (1.0 + 2.0 * u.y) }

  function PullY(u: Hh<real>): real { u.y * (u.y - 1.0) - u.x * u.x }

  /** Stormer-Verlet, drift-kick-drift: q += h/2 p; p += h a(q); q += h/2 p. */
  function Verlet(h: real, u: Hh<real>): Hh<real> {
    Drifted(h / 2.0, Kicked(h, Drifted(h / 2.0, u)))
  }

  /** Two states are one when their fields are. */
  lemma Same(u: Hh<real>, w: Hh<real>)
    requires u.x == w.x && u.y == w.y && u.px == w.px && u.py == w.py && u.e == w.e
    ensures u == w
  {
  }

  lemma MovedIsDrifted(c: real, u: Hh<real>)
    ensures Moved(T.Exact(), c, u) == Drifted(c, u)
  {
    hide T.Exact;
    T.ExactOps(c, u.px, u.x);
    T.ExactOps(c, u.py, u.y);
    Same(Moved(T.Exact(), c, u), Drifted(c, u));
  }

  lemma ForcesAre(h: real, u: Hh<real>)
    ensures ForceX(T.Exact(), ExactBank(h), u) == PullX(u)
    ensures ForceY(T.Exact(), ExactBank(h), u) == PullY(u)
  {
    hide T.Exact;
    T.ExactOps(2.0, u.y, 1.0);
    T.ExactOps(u.x, 2.0 * u.y + 1.0, 0.0);
    T.ExactOps(u.x, u.x, 0.0);
    T.ExactOps(u.x * u.x, 0.0, 0.0);
    T.ExactOps(u.y, 1.0, 0.0);
    T.ExactOps(u.y, u.y - 1.0, -(u.x * u.x));
    assert T.Exact().mul(u.x, u.x) == u.x * u.x;
    assert T.Exact().neg(u.x * u.x) == -(u.x * u.x);
  }

  /** The two kicks' arithmetic, the forces given. */
  lemma KickedBy(h: real, g: real, f: real, px: real, py: real)
    ensures T.Exact().fma(-h, g, px) == px - h * g
    ensures T.Exact().fma(h, f, py) == py + h * f
  {
    hide T.Exact;
    T.ExactOps(-h, g, px);
    T.ExactOps(h, f, py);
    Negate(h, g);
  }

  lemma KickIsKicked(h: real, a: Hh<real>)
    ensures var b := a.(px := T.Exact().fma(-h, ForceX(T.Exact(), ExactBank(h), a), a.px));
            b.(py := T.Exact().fma(h, ForceY(T.Exact(), ExactBank(h), b), b.py)) == Kicked(h, a)
  {
    hide T.Exact, ForceX, ForceY, PullX, PullY, Kicked;
    var g, f := PullX(a), PullY(a);
    ForcesAre(h, a);
    KickedBy(h, g, f, a.px, a.py);
    var b := a.(px := T.Exact().fma(-h, ForceX(T.Exact(), ExactBank(h), a), a.px));
    assert b.px == a.px - h * g;
    ForcesAre(h, b);
    SamePull(a, b);
    var r := b.(py := T.Exact().fma(h, ForceY(T.Exact(), ExactBank(h), b), b.py));
    assert r.py == a.py + h * f;
    KickedAs(h, a);
    Same(r, Kicked(h, a));
  }

  lemma KickedAs(h: real, a: Hh<real>)
    ensures var k := Kicked(h, a);
            k.px == a.px - h * PullX(a) && k.py == a.py + h * PullY(a) && k.x == a.x && k.y == a.y && k.e == a.e
  {
    hide PullX, PullY;
    Negate(h, PullX(a));
  }

  /** The forces are of the positions alone. */
  lemma SamePull(a: Hh<real>, b: Hh<real>)
    requires a.x == b.x && a.y == b.y
    ensures PullX(a) == PullX(b) && PullY(a) == PullY(b)
  {
  }

  lemma StepIsVerlet(h: real, u: Hh<real>)
    ensures StepOf(T.Exact(), ExactBank(h), Real, u) == Verlet(h, u)
  {
    hide T.Exact, ForceX, ForceY, Moved, Drifted, Kicked;
    MovedIsDrifted(h / 2.0, u);
    var a := Drifted(h / 2.0, u);
    KickIsKicked(h, a);
    MovedIsDrifted(h / 2.0, Kicked(h, a));
  }

  lemma Negate(c: real, x: real)
    ensures (-c) * x == -(c * x) && c * -x == -(c * x)
  {
  }

  lemma DriftedBack(c: real, u: Hh<real>)
    ensures Drifted(-c, Drifted(c, u)) == u
  {
    Negate(c, u.px);
    Negate(c, u.py);
    var w := Drifted(c, u);
    Same(Drifted(-c, w), u);
  }

  lemma KickedBack(c: real, u: Hh<real>)
    ensures Kicked(-c, Kicked(c, u)) == u
  {
    var f, g := -(u.x * (1.0 + 2.0 * u.y)), u.y * (u.y - 1.0) - u.x * u.x;
    var w := Kicked(c, u);
    assert w.px == u.px + c * f && w.py == u.py + c * g && w.x == u.x && w.y == u.y;
    var z := Kicked(-c, w);
    assert z.px == w.px + (-c) * f && z.py == w.py + (-c) * g;
    Negate(c, f);
    Negate(c, g);
    Same(z, u);
  }

  /** Verlet is its own inverse with the step negated. */
  lemma VerletReverses(h: real, u: Hh<real>)
    ensures Verlet(-h, Verlet(h, u)) == u
  {
    hide Drifted, Kicked;
    assert (-h) / 2.0 == -(h / 2.0);
    DriftedBack(h / 2.0, Kicked(h, Drifted(h / 2.0, u)));
    KickedBack(h, Drifted(h / 2.0, u));
    DriftedBack(h / 2.0, u);
  }

  lemma {:induction false} StepsFront(h: real, n: nat, u: Hh<real>)
    requires n > 0
    ensures Steps(T.Exact(), ExactBank(h), Real, n, u) == Steps(T.Exact(), ExactBank(h), Real, n - 1, Verlet(h, u))
  {
    hide StepOf, Verlet;
    StepIsVerlet(h, u);
    StepsAdd(T.Exact(), ExactBank(h), Real, 1, n - 1, u);
    assert Steps(T.Exact(), ExactBank(h), Real, 1, u)
        == StepOf(T.Exact(), ExactBank(h), Real, Steps(T.Exact(), ExactBank(h), Real, 0, u));
  }

  /** Time reversal: n steps, then n steps with the step negated, return the start. */
  lemma {:induction false} StepsReverse(h: real, n: nat, u: Hh<real>)
    ensures Steps(T.Exact(), ExactBank(-h), Real, n, Steps(T.Exact(), ExactBank(h), Real, n, u)) == u
  {
    hide StepOf, Verlet, ExactBank;
    if n > 0 {
      var w := Steps(T.Exact(), ExactBank(h), Real, n - 1, u);
      StepIsVerlet(h, w);
      StepsFront(-h, n, Verlet(h, w));
      VerletReverses(h, w);
      StepsReverse(h, n - 1, u);
    }
  }

  /** The same of the emitted image: a run of n trips, its carried block handed to a run
      of n trips under the negated bank from any lane, gives the first block back. */
  lemma ProgramReverses(h: real, n: nat, m: Lane<real>, back: Lane<real>)
    requires IsLane(m) && |m.s| >= 4 && IsLane(back) && |back.s| >= 4
    requires ProgramLoads(HhProgram(Real, n), BANK, |m.s|) && ProgramLoads(HhProgram(Real, n), BANK, |back.s|)
    requires back.s[..4] == RunProgram(T.Exact(), ExactBank(h), HhProgram(Real, n), m).s[..4]
    ensures RunProgram(T.Exact(), ExactBank(-h), HhProgram(Real, n), back).s[..4] == m.s[..4]
  {
    hide Steps, RunProgram, HhProgram, ExactBank;
    var A := T.Exact();
    ProgramIsSteps(A, ExactBank(h), Real, n, m);
    ProgramIsSteps(A, ExactBank(-h), Real, n, back);
    var w := Steps(A, ExactBank(h), Real, n, Start(m));
    assert back.s[..4] == Carried(w);
    assert Start(back) == w.(e := back.r[10]) by {
      assert forall j | 0 <= j < 4 :: back.s[j] == back.s[..4][j] == Carried(w)[j];
    }
    DeadE(A, ExactBank(-h), Real, n, w, back.r[10]);
    StepsReverse(h, n, Start(m));
    assert m.s[..4] == Carried(Start(m));
  }

  /** Under exact arithmetic the compensation is never anything: from e = 0 the kahan
      stream keeps e = 0 and is the plain stream at every step. */
  lemma {:induction false} KahanIsPlain(h: real, n: nat, u: Hh<real>)
    requires u.e == 0.0
    ensures Steps(T.Exact(), ExactBank(h), Kahan, n, u) == Steps(T.Exact(), ExactBank(h), Real, n, u)
    ensures Steps(T.Exact(), ExactBank(h), Kahan, n, u).e == 0.0
  {
    hide StepOf, ExactBank;
    if n > 0 {
      KahanIsPlain(h, n - 1, u);
      KahanStepIsPlain(h, Steps(T.Exact(), ExactBank(h), Real, n - 1, u));
    }
  }

  /** x + 0 is x, and what exact sums lose is nothing. */
  lemma CompensatedIsPlain(h: real, a: Hh<real>)
    requires a.e == 0.0
    ensures Compensated(T.Exact(), ExactBank(h), a)
         == a.(px := T.Exact().fma(-h, ForceX(T.Exact(), ExactBank(h), a), a.px))
  {
    hide ForceX, T.Exact;
    var g := ForceX(T.Exact(), ExactBank(h), a);
    var t1 := -h * g;
    T.ExactOps(-h, g, 0.0);
    T.ExactOps(-h, g, a.px);
    T.ExactOps(a.px, t1, 0.0);
    T.ExactOps(a.px, a.px + t1, 0.0);
    T.ExactOps(a.px + t1, 1.0, 0.0);
    var lost := T.Exact().sub(a.px, a.px + t1);
    assert lost == -t1;
    T.ExactOps(lost, t1, 0.0);
    var c := Compensated(T.Exact(), ExactBank(h), a);
    assert T.Exact().fma(-h, g, a.e) == t1;
    assert c.px == a.px + t1;
    assert c.e == 0.0;
    Same(c, a.(px := T.Exact().fma(-h, g, a.px)));
  }

  lemma KahanStepIsPlain(h: real, u: Hh<real>)
    requires u.e == 0.0
    ensures StepOf(T.Exact(), ExactBank(h), Kahan, u) == StepOf(T.Exact(), ExactBank(h), Real, u)
    ensures StepOf(T.Exact(), ExactBank(h), Kahan, u).e == 0.0
  {
    hide ForceX, ForceY, Compensated, T.Exact;
    CompensatedIsPlain(h, Moved(T.Exact(), h / 2.0, u));
  }
}
