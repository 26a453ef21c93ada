/** programs/gen_odes.py's `henonheiles`: the emitter and what its image computes, the
    compensated variant that is right at every step and cannot be resumed included. */
module HenonHeiles {
  import opened Sequencer
  import opened Emitter

  datatype Variant = Real | XforceSign | Kdk | Kahan

  // Registers x 3, y 4, px 5, py 6, t0 7, t1 8, t2 9 and, under kahan, e 10.
  // The bank in declaration order: H H2 MH ONE TWO.
  const BANK := 5

  // ---- the code, in stretches of at most three instructions -----------------

  function Drift(h: nat): seq<Instr> {
    [Fma(3, Con(h), Reg(5), Reg(3)), Fma(4, Con(h), Reg(6), Reg(4))]
  }

  function KickX(c: nat): seq<Instr> {
    [Fma(7, Con(4), Reg(4), Con(3)), Mul(7, Reg(3), Reg(7)), Fma(5, Con(c), Reg(7), Reg(5))]
  }

  const SQUARE: seq<Instr> := [Mul(8, Reg(3), Reg(3)), Neg(8, Reg(8))]

  function KickY(c: nat): seq<Instr> {
    [Sub(9, Reg(4), Con(3)), Fma(9, Reg(4), Reg(9), Reg(8)), Fma(6, Con(c), Reg(9), Reg(6))]
  }

  /** The px kick with its sum compensated through e. */
  const FORCE: seq<Instr> := [Fma(7, Con(4), Reg(4), Con(3)), Mul(7, Reg(3), Reg(7)), Fma(8, Con(2), Reg(7), Reg(10))]
  const COMPENSATE: seq<Instr> := [Add(9, Reg(5), Reg(8)), Sub(10, Reg(5), Reg(9)), Add(10, Reg(10), Reg(8))]
  const COPY: seq<Instr> := [Mul(5, Reg(9), Con(3))]

  /** The kick-drift-kick mutant's half kick. */
  const HALFFORCE: seq<Instr> := [Fma(7, Con(4), Reg(4), Con(3)), Mul(7, Reg(3), Reg(7)), Neg(7, Reg(7))]
  const HALFKICK: seq<Instr> := [Fma(5, Con(1), Reg(7), Reg(5))]

  function Stretches(v: Variant): seq<seq<Instr>> {
    if v == Kahan then [Drift(1), FORCE, COMPENSATE, COPY, SQUARE, KickY(0), Drift(1)]
    else if v == Kdk then [HALFFORCE, HALFKICK, SQUARE, KickY(1), Drift(0), HALFFORCE, HALFKICK, SQUARE, KickY(1)]
    else [Drift(1), KickX(if v == XforceSign then 0 else 2), SQUARE, KickY(0), Drift(1)]
  }

  function Join(ps: seq<seq<Instr>>, n: nat): seq<Instr>
    requires n <= |ps|
  {
    if n == 0 then [] else Join(ps, n - 1) + ps[n - 1]
  }

  function Body(v: Variant): seq<Instr> { Join(Stretches(v), |Stretches(v)|) }

  const LOADS: seq<Instr> := [Ldl(3, 0), Ldl(4, 1)] + [Ldl(5, 2), Ldl(6, 3)]
  const STORES: seq<Instr> := [Stl(3, 0), Stl(4, 1)] + [Stl(5, 2), Stl(6, 3)]

  function HhProgram(v: Variant, trips: nat): Program {
    Program(LOADS, trips, Body(v), STORES)
  }

  // ---- the mathematics ------------------------------------------------------

  /** The four state values and the register e, which only kahan writes. */
  datatype Hh<V> = Hh(x: V, y: V, px: V, py: V, e: V)

  function Moved<V>(alu: Alu<V>, h: V, u: Hh<V>): Hh<V> {
    u.(x := alu.fma(h, u.px, u.x), y := alu.fma(h, u.py, u.y))
  }

  /** x (1 + 2 y) */
  function ForceX<V>(alu: Alu<V>, bank: seq<V>, u: Hh<V>): V
    requires |bank| == BANK
  {
    alu.mul(u.x, alu.fma(bank[4], u.y, bank[3]))
  }

  /** y (y - 1) - x^2 */
  function ForceY<V>(alu: Alu<V>, bank: seq<V>, u: Hh<V>): V
    requires |bank| == BANK
  {
    alu.fma(u.y, alu.sub(u.y, bank[3]), alu.neg(alu.mul(u.x, u.x)))
  }

  function Compensated<V>(alu: Alu<V>, bank: seq<V>, u: Hh<V>): Hh<V>
    requires |bank| == BANK
  {
    var t1 := alu.fma(bank[2], ForceX(alu, bank, u), u.e);
    var t2 := alu.add(u.px, t1);
    u.(px := alu.mul(t2, bank[3]), e := alu.add(alu.sub(u.px, t2), t1))
  }

  function HalfKicked<V>(alu: Alu<V>, bank: seq<V>, u: Hh<V>): Hh<V>
    requires |bank| == BANK
  {
    var w := u.(px := alu.fma(bank[1], alu.neg(ForceX(alu, bank, u)), u.px));
    w.(py := alu.fma(bank[1], ForceY(alu, bank, w), w.py))
  }

  /** One step in the generator's order of roundings: drift, kick, drift. */
  function StepOf<V>(alu: Alu<V>, bank: seq<V>, v: Variant, u: Hh<V>): Hh<V>
    requires |bank| == BANK
  {
    if v == Kdk then HalfKicked(alu, bank, Moved(alu, bank[0], HalfKicked(alu, bank, u)))
    else
      var a := Moved(alu, bank[1], u);
      var b := if v == Kahan then Compensated(alu, bank, a)
               else a.(px := alu.fma(bank[if v == XforceSign then 0 else 2], ForceX(alu, bank, a), a.px));
      Moved(alu, bank[1], b.(py := alu.fma(bank[0], ForceY(alu, bank, b), b.py)))
  }

  function Steps<V>(alu: Alu<V>, bank: seq<V>, v: Variant, n: nat, u: Hh<V>): Hh<V>
    requires |bank| == BANK
  {
    if n == 0 then u else StepOf(alu, bank, v, Steps(alu, bank, v, n - 1, u))
  }

  // ---- the code runs as the mathematics -------------------------------------

  function State<V>(m: Lane<V>): Hh<V>
    requires IsLane(m)
  {
    Hh(m.r[3], m.r[4], m.r[5], m.r[6], m.r[10])
  }

  lemma ExecOf3<V>(alu: Alu<V>, bank: seq<V>, code: seq<Instr>, m: Lane<V>)
    requires IsLane(m) && 1 <= |code| <= 3 && Loads(code, |bank|, |m.s|)
    ensures Exec(alu, bank, code, m)
         == var a := Step(alu, bank, code[0], m);
            if |code| == 1 then a
            else var b := Step(alu, bank, code[1], a);
                 if |code| == 2 then b else Step(alu, bank, code[2], b)
  {
    if |code| == 3 {
      assert code == [code[0], code[1], code[2]];
      Exec3(alu, bank, code[0], code[1], code[2], m);
    } else if |code| == 2 {
      assert code == [code[0], code[1]];
      Exec2(alu, bank, code[0], code[1], m);
    } else {
      assert code == [code[0]] + [];
      ExecCons(alu, bank, code[0], [], m);
    }
  }

  lemma DriftRuns<V>(alu: Alu<V>, bank: seq<V>, h: nat, m: Lane<V>)
    requires IsLane(m) && h < |bank|
    ensures Loads(Drift(h), |bank|, |m.s|)
    ensures var m' := Exec(alu, bank, Drift(h), m); m'.s == m.s && State(m') == Moved(alu, bank[h], State(m))
  {
    ExecOf3(alu, bank, Drift(h), m);
  }

  lemma KickXRuns<V>(alu: Alu<V>, bank: seq<V>, c: nat, m: Lane<V>)
    requires IsLane(m) && |bank| == BANK && c < BANK
    ensures Loads(KickX(c), |bank|, |m.s|)
    ensures var m' := Exec(alu, bank, KickX(c), m);
            var u := State(m);
            m'.s == m.s && State(m') == u.(px := alu.fma(bank[c], ForceX(alu, bank, u), u.px))
  {
    ExecOf3(alu, bank, KickX(c), m);
  }

  /** The y kick, its x^2 first. */
  lemma SquareKickYRuns<V>(alu: Alu<V>, bank: seq<V>, c: nat, m: Lane<V>)
    requires IsLane(m) && |bank| == BANK && c < BANK
    ensures Loads(SQUARE, |bank|, |m.s|) && Loads(KickY(c), |bank|, |m.s|)
    ensures var m' := Exec(alu, bank, KickY(c), Exec(alu, bank, SQUARE, m));
            var u := State(m);
            m'.s == m.s && State(m') == u.(py := alu.fma(bank[c], ForceY(alu, bank, u), u.py))
  {
    ExecOf3(alu, bank, SQUARE, m);
    ExecOf3(alu, bank, KickY(c), Exec(alu, bank, SQUARE, m));
  }

  lemma CompensateRuns<V>(alu: Alu<V>, bank: seq<V>, m: Lane<V>)
    requires IsLane(m) && |bank| == BANK
    ensures Loads(FORCE, |bank|, |m.s|) && Loads(COMPENSATE, |bank|, |m.s|) && Loads(COPY, |bank|, |m.s|)
    ensures var m' := Exec(alu, bank, COPY, Exec(alu, bank, COMPENSATE, Exec(alu, bank, FORCE, m)));
            m'.s == m.s && State(m') == Compensated(alu, bank, State(m))
  {
    hide Exec;
    ExecOf3(alu, bank, FORCE, m);
    var m1 := Exec(alu, bank, FORCE, m);
    ExecOf3(alu, bank, COMPENSATE, m1);
    ExecOf3(alu, bank, COPY, Exec(alu, bank, COMPENSATE, m1));
  }

  lemma HalfForceRuns<V>(alu: Alu<V>, bank: seq<V>, m: Lane<V>)
    requires IsLane(m) && |bank| == BANK
    ensures Loads(HALFFORCE, |bank|, |m.s|) && Loads(HALFKICK, |bank|, |m.s|)
    ensures var m' := Exec(alu, bank, HALFKICK, Exec(alu, bank, HALFFORCE, m));
            var u := State(m);
            m'.s == m.s && State(m') == u.(px := alu.fma(bank[1], alu.neg(ForceX(alu, bank, u)), u.px))
  {
    hide Exec;
    ExecOf3(alu, bank, HALFFORCE, m);
    ExecOf3(alu, bank, HALFKICK, Exec(alu, bank, HALFFORCE, m));
  }

  /** The lane after the first n stretches. */
  ghost function After<V>(alu: Alu<V>, bank: seq<V>, ps: seq<seq<Instr>>, n: nat, m: Lane<V>): (m': Lane<V>)
    requires IsLane(m) && n <= |ps| && forall j | 0 <= j < |ps| :: Loads(ps[j], |bank|, |m.s|)
    ensures IsLane(m') && |m'.s| == |m.s|
  {
    if n == 0 then m else Exec(alu, bank, ps[n - 1], After(alu, bank, ps, n - 1, m))
  }

  lemma {:induction false} JoinRuns<V>(alu: Alu<V>, bank: seq<V>, ps: seq<seq<Instr>>, n: nat, m: Lane<V>)
    requires IsLane(m) && n <= |ps| && forall j | 0 <= j < |ps| :: Loads(ps[j], |bank|, |m.s|)
    ensures Loads(Join(ps, n), |bank|, |m.s|)
    ensures Exec(alu, bank, Join(ps, n), m) == After(alu, bank, ps, n, m)
  {
    if n > 0 {
      JoinRuns(alu, bank, ps, n - 1, m);
      ExecConcat(alu, bank, Join(ps, n - 1), ps[n - 1], m);
    }
  }

  lemma DriftLoads(h: nat, c: nat, depth: nat)
    requires h < BANK && c < BANK
    ensures Loads(Drift(h), BANK, depth) && Loads(KickX(c), BANK, depth) && Loads(KickY(c), BANK, depth)
    ensures Loads(SQUARE, BANK, depth) && Loads(FORCE, BANK, depth) && Loads(COMPENSATE, BANK, depth)
    ensures Loads(COPY, BANK, depth) && Loads(HALFFORCE, BANK, depth) && Loads(HALFKICK, BANK, depth)
  {
  }

  lemma StretchesLoad(v: Variant, depth: nat)
    ensures forall j | 0 <= j < |Stretches(v)| :: Loads(Stretches(v)[j], BANK, depth)
  {
    hide Loads, Drift, KickX, KickY;
    DriftLoads(0, 0, depth);
    DriftLoads(1, 1, depth);
    DriftLoads(0, 2, depth);
  }

  lemma AfterNext<V>(alu: Alu<V>, bank: seq<V>, ps: seq<seq<Instr>>, n: nat, m: Lane<V>)
    requires IsLane(m) && n < |ps| && forall j | 0 <= j < |ps| :: Loads(ps[j], |bank|, |m.s|)
    ensures After(alu, bank, ps, 0, m) == m
    ensures After(alu, bank, ps, n + 1, m) == Exec(alu, bank, ps[n], After(alu, bank, ps, n, m))
  {
  }

  lemma PlainRuns<V>(alu: Alu<V>, bank: seq<V>, v: Variant, m: Lane<V>)
    requires IsLane(m) && |bank| == BANK && (v == Real || v == XforceSign)
    requires forall j | 0 <= j < |Stretches(v)| :: Loads(Stretches(v)[j], |bank|, |m.s|)
    ensures var m' := After(alu, bank, Stretches(v), 5, m);
            m'.s == m.s && State(m') == StepOf(alu, bank, v, State(m))
  {
    hide After, Exec, Loads, State, Moved, ForceX, ForceY, Drift, KickX, KickY;
    var ps := Stretches(v);
    var c := if v == XforceSign then 0 else 2;
    DriftRuns(alu, bank, 1, m);
    AfterNext(alu, bank, ps, 0, m);
    var m1 := After(alu, bank, ps, 1, m);
    KickXRuns(alu, bank, c, m1);
    AfterNext(alu, bank, ps, 1, m);
    var m2 := After(alu, bank, ps, 2, m);
    SquareKickYRuns(alu, bank, 0, m2);
    AfterNext(alu, bank, ps, 2, m);
    AfterNext(alu, bank, ps, 3, m);
    DriftRuns(alu, bank, 1, After(alu, bank, ps, 4, m));
    AfterNext(alu, bank, ps, 4, m);
  }

  lemma KahanRuns<V>(alu: Alu<V>, bank: seq<V>, m: Lane<V>)
    requires IsLane(m) && |bank| == BANK
    requires forall j | 0 <= j < |Stretches(Kahan)| :: Loads(Stretches(Kahan)[j], |bank|, |m.s|)
    ensures var m' := After(alu, bank, Stretches(Kahan), 7, m);
            m'.s == m.s && State(m') == StepOf(alu, bank, Kahan, State(m))
  {
    hide After, Exec, Loads, State, Moved, Compensated, ForceX, ForceY, Drift, KickY;
    var ps := Stretches(Kahan);
    DriftRuns(alu, bank, 1, m);
    AfterNext(alu, bank, ps, 0, m);
    CompensateRuns(alu, bank, After(alu, bank, ps, 1, m));
    AfterNext(alu, bank, ps, 1, m);
    AfterNext(alu, bank, ps, 2, m);
    AfterNext(alu, bank, ps, 3, m);
    SquareKickYRuns(alu, bank, 0, After(alu, bank, ps, 4, m));
    AfterNext(alu, bank, ps, 4, m);
    AfterNext(alu, bank, ps, 5, m);
    DriftRuns(alu, bank, 1, After(alu, bank, ps, 6, m));
    AfterNext(alu, bank, ps, 6, m);
  }

  lemma HalfKickRuns<V>(alu: Alu<V>, bank: seq<V>, m: Lane<V>)
    requires IsLane(m) && |bank| == BANK
    ensures Loads(HALFFORCE, |bank|, |m.s|) && Loads(HALFKICK, |bank|, |m.s|)
    ensures Loads(SQUARE, |bank|, |m.s|) && Loads(KickY(1), |bank|, |m.s|)
    ensures var m1 := Exec(alu, bank, HALFKICK, Exec(alu, bank, HALFFORCE, m));
            var m' := Exec(alu, bank, KickY(1), Exec(alu, bank, SQUARE, m1));
            m'.s == m.s && State(m') == HalfKicked(alu, bank, State(m))
  {
    hide Exec, Loads, State, ForceX, ForceY, KickY;
    HalfForceRuns(alu, bank, m);
    SquareKickYRuns(alu, bank, 1, Exec(alu, bank, HALFKICK, Exec(alu, bank, HALFFORCE, m)));
  }

  lemma KdkRuns<V>(alu: Alu<V>, bank: seq<V>, m: Lane<V>)
    requires IsLane(m) && |bank| == BANK
    requires forall j | 0 <= j < |Stretches(Kdk)| :: Loads(Stretches(Kdk)[j], |bank|, |m.s|)
    ensures var m' := After(alu, bank, Stretches(Kdk), 9, m);
            m'.s == m.s && State(m') == StepOf(alu, bank, Kdk, State(m))
  {
    hide After, Exec, Loads, State, Moved, HalfKicked, Drift, KickY;
    var ps := Stretches(Kdk);
    HalfKickRuns(alu, bank, m);
    AfterNext(alu, bank, ps, 0, m); AfterNext(alu, bank, ps, 1, m);
    AfterNext(alu, bank, ps, 2, m); AfterNext(alu, bank, ps, 3, m);
    DriftRuns(alu, bank, 0, After(alu, bank, ps, 4, m));
    AfterNext(alu, bank, ps, 4, m);
    HalfKickRuns(alu, bank, After(alu, bank, ps, 5, m));
    AfterNext(alu, bank, ps, 5, m); AfterNext(alu, bank, ps, 6, m);
    AfterNext(alu, bank, ps, 7, m); AfterNext(alu, bank, ps, 8, m);
  }

  lemma BodyIsStep<V>(alu: Alu<V>, bank: seq<V>, v: Variant, m: Lane<V>)
    requires IsLane(m) && |bank| == BANK
    ensures Loads(Body(v), |bank|, |m.s|)
    ensures var m' := Exec(alu, bank, Body(v), m);
            m'.s == m.s && State(m') == StepOf(alu, bank, v, State(m))
  {
    hide After, Exec, Loads, Join, State, StepOf;
    StretchesLoad(v, |m.s|);
    JoinRuns(alu, bank, Stretches(v), |Stretches(v)|, m);
    if v == Kahan { KahanRuns(alu, bank, m); }
    else if v == Kdk { KdkRuns(alu, bank, m); }
    else { PlainRuns(alu, bank, v, m); }
  }

  lemma {:induction false} LoopIsSteps<V>(alu: Alu<V>, bank: seq<V>, v: Variant, n: nat, m: Lane<V>)
    requires IsLane(m) && |bank| == BANK
    ensures Loads(Body(v), |bank|, |m.s|)
    ensures var m' := Loop(alu, bank, Body(v), n, m);
            m'.s == m.s && State(m') == Steps(alu, bank, v, n, State(m))
  {
    hide StepOf, Body, State;
    BodyIsStep(alu, bank, v, m);
    if n > 0 {
      LoopIsSteps(alu, bank, v, n - 1, m);
      BodyIsStep(alu, bank, v, Loop(alu, bank, Body(v), n - 1, m));
    }
  }

  /** The carried block: x, y, px, py, in slots 0..3. */
  function Carried<V>(u: Hh<V>): seq<V> { [u.x, u.y, u.px, u.py] }

  lemma LoadsRun<V>(alu: Alu<V>, bank: seq<V>, m: Lane<V>)
    requires IsLane(m) && |m.s| >= 4
    ensures Loads(LOADS, |bank|, |m.s|)
    ensures var m' := Exec(alu, bank, LOADS, m);
            m'.s == m.s && State(m') == Hh(m.s[0], m.s[1], m.s[2], m.s[3], m.r[10])
  {
    var p, q := [Ldl(3, 0), Ldl(4, 1)], [Ldl(5, 2), Ldl(6, 3)];
    Exec2(alu, bank, p[0], p[1], m);
    Exec2(alu, bank, q[0], q[1], Exec(alu, bank, p, m));
    ExecConcat(alu, bank, p, q, m);
  }

  lemma StoresRun<V>(alu: Alu<V>, bank: seq<V>, m: Lane<V>)
    requires IsLane(m) && |m.s| >= 4
    ensures Loads(STORES, |bank|, |m.s|)
    ensures Exec(alu, bank, STORES, m).s == Carried(State(m)) + m.s[4..]
  {
    var p, q := [Stl(3, 0), Stl(4, 1)], [Stl(5, 2), Stl(6, 3)];
    Exec2(alu, bank, p[0], p[1], m);
    Exec2(alu, bank, q[0], q[1], Exec(alu, bank, p, m));
    ExecConcat(alu, bank, p, q, m);
  }

  /** A run's start: the carried block and the register e. */
  function Start<V>(m: Lane<V>): Hh<V>
    requires IsLane(m) && |m.s| >= 4
  {
    Hh(m.s[0], m.s[1], m.s[2], m.s[3], m.r[10])
  }

  /** Meaning preservation: for every bank, registers, scratch and ALU, the image run for
      n trips leaves n steps of its start in the carried block and touches no other slot. */
  lemma ProgramIsSteps<V>(alu: Alu<V>, bank: seq<V>, v: Variant, n: nat, m: Lane<V>)
    requires IsLane(m) && |m.s| >= 4 && |bank| == BANK
    ensures ProgramLoads(HhProgram(v, n), |bank|, |m.s|)
    ensures RunProgram(alu, bank, HhProgram(v, n), m).s == Carried(Steps(alu, bank, v, n, Start(m))) + m.s[4..]
  {
    hide Body, Steps, Exec, Loop, Loads;
    LoadsRun(alu, bank, m);
    var m1 := Exec(alu, bank, LOADS, m);
    LoopIsSteps(alu, bank, v, n, m1);
    StoresRun(alu, bank, Loop(alu, bank, Body(v), n, m1));
  }

  // ---- resuming -------------------------------------------------------------

  lemma {:induction false} StepsAdd<V>(alu: Alu<V>, bank: seq<V>, v: Variant, a: nat, b: nat, u: Hh<V>)
    requires |bank| == BANK
    ensures Steps(alu, bank, v, a + b, u) == Steps(alu, bank, v, b, Steps(alu, bank, v, a, u))
  {
    hide StepOf;
    if b > 0 { StepsAdd(alu, bank, v, a, b - 1, u); }
  }

  /** But for kahan nothing reads e. */
  lemma {:induction false} DeadE<V>(alu: Alu<V>, bank: seq<V>, v: Variant, n: nat, u: Hh<V>, z: V)
    requires |bank| == BANK && v != Kahan
    ensures Steps(alu, bank, v, n, u.(e := z)) == Steps(alu, bank, v, n, u).(e := z)
  {
    if n > 0 { DeadE(alu, bank, v, n - 1, u, z); }
  }

  /** Segment chaining: a trips, then b trips from any lane that carries only the first
      segment's x, y, px, py, leave what a + b trips leave - and kahan, which also reads
      e, does so where the second segment starts from the e the first one ended with. */
  lemma SegmentsChain<V>(alu: Alu<V>, bank: seq<V>, v: Variant, a: nat, b: nat, m: Lane<V>, fresh': Lane<V>)
    requires IsLane(m) && |m.s| >= 4 && IsLane(fresh') && |fresh'.s| >= 4 && |bank| == BANK
    requires ProgramLoads(HhProgram(v, a), |bank|, |m.s|)
    requires fresh'.s[..4] == RunProgram(alu, bank, HhProgram(v, a), m).s[..4]
    requires v == Kahan ==> fresh'.r[10] == Steps(alu, bank, v, a, Start(m)).e
    ensures ProgramLoads(HhProgram(v, b), |bank|, |fresh'.s|) && ProgramLoads(HhProgram(v, a + b), |bank|, |m.s|)
    ensures RunProgram(alu, bank, HhProgram(v, b), fresh').s[..4]
         == RunProgram(alu, bank, HhProgram(v, a + b), m).s[..4]
  {
    hide Steps, RunProgram, HhProgram;
    ProgramIsSteps(alu, bank, v, a, m);
    ProgramIsSteps(alu, bank, v, b, fresh');
    ProgramIsSteps(alu, bank, v, a + b, m);
    StepsAdd(alu, bank, v, a, b, Start(m));
    var w := Steps(alu, bank, v, a, Start(m));
    assert fresh'.s[..4] == Carried(w);
    assert Start(fresh') == w.(e := fresh'.r[10]) by {
      assert forall j | 0 <= j < 4 :: fresh'.s[j] == fresh'.s[..4][j] == Carried(w)[j];
    }
    if v != Kahan { DeadE(alu, bank, v, b, w, fresh'.r[10]); }
  }

  /** An adder that loses the odd unit from four on, as a rounding one does; everything
      else exact. */
  function Coarse(): Alu<int> {
    Alu((a: int, b: int, c: int) => a * b + c,
        (a: int, b: int) => if a + b < 4 then a + b else a + b - (a + b) % 2,
        (a: int, b: int) => a - b,
        (a: int, b: int) => a * b,
        (a: int) => -a)
  }

  /** H, H/2, -H, 1 and 2 for h = 2. */
  const COARSE_BANK: seq<int> := [2, 1, -2, 1, 2]

  /** The control: right at every step, and not resumable - two trips in one segment and
      one trip in each of two leave different blocks. */
  lemma KahanDoesNotChain() returns (bank: seq<int>, m: Lane<int>)
    ensures bank == COARSE_BANK && |bank| == BANK && IsLane(m) && |m.s| == 4 && m == Entry(0, m.s, 4)
    ensures ProgramLoads(HhProgram(Kahan, 1), BANK, 4) && ProgramLoads(HhProgram(Kahan, 2), BANK, 4)
    ensures var once := RunProgram(Coarse(), bank, HhProgram(Kahan, 1), m);
            var twice := RunProgram(Coarse(), bank, HhProgram(Kahan, 2), m);
            RunProgram(Coarse(), bank, HhProgram(Kahan, 1), Entry(0, once.s, 4)).s != twice.s
  {
    // h = 2; the first step loses a unit to e, and a second that starts without it ends one off
    bank := COARSE_BANK;
    m := Entry(0, [0, -1, -1, 2], 4);
    hide Steps, StepOf, RunProgram, HhProgram, Coarse, Start, Entry, ProgramLoads;
    CoarseStep();
    RunsTo([0, -1, -1, 2], 1);
    RunsTo([0, -1, -1, 2], 2);
    RunsTo([3, 1, 4, 0], 1);
    CoarseSteps(Hh(0, -1, -1, 2, 0));
    CoarseSteps(Hh(3, 1, 4, 0, 0));
    StartIs([0, -1, -1, 2]);
  }

  lemma RunsTo(block: seq<int>, n: nat)
    requires |block| == 4
    ensures |COARSE_BANK| == BANK && ProgramLoads(HhProgram(Kahan, n), BANK, 4)
    ensures RunProgram(Coarse(), COARSE_BANK, HhProgram(Kahan, n), Entry(0, block, 4)).s
         == Carried(Steps(Coarse(), COARSE_BANK, Kahan, n, Hh(block[0], block[1], block[2], block[3], 0)))
  {
    hide Steps, RunProgram, HhProgram, Coarse, Start;
    var m := Entry(0, block, 4);
    StartIs(block);
    ProgramIsSteps(Coarse(), COARSE_BANK, Kahan, n, m);
    assert RunProgram(Coarse(), COARSE_BANK, HhProgram(Kahan, n), m).s[..4]
        == RunProgram(Coarse(), COARSE_BANK, HhProgram(Kahan, n), m).s;
  }

  lemma StartIs(block: seq<int>)
    requires |block| == 4
    ensures Start(Entry(0, block, 4)) == Hh(block[0], block[1], block[2], block[3], 0)
    ensures Entry(0, block, 4).s == block
  {
  }

  lemma CoarseStep()
    ensures StepOf(Coarse(), COARSE_BANK, Kahan, Hh(0, -1, -1, 2, 0)) == Hh(3, 1, 4, 0, 1)
    ensures StepOf(Coarse(), COARSE_BANK, Kahan, Hh(3, 1, 4, 0, 1)) == Hh(-30, -97, -37, -98, 0)
    ensures StepOf(Coarse(), COARSE_BANK, Kahan, Hh(3, 1, 4, 0, 0)) == Hh(-31, -97, -38, -98, 0)
  {
  }

  lemma CoarseSteps(u: Hh<int>)
    ensures Steps(Coarse(), COARSE_BANK, Kahan, 1, u) == StepOf(Coarse(), COARSE_BANK, Kahan, u)
    ensures Steps(Coarse(), COARSE_BANK, Kahan, 2, u)
         == StepOf(Coarse(), COARSE_BANK, Kahan, StepOf(Coarse(), COARSE_BANK, Kahan, u))
  {
    hide StepOf;
    assert Steps(Coarse(), COARSE_BANK, Kahan, 0, u) == u;
  }

  // ---- what a step costs ----------------------------------------------------

  lemma JoinLength(ps: seq<seq<Instr>>, n: nat)
    requires n < |ps|
    ensures |Join(ps, n + 1)| == |Join(ps, n)| + |ps[n]| && Join(ps, 0) == []
  {
  }

  /** The real step is 12 ALU instructions, the compensated one 16, the mutant's 20. */
  lemma BodyCost(v: Variant)
    ensures |Body(v)| == if v == Kahan then 16 else if v == Kdk then 20 else 12
  {
    hide Join;
    var ps := Stretches(v);
    JoinLength(ps, 0); JoinLength(ps, 1); JoinLength(ps, 2); JoinLength(ps, 3); JoinLength(ps, 4);
    if v == Kahan || v == Kdk { JoinLength(ps, 5); JoinLength(ps, 6); }
    if v == Kdk { JoinLength(ps, 7); JoinLength(ps, 8); }
  }

  // ---- the emitter ----------------------------------------------------------

  /** One stretch of the body, straight onto the buffer. */
  method EmitStretch(S: Src, p: seq<Instr>, ghost head: seq<Line>, ghost ps: seq<seq<Instr>>, ghost n: nat)
    requires n < |ps| && ps[n] == p && S.lines == head + Ops(Join(ps, n))
    modifies S
    ensures S.lines == head + Ops(Join(ps, n + 1))
  {
    S.Code(p);
    OpsConcat(Join(ps, n), p);
  }

  method EmitHalfKick(S: Src, ghost head: seq<Line>, ghost ps: seq<seq<Instr>>, ghost n: nat)
    requires n + 3 < |ps| && ps[n] == HALFFORCE && ps[n + 1] == HALFKICK && ps[n + 2] == SQUARE && ps[n + 3] == KickY(1)
    requires S.lines == head + Ops(Join(ps, n))
    modifies S
    ensures S.lines == head + Ops(Join(ps, n + 4))
  {
    hide Join, Ops;
    EmitStretch(S, HALFFORCE, head, ps, n);
    EmitStretch(S, HALFKICK, head, ps, n + 1);
    EmitStretch(S, SQUARE, head, ps, n + 2);
    EmitStretch(S, KickY(1), head, ps, n + 3);
  }

  method EmitBody(S: Src, v: Variant)
    modifies S
    ensures S.lines == old(S.lines) + Ops(Body(v))
  {
    ghost var head, ps := S.lines, Stretches(v);
    assert S.lines == head + Ops(Join(ps, 0));
    hide Join, Ops;
    if v == Kdk {
      EmitHalfKick(S, head, ps, 0);
      EmitStretch(S, Drift(0), head, ps, 4);
      EmitHalfKick(S, head, ps, 5);
    } else if v == Kahan {
      EmitStretch(S, Drift(1), head, ps, 0);
      EmitStretch(S, FORCE, head, ps, 1);
      EmitStretch(S, COMPENSATE, head, ps, 2);
      EmitStretch(S, COPY, head, ps, 3);
      EmitStretch(S, SQUARE, head, ps, 4);
      EmitStretch(S, KickY(0), head, ps, 5);
      EmitStretch(S, Drift(1), head, ps, 6);
    } else {
      EmitStretch(S, Drift(1), head, ps, 0);
      EmitStretch(S, KickX(if v == XforceSign then 0 else 2), head, ps, 1);
      EmitStretch(S, SQUARE, head, ps, 2);
      EmitStretch(S, KickY(0), head, ps, 3);
      EmitStretch(S, Drift(1), head, ps, 4);
    }
  }

  method Emit(v: Variant, trips: nat) returns (lines: seq<Line>)
    ensures lines == Listing(HhProgram(v, trips))
  {
    hide Body;
    var S := new Src();
    for i := 0 to 4
      invariant S.lines == Ops(LOADS[..i])
    {
      S.Code([Ldl(3 + i, i)]);
      OpsConcat(LOADS[..i], [LOADS[i]]);
      assert LOADS[..i] + [LOADS[i]] == LOADS[..i + 1];
    }
    assert LOADS[..4] == LOADS;
    S.Control(Repeat(trips));
    EmitBody(S, v);
    S.Control(Endrep);
    ghost var head := S.lines;
    for i := 0 to 4
      invariant S.lines == head + Ops(STORES[..i])
    {
      S.Code([Stl(3 + i, i)]);
      OpsConcat(STORES[..i], [STORES[i]]);
      assert STORES[..i] + [STORES[i]] == STORES[..i + 1];
    }
    assert STORES[..4] == STORES;
    S.Control(Halt);
    lines := S.lines;
  }
}
