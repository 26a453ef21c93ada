/** programs/gen_odes.py's `lorenz96`: the emitter, for a ring of any size, and what one
    pass of the loop body it emits computes. */
module Lorenz96 {
  import opened Sequencer
  import opened StageVectors
  import opened Emitter

  /** The test-only wrong programs the same generator writes, and the real one. */
  datatype Variant = Real | Index | Stage4Half | Rk38

  // The registers' names.  w0..w3 are registers 3..6.
  const T0 := 7
  const T1 := 8
  const K := 9
  const Y := 10
  const A := 11

  function W(j: int): (r: nat)
    ensures 3 <= r < 7
  {
    3 + j % 4
  }

  // The bank in declaration order: H H2 H6 TWO F, or under rk38 H H3 MH3 MH H8 THREE F.
  function BankSize(v: Variant): nat { if v == Rk38 then 7 else 5 }
  function Forcing(v: Variant): nat { if v == Rk38 then 6 else 4 }

  // ---- the code -------------------------------------------------------------

  /** Where stage s reads its input: Y, TB, TA, TB. */
  function In(N: nat, s: int): nat {
    if s == 1 then 0 else if s == 3 then N else 2 * N
  }

  function RhsCode(v: Variant, i: int): seq<Instr> {
    [Sub(T0, Reg(W(i + 1)), Reg(W(i - 2))),
     Sub(T1, Con(Forcing(v)), Reg(W(i))),
     Fma(K, Reg(T0), Reg(if v == Index then W(i + 1) else W(i - 1)), Reg(T1))]
  }

  function FmaStore(d: nat, a: Operand, b: Operand, c: Operand, slot: nat): seq<Instr> {
    [Fma(d, a, b, c), Stl(d, slot)]
  }

  /** Component i's share of stage s: scratch is Y, TA, TB, K1 and ACC, N slots each. */
  function Share(N: nat, s: int, v: Variant, i: nat): seq<Instr> {
    if s == 1 then [Stl(K, 3 * N + i)] + FmaStore(T0, Con(1), Reg(K), Reg(W(i)), 2 * N + i)
    else if s == 2 then [Ldl(Y, i)] + FmaStore(T0, Con(1), Reg(K), Reg(Y), N + i)
                        + ([Ldl(A, 3 * N + i)] + FmaStore(A, Con(3), Reg(K), Reg(A), 4 * N + i))
    else if s == 3 then [Ldl(Y, i)] + FmaStore(T0, Con(if v == Stage4Half then 1 else 0), Reg(K), Reg(Y), 2 * N + i)
                        + ([Ldl(A, 4 * N + i)] + FmaStore(A, Con(3), Reg(K), Reg(A), 4 * N + i))
    else [Ldl(A, 4 * N + i), Add(A, Reg(A), Reg(K))] + ([Ldl(Y, i)] + FmaStore(Y, Con(2), Reg(A), Reg(Y), i))
  }

  /** The same under the 3/8 rule, with a sixth vector TC for Y + h k1 - h k2. */
  function Share38(N: nat, s: int, i: nat): seq<Instr> {
    if s == 1 then [Stl(K, 3 * N + i)] + FmaStore(T0, Con(1), Reg(K), Reg(W(i)), 2 * N + i)
    else if s == 2 then
      [Ldl(Y, i), Ldl(A, 3 * N + i)]
      + ([Fma(T0, Con(2), Reg(A), Reg(Y))] + FmaStore(T0, Con(0), Reg(K), Reg(T0), N + i))
      + ([Fma(T1, Con(0), Reg(A), Reg(Y))] + FmaStore(T1, Con(3), Reg(K), Reg(T1), 5 * N + i))
      + FmaStore(A, Con(5), Reg(K), Reg(A), 4 * N + i)
    else if s == 3 then [Ldl(T0, 5 * N + i)] + FmaStore(T0, Con(0), Reg(K), Reg(T0), 2 * N + i)
                        + ([Ldl(A, 4 * N + i)] + FmaStore(A, Con(5), Reg(K), Reg(A), 4 * N + i))
    else [Ldl(A, 4 * N + i), Add(A, Reg(A), Reg(K))] + ([Ldl(Y, i)] + FmaStore(Y, Con(4), Reg(A), Reg(Y), i))
  }

  function ShareCode(N: nat, s: int, v: Variant, i: nat): seq<Instr> {
    if v == Rk38 then Share38(N, s, i) else Share(N, s, v, i)
  }

  /** The window's next load, left out at the ring's end. */
  function NextLoad(N: nat, s: int, i: nat): seq<Instr>
    requires N > 0
  {
    if i + 2 <= N then [Ldl(W(i + 2), In(N, s) + (i + 2) % N)] else []
  }

  function Component(N: nat, s: int, v: Variant, i: nat): seq<Instr>
    requires N > 0
  {
    RhsCode(v, i) + ShareCode(N, s, v, i) + NextLoad(N, s, i)
  }

  function Components(N: nat, s: int, v: Variant, n: nat): seq<Instr>
    requires N > 0
  {
    if n == 0 then [] else Components(N, s, v, n - 1) + Component(N, s, v, n - 1)
  }

  function WindowLoads(N: nat, s: int): seq<Instr>
    requires N >= 2
  {
    [Ldl(W(-2), In(N, s) + N - 2), Ldl(W(-1), In(N, s) + N - 1)]
    + [Ldl(W(0), In(N, s) + 0), Ldl(W(1), In(N, s) + 1)]
  }

  function StageCode(N: nat, s: int, v: Variant): seq<Instr>
    requires N >= 2
  {
    WindowLoads(N, s) + Components(N, s, v, N)
  }

  function Stages(N: nat, v: Variant, n: nat): seq<Instr>
    requires N >= 2
  {
    if n == 0 then [] else Stages(N, v, n - 1) + StageCode(N, n, v)
  }

  /** The loop body: four stages. */
  function Body(N: nat, v: Variant): seq<Instr>
    requires N >= 2
  {
    Stages(N, v, 4)
  }

  function L96Program(N: nat, v: Variant, trips: nat): Program
    requires N >= 2
  {
    Program([], trips, Body(N, v), [])
  }

  // ---- what a component's code does -----------------------------------------

  /** The stage vectors in a lane's scratch. */
  datatype Vectors<V> = Vectors(y: seq<V>, ta: seq<V>, tb: seq<V>, k1: seq<V>, acc: seq<V>, tc: seq<V>)

  function Depth(N: nat, v: Variant): nat { if v == Rk38 then 6 * N else 5 * N }

  function View<V>(s: seq<V>, N: nat): (vs: Vectors<V>)
    requires |s| >= 5 * N
    ensures |vs.y| == |vs.ta| == |vs.tb| == |vs.k1| == |vs.acc| == N
    ensures |s| >= 6 * N ==> |vs.tc| == N
  {
    Vectors(s[..N], s[N..2 * N], s[2 * N..3 * N], s[3 * N..4 * N], s[4 * N..5 * N],
            if |s| >= 6 * N then s[5 * N..6 * N] else [])
  }

  lemma ViewAt<V>(s: seq<V>, N: nat, i: nat)
    requires |s| >= 5 * N && i < N
    ensures var vs := View(s, N);
            && vs.y[i] == s[i] && vs.k1[i] == s[3 * N + i] && vs.acc[i] == s[4 * N + i]
            && (|s| >= 6 * N ==> vs.tc[i] == s[5 * N + i])
  {
  }

  lemma ViewSet<V>(s: seq<V>, N: nat, i: nat, x: V)
    requires |s| >= 5 * N && i < N
    ensures var vs := View(s, N);
            && View(s[i := x], N) == vs.(y := vs.y[i := x])
            && View(s[N + i := x], N) == vs.(ta := vs.ta[i := x])
            && View(s[2 * N + i := x], N) == vs.(tb := vs.tb[i := x])
            && View(s[3 * N + i := x], N) == vs.(k1 := vs.k1[i := x])
            && View(s[4 * N + i := x], N) == vs.(acc := vs.acc[i := x])
            && (|s| >= 6 * N ==> View(s[5 * N + i := x], N) == vs.(tc := vs.tc[i := x]))
  {
  }

  predicate Ready<V>(N: nat, v: Variant, bank: seq<V>, m: Lane<V>) {
    N >= 2 && IsLane(m) && |bank| == BankSize(v) && |m.s| >= Depth(N, v)
  }

  /** Two lanes agree on the window. */
  ghost predicate SameWindow<V>(m: Lane<V>, m': Lane<V>)
    requires IsLane(m) && IsLane(m')
  {
    forall j :: 3 <= j < 7 ==> m'.r[j] == m.r[j]
  }

  /** `d := c*b + a`, stored: what the two instructions do. */
  lemma FmaStoreRuns<V>(alu: Alu<V>, bank: seq<V>, d: nat, a: Operand, b: Operand, c: Operand, slot: nat, m: Lane<V>)
    requires IsLane(m) && 7 <= d < REGS && slot < |m.s|
    requires OperandFits(a, |bank|) && OperandFits(b, |bank|) && OperandFits(c, |bank|)
    ensures Loads(FmaStore(d, a, b, c, slot), |bank|, |m.s|)
    ensures var x := alu.fma(Value(a, bank, m), Value(b, bank, m), Value(c, bank, m));
            Exec(alu, bank, FmaStore(d, a, b, c, slot), m) == Lane(m.r[d := x], m.s[slot := x])
  {
    Exec2(alu, bank, Fma(d, a, b, c), Stl(d, slot), m);
  }

  /** The same after a load or another one-register instruction. */
  lemma ThenFmaStoreRuns<V>(alu: Alu<V>, bank: seq<V>, i: Instr, d: nat, a: Operand, b: Operand, c: Operand,
                            slot: nat, m: Lane<V>)
    requires IsLane(m) && 7 <= d < REGS && slot < |m.s| && Fits(i, |bank|, |m.s|)
    requires OperandFits(a, |bank|) && OperandFits(b, |bank|) && OperandFits(c, |bank|)
    ensures Loads([i] + FmaStore(d, a, b, c, slot), |bank|, |m.s|)
    ensures var m1 := Step(alu, bank, i, m);
            var x := alu.fma(Value(a, bank, m1), Value(b, bank, m1), Value(c, bank, m1));
            Exec(alu, bank, [i] + FmaStore(d, a, b, c, slot), m) == Lane(m1.r[d := x], m1.s[slot := x])
  {
    var m1 := Step(alu, bank, i, m);
    FmaStoreRuns(alu, bank, d, a, b, c, slot, m1);
    ExecCons(alu, bank, i, FmaStore(d, a, b, c, slot), m);
  }

  /** What component i's share of stage s writes, k being its derivative and x the
      stage's input there. */
  function Effect<V>(alu: Alu<V>, bank: seq<V>, s: int, v: Variant, i: nat, k: V, x: V, vs: Vectors<V>): Vectors<V>
    requires |bank| == BankSize(v)
    requires i < |vs.y| == |vs.ta| == |vs.tb| == |vs.k1| == |vs.acc| && (v == Rk38 ==> |vs.tc| == |vs.y|)
  {
    if s == 1 then vs.(k1 := vs.k1[i := k], tb := vs.tb[i := alu.fma(bank[1], k, x)])
    else if v == Rk38 then
      if s == 2 then vs.(ta := vs.ta[i := alu.fma(bank[0], k, alu.fma(bank[2], vs.k1[i], vs.y[i]))],
                         tc := vs.tc[i := alu.fma(bank[3], k, alu.fma(bank[0], vs.k1[i], vs.y[i]))],
                         acc := vs.acc[i := alu.fma(bank[5], k, vs.k1[i])])
      else if s == 3 then vs.(tb := vs.tb[i := alu.fma(bank[0], k, vs.tc[i])],
                              acc := vs.acc[i := alu.fma(bank[5], k, vs.acc[i])])
      else vs.(y := vs.y[i := alu.fma(bank[4], alu.add(vs.acc[i], k), vs.y[i])])
    else if s == 2 then vs.(ta := vs.ta[i := alu.fma(bank[1], k, vs.y[i])],
                            acc := vs.acc[i := alu.fma(bank[3], k, vs.k1[i])])
    else if s == 3 then vs.(tb := vs.tb[i := alu.fma(bank[if v == Stage4Half then 1 else 0], k, vs.y[i])],
                            acc := vs.acc[i := alu.fma(bank[3], k, vs.acc[i])])
    else vs.(y := vs.y[i := alu.fma(bank[2], alu.add(vs.acc[i], k), vs.y[i])])
  }

  /** The scratch after a component's share: Effect, as stores. */
  function Wrote<V>(alu: Alu<V>, bank: seq<V>, N: nat, s: int, v: Variant, i: nat, k: V, x: V, m: seq<V>): (m': seq<V>)
    requires |bank| == BankSize(v) && i < N && |m| >= Depth(N, v)
    ensures |m'| == |m|
  {
    if s == 1 then m[3 * N + i := k][2 * N + i := alu.fma(bank[1], k, x)]
    else if v == Rk38 then
      if s == 2 then m[N + i := alu.fma(bank[0], k, alu.fma(bank[2], m[3 * N + i], m[i]))]
                      [5 * N + i := alu.fma(bank[3], k, alu.fma(bank[0], m[3 * N + i], m[i]))]
                      [4 * N + i := alu.fma(bank[5], k, m[3 * N + i])]
      else if s == 3 then m[2 * N + i := alu.fma(bank[0], k, m[5 * N + i])]
                           [4 * N + i := alu.fma(bank[5], k, m[4 * N + i])]
      else m[i := alu.fma(bank[4], alu.add(m[4 * N + i], k), m[i])]
    else if s == 2 then m[N + i := alu.fma(bank[1], k, m[i])][4 * N + i := alu.fma(bank[3], k, m[3 * N + i])]
    else if s == 3 then m[2 * N + i := alu.fma(bank[if v == Stage4Half then 1 else 0], k, m[i])]
                         [4 * N + i := alu.fma(bank[3], k, m[4 * N + i])]
    else m[i := alu.fma(bank[2], alu.add(m[4 * N + i], k), m[i])]
  }

  lemma WroteIsEffect<V>(alu: Alu<V>, bank: seq<V>, N: nat, s: int, v: Variant, i: nat, k: V, x: V, m: seq<V>)
    requires |bank| == BankSize(v) && i < N && |m| >= Depth(N, v)
    ensures View(Wrote(alu, bank, N, s, v, i, k, x, m), N) == Effect(alu, bank, s, v, i, k, x, View(m, N))
  {
    hide View;
    ViewAt(m, N, i);
    if s == 1 {
      ViewSet(m, N, i, k);
      ViewSet(m[3 * N + i := k], N, i, alu.fma(bank[1], k, x));
    } else if v == Rk38 {
      WroteIsEffect38(alu, bank, N, s, i, k, x, m);
    } else if s == 2 {
      var a := alu.fma(bank[1], k, m[i]);
      ViewSet(m, N, i, a);
      ViewSet(m[N + i := a], N, i, alu.fma(bank[3], k, m[3 * N + i]));
    } else if s == 3 {
      var a := alu.fma(bank[if v == Stage4Half then 1 else 0], k, m[i]);
      ViewSet(m, N, i, a);
      ViewSet(m[2 * N + i := a], N, i, alu.fma(bank[3], k, m[4 * N + i]));
    } else {
      ViewSet(m, N, i, alu.fma(bank[2], alu.add(m[4 * N + i], k), m[i]));
    }
  }

  lemma WroteIsEffect38<V>(alu: Alu<V>, bank: seq<V>, N: nat, s: int, i: nat, k: V, x: V, m: seq<V>)
    requires |bank| == BankSize(Rk38) && i < N && |m| >= Depth(N, Rk38) && s != 1
    ensures View(Wrote(alu, bank, N, s, Rk38, i, k, x, m), N) == Effect(alu, bank, s, Rk38, i, k, x, View(m, N))
  {
    hide View;
    ViewAt(m, N, i);
    if s == 2 {
      var a := alu.fma(bank[0], k, alu.fma(bank[2], m[3 * N + i], m[i]));
      var b := alu.fma(bank[3], k, alu.fma(bank[0], m[3 * N + i], m[i]));
      ViewSet(m, N, i, a);
      ViewSet(m[N + i := a], N, i, b);
      ViewSet(m[N + i := a][5 * N + i := b], N, i, alu.fma(bank[5], k, m[3 * N + i]));
    } else if s == 3 {
      var a := alu.fma(bank[0], k, m[5 * N + i]);
      ViewSet(m, N, i, a);
      ViewSet(m[2 * N + i := a], N, i, alu.fma(bank[5], k, m[4 * N + i]));
    } else {
      ViewSet(m, N, i, alu.fma(bank[4], alu.add(m[4 * N + i], k), m[i]));
    }
  }

  lemma Share1Runs<V>(alu: Alu<V>, bank: seq<V>, N: nat, v: Variant, i: nat, m: Lane<V>)
    requires Ready(N, v, bank, m) && i < N
    ensures Loads(ShareCode(N, 1, v, i), |bank|, |m.s|)
    ensures var m' := Exec(alu, bank, ShareCode(N, 1, v, i), m);
            SameWindow(m, m') && m'.s == Wrote(alu, bank, N, 1, v, i, m.r[K], m.r[W(i)], m.s)
  {
    ThenFmaStoreRuns(alu, bank, Stl(K, 3 * N + i), T0, Con(1), Reg(K), Reg(W(i)), 2 * N + i, m);
  }

  lemma Share2Runs<V>(alu: Alu<V>, bank: seq<V>, N: nat, v: Variant, i: nat, m: Lane<V>)
    requires Ready(N, v, bank, m) && i < N && v != Rk38
    ensures Loads(ShareCode(N, 2, v, i), |bank|, |m.s|)
    ensures var m' := Exec(alu, bank, ShareCode(N, 2, v, i), m);
            SameWindow(m, m') && m'.s == Wrote(alu, bank, N, 2, v, i, m.r[K], m.r[W(i)], m.s)
  {
    var p := [Ldl(Y, i)] + FmaStore(T0, Con(1), Reg(K), Reg(Y), N + i);
    ThenFmaStoreRuns(alu, bank, Ldl(Y, i), T0, Con(1), Reg(K), Reg(Y), N + i, m);
    var m1 := Exec(alu, bank, p, m);
    ThenFmaStoreRuns(alu, bank, Ldl(A, 3 * N + i), A, Con(3), Reg(K), Reg(A), 4 * N + i, m1);
    ExecConcat(alu, bank, p, [Ldl(A, 3 * N + i)] + FmaStore(A, Con(3), Reg(K), Reg(A), 4 * N + i), m);
  }

  lemma Share3Runs<V>(alu: Alu<V>, bank: seq<V>, N: nat, v: Variant, i: nat, m: Lane<V>)
    requires Ready(N, v, bank, m) && i < N && v != Rk38
    ensures Loads(ShareCode(N, 3, v, i), |bank|, |m.s|)
    ensures var m' := Exec(alu, bank, ShareCode(N, 3, v, i), m);
            SameWindow(m, m') && m'.s == Wrote(alu, bank, N, 3, v, i, m.r[K], m.r[W(i)], m.s)
  {
    var h := if v == Stage4Half then 1 else 0;
    var p := [Ldl(Y, i)] + FmaStore(T0, Con(h), Reg(K), Reg(Y), 2 * N + i);
    ThenFmaStoreRuns(alu, bank, Ldl(Y, i), T0, Con(h), Reg(K), Reg(Y), 2 * N + i, m);
    var m1 := Exec(alu, bank, p, m);
    ThenFmaStoreRuns(alu, bank, Ldl(A, 4 * N + i), A, Con(3), Reg(K), Reg(A), 4 * N + i, m1);
    ExecConcat(alu, bank, p, [Ldl(A, 4 * N + i)] + FmaStore(A, Con(3), Reg(K), Reg(A), 4 * N + i), m);
  }

  lemma Share4Runs<V>(alu: Alu<V>, bank: seq<V>, N: nat, v: Variant, i: nat, m: Lane<V>)
    requires Ready(N, v, bank, m) && i < N
    ensures Loads(ShareCode(N, 4, v, i), |bank|, |m.s|)
    ensures var m' := Exec(alu, bank, ShareCode(N, 4, v, i), m);
            SameWindow(m, m') && m'.s == Wrote(alu, bank, N, 4, v, i, m.r[K], m.r[W(i)], m.s)
  {
    var c := if v == Rk38 then 4 else 2;
    var p := [Ldl(A, 4 * N + i), Add(A, Reg(A), Reg(K))];
    Exec2(alu, bank, Ldl(A, 4 * N + i), Add(A, Reg(A), Reg(K)), m);
    var m1 := Exec(alu, bank, p, m);
    ThenFmaStoreRuns(alu, bank, Ldl(Y, i), Y, Con(c), Reg(A), Reg(Y), i, m1);
    ExecConcat(alu, bank, p, [Ldl(Y, i)] + FmaStore(Y, Con(c), Reg(A), Reg(Y), i), m);
  }

  /** The 3/8 rule's stage 2 up to TA: Y_i and K1_i stay in their registers. */
  function Mid38(N: nat, i: nat): seq<Instr> {
    [Ldl(Y, i), Ldl(A, 3 * N + i)]
    + ([Fma(T0, Con(2), Reg(A), Reg(Y))] + FmaStore(T0, Con(0), Reg(K), Reg(T0), N + i))
  }

  lemma Mid38Runs<V>(alu: Alu<V>, bank: seq<V>, N: nat, i: nat, m: Lane<V>)
    requires Ready(N, Rk38, bank, m) && i < N
    ensures Loads(Mid38(N, i), |bank|, |m.s|)
    ensures var m' := Exec(alu, bank, Mid38(N, i), m);
            && SameWindow(m, m') && m'.r[K] == m.r[K] && m'.r[Y] == m.s[i] && m'.r[A] == m.s[3 * N + i]
            && m'.s == m.s[N + i := alu.fma(bank[0], m.r[K], alu.fma(bank[2], m.s[3 * N + i], m.s[i]))]
  {
    hide FmaStore, Exec;
    var p0 := [Ldl(Y, i), Ldl(A, 3 * N + i)];
    var f := Fma(T0, Con(2), Reg(A), Reg(Y));
    Exec2(alu, bank, Ldl(Y, i), Ldl(A, 3 * N + i), m);
    ThenFmaStoreRuns(alu, bank, f, T0, Con(0), Reg(K), Reg(T0), N + i, Exec(alu, bank, p0, m));
    ExecConcat(alu, bank, p0, [f] + FmaStore(T0, Con(0), Reg(K), Reg(T0), N + i), m);
  }

  function Rest38(N: nat, i: nat): seq<Instr> {
    ([Fma(T1, Con(0), Reg(A), Reg(Y))] + FmaStore(T1, Con(3), Reg(K), Reg(T1), 5 * N + i))
    + FmaStore(A, Con(5), Reg(K), Reg(A), 4 * N + i)
  }

  lemma Rest38Runs<V>(alu: Alu<V>, bank: seq<V>, N: nat, i: nat, m: Lane<V>)
    requires Ready(N, Rk38, bank, m) && i < N
    ensures Loads(Rest38(N, i), |bank|, |m.s|)
    ensures var m' := Exec(alu, bank, Rest38(N, i), m);
            && SameWindow(m, m')
            && m'.s == m.s[5 * N + i := alu.fma(bank[3], m.r[K], alu.fma(bank[0], m.r[A], m.r[Y]))]
                          [4 * N + i := alu.fma(bank[5], m.r[K], m.r[A])]
  {
    hide FmaStore, Exec;
    var f := Fma(T1, Con(0), Reg(A), Reg(Y));
    var p := [f] + FmaStore(T1, Con(3), Reg(K), Reg(T1), 5 * N + i);
    ThenFmaStoreRuns(alu, bank, f, T1, Con(3), Reg(K), Reg(T1), 5 * N + i, m);
    FmaStoreRuns(alu, bank, A, Con(5), Reg(K), Reg(A), 4 * N + i, Exec(alu, bank, p, m));
    ExecConcat(alu, bank, p, FmaStore(A, Con(5), Reg(K), Reg(A), 4 * N + i), m);
  }

  lemma Share38Stage2Runs<V>(alu: Alu<V>, bank: seq<V>, N: nat, i: nat, m: Lane<V>)
    requires Ready(N, Rk38, bank, m) && i < N
    ensures Loads(ShareCode(N, 2, Rk38, i), |bank|, |m.s|)
    ensures var m' := Exec(alu, bank, ShareCode(N, 2, Rk38, i), m);
            SameWindow(m, m') && m'.s == Wrote(alu, bank, N, 2, Rk38, i, m.r[K], m.r[W(i)], m.s)
  {
    Mid38Runs(alu, bank, N, i, m);
    Rest38Runs(alu, bank, N, i, Exec(alu, bank, Mid38(N, i), m));
    ExecConcat(alu, bank, Mid38(N, i), Rest38(N, i), m);
    assert ShareCode(N, 2, Rk38, i) == Mid38(N, i) + Rest38(N, i);
  }

  lemma Share38Stage3Runs<V>(alu: Alu<V>, bank: seq<V>, N: nat, i: nat, m: Lane<V>)
    requires Ready(N, Rk38, bank, m) && i < N
    ensures Loads(ShareCode(N, 3, Rk38, i), |bank|, |m.s|)
    ensures var m' := Exec(alu, bank, ShareCode(N, 3, Rk38, i), m);
            SameWindow(m, m') && m'.s == Wrote(alu, bank, N, 3, Rk38, i, m.r[K], m.r[W(i)], m.s)
  {
    var p := [Ldl(T0, 5 * N + i)] + FmaStore(T0, Con(0), Reg(K), Reg(T0), 2 * N + i);
    ThenFmaStoreRuns(alu, bank, Ldl(T0, 5 * N + i), T0, Con(0), Reg(K), Reg(T0), 2 * N + i, m);
    var m1 := Exec(alu, bank, p, m);
    ThenFmaStoreRuns(alu, bank, Ldl(A, 4 * N + i), A, Con(5), Reg(K), Reg(A), 4 * N + i, m1);
    ExecConcat(alu, bank, p, [Ldl(A, 4 * N + i)] + FmaStore(A, Con(5), Reg(K), Reg(A), 4 * N + i), m);
  }

  lemma ShareRuns<V>(alu: Alu<V>, bank: seq<V>, N: nat, s: int, v: Variant, i: nat, m: Lane<V>)
    requires Ready(N, v, bank, m) && i < N && 1 <= s <= 4
    ensures Loads(ShareCode(N, s, v, i), |bank|, |m.s|)
    ensures var m' := Exec(alu, bank, ShareCode(N, s, v, i), m);
            SameWindow(m, m') && m'.s == Wrote(alu, bank, N, s, v, i, m.r[K], m.r[W(i)], m.s)
  {
    if s == 1 { Share1Runs(alu, bank, N, v, i, m); }
    else if s == 4 { Share4Runs(alu, bank, N, v, i, m); }
    else if v == Rk38 {
      if s == 2 { Share38Stage2Runs(alu, bank, N, i, m); } else { Share38Stage3Runs(alu, bank, N, i, m); }
    }
    else if s == 2 { Share2Runs(alu, bank, N, v, i, m); }
    else { Share3Runs(alu, bank, N, v, i, m); }
  }

  // ---- the mathematics ------------------------------------------------------

  /** Ring indexing: indices modulo the ring's size. */
  function At<V>(x: seq<V>, j: int): V
    requires |x| > 0
  {
    x[j % |x|]
  }

  /** (x_(i+1) - x_(i-2)) x_(i-1) - x_i + F as two SUBs and one FMA; the `index` mutant
      has x_(i+1) where x_(i-1) belongs. */
  function Rhs<V>(alu: Alu<V>, f: V, v: Variant, x: seq<V>, i: nat): V
    requires i < |x|
  {
    alu.fma(alu.sub(At(x, i + 1), At(x, i - 2)), At(x, if v == Index then i + 1 else i - 1), alu.sub(f, x[i]))
  }

  function Field<V>(alu: Alu<V>, f: V, v: Variant, x: seq<V>): (k: seq<V>)
    ensures |k| == |x|
  {
    seq(|x|, i requires 0 <= i < |x| => Rhs(alu, f, v, x, i))
  }

  /** The classic fourth-order step, in the generator's order of roundings. */
  function Rk4Step<V>(alu: Alu<V>, bank: seq<V>, v: Variant, y: seq<V>): (y': seq<V>)
    requires |bank| == 5
    ensures |y'| == |y|
  {
    var k1 := Field(alu, bank[4], v, y);
    var k2 := Field(alu, bank[4], v, Axpy(alu, bank[1], k1, y));
    var k3 := Field(alu, bank[4], v, Axpy(alu, bank[1], k2, y));
    var k4 := Field(alu, bank[4], v, Axpy(alu, bank[if v == Stage4Half then 1 else 0], k3, y));
    Axpy(alu, bank[2], Plus(alu, Axpy(alu, bank[3], k3, Axpy(alu, bank[3], k2, k1)), k4), y)
  }

  /** The 3/8 rule's step. */
  function Rk38Step<V>(alu: Alu<V>, bank: seq<V>, y: seq<V>): (y': seq<V>)
    requires |bank| == 7
    ensures |y'| == |y|
  {
    var k1 := Field(alu, bank[6], Rk38, y);
    var k2 := Field(alu, bank[6], Rk38, Axpy(alu, bank[1], k1, y));
    var k3 := Field(alu, bank[6], Rk38, Axpy(alu, bank[0], k2, Axpy(alu, bank[2], k1, y)));
    var k4 := Field(alu, bank[6], Rk38, Axpy(alu, bank[0], k3, Axpy(alu, bank[3], k2, Axpy(alu, bank[0], k1, y))));
    Axpy(alu, bank[4], Plus(alu, Axpy(alu, bank[5], k3, Axpy(alu, bank[5], k2, k1)), k4), y)
  }

  function StepOf<V>(alu: Alu<V>, bank: seq<V>, v: Variant, y: seq<V>): (y': seq<V>)
    requires |bank| == BankSize(v)
    ensures |y'| == |y|
  {
    if v == Rk38 then Rk38Step(alu, bank, y) else Rk4Step(alu, bank, v, y)
  }

  // ---- a component, its window and its stage --------------------------------

  /** The window invariant: w(j) = x_(j mod N) for j in i-2..i+1. */
  ghost predicate WindowAt<V>(m: Lane<V>, x: seq<V>, i: int)
    requires IsLane(m) && |x| > 0
  {
    && m.r[W(i - 2)] == At(x, i - 2) && m.r[W(i - 1)] == At(x, i - 1)
    && m.r[W(i)] == At(x, i) && m.r[W(i + 1)] == At(x, i + 1)
  }

  lemma AtSelf<V>(x: seq<V>, i: nat)
    requires i < |x|
    ensures At(x, i) == x[i]
  {
  }

  /** Two SUBs and an FMA over four window registers. */
  lemma RhsRegisters<V>(alu: Alu<V>, bank: seq<V>, f: nat, p: nat, q: nat, b: nat, c: nat, m: Lane<V>)
    requires IsLane(m) && f < |bank| && 3 <= p < 7 && 3 <= q < 7 && 3 <= b < 7 && 3 <= c < 7
    ensures var code := [Sub(T0, Reg(p), Reg(q)), Sub(T1, Con(f), Reg(c)), Fma(K, Reg(T0), Reg(b), Reg(T1))];
            && Loads(code, |bank|, |m.s|)
            && var m' := Exec(alu, bank, code, m);
               SameWindow(m, m') && m'.s == m.s
               && m'.r[K] == alu.fma(alu.sub(m.r[p], m.r[q]), m.r[b], alu.sub(bank[f], m.r[c]))
  {
    Exec3(alu, bank, Sub(T0, Reg(p), Reg(q)), Sub(T1, Con(f), Reg(c)), Fma(K, Reg(T0), Reg(b), Reg(T1)), m);
  }

  lemma RhsRuns<V>(alu: Alu<V>, bank: seq<V>, v: Variant, x: seq<V>, i: nat, m: Lane<V>)
    requires IsLane(m) && |bank| == BankSize(v) && i < |x| && WindowAt(m, x, i)
    ensures Loads(RhsCode(v, i), |bank|, |m.s|)
    ensures var m' := Exec(alu, bank, RhsCode(v, i), m);
            SameWindow(m, m') && m'.s == m.s && m'.r[K] == Rhs(alu, bank[Forcing(v)], v, x, i)
  {
    RhsRegisters(alu, bank, Forcing(v), W(i + 1), W(i - 2), if v == Index then W(i + 1) else W(i - 1), W(i), m);
    AtSelf(x, i);
  }

  lemma Wrap(N: nat, i: nat)
    requires i + 2 <= N
    ensures (i + 2) % N == if i + 2 < N then i + 2 else 0
  {
  }

  /** The next load slides the window on by one. */
  lemma NextLoadRuns<V>(alu: Alu<V>, bank: seq<V>, N: nat, s: int, x: seq<V>, i: nat, m: Lane<V>)
    requires IsLane(m) && |m.s| >= 5 * N && i < N == |x| && N >= 2 && WindowAt(m, x, i)
    requires m.s[In(N, s)..In(N, s) + N] == x
    ensures Loads(NextLoad(N, s, i), |bank|, |m.s|)
    ensures var m' := Exec(alu, bank, NextLoad(N, s, i), m);
            m'.s == m.s && (i + 1 < N ==> WindowAt(m', x, i + 1))
  {
    hide Exec, W, In;
    if i + 2 <= N {
      Wrap(N, i);
      NextIsAt(N, s, x, i, m.s);
      LoadSlides(alu, bank, x, i, In(N, s) + (i + 2) % N, m);
    } else {
      EmptyRuns(alu, bank, m);
    }
  }

  lemma EmptyRuns<V>(alu: Alu<V>, bank: seq<V>, m: Lane<V>)
    requires IsLane(m)
    ensures Loads([], |bank|, |m.s|) && Exec(alu, bank, [], m) == m
  {
  }

  /** Where the next load reads. */
  lemma NextIsAt<V>(N: nat, s: int, x: seq<V>, i: nat, scratch: seq<V>)
    requires |scratch| >= 5 * N && i + 2 <= N == |x| && N >= 2 && scratch[In(N, s)..In(N, s) + N] == x
    ensures var slot := In(N, s) + (i + 2) % N;
            slot < |scratch| && scratch[slot] == At(x, i + 2)
  {
    var k := (i + 2) % N;
    assert 0 <= k < N by { Wrap(N, i); }
    assert scratch[In(N, s) + k] == scratch[In(N, s)..In(N, s) + N][k];
  }

  lemma LoadSlides<V>(alu: Alu<V>, bank: seq<V>, x: seq<V>, i: nat, slot: nat, m: Lane<V>)
    requires IsLane(m) && |x| > 0 && WindowAt(m, x, i) && slot < |m.s| && m.s[slot] == At(x, i + 2)
    ensures Loads([Ldl(W(i + 2), slot)], |bank|, |m.s|)
    ensures var m' := Exec(alu, bank, [Ldl(W(i + 2), slot)], m);
            m'.s == m.s && WindowAt(m', x, i + 1)
  {
    hide At, Exec;
    var l := Ldl(W(i + 2), slot);
    assert Fits(l, |bank|, |m.s|);
    assert [l] + [] == [l];
    EmptyRuns(alu, bank, Step(alu, bank, l, m));
    ExecCons(alu, bank, l, [], m);
  }

  function InVector<V>(s: int, vs: Vectors<V>): seq<V> {
    if s == 1 then vs.y else if s == 3 then vs.ta else vs.tb
  }

  predicate Sized<V>(N: nat, v: Variant, vs: Vectors<V>) {
    N == |vs.y| == |vs.ta| == |vs.tb| == |vs.k1| == |vs.acc| && (v == Rk38 ==> |vs.tc| == N)
  }

  lemma EffectKeepsInput<V>(alu: Alu<V>, bank: seq<V>, N: nat, s: int, v: Variant, i: nat, k: V, x: V, vs: Vectors<V>)
    requires |bank| == BankSize(v) && Sized(N, v, vs) && i < N && 1 <= s <= 4
    ensures var vs' := Effect(alu, bank, s, v, i, k, x, vs);
            Sized(N, v, vs') && InVector(s, vs') == InVector(s, vs)
  {
  }

  lemma InVectorIsIn<V>(s: int, m: seq<V>, N: nat)
    requires |m| >= 5 * N && 1 <= s <= 4
    ensures InVector(s, View(m, N)) == m[In(N, s)..In(N, s) + N]
  {
  }

  lemma SameWindowAt<V>(m: Lane<V>, m': Lane<V>, x: seq<V>, i: int)
    requires IsLane(m) && IsLane(m') && |x| > 0 && SameWindow(m, m') && WindowAt(m, x, i)
    ensures WindowAt(m', x, i)
  {
  }

  /** Component i but for its next load. */
  lemma ComponentWrites<V>(alu: Alu<V>, bank: seq<V>, N: nat, s: int, v: Variant, i: nat, x: seq<V>, m: Lane<V>)
    requires Ready(N, v, bank, m) && i < N == |x| && 1 <= s <= 4 && WindowAt(m, x, i)
    ensures Loads(RhsCode(v, i) + ShareCode(N, s, v, i), |bank|, |m.s|)
    ensures var m' := Exec(alu, bank, RhsCode(v, i) + ShareCode(N, s, v, i), m);
            && View(m'.s, N) == Effect(alu, bank, s, v, i, Rhs(alu, bank[Forcing(v)], v, x, i), x[i], View(m.s, N))
            && WindowAt(m', x, i)
  {
    RhsRuns(alu, bank, v, x, i, m);
    var m1 := Exec(alu, bank, RhsCode(v, i), m);
    SameWindowAt(m, m1, x, i);
    ShareRuns(alu, bank, N, s, v, i, m1);
    SameWindowAt(m1, Exec(alu, bank, ShareCode(N, s, v, i), m1), x, i);
    ExecConcat(alu, bank, RhsCode(v, i), ShareCode(N, s, v, i), m);
    AtSelf(x, i);
    WroteIsEffect(alu, bank, N, s, v, i, m1.r[K], x[i], m.s);
  }

  lemma ComponentRuns<V>(alu: Alu<V>, bank: seq<V>, N: nat, s: int, v: Variant, i: nat, x: seq<V>, m: Lane<V>)
    requires Ready(N, v, bank, m) && i < N && 1 <= s <= 4
    requires InVector(s, View(m.s, N)) == x && WindowAt(m, x, i)
    ensures Loads(Component(N, s, v, i), |bank|, |m.s|)
    ensures var m' := Exec(alu, bank, Component(N, s, v, i), m);
            && View(m'.s, N) == Effect(alu, bank, s, v, i, Rhs(alu, bank[Forcing(v)], v, x, i), x[i], View(m.s, N))
            && (i + 1 < N ==> WindowAt(m', x, i + 1))
  {
    ComponentWrites(alu, bank, N, s, v, i, x, m);
    var code := RhsCode(v, i) + ShareCode(N, s, v, i);
    var m2 := Exec(alu, bank, code, m);
    EffectKeepsInput(alu, bank, N, s, v, i, Rhs(alu, bank[Forcing(v)], v, x, i), x[i], View(m.s, N));
    InVectorIsIn(s, m2.s, N);
    NextLoadRuns(alu, bank, N, s, x, i, m2);
    ExecConcat(alu, bank, code, NextLoad(N, s, i), m);
  }

  /** The first n components of a stage on the stage vectors. */
  function Fold<V>(alu: Alu<V>, bank: seq<V>, N: nat, s: int, v: Variant, x: seq<V>, n: nat,
                   vs: Vectors<V>): (vs': Vectors<V>)
    requires |bank| == BankSize(v) && Sized(N, v, vs) && |x| == N && n <= N
    ensures Sized(N, v, vs')
  {
    if n == 0 then vs
    else Effect(alu, bank, s, v, n - 1, Rhs(alu, bank[Forcing(v)], v, x, n - 1), x[n - 1],
                Fold(alu, bank, N, s, v, x, n - 1, vs))
  }

  lemma {:induction false} FoldKeepsInput<V>(alu: Alu<V>, bank: seq<V>, N: nat, s: int, v: Variant, x: seq<V>,
                                             n: nat, vs: Vectors<V>)
    requires |bank| == BankSize(v) && Sized(N, v, vs) && |x| == N && n <= N && 1 <= s <= 4
    ensures InVector(s, Fold(alu, bank, N, s, v, x, n, vs)) == InVector(s, vs)
  {
    if n > 0 {
      FoldKeepsInput(alu, bank, N, s, v, x, n - 1, vs);
      EffectKeepsInput(alu, bank, N, s, v, n - 1, Rhs(alu, bank[Forcing(v)], v, x, n - 1), x[n - 1],
                       Fold(alu, bank, N, s, v, x, n - 1, vs));
    }
  }

  /** The state n components into a stage that began on vs. */
  ghost predicate Reached<V>(alu: Alu<V>, bank: seq<V>, N: nat, s: int, v: Variant, x: seq<V>, n: nat,
                             vs: Vectors<V>, m: Lane<V>) {
    && Ready(N, v, bank, m) && Sized(N, v, vs) && |x| == N && n <= N
    && View(m.s, N) == Fold(alu, bank, N, s, v, x, n, vs)
    && (n < N ==> WindowAt(m, x, n))
  }

  lemma ReachedNext<V>(alu: Alu<V>, bank: seq<V>, N: nat, s: int, v: Variant, x: seq<V>, n: nat, vs: Vectors<V>,
                       m: Lane<V>)
    requires Reached(alu, bank, N, s, v, x, n, vs, m) && n < N && 1 <= s <= 4 && InVector(s, vs) == x
    ensures Loads(Component(N, s, v, n), |bank|, |m.s|)
    ensures Reached(alu, bank, N, s, v, x, n + 1, vs, Exec(alu, bank, Component(N, s, v, n), m))
  {
    FoldKeepsInput(alu, bank, N, s, v, x, n, vs);
    ComponentRuns(alu, bank, N, s, v, n, x, m);
  }

  lemma ReachedNone<V>(alu: Alu<V>, bank: seq<V>, N: nat, s: int, v: Variant, x: seq<V>, m: Lane<V>)
    requires Ready(N, v, bank, m) && 1 <= s <= 4 && InVector(s, View(m.s, N)) == x && WindowAt(m, x, 0)
    ensures Reached(alu, bank, N, s, v, x, 0, View(m.s, N), m)
  {
    hide WindowAt;
  }

  lemma ReachedReady<V>(alu: Alu<V>, bank: seq<V>, N: nat, s: int, v: Variant, x: seq<V>, n: nat, vs: Vectors<V>,
                        m: Lane<V>)
    requires Reached(alu, bank, N, s, v, x, n, vs, m)
    ensures Ready(N, v, bank, m)
  {
  }

  lemma {:induction false} ComponentsRun<V>(alu: Alu<V>, bank: seq<V>, N: nat, s: int, v: Variant, x: seq<V>, n: nat,
                                            m: Lane<V>)
    requires Ready(N, v, bank, m) && n <= N && 1 <= s <= 4
    requires InVector(s, View(m.s, N)) == x && WindowAt(m, x, 0)
    ensures Loads(Components(N, s, v, n), |bank|, |m.s|)
    ensures Reached(alu, bank, N, s, v, x, n, View(m.s, N), Exec(alu, bank, Components(N, s, v, n), m))
  {
    hide Reached, WindowAt, InVector, Component, View, BankSize;
    if n == 0 {
      ReachedNone(alu, bank, N, s, v, x, m);
    } else {
      ComponentsRun(alu, bank, N, s, v, x, n - 1, m);
      ReachedReady(alu, bank, N, s, v, x, n - 1, View(m.s, N), Exec(alu, bank, Components(N, s, v, n - 1), m));
      ReachedNext(alu, bank, N, s, v, x, n - 1, View(m.s, N), Exec(alu, bank, Components(N, s, v, n - 1), m));
      ExecConcat(alu, bank, Components(N, s, v, n - 1), Component(N, s, v, n - 1), m);
    }
  }

  lemma FourLoads<V>(alu: Alu<V>, bank: seq<V>, a: nat, b: nat, c: nat, d: nat, m: Lane<V>)
    requires IsLane(m) && a < |m.s| && b < |m.s| && c < |m.s| && d < |m.s|
    ensures var code := [Ldl(5, a), Ldl(6, b)] + [Ldl(3, c), Ldl(4, d)];
            && Loads(code, |bank|, |m.s|)
            && var m' := Exec(alu, bank, code, m);
               m'.s == m.s && m'.r[5] == m.s[a] && m'.r[6] == m.s[b] && m'.r[3] == m.s[c] && m'.r[4] == m.s[d]
  {
    Exec2(alu, bank, Ldl(5, a), Ldl(6, b), m);
    Exec2(alu, bank, Ldl(3, c), Ldl(4, d), Exec(alu, bank, [Ldl(5, a), Ldl(6, b)], m));
    ExecConcat(alu, bank, [Ldl(5, a), Ldl(6, b)], [Ldl(3, c), Ldl(4, d)], m);
  }

  lemma WindowLoadsRun<V>(alu: Alu<V>, bank: seq<V>, N: nat, s: int, x: seq<V>, m: Lane<V>)
    requires IsLane(m) && |m.s| >= 5 * N && N >= 2 && 1 <= s <= 4 && InVector(s, View(m.s, N)) == x
    ensures Loads(WindowLoads(N, s), |bank|, |m.s|)
    ensures var m' := Exec(alu, bank, WindowLoads(N, s), m);
            m'.s == m.s && WindowAt(m', x, 0)
  {
    hide View, InVector, Exec, At, WindowAt;
    var b := In(N, s);
    InVectorIsIn(s, m.s, N);
    assert W(-2) == 5 && W(-1) == 6 && W(0) == 3 && W(1) == 4;
    FourLoads(alu, bank, b + N - 2, b + N - 1, b + 0, b + 1, m);
    WindowStarts(N, x, Exec(alu, bank, WindowLoads(N, s), m));
  }

  lemma WindowStarts<V>(N: nat, x: seq<V>, m: Lane<V>)
    requires N >= 2 && |x| == N && IsLane(m)
    requires m.r[5] == x[N - 2] && m.r[6] == x[N - 1] && m.r[3] == x[0] && m.r[4] == x[1]
    ensures WindowAt(m, x, 0)
  {
    WrapEnds(N);
    assert W(-2) == 5 && W(-1) == 6 && W(0) == 3 && W(1) == 4;
  }

  lemma WrapEnds(N: nat)
    requires N >= 2
    ensures -2 % N == N - 2 && -1 % N == N - 1 && 0 % N == 0 && 1 % N == 1
  {
    assert -2 == -1 * N + (N - 2);
    assert -1 == -1 * N + (N - 1);
  }

  // ---- a whole stage, on whole vectors --------------------------------------

  /** The first n entries of a, the rest of b. */
  function Upto<V>(n: nat, a: seq<V>, b: seq<V>): (r: seq<V>)
    requires |a| == |b| && n <= |a|
    ensures |r| == |a|
  {
    a[..n] + b[n..]
  }

  function Blend<V>(n: nat, a: Vectors<V>, b: Vectors<V>): Vectors<V>
    requires |a.y| == |b.y| && |a.ta| == |b.ta| && |a.tb| == |b.tb| && |a.k1| == |b.k1| && |a.acc| == |b.acc|
    requires n <= |a.y| == |a.ta| == |a.tb| == |a.k1| == |a.acc|
    requires |a.tc| == |b.tc| && (n <= |a.tc| || a.tc == b.tc)
  {
    Vectors(Upto(n, a.y, b.y), Upto(n, a.ta, b.ta), Upto(n, a.tb, b.tb), Upto(n, a.k1, b.k1), Upto(n, a.acc, b.acc),
            if n <= |a.tc| then Upto(n, a.tc, b.tc) else b.tc)
  }

  /** What stage s makes of the stage vectors, k being the field at its input x. */
  function StageOut<V>(alu: Alu<V>, bank: seq<V>, N: nat, s: int, v: Variant, x: seq<V>,
                       vs: Vectors<V>): (vs': Vectors<V>)
    requires |bank| == BankSize(v) && Sized(N, v, vs) && |x| == N
    ensures Sized(N, v, vs') && |vs'.tc| == |vs.tc|
  {
    var k := Field(alu, bank[Forcing(v)], v, x);
    if s == 1 then vs.(k1 := k, tb := Axpy(alu, bank[1], k, x))
    else if v == Rk38 then
      if s == 2 then vs.(ta := Axpy(alu, bank[0], k, Axpy(alu, bank[2], vs.k1, vs.y)),
                         tc := Axpy(alu, bank[3], k, Axpy(alu, bank[0], vs.k1, vs.y)),
                         acc := Axpy(alu, bank[5], k, vs.k1))
      else if s == 3 then vs.(tb := Axpy(alu, bank[0], k, vs.tc), acc := Axpy(alu, bank[5], k, vs.acc))
      else vs.(y := Axpy(alu, bank[4], Plus(alu, vs.acc, k), vs.y))
    else if s == 2 then vs.(ta := Axpy(alu, bank[1], k, vs.y), acc := Axpy(alu, bank[3], k, vs.k1))
    else if s == 3 then vs.(tb := Axpy(alu, bank[if v == Stage4Half then 1 else 0], k, vs.y),
                            acc := Axpy(alu, bank[3], k, vs.acc))
    else vs.(y := Axpy(alu, bank[2], Plus(alu, vs.acc, k), vs.y))
  }

  lemma UptoNext<V>(n: nat, a: seq<V>, b: seq<V>)
    requires |a| == |b| && n < |a|
    ensures Upto(n, a, b)[n] == b[n] && Upto(n, a, b)[n := a[n]] == Upto(n + 1, a, b)
  {
  }

  lemma BlendSame<V>(n: nat, a: Vectors<V>, b: Vectors<V>)
    requires |a.y| == |b.y| && |a.ta| == |b.ta| && |a.tb| == |b.tb| && |a.k1| == |b.k1| && |a.acc| == |b.acc|
    requires n <= |a.y| == |a.ta| == |a.tb| == |a.k1| == |a.acc|
    requires |a.tc| == |b.tc| && (n <= |a.tc| || a.tc == b.tc)
    ensures var c := Blend(n, a, b);
            && (a.y == b.y ==> c.y == b.y) && (a.ta == b.ta ==> c.ta == b.ta) && (a.tb == b.tb ==> c.tb == b.tb)
            && (a.k1 == b.k1 ==> c.k1 == b.k1) && (a.acc == b.acc ==> c.acc == b.acc) && (a.tc == b.tc ==> c.tc == b.tc)
  {
  }

  /** One more component takes the blend one entry further. */
  lemma BlendNext<V>(alu: Alu<V>, bank: seq<V>, N: nat, s: int, v: Variant, x: seq<V>, n: nat, vs: Vectors<V>)
    requires |bank| == BankSize(v) && Sized(N, v, vs) && |x| == N && n < N && 1 <= s <= 4
    ensures var out := StageOut(alu, bank, N, s, v, x, vs);
            && Sized(N, v, Blend(n, out, vs))
            && Effect(alu, bank, s, v, n, Rhs(alu, bank[Forcing(v)], v, x, n), x[n], Blend(n, out, vs))
            == Blend(n + 1, out, vs)
  {
    hide Rhs, At, Upto;
    var out := StageOut(alu, bank, N, s, v, x, vs);
    BlendSame(n, out, vs);
    BlendSame(n + 1, out, vs);
    if s == 1 {
      UptoNext(n, out.k1, vs.k1); UptoNext(n, out.tb, vs.tb);
    } else if s == 2 {
      UptoNext(n, out.ta, vs.ta); UptoNext(n, out.acc, vs.acc);
      if v == Rk38 { UptoNext(n, out.tc, vs.tc); }
    } else if s == 3 {
      UptoNext(n, out.tb, vs.tb); UptoNext(n, out.acc, vs.acc);
    } else {
      UptoNext(n, out.y, vs.y);
    }
  }

  lemma {:induction false} FoldIsBlend<V>(alu: Alu<V>, bank: seq<V>, N: nat, s: int, v: Variant, x: seq<V>, n: nat,
                                          vs: Vectors<V>)
    requires |bank| == BankSize(v) && Sized(N, v, vs) && |x| == N && n <= N && 1 <= s <= 4
    ensures Fold(alu, bank, N, s, v, x, n, vs) == Blend(n, StageOut(alu, bank, N, s, v, x, vs), vs)
  {
    if n > 0 {
      FoldIsBlend(alu, bank, N, s, v, x, n - 1, vs);
      BlendNext(alu, bank, N, s, v, x, n - 1, vs);
    }
  }

  lemma StageRuns<V>(alu: Alu<V>, bank: seq<V>, N: nat, s: int, v: Variant, m: Lane<V>)
    requires Ready(N, v, bank, m) && 1 <= s <= 4
    ensures Loads(StageCode(N, s, v), |bank|, |m.s|)
    ensures var m' := Exec(alu, bank, StageCode(N, s, v), m);
            var vs := View(m.s, N);
            View(m'.s, N) == StageOut(alu, bank, N, s, v, InVector(s, vs), vs)
  {
    var vs := View(m.s, N);
    var x := InVector(s, vs);
    WindowLoadsRun(alu, bank, N, s, x, m);
    var m1 := Exec(alu, bank, WindowLoads(N, s), m);
    ComponentsRun(alu, bank, N, s, v, x, N, m1);
    ExecConcat(alu, bank, WindowLoads(N, s), Components(N, s, v, N), m);
    FoldIsBlend(alu, bank, N, s, v, x, N, vs);
    BlendAll(N, StageOut(alu, bank, N, s, v, x, vs), vs);
  }

  lemma BlendAll<V>(N: nat, a: Vectors<V>, b: Vectors<V>)
    requires |a.y| == |b.y| && |a.ta| == |b.ta| && |a.tb| == |b.tb| && |a.k1| == |b.k1| && |a.acc| == |b.acc|
    requires N == |a.y| == |a.ta| == |a.tb| == |a.k1| == |a.acc|
    requires |a.tc| == |b.tc| && (N == |a.tc| || a.tc == b.tc)
    ensures Blend(N, a, b) == a
  {
  }

  // ---- the loop body and the whole segment ----------------------------------

  lemma StagesRun2<V>(alu: Alu<V>, bank: seq<V>, N: nat, v: Variant, n: nat, m: Lane<V>)
    requires Ready(N, v, bank, m) && 1 <= n <= 4 && Loads(Stages(N, v, n - 1), |bank|, |m.s|)
    ensures Loads(Stages(N, v, n), |bank|, |m.s|)
    ensures var m1 := Exec(alu, bank, Stages(N, v, n - 1), m);
            var vs := View(m1.s, N);
            View(Exec(alu, bank, Stages(N, v, n), m).s, N) == StageOut(alu, bank, N, n, v, InVector(n, vs), vs)
  {
    StageRuns(alu, bank, N, n, v, Exec(alu, bank, Stages(N, v, n - 1), m));
    ExecConcat(alu, bank, Stages(N, v, n - 1), StageCode(N, n, v), m);
  }

  /** Meaning preservation: for every ring size, bank, registers, scratch and ALU, one
      pass of the emitted body leaves the mathematical step in slots 0..N-1. */
  lemma BodyIsStep<V>(alu: Alu<V>, bank: seq<V>, N: nat, v: Variant, m: Lane<V>)
    requires Ready(N, v, bank, m)
    ensures Loads(Body(N, v), |bank|, |m.s|)
    ensures Exec(alu, bank, Body(N, v), m).s[..N] == StepOf(alu, bank, v, m.s[..N])
  {
    hide Exec, Stages, StageOut, StepOf, View;
    NoStages(alu, bank, N, v, m);
    StagesRun2(alu, bank, N, v, 1, m);
    StagesRun2(alu, bank, N, v, 2, m);
    StagesRun2(alu, bank, N, v, 3, m);
    StagesRun2(alu, bank, N, v, 4, m);
    FourStages(alu, bank, N, v, View(m.s, N));
    ViewHasY(m.s, N);
    ViewHasY(Exec(alu, bank, Body(N, v), m).s, N);
  }

  lemma NoStages<V>(alu: Alu<V>, bank: seq<V>, N: nat, v: Variant, m: Lane<V>)
    requires N >= 2 && IsLane(m)
    ensures Loads(Stages(N, v, 0), |bank|, |m.s|) && Exec(alu, bank, Stages(N, v, 0), m) == m
  {
  }

  lemma ViewHasY<V>(s: seq<V>, N: nat)
    requires |s| >= 5 * N
    ensures View(s, N).y == s[..N]
  {
  }

  /** The four stage effects compose to the step. */
  lemma FourStages<V>(alu: Alu<V>, bank: seq<V>, N: nat, v: Variant, vs: Vectors<V>)
    requires |bank| == BankSize(v) && Sized(N, v, vs)
    ensures var v1 := StageOut(alu, bank, N, 1, v, InVector(1, vs), vs);
            var v2 := StageOut(alu, bank, N, 2, v, InVector(2, v1), v1);
            var v3 := StageOut(alu, bank, N, 3, v, InVector(3, v2), v2);
            StageOut(alu, bank, N, 4, v, InVector(4, v3), v3).y == StepOf(alu, bank, v, vs.y)
  {
    hide Field, Axpy, Plus;
  }

  function Steps<V>(alu: Alu<V>, bank: seq<V>, v: Variant, n: nat, y: seq<V>): (y': seq<V>)
    requires |bank| == BankSize(v)
    ensures |y'| == |y|
  {
    if n == 0 then y else StepOf(alu, bank, v, Steps(alu, bank, v, n - 1, y))
  }

  lemma {:induction false} StepsAdd<V>(alu: Alu<V>, bank: seq<V>, v: Variant, a: nat, b: nat, y: seq<V>)
    requires |bank| == BankSize(v)
    ensures Steps(alu, bank, v, a + b, y) == Steps(alu, bank, v, b, Steps(alu, bank, v, a, y))
  {
    hide StepOf;
    if b > 0 { StepsAdd(alu, bank, v, a, b - 1, y); }
  }

  lemma {:induction false} LoopIsSteps<V>(alu: Alu<V>, bank: seq<V>, N: nat, v: Variant, n: nat, m: Lane<V>)
    requires Ready(N, v, bank, m)
    ensures Loads(Body(N, v), |bank|, |m.s|)
    ensures Loop(alu, bank, Body(N, v), n, m).s[..N] == Steps(alu, bank, v, n, m.s[..N])
  {
    hide StepOf, Body;
    BodyIsStep(alu, bank, N, v, m);
    if n > 0 {
      LoopIsSteps(alu, bank, N, v, n - 1, m);
      BodyIsStep(alu, bank, N, v, Loop(alu, bank, Body(N, v), n - 1, m));
    }
  }

  /** The image, run for any number of trips. */
  lemma ProgramIsSteps<V>(alu: Alu<V>, bank: seq<V>, N: nat, v: Variant, n: nat, m: Lane<V>)
    requires Ready(N, v, bank, m)
    ensures ProgramLoads(L96Program(N, v, n), |bank|, |m.s|)
    ensures RunProgram(alu, bank, L96Program(N, v, n), m).s[..N] == Steps(alu, bank, v, n, m.s[..N])
  {
    LoopIsSteps(alu, bank, N, v, n, m);
  }

  /** Segment chaining: a trips, then b trips from any lane that carries only the first
      segment's slots 0..N-1, leave what a + b trips leave. */
  lemma SegmentsChain<V>(alu: Alu<V>, bank: seq<V>, N: nat, v: Variant, a: nat, b: nat, m: Lane<V>, fresh': Lane<V>)
    requires Ready(N, v, bank, m) && Ready(N, v, bank, fresh')
    requires ProgramLoads(L96Program(N, v, a), |bank|, |m.s|)
    requires fresh'.s[..N] == RunProgram(alu, bank, L96Program(N, v, a), m).s[..N]
    ensures ProgramLoads(L96Program(N, v, b), |bank|, |fresh'.s|)
    ensures ProgramLoads(L96Program(N, v, a + b), |bank|, |m.s|)
    ensures RunProgram(alu, bank, L96Program(N, v, b), fresh').s[..N]
         == RunProgram(alu, bank, L96Program(N, v, a + b), m).s[..N]
  {
    hide Steps, RunProgram;
    ProgramIsSteps(alu, bank, N, v, a, m);
    ProgramIsSteps(alu, bank, N, v, b, fresh');
    ProgramIsSteps(alu, bank, N, v, a + b, m);
    StepsAdd(alu, bank, v, a, b, m.s[..N]);
  }

  // ---- what a step costs ----------------------------------------------------

  predicate IsScratch(i: Instr) { i.Ldl? || i.Stl? }

  function Scratches(p: seq<Instr>): nat {
    if p == [] then 0 else (if IsScratch(p[0]) then 1 else 0) + Scratches(p[1..])
  }

  lemma {:induction false} ScratchesConcat(p: seq<Instr>, q: seq<Instr>)
    ensures Scratches(p + q) == Scratches(p) + Scratches(q)
  {
    if p == [] {
      assert p + q == q;
    } else {
      assert (p + q)[1..] == p[1..] + q;
      ScratchesConcat(p[1..], q);
    }
  }

  /** A component's ALU operations and scratch accesses, its next load apart. */
  function ShareAlu(s: int, v: Variant): nat {
    if s == 1 then 1 else if v == Rk38 then (if s == 2 then 5 else 2) else 2
  }

  function ShareScratch(s: int, v: Variant): nat {
    if s == 1 then 2 else if v == Rk38 then (if s == 2 then 5 else if s == 3 then 4 else 3) else if s == 4 then 3 else 4
  }

  lemma ScratchesAt(p: seq<Instr>, k: nat)
    requires k < |p|
    ensures Scratches(p[k..]) == (if IsScratch(p[k]) then 1 else 0) + Scratches(p[k + 1..])
  {
    assert p[k..][1..] == p[k + 1..];
  }

  lemma ScratchesOf3(p: seq<Instr>)
    requires |p| == 3
    ensures Scratches(p) == (if IsScratch(p[0]) then 1 else 0) + (if IsScratch(p[1]) then 1 else 0)
            + (if IsScratch(p[2]) then 1 else 0)
  {
    assert p[0..] == p;
    ScratchesAt(p, 0); ScratchesAt(p, 1); ScratchesAt(p, 2);
  }

  lemma ScratchesOf5(p: seq<Instr>)
    requires |p| == 5 && !IsScratch(p[1]) && IsScratch(p[0]) && IsScratch(p[2]) && !IsScratch(p[3]) && IsScratch(p[4])
    ensures Scratches(p) == 3
  {
    assert p[0..] == p;
    ScratchesAt(p, 0); ScratchesAt(p, 1); ScratchesAt(p, 2); ScratchesAt(p, 3); ScratchesAt(p, 4);
  }

  lemma ShareCost(N: nat, s: int, v: Variant, i: nat)
    requires 1 <= s <= 4
    ensures Scratches(ShareCode(N, s, v, i)) == ShareScratch(s, v)
    ensures |ShareCode(N, s, v, i)| == ShareScratch(s, v) + ShareAlu(s, v)
  {
    hide Scratches;
    var p := ShareCode(N, s, v, i);
    if v == Rk38 && s == 2 {
      Share38Cost2(p);
    } else if s == 1 {
      ScratchesOf3(p);
    } else if s == 4 {
      ScratchesOf5(p);
    } else {
      ScratchesOf3(p[..3]);
      ScratchesOf3(p[3..]);
      assert p == p[..3] + p[3..];
      ScratchesConcat(p[..3], p[3..]);
    }
  }

  lemma Share38Cost2(p: seq<Instr>)
    requires |p| == 10 && IsScratch(p[0]) && IsScratch(p[1]) && !IsScratch(p[2]) && !IsScratch(p[3]) && IsScratch(p[4])
    requires !IsScratch(p[5]) && !IsScratch(p[6]) && IsScratch(p[7]) && !IsScratch(p[8]) && IsScratch(p[9])
    ensures Scratches(p) == 5
  {
    assert p[0..] == p;
    ScratchesAt(p, 0); ScratchesAt(p, 1); ScratchesAt(p, 2); ScratchesAt(p, 3); ScratchesAt(p, 4);
    ScratchesAt(p, 5); ScratchesAt(p, 6); ScratchesAt(p, 7); ScratchesAt(p, 8); ScratchesAt(p, 9);
  }

  lemma ComponentCost(N: nat, s: int, v: Variant, i: nat)
    requires 1 <= s <= 4 && i < N
    ensures var more := if i + 2 <= N then 1 else 0;
            && Scratches(Component(N, s, v, i)) == ShareScratch(s, v) + more
            && |Component(N, s, v, i)| == 3 + ShareAlu(s, v) + ShareScratch(s, v) + more
  {
    hide ShareCode;
    ShareCost(N, s, v, i);
    var r := RhsCode(v, i);
    ScratchesOf3(r);
    ScratchesConcat(r + ShareCode(N, s, v, i), NextLoad(N, s, i));
    ScratchesConcat(r, ShareCode(N, s, v, i));
  }

  lemma {:induction false} ComponentsCost(N: nat, s: int, v: Variant, n: nat)
    requires 1 <= s <= 4 && n <= N && N >= 2
    ensures var more := if n < N then n else N - 1;
            && Scratches(Components(N, s, v, n)) == n * ShareScratch(s, v) + more
            && |Components(N, s, v, n)| == n * (3 + ShareAlu(s, v) + ShareScratch(s, v)) + more
  {
    hide Component, Scratches;
    if n == 0 {
      ScratchesEmpty();
    } else {
      ComponentsCost(N, s, v, n - 1);
      ComponentCost(N, s, v, n - 1);
      ScratchesConcat(Components(N, s, v, n - 1), Component(N, s, v, n - 1));
    }
  }

  lemma ScratchesEmpty()
    ensures Scratches([]) == 0
  {
  }

  lemma StageCost(N: nat, s: int, v: Variant)
    requires 1 <= s <= 4 && N >= 2
    ensures Scratches(StageCode(N, s, v)) == N * ShareScratch(s, v) + N + 3
    ensures |StageCode(N, s, v)| == N * (3 + ShareAlu(s, v) + ShareScratch(s, v)) + N + 3
  {
    hide Components;
    ComponentsCost(N, s, v, N);
    var p := WindowLoads(N, s);
    assert p == p[..3] + p[3..] && p[3..] == [p[3]];
    ScratchesOf3(p[..3]);
    ScratchesConcat(p[..3], p[3..]);
    ScratchesConcat(p, Components(N, s, v, N));
  }

  /** What a step costs: the real program's body, 19 N ALU operations and 17 N + 12
      scratch accesses; the 3/8 rule's 22 N and 18 N + 12. */
  lemma BodyCost(N: nat, v: Variant)
    requires N >= 2
    ensures Scratches(Body(N, v)) == (if v == Rk38 then 18 else 17) * N + 12
    ensures |Body(N, v)| - Scratches(Body(N, v)) == (if v == Rk38 then 22 else 19) * N
  {
    hide StageCode, Scratches, Stages;
    NoStagesCost(N, v);
    StagesCost(N, v, 1);
    StagesCost(N, v, 2);
    StagesCost(N, v, 3);
    StagesCost(N, v, 4);
  }

  lemma NoStagesCost(N: nat, v: Variant)
    requires N >= 2
    ensures Scratches(Stages(N, v, 0)) == 0 && Stages(N, v, 0) == []
  {
    ScratchesEmpty();
  }

  lemma StagesCost(N: nat, v: Variant, s: nat)
    requires N >= 2 && 1 <= s <= 4
    ensures Scratches(Stages(N, v, s)) == Scratches(Stages(N, v, s - 1)) + N * ShareScratch(s, v) + N + 3
    ensures |Stages(N, v, s)| == |Stages(N, v, s - 1)| + N * (3 + ShareAlu(s, v) + ShareScratch(s, v)) + N + 3
  {
    hide StageCode, Scratches;
    StageCost(N, s, v);
    ScratchesConcat(Stages(N, v, s - 1), StageCode(N, s, v));
  }

  // ---- the emitter ----------------------------------------------------------

  /** Component i's share under the 3/8 rule. */
  method EmitShare38(S: Src, N: nat, s: int, i: nat)
    modifies S
    ensures S.lines == old(S.lines) + Ops(Share38(N, s, i))
  {
    if s == 1 {
      S.Code([Stl(K, 3 * N + i), Fma(T0, Con(1), Reg(K), Reg(W(i))), Stl(T0, 2 * N + i)]);
    } else if s == 2 {
      S.Code([Ldl(Y, i), Ldl(A, 3 * N + i),
              Fma(T0, Con(2), Reg(A), Reg(Y)), Fma(T0, Con(0), Reg(K), Reg(T0)), Stl(T0, N + i),
              Fma(T1, Con(0), Reg(A), Reg(Y)), Fma(T1, Con(3), Reg(K), Reg(T1)), Stl(T1, 5 * N + i),
              Fma(A, Con(5), Reg(K), Reg(A)), Stl(A, 4 * N + i)]);
    } else if s == 3 {
      S.Code([Ldl(T0, 5 * N + i), Fma(T0, Con(0), Reg(K), Reg(T0)), Stl(T0, 2 * N + i),
              Ldl(A, 4 * N + i), Fma(A, Con(5), Reg(K), Reg(A)), Stl(A, 4 * N + i)]);
    } else {
      S.Code([Ldl(A, 4 * N + i), Add(A, Reg(A), Reg(K)),
              Ldl(Y, i), Fma(Y, Con(4), Reg(A), Reg(Y)), Stl(Y, i)]);
    }
  }

  method EmitShare(S: Src, N: nat, s: int, v: Variant, i: nat)
    modifies S
    ensures S.lines == old(S.lines) + Ops(Share(N, s, v, i))
  {
    if s == 1 {
      S.Code([Stl(K, 3 * N + i), Fma(T0, Con(1), Reg(K), Reg(W(i))), Stl(T0, 2 * N + i)]);
    } else if s == 2 {
      S.Code([Ldl(Y, i), Fma(T0, Con(1), Reg(K), Reg(Y)), Stl(T0, N + i),
              Ldl(A, 3 * N + i), Fma(A, Con(3), Reg(K), Reg(A)), Stl(A, 4 * N + i)]);
    } else if s == 3 {
      S.Code([Ldl(Y, i), Fma(T0, Con(if v == Stage4Half then 1 else 0), Reg(K), Reg(Y)), Stl(T0, 2 * N + i),
              Ldl(A, 4 * N + i), Fma(A, Con(3), Reg(K), Reg(A)), Stl(A, 4 * N + i)]);
    } else {
      S.Code([Ldl(A, 4 * N + i), Add(A, Reg(A), Reg(K)),
              Ldl(Y, i), Fma(Y, Con(2), Reg(A), Reg(Y)), Stl(Y, i)]);
    }
  }

  method EmitRhs(S: Src, v: Variant, i: nat)
    modifies S
    ensures S.lines == old(S.lines) + Ops(RhsCode(v, i))
  {
    S.Code([Sub(T0, Reg(W(i + 1)), Reg(W(i - 2))), Sub(T1, Con(Forcing(v)), Reg(W(i))),
            Fma(K, Reg(T0), Reg(if v == Index then W(i + 1) else W(i - 1)), Reg(T1))]);
  }

  method EmitComponent(S: Src, N: nat, s: int, v: Variant, i: nat)
    requires N >= 2
    modifies S
    ensures S.lines == old(S.lines) + Ops(Component(N, s, v, i))
  {
    hide Share, Share38, RhsCode, W, In, Ops;
    EmitRhs(S, v, i);
    if v == Rk38 {
      EmitShare38(S, N, s, i);
    } else {
      EmitShare(S, N, s, v, i);
    }
    OpsConcat(RhsCode(v, i), ShareCode(N, s, v, i));
    if i + 2 <= N {
      S.Code([Ldl(W(i + 2), In(N, s) + (i + 2) % N)]);
    }
    OpsConcat(RhsCode(v, i) + ShareCode(N, s, v, i), NextLoad(N, s, i));
  }

  method EmitStage(S: Src, N: nat, s: int, v: Variant)
    requires N >= 2
    modifies S
    ensures S.lines == old(S.lines) + Ops(StageCode(N, s, v))
  {
    hide Component, Ops, In;
    var IN := In(N, s);
    S.Code([Ldl(W(-2), IN + N - 2), Ldl(W(-1), IN + N - 1), Ldl(W(0), IN + 0), Ldl(W(1), IN + 1)]);
    for i := 0 to N
      invariant S.lines == old(S.lines) + Ops(WindowLoads(N, s) + Components(N, s, v, i))
    {
      EmitComponent(S, N, s, v, i);
      OpsConcat(WindowLoads(N, s) + Components(N, s, v, i), Component(N, s, v, i));
      assert WindowLoads(N, s) + Components(N, s, v, i) + Component(N, s, v, i)
          == WindowLoads(N, s) + Components(N, s, v, i + 1);
    }
  }

  /** The whole generator: `repeat`, four stages of N components each, `endrep`, `halt`. */
  method Emit(N: nat, v: Variant, trips: nat) returns (lines: seq<Line>)
    requires N >= 2
    ensures lines == Listing(L96Program(N, v, trips))
  {
    hide StageCode;
    var S := new Src();
    S.Control(Repeat(trips));
    for s := 1 to 5
      invariant S.lines == [Repeat(trips)] + Ops(Stages(N, v, s - 1))
    {
      EmitStage(S, N, s, v);
      OpsConcat(Stages(N, v, s - 1), StageCode(N, s, v));
    }
    S.Control(Endrep);
    S.Control(Halt);
    lines := S.lines;
  }
}
