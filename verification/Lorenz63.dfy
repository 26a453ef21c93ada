/** programs/gen_odes.py's `lorenz63`: the emitter and what its image computes.  The body
    is written in three-register steps, so the proof reads it as moves between six
    triples of registers. */
module Lorenz63 {
  import opened Sequencer
  import opened StageVectors
  import opened Emitter

  datatype Variant = Real | Zsign | Stage4Half | Rk38

  // The six triples: the state, a stage's input, k1, k2..k4 in turn, the weighted sum
  // and, under rk38, Y + h k1 - h k2.
  const X := 0
  const P := 1
  const KA := 2
  const KB := 3
  const C := 4
  const D := 5

  /** A triple's first register: 3, 6, 9, 12, 15 and 20; t0 and t1 are 18 and 19. */
  function Base(t: nat): nat { if t == 5 then 20 else 3 + 3 * t }

  // The bank in declaration order: H H2 H6 TWO SIGMA RHO BETA, or under rk38
  // H H3 MH3 MH H8 THREE SIGMA RHO BETA.
  function BankSize(v: Variant): nat { if v == Rk38 then 9 else 7 }
  function Sigma(v: Variant): nat { if v == Rk38 then 6 else 4 }

  // ---- the code -------------------------------------------------------------

  /** The right-hand side: eight operations.  The `zsign` mutant adds beta z. */
  function RhsCode(v: Variant, i: nat, o: nat): seq<Instr> {
    [Sub(18, Reg(i + 1), Reg(i)), Mul(o, Con(Sigma(v)), Reg(18)), Sub(18, Con(Sigma(v) + 1), Reg(i + 2))]
    + [Neg(19, Reg(i + 1)), Fma(o + 1, Reg(i), Reg(18), Reg(19)), Mul(18, Con(Sigma(v) + 2), Reg(i + 2))]
    + [Neg(19, Reg(18)), Fma(o + 2, Reg(i), Reg(i + 1), Reg(if v == Zsign then 18 else 19))]
  }

  datatype Move =
    | F(input: nat, output: nat)
    | Fma3(d: nat, k: nat, b: nat, c: nat)
    | Add3(d: nat, b: nat)

  function MoveCode(v: Variant, mv: Move): seq<Instr> {
    match mv
    case F(i, o) => RhsCode(v, Base(i), Base(o))
    case Fma3(d, k, b, c) =>
      [Fma(Base(d), Con(k), Reg(Base(b)), Reg(Base(c))),
       Fma(Base(d) + 1, Con(k), Reg(Base(b) + 1), Reg(Base(c) + 1)),
       Fma(Base(d) + 2, Con(k), Reg(Base(b) + 2), Reg(Base(c) + 2))]
    case Add3(d, b) =>
      [Add(Base(d), Reg(Base(d)), Reg(Base(b))),
       Add(Base(d) + 1, Reg(Base(d) + 1), Reg(Base(b) + 1)),
       Add(Base(d) + 2, Reg(Base(d) + 2), Reg(Base(b) + 2))]
  }

  /** The code of the first n moves. */
  function MovesCode(v: Variant, ms: seq<Move>, n: nat): seq<Instr>
    requires n <= |ms|
  {
    if n == 0 then [] else MovesCode(v, ms, n - 1) + MoveCode(v, ms[n - 1])
  }

  function Moves(v: Variant): seq<Move> {
    if v == Rk38 then
      [F(X, KA), Fma3(P, 1, KA, X),
       F(P, KB), Fma3(C, 5, KB, KA), Fma3(D, 0, KA, X), Fma3(D, 3, KB, D), Fma3(P, 2, KA, X), Fma3(P, 0, KB, P),
       F(P, KB), Fma3(C, 5, KB, C), Fma3(P, 0, KB, D),
       F(P, KB), Add3(C, KB), Fma3(X, 4, C, X)]
    else
      [F(X, KA), Fma3(P, 1, KA, X),
       F(P, KB), Fma3(C, 3, KB, KA), Fma3(P, 1, KB, X),
       F(P, KB), Fma3(C, 3, KB, C), Fma3(P, if v == Stage4Half then 1 else 0, KB, X),
       F(P, KB), Add3(C, KB), Fma3(X, 2, C, X)]
  }

  function Body(v: Variant): seq<Instr> { MovesCode(v, Moves(v), |Moves(v)|) }

  const LOADS: seq<Instr> := [Ldl(3, 0), Ldl(4, 1), Ldl(5, 2)]
  const STORES: seq<Instr> := [Stl(3, 0), Stl(4, 1), Stl(5, 2)]

  function L63Program(v: Variant, trips: nat): Program {
    Program(LOADS, trips, Body(v), STORES)
  }

  // ---- the mathematics ------------------------------------------------------

  /** -beta z, which the `zsign` mutant forgets to negate. */
  function BetaZ<V>(alu: Alu<V>, bank: seq<V>, v: Variant, z: V): V
    requires |bank| == BankSize(v)
  {
    var bz := alu.mul(bank[Sigma(v) + 2], z);
    if v == Zsign then bz else alu.neg(bz)
  }

  /** x' = sigma (y - x), y' = x (rho - z) - y, z' = x y - beta z, in the generator's
      order of operations. */
  function Field<V>(alu: Alu<V>, bank: seq<V>, v: Variant, u: seq<V>): (k: seq<V>)
    requires |bank| == BankSize(v) && |u| == 3
    ensures |k| == 3
  {
    [alu.mul(bank[Sigma(v)], alu.sub(u[1], u[0])),
     alu.fma(u[0], alu.sub(bank[Sigma(v) + 1], u[2]), alu.neg(u[1])),
     alu.fma(u[0], u[1], BetaZ(alu, bank, v, u[2]))]
  }

  function Rk4Step<V>(alu: Alu<V>, bank: seq<V>, v: Variant, y: seq<V>): (y': seq<V>)
    requires |bank| == 7 && v != Rk38 && |y| == 3
    ensures |y'| == 3
  {
    var k1 := Field(alu, bank, v, y);
    var k2 := Field(alu, bank, v, Axpy(alu, bank[1], k1, y));
    var k3 := Field(alu, bank, v, Axpy(alu, bank[1], k2, y));
    var k4 := Field(alu, bank, v, Axpy(alu, bank[if v == Stage4Half then 1 else 0], k3, y));
    Axpy(alu, bank[2], Plus(alu, Axpy(alu, bank[3], k3, Axpy(alu, bank[3], k2, k1)), k4), y)
  }

  function Rk38Step<V>(alu: Alu<V>, bank: seq<V>, y: seq<V>): (y': seq<V>)
    requires |bank| == 9 && |y| == 3
    ensures |y'| == 3
  {
    var k1 := Field(alu, bank, Rk38, y);
    var k2 := Field(alu, bank, Rk38, Axpy(alu, bank[1], k1, y));
    var k3 := Field(alu, bank, Rk38, Axpy(alu, bank[0], k2, Axpy(alu, bank[2], k1, y)));
    var k4 := Field(alu, bank, Rk38, Axpy(alu, bank[0], k3, Axpy(alu, bank[3], k2, Axpy(alu, bank[0], k1, y))));
    Axpy(alu, bank[4], Plus(alu, Axpy(alu, bank[5], k3, Axpy(alu, bank[5], k2, k1)), k4), y)
  }

  function StepOf<V>(alu: Alu<V>, bank: seq<V>, v: Variant, y: seq<V>): (y': seq<V>)
    requires |bank| == BankSize(v) && |y| == 3
    ensures |y'| == 3
  {
    if v == Rk38 then Rk38Step(alu, bank, y) else Rk4Step(alu, bank, v, y)
  }

  // ---- the code on triples --------------------------------------------------

  function Triple<V>(m: Lane<V>, t: nat): (u: seq<V>)
    requires IsLane(m) && t < 6
    ensures |u| == 3
  {
    [m.r[Base(t)], m.r[Base(t) + 1], m.r[Base(t) + 2]]
  }

  function Triples<V>(m: Lane<V>): (ts: seq<seq<V>>)
    requires IsLane(m)
    ensures IsTriples(ts)
  {
    [Triple(m, 0), Triple(m, 1), Triple(m, 2), Triple(m, 3), Triple(m, 4), Triple(m, 5)]
  }

  predicate IsTriples<V>(ts: seq<seq<V>>) {
    |ts| == 6 && forall t | 0 <= t < 6 :: |ts[t]| == 3
  }

  predicate ValidMove(v: Variant, mv: Move) {
    match mv
    case F(i, o) => i < 2 && 2 <= o < 4
    case Fma3(d, k, b, c) => d < 6 && k < BankSize(v) && b < 6 && c < 6
    case Add3(d, b) => d < 6 && b < 6
  }

  function Apply<V>(alu: Alu<V>, bank: seq<V>, v: Variant, mv: Move, ts: seq<seq<V>>): (ts': seq<seq<V>>)
    requires |bank| == BankSize(v) && ValidMove(v, mv) && IsTriples(ts)
    ensures IsTriples(ts')
  {
    match mv
    case F(i, o) => ts[o := Field(alu, bank, v, ts[i])]
    case Fma3(d, k, b, c) => ts[d := Axpy(alu, bank[k], ts[b], ts[c])]
    case Add3(d, b) => ts[d := Plus(alu, ts[d], ts[b])]
  }

  /** Only a triple's three registers (and the temporaries) changed: the others stand. */
  lemma TriplesSet<V>(m: Lane<V>, m': Lane<V>, d: nat, u: seq<V>)
    requires IsLane(m) && IsLane(m') && d < 6 && |u| == 3
    requires Writes3(m, m', Base(d), u[0], u[1], u[2])
    ensures m'.s == m.s && Triples(m') == Triples(m)[d := u]
  {
    assert u == [u[0], u[1], u[2]];
    forall t | 0 <= t < 6
      ensures Triples(m')[t] == Triples(m)[d := u][t]
    {
      if t == d { assert Triple(m', t) == u; } else { assert Triple(m', t) == Triple(m, t); }
    }
  }

  predicate Apart(p: nat, q: nat) { p == q || p + 3 <= q || q + 3 <= p }

  lemma BasesApart(s: nat, t: nat)
    requires s < 6 && t < 6
    ensures Apart(Base(s), Base(t)) && Base(s) <= 20 && Base(t) <= 20
  {
  }

  /** m' is m but for registers d, d+1, d+2, and t0 and t1. */
  ghost predicate Writes3<V>(m: Lane<V>, m': Lane<V>, d: nat, x: V, y: V, z: V)
    requires IsLane(m) && IsLane(m') && d <= 20
  {
    && m'.s == m.s && m'.r[d] == x && m'.r[d + 1] == y && m'.r[d + 2] == z
    && forall j :: 3 <= j < 23 && !(d <= j < d + 3) && j != 18 && j != 19 ==> m'.r[j] == m.r[j]
  }

  lemma SetsWrite3<V>(m: Lane<V>, d: nat, x: V, y: V, z: V)
    requires IsLane(m) && d <= 20
    ensures Writes3(m, Set(Set(Set(m, d, x), d + 1, y), d + 2, z), d, x, y, z)
  {
  }

  lemma ExecOf3<V>(alu: Alu<V>, bank: seq<V>, code: seq<Instr>, m: Lane<V>)
    requires IsLane(m) && |code| == 3 && Loads(code, |bank|, |m.s|)
    ensures Exec(alu, bank, code, m) == Step(alu, bank, code[2], Step(alu, bank, code[1], Step(alu, bank, code[0], m)))
  {
    assert code == [code[0], code[1], code[2]];
    Exec3(alu, bank, code[0], code[1], code[2], m);
  }

  /** Three instructions writing d, d+1 and d+2 from registers that are d's own or apart. */
  lemma Fma3Steps<V>(alu: Alu<V>, bank: seq<V>, d: nat, k: nat, b: nat, c: nat, m: Lane<V>)
    requires IsLane(m) && k < |bank| && d <= 20 && b <= 20 && c <= 20 && Apart(d, b) && Apart(d, c)
    ensures var i, j, l := Fma(d, Con(k), Reg(b), Reg(c)), Fma(d + 1, Con(k), Reg(b + 1), Reg(c + 1)),
                           Fma(d + 2, Con(k), Reg(b + 2), Reg(c + 2));
            && Loads([i, j, l], |bank|, |m.s|)
            && Step(alu, bank, l, Step(alu, bank, j, Step(alu, bank, i, m)))
            == Set(Set(Set(m, d, alu.fma(bank[k], m.r[b], m.r[c])), d + 1, alu.fma(bank[k], m.r[b + 1], m.r[c + 1])),
                   d + 2, alu.fma(bank[k], m.r[b + 2], m.r[c + 2]))
  {
  }

  lemma Add3Steps<V>(alu: Alu<V>, bank: seq<V>, d: nat, b: nat, m: Lane<V>)
    requires IsLane(m) && d <= 20 && b <= 20 && Apart(d, b)
    ensures var i, j, k := Add(d, Reg(d), Reg(b)), Add(d + 1, Reg(d + 1), Reg(b + 1)),
            Add(d + 2, Reg(d + 2), Reg(b + 2));
            && Loads([i, j, k], |bank|, |m.s|)
            && Step(alu, bank, k, Step(alu, bank, j, Step(alu, bank, i, m)))
            == Set(Set(Set(m, d, alu.add(m.r[d], m.r[b])), d + 1, alu.add(m.r[d + 1], m.r[b + 1])),
                   d + 2, alu.add(m.r[d + 2], m.r[b + 2]))
  {
  }

  /** The right-hand side's eight instructions, the first three and the rest. */
  lemma RhsFirst<V>(alu: Alu<V>, bank: seq<V>, v: Variant, i: nat, o: nat, m: Lane<V>)
    requires IsLane(m) && |bank| == BankSize(v) && 3 <= i <= 6 && 9 <= o <= 12
    ensures var code := RhsCode(v, i, o)[..3];
            && Loads(code, |bank|, |m.s|)
            && Exec(alu, bank, code, m)
            == Set(Set(Set(m, 18, alu.sub(m.r[i + 1], m.r[i])), o,
                       alu.mul(bank[Sigma(v)], alu.sub(m.r[i + 1], m.r[i]))),
                   18, alu.sub(bank[Sigma(v) + 1], m.r[i + 2]))
  {
    ExecOf3(alu, bank, RhsCode(v, i, o)[..3], m);
  }

  lemma RhsRest<V>(alu: Alu<V>, bank: seq<V>, v: Variant, i: nat, o: nat, m: Lane<V>)
    requires IsLane(m) && |bank| == BankSize(v) && 3 <= i <= 6 && 9 <= o <= 12
    ensures var code := RhsCode(v, i, o)[3..];
            && Loads(code, |bank|, |m.s|)
            && var m' := Exec(alu, bank, code, m);
               && m'.s == m.s && m'.r[o] == m.r[o]
               && m'.r[o + 1] == alu.fma(m.r[i], m.r[18], alu.neg(m.r[i + 1]))
               && m'.r[o + 2] == alu.fma(m.r[i], m.r[i + 1], BetaZ(alu, bank, v, m.r[i + 2]))
               && forall j :: 3 <= j < 23 && !(o <= j < o + 3) && j != 18 && j != 19 ==> m'.r[j] == m.r[j]
  {
    var code := RhsCode(v, i, o);
    var q, r := code[3..6], code[6..];
    ExecOf3(alu, bank, q, m);
    Exec2(alu, bank, r[0], r[1], Exec(alu, bank, q, m));
    assert r == [r[0], r[1]];
    ExecConcat(alu, bank, q, r, m);
    assert code[3..] == q + r;
  }

  lemma RhsSets<V>(alu: Alu<V>, bank: seq<V>, v: Variant, i: nat, o: nat, m: Lane<V>)
    requires IsLane(m) && |bank| == BankSize(v) && 3 <= i <= 6 && 9 <= o <= 12
    ensures var code := RhsCode(v, i, o);
            var k := Field(alu, bank, v, [m.r[i], m.r[i + 1], m.r[i + 2]]);
            && Loads(code, |bank|, |m.s|)
            && Writes3(m, Exec(alu, bank, code, m), o, k[0], k[1], k[2])
  {
    hide Exec, Step;
    var code := RhsCode(v, i, o);
    RhsFirst(alu, bank, v, i, o, m);
    RhsRest(alu, bank, v, i, o, Exec(alu, bank, code[..3], m));
    ExecConcat(alu, bank, code[..3], code[3..], m);
    assert code == code[..3] + code[3..];
  }

  /** A move's code does to the triples what the move says. */
  lemma MoveRuns<V>(alu: Alu<V>, bank: seq<V>, v: Variant, mv: Move, m: Lane<V>)
    requires IsLane(m) && |bank| == BankSize(v) && ValidMove(v, mv)
    ensures Loads(MoveCode(v, mv), |bank|, |m.s|)
    ensures Exec(alu, bank, MoveCode(v, mv), m).s == m.s
    ensures Triples(Exec(alu, bank, MoveCode(v, mv), m)) == Apply(alu, bank, v, mv, Triples(m))
  {
    match mv
    case F(i, o) => FRuns(alu, bank, v, i, o, m);
    case Fma3(d, k, b, c) => Fma3Runs(alu, bank, v, d, k, b, c, m);
    case Add3(d, b) => Add3Runs(alu, bank, v, d, b, m);
  }

  lemma FRuns<V>(alu: Alu<V>, bank: seq<V>, v: Variant, i: nat, o: nat, m: Lane<V>)
    requires IsLane(m) && |bank| == BankSize(v) && ValidMove(v, F(i, o))
    ensures Loads(MoveCode(v, F(i, o)), |bank|, |m.s|)
    ensures Exec(alu, bank, MoveCode(v, F(i, o)), m).s == m.s
    ensures Triples(Exec(alu, bank, MoveCode(v, F(i, o)), m)) == Triples(m)[o := Field(alu, bank, v, Triples(m)[i])]
  {
    hide Exec, Loads, Field, RhsCode, Writes3;
    RhsSets(alu, bank, v, Base(i), Base(o), m);
    TriplesSet(m, Exec(alu, bank, MoveCode(v, F(i, o)), m), o, Field(alu, bank, v, Triples(m)[i]));
  }

  lemma AxpyOf3<V>(alu: Alu<V>, h: V, k: seq<V>, y: seq<V>)
    requires |k| == |y| == 3
    ensures Axpy(alu, h, k, y) == [alu.fma(h, k[0], y[0]), alu.fma(h, k[1], y[1]), alu.fma(h, k[2], y[2])]
  {
  }

  lemma PlusOf3<V>(alu: Alu<V>, a: seq<V>, b: seq<V>)
    requires |a| == |b| == 3
    ensures Plus(alu, a, b) == [alu.add(a[0], b[0]), alu.add(a[1], b[1]), alu.add(a[2], b[2])]
  {
  }

  lemma Fma3Runs<V>(alu: Alu<V>, bank: seq<V>, v: Variant, d: nat, k: nat, b: nat, c: nat, m: Lane<V>)
    requires IsLane(m) && |bank| == BankSize(v) && ValidMove(v, Fma3(d, k, b, c))
    ensures var code := MoveCode(v, Fma3(d, k, b, c));
            && Loads(code, |bank|, |m.s|)
            && Exec(alu, bank, code, m).s == m.s
            && Triples(Exec(alu, bank, code, m)) == Triples(m)[d := Axpy(alu, bank[k], Triples(m)[b], Triples(m)[c])]
  {
    hide Exec, Step, Loads, Writes3, Triples, Axpy, Base;
    BasesApart(d, b); BasesApart(d, c);
    Fma3Steps(alu, bank, Base(d), k, Base(b), Base(c), m);
    ExecOf3(alu, bank, MoveCode(v, Fma3(d, k, b, c)), m);
    TriplesAre(m, b); TriplesAre(m, c);
    AxpyOf3(alu, bank[k], Triple(m, b), Triple(m, c));
    var z := Axpy(alu, bank[k], Triple(m, b), Triple(m, c));
    SetsWrite3(m, Base(d), z[0], z[1], z[2]);
    TriplesSet(m, Exec(alu, bank, MoveCode(v, Fma3(d, k, b, c)), m), d,
               Axpy(alu, bank[k], Triples(m)[b], Triples(m)[c]));
  }

  lemma TriplesAre<V>(m: Lane<V>, t: nat)
    requires IsLane(m) && t < 6
    ensures Triples(m)[t] == Triple(m, t)
  {
  }

  lemma Add3Runs<V>(alu: Alu<V>, bank: seq<V>, v: Variant, d: nat, b: nat, m: Lane<V>)
    requires IsLane(m) && |bank| == BankSize(v) && ValidMove(v, Add3(d, b))
    ensures var code := MoveCode(v, Add3(d, b));
            && Loads(code, |bank|, |m.s|)
            && Exec(alu, bank, code, m).s == m.s
            && Triples(Exec(alu, bank, code, m)) == Triples(m)[d := Plus(alu, Triples(m)[d], Triples(m)[b])]
  {
    hide Exec, Step, Loads, Writes3, Triples, Plus, Base;
    BasesApart(d, b); BasesApart(d, d);
    Add3Steps(alu, bank, Base(d), Base(b), m);
    ExecOf3(alu, bank, MoveCode(v, Add3(d, b)), m);
    TriplesAre(m, d); TriplesAre(m, b);
    PlusOf3(alu, Triple(m, d), Triple(m, b));
    var z := Plus(alu, Triple(m, d), Triple(m, b));
    SetsWrite3(m, Base(d), z[0], z[1], z[2]);
    TriplesSet(m, Exec(alu, bank, MoveCode(v, Add3(d, b)), m), d, Plus(alu, Triples(m)[d], Triples(m)[b]));
  }

  predicate ValidMoves(v: Variant, ms: seq<Move>) {
    forall j | 0 <= j < |ms| :: ValidMove(v, ms[j])
  }

  /** The first n moves on the triples. */
  function ApplyTo<V>(alu: Alu<V>, bank: seq<V>, v: Variant, ms: seq<Move>, n: nat, ts: seq<seq<V>>): (ts': seq<seq<V>>)
    requires |bank| == BankSize(v) && IsTriples(ts) && n <= |ms| && ValidMoves(v, ms)
    ensures IsTriples(ts')
  {
    if n == 0 then ts else Apply(alu, bank, v, ms[n - 1], ApplyTo(alu, bank, v, ms, n - 1, ts))
  }

  lemma {:induction false} MovesRun<V>(alu: Alu<V>, bank: seq<V>, v: Variant, ms: seq<Move>, n: nat, m: Lane<V>)
    requires IsLane(m) && |bank| == BankSize(v) && ValidMoves(v, ms) && n <= |ms|
    ensures Loads(MovesCode(v, ms, n), |bank|, |m.s|)
    ensures Exec(alu, bank, MovesCode(v, ms, n), m).s == m.s
    ensures Triples(Exec(alu, bank, MovesCode(v, ms, n), m)) == ApplyTo(alu, bank, v, ms, n, Triples(m))
  {
    hide MoveCode, Apply, Triples;
    if n > 0 {
      MovesRun(alu, bank, v, ms, n - 1, m);
      MoveRuns(alu, bank, v, ms[n - 1], Exec(alu, bank, MovesCode(v, ms, n - 1), m));
      ExecConcat(alu, bank, MovesCode(v, ms, n - 1), MoveCode(v, ms[n - 1]), m);
    }
  }

  // ---- the loop body and the whole segment ----------------------------------

  lemma ApplyNext<V>(alu: Alu<V>, bank: seq<V>, v: Variant, ms: seq<Move>, n: nat, ts: seq<seq<V>>)
    requires |bank| == BankSize(v) && IsTriples(ts) && n < |ms| && ValidMoves(v, ms)
    ensures ApplyTo(alu, bank, v, ms, n + 1, ts) == Apply(alu, bank, v, ms[n], ApplyTo(alu, bank, v, ms, n, ts))
    ensures ApplyTo(alu, bank, v, ms, 0, ts) == ts
  {
  }

  /** The triples a few moves on, as the state, the stage's input, k1 and the sum. */
  lemma MovesAreRk4<V>(alu: Alu<V>, bank: seq<V>, v: Variant, ts: seq<seq<V>>)
    requires |bank| == BankSize(v) && IsTriples(ts) && v != Rk38
    ensures ValidMoves(v, Moves(v)) && ApplyTo(alu, bank, v, Moves(v), 11, ts)[X] == Rk4Step(alu, bank, v, ts[X])
  {
    hide Field, Axpy, Plus, ApplyTo;
    var ms := Moves(v);
    ApplyNext(alu, bank, v, ms, 0, ts); ApplyNext(alu, bank, v, ms, 1, ts);
    ApplyNext(alu, bank, v, ms, 2, ts); ApplyNext(alu, bank, v, ms, 3, ts); ApplyNext(alu, bank, v, ms, 4, ts);
    ApplyNext(alu, bank, v, ms, 5, ts); ApplyNext(alu, bank, v, ms, 6, ts); ApplyNext(alu, bank, v, ms, 7, ts);
    ApplyNext(alu, bank, v, ms, 8, ts); ApplyNext(alu, bank, v, ms, 9, ts); ApplyNext(alu, bank, v, ms, 10, ts);
  }

  lemma MovesAreRk38<V>(alu: Alu<V>, bank: seq<V>, ts: seq<seq<V>>)
    requires |bank| == 9 && IsTriples(ts)
    ensures ValidMoves(Rk38, Moves(Rk38))
    ensures ApplyTo(alu, bank, Rk38, Moves(Rk38), 14, ts)[X] == Rk38Step(alu, bank, ts[X])
  {
    hide Field, Axpy, Plus, ApplyTo;
    var v, ms := Rk38, Moves(Rk38);
    ApplyNext(alu, bank, v, ms, 0, ts); ApplyNext(alu, bank, v, ms, 1, ts);
    ApplyNext(alu, bank, v, ms, 2, ts); ApplyNext(alu, bank, v, ms, 3, ts); ApplyNext(alu, bank, v, ms, 4, ts);
    ApplyNext(alu, bank, v, ms, 5, ts); ApplyNext(alu, bank, v, ms, 6, ts); ApplyNext(alu, bank, v, ms, 7, ts);
    ApplyNext(alu, bank, v, ms, 8, ts); ApplyNext(alu, bank, v, ms, 9, ts); ApplyNext(alu, bank, v, ms, 10, ts);
    ApplyNext(alu, bank, v, ms, 11, ts); ApplyNext(alu, bank, v, ms, 12, ts); ApplyNext(alu, bank, v, ms, 13, ts);
  }

  lemma BodyIsStep<V>(alu: Alu<V>, bank: seq<V>, v: Variant, m: Lane<V>)
    requires IsLane(m) && |bank| == BankSize(v)
    ensures Loads(Body(v), |bank|, |m.s|)
    ensures Exec(alu, bank, Body(v), m).s == m.s
    ensures Triple(Exec(alu, bank, Body(v), m), X) == StepOf(alu, bank, v, Triple(m, X))
  {
    hide MovesCode, Apply, Rk4Step, Rk38Step;
    var ms := Moves(v);
    if v == Rk38 { MovesAreRk38(alu, bank, Triples(m)); } else { MovesAreRk4(alu, bank, v, Triples(m)); }
    MovesRun(alu, bank, v, ms, |ms|, m);
  }

  function Steps<V>(alu: Alu<V>, bank: seq<V>, v: Variant, n: nat, y: seq<V>): (y': seq<V>)
    requires |bank| == BankSize(v) && |y| == 3
    ensures |y'| == 3
  {
    if n == 0 then y else StepOf(alu, bank, v, Steps(alu, bank, v, n - 1, y))
  }

  lemma {:induction false} StepsAdd<V>(alu: Alu<V>, bank: seq<V>, v: Variant, a: nat, b: nat, y: seq<V>)
    requires |bank| == BankSize(v) && |y| == 3
    ensures Steps(alu, bank, v, a + b, y) == Steps(alu, bank, v, b, Steps(alu, bank, v, a, y))
  {
    hide StepOf;
    if b > 0 { StepsAdd(alu, bank, v, a, b - 1, y); }
  }

  lemma {:induction false} LoopIsSteps<V>(alu: Alu<V>, bank: seq<V>, v: Variant, n: nat, m: Lane<V>)
    requires IsLane(m) && |bank| == BankSize(v)
    ensures Loads(Body(v), |bank|, |m.s|)
    ensures Loop(alu, bank, Body(v), n, m).s == m.s
    ensures Triple(Loop(alu, bank, Body(v), n, m), X) == Steps(alu, bank, v, n, Triple(m, X))
  {
    hide StepOf, Body;
    BodyIsStep(alu, bank, v, m);
    if n > 0 {
      LoopIsSteps(alu, bank, v, n - 1, m);
      BodyIsStep(alu, bank, v, Loop(alu, bank, Body(v), n - 1, m));
    }
  }

  lemma LoadsRun<V>(alu: Alu<V>, bank: seq<V>, m: Lane<V>)
    requires IsLane(m) && |m.s| >= 3
    ensures Loads(LOADS, |bank|, |m.s|)
    ensures Exec(alu, bank, LOADS, m).s == m.s && Triple(Exec(alu, bank, LOADS, m), X) == m.s[..3]
  {
    ExecOf3(alu, bank, LOADS, m);
  }

  lemma StoresRun<V>(alu: Alu<V>, bank: seq<V>, m: Lane<V>)
    requires IsLane(m) && |m.s| >= 3
    ensures Loads(STORES, |bank|, |m.s|)
    ensures Exec(alu, bank, STORES, m).s == Triple(m, X) + m.s[3..]
  {
    ExecOf3(alu, bank, STORES, m);
  }

  /** Meaning preservation: for every bank, registers, scratch and ALU, the image run for
      n trips turns the carried x, y, z into n steps of it and touches no other slot. */
  lemma ProgramIsSteps<V>(alu: Alu<V>, bank: seq<V>, v: Variant, n: nat, m: Lane<V>)
    requires IsLane(m) && |m.s| >= 3 && |bank| == BankSize(v)
    ensures ProgramLoads(L63Program(v, n), |bank|, |m.s|)
    ensures RunProgram(alu, bank, L63Program(v, n), m).s == Steps(alu, bank, v, n, m.s[..3]) + m.s[3..]
  {
    hide Body, Steps, Exec, Loop;
    LoadsRun(alu, bank, m);
    var m1 := Exec(alu, bank, LOADS, m);
    LoopIsSteps(alu, bank, v, n, m1);
    StoresRun(alu, bank, Loop(alu, bank, Body(v), n, m1));
  }

  /** Segment chaining: a trips, then b trips from any lane that carries only the first
      segment's x, y, z, leave what a + b trips leave. */
  lemma SegmentsChain<V>(alu: Alu<V>, bank: seq<V>, v: Variant, a: nat, b: nat, m: Lane<V>, fresh': Lane<V>)
    requires IsLane(m) && |m.s| >= 3 && IsLane(fresh') && |fresh'.s| >= 3 && |bank| == BankSize(v)
    requires ProgramLoads(L63Program(v, a), |bank|, |m.s|)
    requires fresh'.s[..3] == RunProgram(alu, bank, L63Program(v, a), m).s[..3]
    ensures ProgramLoads(L63Program(v, b), |bank|, |fresh'.s|) && ProgramLoads(L63Program(v, a + b), |bank|, |m.s|)
    ensures RunProgram(alu, bank, L63Program(v, b), fresh').s[..3]
         == RunProgram(alu, bank, L63Program(v, a + b), m).s[..3]
  {
    hide Steps, RunProgram, L63Program;
    ProgramIsSteps(alu, bank, v, a, m);
    ProgramIsSteps(alu, bank, v, b, fresh');
    ProgramIsSteps(alu, bank, v, a + b, m);
    StepsAdd(alu, bank, v, a, b, m.s[..3]);
  }

  lemma MovesLength(v: Variant, ms: seq<Move>, n: nat)
    requires n < |ms|
    ensures |MovesCode(v, ms, n + 1)| == |MovesCode(v, ms, n)| + if ms[n].F? then 8 else 3
    ensures |MovesCode(v, ms, 0)| == 0
  {
  }

  /** What a step costs: 53 instructions, 62 under the 3/8 rule ... */
  lemma BodyCost(v: Variant)
    ensures |Body(v)| == if v == Rk38 then 62 else 53
  {
    hide MovesCode;
    var ms := Moves(v);
    MovesLength(v, ms, 0); MovesLength(v, ms, 1); MovesLength(v, ms, 2); MovesLength(v, ms, 3);
    MovesLength(v, ms, 4); MovesLength(v, ms, 5); MovesLength(v, ms, 6); MovesLength(v, ms, 7);
    MovesLength(v, ms, 8); MovesLength(v, ms, 9); MovesLength(v, ms, 10);
    if v == Rk38 { MovesLength(v, ms, 11); MovesLength(v, ms, 12); MovesLength(v, ms, 13); }
  }

  predicate IsAlu(i: Instr) { !i.Ldl? && !i.Stl? }

  /** ... and every one of them is an ALU instruction. */
  lemma {:induction false} MovesAreAlu(v: Variant, ms: seq<Move>, n: nat)
    requires n <= |ms|
    ensures forall j :: 0 <= j < |MovesCode(v, ms, n)| ==> IsAlu(MovesCode(v, ms, n)[j])
  {
    if n > 0 {
      MovesAreAlu(v, ms, n - 1);
      var code := MoveCode(v, ms[n - 1]);
      assert forall j :: 0 <= j < |code| ==> IsAlu(code[j]);
    }
  }

  // ---- the emitter ----------------------------------------------------------

  /** The lines so far are the loads, the loop's head and the first n moves. */
  ghost predicate Written(ls: seq<Line>, v: Variant, trips: nat, n: nat)
  {
    n <= |Moves(v)| && ls == Ops(LOADS) + [Repeat(trips)] + Ops(MovesCode(v, Moves(v), n))
  }

  lemma WrittenNext(ls: seq<Line>, v: Variant, trips: nat, n: nat)
    requires Written(ls, v, trips, n) && n < |Moves(v)|
    ensures Written(ls + Ops(MoveCode(v, Moves(v)[n])), v, trips, n + 1)
  {
    OpsConcat(MovesCode(v, Moves(v), n), MoveCode(v, Moves(v)[n]));
  }

  method EmitRhs(S: Src, v: Variant, i: nat, o: nat, ghost trips: nat, ghost n: nat)
    requires Written(S.lines, v, trips, n) && n < |Moves(v)| && Moves(v)[n] == F(i, o)
    modifies S
    ensures Written(S.lines, v, trips, n + 1)
  {
    hide Written, Ops;
    WrittenNext(S.lines, v, trips, n);
    var x, k := Base(i), Base(o);
    ghost var code := MoveCode(v, F(i, o));
    S.Code([Sub(18, Reg(x + 1), Reg(x)), Mul(k, Con(Sigma(v)), Reg(18)), Sub(18, Con(Sigma(v) + 1), Reg(x + 2)),
            Neg(19, Reg(x + 1)), Fma(k + 1, Reg(x), Reg(18), Reg(19)), Mul(18, Con(Sigma(v) + 2), Reg(x + 2)),
            Neg(19, Reg(18)), Fma(k + 2, Reg(x), Reg(x + 1), Reg(if v == Zsign then 18 else 19))]);
    assert S.lines == old(S.lines) + Ops(code);
  }

  /** The `for c in "xyz"` loops. */
  method EmitFma3(S: Src, v: Variant, d: nat, k: nat, b: nat, c: nat, ghost trips: nat, ghost n: nat)
    requires Written(S.lines, v, trips, n) && n < |Moves(v)| && Moves(v)[n] == Fma3(d, k, b, c)
    modifies S
    ensures Written(S.lines, v, trips, n + 1)
  {
    hide Written, Ops;
    WrittenNext(S.lines, v, trips, n);
    ghost var code := MoveCode(v, Fma3(d, k, b, c));
    for j := 0 to 3
      invariant S.lines == old(S.lines) + Ops(code[..j])
    {
      S.Code([Fma(Base(d) + j, Con(k), Reg(Base(b) + j), Reg(Base(c) + j))]);
      OpsConcat(code[..j], [code[j]]);
      assert code[..j] + [code[j]] == code[..j + 1];
    }
    assert code[..3] == code;
  }

  method EmitAdd3(S: Src, v: Variant, d: nat, b: nat, ghost trips: nat, ghost n: nat)
    requires Written(S.lines, v, trips, n) && n < |Moves(v)| && Moves(v)[n] == Add3(d, b)
    modifies S
    ensures Written(S.lines, v, trips, n + 1)
  {
    hide Written, Ops;
    WrittenNext(S.lines, v, trips, n);
    ghost var code := MoveCode(v, Add3(d, b));
    for j := 0 to 3
      invariant S.lines == old(S.lines) + Ops(code[..j])
    {
      S.Code([Add(Base(d) + j, Reg(Base(d) + j), Reg(Base(b) + j))]);
      OpsConcat(code[..j], [code[j]]);
      assert code[..j] + [code[j]] == code[..j + 1];
    }
    assert code[..3] == code;
  }

  method EmitStages38(S: Src, ghost trips: nat)
    requires Written(S.lines, Rk38, trips, 0)
    modifies S
    ensures Written(S.lines, Rk38, trips, 14)
  {
    hide Written;
    EmitRhs(S, Rk38, X, KA, trips, 0);
    EmitFma3(S, Rk38, P, 1, KA, X, trips, 1);
    EmitRhs(S, Rk38, P, KB, trips, 2);
    EmitFma3(S, Rk38, C, 5, KB, KA, trips, 3);
    EmitFma3(S, Rk38, D, 0, KA, X, trips, 4);
    EmitFma3(S, Rk38, D, 3, KB, D, trips, 5);
    EmitFma3(S, Rk38, P, 2, KA, X, trips, 6);
    EmitFma3(S, Rk38, P, 0, KB, P, trips, 7);
    EmitRhs(S, Rk38, P, KB, trips, 8);
    EmitFma3(S, Rk38, C, 5, KB, C, trips, 9);
    EmitFma3(S, Rk38, P, 0, KB, D, trips, 10);
    EmitRhs(S, Rk38, P, KB, trips, 11);
    EmitAdd3(S, Rk38, C, KB, trips, 12);
    EmitFma3(S, Rk38, X, 4, C, X, trips, 13);
  }

  method EmitStages(S: Src, v: Variant, ghost trips: nat)
    requires v != Rk38 && Written(S.lines, v, trips, 0)
    modifies S
    ensures Written(S.lines, v, trips, 11)
  {
    hide Written;
    var h4 := if v == Stage4Half then 1 else 0;
    EmitRhs(S, v, X, KA, trips, 0);
    EmitFma3(S, v, P, 1, KA, X, trips, 1);
    EmitRhs(S, v, P, KB, trips, 2);
    EmitFma3(S, v, C, 3, KB, KA, trips, 3);
    EmitFma3(S, v, P, 1, KB, X, trips, 4);
    EmitRhs(S, v, P, KB, trips, 5);
    EmitFma3(S, v, C, 3, KB, C, trips, 6);
    EmitFma3(S, v, P, h4, KB, X, trips, 7);
    EmitRhs(S, v, P, KB, trips, 8);
    EmitAdd3(S, v, C, KB, trips, 9);
    EmitFma3(S, v, X, 2, C, X, trips, 10);
  }

  /** The whole generator: the loads, `repeat`, the stages, `endrep`, the stores, `halt`. */
  method Emit(v: Variant, trips: nat) returns (lines: seq<Line>)
    ensures lines == Listing(L63Program(v, trips))
  {
    hide MovesCode;
    var S := new Src();
    for i := 0 to 3
      invariant S.lines == Ops(LOADS[..i])
    {
      S.Code([Ldl(3 + i, i)]);
      OpsConcat(LOADS[..i], [LOADS[i]]);
      assert LOADS[..i] + [LOADS[i]] == LOADS[..i + 1];
    }
    assert LOADS[..3] == LOADS;
    S.Control(Repeat(trips));
    assert MovesCode(v, Moves(v), 0) == [] by { MovesLength(v, Moves(v), 0); }
    if v == Rk38 {
      EmitStages38(S, trips);
    } else {
      EmitStages(S, v, trips);
    }
    S.Control(Endrep);
    ghost var head := S.lines;
    for i := 0 to 3
      invariant S.lines == head + Ops(STORES[..i])
    {
      S.Code([Stl(3 + i, i)]);
      OpsConcat(STORES[..i], [STORES[i]]);
      assert STORES[..i] + [STORES[i]] == STORES[..i + 1];
    }
    assert STORES[..3] == STORES;
    S.Control(Halt);
    lines := S.lines;
  }
}
