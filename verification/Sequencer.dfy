/** The sequencer the generated programs run on: thirty-two registers and a scratch
    memory a lane, a read-only bank of constants, straight-line ALU and scratch
    instructions, and one REPEAT loop (docs/SEQUENCER.md).  The ALU operations are
    left uninterpreted: every result here holds for any rounding. */
module Sequencer {

  /** The ALU's operations over a value type V.  `fma(a, b, c)` is a*b + c rounded
      once, the fusedMultiplyAdd of section 5.4.1 of IEEE 754-2019. */
  datatype Alu<!V> = Alu(fma: (V, V, V) -> V,
                         add: (V, V) -> V,
                         sub: (V, V) -> V,
                         mul: (V, V) -> V,
                         neg: V -> V)

  datatype Operand = Reg(r: nat) | Con(k: nat)

  datatype Instr =
    | Fma(d: nat, a: Operand, b: Operand, c: Operand)
    | Add(d: nat, a: Operand, b: Operand)
    | Sub(d: nat, a: Operand, b: Operand)
    | Mul(d: nat, a: Operand, b: Operand)
    | Neg(d: nat, a: Operand)
    | Ldl(d: nat, slot: nat)
    | Stl(src: nat, slot: nat)

  /** A lane's state: its registers and its scratch slots. */
  datatype Lane<V> = Lane(r: seq<V>, s: seq<V>)

  const REGS := 32

  predicate OperandFits(o: Operand, nbank: nat) {
    match o
    case Reg(r) => r < REGS
    case Con(k) => k < nbank
  }

  /** What the loader accepts: registers, constants and scratch slots that exist. */
  predicate Fits(i: Instr, nbank: nat, depth: nat) {
    match i
    case Fma(d, a, b, c) => d < REGS && OperandFits(a, nbank) && OperandFits(b, nbank) && OperandFits(c, nbank)
    case Add(d, a, b) => d < REGS && OperandFits(a, nbank) && OperandFits(b, nbank)
    case Sub(d, a, b) => d < REGS && OperandFits(a, nbank) && OperandFits(b, nbank)
    case Mul(d, a, b) => d < REGS && OperandFits(a, nbank) && OperandFits(b, nbank)
    case Neg(d, a) => d < REGS && OperandFits(a, nbank)
    case Ldl(d, slot) => d < REGS && slot < depth
    case Stl(src, slot) => src < REGS && slot < depth
  }

  ghost predicate Loads(p: seq<Instr>, nbank: nat, depth: nat) {
    forall j :: 0 <= j < |p| ==> Fits(p[j], nbank, depth)
  }

  predicate IsLane<V>(m: Lane<V>) {
    |m.r| == REGS
  }

  function Value<V>(o: Operand, bank: seq<V>, m: Lane<V>): V
    requires IsLane(m) && OperandFits(o, |bank|)
  {
    match o
    case Reg(r) => m.r[r]
    case Con(k) => bank[k]
  }

  function Set<V>(m: Lane<V>, d: nat, v: V): Lane<V>
    requires IsLane(m) && d < REGS
  {
    m.(r := m.r[d := v])
  }

  /** One instruction. */
  function Step<V>(alu: Alu<V>, bank: seq<V>, i: Instr, m: Lane<V>): (m': Lane<V>)
    requires IsLane(m) && Fits(i, |bank|, |m.s|)
    ensures IsLane(m') && |m'.s| == |m.s|
  {
    match i
    case Fma(d, a, b, c) => Set(m, d, alu.fma(Value(a, bank, m), Value(b, bank, m), Value(c, bank, m)))
    case Add(d, a, b) => Set(m, d, alu.add(Value(a, bank, m), Value(b, bank, m)))
    case Sub(d, a, b) => Set(m, d, alu.sub(Value(a, bank, m), Value(b, bank, m)))
    case Mul(d, a, b) => Set(m, d, alu.mul(Value(a, bank, m), Value(b, bank, m)))
    case Neg(d, a) => Set(m, d, alu.neg(Value(a, bank, m)))
    case Ldl(d, slot) => Set(m, d, m.s[slot])
    case Stl(src, slot) => m.(s := m.s[slot := m.r[src]])
  }

  /** Straight-line code. */
  ghost function Exec<V>(alu: Alu<V>, bank: seq<V>, p: seq<Instr>, m: Lane<V>): (m': Lane<V>)
    requires IsLane(m) && Loads(p, |bank|, |m.s|)
    ensures IsLane(m') && |m'.s| == |m.s|
  {
    if p == [] then m else Exec(alu, bank, p[1..], Step(alu, bank, p[0], m))
  }

  lemma {:induction false} ExecConcat<V>(alu: Alu<V>, bank: seq<V>, p: seq<Instr>, q: seq<Instr>, m: Lane<V>)
    requires IsLane(m) && Loads(p, |bank|, |m.s|) && Loads(q, |bank|, |m.s|)
    ensures Loads(p + q, |bank|, |m.s|)
    ensures Exec(alu, bank, p + q, m) == Exec(alu, bank, q, Exec(alu, bank, p, m))
  {
    if p == [] {
      assert p + q == q;
    } else {
      assert (p + q)[1..] == p[1..] + q;
      ExecConcat(alu, bank, p[1..], q, Step(alu, bank, p[0], m));
    }
  }

  lemma ExecCons<V>(alu: Alu<V>, bank: seq<V>, i: Instr, q: seq<Instr>, m: Lane<V>)
    requires IsLane(m) && Fits(i, |bank|, |m.s|) && Loads(q, |bank|, |m.s|)
    ensures Loads([i] + q, |bank|, |m.s|)
    ensures Exec(alu, bank, [i] + q, m) == Exec(alu, bank, q, Step(alu, bank, i, m))
  {
    assert ([i] + q)[1..] == q;
  }

  // ---- whole programs -------------------------------------------------------

  datatype Line = Op(i: Instr) | Repeat(trips: nat) | Endrep | Halt

  function Ops(p: seq<Instr>): (ls: seq<Line>)
    ensures |ls| == |p| && forall j :: 0 <= j < |p| ==> ls[j] == Op(p[j])
  {
    seq(|p|, j requires 0 <= j < |p| => Op(p[j]))
  }

  /** A program with one top-level loop, as the three generators write. */
  datatype Program = Program(pre: seq<Instr>, trips: nat, body: seq<Instr>, post: seq<Instr>)

  function Listing(p: Program): seq<Line> {
    Ops(p.pre) + [Repeat(p.trips)] + Ops(p.body) + [Endrep] + Ops(p.post) + [Halt]
  }

  ghost predicate ProgramLoads(p: Program, nbank: nat, depth: nat) {
    Loads(p.pre, nbank, depth) && Loads(p.body, nbank, depth) && Loads(p.post, nbank, depth)
  }

  ghost function Loop<V>(alu: Alu<V>, bank: seq<V>, body: seq<Instr>, n: nat, m: Lane<V>): (m': Lane<V>)
    requires IsLane(m) && Loads(body, |bank|, |m.s|)
    ensures IsLane(m') && |m'.s| == |m.s|
  {
    if n == 0 then m else Exec(alu, bank, body, Loop(alu, bank, body, n - 1, m))
  }

  ghost function RunProgram<V>(alu: Alu<V>, bank: seq<V>, p: Program, m: Lane<V>): (m': Lane<V>)
    requires IsLane(m) && ProgramLoads(p, |bank|, |m.s|)
    ensures IsLane(m') && |m'.s| == |m.s|
  {
    Exec(alu, bank, p.post, Loop(alu, bank, p.body, p.trips, Exec(alu, bank, p.pre, m)))
  }

  // ---- reading a listing back: the machine's own loop control ---------------

  /** Where a running lane stands: the next line, the trips its loop still owes and
      the line its loop's body begins at. */
  datatype Control<V> = Control(pc: nat, left: nat, top: nat, m: Lane<V>)

  /** One line of a listing. Past the end, at HALT and on an instruction that does not fit,
      nothing moves. */
  ghost function Tick<V>(alu: Alu<V>, bank: seq<V>, ls: seq<Line>, c: Control<V>): (c': Control<V>)
    requires IsLane(c.m)
    ensures IsLane(c'.m) && |c'.m.s| == |c.m.s|
  {
    if c.pc >= |ls| then c
    else
      match ls[c.pc]
      case Op(i) => if Fits(i, |bank|, |c.m.s|) then c.(pc := c.pc + 1, m := Step(alu, bank, i, c.m)) else c
      case Repeat(n) => Control(c.pc + 1, n, c.pc + 1, c.m)
      case Endrep => if c.left > 1 then c.(pc := c.top, left := c.left - 1) else c.(pc := c.pc + 1, left := 0)
      case Halt => c
  }

  ghost function Ticks<V>(alu: Alu<V>, bank: seq<V>, ls: seq<Line>, n: nat, c: Control<V>): (c': Control<V>)
    requires IsLane(c.m)
    ensures IsLane(c'.m) && |c'.m.s| == |c.m.s|
  {
    if n == 0 then c else Ticks(alu, bank, ls, n - 1, Tick(alu, bank, ls, c))
  }

  lemma {:induction false} TicksAdd<V>(alu: Alu<V>, bank: seq<V>, ls: seq<Line>, a: nat, b: nat, c: Control<V>)
    requires IsLane(c.m)
    ensures Ticks(alu, bank, ls, a + b, c) == Ticks(alu, bank, ls, b, Ticks(alu, bank, ls, a, c))
  {
    if a > 0 { TicksAdd(alu, bank, ls, a - 1, b, Tick(alu, bank, ls, c)); }
  }

  /** Straight-line stretches of a listing run as Exec says. */
  lemma {:induction false} TicksOps<V>(alu: Alu<V>, bank: seq<V>, ls: seq<Line>, p: seq<Instr>, c: Control<V>)
    requires IsLane(c.m) && Loads(p, |bank|, |c.m.s|)
    requires c.pc + |p| <= |ls| && ls[c.pc..c.pc + |p|] == Ops(p)
    ensures Ticks(alu, bank, ls, |p|, c) == c.(pc := c.pc + |p|, m := Exec(alu, bank, p, c.m))
  {
    if p != [] {
      assert ls[c.pc] == ls[c.pc..c.pc + |p|][0] == Op(p[0]);
      var c' := Tick(alu, bank, ls, c);
      assert ls[c'.pc..c'.pc + |p[1..]|] == ls[c.pc..c.pc + |p|][1..] == Ops(p[1..]);
      TicksOps(alu, bank, ls, p[1..], c');
    }
  }

  lemma {:induction false} LoopFront<V>(alu: Alu<V>, bank: seq<V>, body: seq<Instr>, n: nat, m: Lane<V>)
    requires IsLane(m) && Loads(body, |bank|, |m.s|) && n > 0
    ensures Loop(alu, bank, body, n, m) == Loop(alu, bank, body, n - 1, Exec(alu, bank, body, m))
  {
    if n > 1 { LoopFront(alu, bank, body, n - 1, m); }
  }

  /** The loop's trips: from the body's top with `left` trips owed, the machine reaches
      the line after ENDREP having run the body `left` times. */
  lemma {:induction false} TicksLoop<V>(alu: Alu<V>, bank: seq<V>, ls: seq<Line>, body: seq<Instr>, c: Control<V>)
    returns (n: nat)
    requires IsLane(c.m) && Loads(body, |bank|, |c.m.s|)
    requires c.left > 0 && c.pc == c.top && c.top + |body| < |ls|
    requires ls[c.top..c.top + |body|] == Ops(body) && ls[c.top + |body|] == Endrep
    ensures Ticks(alu, bank, ls, n, c)
         == Control(c.top + |body| + 1, 0, c.top, Loop(alu, bank, body, c.left, c.m))
    decreases c.left
  {
    TicksOps(alu, bank, ls, body, c);
    TicksOne(alu, bank, ls, |body|, c);
    LoopFront(alu, bank, body, c.left, c.m);
    var c2 := Ticks(alu, bank, ls, |body| + 1, c);
    if c.left > 1 {
      var rest := TicksLoop(alu, bank, ls, body, c2);
      TicksAdd(alu, bank, ls, |body| + 1, rest, c);
      n := |body| + 1 + rest;
    } else {
      n := |body| + 1;
    }
  }

  /** Where the parts of a listing lie. */
  lemma ListingParts(p: Program)
    ensures var ls, a, b := Listing(p), |p.pre|, |p.body|;
            && |ls| == a + b + |p.post| + 3
            && ls[0..a] == Ops(p.pre) && ls[a] == Repeat(p.trips)
            && ls[a + 1..a + 1 + b] == Ops(p.body) && ls[a + 1 + b] == Endrep
            && ls[a + b + 2..a + b + 2 + |p.post|] == Ops(p.post) && ls[a + b + 2 + |p.post|] == Halt
  {
  }

  lemma TicksOne<V>(alu: Alu<V>, bank: seq<V>, ls: seq<Line>, a: nat, c: Control<V>)
    requires IsLane(c.m)
    ensures Ticks(alu, bank, ls, a + 1, c) == Tick(alu, bank, ls, Ticks(alu, bank, ls, a, c))
  {
    TicksAdd(alu, bank, ls, a, 1, c);
    var c1 := Ticks(alu, bank, ls, a, c);
    assert Ticks(alu, bank, ls, 1, c1) == Ticks(alu, bank, ls, 0, Tick(alu, bank, ls, c1));
  }

  lemma ListingEnters<V>(alu: Alu<V>, bank: seq<V>, p: Program, m: Lane<V>)
    requires IsLane(m) && ProgramLoads(p, |bank|, |m.s|)
    ensures Ticks(alu, bank, Listing(p), |p.pre| + 1, Control(0, 0, 0, m))
         == Control(|p.pre| + 1, p.trips, |p.pre| + 1, Exec(alu, bank, p.pre, m))
  {
    ListingParts(p);
    TicksOps(alu, bank, Listing(p), p.pre, Control(0, 0, 0, m));
    TicksOne(alu, bank, Listing(p), |p.pre|, Control(0, 0, 0, m));
  }

  lemma ListingLoops<V>(alu: Alu<V>, bank: seq<V>, p: Program, m: Lane<V>) returns (n: nat)
    requires IsLane(m) && ProgramLoads(p, |bank|, |m.s|) && p.trips > 0
    ensures Ticks(alu, bank, Listing(p), n, Control(0, 0, 0, m))
         == Control(|p.pre| + |p.body| + 2, 0, |p.pre| + 1, Loop(alu, bank, p.body, p.trips, Exec(alu, bank, p.pre, m)))
  {
    ListingEnters(alu, bank, p, m);
    ListingParts(p);
    var c := Control(|p.pre| + 1, p.trips, |p.pre| + 1, Exec(alu, bank, p.pre, m));
    var k := TicksLoop(alu, bank, Listing(p), p.body, c);
    TicksAdd(alu, bank, Listing(p), |p.pre| + 1, k, Control(0, 0, 0, m));
    n := |p.pre| + 1 + k;
  }

  /** The machine's line-by-line control, run on a program's flat listing, halts in the
      state RunProgram gives: RunProgram is what the hardware's REPEAT and ENDREP do. */
  lemma ListingRuns<V>(alu: Alu<V>, bank: seq<V>, p: Program, m: Lane<V>) returns (n: nat)
    requires IsLane(m) && ProgramLoads(p, |bank|, |m.s|) && p.trips > 0
    ensures var c := Ticks(alu, bank, Listing(p), n, Control(0, 0, 0, m));
            c.pc < |Listing(p)| && Listing(p)[c.pc] == Halt && c.m == RunProgram(alu, bank, p, m)
  {
    var k := ListingLoops(alu, bank, p, m);
    var c := Ticks(alu, bank, Listing(p), k, Control(0, 0, 0, m));
    ListingParts(p);
    TicksOps(alu, bank, Listing(p), p.post, c);
    TicksAdd(alu, bank, Listing(p), k, |p.post|, Control(0, 0, 0, m));
    n := k + |p.post|;
  }

  /** A segment's run: registers at zero, the carried block in the first scratch slots
      and zero in the rest; what is carried out is the same block. */
  function Entry<V>(zero: V, block: seq<V>, depth: nat): (m: Lane<V>)
    requires |block| <= depth
    ensures IsLane(m) && |m.s| == depth && m.s[..|block|] == block
  {
    Lane(seq(REGS, j => zero), block + seq(depth - |block|, j => zero))
  }

  // ---- small scripts the generated code is made of --------------------------

  lemma Exec2<V>(alu: Alu<V>, bank: seq<V>, i: Instr, j: Instr, m: Lane<V>)
    requires IsLane(m) && Loads([i, j], |bank|, |m.s|)
    ensures Fits(i, |bank|, |m.s|) && Fits(j, |bank|, |m.s|)
    ensures Exec(alu, bank, [i, j], m) == Step(alu, bank, j, Step(alu, bank, i, m))
  {
    assert [i, j][0] == i && [i, j][1] == j;
    assert [i, j] == [i] + [j];
    ExecCons(alu, bank, i, [j], m);
    assert [j] == [j] + [];
    ExecCons(alu, bank, j, [], Step(alu, bank, i, m));
  }

  lemma Exec3<V>(alu: Alu<V>, bank: seq<V>, i: Instr, j: Instr, k: Instr, m: Lane<V>)
    requires IsLane(m) && Loads([i, j, k], |bank|, |m.s|)
    ensures Fits(i, |bank|, |m.s|) && Fits(j, |bank|, |m.s|) && Fits(k, |bank|, |m.s|)
    ensures Exec(alu, bank, [i, j, k], m) == Step(alu, bank, k, Step(alu, bank, j, Step(alu, bank, i, m)))
  {
    assert [i, j, k][0] == i && [i, j, k][1] == j && [i, j, k][2] == k;
    assert [i, j, k] == [i] + [j, k];
    ExecCons(alu, bank, i, [j, k], m);
    Exec2(alu, bank, j, k, Step(alu, bank, i, m));
  }
}
