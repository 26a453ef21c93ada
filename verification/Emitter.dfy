/** Stage vectors' arithmetic, and the buffer the generators append their lines to. */
module StageVectors {
  import opened Sequencer

  /** h*k + y, component by component. */
  function Axpy<V>(alu: Alu<V>, h: V, k: seq<V>, y: seq<V>): (z: seq<V>)
    requires |k| == |y|
    ensures |z| == |y|
  {
    seq(|y|, i requires 0 <= i < |y| => alu.fma(h, k[i], y[i]))
  }

  function Plus<V>(alu: Alu<V>, a: seq<V>, b: seq<V>): (z: seq<V>)
    requires |a| == |b|
    ensures |z| == |a|
  {
    seq(|a|, i requires 0 <= i < |a| => alu.add(a[i], b[i]))
  }
}

module Emitter {
  import opened Sequencer

  lemma OpsConcat(p: seq<Instr>, q: seq<Instr>)
    ensures Ops(p + q) == Ops(p) + Ops(q)
  {
  }

  /** The generator's line buffer. */
  class Src {
    var lines: seq<Line>

    constructor ()
      ensures lines == []
    {
      lines := [];
    }

    /** Instruction lines, in order. */
    method Code(p: seq<Instr>)
      modifies this
      ensures lines == old(lines) + Ops(p)
    {
      lines := lines + Ops(p);
    }

    /** One control line. */
    method Control(l: Line)
      modifies this
      ensures lines == old(lines) + [l]
    {
      lines := lines + [l];
    }
  }
}
