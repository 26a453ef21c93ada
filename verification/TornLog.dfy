/** The metrics file: hw/card_stress_lib.py's append_record and read_records, and the
    driver's repair_tail (hw/card_stress.py).  A record's text is left abstract; what is
    asked of it is in Lawful. */
module TornLog {
  import opened Wrappers

  type Bytes = seq<nat>

  const NL: nat := 10

  /** Writing a record's line (without its newline) and reading one back. */
  datatype Codec<!R> = Codec(enc: R -> Bytes, dec: Bytes -> Option<R>)

  /** Python's bytes.strip() finds nothing left. */
  predicate Blank(b: Bytes) {
    forall i | 0 <= i < |b| :: b[i] in {9, 10, 11, 12, 13, 32}
  }

  /** An encoding is one line that does not begin with a blank, reads back as its record,
      and no proper prefix of it is a record - as an object in braces is. */
  ghost predicate Lawful<R(!new)>(c: Codec<R>) {
    forall r: R :: LawfulOn(c, r)
  }

  ghost predicate LawfulOn<R>(c: Codec<R>, r: R) {
    && NL !in c.enc(r) && c.enc(r) != [] && !Blank(c.enc(r)[..1])
    && c.dec(c.enc(r)) == Some(r)
    && forall n :: 0 <= n < |c.enc(r)| ==> c.dec(c.enc(r)[..n]) == None
  }

  /** What appending the records one by one writes. */
  ghost function Log<R>(c: Codec<R>, rs: seq<R>): Bytes {
    if rs == [] then [] else Log(c, rs[..|rs| - 1]) + c.enc(rs[|rs| - 1]) + [NL]
  }

  lemma {:induction false} LogConcat<R>(c: Codec<R>, rs: seq<R>, ts: seq<R>)
    ensures Log(c, rs + ts) == Log(c, rs) + Log(c, ts)
  {
    if ts == [] {
      assert rs + ts == rs;
    } else {
      var n := |ts| - 1;
      assert (rs + ts)[..|rs + ts| - 1] == rs + ts[..n];
      LogConcat(c, rs, ts[..n]);
    }
  }

  // ---- reading --------------------------------------------------------------

  /** Python's split at newlines: the lines before each newline, then the text after the
      last. */
  function Lines(data: Bytes): (ls: seq<Bytes>)
    ensures ls != []
  {
    if data == [] then [[]]
    else if data[0] == NL then [[]] + Lines(data[1..])
    else
      var rest := Lines(data[1..]);
      [[data[0]] + rest[0]] + rest[1..]
  }

  datatype Reading<R> = Reading(recs: seq<R>, partial: bool, bad: seq<nat>)

  /** The lines that end in a newline, n of them read before. */
  function ReadWhole<R>(c: Codec<R>, ls: seq<Bytes>, n: nat): (r: Reading<R>)
    ensures !r.partial
  {
    if ls == [] then Reading([], false, [])
    else
      var rest := ReadWhole(c, ls[1..], n + 1);
      if Blank(ls[0]) then rest
      else
        match c.dec(ls[0])
        case Some(r) => rest.(recs := [r] + rest.recs)
        case None => rest.(bad := [n + 1] + rest.bad)
  }

  /** read_records: the records, whether the last line was caught mid-append, and the
      numbers of the lines that do not parse. */
  function Read<R>(c: Codec<R>, data: Bytes): Reading<R> {
    var ls := Lines(data);
    var tail := ls[|ls| - 1];
    var w := ReadWhole(c, ls[..|ls| - 1], 0);
    if Blank(tail) then w
    else
      match c.dec(tail)
      case Some(r) => w.(recs := w.recs + [r])
      case None => w.(partial := true)
  }

  lemma ReadStep<R>(c: Codec<R>, ls: seq<Bytes>, i: nat)
    requires i < |ls|
    ensures ReadWhole(c, ls[i..], i)
         == var rest := ReadWhole(c, ls[i + 1..], i + 1);
            if Blank(ls[i]) then rest
            else if c.dec(ls[i]).Some? then rest.(recs := [c.dec(ls[i]).value] + rest.recs)
            else rest.(bad := [i + 1] + rest.bad)
  {
    assert ls[i..][1..] == ls[i + 1..];
  }

  lemma ReadNone<R>(c: Codec<R>, ls: seq<Bytes>, n: nat)
    requires ls == []
    ensures ReadWhole(c, ls, n) == Reading([], false, [])
  {
  }

  /** The loop itself. */
  method ReadRecords<R>(c: Codec<R>, data: Bytes) returns (r: Reading<R>)
    ensures r == Read(c, data)
  {
    hide ReadWhole, Lines, Blank;
    var ls := Lines(data);
    var tail := ls[|ls| - 1];
    var lines := ls[..|ls| - 1];
    var recs: seq<R> := [];
    var bad: seq<nat> := [];
    var partial := false;
    ghost var all := ReadWhole(c, lines, 0);
    assert lines[0..] == lines;
    for i := 0 to |lines|
      invariant all.recs == recs + ReadWhole(c, lines[i..], i).recs
      invariant all.bad == bad + ReadWhole(c, lines[i..], i).bad
    {
      ReadStep(c, lines, i);
      if !Blank(lines[i]) {
        match c.dec(lines[i])
        case Some(x) => recs := recs + [x];
        case None => bad := bad + [i + 1];
      }
    }
    ReadNone(c, lines[|lines|..], |lines|);
    if !Blank(tail) {
      match c.dec(tail)
      case Some(x) => recs := recs + [x];
      case None => partial := true;
    }
    r := Reading(recs, partial, bad);
  }

  lemma {:induction false} LinesJoin(a: Bytes, b: Bytes)
    requires NL !in a
    ensures Lines(a + [NL] + b) == [a] + Lines(b)
  {
    if a == [] {
      assert a + [NL] + b == [NL] + b;
      assert ([NL] + b)[1..] == b;
    } else {
      assert (a + [NL] + b)[1..] == a[1..] + [NL] + b;
      LinesJoin(a[1..], b);
      assert [a[0]] + a[1..] == a;
    }
  }

  lemma {:induction false} LinesOne(a: Bytes)
    requires NL !in a
    ensures Lines(a) == [a]
  {
    if a != [] {
      LinesOne(a[1..]);
      assert [a[0]] + a[1..] == a;
    }
  }

  lemma {:induction false} ReadWholeConcat<R>(c: Codec<R>, a: seq<Bytes>, b: seq<Bytes>, n: nat)
    ensures var ra, rb := ReadWhole(c, a, n), ReadWhole(c, b, n + |a|);
            ReadWhole(c, a + b, n) == Reading(ra.recs + rb.recs, false, ra.bad + rb.bad)
  {
    if a == [] {
      assert a + b == b;
    } else {
      assert (a + b)[1..] == a[1..] + b;
      ReadWholeConcat(c, a[1..], b, n + 1);
    }
  }

  /** A log's lines are its records' lines and an empty tail before whatever follows. */
  ghost function Encs<R>(c: Codec<R>, rs: seq<R>): seq<Bytes> {
    if rs == [] then [] else Encs(c, rs[..|rs| - 1]) + [c.enc(rs[|rs| - 1])]
  }

  lemma {:induction false} LogLines<R(!new)>(c: Codec<R>, rs: seq<R>, tail: Bytes)
    requires Lawful(c)
    ensures Lines(Log(c, rs) + tail) == Encs(c, rs) + Lines(tail)
    decreases |rs|
  {
    if rs == [] {
      assert Log(c, rs) + tail == tail;
    } else {
      var n := |rs| - 1;
      var e := c.enc(rs[n]);
      assert LawfulOn(c, rs[n]);
      assert Log(c, rs) + tail == Log(c, rs[..n]) + (e + [NL] + tail);
      LogLines(c, rs[..n], e + [NL] + tail);
      LinesJoin(e, tail);
    }
  }

  lemma NotBlank<R>(c: Codec<R>, r: R, n: nat)
    requires LawfulOn(c, r) && 0 < n <= |c.enc(r)|
    ensures !Blank(c.enc(r)[..n])
  {
    assert c.enc(r)[..n][0] == c.enc(r)[..1][0];
  }

  lemma {:induction false} EncsRead<R(!new)>(c: Codec<R>, rs: seq<R>, n: nat)
    requires Lawful(c)
    ensures ReadWhole(c, Encs(c, rs), n) == Reading(rs, false, [])
  {
    if rs != [] {
      var k := |rs| - 1;
      EncsRead(c, rs[..k], n);
      assert LawfulOn(c, rs[k]);
      NotBlank(c, rs[k], |c.enc(rs[k])|);
      assert c.enc(rs[k])[..|c.enc(rs[k])|] == c.enc(rs[k]);
      assert [c.enc(rs[k])][1..] == [];
      ReadWholeConcat(c, Encs(c, rs[..k]), [c.enc(rs[k])], n);
    }
  }

  /** Round trip: what was appended reads back in order, no bad line, no partial tail. */
  lemma ReadLog<R(!new)>(c: Codec<R>, rs: seq<R>)
    requires Lawful(c)
    ensures Read(c, Log(c, rs)) == Reading(rs, false, [])
  {
    assert Log(c, rs) + [] == Log(c, rs);
    LogLines(c, rs, []);
    assert Lines([]) == [[]];
    EncsRead(c, rs, 0);
    assert (Encs(c, rs) + [[]])[..|Encs(c, rs)|] == Encs(c, rs);
  }

  /** Caught mid-append: the part of a record that reached the file is reported, or read
      when it is all there. */
  lemma ReadTorn<R(!new)>(c: Codec<R>, rs: seq<R>, r: R, n: nat)
    requires Lawful(c) && 0 < n <= |c.enc(r)|
    ensures Read(c, Log(c, rs) + c.enc(r)[..n])
         == if n < |c.enc(r)| then Reading(rs, true, []) else Reading(rs + [r], false, [])
  {
    var t := c.enc(r)[..n];
    assert LawfulOn(c, r);
    NotBlank(c, r, n);
    LogLines(c, rs, t);
    LinesOne(t);
    EncsRead(c, rs, 0);
    assert (Encs(c, rs) + [t])[..|Encs(c, rs)|] == Encs(c, rs);
    if n == |c.enc(r)| { assert t == c.enc(r); }
  }

  // ---- repairing ------------------------------------------------------------

  /** One past the last newline (Python's rfind + 1). */
  function CutAt(data: Bytes): (n: nat)
    ensures n <= |data| && NL !in data[n..] && (n > 0 ==> data[n - 1] == NL)
  {
    if data == [] then 0
    else if data[|data| - 1] == NL then |data|
    else
      var n := CutAt(data[..|data| - 1]);
      assert data[n..] == data[..|data| - 1][n..] + [data[|data| - 1]];
      n
  }

  /** repair_tail: a last line with no newline gets one when it is a whole record, and is
      otherwise set aside and cut off. */
  method RepairTail<R>(c: Codec<R>, data: Bytes) returns (repaired: Bytes, torn: Option<Bytes>)
    ensures repaired == Repaired(c, data)
    ensures torn.Some? <==> data != [] && data[|data| - 1] != NL && c.dec(data[CutAt(data)..]).None?
    ensures torn.Some? ==> repaired + torn.value == data
  {
    if data == [] || data[|data| - 1] == NL {
      return data, None;
    }
    var cut := CutAt(data);
    var tail := data[cut..];
    if c.dec(tail).Some? {
      return data + [NL], None;
    }
    return data[..cut], Some(tail);
  }

  function Repaired<R>(c: Codec<R>, data: Bytes): Bytes {
    if data == [] || data[|data| - 1] == NL then data
    else
      var cut := CutAt(data);
      if c.dec(data[cut..]).Some? then data + [NL] else data[..cut]
  }

  lemma {:induction false} CutUnique(a: Bytes, t: Bytes)
    requires (a == [] || a[|a| - 1] == NL) && NL !in t
    ensures CutAt(a + t) == |a|
  {
    if t == [] {
      assert a + t == a;
    } else {
      var k := |t| - 1;
      assert (a + t)[|a + t| - 1] == t[k] && (a + t)[..|a + t| - 1] == a + t[..k];
      CutUnique(a, t[..k]);
    }
  }

  /** The number of records whose whole line, newline apart, is within p bytes of a log. */
  ghost function Whole<R>(c: Codec<R>, rs: seq<R>, p: nat): (k: nat)
    ensures k <= |rs|
  {
    if rs == [] then 0
    else if |Log(c, rs)| <= p + 1 then |rs|
    else Whole(c, rs[..|rs| - 1], p)
  }

  /** A log with part of one more line behind it. */
  lemma RepairsTorn<R(!new)>(c: Codec<R>, rs: seq<R>, r: R, n: nat)
    requires Lawful(c) && n <= |c.enc(r)| + 1
    ensures Repaired(c, Log(c, rs) + (c.enc(r) + [NL])[..n])
         == if n >= |c.enc(r)| then Log(c, rs) + (c.enc(r) + [NL]) else Log(c, rs)
  {
    hide Log, Lawful, Blank, CutAt;
    var a, e := Log(c, rs), c.enc(r);
    var t := (e + [NL])[..n];
    LawfulHas(c, r);
    LogEnds(c, rs);
    if n == |e| + 1 {
      assert t == e + [NL];
    } else if n > 0 {
      assert t == e[..n] && t[n - 1] == e[n - 1];
      CutUnique(a, t);
      assert (a + t)[|a|..] == t && (a + t)[..|a|] == a;
      if n == |e| { assert t == e && a + t + [NL] == a + (e + [NL]); }
    } else {
      assert a + t == a;
    }
  }

  /** Torn-log recovery: of any prefix of a log, repair_tail leaves exactly the records
      that were whole in it - a whole unterminated last one included - each with its
      newline. */
  lemma {:induction false} Recovers<R(!new)>(c: Codec<R>, rs: seq<R>, p: nat)
    requires Lawful(c) && p <= |Log(c, rs)|
    ensures Repaired(c, Log(c, rs)[..p]) == Log(c, rs[..Whole(c, rs, p)])
  {
    hide Repaired;
    if rs == [] {
      RepairedNone(c);
    } else {
      var k := |rs| - 1;
      var a, line := Log(c, rs[..k]), c.enc(rs[k]) + [NL];
      LogSnoc(c, rs);
      assert rs[..|rs|] == rs;
      if p < |a| {
        assert Log(c, rs)[..p] == a[..p];
        Recovers(c, rs[..k], p);
        assert rs[..k][..Whole(c, rs[..k], p)] == rs[..Whole(c, rs[..k], p)];
      } else {
        var n := p - |a|;
        assert Log(c, rs)[..p] == a + line[..n];
        RepairsTorn(c, rs[..k], rs[k], n);
        WholeBefore(c, rs[..k], p);
        assert rs[..k][..k] == rs[..k];
      }
    }
  }

  lemma RepairedNone<R>(c: Codec<R>)
    ensures Repaired(c, []) == []
  {
  }

  lemma LogSnoc<R>(c: Codec<R>, rs: seq<R>)
    requires rs != []
    ensures Log(c, rs) == Log(c, rs[..|rs| - 1]) + (c.enc(rs[|rs| - 1]) + [NL])
  {
  }

  lemma LogEnds<R>(c: Codec<R>, rs: seq<R>)
    ensures Log(c, rs) == [] || Log(c, rs)[|Log(c, rs)| - 1] == NL
  {
  }

  lemma WholeBefore<R>(c: Codec<R>, rs: seq<R>, p: nat)
    requires |Log(c, rs)| <= p + 1
    ensures Whole(c, rs, p) == |rs|
  {
  }

  /** And whatever is appended after the repair reads back behind them, in order, with no
      bad line and no partial tail. */
  lemma RecoversAndContinues<R(!new)>(c: Codec<R>, rs: seq<R>, p: nat, more: seq<R>)
    requires Lawful(c) && p <= |Log(c, rs)|
    ensures Read(c, Repaired(c, Log(c, rs)[..p]) + Log(c, more))
         == Reading(rs[..Whole(c, rs, p)] + more, false, [])
  {
    Recovers(c, rs, p);
    LogConcat(c, rs[..Whole(c, rs, p)], more);
    ReadLog(c, rs[..Whole(c, rs, p)] + more);
  }

  // ---- any number of crashes ------------------------------------------------

  /** A life of the file: a record appended, or a write of one cut short after n bytes of
      its line and newline, and the file repaired before it is used again. */
  datatype Event<R> = Append(r: R) | Crash(r: R, n: nat)

  ghost function File<R>(c: Codec<R>, es: seq<Event<R>>): Bytes {
    if es == [] then []
    else
      var was := File(c, es[..|es| - 1]);
      match es[|es| - 1]
      case Append(r) => was + (c.enc(r) + [NL])
      case Crash(r, n) =>
        var line := c.enc(r) + [NL];
        Repaired(c, was + if n < |line| then line[..n] else line)
  }

  /** The records that survive: all appended, and of the cut ones those whose whole line
      but the newline was written. */
  ghost function Kept<R>(c: Codec<R>, es: seq<Event<R>>): seq<R> {
    if es == [] then []
    else
      var was := Kept(c, es[..|es| - 1]);
      match es[|es| - 1]
      case Append(r) => was + [r]
      case Crash(r, n) => if n >= |c.enc(r)| then was + [r] else was
  }

  /** However often the writer dies, nothing written whole is lost and every record the
      file holds reads back. */
  lemma {:induction false} CrashesLoseOnlyTheTorn<R(!new)>(c: Codec<R>, es: seq<Event<R>>)
    requires Lawful(c)
    ensures File(c, es) == Log(c, Kept(c, es))
    ensures Read(c, File(c, es)) == Reading(Kept(c, es), false, [])
  {
    hide Repaired, Read;
    ReadLog(c, Kept(c, es));
    if es != [] {
      var k := |es| - 1;
      CrashesLoseOnlyTheTorn(c, es[..k]);
      var kept, r := Kept(c, es[..k]), es[k].r;
      LogSnoc(c, kept + [r]);
      assert (kept + [r])[..|kept|] == kept;
      if es[k].Crash? {
        var line := c.enc(r) + [NL];
        var m := if es[k].n < |line| then es[k].n else |line|;
        assert line[..|line|] == line;
        RepairsTorn(c, kept, r, m);
      }
    }
  }

  /** Only a restart repairs.  A short write in a run that goes on appending joins the next
      record to the torn one: the line of both is one bad line or some other record, and
      the record that was written whole is lost too; those behind it read back. */
  lemma ShortWriteFuses<R(!new)>(c: Codec<R>, rs: seq<R>, r: R, n: nat, next: R, more: seq<R>)
    requires Lawful(c) && 0 < n <= |c.enc(r)|
    ensures var fused := c.enc(r)[..n] + c.enc(next);
            Read(c, Log(c, rs) + c.enc(r)[..n] + Log(c, [next] + more))
              == match c.dec(fused)
                 case Some(x) => Reading(rs + [x] + more, false, [])
                 case None => Reading(rs + more, false, [|rs| + 1])
  {
    hide Lines, Log, Encs, Lawful, ReadWhole;
    FusedLines(c, rs, r, n, next, more);
    FusedRead(c, rs, r, n, next, more);
    var fused := c.enc(r)[..n] + c.enc(next);
    var ls := Encs(c, rs) + ([fused] + Encs(c, more));
    assert (ls + [[]])[..|ls|] == ls;
  }

  lemma FusedLines<R(!new)>(c: Codec<R>, rs: seq<R>, r: R, n: nat, next: R, more: seq<R>)
    requires Lawful(c) && 0 < n <= |c.enc(r)|
    ensures var fused := c.enc(r)[..n] + c.enc(next);
            Lines(Log(c, rs) + c.enc(r)[..n] + Log(c, [next] + more)) == Encs(c, rs) + ([fused] + Encs(c, more)) + [[]]
  {
    hide Lines, Lawful, LawfulOn, Encs, Log;
    var t, fused, rest := c.enc(r)[..n], c.enc(r)[..n] + c.enc(next), Log(c, more);
    NoNewline(c, r);
    NoNewline(c, next);
    LogConcat(c, [next], more);
    OneLog(c, next);
    assert Log(c, rs) + t + Log(c, [next] + more) == Log(c, rs) + (fused + [NL] + rest);
    LogLines(c, rs, fused + [NL] + rest);
    LinesJoin(fused, rest);
    assert rest + [] == rest;
    LogLines(c, more, []);
    LinesOne([]);
    assert Encs(c, rs) + ([fused] + (Encs(c, more) + [[]])) == Encs(c, rs) + ([fused] + Encs(c, more)) + [[]];
  }

  lemma OneLog<R>(c: Codec<R>, r: R)
    ensures Log(c, [r]) == c.enc(r) + [NL]
  {
    assert [r][..0] == [];
  }

  lemma NoNewline<R(!new)>(c: Codec<R>, r: R)
    requires Lawful(c)
    ensures NL !in c.enc(r)
  {
    assert LawfulOn(c, r);
  }

  lemma {:induction false} EncsSize<R>(c: Codec<R>, rs: seq<R>)
    ensures |Encs(c, rs)| == |rs|
  {
    if rs != [] { EncsSize(c, rs[..|rs| - 1]); }
  }

  lemma FusedRead<R(!new)>(c: Codec<R>, rs: seq<R>, r: R, n: nat, next: R, more: seq<R>)
    requires Lawful(c) && 0 < n <= |c.enc(r)|
    ensures var fused := c.enc(r)[..n] + c.enc(next);
            ReadWhole(c, Encs(c, rs) + ([fused] + Encs(c, more)), 0)
              == match c.dec(fused)
                 case Some(x) => Reading(rs + [x] + more, false, [])
                 case None => Reading(rs + more, false, [|rs| + 1])
  {
    hide Blank, Lawful, LawfulOn, Encs, ReadWhole;
    var fused, tail := c.enc(r)[..n] + c.enc(next), Encs(c, more);
    EncsSize(c, rs);
    ReadWholeConcat(c, Encs(c, rs), [fused] + tail, 0);
    EncsRead(c, rs, 0);
    EncsRead(c, more, |rs| + 1);
    NotBlank(c, r, n) by { LawfulHas(c, r); }
    BlankPrefix(c.enc(r)[..n], c.enc(next));
    ReadOne(c, fused, tail, |rs|);
    if c.dec(fused).Some? { assert rs + ([c.dec(fused).value] + more) == rs + [c.dec(fused).value] + more; }
  }

  lemma LawfulHas<R(!new)>(c: Codec<R>, r: R)
    requires Lawful(c)
    ensures LawfulOn(c, r)
  {
  }

  lemma ReadOne<R>(c: Codec<R>, l: Bytes, ls: seq<Bytes>, n: nat)
    requires !Blank(l)
    ensures var rest := ReadWhole(c, ls, n + 1);
            ReadWhole(c, [l] + ls, n)
              == if c.dec(l).Some? then rest.(recs := [c.dec(l).value] + rest.recs)
                 else rest.(bad := [n + 1] + rest.bad)
  {
    assert ([l] + ls)[1..] == ls;
  }

  lemma BlankPrefix(a: Bytes, b: Bytes)
    ensures Blank(a + b) ==> Blank(a)
  {
    assert forall i | 0 <= i < |a| :: (a + b)[i] == a[i];
  }
}
