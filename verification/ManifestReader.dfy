/** certificates/corpus.py's reader and writer as they run: a cursor over the lines, loops
    that take them one at a time, and a list of lines that grows. */
module ManifestReader {
  import opened Wrappers
  import opened Text
  import opened Order
  import opened Grammar
  import opened Manifest
  import opened ManifestRoundTrip
  import opened ManifestFile

  /** take's check on a line: printable ASCII tokens separated by single spaces. */
  predicate Clean(raw: string) {
    && !StartsWith(raw, " ") && (raw != "" ==> raw[|raw| - 1] != ' ')
    && (forall i | 0 <= i < |raw| - 1 :: !(raw[i] == ' ' && raw[i + 1] == ' '))
    && forall i | 0 <= i < |raw| :: ' ' <= raw[i] <= '~'
  }

  /** It is that every token split off is a printable word. */
  lemma {:induction false} CleanIs(raw: string)
    requires raw != ""
    ensures Clean(raw) <==> AllPrintable(Split(' ', raw))
  {
    var rest := raw[1..];
    if raw[0] == ' ' {
      assert StartsWith(raw, " ");
      assert !Printable(Split(' ', raw)[0]);
    } else if rest == "" {
      assert Split(' ', rest) == [[]] && [raw[0]] + [] == [raw[0]];
      assert Split(' ', raw) == [[raw[0]]];
      PrintableOne(raw[0]);
      PrintableCons([raw[0]], []);
      assert [[raw[0]]] + [] == [[raw[0]]] && raw[..1][0] == raw[0] && " "[0] == ' ';
    } else if rest[0] == ' ' {
      var more := rest[1..];
      assert Split(' ', rest) == [[]] + Split(' ', more);
      assert [raw[0]] + [] == [raw[0]];
      assert Split(' ', raw) == [[raw[0]]] + Split(' ', more);
      PrintableOne(raw[0]);
      assert raw == [raw[0], ' '] + more;
      if more == "" {
        assert raw[|raw| - 1] == ' ';
        assert Split(' ', raw)[1] == "";
      } else {
        CleanIs(more);
        CleanAfter(raw, more);
        PrintableCons([raw[0]], Split(' ', more));
      }
    } else {
      CleanIs(rest);
      CleanNext(raw);
      var ps := Split(' ', rest);
      assert ps[0] != "" by { assert Split(' ', rest)[0] == [rest[0]] + Split(' ', rest[1..])[0]; }
      PrintablePrefix(raw[0], ps);
    }
  }

  lemma CleanAfter(raw: string, more: string)
    requires more != "" && |raw| >= 2 && raw == [raw[0], ' '] + more && raw[0] != ' '
    ensures Clean(raw) <==> '!' <= raw[0] <= '~' && Clean(more)
  {
    assert forall i | 0 <= i < |more| :: raw[i + 2] == more[i];
    if Clean(raw) {
      assert !(raw[1] == ' ' && raw[2] == ' ');
      forall i | 0 <= i < |more| - 1
        ensures !(more[i] == ' ' && more[i + 1] == ' ')
      {
        assert !(raw[i + 2] == ' ' && raw[i + 2 + 1] == ' ');
      }
    }
    if '!' <= raw[0] <= '~' && Clean(more) {
      assert more[0] != ' ';
      forall i | 0 <= i < |raw| - 1
        ensures !(raw[i] == ' ' && raw[i + 1] == ' ')
      {
        if i >= 2 { assert !(more[i - 2] == ' ' && more[i - 2 + 1] == ' '); }
      }
      forall i | 0 <= i < |raw|
        ensures ' ' <= raw[i] <= '~'
      {
        if i >= 2 { assert raw[i] == more[i - 2]; }
      }
    }
  }

  lemma CleanNext(raw: string)
    requires |raw| >= 2 && raw[0] != ' ' && raw[1] != ' '
    ensures Clean(raw) <==> '!' <= raw[0] <= '~' && Clean(raw[1..])
  {
    var rest := raw[1..];
    assert forall i | 0 <= i < |rest| :: raw[i + 1] == rest[i];
    if Clean(raw) {
      forall i | 0 <= i < |rest| - 1
        ensures !(rest[i] == ' ' && rest[i + 1] == ' ')
      {
        assert !(raw[i + 1] == ' ' && raw[i + 1 + 1] == ' ');
      }
    }
    if '!' <= raw[0] <= '~' && Clean(rest) {
      forall i | 0 <= i < |raw| - 1
        ensures !(raw[i] == ' ' && raw[i + 1] == ' ')
      {
        if i >= 1 { assert !(rest[i - 1] == ' ' && rest[i - 1 + 1] == ' '); }
      }
      forall i | 0 <= i < |raw|
        ensures ' ' <= raw[i] <= '~'
      {
        if i >= 1 { assert raw[i] == rest[i - 1]; }
      }
    }
  }

  lemma PrintableCons(t: string, ts: Tokens)
    ensures AllPrintable([t] + ts) <==> Printable(t) && AllPrintable(ts)
  {
    var all := [t] + ts;
    assert all[0] == t && forall i | 0 <= i < |ts| :: all[i + 1] == ts[i];
    if AllPrintable(all) {
      forall i | 0 <= i < |ts|
        ensures Printable(ts[i])
      {
        assert Printable(all[i + 1]);
      }
    }
  }

  lemma PrintablePrefix(c: char, ps: Tokens)
    requires ps != [] && ps[0] != ""
    ensures AllPrintable([[c] + ps[0]] + ps[1..]) <==> '!' <= c <= '~' && AllPrintable(ps)
  {
    hide Printable;
    PrintableCons([c] + ps[0], ps[1..]);
    PrintableCons(ps[0], ps[1..]);
    assert [ps[0]] + ps[1..] == ps;
    PrintableChar(c, ps[0]);
  }

  lemma PrintableChar(c: char, t: string)
    requires t != ""
    ensures Printable([c] + t) <==> '!' <= c <= '~' && Printable(t)
  {
    var all := [c] + t;
    assert all[0] == c && forall i | 0 <= i < |t| :: all[i + 1] == t[i];
    if Printable(all) {
      forall i | 0 <= i < |t|
        ensures '!' <= t[i] <= '~'
      {
        assert '!' <= all[i + 1] <= '~';
      }
    }
  }

  lemma PrintableOne(c: char)
    ensures Printable([c]) <==> '!' <= c <= '~'
  {
    assert [c][0] == c;
  }

  // ---- the lines ------------------------------------------------------------

  lemma NotBlank(raw: string)
    ensures !Passed(raw) ==> raw != ""
  {
  }

  lemma RowsNext(lines: seq<string>, n: nat, at: nat, rows: seq<Row>)
    requires n < |lines|
    ensures rows + RowsFrom(lines[n..], at)
         == (if Passed(lines[n]) then rows else rows + [Row(at, Split(' ', lines[n]))])
            + RowsFrom(lines[n + 1..], at + 1)
  {
    assert lines[n..][1..] == lines[n + 1..];
    assert rows + ([] + RowsFrom(lines[n + 1..], at + 1)) == rows + RowsFrom(lines[n + 1..], at + 1);
  }

  function RowOf(raw: (nat, string)): Row { Row(raw.0, Split(' ', raw.1)) }

  class Lines {
    const raws: seq<(nat, string)>
    var i: nat
    var last: nat

    /** The lines that are no comment and not blank, numbered from 1. */
    constructor (text: string)
      ensures Valid() && i == 0 && Rows() == RowsOf(text)
    {
      hide Split, Passed;
      var lines := Split('\n', text);
      var out: seq<(nat, string)> := [];
      ghost var rows: seq<Row> := [];
      for n := 0 to |lines|
        invariant rows + RowsFrom(lines[n..], n + 1) == RowsOf(text)
        invariant |rows| == |out| && forall j | 0 <= j < |out| :: rows[j] == RowOf(out[j]) && out[j].1 != ""
      {
        RowsNext(lines, n, n + 1, rows);
        var raw := lines[n];
        NotBlank(raw);
        if !Passed(raw) {
          out := out + [(n + 1, raw)];
          rows := rows + [RowOf((n + 1, raw))];
        }
      }
      assert lines[|lines|..] == [];
      raws, i, last := out, 0, 0;
      new;
      assert Rows() == rows;
    }

    ghost function Rows(): (rs: seq<Row>)
      ensures |rs| == |raws| && forall j | 0 <= j < |raws| :: rs[j] == RowOf(raws[j])
    {
      seq(|raws|, j requires 0 <= j < |raws| => RowOf(raws[j]))
    }

    ghost predicate Valid()
      reads this
    {
      i <= |raws| && last == Last(Rows(), i) && forall j | 0 <= j < |raws| :: raws[j].1 != ""
    }

    predicate AtEnd()
      reads this
    {
      i >= |raws|
    }

    /** peek() == word */
    method Sees(word: string) returns (b: bool)
      requires Valid()
      ensures b == Peeks(Rows(), i, word)
    {
      b := i < |raws| && Split(' ', raws[i].1)[0] == word;
    }

    /** take: the line's number and the tokens after its key. */
    method Take(k: Key) returns (r: Res<Tokens>)
      requires Valid()
      modifies this`i, this`last
      ensures r.Got? ==> Valid() && i == r.next == old(i) + 1 && old(i) < |Rows()| && AllPrintable(Rows()[old(i)].tok)
                         && Rows()[old(i)].tok == [Keyword(k)] + r.value
      ensures r.Bad? ==> r.line == (if old(i) == |Rows()| then Last(Rows(), old(i)) else Rows()[old(i)].n)
                         && (old(i) < |Rows()| ==>
                               !AllPrintable(Rows()[old(i)].tok) || Rows()[old(i)].tok[0] != Keyword(k))
    {
      if i >= |raws| { return Bad(last); }
      var (n, raw) := raws[i];
      last := n;
      CleanIs(raw);
      if !Clean(raw) { return Bad(n); }
      var tok := Split(' ', raw);
      if tok[0] != Keyword(k) { return Bad(n); }
      i := i + 1;
      assert tok == [tok[0]] + tok[1..];
      return Got(tok[1..], i);
    }

    /** A line of this key: taken, and what it says checked. */
    method Read(k: Key) returns (r: Res<Line>)
      requires Valid()
      modifies this`i, this`last
      ensures r == Expect(Rows(), old(i), k)
      ensures r.Got? ==> Valid() && i == r.next
    {
      hide Keyword, AllPrintable, Grammar.Read;
      var t := Take(k);
      if t.Bad? { return Bad(t.line); }
      var l := Grammar.Read(k, t.value);
      if l.None? { return Bad(last); }
      return Got(l.value, i);
    }
  }

  // ---- lists taken one line at a time ---------------------------------------

  function Prepend<T>(a: seq<T>, r: Res<seq<T>>): Res<seq<T>> {
    match r
    case Bad(n) => Bad(n)
    case Got(b, j) => Got(a + b, j)
  }

  lemma PrependOne<T>(a: seq<T>, x: T, r: Res<seq<T>>)
    ensures Prepend(a, Prepend([x], r)) == Prepend(a + [x], r)
  {
    if r.Got? { assert a + ([x] + r.value) == a + [x] + r.value; }
  }

  lemma PrependNone<T>(r: Res<seq<T>>)
    ensures Prepend([], r) == r
  {
    if r.Got? { assert [] + r.value == r.value; }
  }

  lemma PrependLast<T>(a: seq<T>, j: nat)
    ensures Prepend(a, Got([], j)) == Got(a, j)
  {
    assert a + [] == a;
  }

  method ReadAll(L: Lines, ks: seq<Key>) returns (r: Res<seq<Line>>)
    requires L.Valid()
    modifies L`i, L`last
    ensures r == ExpectAll(L.Rows(), old(L.i), ks)
    ensures r.Got? ==> L.Valid() && L.i == r.next
  {
    hide Expect, LineOk;
    var out: seq<Line> := [];
    PrependNone(ExpectAll(L.Rows(), L.i, ks));
    for t := 0 to |ks|
      invariant L.Valid() && Prepend(out, ExpectAll(L.Rows(), L.i, ks[t..])) == ExpectAll(L.Rows(), old(L.i), ks)
    {
      ghost var from := L.i;
      assert ks[t..] == [ks[t]] + ks[t + 1..];
      var l := L.Read(ks[t]);
      if l.Bad? { return Bad(l.line); }
      PrependOne(out, l.value, ExpectAll(L.Rows(), L.i, ks[t + 1..]));
      out := out + [l.value];
    }
    assert ks[|ks|..] == [];
    PrependLast(out, L.i);
    return Got(out, L.i);
  }

  method ReadParameters(L: Lines, count: nat) returns (r: Res<seq<(string, nat)>>)
    requires L.Valid()
    modifies L`i, L`last
    ensures r == ParamsAt(L.Rows(), old(L.i), count)
    ensures r.Got? ==> L.Valid() && L.i == r.next
  {
    hide Expect, LineOk;
    var params: seq<(string, nat)> := [];
    PrependNone(ParamsAt(L.Rows(), L.i, count));
    for t := 0 to count
      invariant L.Valid() && Prepend(params, ParamsAt(L.Rows(), L.i, count - t)) == ParamsAt(L.Rows(), old(L.i), count)
    {
      ghost var from := L.i;
      var l := L.Read(KParameter);
      if l.Bad? { return Bad(l.line); }
      ExpectGot(L.Rows(), from, KParameter);
      OtherForm(l.value);
      PrependOne(params, (l.value.name, l.value.v), ParamsAt(L.Rows(), L.i, count - t - 1));
      params := params + [(l.value.name, l.value.v)];
    }
    PrependLast(params, L.i);
    return Got(params, L.i);
  }

  method ReadBoundaries(L: Lines, segments: nat) returns (r: Res<seq<string>>)
    requires L.Valid()
    modifies L`i, L`last
    ensures r == BoundsAt(L.Rows(), old(L.i), 0, segments + 1)
    ensures r.Got? ==> L.Valid() && L.i == r.next
  {
    hide Expect, LineOk;
    var bounds: seq<string> := [];
    PrependNone(BoundsAt(L.Rows(), L.i, 0, segments + 1));
    for b := 0 to segments + 1
      invariant L.Valid() && Prepend(bounds, BoundsAt(L.Rows(), L.i, b, segments + 1 - b))
             == BoundsAt(L.Rows(), old(L.i), 0, segments + 1)
    {
      ghost var from := L.i;
      var l := L.Read(KBoundary);
      if l.Bad? { return Bad(l.line); }
      ExpectGot(L.Rows(), from, KBoundary);
      if l.value.i != b { return Bad(L.last); }
      PrependOne(bounds, l.value.sha, BoundsAt(L.Rows(), L.i, b + 1, segments + 1 - b - 1));
      bounds := bounds + [l.value.sha];
    }
    PrependLast(bounds, L.i);
    return Got(bounds, L.i);
  }

  method ReadBlocks(L: Lines) returns (r: Res<seq<string>>)
    requires L.Valid()
    modifies L`i, L`last
    ensures r == BlocksAt(L.Rows(), old(L.i), 0)
    ensures r.Got? ==> L.Valid() && L.i == r.next
  {
    hide Expect, LineOk, Keyword, AllPrintable;
    var blocks: seq<string> := [];
    PrependNone(BlocksAt(L.Rows(), L.i, 0));
    var more := L.Sees(Keyword(KBlock));
    while more
      invariant L.Valid() && more == Peeks(L.Rows(), L.i, Keyword(KBlock))
      invariant Prepend(blocks, BlocksAt(L.Rows(), L.i, |blocks|)) == BlocksAt(L.Rows(), old(L.i), 0)
      decreases |L.Rows()| - L.i
    {
      ghost var from := L.i;
      var l := L.Read(KBlock);
      if l.Bad? { return Bad(l.line); }
      ExpectGot(L.Rows(), from, KBlock);
      if l.value.i != |blocks| { return Bad(L.last); }
      PrependOne(blocks, l.value.sha, BlocksAt(L.Rows(), L.i, |blocks| + 1));
      blocks := blocks + [l.value.sha];
      more := L.Sees(Keyword(KBlock));
    }
    PrependLast(blocks, L.i);
    return Got(blocks, L.i);
  }

  /** One raw line, and the rest. */
  lemma RawsNext(rows: seq<Row>, i: nat, segments: nat, above: nat)
    requires i <= |rows|
    ensures var l := Expect(rows, i, KRaw);
            RawsAt(rows, i, segments, above)
              == if !Peeks(rows, i, Keyword(KRaw)) then Got([], i)
                 else if l.Bad? then Bad(l.line)
                 else if !l.value.Raw? || l.value.i >= segments || l.value.i < above then Bad(rows[i].n)
                 else Prepend([(l.value.i, l.value.sha, l.value.flags)], RawsAt(rows, i + 1, segments, l.value.i + 1))
  {
    hide Expect, Keyword;
  }

  method ReadRaws(L: Lines, segments: nat) returns (r: Res<seq<(nat, string, string)>>)
    requires L.Valid()
    modifies L`i, L`last
    ensures r == RawsAt(L.Rows(), old(L.i), segments, 0)
    ensures r.Got? ==> L.Valid() && L.i == r.next
  {
    hide Expect, LineOk, Keyword, RawsAt, KeyOf, Formed;
    var raws: seq<(nat, string, string)> := [];
    PrependNone(RawsAt(L.Rows(), L.i, segments, 0));
    var above := 0;
    var more := L.Sees(Keyword(KRaw));
    while more
      invariant L.Valid() && more == Peeks(L.Rows(), L.i, Keyword(KRaw))
      invariant above == if raws == [] then 0 else raws[|raws| - 1].0 + 1
      invariant Prepend(raws, RawsAt(L.Rows(), L.i, segments, above)) == RawsAt(L.Rows(), old(L.i), segments, 0)
      decreases |L.Rows()| - L.i
    {
      RawsNext(L.Rows(), L.i, segments, above);
      var l := L.Read(KRaw);
      if l.Bad? { return Bad(l.line); }
      if !l.value.Raw? || l.value.i >= segments
          || (raws != [] && l.value.i <= raws[|raws| - 1].0) { return Bad(L.last); }
      PrependOne(raws, (l.value.i, l.value.sha, l.value.flags), RawsAt(L.Rows(), L.i, segments, l.value.i + 1));
      raws := raws + [(l.value.i, l.value.sha, l.value.flags)];
      above := l.value.i + 1;
      more := L.Sees(Keyword(KRaw));
    }
    RawsNext(L.Rows(), L.i, segments, above);
    PrependLast(raws, L.i);
    return Got(raws, L.i);
  }

  // ---- a run and its case ---------------------------------------------------

  method ReadRun(L: Lines, index: nat, images: set<string>, version: nat) returns (r: Res<Run>)
    requires L.Valid()
    modifies L`i, L`last
    ensures r == RunAt(L.Rows(), old(L.i), index, images, version)
    ensures r.Got? ==> L.Valid() && L.i == r.next
  {
    hide Expect, ExpectAll, LineOk, RunTopAt, RunTailAt;
    var top := ReadRunTop(L, index, images, version);
    if top.Bad? { return Bad(top.line); }
    var ls := ReadAll(L, [KSegments, KSteps, KParameters]);
    if ls.Bad? { return Bad(ls.line); }
    var kind := if top.value[0].RunLine? then top.value[0].kind else Main;
    var head := Run(index, kind, WordOf(top.value[1]), OptOf(top.value[2]), OptOf(top.value[3]),
                    NumOf(ls.value[0]), NumOf(ls.value[1]), [], [], [], []);
    r := ReadRunTail(L, head, NumOf(ls.value[2]), version);
  }

  method ReadRunTail(L: Lines, head: Run, count: nat, version: nat) returns (r: Res<Run>)
    requires L.Valid()
    modifies L`i, L`last
    ensures r == RunTailAt(L.Rows(), old(L.i), head, count, version)
    ensures r.Got? ==> L.Valid() && L.i == r.next
  {
    hide ParamsAt, BoundsAt, BlocksAt, RawsAt;
    var params := ReadParameters(L, count);
    if params.Bad? { return Bad(params.line); }
    var bounds := ReadBoundaries(L, head.segments);
    if bounds.Bad? { return Bad(bounds.line); }
    var blocks := ReadBlocks(L);
    if blocks.Bad? { return Bad(blocks.line); }
    if blocks.value != [] && |blocks.value| != head.segments { return Bad(L.last); }
    var raws := ReadRaws(L, head.segments);
    if raws.Bad? { return Bad(raws.line); }
    if (blocks.value != [] || raws.value != []) && version == 1 { return Bad(L.last); }
    return Got(head.(parameters := params.value, boundaries := bounds.value, blocks := blocks.value,
                     raws := raws.value), L.i);
  }

  /** The bank's line, then the source's. */
  lemma TwoRead(rows: seq<Row>, i: nat)
    requires i <= |rows|
    ensures var a := Expect(rows, i, KBank);
            ExpectAll(rows, i, [KBank, KRunSource])
              == if a.Bad? then Bad(a.line)
                 else if Expect(rows, a.next, KRunSource).Bad? then Bad(Expect(rows, a.next, KRunSource).line)
                 else Got([a.value, Expect(rows, a.next, KRunSource).value], a.next + 1)
  {
    hide Expect;
    var ks := [KBank, KRunSource];
    var one := [KRunSource];
    assert ks[1..] == one && one[1..] == [];
    var a := Expect(rows, i, KBank);
    if a.Got? {
      var b := Expect(rows, a.next, KRunSource);
      assert b.Got? ==> ExpectAll(rows, b.next, []) == Got([], b.next);
      assert b.Got? ==> ExpectAll(rows, a.next, one) == Got([b.value] + [], b.next);
      assert b.Bad? ==> ExpectAll(rows, a.next, one) == Bad(b.line);
      assert b.Got? ==> [a.value] + ([b.value] + []) == [a.value, b.value];
    }
  }

  method ReadRunTop(L: Lines, index: nat, images: set<string>, version: nat) returns (r: Res<seq<Line>>)
    requires L.Valid()
    modifies L`i, L`last
    ensures r == RunTopAt(L.Rows(), old(L.i), index, images, version)
    ensures r.Got? ==> L.Valid() && L.i == r.next
  {
    hide Expect, ExpectAll, LineOk;
    var run := L.Read(KRun);
    if run.Bad? { return Bad(run.line); }
    var a := run.value;
    if !a.RunLine? || a.i != index || (a.kind.Main? != (index == 0))
        || (a.kind.WiderSource? && version == 1) { return Bad(L.last); }
    var image := L.Read(KRunImage);
    if image.Bad? { return Bad(image.line); }
    if WordOf(image.value) !in images { return Bad(L.last); }
    TwoRead(L.Rows(), L.i);
    var bank := L.Read(KBank);
    if bank.Bad? { return Bad(bank.line); }
    var n := L.last;
    var source := L.Read(KRunSource);
    if source.Bad? { return Bad(source.line); }
    if OptOf(source.value).Some? && version == 1 { return Bad(n); }
    return Got([a, image.value] + [bank.value, source.value], L.i);
  }

  method ReadRuns(L: Lines, count: nat, images: set<string>, version: nat) returns (r: Res<seq<Run>>)
    requires L.Valid()
    modifies L`i, L`last
    ensures r == RunsAt(L.Rows(), old(L.i), 0, count, images, version)
    ensures r.Got? ==> L.Valid() && L.i == r.next
  {
    hide RunAt;
    var runs: seq<Run> := [];
    PrependNone(RunsAt(L.Rows(), L.i, 0, count, images, version));
    for k := 0 to count
      invariant L.Valid() && Prepend(runs, RunsAt(L.Rows(), L.i, k, count - k, images, version))
             == RunsAt(L.Rows(), old(L.i), 0, count, images, version)
    {
      var run := ReadRun(L, k, images, version);
      if run.Bad? { return Bad(run.line); }
      PrependOne(runs, run.value, RunsAt(L.Rows(), L.i, k + 1, count - k - 1, images, version));
      runs := runs + [run.value];
    }
    PrependLast(runs, L.i);
    return Got(runs, L.i);
  }

  method ReadCase(L: Lines, images: set<string>, names: set<string>) returns (r: Res<Case>)
    requires L.Valid()
    modifies L`i, L`last
    ensures r == CaseAt(L.Rows(), old(L.i), images, names)
    ensures r.Got? ==> L.Valid() && L.i == r.next
  {
    hide Expect, ExpectAll, LineOk, RunsAt, CaseOf, VersionOk, DepthsOk;
    var name := L.Read(KCase);
    if name.Bad? { return Bad(name.line); }
    var n0 := L.last;
    if WordOf(name.value) in names { return Bad(n0); }
    var top := ReadAll(L, TOP);
    if top.Bad? { return Bad(top.line); }
    var salt := ReadAll(L, SaltKeys(top.value[3]));
    if salt.Bad? { return Bad(salt.line); }
    var rest := ReadAll(L, REST);
    if rest.Bad? { return Bad(rest.line); }
    var c := CaseOf(n0, name.value, top.value, salt.value, rest.value);
    if !VersionOk(c) { return Bad(n0); }
    var l := L.Read(KRuns);
    if l.Bad? { return Bad(l.line); }
    var runs := ReadRuns(L, NumOf(l.value), images, c.version);
    if runs.Bad? { return Bad(runs.line); }
    c := c.(runs := runs.value);
    if !DepthsOk(c) { return Bad(n0); }
    return Got(c, L.i);
  }

  /** read_manifest: the corpus, or the line its refusal names. */
  method ReadManifest(text: string) returns (r: Answer)
    ensures r == ReadText(text)
  {
    hide Expect, LineOk, CaseAt, SourcesMap, ImagesMap, Keyword;
    var L := new Lines(text);
    var magic := L.Read(KCorpus);
    if magic.Bad? { return Refuses(magic.line); }
    var fs := ReadSources(L);
    if fs.Bad? { return Refuses(fs.line); }
    var ims := ReadImages(L);
    if ims.Bad? { return Refuses(ims.line); }
    if ims.value == [] { return Refuses(L.last); }
    var cs := ReadCases(L, Paths(ims.value));
    if cs.Bad? { return Refuses(cs.line); }
    if cs.value == [] { return Refuses(L.last); }
    var known := Names(cs.value);
    for k := 0 to |cs.value|
      invariant Dangling(cs.value[k..], known) == Dangling(cs.value, known)
    {
      var c := cs.value[k];
      assert cs.value[k..][1..] == cs.value[k + 1..];
      if c.superseded.Some? && c.superseded.value !in known { return Refuses(c.line); }
    }
    return Accepts(Corpus(SourcesMap(fs.value), ImagesMap(ims.value), cs.value));
  }

  method ReadSources(L: Lines) returns (r: Res<seq<File>>)
    requires L.Valid()
    modifies L`i, L`last
    ensures r == SourcesAt(L.Rows(), old(L.i))
    ensures r.Got? ==> L.Valid() && L.i == r.next
  {
    hide Expect, LineOk, Keyword;
    var out: seq<File> := [];
    PrependNone(SourcesAt(L.Rows(), L.i));
    var more := L.Sees(Keyword(KSource));
    while more
      invariant L.Valid() && more == Peeks(L.Rows(), L.i, Keyword(KSource))
      invariant Prepend(out, SourcesAt(L.Rows(), L.i)) == SourcesAt(L.Rows(), old(L.i))
      decreases |L.Rows()| - L.i
    {
      var l := L.Read(KSource);
      if l.Bad? { return Bad(l.line); }
      PrependOne(out, FileOf(l.value), SourcesAt(L.Rows(), L.i));
      out := out + [FileOf(l.value)];
      more := L.Sees(Keyword(KSource));
    }
    PrependLast(out, L.i);
    return Got(out, L.i);
  }

  method ReadImages(L: Lines) returns (r: Res<seq<Image>>)
    requires L.Valid()
    modifies L`i, L`last
    ensures r == ImagesAt(L.Rows(), old(L.i))
    ensures r.Got? ==> L.Valid() && L.i == r.next
  {
    hide Expect, LineOk, Keyword;
    var out: seq<Image> := [];
    PrependNone(ImagesAt(L.Rows(), L.i));
    var more := L.Sees(Keyword(KImage));
    while more
      invariant L.Valid() && more == Peeks(L.Rows(), L.i, Keyword(KImage))
      invariant Prepend(out, ImagesAt(L.Rows(), L.i)) == ImagesAt(L.Rows(), old(L.i))
      decreases |L.Rows()| - L.i
    {
      ghost var from := L.i;
      var l := L.Read(KImage);
      if l.Bad? { return Bad(l.line); }
      ExpectGot(L.Rows(), from, KImage);
      OtherForm(l.value);
      PrependOne(out, l.value.im, ImagesAt(L.Rows(), L.i));
      out := out + [l.value.im];
      more := L.Sees(Keyword(KImage));
    }
    PrependLast(out, L.i);
    return Got(out, L.i);
  }

  method ReadCases(L: Lines, images: set<string>) returns (r: Res<seq<Case>>)
    requires L.Valid()
    modifies L`i, L`last
    ensures r == CasesAt(L.Rows(), old(L.i), images, {})
    ensures r.Got? ==> L.Valid() && L.i == r.next
  {
    hide CaseAt;
    var out: seq<Case> := [];
    PrependNone(CasesAt(L.Rows(), L.i, images, {}));
    var names: set<string> := {};
    while !L.AtEnd()
      invariant L.Valid()
      invariant Prepend(out, CasesAt(L.Rows(), L.i, images, names)) == CasesAt(L.Rows(), old(L.i), images, {})
      decreases |L.Rows()| - L.i
    {
      var c := ReadCase(L, images, names);
      if c.Bad? { return Bad(c.line); }
      names := names + {c.value.name};
      PrependOne(out, c.value, CasesAt(L.Rows(), L.i, images, names));
      out := out + [c.value];
    }
    PrependLast(out, L.i);
    return Got(out, L.i);
  }

  // ---- the writer -----------------------------------------------------------

  /** write_manifest: head, magic, sources and images in their paths' order, the cases. */
  method WriteManifest(head: seq<string>, c: Corpus) returns (text: string)
    ensures text == WriteText(head, c)
  {
    hide Spelled, AllSpelled, CasesSpelled, SourceLines, ImageLines, SourcesIn, ImagesIn, DocSpelled;
    var out := head + [Spelled(Word(KCorpus, "2")), ""];
    out := WriteSources(out, c.sources);
    out := WriteImages(out, c.images);
    out := WriteCases(out, c.cases);
    Together(head, InOrder(c));
    return Join('\n', out) + "\n";
  }

  method WriteSources(before: seq<string>, m: map<string, string>) returns (out: seq<string>)
    ensures out == before + AllSpelled(SourceLines(SourcesIn(m, Order.Sorted(m.Keys))))
  {
    hide Spelled, AllSpelled, SourceLines, SourcesIn, Increasing, Less;
    out := before;
    var ps := SortKeys(m.Keys);
    ghost var lines := AllSpelled(SourceLines(SourcesIn(m, ps)));
    SourcesSpelled(m, ps);
    for k := 0 to |ps|
      invariant out == before + lines[..k]
    {
      out := out + [Spelled(Named(KSource, File(ps[k], m[ps[k]])))];
      assert lines[..k + 1] == lines[..k] + [lines[k]];
    }
    assert lines[..|ps|] == lines;
  }

  lemma SourcesSpelled(m: map<string, string>, ps: seq<string>)
    requires forall i | 0 <= i < |ps| :: ps[i] in m
    ensures var lines := AllSpelled(SourceLines(SourcesIn(m, ps)));
            |lines| == |ps| && forall k | 0 <= k < |ps| :: lines[k] == Spelled(Named(KSource, File(ps[k], m[ps[k]])))
  {
    hide Spelled, SourceLines;
    SourceLinesAt(SourcesIn(m, ps));
  }

  method WriteImages(before: seq<string>, m: map<string, Image>) returns (out: seq<string>)
    ensures out == before + AllSpelled(ImageLines(ImagesIn(m, Order.Sorted(m.Keys))))
  {
    hide Spelled, AllSpelled, ImageLines, ImagesIn, Increasing, Less;
    out := before;
    var ps := SortKeys(m.Keys);
    ghost var lines := AllSpelled(ImageLines(ImagesIn(m, ps)));
    ImagesSpelled(m, ps);
    for k := 0 to |ps|
      invariant out == before + lines[..k]
    {
      out := out + [Spelled(ImageLine(m[ps[k]]))];
      assert lines[..k + 1] == lines[..k] + [lines[k]];
    }
    assert lines[..|ps|] == lines;
  }

  lemma ImagesSpelled(m: map<string, Image>, ps: seq<string>)
    requires forall i | 0 <= i < |ps| :: ps[i] in m
    ensures var lines := AllSpelled(ImageLines(ImagesIn(m, ps)));
            |lines| == |ps| && forall k | 0 <= k < |ps| :: lines[k] == Spelled(ImageLine(m[ps[k]]))
  {
    hide Spelled, ImageLines;
    ImageLinesAt(ImagesIn(m, ps));
  }

  method WriteCases(before: seq<string>, cs: seq<Case>) returns (out: seq<string>)
    ensures out == before + CasesSpelled(cs)
  {
    hide Spelled, CaseLines, AllSpelled;
    out := before;
    for k := 0 to |cs|
      invariant out + CasesSpelled(cs[k..]) == before + CasesSpelled(cs)
    {
      assert cs[k..][1..] == cs[k + 1..];
      ghost var was := out;
      out := out + [""] + AllSpelled(CaseLines(cs[k]));
      assert was + ([""] + (AllSpelled(CaseLines(cs[k])) + CasesSpelled(cs[k + 1..])))
          == out + CasesSpelled(cs[k + 1..]);
    }
    assert out + [] == out;
  }

  lemma Together(head: seq<string>, d: Doc)
    ensures DocSpelled(head, d)
         == head + [Spelled(Word(KCorpus, "2")), ""] + AllSpelled(SourceLines(d.sources))
            + AllSpelled(ImageLines(d.images)) + CasesSpelled(d.cases)
  {
    hide Spelled, AllSpelled, CasesSpelled, SourceLines, ImageLines;
  }
}
