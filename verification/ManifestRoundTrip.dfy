/** The reader accepts exactly the rows some well-formed manifest writes, and reads back
    that manifest. */
module ManifestRoundTrip {
  import opened Wrappers
  import opened Text
  import opened Grammar
  import opened Manifest

  /** From row i on, the rows say these lines. */
  predicate At(rows: seq<Row>, i: nat, ls: seq<Line>) {
    i + |ls| <= |rows| && forall t | 0 <= t < |ls| :: LineOk(ls[t]) && rows[i + t].tok == Print(ls[t])
  }

  lemma AtSplit(rows: seq<Row>, i: nat, a: seq<Line>, b: seq<Line>)
    ensures At(rows, i, a + b) <==> At(rows, i, a) && At(rows, i + |a|, b)
  {
    hide LineOk, Print;
    var ls := a + b;
    if At(rows, i, ls) {
      assert forall t | 0 <= t < |a| :: ls[t] == a[t];
      assert forall t | 0 <= t < |b| :: ls[|a| + t] == b[t] && rows[i + (|a| + t)] == rows[i + |a| + t];
    }
    if At(rows, i, a) && At(rows, i + |a|, b) {
      forall t | 0 <= t < |ls|
        ensures LineOk(ls[t]) && rows[i + t].tok == Print(ls[t])
      {
        if t < |a| { assert ls[t] == a[t]; }
        else { assert ls[t] == b[t - |a|] && rows[i + t] == rows[i + |a| + (t - |a|)]; }
      }
    }
  }

  lemma AtOne(rows: seq<Row>, i: nat, l: Line)
    ensures At(rows, i, [l]) <==> i < |rows| && LineOk(l) && rows[i].tok == Print(l)
  {
    hide LineOk, Print;
    if At(rows, i, [l]) { assert [l][0] == l && rows[i + 0] == rows[i]; }
  }

  lemma AtNone(rows: seq<Row>, i: nat)
    requires i <= |rows|
    ensures At(rows, i, [])
  {
  }

  lemma ExpectSays(rows: seq<Row>, i: nat, k: Key)
    requires i <= |rows| && Expect(rows, i, k).Got?
    ensures var l := Expect(rows, i, k).value; KeyOf(l) == k && LineOk(l) && rows[i].tok == Print(l)
  {
    hide LineOk, Read, Keyword, AllPrintable, Says, KeyOf;
    var tok := rows[i].tok;
    assert [Keyword(k)] + tok[1..] == tok;
    ReadPrints(k, tok[1..]);
  }

  lemma ExpectReads(rows: seq<Row>, i: nat, l: Line)
    requires i < |rows| && LineOk(l) && rows[i].tok == Print(l)
    ensures Expect(rows, i, KeyOf(l)) == Got(l, i + 1)
  {
    hide LineOk, Read, Keyword, AllPrintable, Says, KeyOf;
    PrintReads(l);
    PrintedClean(l);
    assert rows[i].tok[1..] == Says(l);
  }

  lemma AtPeeks(rows: seq<Row>, i: nat, l: Line)
    requires At(rows, i, [l])
    ensures i < |rows| && Peeks(rows, i, Keyword(KeyOf(l)))
  {
    hide LineOk, Keyword, Says, KeyOf, At;
    AtOne(rows, i, l);
  }

  /** One line: read exactly where it is written. */
  lemma ExpectIs(rows: seq<Row>, i: nat, k: Key, l: Line)
    requires i <= |rows|
    ensures Expect(rows, i, k) == Got(l, i + 1) <==> KeyOf(l) == k && At(rows, i, [l])
  {
    hide LineOk, Expect, Print, KeyOf, At;
    AtOne(rows, i, l);
    if Expect(rows, i, k) == Got(l, i + 1) { ExpectSays(rows, i, k); }
    if KeyOf(l) == k && At(rows, i, [l]) { ExpectReads(rows, i, l); }
  }

  lemma PrintedClean(l: Line)
    requires LineOk(l)
    ensures AllPrintable(Print(l))
  {
  }

  /** A refusal names a row's line: there is no third answer. */
  lemma ExpectGot(rows: seq<Row>, i: nat, k: Key)
    requires i <= |rows| && Expect(rows, i, k).Got?
    ensures var l := Expect(rows, i, k).value; KeyOf(l) == k && LineOk(l) && At(rows, i, [l]) && Formed(l)
  {
    hide LineOk, Formed, Expect, At, KeyOf;
    ExpectIs(rows, i, k, Expect(rows, i, k).value);
    AtOne(rows, i, Expect(rows, i, k).value);
    FormIs(Expect(rows, i, k).value);
  }

  /** A line's key decides its form. */
  predicate Formed(l: Line) {
    match FormOf(KeyOf(l))
    case FWord => l.Word?
    case FNum => l.Num?
    case FNamed => l.Named?
    case FMaybe => l.Maybe?
    case FNumbered => l.Numbered?
    case FOther => !(l.Word? || l.Num? || l.Named? || l.Maybe? || l.Numbered?)
  }

  lemma FormIs(l: Line)
    requires LineOk(l)
    ensures Formed(l)
  {
    hide AllPrintable, WordOk, NumOk, FileOk, HowOk, RunKindOk, Refusal;
  }

  predicate KeysAre(ls: seq<Line>, ks: seq<Key>) {
    |ls| == |ks| && forall t | 0 <= t < |ls| :: KeyOf(ls[t]) == ks[t]
  }

  predicate AllFormed(ls: seq<Line>) {
    forall t | 0 <= t < |ls| :: Formed(ls[t])
  }

  lemma {:induction false} AllSay(rows: seq<Row>, i: nat, ks: seq<Key>)
    requires i <= |rows| && ExpectAll(rows, i, ks).Got?
    ensures At(rows, i, ExpectAll(rows, i, ks).value) && KeysAre(ExpectAll(rows, i, ks).value, ks)
    ensures AllFormed(ExpectAll(rows, i, ks).value)
    decreases |ks|
  {
    hide Expect, LineOk, Formed, KeyOf, At, Print;
    AtNone(rows, i);
    if ks != [] {
      ExpectGot(rows, i, ks[0]);
      var l := Expect(rows, i, ks[0]).value;
      AllSay(rows, i + 1, ks[1..]);
      AtSplit(rows, i, [l], ExpectAll(rows, i + 1, ks[1..]).value);
    }
  }

  lemma {:induction false} AllRead(rows: seq<Row>, i: nat, ks: seq<Key>, ls: seq<Line>)
    requires i <= |rows| && At(rows, i, ls) && KeysAre(ls, ks)
    ensures ExpectAll(rows, i, ks) == Got(ls, i + |ls|)
    decreases |ks|
  {
    hide Expect, LineOk, KeyOf, At, Print;
    AtNone(rows, i);
    if ks != [] {
      assert ls == [ls[0]] + ls[1..];
      AtSplit(rows, i, [ls[0]], ls[1..]);
      ExpectIs(rows, i, ks[0], ls[0]);
      AllRead(rows, i + 1, ks[1..], ls[1..]);
    }
  }

  // ---- lists ----------------------------------------------------------------

  lemma {:induction false} ParamsSay(rows: seq<Row>, i: nat, count: nat)
    requires i <= |rows| && ParamsAt(rows, i, count).Got?
    ensures var r := ParamsAt(rows, i, count);
            |r.value| == count && At(rows, i, ParamLines(r.value)) && r.next == i + count
    decreases count
  {
    hide Expect, LineOk, At, Print;
    AtNone(rows, i);
    if count > 0 {
      ExpectGot(rows, i, KParameter);
      ParamsSay(rows, i + 1, count - 1);
      var l, ps := Expect(rows, i, KParameter).value, ParamsAt(rows, i + 1, count - 1).value;
      OtherForm(l);
      assert ([(l.name, l.v)] + ps)[1..] == ps;
      AtSplit(rows, i, [l], ParamLines(ps));
    }
  }

  lemma OtherForm(l: Line)
    requires LineOk(l) && Formed(l)
    ensures KeyOf(l) == KParameter ==> l.Parameter?
    ensures KeyOf(l) == KRaw ==> l.Raw?
    ensures KeyOf(l) == KRun ==> l.RunLine?
    ensures KeyOf(l) == KImage ==> l.ImageLine?
    ensures KeyOf(l) == KWhat ==> l.What?
    ensures KeyOf(l) == KAccuracy ==> l.Accuracy?
    ensures KeyOf(l) == KVerdict ==> l.Judged?
  {
    hide LineOk;
  }

  lemma {:induction false} ParamsRead(rows: seq<Row>, i: nat, ps: seq<(string, nat)>)
    requires i <= |rows| && At(rows, i, ParamLines(ps))
    ensures ParamsAt(rows, i, |ps|) == Got(ps, i + |ps|)
    decreases |ps|
  {
    hide Expect, LineOk, At, Print;
    AtNone(rows, i);
    if ps != [] {
      var l := Parameter(ps[0].0, ps[0].1);
      AtSplit(rows, i, [l], ParamLines(ps[1..]));
      ExpectIs(rows, i, KParameter, l);
      ParamsRead(rows, i + 1, ps[1..]);
      assert ps == [(l.name, l.v)] + ps[1..];
    }
  }

  lemma {:induction false} BoundsSay(rows: seq<Row>, i: nat, b: nat, count: nat)
    requires i <= |rows| && BoundsAt(rows, i, b, count).Got?
    ensures var r := BoundsAt(rows, i, b, count);
            |r.value| == count && At(rows, i, HashLines(KBoundary, b, r.value)) && r.next == i + count
    decreases count
  {
    hide Expect, LineOk, At, Print;
    AtNone(rows, i);
    if count > 0 {
      ExpectGot(rows, i, KBoundary);
      BoundsSay(rows, i + 1, b + 1, count - 1);
      var l, hs := Expect(rows, i, KBoundary).value, BoundsAt(rows, i + 1, b + 1, count - 1).value;
      assert ([l.sha] + hs)[1..] == hs;
      AtSplit(rows, i, [l], HashLines(KBoundary, b + 1, hs));
    }
  }

  lemma {:induction false} BoundsRead(rows: seq<Row>, i: nat, b: nat, hs: seq<string>)
    requires i <= |rows| && At(rows, i, HashLines(KBoundary, b, hs))
    ensures BoundsAt(rows, i, b, |hs|) == Got(hs, i + |hs|)
    decreases |hs|
  {
    hide Expect, LineOk, At, Print;
    AtNone(rows, i);
    if hs != [] {
      var l := Numbered(KBoundary, b, hs[0]);
      AtSplit(rows, i, [l], HashLines(KBoundary, b + 1, hs[1..]));
      ExpectIs(rows, i, KBoundary, l);
      BoundsRead(rows, i + 1, b + 1, hs[1..]);
      assert hs == [hs[0]] + hs[1..];
    }
  }

  lemma {:induction false} BlocksSay(rows: seq<Row>, i: nat, b: nat)
    requires i <= |rows| && BlocksAt(rows, i, b).Got?
    ensures var r := BlocksAt(rows, i, b); At(rows, i, HashLines(KBlock, b, r.value)) && r.next == i + |r.value|
    decreases |rows| - i
  {
    hide Expect, LineOk, At, Print;
    AtNone(rows, i);
    if Peeks(rows, i, Keyword(KBlock)) {
      ExpectGot(rows, i, KBlock);
      BlocksSay(rows, i + 1, b + 1);
      var l, hs := Expect(rows, i, KBlock).value, BlocksAt(rows, i + 1, b + 1).value;
      assert ([l.sha] + hs)[1..] == hs;
      AtSplit(rows, i, [l], HashLines(KBlock, b + 1, hs));
    }
  }

  lemma {:induction false} BlocksRead(rows: seq<Row>, i: nat, b: nat, hs: seq<string>)
    requires i <= |rows| && At(rows, i, HashLines(KBlock, b, hs)) && !Peeks(rows, i + |hs|, Keyword(KBlock))
    ensures BlocksAt(rows, i, b) == Got(hs, i + |hs|)
    decreases |hs|
  {
    hide Expect, LineOk, Keyword, At, Print;
    AtNone(rows, i);
    if hs != [] {
      var l := Numbered(KBlock, b, hs[0]);
      AtSplit(rows, i, [l], HashLines(KBlock, b + 1, hs[1..]));
      ExpectIs(rows, i, KBlock, l);
      AtPeeks(rows, i, l);
      BlocksRead(rows, i + 1, b + 1, hs[1..]);
      assert hs == [hs[0]] + hs[1..];
    }
  }

  /** Increasing from `above` and below the count. */
  predicate RawsFrom(raws: seq<(nat, string, string)>, segments: nat, above: nat) {
    raws != [] ==> above <= raws[0].0 < segments && RawsFrom(raws[1..], segments, raws[0].0 + 1)
  }

  lemma {:induction false} RawsFromOk(raws: seq<(nat, string, string)>, segments: nat)
    ensures RawsFrom(raws, segments, 0) <==> RawsOk(raws, segments)
  {
    RawsAbove(raws, segments, 0);
  }

  lemma {:induction false} RawsAbove(raws: seq<(nat, string, string)>, segments: nat, above: nat)
    ensures RawsFrom(raws, segments, above) <==> RawsOk(raws, segments) && (raws != [] ==> above <= raws[0].0)
  {
    if raws != [] {
      RawsAbove(raws[1..], segments, raws[0].0 + 1);
      assert forall t | 0 <= t < |raws[1..]| :: raws[1..][t] == raws[t + 1];
      if RawsOk(raws[1..], segments) && above <= raws[0].0 < segments
          && (raws[1..] != [] ==> raws[0].0 + 1 <= raws[1..][0].0) {
        forall t | 0 <= t < |raws|
          ensures raws[t].0 < segments && (t > 0 ==> raws[t - 1].0 < raws[t].0)
        {
          if t > 0 { assert raws[t] == raws[1..][t - 1]; }
          if t > 1 { assert raws[t - 1] == raws[1..][t - 2]; }
        }
      }
      if RawsOk(raws, segments) {
        forall t | 0 <= t < |raws[1..]|
          ensures raws[1..][t].0 < segments && (t > 0 ==> raws[1..][t - 1].0 < raws[1..][t].0)
        {
          assert raws[1..][t] == raws[t + 1];
          if t > 0 { assert raws[1..][t - 1] == raws[t]; }
        }
      }
    }
  }

  lemma {:induction false} RawsSay(rows: seq<Row>, i: nat, segments: nat, above: nat)
    requires i <= |rows| && RawsAt(rows, i, segments, above).Got?
    ensures var r := RawsAt(rows, i, segments, above);
            At(rows, i, RawLines(r.value)) && r.next == i + |r.value| && RawsFrom(r.value, segments, above)
    decreases |rows| - i
  {
    hide Expect, LineOk, At, Print;
    AtNone(rows, i);
    if Peeks(rows, i, Keyword(KRaw)) {
      ExpectGot(rows, i, KRaw);
      var l := Expect(rows, i, KRaw).value;
      RawsSay(rows, i + 1, segments, l.i + 1);
      var rs := RawsAt(rows, i + 1, segments, l.i + 1).value;
      assert ([(l.i, l.sha, l.flags)] + rs)[1..] == rs;
      AtSplit(rows, i, [l], RawLines(rs));
    }
  }

  lemma {:induction false} RawsRead(rows: seq<Row>, i: nat, raws: seq<(nat, string, string)>, segments: nat, above: nat)
    requires i <= |rows| && At(rows, i, RawLines(raws)) && RawsFrom(raws, segments, above)
    requires !Peeks(rows, i + |raws|, Keyword(KRaw))
    ensures RawsAt(rows, i, segments, above) == Got(raws, i + |raws|)
    decreases |raws|
  {
    hide Expect, LineOk, Keyword, At, Print;
    AtNone(rows, i);
    if raws != [] {
      var l := Raw(raws[0].0, raws[0].1, raws[0].2);
      AtSplit(rows, i, [l], RawLines(raws[1..]));
      ExpectIs(rows, i, KRaw, l);
      AtPeeks(rows, i, l);
      RawsRead(rows, i + 1, raws[1..], segments, l.i + 1);
      assert raws == [(l.i, l.sha, l.flags)] + raws[1..];
    }
  }

  // ---- a run ----------------------------------------------------------------

  lemma AtOk(rows: seq<Row>, i: nat, ls: seq<Line>)
    requires At(rows, i, ls)
    ensures LinesOk(ls)
  {
    hide LineOk;
  }

  /** What a run's first four lines must say. */
  predicate RunTopOk(a: Line, b: Line, d: Line, index: nat, images: set<string>, version: nat) {
    && a.RunLine? && a.i == index && (a.kind.Main? <==> index == 0) && (version == 1 ==> !a.kind.WiderSource?)
    && WordOf(b) in images && (version == 1 ==> OptOf(d).None?)
  }

  const RUNTOP: seq<Key> := [KRun, KRunImage, KBank, KRunSource]

  lemma RunTopSays(rows: seq<Row>, i: nat, index: nat, images: set<string>, version: nat)
    requires i <= |rows| && RunTopAt(rows, i, index, images, version).Got?
    ensures var r := RunTopAt(rows, i, index, images, version);
            && At(rows, i, r.value) && r.next == i + 4 && KeysAre(r.value, RUNTOP) && AllFormed(r.value)
            && RunTopOk(r.value[0], r.value[1], r.value[3], index, images, version)
  {
    hide Expect, LineOk, At, Print, Formed, KeyOf, ExpectAll, WordOf, OptOf;
    ExpectGot(rows, i, KRun);
    ExpectGot(rows, i + 1, KRunImage);
    AllSay(rows, i + 2, [KBank, KRunSource]);
    var a, b := Expect(rows, i, KRun).value, Expect(rows, i + 1, KRunImage).value;
    var ls := ExpectAll(rows, i + 2, [KBank, KRunSource]).value;
    AtSplit(rows, i + 1, [b], ls);
    AtSplit(rows, i, [a], [b] + ls);
    assert [a, b] + ls == [a] + ([b] + ls);
  }

  lemma RunTopReads(rows: seq<Row>, i: nat, ls: seq<Line>, index: nat, images: set<string>, version: nat)
    requires i <= |rows| && At(rows, i, ls) && KeysAre(ls, RUNTOP)
    requires RunTopOk(ls[0], ls[1], ls[3], index, images, version)
    ensures RunTopAt(rows, i, index, images, version) == Got(ls, i + 4)
  {
    hide Expect, LineOk, At, Print, KeyOf, ExpectAll, WordOf, OptOf;
    assert ls == [ls[0]] + ([ls[1]] + ls[2..]);
    AtSplit(rows, i, [ls[0]], [ls[1]] + ls[2..]);
    AtSplit(rows, i + 1, [ls[1]], ls[2..]);
    ExpectIs(rows, i, KRun, ls[0]);
    ExpectIs(rows, i + 1, KRunImage, ls[1]);
    AtEnds(rows, i + 2, ls[2..]);
    AllRead(rows, i + 2, [KBank, KRunSource], ls[2..]);
    assert ls == [ls[0], ls[1]] + ls[2..];
  }

  lemma AtEnds(rows: seq<Row>, i: nat, ls: seq<Line>)
    requires At(rows, i, ls)
    ensures i + |ls| <= |rows|
  {
  }

  /** What the lists after a run's head must be. */
  predicate RunTailOk(r: Run, version: nat) {
    && |r.boundaries| == r.segments + 1 && (r.blocks != [] ==> |r.blocks| == r.segments) && RawsOk(r.raws, r.segments)
    && (version == 1 ==> r.blocks == [] && r.raws == [])
  }

  lemma RunTailSays(rows: seq<Row>, i: nat, head: Run, count: nat, version: nat)
    requires i <= |rows| && RunTailAt(rows, i, head, count, version).Got?
    ensures var r := RunTailAt(rows, i, head, count, version);
            && At(rows, i, RunTail(r.value)) && r.next == i + |RunTail(r.value)| && RunTailOk(r.value, version)
            && |r.value.parameters| == count
            && r.value == head.(parameters := r.value.parameters, boundaries := r.value.boundaries,
                                blocks := r.value.blocks, raws := r.value.raws)
  {
    hide At, ParamsAt, BoundsAt, BlocksAt, RawsAt, ParamLines, HashLines, RawLines, RawsOk, RawsFrom;
    ParamsSay(rows, i, count);
    var ps := ParamsAt(rows, i, count);
    BoundsSay(rows, ps.next, 0, head.segments + 1);
    var bounds := BoundsAt(rows, ps.next, 0, head.segments + 1);
    BlocksSay(rows, bounds.next, 0);
    var blocks := BlocksAt(rows, bounds.next, 0);
    RawsSay(rows, blocks.next, head.segments, 0);
    var raws := RawsAt(rows, blocks.next, head.segments, 0);
    RawsFromOk(raws.value, head.segments);
    var last := HashLines(KBlock, 0, blocks.value) + RawLines(raws.value);
    AtSplit(rows, bounds.next, HashLines(KBlock, 0, blocks.value), RawLines(raws.value));
    AtSplit(rows, ps.next, HashLines(KBoundary, 0, bounds.value), last);
    AtSplit(rows, i, ParamLines(ps.value), HashLines(KBoundary, 0, bounds.value) + last);
  }

  lemma RunTailReads(rows: seq<Row>, i: nat, r: Run, version: nat)
    requires i <= |rows| && At(rows, i, RunTail(r)) && RunTailOk(r, version)
    requires i + |RunTail(r)| <= |rows|
    requires !Peeks(rows, i + |RunTail(r)|, Keyword(KBlock)) && !Peeks(rows, i + |RunTail(r)|, Keyword(KRaw))
    ensures RunTailAt(rows, i, r.(parameters := [], boundaries := [], blocks := [], raws := []), |r.parameters|,
                      version)
         == Got(r, i + |RunTail(r)|)
  {
    hide At, ParamsAt, BoundsAt, BlocksAt, RawsAt, ParamLines, HashLines, RawLines, RawsOk, RawsFrom, Keyword, Peeks;
    var ps, bs := ParamLines(r.parameters), HashLines(KBoundary, 0, r.boundaries);
    var ks, ws := HashLines(KBlock, 0, r.blocks), RawLines(r.raws);
    AtSplit(rows, i, ps, bs + (ks + ws));
    var i1 := i + |ps|;
    AtSplit(rows, i1, bs, ks + ws);
    var i2 := i1 + |bs|;
    AtSplit(rows, i2, ks, ws);
    var i3 := i2 + |ks|;
    AtEnds(rows, i1, bs);
    AtEnds(rows, i2, ks);
    AtEnds(rows, i3, ws);
    ParamsRead(rows, i, r.parameters);
    BoundsRead(rows, i1, 0, r.boundaries);
    NoBlockThen(rows, i3, r.raws);
    BlocksRead(rows, i2, 0, r.blocks);
    RawsFromOk(r.raws, r.segments);
    RawsRead(rows, i3, r.raws, r.segments, 0);
  }

  /** What follows the blocks is a raw line, or what follows the run. */
  lemma NoBlockThen(rows: seq<Row>, i: nat, raws: seq<(nat, string, string)>)
    requires i <= |rows| && At(rows, i, RawLines(raws)) && (raws == [] ==> !Peeks(rows, i, Keyword(KBlock)))
    ensures !Peeks(rows, i, Keyword(KBlock))
  {
    hide At, LineOk;
    if raws != [] {
      var l := Raw(raws[0].0, raws[0].1, raws[0].2);
      AtSplit(rows, i, [l], RawLines(raws[1..]));
      AtPeeks(rows, i, l);
    }
  }

  lemma RunSays(rows: seq<Row>, i: nat, index: nat, images: set<string>, version: nat)
    requires i <= |rows| && RunAt(rows, i, index, images, version).Got?
    ensures var r := RunAt(rows, i, index, images, version);
            && At(rows, i, RunLines(r.value)) && r.next == i + |RunLines(r.value)|
            && RunOk(r.value, index, images, version)
  {
    hide At, RunTopAt, RunTailAt, ExpectAll, RunTail, LinesOk, RawsOk;
    RunTopSays(rows, i, index, images, version);
    var top := RunTopAt(rows, i, index, images, version);
    AllSay(rows, top.next, [KSegments, KSteps, KParameters]);
    var ls := ExpectAll(rows, top.next, [KSegments, KSteps, KParameters]);
    var r := RunAt(rows, i, index, images, version).value;
    var head := Run(index, top.value[0].kind, WordOf(top.value[1]), OptOf(top.value[2]), OptOf(top.value[3]),
                    NumOf(ls.value[0]), NumOf(ls.value[1]), [], [], [], []);
    RunTailSays(rows, ls.next, head, NumOf(ls.value[2]), version);
    HeadFrom(top.value, ls.value, r);
    AtSplit(rows, i, top.value, ls.value);
    AtSplit(rows, i, RunHead(r), RunTail(r));
    AtOk(rows, i, RunLines(r));
  }

  lemma HeadFrom(top: seq<Line>, ls: seq<Line>, r: Run)
    requires KeysAre(top, RUNTOP) && AllFormed(top) && KeysAre(ls, [KSegments, KSteps, KParameters])
    requires AllFormed(ls) && top[0].RunLine?
    requires r.index == top[0].i && r.kind == top[0].kind && r.image == WordOf(top[1])
    requires r.bank == OptOf(top[2]) && r.source == OptOf(top[3])
    requires r.segments == NumOf(ls[0]) && r.steps == NumOf(ls[1]) && |r.parameters| == NumOf(ls[2])
    ensures RunHead(r) == top + ls
  {
    hide Formed, KeyOf, WordOf, NumOf, OptOf, KeysAre, AllFormed, FormOf;
    var ks := [KSegments, KSteps, KParameters];
    HeadForms();
    TopLength(top, RUNTOP);
    TopLength(ls, ks);
    LineAt(top, RUNTOP, 1);
    LineAt(top, RUNTOP, 2);
    LineAt(top, RUNTOP, 3);
    LineAt(ls, ks, 0);
    LineAt(ls, ks, 1);
    LineAt(ls, ks, 2);
  }

  lemma HeadForms()
    ensures FormOf(KRunImage) == FWord && FormOf(KBank) == FormOf(KRunSource) == FMaybe
    ensures FormOf(KSegments) == FormOf(KSteps) == FormOf(KParameters) == FNum
  {
  }

  lemma RunReads(rows: seq<Row>, i: nat, r: Run, index: nat, images: set<string>, version: nat)
    requires i <= |rows| && At(rows, i, RunLines(r)) && RunOk(r, index, images, version) && i + |RunLines(r)| <= |rows|
    requires !Peeks(rows, i + |RunLines(r)|, Keyword(KBlock)) && !Peeks(rows, i + |RunLines(r)|, Keyword(KRaw))
    ensures RunAt(rows, i, index, images, version) == Got(r, i + |RunLines(r)|)
  {
    hide At, RunTopAt, RunTailAt, ExpectAll, RunTail, LinesOk, RawsOk, Keyword, Peeks;
    AtSplit(rows, i, RunHead(r), RunTail(r));
    var top, ls := RunHead(r)[..4], RunHead(r)[4..];
    assert RunHead(r) == top + ls;
    AtSplit(rows, i, top, ls);
    RunTopReads(rows, i, top, index, images, version);
    AtEnds(rows, i + 4, ls);
    AllRead(rows, i + 4, [KSegments, KSteps, KParameters], ls);
    RunTailReads(rows, i + 7, r, version);
  }

  predicate RunsFrom(rs: seq<Run>, index: nat, images: set<string>, version: nat) {
    forall t | 0 <= t < |rs| :: RunOk(rs[t], index + t, images, version)
  }

  lemma {:induction false} RunsSay(rows: seq<Row>, i: nat, index: nat, count: nat, images: set<string>, version: nat)
    requires i <= |rows| && RunsAt(rows, i, index, count, images, version).Got?
    ensures var r := RunsAt(rows, i, index, count, images, version);
            && At(rows, i, RunsLines(r.value)) && r.next == i + |RunsLines(r.value)|
            && RunsFrom(r.value, index, images, version)
    decreases count
  {
    hide At, RunAt, RunLines, RunOk;
    AtNone(rows, i);
    if count > 0 {
      RunSays(rows, i, index, images, version);
      var run := RunAt(rows, i, index, images, version);
      RunsSay(rows, run.next, index + 1, count - 1, images, version);
      var rs := RunsAt(rows, run.next, index + 1, count - 1, images, version).value;
      assert ([run.value] + rs)[1..] == rs;
      AtSplit(rows, i, RunLines(run.value), RunsLines(rs));
      assert forall t | 1 <= t < |rs| + 1 ::
               ([run.value] + rs)[t] == rs[t - 1] && RunOk(rs[t - 1], index + 1 + (t - 1), images, version);
    }
  }

  lemma RunLinesStart(r: Run)
    ensures RunLines(r) != [] && RunLines(r)[0] == RunLine(r.index, r.kind)
  {
  }

  /** After a run comes a run or what follows them all: no block and no raw line. */
  lemma NoListThen(rows: seq<Row>, i: nat, rs: seq<Run>)
    requires i <= |rows| && At(rows, i, RunsLines(rs))
    requires rs == [] ==> !Peeks(rows, i, Keyword(KBlock)) && !Peeks(rows, i, Keyword(KRaw))
    ensures !Peeks(rows, i, Keyword(KBlock)) && !Peeks(rows, i, Keyword(KRaw))
  {
    hide At, RunLines, LineOk;
    if rs != [] {
      var ls := RunLines(rs[0]);
      RunLinesStart(rs[0]);
      AtSplit(rows, i, ls, RunsLines(rs[1..]));
      assert ls == [ls[0]] + ls[1..];
      AtSplit(rows, i, [ls[0]], ls[1..]);
      AtPeeks(rows, i, ls[0]);
    }
  }

  lemma {:induction false} RunsRead(rows: seq<Row>, i: nat, rs: seq<Run>, index: nat, images: set<string>, version: nat)
    requires i + |RunsLines(rs)| <= |rows| && At(rows, i, RunsLines(rs)) && RunsFrom(rs, index, images, version)
    requires !Peeks(rows, i + |RunsLines(rs)|, Keyword(KBlock)) && !Peeks(rows, i + |RunsLines(rs)|, Keyword(KRaw))
    ensures RunsAt(rows, i, index, |rs|, images, version) == Got(rs, i + |RunsLines(rs)|)
    decreases |rs|
  {
    hide At, RunAt, RunLines, RunOk, Keyword, Peeks;
    if rs != [] {
      var ls, rest := RunLines(rs[0]), RunsLines(rs[1..]);
      AtSplit(rows, i, ls, rest);
      AtEnds(rows, i, ls);
      NoListThen(rows, i + |ls|, rs[1..]);
      assert RunOk(rs[0], index + 0, images, version);
      RunReads(rows, i, rs[0], index, images, version);
      assert forall t | 0 <= t < |rs[1..]| ::
               rs[1..][t] == rs[t + 1] && RunOk(rs[t + 1], index + (t + 1), images, version);
      RunsRead(rows, i + |ls|, rs[1..], index + 1, images, version);
      assert rs == [rs[0]] + rs[1..];
    }
  }

  // ---- a case ---------------------------------------------------------------

  lemma WordsSplit(words: Tokens)
    requires words != [] && AllPrintable(words)
    ensures Split(' ', Join(' ', words)) == words
  {
    forall i | 0 <= i < |words|
      ensures ' ' !in words[i]
    {
      assert Printable(words[i]);
    }
    SplitJoin(' ', words);
  }

  /** A line of a form, from what it holds. */
  lemma LineIs(l: Line, k: Key)
    requires Formed(l) && KeyOf(l) == k
    ensures FormOf(k) == FWord ==> l == Word(k, WordOf(l))
    ensures FormOf(k) == FNum ==> l == Num(k, NumOf(l))
    ensures FormOf(k) == FNamed ==> l == Named(k, FileOf(l))
    ensures FormOf(k) == FMaybe ==> l == Maybe(k, OptOf(l))
    ensures k == KWhat ==> l.What?
    ensures k == KAccuracy ==> l.Accuracy?
    ensures k == KVerdict ==> l.Judged?
  {
  }

  lemma TopLine(ls: seq<Line>, ks: seq<Key>, t: nat)
    requires KeysAre(ls, ks) && AllFormed(ls) && t < |ls|
    ensures Formed(ls[t]) && KeyOf(ls[t]) == ks[t]
  {
  }

  lemma WhatIs(l: Line, text: string)
    requires l.What? && LineOk(l) && text == Join(' ', l.words)
    ensures l == What(Split(' ', text))
  {
    hide Printable, Split, Join;
    assert forall i | 0 <= i < |l.words| :: l.words[i] == Print(l)[i + 1];
    WordsSplit(l.words);
  }

  lemma ModeIs(l: Line)
    requires LineOk(l) && Formed(l)
    ensures KeyOf(l) == KMode ==> WordOf(l) == "keyed" || WordOf(l) == "open"
    ensures KeyOf(l) == KRegenerate ==> WordOf(l) == "yes" || WordOf(l) == "no"
  {
  }

  /** The lines a case's fields were read from are the lines its fields write. */
  lemma TopFrom(c: Case, name: Line, top: seq<Line>)
    requires KeyOf(name) == KCase && Formed(name) && KeysAre(top, TOP) && AllFormed(top) && LinesOk(top)
    requires c.name == WordOf(name)
    requires c.what == (Join(' ', if top[0].What? then top[0].words else []))
    requires c.certificate == FileOf(top[1])
    requires c.version == NumOf(top[2]) && (c.salt.Some? <==> WordOf(top[3]) == "keyed")
    ensures CaseTop(c) == [name] + top
  {
    hide Formed, KeyOf, LineOk, WordOf, NumOf, FileOf, Join, Split, KeysAre, AllFormed, FormOf;
    TopForms();
    assert |top| == 4 by { TopLength(top, TOP); }
    TopLine(top, TOP, 0);
    TopLine(top, TOP, 1);
    TopLine(top, TOP, 2);
    TopLine(top, TOP, 3);
    LineIs(name, KCase);
    LineIs(top[0], KWhat);
    LineIs(top[1], KCertificate);
    LineIs(top[2], KVersion);
    LineIs(top[3], KMode);
    WhatIs(top[0], c.what);
    ModeIs(top[3]);
    assert top == [top[0], top[1], top[2], top[3]];
  }

  lemma TopForms()
    ensures FormOf(KCase) == FormOf(KMode) == FWord && FormOf(KCertificate) == FNamed && FormOf(KVersion) == FNum
  {
  }

  lemma TopLength(ls: seq<Line>, ks: seq<Key>)
    requires KeysAre(ls, ks)
    ensures |ls| == |ks|
  {
  }

  /** The same of the lines after the mode, six and six. */
  lemma RestFrom(c: Case, rest: seq<Line>)
    requires KeysAre(rest, REST) && AllFormed(rest) && LinesOk(rest)
    requires c.depth == NumOf(rest[0]) && c.backends == WordOf(rest[1]) && c.writers == WordOf(rest[2])
    requires c.accuracy == (if rest[3].Accuracy? then rest[3].n else 0)
    requires c.verdict == (if rest[4].Judged? then rest[4].verdict else Accepted)
    requires c.states == WordOf(rest[5]) && c.blocks == WordOf(rest[6])
    requires c.signature == OptOf(rest[7]) && c.keyring == OptOf(rest[8])
    requires c.superseded == (if WordOf(rest[9]) == "none" then None else Some(WordOf(rest[9])))
    requires c.define == WordOf(rest[10]) && c.regenerate == (WordOf(rest[11]) == "yes")
    ensures CaseRest(c) == rest
  {
    hide Formed, KeyOf, LineOk, WordOf, NumOf, OptOf, KeysAre, AllFormed;
    assert |rest| == 12 by { TopLength(rest, REST); }
    RestLines(rest);
    ModeIs(rest[11]);
    assert rest == [rest[0], rest[1], rest[2], rest[3], rest[4], rest[5], rest[6], rest[7], rest[8], rest[9],
                    rest[10], rest[11]];
  }

  lemma RestLines(rest: seq<Line>)
    requires KeysAre(rest, REST) && AllFormed(rest)
    ensures rest[0] == Num(KDepth, NumOf(rest[0])) && rest[1] == Word(KBackends, WordOf(rest[1]))
    ensures rest[2] == Word(KWriters, WordOf(rest[2]))
    ensures rest[3].Accuracy? && rest[4].Judged? && rest[5] == Word(KStates, WordOf(rest[5]))
    ensures rest[6] == Word(KBlocks, WordOf(rest[6]))
    ensures rest[7] == Maybe(KSignature, OptOf(rest[7])) && rest[8] == Maybe(KKeyring, OptOf(rest[8]))
    ensures rest[9] == Word(KSuperseded, WordOf(rest[9])) && rest[10] == Word(KDefine, WordOf(rest[10]))
    ensures rest[11] == Word(KRegenerate, WordOf(rest[11])) && Formed(rest[11]) && KeyOf(rest[11]) == KRegenerate
  {
    hide Formed, KeyOf, WordOf, NumOf, OptOf, KeysAre, AllFormed, FormOf;
    RestForms();
    TopLength(rest, REST);
    LineAt(rest, REST, 0);
    LineAt(rest, REST, 1);
    LineAt(rest, REST, 2);
    LineAt(rest, REST, 3);
    LineAt(rest, REST, 4);
    LineAt(rest, REST, 5);
    LineAt(rest, REST, 6);
    LineAt(rest, REST, 7);
    LineAt(rest, REST, 8);
    LineAt(rest, REST, 9);
    LineAt(rest, REST, 10);
    LineAt(rest, REST, 11);
    TopLine(rest, REST, 11);
  }

  lemma RestForms()
    ensures FormOf(KDepth) == FNum && FormOf(KSignature) == FMaybe && FormOf(KKeyring) == FMaybe
    ensures FormOf(KBackends) == FormOf(KWriters) == FormOf(KStates) == FormOf(KBlocks) == FWord
    ensures FormOf(KSuperseded) == FormOf(KDefine) == FormOf(KRegenerate) == FWord
  {
  }

  lemma LineAt(ls: seq<Line>, ks: seq<Key>, t: nat)
    requires KeysAre(ls, ks) && AllFormed(ls) && t < |ls|
    ensures var l, k := ls[t], ks[t];
            && (FormOf(k) == FWord ==> l == Word(k, WordOf(l))) && (FormOf(k) == FNum ==> l == Num(k, NumOf(l)))
            && (FormOf(k) == FMaybe ==> l == Maybe(k, OptOf(l))) && (k == KAccuracy ==> l.Accuracy?)
            && (k == KVerdict ==> l.Judged?)
  {
    hide Formed, KeyOf, WordOf, NumOf, OptOf, FormOf;
    TopLine(ls, ks, t);
    LineIs(ls[t], ks[t]);
  }

  lemma CaseHeadSays(rows: seq<Row>, i: nat, names: set<string>)
    requires i <= |rows| && CaseHeadAt(rows, i, names).Got?
    ensures var r := CaseHeadAt(rows, i, names);
            && At(rows, i, CaseHead(r.value)) && r.next == i + |CaseHead(r.value)| && VersionOk(r.value)
            && r.value.name !in names
            && i < |rows| && r.value.line == rows[i].n && r.value.runs == [] && r.value.superseded != Some("none")
  {
    hide At, Expect, ExpectAll, LineOk, LinesOk, Formed, AllFormed, KeysAre, WordOf, NumOf, FileOf, OptOf, VersionOk,
         Join, Split, CaseTop, CaseRest, CaseSalt;
    ExpectGot(rows, i, KCase);
    var name := Expect(rows, i, KCase).value;
    AllSay(rows, i + 1, TOP);
    var top := ExpectAll(rows, i + 1, TOP);
    AllSay(rows, top.next, SaltKeys(top.value[3]));
    var salt := ExpectAll(rows, top.next, SaltKeys(top.value[3]));
    AllSay(rows, salt.next, REST);
    var rest := ExpectAll(rows, salt.next, REST);
    var c := CaseHeadAt(rows, i, names).value;
    AtOk(rows, i + 1, top.value);
    AtOk(rows, salt.next, rest.value);
    TopFrom(c, name, top.value);
    RestFrom(c, rest.value);
    SaltFrom(c, salt.value);
    AtSplit(rows, i, [name], top.value);
    AtSplit(rows, salt.next - |salt.value|, CaseSalt(c), CaseRest(c));
    AtSplit(rows, i, CaseTop(c), CaseSalt(c) + CaseRest(c));
  }

  lemma SaltFrom(c: Case, salt: seq<Line>)
    requires KeysAre(salt, []) || KeysAre(salt, [KSalt])
    requires AllFormed(salt)
    requires c.salt == if salt != [] then Some(FileOf(salt[0])) else None
    ensures CaseSalt(c) == salt
  {
    if salt != [] { assert Formed(salt[0]); }
  }

  /** A case's lines, by key, and the case read off them. */
  lemma LinesOfCase(c: Case)
    ensures CaseTop(c) == [Word(KCase, c.name)] + CaseTop(c)[1..] && KeysAre(CaseTop(c)[1..], TOP)
    ensures KeysAre(CaseSalt(c), SaltKeys(CaseTop(c)[4])) && KeysAre(CaseRest(c), REST)
  {
    hide Split;
  }

  lemma CaseOfLines(c: Case, n: nat)
    requires c.superseded != Some("none")
    ensures CaseOf(n, CaseTop(c)[0], CaseTop(c)[1..], CaseSalt(c), CaseRest(c)) == c.(line := n, runs := [])
  {
    hide Split, Join;
    JoinSplit(' ', c.what);
  }

  lemma CaseHeadReads(rows: seq<Row>, i: nat, c: Case, names: set<string>)
    requires i + |CaseHead(c)| <= |rows| && At(rows, i, CaseHead(c)) && VersionOk(c)
    requires c.name !in names && c.superseded != Some("none")
    ensures CaseHeadAt(rows, i, names) == Got(c.(line := rows[i].n, runs := []), i + |CaseHead(c)|)
  {
    hide At, Expect, ExpectAll, LineOk, CaseTop, CaseSalt, CaseRest, KeysAre, VersionOk, CaseOf, SaltKeys;
    LinesOfCase(c);
    var name, top, salt, rest := Word(KCase, c.name), CaseTop(c)[1..], CaseSalt(c), CaseRest(c);
    AtSplit(rows, i, CaseTop(c), salt + rest);
    AtSplit(rows, i, [name], top);
    var i2 := i + 1 + |top|;
    AtSplit(rows, i2, salt, rest);
    ExpectIs(rows, i, KCase, name);
    AllRead(rows, i + 1, TOP, top);
    TopLength(top, TOP);
    assert top[3] == CaseTop(c)[4];
    AllRead(rows, i2, SaltKeys(top[3]), salt);
    AllRead(rows, i2 + |salt|, REST, rest);
    TopLength(rest, REST);
    CaseOfLines(c, rows[i].n);
    HeadVersion(c, rows[i].n);
  }

  lemma HeadVersion(c: Case, n: nat)
    ensures VersionOk(c.(line := n, runs := [])) == VersionOk(c)
  {
  }

  lemma CaseSays(rows: seq<Row>, i: nat, images: set<string>, names: set<string>)
    requires i <= |rows| && CaseAt(rows, i, images, names).Got?
    ensures var r := CaseAt(rows, i, images, names);
            && At(rows, i, CaseLines(r.value)) && r.next == i + |CaseLines(r.value)| && CaseOk(r.value, images)
            && r.value.name !in names && i < |rows| && r.value.line == rows[i].n
  {
    hide At, Expect, CaseHeadAt, RunsAt, RunsLines, CaseHead, LineOk, LinesOk, RunOk, DepthsOk, VersionOk;
    CaseHeadSays(rows, i, names);
    var head := CaseHeadAt(rows, i, names);
    ExpectGot(rows, head.next, KRuns);
    var l := Expect(rows, head.next, KRuns).value;
    RunsSay(rows, head.next + 1, 0, NumOf(l), images, head.value.version);
    var c := CaseAt(rows, i, images, names).value;
    HeadIgnoresRuns(head.value, c.runs);
    AtSplit(rows, head.next, [l], RunsLines(c.runs));
    AtSplit(rows, i, CaseHead(c), [l] + RunsLines(c.runs));
    AtOk(rows, i, CaseLines(c));
    assert forall t | 0 <= t < |c.runs| :: RunOk(c.runs[t], 0 + t, images, c.version);
  }

  lemma HeadIgnoresRuns(c: Case, rs: seq<Run>)
    ensures CaseHead(c.(runs := rs)) == CaseHead(c) && VersionOk(c.(runs := rs)) == VersionOk(c)
  {
  }

  lemma CaseReads(rows: seq<Row>, i: nat, c: Case, images: set<string>, names: set<string>)
    requires i + |CaseLines(c)| <= |rows| && At(rows, i, CaseLines(c)) && CaseOk(c, images) && c.name !in names
    requires !Peeks(rows, i + |CaseLines(c)|, Keyword(KBlock)) && !Peeks(rows, i + |CaseLines(c)|, Keyword(KRaw))
    ensures i < |rows| && CaseAt(rows, i, images, names) == Got(c.(line := rows[i].n), i + |CaseLines(c)|)
  {
    hide At, Expect, CaseHeadAt, RunsAt, RunsLines, CaseHead, LineOk, LinesOk, RunOk, DepthsOk, VersionOk, Keyword,
         Peeks;
    var l, more := Num(KRuns, |c.runs|), RunsLines(c.runs);
    AtSplit(rows, i, CaseHead(c), [l] + more);
    var i1 := i + |CaseHead(c)|;
    AtSplit(rows, i1, [l], more);
    CaseHeadReads(rows, i, c, names);
    ExpectIs(rows, i1, KRuns, l);
    assert forall t | 0 <= t < |c.runs| :: RunOk(c.runs[t], t, images, c.version);
    RunsRead(rows, i1 + 1, c.runs, 0, images, c.version);
    DepthsSame(c, rows[i].n);
  }

  lemma DepthsSame(c: Case, n: nat)
    ensures DepthsOk(c.(line := n)) == DepthsOk(c)
  {
  }

  // ---- the whole ------------------------------------------------------------

  /** The case without the line it was read from. */
  function Unlined(c: Case): Case { c.(line := 0) }

  function AllUnlined(cs: seq<Case>): (us: seq<Case>)
    ensures |us| == |cs| && forall t | 0 <= t < |cs| :: us[t] == Unlined(cs[t])
  {
    if cs == [] then [] else [Unlined(cs[0])] + AllUnlined(cs[1..])
  }

  predicate CasesFresh(cs: seq<Case>, images: set<string>, names: set<string>) {
    CasesOk(cs, images) && forall t | 0 <= t < |cs| :: cs[t].name !in names
  }

  lemma FreshCons(c: Case, cs: seq<Case>, images: set<string>, names: set<string>)
    ensures CasesFresh([c] + cs, images, names) <==>
              CaseOk(c, images) && c.name !in names && CasesFresh(cs, images, names + {c.name})
  {
    hide CaseOk;
    var all := [c] + cs;
    assert forall t | 0 <= t < |cs| :: all[t + 1] == cs[t];
    assert all[0] == c;
    if CaseOk(c, images) && c.name !in names && CasesFresh(cs, images, names + {c.name}) {
      assert forall t | 1 <= t < |all| :: all[t] == cs[t - 1];
    }
    if CasesFresh(all, images, names) {
      forall t | 0 <= t < |cs|
        ensures CaseOk(cs[t], images) && cs[t].name !in names + {c.name}
      {
        assert CaseOk(all[t + 1], images) && all[0].name != all[t + 1].name;
      }
      forall a, b | 0 <= a < b < |cs|
        ensures cs[a].name != cs[b].name
      {
        assert all[a + 1].name != all[b + 1].name;
      }
    }
  }

  lemma {:induction false} CasesSay(rows: seq<Row>, i: nat, images: set<string>, names: set<string>)
    requires i <= |rows| && CasesAt(rows, i, images, names).Got?
    ensures var r := CasesAt(rows, i, images, names);
            && At(rows, i, CasesLines(r.value)) && i + |CasesLines(r.value)| == |rows|
            && CasesFresh(r.value, images, names)
    decreases |rows| - i
  {
    hide At, CaseAt, CaseLines, CaseOk;
    AtNone(rows, i);
    if i < |rows| {
      CaseSays(rows, i, images, names);
      var c := CaseAt(rows, i, images, names);
      CasesSay(rows, c.next, images, names + {c.value.name});
      var cs := CasesAt(rows, c.next, images, names + {c.value.name}).value;
      FreshCons(c.value, cs, images, names);
      assert ([c.value] + cs)[1..] == cs;
      AtSplit(rows, i, CaseLines(c.value), CasesLines(cs));
    }
  }

  lemma CaseLinesStart(c: Case)
    ensures CaseLines(c) != [] && CaseLines(c)[0] == Word(KCase, c.name)
  {
    hide RunsLines, CaseSalt, CaseRest, Split;
  }

  /** What starts a case peeks as nothing a run could end with, nor as an image. */
  lemma CasesPeek(rows: seq<Row>, i: nat, cs: seq<Case>)
    requires i <= |rows| && At(rows, i, CasesLines(cs)) && (cs == [] ==> i == |rows|)
    ensures !Peeks(rows, i, Keyword(KBlock)) && !Peeks(rows, i, Keyword(KRaw))
    ensures !Peeks(rows, i, Keyword(KImage)) && !Peeks(rows, i, Keyword(KSource))
  {
    hide At, CaseLines, LineOk;
    if cs != [] {
      var ls := CaseLines(cs[0]);
      CaseLinesStart(cs[0]);
      AtSplit(rows, i, ls, CasesLines(cs[1..]));
      assert ls == [ls[0]] + ls[1..];
      AtSplit(rows, i, [ls[0]], ls[1..]);
      AtPeeks(rows, i, ls[0]);
    }
  }

  lemma {:induction false} CasesRead(rows: seq<Row>, i: nat, cs: seq<Case>, images: set<string>, names: set<string>)
    requires At(rows, i, CasesLines(cs)) && i + |CasesLines(cs)| == |rows| && CasesFresh(cs, images, names)
    ensures var r := CasesAt(rows, i, images, names); r.Got? && AllUnlined(r.value) == AllUnlined(cs)
    decreases |cs|
  {
    hide At, CaseAt, CaseLines, CaseOk, CasesFresh, Keyword, Peeks;
    if cs != [] {
      var c, ls, rest := cs[0], CaseLines(cs[0]), CasesLines(cs[1..]);
      assert cs == [c] + cs[1..];
      AtSplit(rows, i, ls, rest);
      FreshCons(c, cs[1..], images, names);
      CaseLinesStart(c);
      CasesPeek(rows, i + |ls|, cs[1..]);
      CaseReads(rows, i, c, images, names);
      CasesRead(rows, i + |ls|, cs[1..], images, names + {c.name});
      var got := CasesAt(rows, i + |ls|, images, names + {c.name}).value;
      assert ([c.(line := rows[i].n)] + got)[1..] == got;
    }
  }

  lemma {:induction false} SourcesSay(rows: seq<Row>, i: nat)
    requires i <= |rows| && SourcesAt(rows, i).Got?
    ensures var r := SourcesAt(rows, i); At(rows, i, SourceLines(r.value)) && r.next == i + |r.value|
    decreases |rows| - i
  {
    hide At, Expect, LineOk, Keyword, Print;
    AtNone(rows, i);
    if Peeks(rows, i, Keyword(KSource)) {
      ExpectGot(rows, i, KSource);
      SourcesSay(rows, i + 1);
      var l, fs := Expect(rows, i, KSource).value, SourcesAt(rows, i + 1).value;
      assert ([l.f] + fs)[1..] == fs;
      AtSplit(rows, i, [l], SourceLines(fs));
    }
  }

  lemma {:induction false} SourcesRead(rows: seq<Row>, i: nat, fs: seq<File>)
    requires i + |fs| <= |rows| && At(rows, i, SourceLines(fs)) && !Peeks(rows, i + |fs|, Keyword(KSource))
    ensures SourcesAt(rows, i) == Got(fs, i + |fs|)
    decreases |fs|
  {
    hide At, Expect, LineOk, Keyword, Print;
    if fs != [] {
      var l := Named(KSource, fs[0]);
      AtSplit(rows, i, [l], SourceLines(fs[1..]));
      ExpectIs(rows, i, KSource, l);
      AtPeeks(rows, i, l);
      SourcesRead(rows, i + 1, fs[1..]);
      assert fs == [fs[0]] + fs[1..];
    }
  }

  lemma {:induction false} ImagesSay(rows: seq<Row>, i: nat)
    requires i <= |rows| && ImagesAt(rows, i).Got?
    ensures var r := ImagesAt(rows, i); At(rows, i, ImageLines(r.value)) && r.next == i + |r.value|
    decreases |rows| - i
  {
    hide At, Expect, LineOk, Keyword, Print;
    AtNone(rows, i);
    if Peeks(rows, i, Keyword(KImage)) {
      ExpectGot(rows, i, KImage);
      ImagesSay(rows, i + 1);
      var l, ims := Expect(rows, i, KImage).value, ImagesAt(rows, i + 1).value;
      assert ([l.im] + ims)[1..] == ims;
      AtSplit(rows, i, [l], ImageLines(ims));
    }
  }

  lemma {:induction false} ImagesRead(rows: seq<Row>, i: nat, ims: seq<Image>)
    requires i + |ims| <= |rows| && At(rows, i, ImageLines(ims)) && !Peeks(rows, i + |ims|, Keyword(KImage))
    ensures ImagesAt(rows, i) == Got(ims, i + |ims|)
    decreases |ims|
  {
    hide At, Expect, LineOk, Keyword, Print;
    if ims != [] {
      var l := ImageLine(ims[0]);
      AtSplit(rows, i, [l], ImageLines(ims[1..]));
      ExpectIs(rows, i, KImage, l);
      AtPeeks(rows, i, l);
      ImagesRead(rows, i + 1, ims[1..]);
      assert ims == [ims[0]] + ims[1..];
    }
  }

  /** Before the images no line peeks as a source: images begin with their own word. */
  lemma ImagesPeek(rows: seq<Row>, i: nat, ims: seq<Image>)
    requires i <= |rows| && ims != [] && At(rows, i, ImageLines(ims))
    ensures !Peeks(rows, i, Keyword(KSource))
  {
    hide At, LineOk, Print;
    var l := ImageLine(ims[0]);
    AtSplit(rows, i, [l], ImageLines(ims[1..]));
    AtPeeks(rows, i, l);
  }

  lemma {:induction false} DanglingIs(cs: seq<Case>, known: set<string>)
    ensures Dangling(cs, known).None? <==> forall t | 0 <= t < |cs| ::
              cs[t].superseded.Some? ==> cs[t].superseded.value in known
  {
    if cs != [] {
      DanglingIs(cs[1..], known);
      assert forall t | 0 <= t < |cs[1..]| :: cs[1..][t] == cs[t + 1];
      assert cs == [cs[0]] + cs[1..];
    }
  }

  /** The rows, all of them, say this document. */
  predicate Writes(rows: seq<Row>, d: Doc) {
    At(rows, 0, DocLines(d)) && |rows| == |DocLines(d)|
  }

  /** Whatever is accepted is well formed, and the rows are the lines it writes: nothing in
      them is passed over, and no value has two spellings. */
  lemma AcceptedSays(rows: seq<Row>)
    requires DocAt(rows).Got?
    ensures Writes(rows, DocAt(rows).value) && DocOk(DocAt(rows).value)
  {
    hide At, Expect, SourcesAt, ImagesAt, CasesAt, SourceLines, ImageLines, CasesLines, LineOk, LinesOk, CasesOk,
         Keyword;
    ExpectGot(rows, 0, KCorpus);
    var l := Expect(rows, 0, KCorpus).value;
    CorpusIs(l);
    SourcesSay(rows, 1);
    var fs := SourcesAt(rows, 1);
    ImagesSay(rows, fs.next);
    var ims := ImagesAt(rows, fs.next);
    CasesSay(rows, ims.next, Paths(ims.value), {});
    var cs := CasesAt(rows, ims.next, Paths(ims.value), {}).value;
    DanglingIs(cs, Names(cs));
    AtOk(rows, 1, SourceLines(fs.value));
    AtOk(rows, fs.next, ImageLines(ims.value));
    AtSplit(rows, fs.next, ImageLines(ims.value), CasesLines(cs));
    AtSplit(rows, 1, SourceLines(fs.value), ImageLines(ims.value) + CasesLines(cs));
    AtSplit(rows, 0, [l], SourceLines(fs.value) + (ImageLines(ims.value) + CasesLines(cs)));
  }

  lemma CorpusIs(l: Line)
    requires LineOk(l) && KeyOf(l) == KCorpus
    ensures l == Word(KCorpus, "2")
  {
    FormIs(l);
  }

  /** The rows a well-formed document writes are accepted, and read as that document. */
  lemma WrittenReads(rows: seq<Row>, d: Doc)
    requires Writes(rows, d) && DocOk(d)
    ensures var r := DocAt(rows);
            && r.Got? && r.value.sources == d.sources && r.value.images == d.images
            && AllUnlined(r.value.cases) == AllUnlined(d.cases)
  {
    hide At, Expect, SourcesAt, ImagesAt, CasesAt, SourceLines, ImageLines, CasesLines, LineOk, LinesOk, CasesOk,
         Keyword, Peeks;
    var l, fs, ims, cs := Word(KCorpus, "2"), SourceLines(d.sources), ImageLines(d.images), CasesLines(d.cases);
    AtSplit(rows, 0, [l], fs + (ims + cs));
    AtSplit(rows, 1, fs, ims + cs);
    var i2 := 1 + |fs|;
    AtSplit(rows, i2, ims, cs);
    var i3 := i2 + |ims|;
    ExpectIs(rows, 0, KCorpus, l);
    ImagesPeek(rows, i2, d.images);
    SourcesRead(rows, 1, d.sources);
    CasesPeek(rows, i3, d.cases);
    ImagesRead(rows, i2, d.images);
    CasesRead(rows, i3, d.cases, Paths(d.images), {});
    var got := CasesAt(rows, i3, Paths(d.images), {}).value;
    SameNames(got, d.cases);
    DanglingIs(got, Names(got));
  }

  lemma SameNames(a: seq<Case>, b: seq<Case>)
    requires AllUnlined(a) == AllUnlined(b)
    ensures Names(a) == Names(b) && |a| == |b| && forall t | 0 <= t < |a| :: a[t].superseded == b[t].superseded
  {
    hide AllUnlined, Names;
    var us, vs := AllUnlined(a), AllUnlined(b);
    forall t | 0 <= t < |a|
      ensures a[t].name == b[t].name && a[t].superseded == b[t].superseded
    {
      assert us[t] == Unlined(a[t]) && vs[t] == Unlined(b[t]);
    }
    NamesAlike(a, b);
  }

  lemma NamesAlike(a: seq<Case>, b: seq<Case>)
    requires |a| == |b| && forall t | 0 <= t < |a| :: a[t].name == b[t].name
    ensures Names(a) == Names(b)
  {
    assert forall t | 0 <= t < |a| :: a[t].name in Names(b) && b[t].name in Names(a);
  }
}
