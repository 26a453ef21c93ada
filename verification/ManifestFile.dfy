/** certificates/MANIFEST as text: the corpus it holds, the text that write_manifest makes
    of one, and the two inverse laws. */
module ManifestFile {
  import opened Text
  import opened Order
  import opened Grammar
  import opened Manifest
  import opened ManifestRoundTrip

  datatype Corpus = Corpus(sources: map<string, string>, images: map<string, Image>, cases: seq<Case>)

  // ---- text to rows ---------------------------------------------------------

  /** A comment line, or a blank one. */
  predicate Passed(raw: string) { raw == "" || raw[0] == '#' }

  function RowsFrom(lines: seq<string>, n: nat): seq<Row>
    decreases |lines|
  {
    if lines == [] then []
    else (if Passed(lines[0]) then [] else [Row(n, Split(' ', lines[0]))]) + RowsFrom(lines[1..], n + 1)
  }

  function RowsOf(text: string): seq<Row> { RowsFrom(Split('\n', text), 1) }

  /** The lines of the rows, without their numbers. */
  function Spoken(rows: seq<Row>): (ts: seq<Tokens>)
    ensures |ts| == |rows| && forall i | 0 <= i < |rows| :: ts[i] == rows[i].tok
  {
    seq(|rows|, i requires 0 <= i < |rows| => rows[i].tok)
  }

  lemma {:induction false} RowsConcat(a: seq<string>, b: seq<string>, n: nat)
    ensures RowsFrom(a + b, n) == RowsFrom(a, n) + RowsFrom(b, n + |a|)
    decreases |a|
  {
    if a == [] {
      assert a + b == b;
    } else {
      assert (a + b)[1..] == a[1..] + b;
      RowsConcat(a[1..], b, n + 1);
    }
  }

  lemma {:induction false} AllPassed(a: seq<string>, n: nat)
    requires forall i | 0 <= i < |a| :: Passed(a[i])
    ensures RowsFrom(a, n) == []
    decreases |a|
  {
    if a != [] { AllPassed(a[1..], n + 1); }
  }

  // ---- a corpus and its order -----------------------------------------------

  function SourcesMap(fs: seq<File>): map<string, string> {
    if fs == [] then map[] else SourcesMap(fs[..|fs| - 1])[fs[|fs| - 1].path := fs[|fs| - 1].sha]
  }

  function ImagesMap(ims: seq<Image>): map<string, Image> {
    if ims == [] then map[] else ImagesMap(ims[..|ims| - 1])[ims[|ims| - 1].path := ims[|ims| - 1]]
  }

  lemma {:induction false} SourceLinesAt(fs: seq<File>)
    ensures forall k | 0 <= k < |fs| :: SourceLines(fs)[k] == Named(KSource, fs[k])
  {
    if fs != [] { SourceLinesAt(fs[1..]); }
  }

  lemma {:induction false} ImageLinesAt(ims: seq<Image>)
    ensures forall k | 0 <= k < |ims| :: ImageLines(ims)[k] == ImageLine(ims[k])
  {
    if ims != [] { ImageLinesAt(ims[1..]); }
  }

  /** A document as the reader keeps it: a repeated path's last line wins. */
  function CorpusOf(d: Doc): Corpus {
    Corpus(SourcesMap(d.sources), ImagesMap(d.images), d.cases)
  }

  function SourcesIn(m: map<string, string>, ps: seq<string>): (fs: seq<File>)
    requires forall i | 0 <= i < |ps| :: ps[i] in m
    ensures |fs| == |ps| && forall i | 0 <= i < |ps| :: fs[i] == File(ps[i], m[ps[i]])
  {
    seq(|ps|, i requires 0 <= i < |ps| => File(ps[i], m[ps[i]]))
  }

  function ImagesIn(m: map<string, Image>, ps: seq<string>): (ims: seq<Image>)
    requires forall i | 0 <= i < |ps| :: ps[i] in m
    ensures |ims| == |ps| && forall i | 0 <= i < |ps| :: ims[i] == m[ps[i]]
  {
    seq(|ps|, i requires 0 <= i < |ps| => m[ps[i]])
  }

  /** The document write_manifest writes: sources and images in their paths' order. */
  ghost function InOrder(c: Corpus): Doc {
    Doc(SourcesIn(c.sources, Order.Sorted(c.sources.Keys)), ImagesIn(c.images, Order.Sorted(c.images.Keys)), c.cases)
  }

  /** Well formed: the document it writes is, and each image is under its own path. */
  ghost predicate CorpusOk(c: Corpus) {
    DocOk(InOrder(c)) && forall p | p in c.images :: c.images[p].path == p
  }

  predicate DistinctPaths(ps: seq<string>) {
    forall i, j | 0 <= i < j < |ps| :: ps[i] != ps[j]
  }

  function SourcePaths(fs: seq<File>): (ps: seq<string>)
    ensures |ps| == |fs| && forall i | 0 <= i < |fs| :: ps[i] == fs[i].path
  {
    seq(|fs|, i requires 0 <= i < |fs| => fs[i].path)
  }

  function ImagePaths(ims: seq<Image>): (ps: seq<string>)
    ensures |ps| == |ims| && forall i | 0 <= i < |ims| :: ps[i] == ims[i].path
  {
    seq(|ims|, i requires 0 <= i < |ims| => ims[i].path)
  }

  lemma {:induction false} SourcesMapIs(fs: seq<File>)
    ensures forall p :: p in SourcesMap(fs) <==> p in SourcePaths(fs)
    ensures forall p :: p in SourcesMap(fs) ==> File(p, SourcesMap(fs)[p]) in fs
    ensures DistinctPaths(SourcePaths(fs)) ==> forall i | 0 <= i < |fs| ::
              fs[i].path in SourcesMap(fs) && SourcesMap(fs)[fs[i].path] == fs[i].sha
  {
    hide DistinctPaths;
    if fs != [] {
      var n := |fs| - 1;
      SourcesMapIs(fs[..n]);
      assert SourcePaths(fs) == SourcePaths(fs[..n]) + [fs[n].path];
    }
    if DistinctPaths(SourcePaths(fs)) { DistinctSources(fs); }
  }

  lemma {:induction false} DistinctSources(fs: seq<File>)
    requires DistinctPaths(SourcePaths(fs))
    ensures forall i | 0 <= i < |fs| :: fs[i].path in SourcesMap(fs) && SourcesMap(fs)[fs[i].path] == fs[i].sha
  {
    if fs != [] {
      var n := |fs| - 1;
      var ps, qs := SourcePaths(fs), SourcePaths(fs[..n]);
      assert DistinctPaths(qs) by { assert forall i | 0 <= i < n :: qs[i] == ps[i]; }
      DistinctSources(fs[..n]);
      forall i | 0 <= i < |fs|
        ensures fs[i].path in SourcesMap(fs) && SourcesMap(fs)[fs[i].path] == fs[i].sha
      {
        if i < n { assert ps[i] != ps[n] && fs[..n][i] == fs[i]; }
      }
    }
  }

  lemma {:induction false} ImagesMapIs(ims: seq<Image>)
    ensures forall p :: p in ImagesMap(ims) <==> p in ImagePaths(ims)
    ensures forall p :: p in ImagesMap(ims) ==> ImagesMap(ims)[p].path == p && ImagesMap(ims)[p] in ims
    ensures DistinctPaths(ImagePaths(ims)) ==> forall i | 0 <= i < |ims| ::
              ims[i].path in ImagesMap(ims) && ImagesMap(ims)[ims[i].path] == ims[i]
  {
    if ims != [] {
      var n := |ims| - 1;
      ImagesMapIs(ims[..n]);
      var ps, qs := ImagePaths(ims), ImagePaths(ims[..n]);
      assert ps == qs + [ims[n].path];
      if DistinctPaths(ps) {
        assert DistinctPaths(qs) by { assert forall i | 0 <= i < n :: qs[i] == ps[i]; }
        forall i | 0 <= i < |ims|
          ensures ims[i].path in ImagesMap(ims) && ImagesMap(ims)[ims[i].path] == ims[i]
        {
          if i < n { assert ps[i] != ps[n] && ims[..n][i] == ims[i]; }
        }
      }
    }
  }

  lemma IncreasingIsDistinct(ps: seq<string>)
    requires Increasing(ps)
    ensures DistinctPaths(ps)
  {
    forall i, j | 0 <= i < j < |ps|
      ensures ps[i] != ps[j]
    {
      assert Less(ps[i], ps[j]);
      LessIrreflexive(ps[i]);
    }
  }

  lemma SourcesKeep(m: map<string, string>)
    ensures SourcesMap(SourcesIn(m, Order.Sorted(m.Keys))) == m
  {
    hide SourcesMap;
    var ps := Order.Sorted(m.Keys);
    var fs := SourcesIn(m, ps);
    IncreasingIsDistinct(ps);
    assert SourcePaths(fs) == ps;
    SourcesMapIs(fs);
    forall p
      ensures p in SourcesMap(fs) <==> p in m
      ensures p in m ==> SourcesMap(fs)[p] == m[p]
    {
      if p in m { var i :| 0 <= i < |ps| && ps[i] == p; assert fs[i] == File(p, m[p]); }
    }
  }

  lemma ImagesKeep(m: map<string, Image>)
    requires forall p | p in m :: m[p].path == p
    ensures ImagesMap(ImagesIn(m, Order.Sorted(m.Keys))) == m
  {
    hide ImagesMap;
    var ps := Order.Sorted(m.Keys);
    var ims := ImagesIn(m, ps);
    IncreasingIsDistinct(ps);
    assert ImagePaths(ims) == ps;
    ImagesMapIs(ims);
    forall p
      ensures p in ImagesMap(ims) <==> p in m
      ensures p in m ==> ImagesMap(ims)[p] == m[p]
    {
      if p in m { var i :| 0 <= i < |ps| && ps[i] == p; assert ims[i] == m[p]; }
    }
  }

  /** The order written loses nothing. */
  lemma OrderKeeps(c: Corpus)
    requires forall p | p in c.images :: c.images[p].path == p
    ensures CorpusOf(InOrder(c)) == c
  {
    hide SourcesMap, ImagesMap, SourcesIn, ImagesIn;
    SourcesKeep(c.sources);
    ImagesKeep(c.images);
  }

  // ---- written --------------------------------------------------------------

  /** A line as it stands in the file. */
  function Spelled(l: Line): string { Join(' ', Print(l)) }

  function AllSpelled(ls: seq<Line>): (ss: seq<string>)
    ensures |ss| == |ls| && forall i | 0 <= i < |ls| :: ss[i] == Spelled(ls[i])
  {
    seq(|ls|, i requires 0 <= i < |ls| => Spelled(ls[i]))
  }

  /** The cases, a blank line before each. */
  function CasesSpelled(cs: seq<Case>): seq<string> {
    if cs == [] then [] else [""] + (AllSpelled(CaseLines(cs[0])) + CasesSpelled(cs[1..]))
  }

  /** The file's lines, under a head of comments. */
  function DocSpelled(head: seq<string>, d: Doc): seq<string> {
    head + ([Spelled(Word(KCorpus, "2")), ""]
            + (AllSpelled(SourceLines(d.sources)) + (AllSpelled(ImageLines(d.images)) + CasesSpelled(d.cases))))
  }

  ghost function WriteText(head: seq<string>, c: Corpus): string {
    Join('\n', DocSpelled(head, InOrder(c))) + "\n"
  }

  /** Every line of the head a comment. */
  predicate Comments(head: seq<string>) {
    forall i | 0 <= i < |head| :: head[i] != "" && head[i][0] == '#' && '\n' !in head[i]
  }

  // ---- read -----------------------------------------------------------------

  datatype Answer = Accepts(corpus: Corpus) | Refuses(line: nat)

  function ReadText(text: string): Answer {
    match DocAt(RowsOf(text))
    case Got(d, _) => Accepts(CorpusOf(d))
    case Bad(n) => Refuses(n)
  }

  // ---- what is written is read ----------------------------------------------

  lemma KeywordStarts(k: Key)
    ensures Keyword(k) != "" && Keyword(k)[0] != '#'
  {
  }

  lemma JoinStart(ts: Tokens)
    requires ts != [] && ts[0] != ""
    ensures Join(' ', ts) != "" && Join(' ', ts)[0] == ts[0][0]
  {
  }

  /** A grammar line in the file: not passed over, no newline in it, its tokens its own. */
  lemma SpelledIs(l: Line)
    requires LineOk(l)
    ensures Split(' ', Spelled(l)) == Print(l) && !Passed(Spelled(l)) && '\n' !in Spelled(l)
  {
    hide LineOk, Keyword, Says, KeyOf, Printable, Split, Join;
    PrintedClean(l);
    WordsSplit(Print(l));
    KeywordStarts(KeyOf(l));
    JoinStart(Print(l));
    NoNewline(Print(l));
  }

  lemma {:induction false} NoNewline(ts: Tokens)
    requires AllPrintable(ts)
    ensures '\n' !in Join(' ', ts)
  {
    if ts != [] {
      assert Printable(ts[0]);
      assert AllPrintable(ts[1..]) by { assert forall i | 0 <= i < |ts[1..]| :: ts[1..][i] == ts[i + 1]; }
      NoNewline(ts[1..]);
    }
  }

  lemma {:induction false} SpelledRows(ls: seq<Line>, n: nat)
    requires LinesOk(ls)
    ensures Spoken(RowsFrom(AllSpelled(ls), n)) == PrintAll(ls) && Free('\n', AllSpelled(ls))
    decreases |ls|
  {
    hide LineOk, Spelled, Print, Passed, Split, Free, RowsFrom;
    if ls == [] {
      NothingSpelled(n);
    } else {
      SpelledIs(ls[0]);
      var more := AllSpelled(ls)[1..];
      assert more == AllSpelled(ls[1..]);
      assert LinesOk(ls[1..]) by {
        assert forall i | 0 <= i < |ls[1..]| :: ls[1..][i] == ls[i + 1] && LineOk(ls[i + 1]);
      }
      SpelledRows(ls[1..], n + 1);
      assert AllSpelled(ls) == [Spelled(ls[0])] + more;
      SpokenOneMore(Spelled(ls[0]), more, n);
      FreeOneMore(Spelled(ls[0]), more);
    }
  }

  lemma NothingSpelled(n: nat)
    ensures Free('\n', AllSpelled([])) && Spoken(RowsFrom(AllSpelled([]), n)) == []
  {
  }

  lemma SpokenOneMore(s: string, more: seq<string>, n: nat)
    requires !Passed(s)
    ensures Spoken(RowsFrom([s] + more, n)) == [Split(' ', s)] + Spoken(RowsFrom(more, n + 1))
  {
    hide Split, Passed;
    assert ([s] + more)[1..] == more;
  }

  lemma FreeOneMore(s: string, more: seq<string>)
    requires '\n' !in s && Free('\n', more)
    ensures Free('\n', [s] + more)
  {
  }

  function PrintAll(ls: seq<Line>): (ts: seq<Tokens>)
    ensures |ts| == |ls| && forall i | 0 <= i < |ls| :: ts[i] == Print(ls[i])
  {
    if ls == [] then [] else [Print(ls[0])] + PrintAll(ls[1..])
  }

  lemma PrintAllConcat(a: seq<Line>, b: seq<Line>)
    ensures PrintAll(a + b) == PrintAll(a) + PrintAll(b)
  {
    hide Print;
  }

  lemma SpokenConcat(a: seq<Row>, b: seq<Row>)
    ensures Spoken(a + b) == Spoken(a) + Spoken(b)
  {
  }

  lemma FreeConcat(a: seq<string>, b: seq<string>)
    requires Free('\n', a) && Free('\n', b)
    ensures Free('\n', a + b)
  {
  }

  /** From line n on, lines of the file and the rows they make. */
  ghost predicate Say(lines: seq<string>, n: nat, ts: seq<Tokens>) {
    Spoken(RowsFrom(lines, n)) == ts && Free('\n', lines)
  }

  /** Parts of the file one after the other. */
  lemma Parts(a: seq<string>, b: seq<string>, n: nat, x: seq<Tokens>, y: seq<Tokens>)
    requires Say(a, n, x) && Say(b, n + |a|, y)
    ensures Say(a + b, n, x + y)
  {
    hide Free, Spoken, RowsFrom;
    RowsConcat(a, b, n);
    SpokenConcat(RowsFrom(a, n), RowsFrom(b, n + |a|));
    FreeConcat(a, b);
  }

  lemma SaysLines(ls: seq<Line>, n: nat)
    requires LinesOk(ls)
    ensures Say(AllSpelled(ls), n, PrintAll(ls))
  {
    hide LineOk, AllSpelled, PrintAll, Spoken, Free;
    SpelledRows(ls, n);
  }

  lemma {:induction false} CasesRows(cs: seq<Case>, n: nat)
    requires forall i | 0 <= i < |cs| :: LinesOk(CaseLines(cs[i]))
    ensures Say(CasesSpelled(cs), n, PrintAll(CasesLines(cs)))
    decreases |cs|
  {
    hide LinesOk, CaseLines, AllSpelled, PrintAll, Say;
    NothingSaid(n);
    if cs != [] {
      var ls, more := CaseLines(cs[0]), cs[1..];
      SaysLines(ls, n + 1);
      CasesRows(more, n + 1 + |AllSpelled(ls)|);
      Parts(AllSpelled(ls), CasesSpelled(more), n + 1, PrintAll(ls), PrintAll(CasesLines(more)));
      PrintAllConcat(ls, CasesLines(more));
      Blank(n);
      Parts([""], AllSpelled(ls) + CasesSpelled(more), n, [], PrintAll(CasesLines(cs)));
      assert [] + PrintAll(CasesLines(cs)) == PrintAll(CasesLines(cs));
    }
  }

  lemma NothingSaid(n: nat)
    ensures Say([], n, PrintAll([]))
  {
  }

  lemma Blank(n: nat)
    ensures Say([""], n, [])
  {
    AllPassed([""], n);
  }

  lemma HeadSays(head: seq<string>, n: nat)
    requires Comments(head)
    ensures Say(head, n, [])
  {
    AllPassed(head, n);
  }

  lemma MagicSays(n: nat)
    ensures Say([Spelled(Word(KCorpus, "2")), ""], n, PrintAll([Word(KCorpus, "2")])) && LineOk(Word(KCorpus, "2"))
  {
    hide Spelled, LineOk, Print, AllSpelled, PrintAll, Say;
    var l := Word(KCorpus, "2");
    MagicOk();
    assert LinesOk([l]);
    SaysLines([l], n);
    OneSpelled(l);
    Blank(n + 1);
    Parts([Spelled(l)], [""], n, PrintAll([l]), []);
    assert [Spelled(l)] + [""] == [Spelled(l), ""];
    assert PrintAll([l]) + [] == PrintAll([l]);
  }

  lemma OneSpelled(l: Line)
    ensures AllSpelled([l]) == [Spelled(l)]
  {
    hide Spelled;
  }

  lemma MagicOk()
    ensures LineOk(Word(KCorpus, "2"))
  {
  }

  lemma DocRows(head: seq<string>, d: Doc)
    requires Comments(head) && DocOk(d)
    ensures Say(DocSpelled(head, d), 1, PrintAll(DocLines(d)))
  {
    hide Spelled, AllSpelled, CasesSpelled, PrintAll, LinesOk, CaseLines, CasesLines, SourceLines, ImageLines,
         Comments, LineOk, Say, CaseOk;
    var m, ss, pics, cs := Word(KCorpus, "2"), SourceLines(d.sources), ImageLines(d.images), CasesLines(d.cases);
    var magic := [Spelled(m), ""];
    var n1 := 1 + |head|;
    var n2 := n1 + |magic|;
    var n3 := n2 + |AllSpelled(ss)|;
    var n4 := n3 + |AllSpelled(pics)|;
    forall i | 0 <= i < |d.cases|
      ensures LinesOk(CaseLines(d.cases[i]))
    {
      CaseOkLines(d.cases[i], Paths(d.images));
    }
    CasesRows(d.cases, n4);
    SaysLines(pics, n3);
    Parts(AllSpelled(pics), CasesSpelled(d.cases), n3, PrintAll(pics), PrintAll(cs));
    PrintAllConcat(pics, cs);
    SaysLines(ss, n2);
    Parts(AllSpelled(ss), AllSpelled(pics) + CasesSpelled(d.cases), n2, PrintAll(ss), PrintAll(pics + cs));
    PrintAllConcat(ss, pics + cs);
    MagicSays(n1);
    var after := AllSpelled(ss) + (AllSpelled(pics) + CasesSpelled(d.cases));
    Parts(magic, after, n1, PrintAll([m]), PrintAll(ss + (pics + cs)));
    PrintAllConcat([m], ss + (pics + cs));
    HeadSays(head, 1);
    Parts(head, magic + after, 1, [], PrintAll(DocLines(d)));
    assert [] + PrintAll(DocLines(d)) == PrintAll(DocLines(d));
  }

  /** Splitting the written text gives its lines back, and an empty one after the last. */
  lemma FileSplits(lines: seq<string>)
    requires lines != [] && Free('\n', lines)
    ensures Split('\n', Join('\n', lines) + "\n") == lines + [""]
  {
    var more := lines + [""];
    JoinLast(lines);
    assert Free('\n', more);
    SplitJoin('\n', more);
  }

  lemma {:induction false} JoinLast(lines: seq<string>)
    requires lines != []
    ensures Join('\n', lines + [""]) == Join('\n', lines) + "\n"
  {
    if |lines| > 1 {
      JoinLast(lines[1..]);
      assert (lines + [""])[1..] == lines[1..] + [""];
      assert Join('\n', lines + [""]) == lines[0] + ['\n'] + Join('\n', lines[1..] + [""]);
      assert lines[0] + ['\n'] + (Join('\n', lines[1..]) + "\n") == (lines[0] + ['\n'] + Join('\n', lines[1..])) + "\n";
    } else {
      assert (lines + [""])[1..] == [""];
    }
  }

  /** The rows of the written text are the document's lines. */
  lemma TextSpeaks(head: seq<string>, c: Corpus)
    requires Comments(head) && CorpusOk(c)
    ensures Spoken(RowsOf(WriteText(head, c))) == PrintAll(DocLines(InOrder(c)))
  {
    hide DocOk, PrintAll, DocLines, InOrder, Split, Join, DocSpelled, Say;
    var d := InOrder(c);
    var lines := DocSpelled(head, d);
    DocRows(head, d);
    SayFree(lines, 1, PrintAll(DocLines(d)));
    SpelledSome(head, d);
    FileSplits(lines);
    Blank(1 + |lines|);
    Parts(lines, [""], 1, PrintAll(DocLines(d)), []);
    SayFree(lines + [""], 1, PrintAll(DocLines(d)) + []);
    assert PrintAll(DocLines(d)) + [] == PrintAll(DocLines(d));
  }

  lemma SpelledSome(head: seq<string>, d: Doc)
    ensures DocSpelled(head, d) != []
  {
    hide Spelled, AllSpelled, CasesSpelled;
    var magic := [Spelled(Word(KCorpus, "2")), ""];
    assert |magic| == 2;
  }

  lemma SayFree(lines: seq<string>, n: nat, ts: seq<Tokens>)
    requires Say(lines, n, ts)
    ensures Free('\n', lines) && Spoken(RowsFrom(lines, n)) == ts
  {
  }

  lemma SpeaksWrites(rows: seq<Row>, d: Doc)
    requires DocOk(d)
    ensures Writes(rows, d) <==> Spoken(rows) == PrintAll(DocLines(d))
  {
    hide LineOk, Print, DocLines, DocOk;
    DocLinesOk(d);
    if Spoken(rows) == PrintAll(DocLines(d)) {
      assert forall t | 0 <= t < |rows| :: Spoken(rows)[t] == rows[0 + t].tok;
    }
    if Writes(rows, d) {
      assert forall t | 0 <= t < |rows| :: rows[0 + t].tok == Print(DocLines(d)[t]);
    }
  }

  lemma DocLinesOk(d: Doc)
    requires DocOk(d)
    ensures LinesOk(DocLines(d))
  {
    hide LineOk, CaseOk, SourceLines, ImageLines, CaseLines, SupersededKnown;
    MagicOk();
    forall i | 0 <= i < |d.cases|
      ensures LinesOk(CaseLines(d.cases[i]))
    {
      CaseOkLines(d.cases[i], Paths(d.images));
    }
    CasesLinesOk(d.cases);
  }

  lemma CaseOkLines(c: Case, images: set<string>)
    requires CaseOk(c, images)
    ensures LinesOk(CaseLines(c))
  {
    hide LineOk, CaseLines;
  }

  lemma {:induction false} CasesLinesOk(cs: seq<Case>)
    requires forall i | 0 <= i < |cs| :: LinesOk(CaseLines(cs[i]))
    ensures LinesOk(CasesLines(cs))
  {
    hide LineOk, CaseLines;
    if cs != [] { CasesLinesOk(cs[1..]); }
  }

  /** read_manifest(write_manifest(c)) is c, but for the lines its cases stand on. */
  lemma ReadOfWritten(head: seq<string>, c: Corpus)
    requires Comments(head) && CorpusOk(c)
    ensures var r := ReadText(WriteText(head, c));
            && r.Accepts? && r.corpus.sources == c.sources && r.corpus.images == c.images
            && AllUnlined(r.corpus.cases) == AllUnlined(c.cases)
  {
    hide DocOk, Spoken, PrintAll, WriteText, RowsOf, Writes, AllUnlined, DocAt, InOrder, DocLines;
    var rows, d := RowsOf(WriteText(head, c)), InOrder(c);
    TextSpeaks(head, c);
    SpeaksWrites(rows, d);
    WrittenReads(rows, d);
    OrderKeeps(c);
    InOrderCases(c);
  }

  lemma InOrderCases(c: Corpus)
    ensures InOrder(c).cases == c.cases
  {
  }

  // ---- what is read is written ----------------------------------------------

  lemma {:induction false} SetSize(ps: seq<string>, s: set<string>)
    requires forall p :: p in s <==> p in ps
    ensures |s| <= |ps| && (|s| == |ps| <==> DistinctPaths(ps))
  {
    if ps == [] {
      assert s == {};
    } else {
      var n := |ps| - 1;
      var t := set i | 0 <= i < n :: ps[..n][i];
      SetSize(ps[..n], t);
      assert ps == ps[..n] + [ps[n]];
      if ps[n] in t {
        assert s == t;
        var i :| 0 <= i < n && ps[..n][i] == ps[n];
        assert ps[i] == ps[n];
      } else {
        assert s == t + {ps[n]};
        DistinctSnoc(ps[..n], ps[n]);
      }
    }
  }

  lemma DistinctSnoc(ps: seq<string>, p: string)
    requires p !in ps
    ensures DistinctPaths(ps + [p]) <==> DistinctPaths(ps)
  {
    if DistinctPaths(ps + [p]) { assert forall i | 0 <= i < |ps| :: (ps + [p])[i] == ps[i]; }
  }

  /** The files of the map, in order: those of the list, one for each path. */
  lemma SourcesRearranged(fs: seq<File>)
    ensures var ps := Order.Sorted(SourcesMap(fs).Keys);
            var out := SourcesIn(SourcesMap(fs), ps);
            && SourcePaths(out) == ps && Increasing(ps)
            && (forall f :: f in out ==> f in fs)
            && (DistinctPaths(SourcePaths(fs)) <==> |out| == |fs|)
            && (DistinctPaths(SourcePaths(fs)) ==> forall f :: f in fs ==> f in out)
  {
    hide SourcesMap;
    var m := SourcesMap(fs);
    var ps := Order.Sorted(m.Keys);
    var out := SourcesIn(m, ps);
    SourcesMapIs(fs);
    IncreasingIsDistinct(ps);
    assert SourcePaths(out) == ps;
    SetSize(ps, m.Keys);
    SetSize(SourcePaths(fs), m.Keys);
    if DistinctPaths(SourcePaths(fs)) {
      forall f | f in fs
        ensures f in out
      {
        var i :| 0 <= i < |fs| && fs[i] == f;
        assert f.path in m && m[f.path] == f.sha;
        var j :| 0 <= j < |ps| && ps[j] == f.path;
        assert out[j] == f;
      }
    }
  }

  lemma ImagesRearranged(ims: seq<Image>)
    ensures var ps := Order.Sorted(ImagesMap(ims).Keys);
            var out := ImagesIn(ImagesMap(ims), ps);
            && ImagePaths(out) == ps && Increasing(ps) && (forall p :: p in ps <==> p in ImagePaths(ims))
            && (forall im :: im in out ==> im in ims)
            && (DistinctPaths(ImagePaths(ims)) <==> |out| == |ims|)
            && (DistinctPaths(ImagePaths(ims)) ==> forall im :: im in ims ==> im in out)
  {
    hide ImagesMap;
    var m := ImagesMap(ims);
    var ps := Order.Sorted(m.Keys);
    var out := ImagesIn(m, ps);
    ImagesMapIs(ims);
    IncreasingIsDistinct(ps);
    assert ImagePaths(out) == ps;
    SetSize(ps, m.Keys);
    SetSize(ImagePaths(ims), m.Keys);
    if DistinctPaths(ImagePaths(ims)) {
      forall im | im in ims
        ensures im in out
      {
        var i :| 0 <= i < |ims| && ims[i] == im;
        assert im.path in m && m[im.path] == im;
        var j :| 0 <= j < |ps| && ps[j] == im.path;
        assert out[j] == im;
      }
    }
  }

  lemma {:induction false} SourceLinesOk(fs: seq<File>)
    ensures LinesOk(SourceLines(fs)) <==> forall f :: f in fs ==> LineOk(Named(KSource, f))
  {
    hide LineOk;
    if fs != [] {
      SourceLinesOk(fs[1..]);
      var ls := SourceLines(fs);
      assert ls[1..] == SourceLines(fs[1..]) && ls[0] == Named(KSource, fs[0]);
      assert fs == [fs[0]] + fs[1..] && ls == [ls[0]] + ls[1..];
      assert LinesOk(ls) <==> LineOk(ls[0]) && LinesOk(ls[1..]) by { LinesOkCons(ls[0], ls[1..]); }
    }
  }

  lemma LinesOkCons(l: Line, ls: seq<Line>)
    ensures LinesOk([l] + ls) <==> LineOk(l) && LinesOk(ls)
  {
    hide LineOk;
    var all := [l] + ls;
    assert all[0] == l && forall i | 0 <= i < |ls| :: all[i + 1] == ls[i];
    if LinesOk(all) {
      assert LineOk(all[0]);
      forall i | 0 <= i < |ls|
        ensures LineOk(ls[i])
      {
        assert LineOk(all[i + 1]);
      }
    }
  }

  lemma {:induction false} ImageLinesOk(ims: seq<Image>)
    ensures LinesOk(ImageLines(ims)) <==> forall im :: im in ims ==> LineOk(ImageLine(im))
  {
    hide LineOk;
    if ims != [] {
      ImageLinesOk(ims[1..]);
      var ls := ImageLines(ims);
      assert ls[1..] == ImageLines(ims[1..]) && ls[0] == ImageLine(ims[0]);
      assert ims == [ims[0]] + ims[1..] && ls == [ls[0]] + ls[1..];
      assert LinesOk(ls) <==> LineOk(ls[0]) && LinesOk(ls[1..]) by { LinesOkCons(ls[0], ls[1..]); }
    }
  }

  /** What a document becomes, read and written: its sources and its images in order. */
  ghost predicate Rearranged(d: Doc, e: Doc) {
    && e.cases == d.cases && Increasing(SourcePaths(e.sources)) && Increasing(ImagePaths(e.images))
    && (forall f :: f in e.sources ==> f in d.sources) && (forall im :: im in e.images ==> im in d.images)
    && (DistinctPaths(SourcePaths(d.sources)) <==> |e.sources| == |d.sources|)
    && (DistinctPaths(ImagePaths(d.images)) <==> |e.images| == |d.images|)
    && (DistinctPaths(SourcePaths(d.sources)) ==> forall f :: f in d.sources ==> f in e.sources)
    && (DistinctPaths(ImagePaths(d.images)) ==> forall im :: im in d.images ==> im in e.images)
  }

  /** Whatever is accepted is well formed, its order aside. */
  lemma OrderIsOk(d: Doc)
    requires DocOk(d)
    ensures CorpusOk(CorpusOf(d)) && Rearranged(d, InOrder(CorpusOf(d)))
  {
    hide SourcesMap, ImagesMap, SourcesIn, ImagesIn, LineOk, CasesOk, SupersededKnown, LinesOk, SourceLines,
         ImageLines;
    var e := InOrder(CorpusOf(d));
    SourcesRearranged(d.sources);
    ImagesRearranged(d.images);
    SourceLinesOk(d.sources);
    SourceLinesOk(e.sources);
    ImageLinesOk(d.images);
    ImageLinesOk(e.images);
    ImagesMapIs(d.images);
    SamePaths(d.images, e.images);
  }

  lemma SamePaths(a: seq<Image>, b: seq<Image>)
    requires forall p :: p in ImagePaths(a) <==> p in ImagePaths(b)
    ensures Paths(a) == Paths(b) && (a != [] ==> b != [])
  {
    var x, y := ImagePaths(a), ImagePaths(b);
    forall p
      ensures p in Paths(a) <==> p in x
      ensures p in Paths(b) <==> p in y
    {
      if p in x { var i :| 0 <= i < |x| && x[i] == p; assert a[i].path == p; }
      if p in y { var i :| 0 <= i < |y| && y[i] == p; assert b[i].path == p; }
    }
    assert a != [] ==> x[0] in x;
  }

  /** write_manifest(read_manifest(t)) is t again: its head and its blank lines aside, line
      for line but for the sources' and the images' order - exactly where no source and no
      image path is given twice; a repeated one loses its earlier line. */
  lemma WrittenOfRead(head: seq<string>, t: string)
    requires Comments(head) && ReadText(t).Accepts?
    ensures var d := DocAt(RowsOf(t)).value;
            var e := InOrder(ReadText(t).corpus);
            && Writes(RowsOf(t), d) && Writes(RowsOf(WriteText(head, ReadText(t).corpus)), e) && Rearranged(d, e)
  {
    hide DocOk, WriteText, RowsOf, Writes, InOrder, CorpusOf, Rearranged, Spoken, PrintAll, DocLines;
    var c := ReadText(t).corpus;
    AcceptedSays(RowsOf(t));
    OrderIsOk(DocAt(RowsOf(t)).value);
    TextSpeaks(head, c);
    SpeaksWrites(RowsOf(WriteText(head, c)), InOrder(c));
  }

  /** The written form is settled: read and written once more it does not move, but for the
      lines its cases are numbered by. */
  lemma ReadAgain(head: seq<string>, t: string)
    requires Comments(head) && ReadText(t).Accepts?
    ensures var c := ReadText(t).corpus;
            var r := ReadText(WriteText(head, c));
            && r.Accepts? && r.corpus.sources == c.sources && r.corpus.images == c.images
            && AllUnlined(r.corpus.cases) == AllUnlined(c.cases)
  {
    hide DocOk, WriteText, RowsOf, Rearranged, AllUnlined, CorpusOk;
    AcceptedSays(RowsOf(t));
    OrderIsOk(DocAt(RowsOf(t)).value);
    ReadOfWritten(head, ReadText(t).corpus);
  }
}
