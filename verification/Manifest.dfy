/** The golden corpus's manifest as a whole: what it holds, the lines that say it, and the
    strict reader as a function of the rows. */
module Manifest {
  import opened Wrappers
  import opened Text
  import opened Grammar

  datatype Run = Run(index: nat, kind: RunKind, image: string, bank: Option<File>, source: Option<File>,
                     segments: nat, steps: nat, parameters: seq<(string, nat)>, boundaries: seq<string>,
                     blocks: seq<string>, raws: seq<(nat, string, string)>)

  /** A case; keyed where it has a salt, open where it has none. */
  datatype Case = Case(name: string, what: string, certificate: File, version: nat, salt: Option<File>, depth: nat,
                       backends: string, writers: string, accuracy: nat, verdict: Verdict, states: string,
                       blocks: string, signature: Option<File>, keyring: Option<File>, superseded: Option<string>,
                       define: string, regenerate: bool, runs: seq<Run>, line: nat)

  /** A manifest in its own order. */
  datatype Doc = Doc(sources: seq<File>, images: seq<Image>, cases: seq<Case>)

  // ---- the lines that say it ------------------------------------------------

  function ParamLines(ps: seq<(string, nat)>): (ls: seq<Line>)
    ensures |ls| == |ps|
  {
    if ps == [] then [] else [Parameter(ps[0].0, ps[0].1)] + ParamLines(ps[1..])
  }

  function HashLines(k: Key, b: nat, shas: seq<string>): (ls: seq<Line>)
    ensures |ls| == |shas|
    decreases |shas|
  {
    if shas == [] then [] else [Numbered(k, b, shas[0])] + HashLines(k, b + 1, shas[1..])
  }

  function RawLines(raws: seq<(nat, string, string)>): (ls: seq<Line>)
    ensures |ls| == |raws|
  {
    if raws == [] then [] else [Raw(raws[0].0, raws[0].1, raws[0].2)] + RawLines(raws[1..])
  }

  function RunHead(r: Run): seq<Line> {
    [RunLine(r.index, r.kind), Word(KRunImage, r.image), Maybe(KBank, r.bank), Maybe(KRunSource, r.source),
     Num(KSegments, r.segments), Num(KSteps, r.steps), Num(KParameters, |r.parameters|)]
  }

  function RunTail(r: Run): seq<Line> {
    ParamLines(r.parameters)
    + (HashLines(KBoundary, 0, r.boundaries)
       + (HashLines(KBlock, 0, r.blocks) + RawLines(r.raws)))
  }

  function RunLines(r: Run): seq<Line> { RunHead(r) + RunTail(r) }

  function RunsLines(rs: seq<Run>): seq<Line> {
    if rs == [] then [] else RunLines(rs[0]) + RunsLines(rs[1..])
  }

  /** A case's lines up to its mode. */
  function CaseTop(c: Case): seq<Line> {
    [Word(KCase, c.name), What(Split(' ', c.what)), Named(KCertificate, c.certificate), Num(KVersion, c.version),
     Word(KMode, if c.salt.Some? then "keyed" else "open")]
  }

  function CaseSalt(c: Case): seq<Line> {
    if c.salt.Some? then [Named(KSalt, c.salt.value)] else []
  }

  function CaseRest(c: Case): seq<Line> {
    [Num(KDepth, c.depth), Word(KBackends, c.backends), Word(KWriters, c.writers), Accuracy(c.accuracy),
     Judged(c.verdict),
     Word(KStates, c.states), Word(KBlocks, c.blocks), Maybe(KSignature, c.signature), Maybe(KKeyring, c.keyring),
     Word(KSuperseded, if c.superseded.Some? then c.superseded.value else "none"), Word(KDefine, c.define),
     Word(KRegenerate, if c.regenerate then "yes" else "no")]
  }

  /** A case's lines up to its count of runs. */
  function CaseHead(c: Case): seq<Line> { CaseTop(c) + (CaseSalt(c) + CaseRest(c)) }

  function CaseLines(c: Case): seq<Line> {
    CaseHead(c) + ([Num(KRuns, |c.runs|)] + RunsLines(c.runs))
  }

  function CasesLines(cs: seq<Case>): seq<Line> {
    if cs == [] then [] else CaseLines(cs[0]) + CasesLines(cs[1..])
  }

  function SourceLines(fs: seq<File>): (ls: seq<Line>)
    ensures |ls| == |fs|
  {
    if fs == [] then [] else [Named(KSource, fs[0])] + SourceLines(fs[1..])
  }

  function ImageLines(ims: seq<Image>): (ls: seq<Line>)
    ensures |ls| == |ims|
  {
    if ims == [] then [] else [ImageLine(ims[0])] + ImageLines(ims[1..])
  }

  function DocLines(d: Doc): seq<Line> {
    [Word(KCorpus, "2")] + (SourceLines(d.sources) + (ImageLines(d.images) + CasesLines(d.cases)))
  }

  // ---- what the manifest holds itself to ------------------------------------

  predicate LinesOk(ls: seq<Line>) {
    forall i | 0 <= i < |ls| :: LineOk(ls[i])
  }

  const SCRATCHDEPTH := "scratch-depth"

  function DepthParam(ps: seq<(string, nat)>): Option<nat> {
    if ps == [] then None else if ps[0].0 == SCRATCHDEPTH then Some(ps[0].1) else DepthParam(ps[1..])
  }

  predicate RawsOk(raws: seq<(nat, string, string)>, segments: nat) {
    forall i | 0 <= i < |raws| :: raws[i].0 < segments && (i > 0 ==> raws[i - 1].0 < raws[i].0)
  }

  /** Run i of a case: its lines the grammar's, its counts its own, an image declared, and
      in version 1 nothing of version 2's. */
  predicate RunOk(r: Run, i: nat, images: set<string>, version: nat) {
    && LinesOk(RunLines(r))
    && r.index == i && (r.kind.Main? <==> i == 0) && r.image in images
    && |r.boundaries| == r.segments + 1 && (r.blocks != [] ==> |r.blocks| == r.segments) && RawsOk(r.raws, r.segments)
    && (version == 1 ==> !r.kind.WiderSource? && r.source.None? && r.blocks == [] && r.raws == [])
  }

  predicate RunsOk(rs: seq<Run>, images: set<string>, version: nat) {
    forall i | 0 <= i < |rs| :: RunOk(rs[i], i, images, version)
  }

  /** Nothing of version 2's but in a version-2 case. */
  predicate VersionOk(c: Case) {
    c.version == 1 ==>
      && c.writers == "both" && c.blocks == c.states && c.signature.None? && c.keyring.None? && c.superseded.None?
      && c.define == "none"
      && !c.regenerate
  }

  /** The runs all state one scratch depth, the case's, or none does. */
  predicate DepthsOk(c: Case) {
    forall i | 0 <= i < |c.runs| :: DepthParam(c.runs[i].parameters) == DepthParam(c.runs[0].parameters)
                                    && (DepthParam(c.runs[0].parameters).Some? ==>
                                          DepthParam(c.runs[0].parameters).value == c.depth)
  }

  predicate CaseOk(c: Case, images: set<string>) {
    && LinesOk(CaseLines(c)) && RunsOk(c.runs, images, c.version) && VersionOk(c) && DepthsOk(c)
    && c.superseded != Some("none")
  }

  function Names(cs: seq<Case>): set<string> {
    set i | 0 <= i < |cs| :: cs[i].name
  }

  function Paths(ims: seq<Image>): set<string> {
    set i | 0 <= i < |ims| :: ims[i].path
  }

  predicate CasesOk(cs: seq<Case>, images: set<string>) {
    && (forall i | 0 <= i < |cs| :: CaseOk(cs[i], images))
    && forall i, j | 0 <= i < j < |cs| :: cs[i].name != cs[j].name
  }

  predicate SupersededKnown(cs: seq<Case>) {
    forall i | 0 <= i < |cs| :: cs[i].superseded.Some? ==> cs[i].superseded.value in Names(cs)
  }

  predicate DocOk(d: Doc) {
    && LinesOk(SourceLines(d.sources)) && LinesOk(ImageLines(d.images)) && d.images != [] && d.cases != []
    && CasesOk(d.cases, Paths(d.images)) && SupersededKnown(d.cases)
  }

  // ---- the reader -----------------------------------------------------------

  /** A line that is no comment and not blank: its number and its tokens. */
  datatype Row = Row(n: nat, tok: Tokens)

  /** What was read and where it ended, or the line the refusal names. */
  datatype Res<T> = Got(value: T, next: nat) | Bad(line: nat)

  /** The last row taken; line 0 before any. */
  function Last(rows: seq<Row>, i: nat): nat
    requires i <= |rows|
  {
    if i == 0 then 0 else rows[i - 1].n
  }

  predicate Peeks(rows: seq<Row>, i: nat, word: string)
    requires i <= |rows|
  {
    i < |rows| && rows[i].tok != [] && rows[i].tok[0] == word
  }

  /** take(key), and the checks on the line itself. */
  function Expect(rows: seq<Row>, i: nat, k: Key): (r: Res<Line>)
    requires i <= |rows|
    ensures r.Got? ==> r.next == i + 1 <= |rows|
  {
    if i == |rows| then Bad(Last(rows, i))
    else
      var tok := rows[i].tok;
      if !AllPrintable(tok) || tok == [] || tok[0] != Keyword(k) || Read(k, tok[1..]).None? then Bad(rows[i].n)
      else Got(Read(k, tok[1..]).value, i + 1)
  }

  function ExpectAll(rows: seq<Row>, i: nat, ks: seq<Key>): (r: Res<seq<Line>>)
    requires i <= |rows|
    ensures r.Got? ==> r.next == i + |ks| <= |rows| && |r.value| == |ks|
    decreases |ks|
  {
    if ks == [] then Got([], i)
    else
      match Expect(rows, i, ks[0])
      case Bad(n) => Bad(n)
      case Got(l, j) =>
        match ExpectAll(rows, j, ks[1..])
        case Bad(n) => Bad(n)
        case Got(ls, e) => Got([l] + ls, e)
  }

  function ParamsAt(rows: seq<Row>, i: nat, count: nat): (r: Res<seq<(string, nat)>>)
    requires i <= |rows|
    ensures r.Got? ==> i <= r.next <= |rows|
    decreases count
  {
    if count == 0 then Got([], i)
    else
      match Expect(rows, i, KParameter)
      case Bad(n) => Bad(n)
      case Got(l, j) =>
        match ParamsAt(rows, j, count - 1)
        case Bad(n) => Bad(n)
        case Got(ps, e) => Got([(if l.Parameter? then l.name else "", if l.Parameter? then l.v else 0)] + ps, e)
  }

  function BoundsAt(rows: seq<Row>, i: nat, b: nat, count: nat): (r: Res<seq<string>>)
    requires i <= |rows|
    ensures r.Got? ==> i <= r.next <= |rows|
    decreases count
  {
    if count == 0 then Got([], i)
    else
      match Expect(rows, i, KBoundary)
      case Bad(n) => Bad(n)
      case Got(l, j) =>
        if !l.Numbered? || l.i != b then Bad(rows[i].n)
        else
          match BoundsAt(rows, j, b + 1, count - 1)
          case Bad(n) => Bad(n)
          case Got(hs, e) => Got([l.sha] + hs, e)
  }

  function BlocksAt(rows: seq<Row>, i: nat, b: nat): (r: Res<seq<string>>)
    requires i <= |rows|
    ensures r.Got? ==> i <= r.next <= |rows| && (r.value != [] ==> i < r.next)
    decreases |rows| - i
  {
    if !Peeks(rows, i, Keyword(KBlock)) then Got([], i)
    else
      match Expect(rows, i, KBlock)
      case Bad(n) => Bad(n)
      case Got(l, j) =>
        if !l.Numbered? || l.i != b then Bad(rows[i].n)
        else
          match BlocksAt(rows, j, b + 1)
          case Bad(n) => Bad(n)
          case Got(hs, e) => Got([l.sha] + hs, e)
  }

  /** The raw segments: each in the run, above the one before. */
  function RawsAt(rows: seq<Row>, i: nat, segments: nat, above: nat): (r: Res<seq<(nat, string, string)>>)
    requires i <= |rows|
    ensures r.Got? ==> i <= r.next <= |rows| && (r.value != [] ==> i < r.next)
    decreases |rows| - i
  {
    if !Peeks(rows, i, Keyword(KRaw)) then Got([], i)
    else
      match Expect(rows, i, KRaw)
      case Bad(n) => Bad(n)
      case Got(l, j) =>
        if !l.Raw? || l.i >= segments || l.i < above then Bad(rows[i].n)
        else
          match RawsAt(rows, j, segments, l.i + 1)
          case Bad(n) => Bad(n)
          case Got(rs, e) => Got([(l.i, l.sha, l.flags)] + rs, e)
  }

  function WordOf(l: Line): string { if l.Word? then l.w else "" }

  function NumOf(l: Line): nat { if l.Num? then l.n else 0 }

  function FileOf(l: Line): File { if l.Named? then l.f else File("", "") }

  function OptOf(l: Line): Option<File> { if l.Maybe? then l.o else None }

  /** A run's first four lines: which it is, its image, its bank, its source.  A source in
      version 1 is refused at the bank's line, the last one whose number was kept. */
  function RunTopAt(rows: seq<Row>, i: nat, index: nat, images: set<string>, version: nat): (r: Res<seq<Line>>)
    requires i <= |rows|
    ensures r.Got? ==> i <= r.next <= |rows| && |r.value| == 4
  {
    match Expect(rows, i, KRun)
    case Bad(n) => Bad(n)
    case Got(a, i1) =>
      if !a.RunLine? || a.i != index || (a.kind.Main? != (index == 0))
          || (a.kind.WiderSource? && version == 1) then Bad(rows[i].n)
      else
        match Expect(rows, i1, KRunImage)
        case Bad(n) => Bad(n)
        case Got(b, i2) =>
          if WordOf(b) !in images then Bad(rows[i1].n)
          else
            match ExpectAll(rows, i2, [KBank, KRunSource])
            case Bad(n) => Bad(n)
            case Got(ls, i3) =>
              if OptOf(ls[1]).Some? && version == 1 then Bad(rows[i2].n) else Got([a, b] + ls, i3)
  }

  /** The counted and the open-ended lists after a run's head. */
  function RunTailAt(rows: seq<Row>, i: nat, head: Run, count: nat, version: nat): (r: Res<Run>)
    requires i <= |rows|
    ensures r.Got? ==> i <= r.next <= |rows|
  {
    match ParamsAt(rows, i, count)
    case Bad(n) => Bad(n)
    case Got(ps, i1) =>
      match BoundsAt(rows, i1, 0, head.segments + 1)
      case Bad(n) => Bad(n)
      case Got(bounds, i2) =>
        match BlocksAt(rows, i2, 0)
        case Bad(n) => Bad(n)
        case Got(blocks, i3) =>
          if blocks != [] && |blocks| != head.segments then Bad(Last(rows, i3))
          else
            match RawsAt(rows, i3, head.segments, 0)
            case Bad(n) => Bad(n)
            case Got(raws, i4) =>
              if (blocks != [] || raws != []) && version == 1 then Bad(Last(rows, i4))
              else Got(head.(parameters := ps, boundaries := bounds, blocks := blocks, raws := raws), i4)
  }

  function RunAt(rows: seq<Row>, i: nat, index: nat, images: set<string>, version: nat): (r: Res<Run>)
    requires i <= |rows|
    ensures r.Got? ==> i < r.next <= |rows|
  {
    match RunTopAt(rows, i, index, images, version)
    case Bad(n) => Bad(n)
    case Got(top, i1) =>
      match ExpectAll(rows, i1, [KSegments, KSteps, KParameters])
      case Bad(n) => Bad(n)
      case Got(ls, i2) =>
        var kind := if top[0].RunLine? then top[0].kind else Main;
        RunTailAt(rows, i2, Run(index, kind, WordOf(top[1]), OptOf(top[2]), OptOf(top[3]), NumOf(ls[0]), NumOf(ls[1]),
                                [], [], [], []),
                  NumOf(ls[2]), version)
  }

  function RunsAt(rows: seq<Row>, i: nat, index: nat, count: nat, images: set<string>, version: nat): (r: Res<seq<Run>>)
    requires i <= |rows|
    ensures r.Got? ==> i <= r.next <= |rows| && |r.value| == count
    decreases count
  {
    if count == 0 then Got([], i)
    else
      match RunAt(rows, i, index, images, version)
      case Bad(n) => Bad(n)
      case Got(run, j) =>
        match RunsAt(rows, j, index + 1, count - 1, images, version)
        case Bad(n) => Bad(n)
        case Got(rs, e) => Got([run] + rs, e)
  }

  const TOP: seq<Key> := [KWhat, KCertificate, KVersion, KMode]
  const REST: seq<Key> := [KDepth, KBackends, KWriters, KAccuracy, KVerdict, KStates, KBlocks, KSignature, KKeyring,
                           KSuperseded, KDefine, KRegenerate]

  function SaltKeys(mode: Line): seq<Key> { if WordOf(mode) == "keyed" then [KSalt] else [] }

  /** The case the lines before its runs say, its runs to come. */
  function CaseOf(n0: nat, name: Line, top: seq<Line>, salt: seq<Line>, rest: seq<Line>): Case
    requires |top| == 4 && |rest| == 12
  {
    Case(WordOf(name), Join(' ', if top[0].What? then top[0].words else []), FileOf(top[1]), NumOf(top[2]),
         if salt != [] then Some(FileOf(salt[0])) else None, NumOf(rest[0]), WordOf(rest[1]), WordOf(rest[2]),
         if rest[3].Accuracy? then rest[3].n else 0, if rest[4].Judged? then rest[4].verdict else Accepted,
         WordOf(rest[5]), WordOf(rest[6]), OptOf(rest[7]), OptOf(rest[8]),
         if WordOf(rest[9]) == "none" then None else Some(WordOf(rest[9])),
         WordOf(rest[10]), WordOf(rest[11]) == "yes", [], n0)
  }

  /** A case up to its count of runs. */
  function CaseHeadAt(rows: seq<Row>, i: nat, names: set<string>): (r: Res<Case>)
    requires i <= |rows|
    ensures r.Got? ==> i < r.next <= |rows|
  {
    match Expect(rows, i, KCase)
    case Bad(n) => Bad(n)
    case Got(name, i1) =>
      if WordOf(name) in names then Bad(rows[i].n)
      else
        match ExpectAll(rows, i1, TOP)
        case Bad(n) => Bad(n)
        case Got(top, i2) =>
          match ExpectAll(rows, i2, SaltKeys(top[3]))
          case Bad(n) => Bad(n)
          case Got(salt, i3) =>
            match ExpectAll(rows, i3, REST)
            case Bad(n) => Bad(n)
            case Got(rest, i4) =>
              var c := CaseOf(rows[i].n, name, top, salt, rest);
              if !VersionOk(c) then Bad(rows[i].n) else Got(c, i4)
  }

  function CaseAt(rows: seq<Row>, i: nat, images: set<string>, names: set<string>): (r: Res<Case>)
    requires i <= |rows|
    ensures r.Got? ==> i < r.next <= |rows|
  {
    match CaseHeadAt(rows, i, names)
    case Bad(n) => Bad(n)
    case Got(c, i1) =>
      match Expect(rows, i1, KRuns)
      case Bad(n) => Bad(n)
      case Got(l, i2) =>
        match RunsAt(rows, i2, 0, NumOf(l), images, c.version)
        case Bad(n) => Bad(n)
        case Got(rs, e) =>
          if !DepthsOk(c.(runs := rs)) then Bad(rows[i].n) else Got(c.(runs := rs), e)
  }

  function CasesAt(rows: seq<Row>, i: nat, images: set<string>, names: set<string>): (r: Res<seq<Case>>)
    requires i <= |rows|
    ensures r.Got? ==> r.next == |rows|
    decreases |rows| - i
  {
    if i == |rows| then Got([], i)
    else
      match CaseAt(rows, i, images, names)
      case Bad(n) => Bad(n)
      case Got(c, j) =>
        match CasesAt(rows, j, images, names + {c.name})
        case Bad(n) => Bad(n)
        case Got(cs, e) => Got([c] + cs, e)
  }

  function SourcesAt(rows: seq<Row>, i: nat): (r: Res<seq<File>>)
    requires i <= |rows|
    ensures r.Got? ==> i <= r.next <= |rows|
    decreases |rows| - i
  {
    if !Peeks(rows, i, Keyword(KSource)) then Got([], i)
    else
      match Expect(rows, i, KSource)
      case Bad(n) => Bad(n)
      case Got(l, j) =>
        match SourcesAt(rows, j)
        case Bad(n) => Bad(n)
        case Got(fs, e) => Got([FileOf(l)] + fs, e)
  }

  function ImagesAt(rows: seq<Row>, i: nat): (r: Res<seq<Image>>)
    requires i <= |rows|
    ensures r.Got? ==> i <= r.next <= |rows|
    decreases |rows| - i
  {
    if !Peeks(rows, i, Keyword(KImage)) then Got([], i)
    else
      match Expect(rows, i, KImage)
      case Bad(n) => Bad(n)
      case Got(l, j) =>
        if !l.ImageLine? then Bad(rows[i].n)
        else
          match ImagesAt(rows, j)
          case Bad(n) => Bad(n)
          case Got(ims, e) => Got([l.im] + ims, e)
  }

  /** The first case whose superseded case is none of them. */
  function Dangling(cs: seq<Case>, known: set<string>): Option<nat> {
    if cs == [] then None
    else if cs[0].superseded.Some? && cs[0].superseded.value !in known then Some(cs[0].line)
    else Dangling(cs[1..], known)
  }

  function DocAt(rows: seq<Row>): (r: Res<Doc>) {
    match Expect(rows, 0, KCorpus)
    case Bad(n) => Bad(n)
    case Got(_, i1) =>
      match SourcesAt(rows, i1)
      case Bad(n) => Bad(n)
      case Got(fs, i2) =>
        match ImagesAt(rows, i2)
        case Bad(n) => Bad(n)
        case Got(ims, i3) =>
          if ims == [] then Bad(Last(rows, i3))
          else
            match CasesAt(rows, i3, Paths(ims), {})
            case Bad(n) => Bad(n)
            case Got(cs, e) =>
              if cs == [] then Bad(Last(rows, e))
              else
                match Dangling(cs, Names(cs))
                case Some(n) => Bad(n)
                case None => Got(Doc(fs, ims, cs), e)
  }
}
