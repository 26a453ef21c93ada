/** What a manifest that is read holds, field by field, in the reader's own words no more:
    the conditions a case and its runs meet, and the lines a case that breaks them is
    refused at. */
module ManifestMeaning {
  import opened Wrappers
  import opened Text
  import opened Decimal
  import opened Order
  import opened Grammar
  import opened Manifest
  import opened ManifestRoundTrip
  import opened ManifestFile

  // ---- the conditions -------------------------------------------------------

  const LARGEST: nat := 9223372036854775807

  const POWERS: set<nat> := {1, 2, 4, 8, 16, 32, 64, 128, 256, 512, 1024, 2048, 4096, 8192, 16384, 32768}

  /** The first parameter called scratch-depth says v. */
  ghost predicate States(ps: seq<(string, nat)>, v: nat) {
    exists i :: 0 <= i < |ps| && ps[i] == ("scratch-depth", v) && forall j :: 0 <= j < i ==> ps[j].0 != "scratch-depth"
  }

  ghost predicate Silent(ps: seq<(string, nat)>) {
    forall i :: 0 <= i < |ps| ==> ps[i].0 != "scratch-depth"
  }

  /** No run states a scratch depth, or all do, and it is the case's. */
  ghost predicate OneDepth(c: Case) {
    || (forall r :: r in c.runs ==> Silent(r.parameters))
    || forall r :: r in c.runs ==> States(r.parameters, c.depth)
  }

  ghost predicate Filed(f: Option<File>) { f.Some? ==> PathOk(f.value.path) && ShaOk(f.value.sha) }

  /** A version-1 case has nothing of version 2's. */
  ghost predicate OfVersion1(c: Case) {
    && c.writers == "both" && c.blocks == c.states && c.signature == None && c.keyring == None && c.superseded == None
    && c.define == "none" && c.regenerate == false
  }

  ghost predicate HeadMeans(c: Case) {
    && NameOk(c.name) && AllPrintable(Split(' ', c.what)) && Filed(Some(c.certificate)) && Filed(c.salt)
    && c.version in {1, 2} && c.depth in POWERS
    && c.backends in {"any", "software"} && c.writers in {"both", "golden"} && c.accuracy <= LARGEST
    && (c.verdict.Refused? ==> Refusal(c.verdict.name) && Printable(c.verdict.name))
    && PathOk(c.states) && PathOk(c.blocks) && Filed(c.signature) && Filed(c.keyring)
    && (c.superseded.Some? ==> NameOk(c.superseded.value) && c.superseded.value != "none") && DefineOk(c.define)
  }

  /** A half-step run's h-slots: some, and each one of the 512. */
  ghost predicate SlotsFit(kind: RunKind) {
    match kind
    case HalfStep(slots) => 1 <= |slots| <= 512 && forall j :: 0 <= j < |slots| ==> slots[j] < 512
    case Main | Wider | WiderSource => true
  }

  ghost predicate RunMeans(r: Run, i: nat, images: set<string>, version: nat) {
    && r.index == i && (r.kind == Main <==> i == 0) && r.image in images && Printable(r.image)
    && SlotsFit(r.kind)
    && Filed(r.bank) && Filed(r.source) && 1 <= r.segments <= LARGEST && 1 <= r.steps <= LARGEST
    && |r.parameters| <= LARGEST
    && (forall j :: 0 <= j < |r.parameters| ==> NameOk(r.parameters[j].0) && r.parameters[j].1 <= LARGEST)
    && |r.boundaries| == r.segments + 1 && (forall j :: 0 <= j < |r.boundaries| ==> ShaOk(r.boundaries[j]))
    && (r.blocks == [] || |r.blocks| == r.segments) && (forall j :: 0 <= j < |r.blocks| ==> ShaOk(r.blocks[j]))
    && (forall j :: 0 <= j < |r.raws| ==> r.raws[j].0 < r.segments && ShaOk(r.raws[j].1) && ShaOk(r.raws[j].2))
    && (forall j, k :: 0 <= j < k < |r.raws| ==> r.raws[j].0 < r.raws[k].0)
    && (version == 1 ==> r.kind != WiderSource && r.source == None && r.blocks == [] && r.raws == [])
  }

  ghost predicate CaseMeans(c: Case, images: set<string>) {
    && HeadMeans(c) && 1 <= |c.runs| <= LARGEST
    && (forall i :: 0 <= i < |c.runs| ==> RunMeans(c.runs[i], i, images, c.version))
    && (c.version == 1 ==> OfVersion1(c)) && OneDepth(c)
  }

  /** An image: one of the library's, a source's, or compiled - with its format one of the
      ladder, its steps, its target's short name, and its parameters by increasing name. */
  ghost predicate ImageMeans(im: Image) {
    && PathOk(im.path) && ShaOk(im.sha)
    && match im.how
       case Library(name) => Printable(name)
       case Source(source, fmt) =>
         PathOk(source) && (fmt.Some? ==> fmt.value in {"fp32", "fp64", "fp128", "fp256"})
       case Compiled(source, format, steps, target, params) =>
         && PathOk(source) && format in {"fp32", "fp64", "fp128", "fp256"} && 1 <= steps <= LARGEST
         && 1 <= |target| <= 40
         && (forall j :: 0 <= j < |target| ==>
               'a' <= target[j] <= 'z' || '0' <= target[j] <= '9' || target[j] in {':', '-'})
         && |params| <= LARGEST
         && (forall j :: 0 <= j < |params| ==> LangOk(params[j].0) && Printable(params[j].1))
         && forall j, k :: 0 <= j < k < |params| ==> Less(params[j].0, params[k].0)
  }

  // ---- what prints ----------------------------------------------------------

  predicate Inked(s: string) {
    forall i | 0 <= i < |s| :: '!' <= s[i] <= '~'
  }

  lemma {:induction false} PartsInked(sep: char, s: string)
    requires '!' <= sep <= '~' && forall i | 0 <= i < |Split(sep, s)| :: Inked(Split(sep, s)[i])
    ensures Inked(s)
  {
    if s != [] {
      var rest := Split(sep, s[1..]);
      forall i | 0 <= i < |rest|
        ensures Inked(rest[i])
      {
        if s[0] == sep {
          assert rest[i] == Split(sep, s)[i + 1];
        } else if i == 0 {
          assert Split(sep, s)[0] == [s[0]] + rest[0];
          assert forall j | 0 <= j < |rest[0]| :: rest[0][j] == Split(sep, s)[0][j + 1];
        } else {
          assert rest[i] == Split(sep, s)[i];
        }
      }
      PartsInked(sep, s[1..]);
      if s[0] != sep { assert Split(sep, s)[0][0] == s[0]; }
      assert forall i | 1 <= i < |s| :: s[i] == s[1..][i - 1];
    }
  }

  lemma PathPrints(s: string)
    requires PathOk(s)
    ensures Printable(s)
  {
    PartsInked('/', s);
    assert Split('/', "")[0] == "" && PathPart(Split('/', s)[0]);
  }

  lemma ShaPrints(s: string)
    ensures ShaOk(s) ==> Printable(s)
    ensures NameOk(s) ==> Printable(s)
    ensures IsDec(s) ==> Printable(s)
  {
  }

  lemma DefinePrints(s: string)
    requires DefineOk(s)
    ensures Printable(s)
  {
    if s != "none" {
      var ps := Split(':', s);
      if ps[1] != "all" {
        var ks := Split(',', ps[1]);
        forall i | 0 <= i < |ks|
          ensures Inked(ks[i])
        {
          ShaPrints(ks[i]);
        }
        PartsInked(',', ps[1]);
      }
      ShaPrints(ps[0]);
      assert Inked(ps[0]) && Inked(ps[1]);
      PartsInked(':', s);
      assert s == "" ==> |Split(':', s)| == 1;
    }
  }

  lemma StrPrints(n: nat)
    ensures Printable(Str(n))
  {
  }

  const NAMEKEYS: set<Key> := {KCorpus, KSource, KImage, KCase, KWhat, KCertificate, KVersion}
  const MODEKEYS: set<Key> := {KMode, KSalt, KDepth, KBackends, KWriters, KAccuracy, KVerdict, KStates}
  const RUNKEYS: set<Key> := {KRunImage, KBank, KRunSource, KSegments, KSteps, KParameters, KParameter}

  lemma KeywordPrints(k: Key)
    ensures Printable(Keyword(k))
  {
    hide Printable, Keyword;
    if k in NAMEKEYS { NameKeysPrint(k); }
    else if k in MODEKEYS { ModeKeysPrint(k); }
    else if k in RUNKEYS { RunKeysPrint(k); }
    else { OtherKeysPrint(k); }
  }

  lemma NameKeysPrint(k: Key)
    requires k in NAMEKEYS
    ensures Printable(Keyword(k))
  {
  }

  lemma ModeKeysPrint(k: Key)
    requires k in MODEKEYS
    ensures Printable(Keyword(k))
  {
  }

  lemma RunKeysPrint(k: Key)
    requires k in RUNKEYS
    ensures Printable(Keyword(k))
  {
  }

  lemma OtherKeysPrint(k: Key)
    requires k !in NAMEKEYS && k !in MODEKEYS && k !in RUNKEYS
    ensures Printable(Keyword(k))
  {
  }

  lemma OnePrints(k: Key, ts: Tokens)
    ensures AllPrintable([Keyword(k)] + ts) <==> AllPrintable(ts)
  {
    hide Printable, Keyword;
    KeywordPrints(k);
    var all := [Keyword(k)] + ts;
    assert forall i | 0 <= i < |ts| :: ts[i] == all[i + 1];
    assert forall i | 1 <= i < |all| :: all[i] == ts[i - 1];
  }

  // ---- line by line ---------------------------------------------------------

  lemma {:induction false} PowerIs(n: nat)
    requires n <= 32768
    ensures PowerOfTwo(n) <==> n in POWERS
  {
    if n > 1 {
      PowerIs(n / 2);
      assert n % 2 == 0 ==> n == 2 * (n / 2);
      assert n % 2 == 1 ==> n !in POWERS;
    }
  }

  lemma WordMeans(k: Key, w: string)
    requires FormOf(k) == FWord
    ensures LineOk(Word(k, w)) <==> WordOk(k, w) && Printable(w)
  {
    hide WordOk, Printable, Keyword;
    OnePrints(k, [w]);
    assert AllPrintable([w]) <==> Printable([w][0]);
  }

  lemma NumMeans(k: Key, n: nat)
    requires FormOf(k) == FNum
    ensures LineOk(Num(k, n)) <==> NumOk(k, n)
  {
    hide NumOk, Printable, Keyword, Str;
    OnePrints(k, [Str(n)]);
    StrPrints(n);
    assert AllPrintable([Str(n)]);
  }

  lemma FileMeans(k: Key, o: Option<File>)
    ensures FormOf(k) == FNamed && o.Some? ==> (LineOk(Named(k, o.value)) <==> Filed(o))
    ensures FormOf(k) == FMaybe ==> (LineOk(Maybe(k, o)) <==> Filed(o))
  {
    hide PathOk, ShaOk, Keyword, Printable, FormOf;
    if o.Some? {
      var ts := [o.value.path, o.value.sha];
      OnePrints(k, ts);
      if PathOk(o.value.path) && ShaOk(o.value.sha) {
        PathPrints(o.value.path);
        ShaPrints(o.value.sha);
        assert AllPrintable(ts);
      }
    } else {
      OnePrints(k, ["none"]);
      NonePrints();
    }
  }

  lemma NonePrints()
    ensures AllPrintable(["none"]) && AllPrintable(["accepted"]) && Printable("refused")
    ensures Printable("none") && Printable("both")
  {
  }

  lemma ShaMeans(k: Key, i: nat, sha: string)
    requires FormOf(k) == FNumbered
    ensures LineOk(Numbered(k, i, sha)) <==> ShaOk(sha)
  {
    hide ShaOk, Keyword, Printable, Str;
    OnePrints(k, [Str(i), sha]);
    StrPrints(i);
    if ShaOk(sha) {
      ShaPrints(sha);
      assert AllPrintable([Str(i), sha]);
    }
  }

  lemma ParameterMeans(name: string, v: nat)
    ensures LineOk(Parameter(name, v)) <==> NameOk(name) && v <= LARGEST
  {
    hide NameOk, Keyword, Printable, Str;
    OnePrints(KParameter, [name, Str(v)]);
    StrPrints(v);
    if NameOk(name) {
      ShaPrints(name);
      assert AllPrintable([name, Str(v)]);
    }
  }

  lemma RawMeans(i: nat, sha: string, flags: string)
    ensures LineOk(Raw(i, sha, flags)) <==> i <= LARGEST && ShaOk(sha) && ShaOk(flags)
  {
    hide ShaOk, Keyword, Printable, Str;
    OnePrints(KRaw, [Str(i), sha, flags]);
    StrPrints(i);
    if ShaOk(sha) && ShaOk(flags) {
      ShaPrints(sha);
      ShaPrints(flags);
      assert AllPrintable([Str(i), sha, flags]);
    }
  }

  lemma WhatMeans(words: Tokens)
    ensures LineOk(What(words)) <==> words != [] && AllPrintable(words)
  {
    hide Keyword, Printable;
    OnePrints(KWhat, words);
  }

  lemma AccuracyMeans(n: nat)
    ensures LineOk(Accuracy(n)) <==> n <= LARGEST
  {
    hide Keyword, Printable, Str;
    OnePrints(KAccuracy, [Str(n), if n == 0 then "none" else "both"]);
    StrPrints(n);
    NonePrints();
    assert AllPrintable([Str(n), if n == 0 then "none" else "both"]);
  }

  lemma VerdictMeans(v: Verdict)
    ensures LineOk(Judged(v)) <==> (v.Refused? ==> Refusal(v.name) && Printable(v.name))
  {
    hide Refusal, Keyword, Printable;
    NonePrints();
    if v.Accepted? {
      OnePrints(KVerdict, ["accepted"]);
    } else {
      OnePrints(KVerdict, ["refused", v.name]);
      assert AllPrintable(["refused", v.name]) <==> Printable(["refused", v.name][1]);
    }
  }

  lemma KindMeans(i: nat, kind: RunKind)
    ensures LineOk(RunLine(i, kind))
       <==> SlotsFit(kind)
  {
    hide Keyword, Printable, Str;
    OnePrints(KRun, [Str(i)] + PrintKind(kind));
    StrPrints(i);
    KindPrintable(kind);
    var all := [Str(i)] + PrintKind(kind);
    assert forall j | 1 <= j < |all| :: all[j] == PrintKind(kind)[j - 1];
    assert AllPrintable(all);
  }

  lemma KindPrintable(kind: RunKind)
    ensures AllPrintable(PrintKind(kind))
  {
    hide Str;
    forall n: nat
      ensures Printable(Str(n))
    {
      StrPrints(n);
    }
  }

  lemma TargetPrints(s: string)
    ensures TargetOk(s) ==> Printable(s)
  {
  }

  lemma {:induction false} PairsRise(ps: seq<(string, string)>, j: nat, k: nat)
    requires PairsOk(ps) && j < k < |ps|
    ensures Less(ps[j].0, ps[k].0)
  {
    if j < k - 1 {
      PairsRise(ps, j, k - 1);
      LessTransitive(ps[j].0, ps[k - 1].0, ps[k].0);
    }
  }

  lemma PairsAre(ps: seq<(string, string)>)
    ensures PairsOk(ps)
       <==> (forall j :: 0 <= j < |ps| ==> LangOk(ps[j].0))
            && forall j, k :: 0 <= j < k < |ps| ==> Less(ps[j].0, ps[k].0)
  {
    hide LangOk, Less;
    if PairsOk(ps) {
      forall j, k | 0 <= j < k < |ps|
        ensures Less(ps[j].0, ps[k].0)
      {
        PairsRise(ps, j, k);
      }
    }
  }

  lemma {:induction false} FlatPrints(ps: seq<(string, string)>)
    requires forall j :: 0 <= j < |ps| ==> LangOk(ps[j].0)
    ensures AllPrintable(Flat(ps)) <==> forall j :: 0 <= j < |ps| ==> Printable(ps[j].1)
  {
    hide Printable, LangOk;
    if ps != [] {
      var rest := ps[1..];
      assert forall j | 0 <= j < |rest| :: rest[j] == ps[j + 1];
      assert forall j | 1 <= j < |ps| :: ps[j] == rest[j - 1];
      FlatPrints(rest);
      LangPrints(ps[0].0);
      TokensJoin([ps[0].0, ps[0].1], Flat(rest));
      assert AllPrintable([ps[0].0, ps[0].1]) <==> Printable([ps[0].0, ps[0].1][1]);
    }
  }

  lemma LangPrints(s: string)
    ensures LangOk(s) ==> Printable(s)
  {
  }

  lemma TokensJoin(a: Tokens, b: Tokens)
    ensures AllPrintable(a + b) <==> AllPrintable(a) && AllPrintable(b)
  {
    hide Printable;
    var all := a + b;
    assert forall i | 0 <= i < |a| :: a[i] == all[i];
    assert forall i | 0 <= i < |b| :: b[i] == all[|a| + i];
  }

  lemma HowWords()
    ensures Printable("library") && Printable("source") && Printable("format") && Printable("compiled")
    ensures Printable("steps") && Printable("target") && Printable("params")
    ensures forall s :: Format(s) ==> Printable(s)
  {
  }

  lemma ImageIs(im: Image)
    ensures LineOk(ImageLine(im)) <==> ImageMeans(im)
  {
    hide Printable, PathOk, ShaOk, Keyword, LangOk, PairsOk, Flat, Str, Less, AllPrintable;
    var head := [im.path, im.sha];
    OnePrints(KImage, head + PrintHow(im.how));
    TokensJoin(head, PrintHow(im.how));
    if PathOk(im.path) && ShaOk(im.sha) {
      PathPrints(im.path);
      ShaPrints(im.sha);
      PairPrints(im.path, im.sha);
    }
    HowWords();
    match im.how
    case Library(name) => PairPrints("library", name);
    case Source(source, fmt) =>
      if PathOk(source) { PathPrints(source); }
      PairPrints("source", source);
      if fmt.Some? {
        PairPrints("format", fmt.value);
        TokensJoin(["source", source], ["format", fmt.value]);
      } else {
        TokensJoin(["source", source], []);
        assert AllPrintable([]) by { NoTokens(); }
        assert PrintHow(im.how) == ["source", source];
      }
    case Compiled(source, format, steps, target, params) =>
      PairsAre(params);
      if PathOk(source) && Format(format) && TargetOk(target) && PairsOk(params) {
        PathPrints(source);
        TargetPrints(target);
        CompiledPrints(im.how);
      }
  }

  lemma NoTokens()
    ensures AllPrintable([])
  {
  }

  lemma PairPrints(a: string, b: string)
    ensures AllPrintable([a, b]) <==> Printable(a) && Printable(b)
  {
    hide Printable;
    assert [a, b][0] == a && [a, b][1] == b;
  }

  lemma CompiledPrints(h: How)
    requires h.Compiled?
    requires Printable(h.source) && Printable(h.format) && Printable(h.target) && PairsOk(h.params)
    ensures AllPrintable(PrintHow(h)) <==> forall j :: 0 <= j < |h.params| ==> Printable(h.params[j].1)
  {
    hide Printable, Flat, Str, LangOk, Less, AllPrintable;
    var front := ["compiled", h.source, "format", h.format, "steps", Str(h.steps), "target", h.target, "params",
                  Str(|h.params|)];
    HowWords();
    StrPrints(h.steps);
    StrPrints(|h.params|);
    TokensJoin(front, Flat(h.params));
    PairPrints("compiled", h.source);
    PairPrints("format", h.format);
    PairPrints("steps", Str(h.steps));
    PairPrints("target", h.target);
    PairPrints("params", Str(|h.params|));
    TokensJoin(front[..2], front[2..]);
    TokensJoin(front[2..4], front[4..]);
    TokensJoin(front[4..6], front[6..]);
    TokensJoin(front[6..8], front[8..]);
    assert front[..2] == ["compiled", h.source] && front[2..4] == ["format", h.format];
    assert front[4..6] == ["steps", Str(h.steps)] && front[6..8] == ["target", h.target];
    assert front[8..] == ["params", Str(|h.params|)];
    assert front == front[..2] + front[2..] && front[2..] == front[2..4] + front[4..];
    assert front[4..] == front[4..6] + front[6..] && front[6..] == front[6..8] + front[8..];
    PairsAre(h.params);
    FlatPrints(h.params);
  }

  // ---- put together ---------------------------------------------------------

  lemma LinesJoin(a: seq<Line>, b: seq<Line>)
    ensures LinesOk(a + b) <==> LinesOk(a) && LinesOk(b)
  {
    hide LineOk;
    var all := a + b;
    assert forall i | 0 <= i < |a| :: a[i] == all[i];
    assert forall i | 0 <= i < |b| :: b[i] == all[|a| + i];
  }

  lemma LinesCons(l: Line, ls: seq<Line>)
    ensures LinesOk([l] + ls) <==> LineOk(l) && LinesOk(ls)
    ensures LinesOk([])
  {
    hide LineOk;
    LinesJoin([l], ls);
    assert LinesOk([l]) <==> LineOk([l][0]);
  }

  lemma TopMeans(c: Case)
    ensures LinesOk(CaseTop(c))
       <==> NameOk(c.name) && AllPrintable(Split(' ', c.what)) && Filed(Some(c.certificate)) && c.version in {1, 2}
  {
    hide LineOk, LinesOk, Printable, Split, NameOk, Filed;
    var mode := if c.salt.Some? then "keyed" else "open";
    var ls := [Word(KCase, c.name), What(Split(' ', c.what)), Named(KCertificate, c.certificate),
               Num(KVersion, c.version), Word(KMode, mode)];
    assert CaseTop(c) == ls;
    FiveLines(ls);
    WordMeans(KCase, c.name);
    WhatMeans(Split(' ', c.what));
    FileMeans(KCertificate, Some(c.certificate));
    NumMeans(KVersion, c.version);
    WordMeans(KMode, mode);
    ModePrints();
    ShaPrints(c.name);
  }

  lemma ModePrints()
    ensures Printable("keyed") && Printable("open") && Printable("any") && Printable("software") && Printable("golden")
    ensures Printable("yes") && Printable("no") && Printable("none") && Printable("both")
  {
  }

  lemma FiveLines(ls: seq<Line>)
    requires |ls| == 5
    ensures LinesOk(ls) <==> LineOk(ls[0]) && LineOk(ls[1]) && LineOk(ls[2]) && LineOk(ls[3]) && LineOk(ls[4])
  {
    hide LineOk;
  }

  lemma SaltMeans(c: Case)
    ensures LinesOk(CaseSalt(c)) <==> Filed(c.salt)
  {
    hide LineOk, Filed;
    if c.salt.Some? {
      FileMeans(KSalt, c.salt);
      assert LinesOk(CaseSalt(c)) <==> LineOk(CaseSalt(c)[0]);
    } else {
      assert Filed(c.salt) by { NoFile(); }
    }
  }

  lemma NoFile()
    ensures Filed(None)
  {
  }

  lemma RestMeans(c: Case)
    ensures LinesOk(CaseRest(c)) && c.superseded != Some("none")
       <==> && c.depth in POWERS && c.backends in {"any", "software"} && c.writers in {"both", "golden"}
            && c.accuracy <= LARGEST && (c.verdict.Refused? ==> Refusal(c.verdict.name) && Printable(c.verdict.name))
            && PathOk(c.states) && PathOk(c.blocks) && Filed(c.signature) && Filed(c.keyring)
            && (c.superseded.Some? ==> NameOk(c.superseded.value) && c.superseded.value != "none") && DefineOk(c.define)
  {
    hide LineOk, LinesOk, Printable, NameOk, Filed, PathOk, DefineOk, Refusal;
    FirstMeans(c);
    LaterMeans(c);
    LinesJoin(CaseRest(c)[..5], CaseRest(c)[5..]);
    assert CaseRest(c) == CaseRest(c)[..5] + CaseRest(c)[5..];
  }

  lemma FirstMeans(c: Case)
    ensures LinesOk(CaseRest(c)[..5])
       <==> && c.depth in POWERS && c.backends in {"any", "software"} && c.writers in {"both", "golden"}
            && c.accuracy <= LARGEST && (c.verdict.Refused? ==> Refusal(c.verdict.name) && Printable(c.verdict.name))
  {
    hide LineOk, LinesOk, Printable, Refusal, PowerOfTwo;
    var ls := [Num(KDepth, c.depth), Word(KBackends, c.backends), Word(KWriters, c.writers), Accuracy(c.accuracy),
               Judged(c.verdict)];
    assert CaseRest(c)[..5] == ls;
    FiveLines(ls);
    NumMeans(KDepth, c.depth);
    if c.depth <= 32768 { PowerIs(c.depth); }
    WordMeans(KBackends, c.backends);
    WordMeans(KWriters, c.writers);
    AccuracyMeans(c.accuracy);
    VerdictMeans(c.verdict);
    ModePrints();
  }

  lemma LaterMeans(c: Case)
    ensures LinesOk(CaseRest(c)[5..]) && c.superseded != Some("none")
       <==> && PathOk(c.states) && PathOk(c.blocks) && Filed(c.signature) && Filed(c.keyring)
            && (c.superseded.Some? ==> NameOk(c.superseded.value) && c.superseded.value != "none") && DefineOk(c.define)
  {
    hide LineOk, LinesOk, Printable, NameOk, Filed, PathOk, DefineOk;
    var old', again := if c.superseded.Some? then c.superseded.value else "none", if c.regenerate then "yes" else "no";
    var a := [Word(KStates, c.states), Word(KBlocks, c.blocks), Maybe(KSignature, c.signature),
              Maybe(KKeyring, c.keyring), Word(KSuperseded, old')];
    var b := [Word(KDefine, c.define), Word(KRegenerate, again)];
    assert CaseRest(c)[5..] == a + b;
    LinesJoin(a, b);
    FiveLines(a);
    LinesCons(b[0], [b[1]]);
    LinesCons(b[1], []);
    assert b == [b[0]] + [b[1]] && [b[1]] + [] == [b[1]];
    PathMeans(KStates, c.states);
    PathMeans(KBlocks, c.blocks);
    FileMeans(KSignature, c.signature);
    FileMeans(KKeyring, c.keyring);
    OldMeans(old');
    DefineMeans(c.define);
    AgainMeans(again);
  }

  lemma PathMeans(k: Key, w: string)
    requires k == KStates || k == KBlocks
    ensures LineOk(Word(k, w)) <==> PathOk(w)
  {
    hide LineOk, Printable, PathOk;
    WordMeans(k, w);
    if PathOk(w) { PathPrints(w); }
  }

  lemma OldMeans(w: string)
    ensures LineOk(Word(KSuperseded, w)) <==> w == "none" || NameOk(w)
  {
    hide LineOk, Printable, NameOk;
    WordMeans(KSuperseded, w);
    ModePrints();
    ShaPrints(w);
  }

  lemma DefineMeans(w: string)
    ensures LineOk(Word(KDefine, w)) <==> DefineOk(w)
  {
    hide LineOk, Printable, DefineOk;
    WordMeans(KDefine, w);
    if DefineOk(w) { DefinePrints(w); }
  }

  lemma AgainMeans(w: string)
    ensures LineOk(Word(KRegenerate, w)) <==> w == "yes" || w == "no"
  {
    hide LineOk, Printable;
    WordMeans(KRegenerate, w);
    ModePrints();
  }

  lemma {:induction false} ParamsMean(ps: seq<(string, nat)>)
    ensures LinesOk(ParamLines(ps)) <==> forall j :: 0 <= j < |ps| ==> NameOk(ps[j].0) && ps[j].1 <= LARGEST
  {
    hide LineOk, LinesOk, NameOk;
    if ps == [] {
      LinesCons(Accuracy(0), []);
    } else {
      ParamsMean(ps[1..]);
      ParameterMeans(ps[0].0, ps[0].1);
      LinesCons(Parameter(ps[0].0, ps[0].1), ParamLines(ps[1..]));
      assert forall j | 1 <= j < |ps| :: ps[j] == ps[1..][j - 1];
      assert forall j | 0 <= j < |ps[1..]| :: ps[1..][j] == ps[j + 1];
    }
  }

  lemma {:induction false} HashesMean(k: Key, b: nat, shas: seq<string>)
    requires FormOf(k) == FNumbered
    ensures LinesOk(HashLines(k, b, shas)) <==> forall j :: 0 <= j < |shas| ==> ShaOk(shas[j])
    decreases |shas|
  {
    hide LineOk, LinesOk, ShaOk;
    if shas == [] {
      LinesCons(Accuracy(0), []);
    } else {
      HashesMean(k, b + 1, shas[1..]);
      ShaMeans(k, b, shas[0]);
      LinesCons(Numbered(k, b, shas[0]), HashLines(k, b + 1, shas[1..]));
      assert forall j | 1 <= j < |shas| :: shas[j] == shas[1..][j - 1];
      assert forall j | 0 <= j < |shas[1..]| :: shas[1..][j] == shas[j + 1];
    }
  }

  lemma {:induction false} RawsMean(raws: seq<(nat, string, string)>)
    ensures LinesOk(RawLines(raws))
       <==> forall j :: 0 <= j < |raws| ==> raws[j].0 <= LARGEST && ShaOk(raws[j].1) && ShaOk(raws[j].2)
  {
    hide LineOk, LinesOk, ShaOk;
    if raws == [] {
      LinesCons(Accuracy(0), []);
    } else {
      RawsMean(raws[1..]);
      RawMeans(raws[0].0, raws[0].1, raws[0].2);
      LinesCons(Raw(raws[0].0, raws[0].1, raws[0].2), RawLines(raws[1..]));
      assert forall j | 1 <= j < |raws| :: raws[j] == raws[1..][j - 1];
      assert forall j | 0 <= j < |raws[1..]| :: raws[1..][j] == raws[j + 1];
    }
  }

  lemma RunHeadMeans(r: Run)
    ensures LinesOk(RunHead(r))
       <==> && Printable(r.image) && Filed(r.bank) && Filed(r.source) && 1 <= r.segments <= LARGEST
            && SlotsFit(r.kind) && 1 <= r.steps <= LARGEST && |r.parameters| <= LARGEST
  {
    hide LineOk, LinesOk, Printable, Filed, SlotsFit;
    var a := [RunLine(r.index, r.kind), Word(KRunImage, r.image), Maybe(KBank, r.bank), Maybe(KRunSource, r.source),
              Num(KSegments, r.segments)];
    var b := [Num(KSteps, r.steps), Num(KParameters, |r.parameters|)];
    assert RunHead(r) == a + b;
    LinesJoin(a, b);
    RunTopMeans(r, a);
    LinesCons(b[0], [b[1]]);
    LinesCons(b[1], []);
    assert b == [b[0]] + [b[1]] && [b[1]] + [] == [b[1]];
    NumMeans(KSteps, r.steps);
    NumMeans(KParameters, |r.parameters|);
  }

  lemma RunTopMeans(r: Run, a: seq<Line>)
    requires a == [RunLine(r.index, r.kind), Word(KRunImage, r.image), Maybe(KBank, r.bank),
                   Maybe(KRunSource, r.source), Num(KSegments, r.segments)]
    ensures LinesOk(a)
       <==> Printable(r.image) && Filed(r.bank) && Filed(r.source) && 1 <= r.segments <= LARGEST && SlotsFit(r.kind)
  {
    hide LineOk, LinesOk, Printable, Filed, SlotsFit;
    FiveLines(a);
    KindMeans(r.index, r.kind);
    WordMeans(KRunImage, r.image);
    FileMeans(KBank, r.bank);
    FileMeans(KRunSource, r.source);
    NumMeans(KSegments, r.segments);
  }

  lemma {:induction false} Increasing(raws: seq<(nat, string, string)>, j: nat, k: nat, segments: nat)
    requires RawsOk(raws, segments) && j < k < |raws|
    ensures raws[j].0 < raws[k].0
  {
    if j < k - 1 { Increasing(raws, j, k - 1, segments); }
  }

  lemma RunIs(r: Run, i: nat, images: set<string>, version: nat)
    ensures RunOk(r, i, images, version) <==> RunMeans(r, i, images, version)
  {
    hide LinesOk, RunHead, ParamLines, HashLines, RawLines, NameOk, ShaOk, Filed, Printable, RawsOk;
    RunHeadMeans(r);
    ParamsMean(r.parameters);
    HashesMean(KBoundary, 0, r.boundaries);
    HashesMean(KBlock, 0, r.blocks);
    RawsMean(r.raws);
    LinesJoin(HashLines(KBlock, 0, r.blocks), RawLines(r.raws));
    LinesJoin(HashLines(KBoundary, 0, r.boundaries), HashLines(KBlock, 0, r.blocks) + RawLines(r.raws));
    LinesJoin(ParamLines(r.parameters),
              HashLines(KBoundary, 0, r.boundaries) + (HashLines(KBlock, 0, r.blocks) + RawLines(r.raws)));
    LinesJoin(RunHead(r), RunTail(r));
    RawsOrder(r.raws, r.segments);
  }

  lemma RawsOrder(raws: seq<(nat, string, string)>, segments: nat)
    ensures RawsOk(raws, segments)
       <==> (forall j :: 0 <= j < |raws| ==> raws[j].0 < segments)
            && forall j, k :: 0 <= j < k < |raws| ==> raws[j].0 < raws[k].0
  {
    if RawsOk(raws, segments) {
      forall j, k | 0 <= j < k < |raws|
        ensures raws[j].0 < raws[k].0
      {
        Increasing(raws, j, k, segments);
      }
    }
  }

  lemma {:induction false} RunsLinesOk(rs: seq<Run>)
    ensures LinesOk(RunsLines(rs)) <==> forall i :: 0 <= i < |rs| ==> LinesOk(RunLines(rs[i]))
  {
    hide LinesOk, RunLines;
    if rs == [] {
      LinesCons(Accuracy(0), []);
    } else {
      RunsLinesOk(rs[1..]);
      LinesJoin(RunLines(rs[0]), RunsLines(rs[1..]));
      assert forall i | 1 <= i < |rs| :: rs[i] == rs[1..][i - 1];
      assert forall i | 0 <= i < |rs[1..]| :: rs[1..][i] == rs[i + 1];
    }
  }

  // ---- the scratch depth ----------------------------------------------------

  lemma {:induction false} DepthSays(ps: seq<(string, nat)>)
    ensures DepthParam(ps).None? <==> Silent(ps)
    ensures forall v: nat :: DepthParam(ps) == Some(v) <==> States(ps, v)
  {
    if ps != [] {
      var rest := ps[1..];
      DepthSays(rest);
      assert forall j | 0 <= j < |rest| :: rest[j] == ps[j + 1];
      assert forall j | 1 <= j < |ps| :: ps[j] == rest[j - 1];
      if ps[0].0 != "scratch-depth" {
        forall v: nat
          ensures States(ps, v) <==> States(rest, v)
        {
          if States(rest, v) {
            var i :| 0 <= i < |rest| && rest[i] == ("scratch-depth", v)
                     && forall j :: 0 <= j < i ==> rest[j].0 != "scratch-depth";
            assert ps[i + 1] == ("scratch-depth", v) && forall j :: 0 <= j < i + 1 ==> ps[j].0 != "scratch-depth";
          }
          if States(ps, v) {
            var i :| 0 <= i < |ps| && ps[i] == ("scratch-depth", v)
                     && forall j :: 0 <= j < i ==> ps[j].0 != "scratch-depth";
            assert rest[i - 1] == ("scratch-depth", v) && forall j :: 0 <= j < i - 1 ==> rest[j].0 != "scratch-depth";
          }
        }
      } else {
        forall v: nat
          ensures States(ps, v) <==> v == ps[0].1
        {
          assert ps[0] == ("scratch-depth", ps[0].1);
        }
      }
    }
  }

  lemma DepthsAre(c: Case)
    ensures DepthsOk(c) <==> OneDepth(c)
  {
    hide DepthParam, States, Silent;
    forall r | r in c.runs
      ensures DepthParam(r.parameters).None? <==> Silent(r.parameters)
      ensures DepthParam(r.parameters) == Some(c.depth) <==> States(r.parameters, c.depth)
    {
      DepthSays(r.parameters);
    }
    if c.runs != [] {
      assert c.runs[0] in c.runs;
      assert forall i | 0 <= i < |c.runs| :: c.runs[i] in c.runs;
    }
  }

  // ---- a case, and the corpus -----------------------------------------------

  /** A case is well formed if and only if its fields are as the reader asks, field by field. */
  lemma CaseIs(c: Case, images: set<string>)
    ensures CaseOk(c, images) <==> CaseMeans(c, images)
  {
    hide LinesOk, CaseTop, CaseSalt, CaseRest, RunsLines, RunLines, NameOk, Filed, Printable, PathOk, DefineOk, Refusal,
         DepthsOk, OneDepth, RunOk, RunMeans, Split, LineOk;
    TopMeans(c);
    SaltMeans(c);
    RestMeans(c);
    NumMeans(KRuns, |c.runs|);
    RunsLinesOk(c.runs);
    LinesCons(Num(KRuns, |c.runs|), RunsLines(c.runs));
    LinesJoin(CaseSalt(c), CaseRest(c));
    LinesJoin(CaseTop(c), CaseSalt(c) + CaseRest(c));
    LinesJoin(CaseHead(c), [Num(KRuns, |c.runs|)] + RunsLines(c.runs));
    DepthsAre(c);
    forall i | 0 <= i < |c.runs|
      ensures RunOk(c.runs[i], i, images, c.version) <==> RunMeans(c.runs[i], i, images, c.version)
      ensures RunOk(c.runs[i], i, images, c.version) ==> LinesOk(RunLines(c.runs[i]))
    {
      RunIs(c.runs[i], i, images, c.version);
      RunHasLines(c.runs[i], i, images, c.version);
    }
  }

  lemma RunHasLines(r: Run, i: nat, images: set<string>, version: nat)
    ensures RunOk(r, i, images, version) ==> LinesOk(RunLines(r))
  {
  }

  /** What is read of any text: sources and images by their paths, one image at least; each
      case as its fields must be, no two of one name, and each superseded case one of them. */
  lemma ReadMeans(text: string)
    requires ReadText(text).Accepts?
    ensures var c := ReadText(text).corpus;
            && (forall p :: p in c.sources ==> PathOk(p) && ShaOk(c.sources[p]))
            && (forall p :: p in c.images ==> c.images[p].path == p && ImageMeans(c.images[p]))
            && c.images != map[] && c.cases != []
            && (forall i :: 0 <= i < |c.cases| ==> CaseMeans(c.cases[i], c.images.Keys))
            && (forall i, j :: 0 <= i < j < |c.cases| ==> c.cases[i].name != c.cases[j].name)
            && forall i :: 0 <= i < |c.cases| && c.cases[i].superseded.Some? ==>
                 exists j :: 0 <= j < |c.cases| && c.cases[j].name == c.cases[i].superseded.value
  {
    hide CaseOk, CaseMeans, LinesOk, Writes, PathOk, ShaOk, ImageMeans;
    var rows := RowsOf(text);
    AcceptedSays(rows);
    var d := DocAt(rows).value;
    ImagesKeyed(d.images);
    SourcesRead(d.sources);
    ImagesRead(d.images);
    var c := CorpusOf(d);
    assert d.images[0].path in Paths(d.images);
    forall i | 0 <= i < |c.cases|
      ensures CaseMeans(c.cases[i], c.images.Keys)
    {
      CaseIs(c.cases[i], Paths(d.images));
    }
  }

  lemma {:induction false} ImagesKeyed(ims: seq<Image>)
    ensures ImagesMap(ims).Keys == Paths(ims)
  {
    if ims != [] {
      var n := |ims| - 1;
      ImagesKeyed(ims[..n]);
      assert forall i | 0 <= i < n :: ims[i] == ims[..n][i];
      assert Paths(ims) == Paths(ims[..n]) + {ims[n].path};
    }
  }

  lemma {:induction false} SourcesRead(fs: seq<File>)
    requires LinesOk(SourceLines(fs))
    ensures forall p :: p in SourcesMap(fs) ==> PathOk(p) && ShaOk(SourcesMap(fs)[p])
  {
    hide PathOk, ShaOk, LineOk;
    if fs != [] {
      var n := |fs| - 1;
      SourceLinesAt(fs);
      SourceLinesAt(fs[..n]);
      assert forall i | 0 <= i < n :: SourceLines(fs[..n])[i] == SourceLines(fs)[i];
      SourcesRead(fs[..n]);
      assert LineOk(SourceLines(fs)[n]);
      FileMeans(KSource, Some(fs[n]));
    }
  }

  lemma {:induction false} ImagesRead(ims: seq<Image>)
    requires LinesOk(ImageLines(ims))
    ensures forall p :: p in ImagesMap(ims) ==> ImagesMap(ims)[p].path == p && ImageMeans(ImagesMap(ims)[p])
  {
    hide LineOk, ImageMeans;
    if ims != [] {
      var n := |ims| - 1;
      ImageLinesAt(ims);
      ImageLinesAt(ims[..n]);
      assert forall i | 0 <= i < n :: ImageLines(ims[..n])[i] == ImageLines(ims)[i];
      ImagesRead(ims[..n]);
      assert LineOk(ImageLines(ims)[n]);
      ImageIs(ims[n]);
    }
  }

  // ---- and the lines refused ------------------------------------------------

  /** A case's name used before, or version 2's things in a version-1 case, or runs that do not
      state the one depth: refused at the case's line; and with none of these, not for them. */
  lemma RefusedAtItsLine(rows: seq<Row>, i: nat, images: set<string>, names: set<string>)
    requires i < |rows| && Expect(rows, i, KCase).Got?
    ensures WordOf(Expect(rows, i, KCase).value) in names ==> CaseAt(rows, i, images, names) == Bad(rows[i].n)
    ensures var head := HeadRead(rows, i);
            head.Got? && WordOf(Expect(rows, i, KCase).value) !in names ==>
              if head.value.version == 1 && !OfVersion1(head.value)
              then CaseAt(rows, i, images, names) == Bad(rows[i].n)
              else CaseHeadAt(rows, i, names) == head
    ensures var c := CaseRead(rows, i, images, names);
            c.Got? ==> CaseAt(rows, i, images, names) == if OneDepth(c.value) then c else Bad(rows[i].n)
  {
    hide Expect, ExpectAll, RunsAt, CaseOf, OneDepth, DepthsOk;
    var c := CaseRead(rows, i, images, names);
    if c.Got? { DepthsAre(c.value); }
  }

  /** The case its lines up to the count of runs say, where each of them reads. */
  function HeadRead(rows: seq<Row>, i: nat): Res<Case>
    requires i < |rows| && Expect(rows, i, KCase).Got?
  {
    match ExpectAll(rows, i + 1, TOP)
    case Bad(n) => Bad(n)
    case Got(top, i2) =>
      match ExpectAll(rows, i2, SaltKeys(top[3]))
      case Bad(n) => Bad(n)
      case Got(salt, i3) =>
        match ExpectAll(rows, i3, REST)
        case Bad(n) => Bad(n)
        case Got(rest, i4) => Got(CaseOf(rows[i].n, Expect(rows, i, KCase).value, top, salt, rest), i4)
  }

  /** ... and with its runs. */
  function CaseRead(rows: seq<Row>, i: nat, images: set<string>, names: set<string>): Res<Case>
    requires i < |rows|
  {
    match CaseHeadAt(rows, i, names)
    case Bad(n) => Bad(n)
    case Got(c, i1) =>
      match Expect(rows, i1, KRuns)
      case Bad(n) => Bad(n)
      case Got(l, i2) =>
        match RunsAt(rows, i2, 0, NumOf(l), images, c.version)
        case Bad(n) => Bad(n)
        case Got(rs, e) => Got(c.(runs := rs), e)
  }
}
