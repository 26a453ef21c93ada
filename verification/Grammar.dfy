/** The golden corpus's manifest, one line at a time: what a line may say, how it is
    written, and how it is read. */
module Grammar {
  import opened Wrappers
  import opened Text
  import opened Decimal
  import opened Order

  type Tokens = seq<string>

  // ---- the words ------------------------------------------------------------

  predicate Printable(t: string) {
    t != "" && forall i | 0 <= i < |t| :: '!' <= t[i] <= '~'
  }

  predicate AllPrintable(ts: Tokens) {
    forall i | 0 <= i < |ts| :: Printable(ts[i])
  }

  predicate Lower(c: char) { 'a' <= c <= 'z' }

  predicate NameOk(s: string) {
    1 <= |s| <= 64 && Lower(s[0]) && forall i | 0 <= i < |s| :: Lower(s[i]) || Digit(s[i]) || s[i] == '-'
  }

  predicate ShaOk(s: string) {
    |s| == 64 && forall i | 0 <= i < 64 :: Digit(s[i]) || 'a' <= s[i] <= 'f'
  }

  predicate PathPart(s: string) {
    s != "" && s != ".." && forall i | 0 <= i < |s| ::
      Lower(s[i]) || 'A' <= s[i] <= 'Z' || Digit(s[i]) || s[i] == '.' || s[i] == '_' || s[i] == '-'
  }

  predicate PathOk(s: string) {
    var ps := Split('/', s);
    forall i | 0 <= i < |ps| :: PathPart(ps[i])
  }

  /** A name of the program language. */
  predicate LangOk(s: string) {
    && s != "" && !Digit(s[0])
    && forall i | 0 <= i < |s| :: Lower(s[i]) || 'A' <= s[i] <= 'Z' || Digit(s[i]) || s[i] == '_'
  }

  predicate TargetOk(s: string) {
    1 <= |s| <= 40 && forall i | 0 <= i < |s| :: Lower(s[i]) || Digit(s[i]) || s[i] == ':' || s[i] == '-'
  }

  /** none, a run's all, or a run's segments. */
  predicate DefineOk(s: string) {
    s == "none" ||
    (var ps := Split(':', s);
     && |ps| == 2 && IsDec(ps[0])
     && (ps[1] == "all" || (var ks := Split(',', ps[1]); forall i | 0 <= i < |ks| :: IsDec(ks[i]))))
  }

  /** The ladder of formats. */
  predicate Format(s: string) { s in {"fp32", "fp64", "fp128", "fp256"} }

  /** The audit's refusals by name. */
  predicate Refusal(s: string) {
    s in {"hash-line", "body-hash", "magic", "version", "mode-unknown", "commitment-missing", "commitment-unexpected",
          "unknown-line", "line-missing", "line-order", "line-unexpected", "count", "malformed", "decimal",
          "accuracy-kind", "width", "salt-missing", "salt-unexpected", "salt-length", "salt-commitment",
          "image-digest", "program-digest", "program-image", "program-format", "program-shape", "stream",
          "state-shape", "state-hash", "state-missing", "continuity", "aux-format", "aux-lanes", "aux-image",
          "aux-segments", "aux-h-slots", "aux-bank", "aux-streams", "aux-start", "segment-end", "segment-flags",
          "segment-status", "accuracy-run", "accuracy-scope", "accuracy-slot", "accuracy-finite", "accuracy-value",
          "choice", "marked", "replay-lane-flags", "replay-source", "replay-method", "provenance-order",
          "signature-format", "signature", "signature-key", "signer", "supersedes", "source-digest", "source-refused",
          "source-format", "source-graph", "source-param", "source-shape", "source-image", "source-missing",
          "lane-flags-shape", "lane-flags-hash", "initial-state", "lane-flags-identity", "aux-source",
          "segment-lane-flags", "replay-missing", "replay-unmarked", "replay-raw", "replay-changed", "definition-end",
          "definition-flags", "definition-differs", "definition-unavailable", "compiler-differs", "replay-undecided"}
  }

  /** A decimal in lo..hi. */
  predicate DecIn(s: string, lo: nat, hi: nat) {
    IsDec(s) && lo <= Value(s) <= hi
  }

  // ---- what the lines say ---------------------------------------------------

  datatype File = File(path: string, sha: string)

  datatype How =
    | Library(name: string)
    | Source(source: string, fmt: Option<string>)
    | Compiled(source: string, format: string, steps: nat, target: string, params: seq<(string, string)>)

  datatype Image = Image(path: string, sha: string, how: How)

  datatype RunKind = Main | HalfStep(slots: seq<nat>) | Wider | WiderSource

  datatype Verdict = Accepted | Refused(name: string)

  datatype Key =
    | KCorpus | KSource | KImage | KCase | KWhat | KCertificate | KVersion | KMode | KSalt | KDepth | KBackends
    | KWriters | KAccuracy | KVerdict | KStates | KBlocks | KSignature | KKeyring | KSuperseded | KDefine
    | KRegenerate | KRuns | KRun
    | KRunImage | KBank | KRunSource | KSegments | KSteps | KParameters | KParameter | KBoundary | KBlock | KRaw

  function Keyword(k: Key): string {
    match k
    case KCorpus => "cft-golden-corpus"
    case KSource => "source"
    case KImage => "image"
    case KCase => "case"
    case KWhat => "what"
    case KCertificate => "certificate"
    case KVersion => "version"
    case KMode => "mode"
    case KSalt => "salt"
    case KDepth => "depth"
    case KBackends => "backends"
    case KWriters => "writers"
    case KAccuracy => "accuracy"
    case KVerdict => "verdict"
    case KStates => "states"
    case KBlocks => "blocks"
    case KSignature => "signature"
    case KKeyring => "keyring"
    case KSuperseded => "superseded"
    case KDefine => "define"
    case KRegenerate => "regenerate"
    case KRuns => "runs"
    case KRun => "run"
    case KRunImage => "image"
    case KBank => "bank"
    case KRunSource => "source"
    case KSegments => "segments"
    case KSteps => "steps"
    case KParameters => "parameters"
    case KParameter => "parameter"
    case KBoundary => "boundary"
    case KBlock => "block"
    case KRaw => "raw"
  }

  /** A line, by the form of what follows its keyword. */
  datatype Line =
    | Word(k: Key, w: string)
    | Num(k: Key, n: nat)
    | Named(k: Key, f: File)
    | Maybe(k: Key, o: Option<File>)
    | Numbered(k: Key, i: nat, sha: string)
    | What(words: Tokens)
    | Accuracy(n: nat)
    | Judged(verdict: Verdict)
    | RunLine(i: nat, kind: RunKind)
    | Parameter(name: string, v: nat)
    | Raw(i: nat, sha: string, flags: string)
    | ImageLine(im: Image)

  datatype Form = FWord | FNum | FNamed | FMaybe | FNumbered | FOther

  function FormOf(k: Key): Form {
    match k
    case KCorpus | KCase | KMode | KBackends | KWriters | KStates | KBlocks => FWord
    case KSuperseded | KDefine | KRegenerate | KRunImage => FWord
    case KVersion | KDepth | KRuns | KSegments | KSteps | KParameters => FNum
    case KSource | KCertificate | KSalt => FNamed
    case KSignature | KKeyring | KBank | KRunSource => FMaybe
    case KBoundary | KBlock => FNumbered
    case KImage | KWhat | KAccuracy | KVerdict | KRun | KParameter | KRaw => FOther
  }

  function KeyOf(l: Line): Key {
    match l
    case What(_) => KWhat
    case Accuracy(_) => KAccuracy
    case Judged(_) => KVerdict
    case RunLine(_, _) => KRun
    case Parameter(_, _) => KParameter
    case Raw(_, _, _) => KRaw
    case ImageLine(_) => KImage
    case Word(k, _) => k
    case Num(k, _) => k
    case Named(k, _) => k
    case Maybe(k, _) => k
    case Numbered(k, _, _) => k
  }

  predicate PowerOfTwo(n: nat) {
    n > 0 && (n == 1 || (n % 2 == 0 && PowerOfTwo(n / 2)))
  }

  predicate WordOk(k: Key, w: string) {
    match k
    case KCorpus => w == "2"
    case KCase => NameOk(w)
    case KMode => w == "open" || w == "keyed"
    case KBackends => w == "any" || w == "software"
    case KWriters => w == "both" || w == "golden"
    case KStates | KBlocks => PathOk(w)
    case KSuperseded => w == "none" || NameOk(w)
    case KDefine => DefineOk(w)
    case KRegenerate => w == "no" || w == "yes"
    case _ => true
  }

  predicate NumOk(k: Key, n: nat) {
    match k
    case KVersion => 1 <= n <= 2
    case KDepth => 1 <= n <= 0x8000 && PowerOfTwo(n)
    case KParameters => n <= MAX
    case _ => 1 <= n <= MAX
  }

  predicate FileOk(f: File) { PathOk(f.path) && ShaOk(f.sha) }

  predicate PairsOk(ps: seq<(string, string)>) {
    forall i | 0 <= i < |ps| :: LangOk(ps[i].0) && (i > 0 ==> Less(ps[i - 1].0, ps[i].0))
  }

  predicate HowOk(h: How) {
    match h
    case Library(_) => true
    case Source(source, fmt) => PathOk(source) && (fmt.Some? ==> Format(fmt.value))
    case Compiled(source, format, steps, target, params) =>
      PathOk(source) && Format(format) && 1 <= steps <= MAX && TargetOk(target) && |params| <= MAX && PairsOk(params)
  }

  predicate RunKindOk(k: RunKind) {
    k.HalfStep? ==> 1 <= |k.slots| <= 512 && forall j | 0 <= j < |k.slots| :: k.slots[j] <= 511
  }

  /** A line the grammar has. */
  predicate LineOk(l: Line) {
    AllPrintable(Print(l)) &&
    match l
    case Word(k, w) => FormOf(k) == FWord && WordOk(k, w)
    case Num(k, n) => FormOf(k) == FNum && NumOk(k, n)
    case Named(k, f) => FormOf(k) == FNamed && FileOk(f)
    case Maybe(k, o) => FormOf(k) == FMaybe && (o.Some? ==> FileOk(o.value))
    case Numbered(k, _, sha) => FormOf(k) == FNumbered && ShaOk(sha)
    case What(words) => words != []
    case Accuracy(n) => n <= MAX
    case Judged(v) => v.Refused? ==> Refusal(v.name)
    case RunLine(_, kind) => RunKindOk(kind)
    case Parameter(name, v) => NameOk(name) && v <= MAX
    case Raw(i, sha, flags) => i <= MAX && ShaOk(sha) && ShaOk(flags)
    case ImageLine(im) => PathOk(im.path) && ShaOk(im.sha) && HowOk(im.how)
  }

  // ---- written --------------------------------------------------------------

  function Strs(ns: seq<nat>): (ts: Tokens)
    ensures |ts| == |ns| && forall i | 0 <= i < |ns| :: ts[i] == Str(ns[i])
  {
    if ns == [] then [] else [Str(ns[0])] + Strs(ns[1..])
  }

  function Flat(ps: seq<(string, string)>): (ts: Tokens)
    ensures |ts| == 2 * |ps|
  {
    if ps == [] then [] else [ps[0].0, ps[0].1] + Flat(ps[1..])
  }

  function PrintHow(h: How): Tokens {
    match h
    case Library(name) => ["library", name]
    case Source(source, fmt) => ["source", source] + if fmt.Some? then ["format", fmt.value] else []
    case Compiled(source, format, steps, target, params) =>
      ["compiled", source, "format", format, "steps", Str(steps), "target", target, "params", Str(|params|)]
      + Flat(params)
  }

  function PrintKind(k: RunKind): Tokens {
    match k
    case Main => ["main"]
    case HalfStep(slots) => ["half-step", "h-slots", Str(|slots|)] + Strs(slots)
    case Wider => ["wider"]
    case WiderSource => ["wider-source"]
  }

  function Print(l: Line): (ts: Tokens)
    ensures ts != [] && ts[0] == Keyword(KeyOf(l))
  {
    [Keyword(KeyOf(l))] + Says(l)
  }

  function Says(l: Line): Tokens {
    match l
    case Word(_, w) => [w]
    case Num(_, n) => [Str(n)]
    case Named(_, f) => [f.path, f.sha]
    case Maybe(_, o) => if o.Some? then [o.value.path, o.value.sha] else ["none"]
    case Numbered(_, i, sha) => [Str(i), sha]
    case What(words) => words
    case Accuracy(n) => [Str(n), if n == 0 then "none" else "both"]
    case Judged(v) => if v.Accepted? then ["accepted"] else ["refused", v.name]
    case RunLine(i, kind) => [Str(i)] + PrintKind(kind)
    case Parameter(name, v) => [name, Str(v)]
    case Raw(i, sha, flags) => [Str(i), sha, flags]
    case ImageLine(im) => [im.path, im.sha] + PrintHow(im.how)
  }

  // ---- read -----------------------------------------------------------------

  function Values(ts: Tokens): (ns: seq<nat>)
    ensures |ns| == |ts| && forall i | 0 <= i < |ts| :: ns[i] == Value(ts[i])
  {
    if ts == [] then [] else [Value(ts[0])] + Values(ts[1..])
  }

  function Pairs(ts: Tokens): (ps: seq<(string, string)>)
    ensures |ps| == |ts| / 2
  {
    if |ts| < 2 then [] else [(ts[0], ts[1])] + Pairs(ts[2..])
  }

  /** _image_line, from the fourth token on. */
  function ReadHow(ts: Tokens): Option<How> {
    if |ts| == 2 && ts[0] == "library" then Some(Library(ts[1]))
    else if (|ts| == 2 || |ts| == 4) && ts[0] == "source" then
      if |ts| == 4 && (ts[2] != "format" || !Format(ts[3])) then None
      else if !PathOk(ts[1]) then None
      else Some(Source(ts[1], if |ts| == 4 then Some(ts[3]) else None))
    else if |ts| >= 10 && ts[0] == "compiled" then
      if ts[2] != "format" || ts[4] != "steps" || ts[6] != "target" || ts[8] != "params" || !Format(ts[3])
          || !TargetOk(ts[7]) then None
      else if !DecIn(ts[9], 0, MAX) || |ts| != 10 + 2 * Value(ts[9]) || !PairsOk(Pairs(ts[10..])) then None
      else if !PathOk(ts[1]) || !DecIn(ts[5], 1, MAX) then None
      else Some(Compiled(ts[1], ts[3], Value(ts[5]), ts[7], Pairs(ts[10..])))
    else None
  }

  function ReadKind(ts: Tokens): Option<RunKind> {
    if ts == ["main"] then Some(Main)
    else if ts == ["wider"] then Some(Wider)
    else if ts == ["wider-source"] then Some(WiderSource)
    else if |ts| >= 4 && ts[0] == "half-step" && ts[1] == "h-slots" && DecIn(ts[2], 1, 512) && |ts| == 3 + Value(ts[2])
            && (forall j | 3 <= j < |ts| :: DecIn(ts[j], 0, 511))
    then Some(HalfStep(Values(ts[3..])))
    else None
  }

  function ReadFile(ts: Tokens): Option<File> {
    if |ts| == 2 && PathOk(ts[0]) && ShaOk(ts[1]) then Some(File(ts[0], ts[1])) else None
  }

  /** What a line of this key says, from the tokens after its keyword. */
  function Read(k: Key, ts: Tokens): Option<Line> {
    match FormOf(k)
    case FWord => if |ts| == 1 && WordOk(k, ts[0]) then Some(Word(k, ts[0])) else None
    case FNum => if |ts| == 1 && IsDec(ts[0]) && NumOk(k, Value(ts[0])) then Some(Num(k, Value(ts[0]))) else None
    case FNamed => if ReadFile(ts).Some? then Some(Named(k, ReadFile(ts).value)) else None
    case FMaybe =>
      if ts == ["none"] then Some(Maybe(k, None))
      else if ReadFile(ts).Some? then Some(Maybe(k, ReadFile(ts)))
      else None
    case FNumbered => if |ts| == 2 && IsNat(ts[0]) && ShaOk(ts[1]) then Some(Numbered(k, Value(ts[0]), ts[1])) else None
    case FOther => ReadOther(k, ts)
  }

  function ReadOther(k: Key, ts: Tokens): Option<Line> {
    match k
    case KWhat => if ts != [] then Some(What(ts)) else None
    case KAccuracy =>
      var n := if |ts| == 2 && DecIn(ts[0], 0, MAX) then Some(Value(ts[0])) else None;
      if n.Some? && ts[1] == (if n.value == 0 then "none" else "both") then Some(Accuracy(n.value)) else None
    case KVerdict =>
      if ts == ["accepted"] then Some(Judged(Accepted))
      else if |ts| == 2 && ts[0] == "refused" && Refusal(ts[1]) then Some(Judged(Refused(ts[1])))
      else None
    case KRun =>
      var kind := if ts != [] then ReadKind(ts[1..]) else None;
      if ts != [] && IsNat(ts[0]) && kind.Some? then Some(RunLine(Value(ts[0]), kind.value)) else None
    case KParameter =>
      if |ts| == 2 && NameOk(ts[0]) && DecIn(ts[1], 0, MAX) then Some(Parameter(ts[0], Value(ts[1]))) else None
    case KRaw =>
      if |ts| == 3 && DecIn(ts[0], 0, MAX) && ShaOk(ts[1]) && ShaOk(ts[2]) then Some(Raw(Value(ts[0]), ts[1], ts[2]))
      else None
    case _ =>
      var how := if |ts| >= 2 then ReadHow(ts[2..]) else None;
      if |ts| >= 2 && PathOk(ts[0]) && ShaOk(ts[1]) && how.Some? then Some(ImageLine(Image(ts[0], ts[1], how.value)))
      else None
  }

  // ---- and back -------------------------------------------------------------

  lemma {:induction false} StrsValues(ts: Tokens)
    requires forall j | 0 <= j < |ts| :: IsDec(ts[j])
    ensures Strs(Values(ts)) == ts
  {
    forall j | 0 <= j < |ts|
      ensures Strs(Values(ts))[j] == ts[j]
    {
      ValueStr(ts[j]);
    }
  }

  lemma {:induction false} ValuesStrs(ns: seq<nat>)
    requires forall j | 0 <= j < |ns| :: ns[j] <= MAX
    ensures Values(Strs(ns)) == ns && forall j | 0 <= j < |ns| :: IsDec(Strs(ns)[j])
  {
    forall j | 0 <= j < |ns|
      ensures IsDec(Strs(ns)[j]) && Values(Strs(ns))[j] == ns[j]
    {
      StrIsDec(ns[j]);
    }
  }

  lemma {:induction false} FlatPairs(ts: Tokens)
    requires |ts| % 2 == 0
    ensures Flat(Pairs(ts)) == ts
  {
    if ts != [] {
      FlatPairs(ts[2..]);
      assert ts == [ts[0], ts[1]] + ts[2..];
    }
  }

  lemma {:induction false} PairsFlat(ps: seq<(string, string)>)
    ensures Pairs(Flat(ps)) == ps
  {
    if ps != [] {
      PairsFlat(ps[1..]);
      assert Flat(ps)[2..] == Flat(ps[1..]);
    }
  }

  lemma KindPrints(ts: Tokens)
    requires ReadKind(ts).Some?
    ensures RunKindOk(ReadKind(ts).value) && PrintKind(ReadKind(ts).value) == ts
  {
    hide Str, Value, IsDec, Strs, Values;
    var k := ReadKind(ts).value;
    if k.HalfStep? {
      assert forall j | 0 <= j < |ts[3..]| :: ts[3..][j] == ts[j + 3];
      StrsValues(ts[3..]);
      DecStr(ts[2]);
      assert ts == ts[..3] + ts[3..];
    }
  }

  lemma KindReads(k: RunKind)
    requires RunKindOk(k)
    ensures ReadKind(PrintKind(k)) == Some(k)
  {
    hide Str, Value, IsDec, Strs, Values;
    if k.HalfStep? {
      StrIsDec(|k.slots|);
      ValuesStrs(k.slots);
      var ts := PrintKind(k);
      assert ts[3..] == Strs(k.slots);
      forall j | 3 <= j < |ts|
        ensures DecIn(ts[j], 0, 511)
      {
        assert ts[j] == Strs(k.slots)[j - 3];
        StrIsDec(k.slots[j - 3]);
      }
    }
  }

  lemma HowPrints(ts: Tokens)
    requires ReadHow(ts).Some?
    ensures HowOk(ReadHow(ts).value) && PrintHow(ReadHow(ts).value) == ts
  {
    hide PathOk, TargetOk, PairsOk, IsDec, Format, Flat, Pairs, Str, Value;
    var h := ReadHow(ts).value;
    if h.Compiled? {
      FlatPairs(ts[10..]);
      DecStr(ts[5]);
      DecStr(ts[9]);
      assert ts == ts[..10] + ts[10..];
    }
  }

  lemma DecStr(s: string)
    requires IsDec(s)
    ensures Str(Value(s)) == s
  {
    ValueStr(s);
  }

  lemma HowReads(h: How)
    requires HowOk(h)
    ensures ReadHow(PrintHow(h)) == Some(h)
  {
    hide PathOk, TargetOk, PairsOk, IsDec, Str, Value;
    if h.Compiled? {
      StrIsDec(h.steps);
      StrIsDec(|h.params|);
      PairsFlat(h.params);
      assert PrintHow(h)[10..] == Flat(h.params);
    }
  }

  lemma ImagePrints(ts: Tokens)
    requires AllPrintable([Keyword(KImage)] + ts) && ReadOther(KImage, ts).Some?
    ensures var l := ReadOther(KImage, ts).value; KeyOf(l) == KImage && Says(l) == ts && LineOk(l)
  {
    hide PathOk, ShaOk, ReadHow, HowOk, PrintHow, Keyword, Printable;
    HowPrints(ts[2..]);
    assert ts == ts[..2] + ts[2..];
  }

  lemma RunPrints(ts: Tokens)
    requires AllPrintable([Keyword(KRun)] + ts) && ReadOther(KRun, ts).Some?
    ensures var l := ReadOther(KRun, ts).value; KeyOf(l) == KRun && Says(l) == ts && LineOk(l)
  {
    hide IsNat, Str, Value, ReadKind, RunKindOk, PrintKind, Keyword, Printable;
    ValueStr(ts[0]);
    KindPrints(ts[1..]);
    assert ts == [ts[0]] + ts[1..];
  }

  /** The forms of their own. */
  lemma OtherPrints(k: Key, ts: Tokens)
    requires FormOf(k) == FOther && AllPrintable([Keyword(k)] + ts) && ReadOther(k, ts).Some?
    ensures var l := ReadOther(k, ts).value; KeyOf(l) == k && Says(l) == ts && LineOk(l)
  {
    hide ShaOk, NameOk, IsDec, Str, Value, ReadKind, ReadHow, HowOk, RunKindOk, PrintHow, PrintKind, Refusal, Keyword,
         Printable, PathOk, IsNat;
    if k == KImage {
      ImagePrints(ts);
    } else if k == KRun {
      RunPrints(ts);
    } else {
      if ts != [] && (k == KAccuracy || k == KRaw) && IsDec(ts[0]) { DecStr(ts[0]); }
      if |ts| == 2 && k == KParameter && IsDec(ts[1]) { DecStr(ts[1]); }
    }
  }

  /** A line read is a line of the grammar, and printing it writes the tokens read. */
  lemma ReadPrints(k: Key, ts: Tokens)
    requires AllPrintable([Keyword(k)] + ts) && Read(k, ts).Some?
    ensures KeyOf(Read(k, ts).value) == k && Says(Read(k, ts).value) == ts && LineOk(Read(k, ts).value)
  {
    hide PathOk, ShaOk, NameOk, DefineOk, IsDec, IsNat, Str, Value, ReadOther, HowOk, RunKindOk, PrintHow, PrintKind,
         Refusal, Keyword, Printable, PowerOfTwo, WordOk, NumOk;
    if FormOf(k) == FOther { OtherPrints(k, ts); }
    if ts != [] && FormOf(k) == FNum && IsDec(ts[0]) { DecStr(ts[0]); }
    if ts != [] && FormOf(k) == FNumbered && IsNat(ts[0]) { ValueStr(ts[0]); }
  }

  /** A line of the grammar, written, reads as itself. */
  lemma PrintReads(l: Line)
    requires LineOk(l)
    ensures Read(KeyOf(l), Says(l)) == Some(l)
  {
    hide PathOk, ShaOk, NameOk, DefineOk, IsDec, IsNat, Str, Value, ReadKind, ReadHow, PrintHow, PrintKind, Refusal,
         Keyword, Printable, PowerOfTwo;
    match l
    case Num(k, n) => assert n <= MAX; StrIsDec(n);
    case Numbered(k, i, sha) => StrValue(i);
    case Accuracy(n) => StrIsDec(n);
    case Parameter(_, v) => StrIsDec(v);
    case Raw(i, _, _) => StrIsDec(i);
    case RunLine(i, kind) =>
      StrValue(i);
      KindReads(kind);
      assert Says(l)[1..] == PrintKind(kind);
    case ImageLine(im) =>
      HowReads(im.how);
      assert Says(l)[2..] == PrintHow(im.how);
    case Word(_, _) =>
    case Named(_, _) =>
    case Maybe(_, _) =>
    case What(_) =>
    case Judged(_) =>
  }
}
