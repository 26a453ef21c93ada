/** certificates/corpus.py's keep rule: what `make` does with a committed certificate when
    a build makes it again.  SHA-256 is left abstract: any function whose values hold no
    newline, and every value in ASCII. */
module KeepRule {
  import opened Wrappers
  import opened Text

  type Sha = string -> string

  ghost predicate OneLine(sha: Sha) {
    forall b :: '\n' !in sha(b) && Ascii(sha(b))
  }

  // ---- the certificate's bytes ----------------------------------------------

  /** cert.rehash: a body with its hash line. */
  function Rehash(sha: Sha, body: string): string {
    body + "hash " + sha(body) + "\n"
  }

  /** One past the last newline of s, or 0. */
  function LineStart(s: string): (n: nat)
    ensures n <= |s|
    ensures n > 0 ==> s[n - 1] == '\n'
    ensures '\n' !in s[n..]
  {
    if s == [] then 0
    else if s[|s| - 1] == '\n' then |s|
    else
      var n := LineStart(s[..|s| - 1]);
      assert s[n..] == s[..|s| - 1][n..] + [s[|s| - 1]];
      n
  }

  /** cert.body_of: everything before the last line. */
  function BodyOf(data: string): (b: string)
    ensures b == [] || b[|b| - 1] == '\n'
    ensures |b| <= |data| && b == data[..|b|]
  {
    if data == [] then [] else data[..LineStart(data[..|data| - 1])]
  }

  lemma {:induction false} LineStartConcat(a: string, t: string)
    requires (a == [] || a[|a| - 1] == '\n') && '\n' !in t
    ensures LineStart(a + t) == |a|
  {
    if t == [] {
      assert a + t == a;
    } else {
      var k := |t| - 1;
      assert (a + t)[|a + t| - 1] == t[k] && (a + t)[..|a + t| - 1] == a + t[..k];
      LineStartConcat(a, t[..k]);
    }
  }

  /** The inverse law. */
  lemma BodyOfRehash(sha: Sha, body: string)
    requires OneLine(sha) && (body == [] || body[|body| - 1] == '\n')
    ensures BodyOf(Rehash(sha, body)) == body
  {
    var t := "hash " + sha(body);
    assert Rehash(sha, body) == body + t + "\n";
    assert (body + t + "\n")[..|body + t|] == body + t;
    assert '\n' !in "hash ";
    LineStartConcat(body, t);
    assert (body + t + "\n")[..|body|] == body;
  }

  // ---- normalized -----------------------------------------------------------

  const KEY := "build-id "

  function Named(line: string, bid: string): string {
    if StartsWith(line, KEY) then KEY + bid else line
  }

  function NamedAll(lines: seq<string>, bid: string): (r: seq<string>)
    ensures |r| == |lines|
    ensures forall i :: 0 <= i < |lines| ==> r[i] == Named(lines[i], bid)
  {
    seq(|lines|, i requires 0 <= i < |lines| => Named(lines[i], bid))
  }

  /** The body's lines, the empty text after its last newline left out. */
  function BodyLines(data: string): seq<string> {
    var ls := Split('\n', BodyOf(data));
    ls[..|ls| - 1]
  }

  /** normalized: the certificate as the tool named bid must write it. */
  function Normalized(sha: Sha, data: string, bid: string): string {
    Rehash(sha, Join('\n', NamedAll(BodyLines(data), bid)) + "\n")
  }

  predicate Plain(bid: string) {
    '\n' !in bid && Ascii(bid)
  }

  lemma {:induction false} JoinNewline(ls: seq<string>)
    requires ls != []
    ensures Join('\n', ls) + "\n" == Join('\n', ls + [""])
  {
    if |ls| == 1 {
      assert (ls + [""])[1..] == [""];
      assert Join('\n', ls + [""]) == ls[0] + ['\n'] + "";
    } else {
      JoinNewline(ls[1..]);
      assert (ls + [""])[1..] == ls[1..] + [""];
      assert Join('\n', ls) + "\n" == ls[0] + ['\n'] + (Join('\n', ls[1..]) + "\n");
    }
  }

  /** A text of lines, each ended, splits into them. */
  lemma LinesOfJoin(ls: seq<string>)
    requires Free('\n', ls)
    ensures var ps := Split('\n', Join('\n', ls) + "\n");
            ps[..|ps| - 1] == if ls == [] then [""] else ls
  {
    if ls == [] {
      assert Split('\n', "\n") == [""] + Split('\n', "");
      assert "\n"[1..] == "";
    } else {
      JoinNewline(ls);
      SplitJoin('\n', ls + [""]);
    }
  }

  lemma LineFree(data: string)
    ensures Free('\n', BodyLines(data))
  {
    SplitFree('\n', BodyOf(data));
  }

  lemma NamedFree(ls: seq<string>, bid: string)
    requires Free('\n', ls) && Plain(bid)
    ensures Free('\n', NamedAll(ls, bid))
  {
    assert '\n' !in KEY;
  }

  lemma NamedTwice(ls: seq<string>, x: string, y: string)
    ensures NamedAll(NamedAll(ls, x), y) == NamedAll(ls, y)
  {
    forall i | 0 <= i < |ls|
      ensures Named(Named(ls[i], x), y) == Named(ls[i], y)
    {
      if StartsWith(ls[i], KEY) { assert (KEY + x)[..|KEY|] == KEY; }
    }
  }

  /** What a normalized certificate's lines are. */
  lemma NormalizedLines(sha: Sha, data: string, x: string)
    requires OneLine(sha) && Plain(x)
    ensures BodyLines(Normalized(sha, data, x))
         == if BodyLines(data) == [] then [""] else NamedAll(BodyLines(data), x)
  {
    var ls := NamedAll(BodyLines(data), x);
    LineFree(data);
    NamedFree(BodyLines(data), x);
    var body := Join('\n', ls) + "\n";
    assert body[|body| - 1] == '\n';
    BodyOfRehash(sha, body);
    LinesOfJoin(ls);
  }

  /** Line by line: a build-id line names the build asked for, every other stays. */
  lemma NormalizedSays(sha: Sha, data: string, x: string, i: nat)
    requires OneLine(sha) && Plain(x) && i < |BodyLines(data)|
    ensures var was, now := BodyLines(data), BodyLines(Normalized(sha, data, x));
            |now| == |was| && now[i] == if |was[i]| >= 9 && was[i][..9] == "build-id " then "build-id " + x else was[i]
  {
    hide Normalized, BodyLines;
    NormalizedLines(sha, data, x);
    assert |KEY| == 9;
  }

  /** Only the last name counts: normalizing twice is normalizing once, by the second. */
  lemma NormalizedTwice(sha: Sha, data: string, x: string, y: string)
    requires OneLine(sha) && Plain(x)
    ensures Normalized(sha, Normalized(sha, data, x), y) == Normalized(sha, data, y)
  {
    NormalizedLines(sha, data, x);
    var ls := BodyLines(data);
    if ls == [] {
      var one := NamedAll([""], y);
      assert one == [""];
      assert NamedAll(ls, y) == [];
      assert Join('\n', one) == "" && Join('\n', NamedAll(ls, y)) == "";
    } else {
      NamedTwice(ls, x, y);
    }
  }

  // ---- the build-id ---------------------------------------------------------

  /** build_id_of: the first build-id line's value. */
  function BuildIdOf(data: string): Option<string> {
    if !Ascii(BodyOf(data)) then None else FirstBuildId(Split('\n', BodyOf(data)))
  }

  function FirstBuildId(ls: seq<string>): Option<string> {
    if ls == [] then None
    else if StartsWith(ls[0], KEY) then Some(ls[0][|KEY|..])
    else FirstBuildId(ls[1..])
  }

  /** A text's build-id is what its first build-id line says; it has none where there is no
      such line. */
  lemma {:induction false} FirstSays(ls: seq<string>)
    ensures FirstBuildId(ls).None? <==> forall i :: 0 <= i < |ls| ==> !StartsWith(ls[i], "build-id ")
    ensures forall i :: 0 <= i < |ls| && StartsWith(ls[i], "build-id ")
                        && (forall j :: 0 <= j < i ==> !StartsWith(ls[j], "build-id ")) ==>
              FirstBuildId(ls) == Some(ls[i][9..])
  {
    hide StartsWith;
    assert |KEY| == 9;
    if ls != [] && !StartsWith(ls[0], KEY) {
      var rest := ls[1..];
      FirstSays(rest);
      assert forall i | 0 <= i < |rest| :: rest[i] == ls[i + 1];
      assert forall i | 1 <= i < |ls| :: ls[i] == rest[i - 1];
    }
  }

  predicate Hex(s: string) {
    forall i | 0 <= i < |s| :: '0' <= s[i] <= '9' || 'a' <= s[i] <= 'f'
  }

  /** CLEAN_BUILD.fullmatch: commit=<40 or 64 hex> tracked=clean untracked=none. */
  predicate CleanAs(v: string, commit: string) {
    Hex(commit) && (|commit| == 40 || |commit| == 64) && v == "commit=" + commit + " tracked=clean untracked=none"
  }

  function CommitOf(v: string): (c: Option<string>)
    ensures c.Some? ==> CleanAs(v, c.value)
    ensures forall commit :: CleanAs(v, commit) ==> c == Some(commit)
  {
    var a, z := |"commit="|, |" tracked=clean untracked=none"|;
    var c := if |v| >= a + z then Some(v[a..|v| - z]) else None;
    assert forall commit :: CleanAs(v, commit) ==> v[a..|v| - z] == commit;
    if c.Some? && CleanAs(v, c.value) then c else None
  }

  datatype Problem = NotClean | UnknownCommit(commit: string)

  /** build_id_problems.  `known` answers for the history: only a plain no is a problem. */
  function Problems(v: Option<string>, known: Option<string -> Option<bool>>, toolWritten: bool): (ps: seq<Problem>)
    ensures |ps| <= 1
  {
    if v == Some("unknown") && !toolWritten then []
    else
      match CommitOf(if v.Some? then v.value else "")
      case None => [NotClean]
      case Some(commit) =>
        if known.Some? && known.value(commit) == Some(false) then [UnknownCommit(commit)] else []
  }

  /** A clean build of a commit the history does not deny. */
  ghost predicate Good(v: Option<string>, known: Option<string -> Option<bool>>, toolWritten: bool) {
    || (v == Some("unknown") && !toolWritten)
    || exists commit :: v.Some? && CleanAs(v.value, commit) && !(known.Some? && known.value(commit) == Some(false))
  }

  lemma ProblemsIffBad(v: Option<string>, known: Option<string -> Option<bool>>, toolWritten: bool)
    ensures Problems(v, known, toolWritten) == [] <==> Good(v, known, toolWritten)
  {
    if v.Some? {
      var c := CommitOf(v.value);
      if c.Some? { assert CleanAs(v.value, c.value); }
    } else {
      assert forall commit :: !CleanAs("", commit);
    }
  }

  // ---- the decision ---------------------------------------------------------

  /** A certificate and its runs' boundary digests. */
  datatype Case<B(==)> = Case(cert: string, boundaries: B)

  /** What keep_decision answers; Raised where normalized meets bytes that are not ASCII. */
  datatype Decision = Raised | Decided(keep: bool, why: Option<Problem>)

  /** keep_decision: is the committed certificate kept, and if its build-id is why not. */
  function KeepDecision<B(==)>(sha: Sha, held: Option<Case<B>>, made: Case<B>, bid: string,
                               known: Option<string -> Option<bool>>, toolWritten: bool): Decision
  {
    if held.None? || held.value.boundaries != made.boundaries then Decided(false, None)
    else if held.value.cert != made.cert && !Ascii(BodyOf(held.value.cert)) then Raised
    else if !(held.value.cert == made.cert || Normalized(sha, held.value.cert, bid) == made.cert) then
      Decided(false, None)
    else
      var ps := Problems(BuildIdOf(held.value.cert), known, toolWritten);
      if ps != [] then Decided(false, Some(ps[0])) else Decided(true, None)
  }

  /** When a certificate is kept: the boundaries are the committed ones, the content is the
      same but for build-id and hash line, and the committed build-id is good. */
  lemma KeptIff<B>(sha: Sha, held: Case<B>, made: Case<B>, bid: string, base: string,
                       known: Option<string -> Option<bool>>, toolWritten: bool)
    requires OneLine(sha) && Plain(bid) && Ascii(BodyOf(held.cert)) && made.cert == Normalized(sha, base, bid)
    ensures var d := KeepDecision(sha, Some(held), made, bid, known, toolWritten);
            d == Decided(true, None) <==>
              held.boundaries == made.boundaries && SameContent(sha, held.cert, base)
              && Good(BuildIdOf(held.cert), known, toolWritten)
  {
    hide Normalized, Good, Problems, BuildIdOf, Plain, Ascii;
    ProblemsIffBad(BuildIdOf(held.cert), known, toolWritten);
    NormalizedTwice(sha, base, bid, bid);
    if Normalized(sha, held.cert, bid) == made.cert { SameContentByOne(sha, held.cert, base, bid); }
    if held.cert == made.cert { assert Normalized(sha, held.cert, bid) == Normalized(sha, base, bid); }
  }

  /** Why not, in full: with boundaries and content the committed ones the decision is the
      build-id's, and the reason is its fault - the commit it names cleanly and the history
      lacks, or that it names none cleanly; without them there is no reason to give. */
  lemma WhyNotKept<B>(sha: Sha, held: Case<B>, made: Case<B>, bid: string, base: string,
                      known: Option<string -> Option<bool>>, toolWritten: bool)
    requires OneLine(sha) && Plain(bid) && Ascii(BodyOf(held.cert)) && made.cert == Normalized(sha, base, bid)
    ensures var d, v := KeepDecision(sha, Some(held), made, bid, known, toolWritten), BuildIdOf(held.cert);
            var same := held.boundaries == made.boundaries && SameContent(sha, held.cert, base);
            && d.Decided? && (d.keep ==> d.why == None) && (!d.keep ==> (d.why.Some? <==> same))
            && (!same ==> !d.keep) && (same ==> (d.why.Some? <==> !Good(v, known, toolWritten)))
            && (forall commit :: d.why == Some(UnknownCommit(commit)) ==>
                  v.Some? && CleanAs(v.value, commit) && known.Some? && known.value(commit) == Some(false))
            && (d.why == Some(NotClean) ==> v.None? || forall commit :: !CleanAs(v.value, commit))
  {
    hide Normalized, Good, BuildIdOf, Plain, Ascii, CleanAs;
    KeptIff(sha, held, made, bid, base, known, toolWritten);
    var v := BuildIdOf(held.cert);
    ProblemsIffBad(v, known, toolWritten);
    ProblemIs(v, known, toolWritten);
    NormalizedTwice(sha, base, bid, bid);
    if Normalized(sha, held.cert, bid) == made.cert { SameContentByOne(sha, held.cert, base, bid); }
    if held.cert == made.cert { assert Normalized(sha, held.cert, bid) == Normalized(sha, base, bid); }
  }

  lemma ProblemIs(v: Option<string>, known: Option<string -> Option<bool>>, toolWritten: bool)
    ensures forall commit :: UnknownCommit(commit) in Problems(v, known, toolWritten) ==>
              v.Some? && CleanAs(v.value, commit) && known.Some? && known.value(commit) == Some(false)
    ensures NotClean in Problems(v, known, toolWritten) ==> v.None? || forall commit :: !CleanAs(v.value, commit)
  {
    if v.None? { assert forall commit :: !CleanAs("", commit); }
  }

  /** What is committed after a remake. */
  function Remake<B(==)>(sha: Sha, held: Case<B>, made: Case<B>, bid: string,
                         known: Option<string -> Option<bool>>, toolWritten: bool): Case<B>
  {
    match KeepDecision(sha, Some(held), made, bid, known, toolWritten)
    case Raised => held
    case Decided(keep, _) => if keep then held else made
  }

  /** The builds that remake the case one after another: each writes the content of `base`
      under its own name, with the boundaries it always had. */
  function Remakes<B(==)>(sha: Sha, held: Case<B>, base: string, bids: seq<string>,
                          known: Option<string -> Option<bool>>, toolWritten: bool): Case<B>
    decreases |bids|
  {
    if bids == [] then held
    else
      var bid := bids[0];
      var now := Remake(sha, held, Case(Normalized(sha, base, bid), held.boundaries), bid, known, toolWritten);
      Remakes(sha, now, base, bids[1..], known, toolWritten)
  }

  /** The committed certificate says what `base` says, build-id and hash line apart. */
  ghost predicate SameContent(sha: Sha, cert: string, base: string) {
    forall y :: Plain(y) ==> Normalized(sha, cert, y) == Normalized(sha, base, y)
  }

  /** Content is what normalizing does not touch: one name is enough to compare it. */
  lemma SameContentByOne(sha: Sha, cert: string, base: string, x: string)
    requires OneLine(sha) && Plain(x) && Normalized(sha, cert, x) == Normalized(sha, base, x)
    ensures SameContent(sha, cert, base)
  {
    forall y | Plain(y)
      ensures Normalized(sha, cert, y) == Normalized(sha, base, y)
    {
      NormalizedTwice(sha, cert, x, y);
      NormalizedTwice(sha, base, x, y);
    }
  }

  /** The fixpoint: a committed certificate of the same content whose build-id is good
      keeps its bytes for ever, whatever builds remake it. */
  lemma {:induction false} GoodStays<B>(sha: Sha, held: Case<B>, base: string, bids: seq<string>,
                                            known: Option<string -> Option<bool>>, toolWritten: bool)
    requires OneLine(sha) && SameContent(sha, held.cert, base) && Ascii(BodyOf(held.cert))
    requires forall i :: 0 <= i < |bids| ==> Plain(bids[i])
    requires Good(BuildIdOf(held.cert), known, toolWritten)
    ensures Remakes(sha, held, base, bids, known, toolWritten) == held
    decreases |bids|
  {
    hide Normalized, SameContent, Good, KeepDecision;
    if bids != [] {
      var made := Case(Normalized(sha, base, bids[0]), held.boundaries);
      KeptIff(sha, held, made, bids[0], base, known, toolWritten);
      GoodStays(sha, held, base, bids[1..], known, toolWritten);
    }
  }

  /** A bad one goes at the next remake, whatever it says and whatever build remakes it. */
  lemma BadGoes<B>(sha: Sha, held: Case<B>, base: string, bid: string,
                   known: Option<string -> Option<bool>>, toolWritten: bool)
    requires OneLine(sha) && Plain(bid) && Ascii(BodyOf(held.cert))
    requires !Good(BuildIdOf(held.cert), known, toolWritten)
    ensures var made := Case(Normalized(sha, base, bid), held.boundaries);
            Remake(sha, held, made, bid, known, toolWritten) == made
  {
    hide Normalized, Good, Problems, BuildIdOf;
    ProblemsIffBad(BuildIdOf(held.cert), known, toolWritten);
  }

  /** Over any builds the first good one is what stays: bad certificates replace one another
      until then, and from then on nothing does. */
  lemma {:induction false} FirstGoodStays<B>(sha: Sha, held: Case<B>, base: string, bids: seq<string>, g: nat,
                                             known: Option<string -> Option<bool>>, toolWritten: bool)
    requires OneLine(sha) && Ascii(BodyOf(held.cert)) && Ascii(BodyOf(base)) && FirstBuildId(BodyLines(base)).Some?
    requires forall i :: 0 <= i < |bids| ==> Plain(bids[i])
    requires !Good(BuildIdOf(held.cert), known, toolWritten)
    requires g < |bids| && Good(Some(bids[g]), known, toolWritten)
    requires forall i :: 0 <= i < g ==> !Good(Some(bids[i]), known, toolWritten)
    ensures Remakes(sha, held, base, bids, known, toolWritten) == Case(Normalized(sha, base, bids[g]), held.boundaries)
    decreases |bids|
  {
    hide Normalized, SameContent, Good, Problems, FirstBuildId, BuildIdOf, KeepDecision;
    var made := Case(Normalized(sha, base, bids[0]), held.boundaries);
    BadGoes(sha, held, base, bids[0], known, toolWritten);
    NamesItself(sha, base, bids[0]);
    if g == 0 {
      SameContentOfNormalized(sha, base, bids[0]);
      GoodStays(sha, made, base, bids[1..], known, toolWritten);
    } else {
      FirstGoodStays(sha, made, base, bids[1..], g - 1, known, toolWritten);
    }
  }

  /** And while none is good, the last one's is what is held. */
  lemma {:induction false} LastBadIsHeld<B>(sha: Sha, held: Case<B>, base: string, bids: seq<string>,
                                            known: Option<string -> Option<bool>>, toolWritten: bool)
    requires OneLine(sha) && Ascii(BodyOf(held.cert)) && Ascii(BodyOf(base)) && FirstBuildId(BodyLines(base)).Some?
    requires bids != [] && forall i :: 0 <= i < |bids| ==> Plain(bids[i]) && !Good(Some(bids[i]), known, toolWritten)
    requires !Good(BuildIdOf(held.cert), known, toolWritten)
    ensures Remakes(sha, held, base, bids, known, toolWritten)
         == Case(Normalized(sha, base, bids[|bids| - 1]), held.boundaries)
    decreases |bids|
  {
    hide Normalized, Good, Problems, FirstBuildId, BuildIdOf, KeepDecision;
    var made := Case(Normalized(sha, base, bids[0]), held.boundaries);
    BadGoes(sha, held, base, bids[0], known, toolWritten);
    NamesItself(sha, base, bids[0]);
    if |bids| > 1 { LastBadIsHeld(sha, made, base, bids[1..], known, toolWritten); }
  }

  lemma SameContentOfNormalized(sha: Sha, base: string, x: string)
    requires OneLine(sha) && Plain(x)
    ensures SameContent(sha, Normalized(sha, base, x), base)
  {
    forall y | Plain(y)
      ensures Normalized(sha, Normalized(sha, base, x), y) == Normalized(sha, base, y)
    {
      NormalizedTwice(sha, base, x, y);
    }
  }

  // ---- a tool's certificate names its build ---------------------------------

  lemma {:induction false} FirstNamed(ls: seq<string>, x: string)
    requires FirstBuildId(ls).Some?
    ensures FirstBuildId(NamedAll(ls, x)) == Some(x)
  {
    if StartsWith(ls[0], KEY) {
      assert (KEY + x)[..|KEY|] == KEY && (KEY + x)[|KEY|..] == x;
    } else {
      FirstNamed(ls[1..], x);
      assert NamedAll(ls, x)[1..] == NamedAll(ls[1..], x);
    }
  }

  lemma {:induction false} FirstOfMore(ls: seq<string>, more: seq<string>)
    requires FirstBuildId(ls).Some?
    ensures FirstBuildId(ls + more) == FirstBuildId(ls)
  {
    if !StartsWith(ls[0], KEY) {
      assert (ls + more)[1..] == ls[1..] + more;
      FirstOfMore(ls[1..], more);
    }
  }

  lemma {:induction false} JoinAscii(ls: seq<string>)
    requires forall i :: 0 <= i < |ls| ==> Ascii(ls[i])
    ensures Ascii(Join('\n', ls))
  {
    if |ls| > 1 { JoinAscii(ls[1..]); }
  }

  lemma {:induction false} SplitAscii(s: string)
    requires Ascii(s)
    ensures forall i :: 0 <= i < |Split('\n', s)| ==> Ascii(Split('\n', s)[i])
  {
    if s != [] { SplitAscii(s[1..]); }
  }

  lemma NamesItself(sha: Sha, base: string, x: string)
    requires OneLine(sha) && Plain(x) && Ascii(BodyOf(base)) && FirstBuildId(BodyLines(base)).Some?
    ensures BuildIdOf(Normalized(sha, base, x)) == Some(x) && Ascii(BodyOf(Normalized(sha, base, x)))
  {
    hide StartsWith, Split, LineStart, NamedAll;
    var ls := BodyLines(base);
    var named := NamedAll(ls, x);
    LineFree(base);
    NamedFree(ls, x);
    var body := Join('\n', named) + "\n";
    assert body[|body| - 1] == '\n';
    BodyOfRehash(sha, body);
    SplitAscii(BodyOf(base));
    assert Ascii(KEY);
    JoinAscii(named);
    FirstNamed(ls, x);
    JoinNewline(named);
    SplitJoin('\n', named + [""]);
    FirstOfMore(named, [""]);
  }
}
