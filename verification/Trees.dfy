/** Coverage by tree: hw/card_stress_lib.py's tree_key, resolve_tree, run_classes and
    count_slices, the records they read, and which finished slices a resume counts. */
module Trees {
  import opened Wrappers

  datatype Reach = Tile | Host

  /** A run_start's tree; an absent, empty or non-text entry is None. */
  datatype Tree = Tree(commit: Option<string>, rtl: Option<string>, rtlDirty: bool,
                       hostSrc: Option<string>, hostDirty: bool, cc: Option<string>, dirty: Option<bool>)

  const NOTREE := Tree(None, None, false, None, false, None, None)

  /** Why part of a class is not known. */
  datatype Reason = NoTree | NoCompiler | ReachUnknown | Contradicted | NotClean | OwnClassUnknown

  /** A class's key, and why it is not known where it is not. */
  datatype Class = Class(key: string, unknown: Option<Reason>)

  function Text(v: Option<string>): (r: Option<string>)
    ensures r.Some? ==> r == v && r.value != ""
  {
    if v.Some? && v.value != "" then v else None
  }

  function Or(v: Option<string>, d: string): string {
    if Text(v).Some? then v.value else d
  }

  /** tree_key. */
  function TreeKey(reach: Reach, t: Tree): Class {
    match reach
    case Tile =>
      if Text(t.rtl).None? then Class("unrecorded:" + Or(t.commit, "?"), Some(NoTree))
      else Class(t.rtl.value + if t.rtlDirty then "+modified" else "", None)
    case Host =>
      if Text(t.hostSrc).None? then Class("unrecorded:" + Or(t.commit, "?"), Some(NoTree))
      else Class(t.hostSrc.value + (if t.hostDirty then "+modified" else "") + "|" + Or(t.cc, "compiler not recorded"),
                 if Text(t.cc).Some? then None else Some(NoCompiler))
  }

  predicate GitHash(s: string) {
    |s| == 40 && forall i | 0 <= i < 40 :: '0' <= s[i] <= '9' || 'a' <= s[i] <= 'f'
  }

  /** `git rev-parse COMMIT:REL`, REL being rtl for Tile and host for Host. */
  type Rev = (string, Reach) -> Option<string>

  function Asked(t: Tree, rev: Option<Rev>, reach: Reach): Option<string> {
    if rev.Some? && t.commit.Some? && GitHash(t.commit.value) then rev.value(t.commit.value, reach) else None
  }

  /** What resolve_tree makes of one directory: the hash to use, its dirt, and why it is
      not known where it is not. */
  datatype Part = Part(hash: Option<string>, dirty: bool, why: Option<Reason>)

  function ResolvePart(t: Tree, rev: Option<Rev>, reach: Reach): Part {
    var have := Text(if reach == Tile then t.rtl else t.hostSrc);
    var dirt := if reach == Tile then t.rtlDirty else t.hostDirty;
    var got := Asked(t, rev, reach);
    if have.Some? then
      if got.Some? && got != have then Part(None, dirt, Some(Contradicted)) else Part(have, dirt, None)
    else if got.None? then Part(have, dirt, Some(NoTree))
    else if t.dirty != Some(false) then Part(have, dirt, Some(NotClean))
    else Part(got, false, None)
  }

  function ResolveTree(t: Tree, rev: Option<Rev>): Tree {
    var a, b := ResolvePart(t, rev, Tile), ResolvePart(t, rev, Host);
    t.(rtl := a.hash, rtlDirty := a.dirty, hostSrc := b.hash, hostDirty := b.dirty)
  }

  /** run_classes, one reach at a time. */
  function ClassOf(t: Option<Tree>, rev: Option<Rev>, reach: Reach): Class {
    var tr := if t.Some? then t.value else NOTREE;
    var k := TreeKey(reach, ResolveTree(tr, rev));
    var why := ResolvePart(tr, rev, reach).why;
    Class(k.key, if why.Some? then why else k.unknown)
  }

  predicate Known(c: Class) { c.unknown.None? }

  /** What git says of a recorded tree can only take its class away, never change it. */
  lemma GitOnlyRefuses(t: Option<Tree>, rev: Rev, reach: Reach)
    ensures var own, seen := ClassOf(t, None, reach), ClassOf(t, Some(rev), reach);
            Known(own) ==> seen == own || seen.unknown == Some(Contradicted)
  {
  }

  /** A class that is known names its directory's hash: the one recorded, or - from a clean
      checkout alone - git's for the run's commit. */
  lemma KnownNamesTheHash(t: Tree, rev: Option<Rev>, reach: Reach)
    ensures var have := Text(if reach == Tile then t.rtl else t.hostSrc);
            var got := Asked(t, rev, reach);
            Known(ClassOf(Some(t), rev, reach)) ==>
              && (have.Some? || got.Some?) && (have.Some? && got.Some? ==> have == got)
              && (have.None? ==> t.dirty == Some(false))
              && var hash := if have.Some? then have.value else got.value;
                 hash <= ClassOf(Some(t), rev, reach).key
  {
  }

  /** The hash a tree's class goes by at a reach: its own, or git's for its commit. */
  function HashAt(t: Tree, rev: Option<Rev>, reach: Reach): Option<string> {
    var have := Text(if reach == Tile then t.rtl else t.hostSrc);
    if have.Some? then have else Text(Asked(t, rev, reach))
  }

  /** Whether that hash was recorded of a modified directory; git's stands for a clean one. */
  function DirtAt(t: Tree, reach: Reach): bool {
    match reach
    case Tile => Text(t.rtl).Some? && t.rtlDirty
    case Host => Text(t.hostSrc).Some? && t.hostDirty
  }

  /** When a class is known: a hash recorded that git does not contradict, or git's for a
      clean checkout; and at the host a compiler. */
  lemma KnownIff(t: Tree, rev: Option<Rev>, reach: Reach)
    ensures var have := Text(if reach == Tile then t.rtl else t.hostSrc);
            var asked := rev.Some? && t.commit.Some? && |t.commit.value| == 40
                         && forall i :: 0 <= i < 40 ==>
                              '0' <= t.commit.value[i] <= '9' || 'a' <= t.commit.value[i] <= 'f';
            var got := if asked then rev.value(t.commit.value, reach) else None;
            var found := if have.Some? then got.None? || got == have else Text(got).Some? && t.dirty == Some(false);
            Known(ClassOf(Some(t), rev, reach)) <==> found && (reach == Host ==> Text(t.cc).Some?)
    ensures !Known(ClassOf(None, rev, reach))
  {
  }

  /** What a key tells apart: two known classes of a reach are one if and only if their
      hashes are one, both directories were clean or both modified, and at the host the
      compilers are one. */
  lemma KeysAgree(a: Tree, ra: Option<Rev>, b: Tree, rb: Option<Rev>, reach: Reach)
    requires Known(ClassOf(Some(a), ra, reach)) && Known(ClassOf(Some(b), rb, reach))
    requires HashAt(a, ra, reach).Some? ==> GitHash(HashAt(a, ra, reach).value)
    requires HashAt(b, rb, reach).Some? ==> GitHash(HashAt(b, rb, reach).value)
    ensures ClassOf(Some(a), ra, reach).key == ClassOf(Some(b), rb, reach).key
       <==> HashAt(a, ra, reach) == HashAt(b, rb, reach) && DirtAt(a, reach) == DirtAt(b, reach)
            && (reach == Host ==> a.cc == b.cc)
  {
    hide Asked, GitHash, ClassOf;
    KeyIs(a, ra, reach);
    KeyIs(b, rb, reach);
    var x, y := HashAt(a, ra, reach).value, HashAt(b, rb, reach).value;
    assert |x| == 40 && |y| == 40 by { HashSize(x); HashSize(y); }
    match reach
    case Tile => Marked(x, DirtAt(a, reach), "", y, DirtAt(b, reach), "");
    case Host => Marked(x, DirtAt(a, reach), "|" + a.cc.value, y, DirtAt(b, reach), "|" + b.cc.value);
      assert "|" + a.cc.value == "|" + b.cc.value ==> ("|" + a.cc.value)[1..] == ("|" + b.cc.value)[1..];
  }

  lemma HashSize(s: string)
    requires GitHash(s)
    ensures |s| == 40
  {
  }

  lemma KeyIs(t: Tree, rev: Option<Rev>, reach: Reach)
    requires Known(ClassOf(Some(t), rev, reach))
    ensures HashAt(t, rev, reach).Some? && (reach == Host ==> t.cc.Some?)
    ensures ClassOf(Some(t), rev, reach).key
         == HashAt(t, rev, reach).value + (if DirtAt(t, reach) then "+modified" else "")
            + (if reach == Tile then "" else "|" + t.cc.value)
  {
  }

  /** Of hashes of one length, the mark and what follows can be told. */
  lemma Marked(x: string, p: bool, c: string, y: string, q: bool, d: string)
    requires |x| == |y| && (c == "" <==> d == "") && (c != "" ==> c[0] == '|' && d[0] == '|')
    ensures x + (if p then "+modified" else "") + c == y + (if q then "+modified" else "") + d
       <==> x == y && p == q && c == d
  {
    var m, n := if p then "+modified" else "", if q then "+modified" else "";
    var k, l := x + m + c, y + n + d;
    assert k[..|x|] == x && l[..|y|] == y && k[|x|..] == m + c && l[|y|..] == n + d;
    if k == l {
      assert m + c == n + d;
      assert p ==> |m + c| > 0 && (m + c)[0] == '+';
      assert q ==> |n + d| > 0 && (n + d)[0] == '+';
      assert (m + c)[|m|..] == c && (n + d)[|n|..] == d;
    }
  }

  // ---- the records ----------------------------------------------------------

  datatype Status = Pass | Fail | Timeout | NoDevice | ParseError | Error | Skipped

  /** What a slice was asked: encodings [lo, hi), or the n-th draw from a seed. */
  datatype Ask = Range(lo: int, hi: int) | Draw(n: nat, seed: nat)

  /** A sweep leg: its item ("" where it names none), where its work ran as slice_reach
      reads it, how it ended, what it was asked and what it counted. */
  datatype Leg = Leg(item: string, reach: Option<Reach>, status: Status, ask: Ask, cases: nat, skipped: nat, batch: nat)

  datatype Rec = RunStart(tree: Option<Tree>) | Sweep(leg: Leg) | Other

  predicate Finished(leg: Leg) {
    leg.item != "" && (leg.status == Pass || leg.status == Fail)
  }

  // ---- count_slices ---------------------------------------------------------

  type Classes = Reach -> Class

  /** The class a leg falls in after `cur`, as a resume of class `now` reads it. */
  function Reading(cur: Option<Tree>, rev: Option<Rev>, now: Classes, leg: Leg): Class {
    if leg.reach.None? then Class("none", Some(ReachUnknown))
    else
      var c := ClassOf(cur, rev, leg.reach.value);
      if Known(c) && !Known(now(leg.reach.value)) then c.(unknown := Some(OwnClassUnknown)) else c
  }

  /** The slices a resume counts: known, and of its own class. */
  predicate Counts(cur: Option<Tree>, rev: Option<Rev>, now: Classes, leg: Leg) {
    Finished(leg) && leg.reach.Some?
    && Known(ClassOf(cur, rev, leg.reach.value)) && Known(now(leg.reach.value))
    && ClassOf(cur, rev, leg.reach.value).key == now(leg.reach.value).key
  }

  /** The tree of the last run_start. */
  function LastTree(recs: seq<Rec>): Option<Tree> {
    if recs == [] then None
    else if recs[|recs| - 1].RunStart? then recs[|recs| - 1].tree
    else LastTree(recs[..|recs| - 1])
  }

  /** The counted slices, in the log's order: each judged by the last run_start before it. */
  function Counted(recs: seq<Rec>, rev: Option<Rev>, now: Classes): (legs: seq<Leg>)
  {
    if recs == [] then []
    else
      var before := recs[..|recs| - 1];
      var r := recs[|recs| - 1];
      Counted(before, rev, now) + if r.Sweep? && Counts(LastTree(before), rev, now, r.leg) then [r.leg] else []
  }

  /** Every finished slice. */
  function AllFinished(recs: seq<Rec>): seq<Leg> {
    if recs == [] then []
    else
      AllFinished(recs[..|recs| - 1])
      + if recs[|recs| - 1].Sweep? && Finished(recs[|recs| - 1].leg) then [recs[|recs| - 1].leg] else []
  }

  /** One line of the report of what was not counted. */
  datatype Unknown = Unknown(start: nat, reach: Option<Reach>, why: Reason, n: nat)

  datatype Tally = Tally(slices: nat, tile: nat, host: nat, otherTile: nat, otherHost: nat, unknown: seq<Unknown>)

  function Total(us: seq<Unknown>): nat {
    if us == [] then 0 else Total(us[..|us| - 1]) + us[|us| - 1].n
  }

  predicate SaysOf(u: Unknown, start: nat, reach: Option<Reach>, why: Reason) {
    u.start == start && u.reach == reach && u.why == why
  }

  /** What the report says of this run_start, reach and reason. */
  function Said(us: seq<Unknown>, start: nat, reach: Option<Reach>, why: Reason): nat {
    if us == [] then 0
    else Said(us[..|us| - 1], start, reach, why) + if SaysOf(us[|us| - 1], start, reach, why) then us[|us| - 1].n else 0
  }

  /** No line of the report says what another does. */
  predicate AllDiffer(us: seq<Unknown>) {
    forall i, j | 0 <= i < j < |us| :: !SaysOf(us[j], us[i].start, us[i].reach, us[i].why)
  }

  /** The entry for this run_start, reach and reason, one more on it. */
  method Note(us: seq<Unknown>, start: nat, reach: Option<Reach>, why: Reason) returns (r: seq<Unknown>)
    requires AllDiffer(us)
    ensures Total(r) == Total(us) + 1 && AllDiffer(r)
    ensures forall s, re, w ::
              Said(r, s, re, w) == Said(us, s, re, w) + if s == start && re == reach && w == why then 1 else 0
  {
    for i := 0 to |us|
      invariant forall j | 0 <= j < i :: !SaysOf(us[j], start, reach, why)
    {
      if us[i].start == start && us[i].reach == reach && us[i].why == why {
        r := us[i := us[i].(n := us[i].n + 1)];
        TotalSet(us, i);
        forall s, re, w
          ensures Said(r, s, re, w) == Said(us, s, re, w) + if s == start && re == reach && w == why then 1 else 0
        {
          SaidSet(us, i, s, re, w);
        }
        return;
      }
    }
    r := us + [Unknown(start, reach, why, 1)];
    assert r[..|us|] == us;
  }

  lemma {:induction false} TotalSet(us: seq<Unknown>, i: nat)
    requires i < |us|
    ensures Total(us[i := us[i].(n := us[i].n + 1)]) == Total(us) + 1
  {
    var k := |us| - 1;
    var vs := us[i := us[i].(n := us[i].n + 1)];
    if i < k {
      assert vs[..k] == us[..k][i := us[i].(n := us[i].n + 1)];
      TotalSet(us[..k], i);
    } else {
      assert vs[..k] == us[..k];
    }
  }

  lemma {:induction false} SaidSet(us: seq<Unknown>, i: nat, start: nat, reach: Option<Reach>, why: Reason)
    requires i < |us|
    ensures Said(us[i := us[i].(n := us[i].n + 1)], start, reach, why)
         == Said(us, start, reach, why) + if SaysOf(us[i], start, reach, why) then 1 else 0
  {
    var k := |us| - 1;
    var vs := us[i := us[i].(n := us[i].n + 1)];
    if i < k {
      assert vs[..k] == us[..k][i := us[i].(n := us[i].n + 1)];
      SaidSet(us[..k], i, start, reach, why);
    } else {
      assert vs[..k] == us[..k];
    }
  }

  // ---- what the tally counts, record by record ------------------------------

  /** Record i is a finished slice of this reach. */
  predicate SliceAt(recs: seq<Rec>, i: nat, reach: Option<Reach>)
    requires i < |recs|
  {
    recs[i].Sweep? && recs[i].leg.item != "" && recs[i].leg.status in {Pass, Fail} && recs[i].leg.reach == reach
  }

  /** The run_start record i stands under. */
  function StartAt(recs: seq<Rec>, i: nat): nat
    requires i <= |recs|
  {
    if i == 0 then 0 else if recs[i - 1].RunStart? then i - 1 else StartAt(recs, i - 1)
  }

  function TreeAt(recs: seq<Rec>, i: nat): Option<Tree>
    requires i < |recs|
  {
    var k := StartAt(recs, i);
    if k < i && recs[k].RunStart? then recs[k].tree else None
  }

  /** Why record i is not placed; None where it is. */
  function WhyAt(recs: seq<Rec>, rev: Option<Rev>, now: Classes, i: nat): Option<Reason>
    requires i < |recs| && recs[i].Sweep?
  {
    match recs[i].leg.reach
    case None => Some(ReachUnknown)
    case Some(reach) =>
      var c := ClassOf(TreeAt(recs, i), rev, reach);
      if c.unknown.Some? then c.unknown else if now(reach).unknown.Some? then Some(OwnClassUnknown) else None
  }

  /** Record i is a finished slice of the reach placed in the run's own class, or in another. */
  predicate IsPlaced(recs: seq<Rec>, rev: Option<Rev>, now: Classes, i: nat, reach: Reach, own: bool)
    requires i < |recs|
  {
    && SliceAt(recs, i, Some(reach)) && WhyAt(recs, rev, now, i) == None
    && (ClassOf(TreeAt(recs, i), rev, reach).key == now(reach).key) == own
  }

  function Placed(recs: seq<Rec>, rev: Option<Rev>, now: Classes, n: nat, reach: Reach, own: bool): set<int>
    requires n <= |recs|
  {
    set i | 0 <= i < n && IsPlaced(recs, rev, now, i, reach, own)
  }

  /** ... or is not placed, for this reason, under this run_start. */
  predicate IsUnplaced(recs: seq<Rec>, rev: Option<Rev>, now: Classes, i: nat, start: nat, reach: Option<Reach>,
                       why: Reason)
    requires i < |recs|
  {
    SliceAt(recs, i, reach) && WhyAt(recs, rev, now, i) == Some(why) && StartAt(recs, i) == start
  }

  function Unplaced(recs: seq<Rec>, rev: Option<Rev>, now: Classes, n: nat, start: nat, reach: Option<Reach>,
                    why: Reason): set<int>
    requires n <= |recs|
  {
    set i | 0 <= i < n && IsUnplaced(recs, rev, now, i, start, reach, why)
  }

  lemma {:induction false} TreeIsLast(recs: seq<Rec>, i: nat)
    requires i < |recs|
    ensures TreeAt(recs, i) == LastTree(recs[..i])
    ensures StartAt(recs, i) <= i
  {
    if i > 0 {
      assert recs[..i][..i - 1] == recs[..i - 1];
      TreeIsLast(recs, i - 1);
    }
  }

  lemma CountMore(now: set<int>, was: set<int>, n: int, more: bool)
    requires n !in was && forall i :: i in now <==> i in was || (more && i == n)
    ensures |now| == |was| + if more then 1 else 0
  {
    var next := if more then was + {n} else was;
    assert forall i | i in now :: i in next;
    assert forall i | i in next :: i in now;
    assert now == next;
  }

  lemma PlacedNext(recs: seq<Rec>, rev: Option<Rev>, now: Classes, n: nat, reach: Reach, own: bool)
    requires n < |recs|
    ensures |Placed(recs, rev, now, n + 1, reach, own)|
         == |Placed(recs, rev, now, n, reach, own)| + if IsPlaced(recs, rev, now, n, reach, own) then 1 else 0
  {
    hide IsPlaced;
    CountMore(Placed(recs, rev, now, n + 1, reach, own), Placed(recs, rev, now, n, reach, own), n,
            IsPlaced(recs, rev, now, n, reach, own));
  }

  lemma UnplacedNext(recs: seq<Rec>, rev: Option<Rev>, now: Classes, n: nat, start: nat, reach: Option<Reach>,
                     why: Reason)
    requires n < |recs|
    ensures |Unplaced(recs, rev, now, n + 1, start, reach, why)|
         == |Unplaced(recs, rev, now, n, start, reach, why)|
            + if IsUnplaced(recs, rev, now, n, start, reach, why) then 1 else 0
  {
    hide IsUnplaced;
    CountMore(Unplaced(recs, rev, now, n + 1, start, reach, why), Unplaced(recs, rev, now, n, start, reach, why), n,
            IsUnplaced(recs, rev, now, n, start, reach, why));
  }

  /** The tally of the first n records. */
  ghost predicate Tallied(recs: seq<Rec>, rev: Option<Rev>, now: Classes, n: nat, tally: Tally)
    requires n <= |recs|
  {
    && tally.tile == |Placed(recs, rev, now, n, Tile, true)| && tally.host == |Placed(recs, rev, now, n, Host, true)|
    && tally.otherTile == |Placed(recs, rev, now, n, Tile, false)|
    && tally.otherHost == |Placed(recs, rev, now, n, Host, false)|
    && AllDiffer(tally.unknown)
    && forall start, reach, why ::
         Said(tally.unknown, start, reach, why) == |Unplaced(recs, rev, now, n, start, reach, why)|
  }

  /** One finished slice more, where record n is one. */
  ghost predicate TallyMoves(recs: seq<Rec>, rev: Option<Rev>, now: Classes, n: nat, was: Tally, tally: Tally)
    requires n < |recs|
  {
    if !recs[n].Sweep? || !Finished(recs[n].leg) then tally == was
    else
      var reach := recs[n].leg.reach;
      match WhyAt(recs, rev, now, n)
      case None =>
        if ClassOf(TreeAt(recs, n), rev, reach.value).key == now(reach.value).key then
          tally == if reach == Some(Tile) then was.(slices := was.slices + 1, tile := was.tile + 1)
                   else was.(slices := was.slices + 1, host := was.host + 1)
        else
          tally == if reach == Some(Tile) then was.(slices := was.slices + 1, otherTile := was.otherTile + 1)
                   else was.(slices := was.slices + 1, otherHost := was.otherHost + 1)
      case Some(why) =>
        && tally == was.(slices := was.slices + 1, unknown := tally.unknown) && AllDiffer(tally.unknown)
        && forall s, re, w ::
             var more := if s == StartAt(recs, n) && re == reach && w == why then 1 else 0;
             Said(tally.unknown, s, re, w) == Said(was.unknown, s, re, w) + more
  }

  lemma TallyMore(recs: seq<Rec>, rev: Option<Rev>, now: Classes, n: nat, was: Tally, tally: Tally)
    requires n < |recs| && Tallied(recs, rev, now, n, was) && TallyMoves(recs, rev, now, n, was, tally)
    ensures Tallied(recs, rev, now, n + 1, tally)
  {
    hide ClassOf, Placed, Unplaced, Said, TreeAt, StartAt, AllDiffer;
    PlacedNext(recs, rev, now, n, Tile, true);
    PlacedNext(recs, rev, now, n, Host, true);
    PlacedNext(recs, rev, now, n, Tile, false);
    PlacedNext(recs, rev, now, n, Host, false);
    forall start, reach, why
      ensures Said(tally.unknown, start, reach, why) == |Unplaced(recs, rev, now, n + 1, start, reach, why)|
    {
      UnplacedNext(recs, rev, now, n, start, reach, why);
    }
    if recs[n].Sweep? && recs[n].leg.reach.Some? {
      match recs[n].leg.reach.value
      case Tile => assert recs[n].leg.reach == Some(Tile);
      case Host => assert recs[n].leg.reach == Some(Host);
    }
  }

  lemma TallyNone(recs: seq<Rec>, rev: Option<Rev>, now: Classes)
    ensures Tallied(recs, rev, now, 0, Tally(0, 0, 0, 0, 0, []))
  {
  }

  /** How a resume reads a leg under the last run_start, in the terms of the records. */
  lemma ReadingIs(recs: seq<Rec>, rev: Option<Rev>, now: Classes, i: nat)
    requires i < |recs| && recs[i].Sweep?
    ensures var c := Reading(LastTree(recs[..i]), rev, now, recs[i].leg);
            && c.unknown == WhyAt(recs, rev, now, i)
            && (recs[i].leg.reach.Some? ==> c.key == ClassOf(TreeAt(recs, i), rev, recs[i].leg.reach.value).key)
  {
    hide ClassOf;
    TreeIsLast(recs, i);
  }

  /** count_slices: the counted slices in order; and of every finished one how it was taken:
      how many of each reach are the run's own class's, how many another's, and for each
      run_start, reach and reason how many are not placed. */
  method CountSlices(recs: seq<Rec>, now: Classes, rev: Option<Rev>) returns (counted: seq<Leg>, tally: Tally)
    ensures counted == Counted(recs, rev, now)
    ensures tally.slices == |AllFinished(recs)|
    ensures tally.tile + tally.host == |counted|
    ensures tally.slices == tally.tile + tally.host + tally.otherTile + tally.otherHost + Total(tally.unknown)
    ensures Tallied(recs, rev, now, |recs|, tally)
  {
    hide ClassOf, Tallied, WhyAt, TreeAt, StartAt, Said, AllDiffer, Counted, AllFinished, LastTree;
    counted := [];
    tally := Tally(0, 0, 0, 0, 0, []);
    var cur: Option<Tree> := None;
    var start := 0;
    TallyNone(recs, rev, now);
    CountedNone(recs, rev, now);
    for i := 0 to |recs|
      invariant cur == LastTree(recs[..i]) && start == StartAt(recs, i) && AllDiffer(tally.unknown)
      invariant counted == Counted(recs[..i], rev, now)
      invariant tally.slices == |AllFinished(recs[..i])|
      invariant tally.tile + tally.host == |counted|
      invariant tally.slices == tally.tile + tally.host + tally.otherTile + tally.otherHost + Total(tally.unknown)
      invariant Tallied(recs, rev, now, i, tally)
    {
      ghost var was := tally;
      ReadMore(recs, rev, now, i);
      match recs[i]
      case RunStart(t) =>
        cur, start := t, i;
        TallyMore(recs, rev, now, i, was, tally);
      case Other => TallyMore(recs, rev, now, i, was, tally);
      case Sweep(leg) =>
        ReadingIs(recs, rev, now, i);
        if Finished(leg) {
          tally := tally.(slices := tally.slices + 1);
          var c := Reading(cur, rev, now, leg);
          if Known(c) && c.key == now(leg.reach.value).key {
            counted := counted + [leg];
            tally := if leg.reach == Some(Tile) then tally.(tile := tally.tile + 1) else tally.(host := tally.host + 1);
          } else if Known(c) {
            tally := if leg.reach == Some(Tile) then tally.(otherTile := tally.otherTile + 1)
                     else tally.(otherHost := tally.otherHost + 1);
          } else {
            var us := Note(tally.unknown, start, leg.reach, c.unknown.value);
            tally := tally.(unknown := us);
          }
        }
        TallyMore(recs, rev, now, i, was, tally);
    }
    assert recs[..|recs|] == recs;
  }

  lemma CountedNone(recs: seq<Rec>, rev: Option<Rev>, now: Classes)
    ensures Counted(recs[..0], rev, now) == [] && AllFinished(recs[..0]) == [] && LastTree(recs[..0]) == None
    ensures StartAt(recs, 0) == 0 && AllDiffer([])
  {
  }

  lemma ReadMore(recs: seq<Rec>, rev: Option<Rev>, now: Classes, i: nat)
    requires i < |recs|
    ensures StartAt(recs, i + 1) == if recs[i].RunStart? then i else StartAt(recs, i)
    ensures LastTree(recs[..i + 1]) == if recs[i].RunStart? then recs[i].tree else LastTree(recs[..i])
    ensures var more := recs[i].Sweep? && Counts(LastTree(recs[..i]), rev, now, recs[i].leg);
            Counted(recs[..i + 1], rev, now) == Counted(recs[..i], rev, now) + if more then [recs[i].leg] else []
    ensures |AllFinished(recs[..i + 1])|
         == |AllFinished(recs[..i])| + if recs[i].Sweep? && Finished(recs[i].leg) then 1 else 0
  {
    hide Counts;
    assert recs[..i + 1][..i] == recs[..i];
  }

  /** Resumes whose classes differ at a slice's reach share none of its records: of every
      finished slice, however often the same one was run, each record is counted by one of
      them at most. */
  lemma {:induction false} ClassesDoNotShare(recs: seq<Rec>, rev: Option<Rev>, a: Classes, b: Classes, leg: Leg)
    requires leg.reach.Some? ==> a(leg.reach.value).key != b(leg.reach.value).key
    ensures multiset(Counted(recs, rev, a))[leg] + multiset(Counted(recs, rev, b))[leg]
         <= multiset(AllFinished(recs))[leg]
  {
    if recs != [] {
      ClassesDoNotShare(recs[..|recs| - 1], rev, a, b, leg);
    }
  }

  lemma {:induction false} CountedAreRecs(recs: seq<Rec>, rev: Option<Rev>, now: Classes)
    ensures forall l :: l in Counted(recs, rev, now) ==> Sweep(l) in recs && Finished(l)
  {
    if recs != [] { CountedAreRecs(recs[..|recs| - 1], rev, now); }
  }

  /** A log all of one known class is counted whole. */
  lemma {:induction false} OneClassCountsAll(recs: seq<Rec>, rev: Option<Rev>, now: Classes)
    requires forall i, reach | 0 <= i < |recs| && recs[i].RunStart? ::
               ClassOf(recs[i].tree, rev, reach) == now(reach) && Known(now(reach))
    requires recs != [] ==> recs[0].RunStart?
    requires forall i | 0 <= i < |recs| && recs[i].Sweep? :: recs[i].leg.reach.Some?
    ensures Counted(recs, rev, now) == AllFinished(recs)
    ensures recs != [] ==> forall reach :: ClassOf(LastTree(recs), rev, reach) == now(reach) && Known(now(reach))
  {
    if |recs| == 1 {
      assert recs[..0] == [];
    } else if recs != [] {
      OneClassCountsAll(recs[..|recs| - 1], rev, now);
    }
  }
}
