/** What the campaign's invariant comes to: a resume finds the run it resumes, slices never
    overlap, and every completed slice is progress. */
module Outcomes {
  import opened Wrappers
  import opened Intervals
  import opened Slices
  import opened Trees
  import opened Sweep
  import opened Campaign

  /** A campaign on this file by a run of this tree, through these events. */
  ghost function After(s: Setup, log: seq<Rec>, own: Option<Tree>, es: seq<Event>): World {
    Run(s, Boot(s, log, own), es)
  }

  /** The file is new, or its coverage is a cut in every class. */
  ghost predicate LawfulStart(s: Setup, log: seq<Rec>, own: Option<Tree>) {
    ValidConfig(s.cfg) && s.cfg.limit >= 0 && Recorded(s, own) && CutLog(s, log)
  }

  /** What recording means: with both trees' hashes written down, every class is one the
      run itself knew. */
  lemma TreesRecorded(s: Setup, t: Tree)
    requires Text(t.rtl).Some? && Text(t.hostSrc).Some?
    ensures Recorded(s, Some(t))
  {
  }

  // ---- a resume finds the run it resumes ------------------------------------

  lemma BootHas(s: Setup, log: seq<Rec>, own: Option<Tree>, it: Item)
    requires ValidConfig(s.cfg) && it in s.cfg.items
    ensures At(Boot(s, log, own).live, it.name) == LoadItem(s, log, own, it)
  {
    NamesOf(s.cfg.items, it);
    SameItem(s.cfg, it, ItemNamedOr(s.cfg.items, it.name));
  }

  /** The state a crash loses, once what it logged is accounted, is the state the next run
      loads: every number, streak and disabling; in the run's class the coverage, the slices
      served and the sums; the fail counts but for exactly the slices that could not start
      since the last run_start. */
  lemma ResumeFinds(s: Setup, log: seq<Rec>, own: Option<Tree>, es: seq<Event>, next: Option<Tree>, it: Item)
    requires LawfulStart(s, log, own) && it in s.cfg.items
    ensures var w := After(s, log, own, es);
            var was, now := Settled(s, w, it.name), At(Boot(s, w.log, next).live, it.name);
            var c := OwnClass(next, it.reach);
            && WholeAgrees(was, now)
            && (Known(c) && c == SeenClass(s, w.own, it.reach) ==> ClassAgrees(was, now))
            && forall k :: FailsOf(was.fails, k) == FailsOf(now.fails, k) + ErrorsSince(w.log, it.name, k)
  {
    hide Next, Run, Account, Replay, FlightOk, CoverOk, Settled, Recorded, CutLog;
    var w := After(s, log, own, es);
    RunKeeps(s, log, own, es);
    assert ReplayOk(s, w, it);
    BootHas(s, w.log, next, it);
    var c := OwnClass(next, it.reach);
    LoadSame(s, w.log, w.own, next, it);
    RecordedHas(s, w.own, it);
    if Known(c) && c == SeenClass(s, w.own, it.reach) { RecordedIsSeen(s, w.own, it.reach); }
  }

  /** What a load owes to the run that does it: its class alone. */
  lemma LoadSame(s: Setup, log: seq<Rec>, a: Option<Tree>, b: Option<Tree>, it: Item)
    ensures WholeAgrees(LoadItem(s, log, a, it), LoadItem(s, log, b, it))
    ensures LoadItem(s, log, a, it).fails == LoadItem(s, log, b, it).fails
    ensures OwnClass(a, it.reach) == OwnClass(b, it.reach) ==> LoadItem(s, log, a, it) == LoadItem(s, log, b, it)
  {
  }

  /** A slice the lost run had moved past is moved past by the next one exactly where it
      failed often enough without the times it could not start since the last run_start. */
  lemma QuarantineFound(s: Setup, log: seq<Rec>, own: Option<Tree>, es: seq<Event>, next: Option<Tree>, it: Item, k: Iv)
    requires LawfulStart(s, log, own) && it in s.cfg.items
    ensures var w := After(s, log, own, es);
            var was, now := Settled(s, w, it.name), At(Boot(s, w.log, next).live, it.name);
            var failed, lost := FailsOf(was.fails, k), ErrorsSince(w.log, it.name, k);
            && (k in was.quarantine <==> failed > 0 && failed >= s.cfg.limit)
            && (k in now.quarantine <==> failed - lost > 0 && failed - lost >= s.cfg.limit)
  {
    hide After, LawfulStart, Boot, At, Settled, FailsOf, ErrorsSince, WholeAgrees, ClassAgrees, Known, OwnClass,
         SeenClass;
    ResumeFinds(s, log, own, es, next, it);
    Quarantines(s, log, own, es, next, it);
  }

  lemma Quarantines(s: Setup, log: seq<Rec>, own: Option<Tree>, es: seq<Event>, next: Option<Tree>, it: Item)
    requires LawfulStart(s, log, own) && it in s.cfg.items
    ensures QuarantineIs(s.cfg.limit, Settled(s, After(s, log, own, es), it.name))
    ensures QuarantineIs(s.cfg.limit, At(Boot(s, After(s, log, own, es).log, next).live, it.name))
  {
    hide Next, Run, Account, LoadItem, FlightOk, CoverOk, QuarantineIs, WholeAgrees, ClassAgrees, FailsOf,
         ErrorsSince, Settled;
    var w := After(s, log, own, es);
    RunKeeps(s, log, own, es);
    assert ReplayOk(s, w, it);
    BootHas(s, w.log, next, it);
    LoadQuarantines(s, w.log, next, it);
  }

  lemma LoadQuarantines(s: Setup, log: seq<Rec>, own: Option<Tree>, it: Item)
    ensures QuarantineIs(s.cfg.limit, LoadItem(s, log, own, it))
  {
    ReplayQuarantines(s.cfg.limit, Floor(s, it.name), LegsFor(log, it.name),
                      MineFor(s, log, it, OwnClass(own, it.reach)));
  }

  // ---- coverage -------------------------------------------------------------

  /** Completed slices of an exhaustive item never overlap and never leave its space: those
      the live run counts, and in each tree class those the whole file holds. */
  lemma CoverageIsACut(s: Setup, log: seq<Rec>, own: Option<Tree>, es: seq<Event>, it: Item, c: Class)
    requires LawfulStart(s, log, own) && it in s.cfg.items && it.kind.Exhaustive?
    ensures Cut(At(After(s, log, own, es).live, it.name).intervals, it.kind.space)
    ensures Cut(ReplayIntervals(MineFor(s, After(s, log, own, es).log, it, c)), it.kind.space)
  {
    hide Next, Run, FlightOk, ReplayOk, Cut;
    RunKeeps(s, log, own, es);
    assert CoverOk(s, After(s, log, own, es), it);
  }

  /** No item is in flight twice, and so none is with the card and the pool at once; a slice
      in flight is in its space, clear of everything its item has covered, and starts at the
      first place not behind it. */
  lemma FlightIsApart(s: Setup, log: seq<Rec>, own: Option<Tree>, es: seq<Event>, i: nat, j: nat)
    requires LawfulStart(s, log, own) && i < |After(s, log, own, es).flight| && j < |After(s, log, own, es).flight|
    ensures var w := After(s, log, own, es);
            var a, b := w.flight[i].job, w.flight[j].job;
            && (i != j ==> a.item != b.item && a.item.name != b.item.name)
            && a.item in s.cfg.items
            && (a.item.kind.Exhaustive? ==>
                  && a.ask.Range? && 0 <= a.ask.lo < a.ask.hi <= a.item.kind.space
                  && (forall x :: a.ask.lo <= x < a.ask.hi ==> !In(Behind(At(w.live, a.item.name)), x))
                  && forall x :: 0 <= x < a.ask.lo ==> In(Behind(At(w.live, a.item.name)), x))
  {
    hide Next, Run, ReplayOk, CoverOk, Behind;
    RunKeeps(s, log, own, es);
    var w := After(s, log, own, es);
    JobHas(s, w, i);
    if i < j { Distinct(s, w); } else { Distinct(s, w); }
  }

  /** A run that could place its slices only with git's help starts from no coverage at
      all, so its first slice lands on what the file already holds of the class. */
  lemma UnrecordedOverlaps(s: Setup, log: seq<Rec>, own: Option<Tree>, job: Job, cases: nat, skipped: nat)
    requires ValidConfig(s.cfg) && job.item.kind.Exhaustive? && WellPlanned(s.cfg, Boot(s, log, own).live, job)
    requires !Known(OwnClass(own, job.item.reach)) && Known(SeenClass(s, own, job.item.reach))
    requires In(ReplayIntervals(MineFor(s, log, job.item, SeenClass(s, own, job.item.reach))), job.ask.lo)
    ensures var after := log + [RunStart(own), Sweep(LegOf(s, job, Pass, cases, skipped))];
            !Disjoint(ReplayIntervals(MineFor(s, after, job.item, SeenClass(s, own, job.item.reach))))
  {
    hide ValidConfig, WellPlanned, SeenClass, MineFor, ReplayIntervals, LegsFor, LastTree, Boot, Disjoint;
    var it, c := job.item, SeenClass(s, own, job.item.reach);
    var leg, started := LegOf(s, job, Pass, cases, skipped), log + [RunStart(own)];
    assert log + [RunStart(own), Sweep(leg)] == started + [Sweep(leg)];
    NamesNotEmpty(s.cfg, it) by { PlannedIn(s, Boot(s, log, own).live, job); }
    LogQuiet(s, log, RunStart(own), it, c);
    LogLeg(s, started, leg, it, c);
    assert Mine(s, own, it, c, Sweep(leg));
    PlannedRange(s, Boot(s, log, own).live, job);
    ReplayCovers(MineFor(s, log, it, c), leg);
    MeetsItself(ReplayIntervals(MineFor(s, log, it, c)), job.ask.lo, job.ask.hi);
  }

  lemma PlannedRange(s: Setup, live: Live, job: Job)
    requires WellPlanned(s.cfg, live, job) && job.item.kind.Exhaustive?
    ensures job.ask.Range? && job.ask.lo < job.ask.hi
  {
  }

  lemma MeetsItself(iv: seq<Iv>, lo: int, hi: int)
    requires In(iv, lo) && lo < hi
    ensures !Disjoint(iv + [(lo, hi)])
  {
    var k :| 0 <= k < |iv| && iv[k].0 <= lo < iv[k].1;
    var more := iv + [(lo, hi)];
    assert more[k] == iv[k] && more[|iv|] == (lo, hi);
    assert !Apart(more[k], more[|iv|]);
  }

  /** ... and it does start from none. */
  lemma {:induction false} UnknownCountsNone(s: Setup, log: seq<Rec>, it: Item, c: Class)
    requires !Known(c)
    ensures MineFor(s, log, it, c) == []
  {
    if log != [] { UnknownCountsNone(s, log[..|log| - 1], it, c); }
  }

  // ---- progress -------------------------------------------------------------

  /** Intervals `now` hold what `was` held and [lo, hi), all of it new. */
  ghost predicate Widens(was: seq<Iv>, now: seq<Iv>, lo: int, hi: int) {
    && lo < hi && (forall x :: lo <= x < hi ==> !In(was, x))
    && forall x :: In(now, x) <==> In(was, x) || lo <= x < hi
  }

  /** A completed slice of the running class always shrinks what is left of it, by exactly
      the slice. */
  lemma FinishGrows(s: Setup, w: World, k: nat, status: Status, cases: nat, skipped: nat)
    requires Inv(s, w) && k < |w.flight| && w.flight[k].leg.None? && (status == Pass || status == Fail)
    requires w.flight[k].job.item.kind.Exhaustive? && Known(SeenClass(s, w.own, w.flight[k].job.item.reach))
    ensures var job := w.flight[k].job;
            var c := SeenClass(s, w.own, job.item.reach);
            job.ask.Range? && Widens(ReplayIntervals(MineFor(s, w.log, job.item, c)),
                                     ReplayIntervals(MineFor(s, Next(s, w, Finish(k, status, cases, skipped)).log,
                                                             job.item, c)),
                                     job.ask.lo, job.ask.hi)
  {
    hide FlightOk, CoverOk, ReplayOk, SeenClass, OwnClass, Mine, MineFor, Recorded, ValidConfig, LastTree, Widens,
         PlanWave, Boot, Account;
    var job := w.flight[k].job;
    var it, c := job.item, SeenClass(s, w.own, job.item.reach);
    JobHas(s, w, k);
    NamesNotEmpty(s.cfg, it);
    var leg := LegOf(s, job, status, cases, skipped);
    LogLeg(s, w.log, leg, it, c);
    RecordedHas(s, w.own, it);
    MineOwn(s, w.own, it, c, leg);
    CoverIsLive(s, w, it);
    var mine := MineFor(s, w.log, it, c);
    assert (mine + [leg])[..|mine|] == mine;
    SliceWidens(s, w.live, job);
  }

  lemma SliceWidens(s: Setup, live: Live, job: Job)
    requires WellPlanned(s.cfg, live, job) && job.item.kind.Exhaustive?
    ensures var was := At(live, job.item.name).intervals;
            Widens(was, was + [(job.ask.lo, job.ask.hi)], job.ask.lo, job.ask.hi)
  {
    var st := At(live, job.item.name);
    forall x
      ensures In(st.intervals + [(job.ask.lo, job.ask.hi)], x) <==> In(st.intervals, x) || job.ask.lo <= x < job.ask.hi
      ensures In(st.intervals, x) ==> In(Behind(st), x)
    {
      InSnoc(st.intervals, (job.ask.lo, job.ask.hi), x);
      if In(st.intervals, x) { InBehind(st, x); }
    }
  }

  lemma CoverIsLive(s: Setup, w: World, it: Item)
    requires ReplayOk(s, w, it) && Pending(w.flight, it.name) == None && RecordedAt(s, w.own, it.reach)
    requires Known(SeenClass(s, w.own, it.reach))
    ensures ReplayIntervals(MineFor(s, w.log, it, SeenClass(s, w.own, it.reach))) == At(w.live, it.name).intervals
  {
    RecordedIsSeen(s, w.own, it.reach);
  }

  /** Only so many slices fit a space. */
  lemma {:induction false} CutIsShort(iv: seq<Iv>, space: nat)
    requires Cut(iv, space)
    ensures |iv| <= space
  {
    var starts := Starts(iv);
    StartsCount(iv);
    assert forall x | x in starts :: x in Intervals.Range(0, space) by {
      forall k | 0 <= k < |iv|
        ensures 0 <= iv[k].0 < space && Between(0, iv[k].0, space)
      {
      }
    }
    RangeSize(0, space);
    SubsetSize(starts, Intervals.Range(0, space));
  }

  function Starts(iv: seq<Iv>): set<int> { set k | 0 <= k < |iv| :: iv[k].0 }

  lemma {:induction false} StartsCount(iv: seq<Iv>)
    requires Proper(iv) && Disjoint(iv)
    ensures |Starts(iv)| == |iv|
  {
    if iv != [] {
      var n := |iv| - 1;
      StartsCount(iv[..n]);
      assert Starts(iv) == Starts(iv[..n]) + {iv[n].0};
      forall k | 0 <= k < n
        ensures iv[k].0 != iv[n].0
      {
        assert Apart(iv[k], iv[n]);
      }
    }
  }

  lemma {:induction false} SubsetSize(a: set<int>, b: set<int>)
    requires a <= b
    ensures |a| <= |b|
  {
    if exists x :: x in a {
      var x :| x in a;
      SubsetSize(a - {x}, b - {x});
    }
  }

  /** However many runs, crashes and resumes: no more finished slices of an item in a tree
      class than the item has indices. */
  lemma SlicesRunOut(s: Setup, log: seq<Rec>, own: Option<Tree>, es: seq<Event>, it: Item, c: Class)
    requires LawfulStart(s, log, own) && it in s.cfg.items && it.kind.Exhaustive?
    ensures |ReplayIntervals(MineFor(s, After(s, log, own, es).log, it, c))| <= it.kind.space
  {
    CoverageIsACut(s, log, own, es, it, c);
    CutIsShort(ReplayIntervals(MineFor(s, After(s, log, own, es).log, it, c)), it.kind.space);
  }
}
