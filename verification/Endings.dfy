/** One run of exhaustive items ends whatever becomes of its slices: a slice that does not
    finish is tried only so often before the sweep moves past it. */
module Endings {
  import opened Wrappers
  import opened Intervals
  import opened Trees
  import opened Sweep
  import opened Campaign
  import opened Outcomes
  import opened Completion

  /** How often a slice may fail and be tried again. */
  function Tries(limit: int): nat { if limit > 1 then limit else 1 }

  /** Every slice [a, b) with b up to hi. */
  function SlicesFrom(a: nat, hi: nat): seq<Iv> {
    if hi <= a then [] else SlicesFrom(a, hi - 1) + [(a, hi)]
  }

  /** Every slice of the space that starts below n. */
  function AllSlices(n: nat, space: nat): seq<Iv> {
    if n == 0 then [] else AllSlices(n - 1, space) + SlicesFrom(n - 1, space)
  }

  lemma {:induction false} SliceFrom(a: nat, b: nat, hi: nat)
    requires a < b <= hi
    ensures (a, b) in SlicesFrom(a, hi)
  {
    if b < hi { SliceFrom(a, b, hi - 1); }
  }

  lemma {:induction false} SliceListed(n: nat, space: nat, a: nat, b: nat)
    requires a < n && a < b <= space
    ensures (a, b) in AllSlices(n, space)
  {
    if a == n - 1 { SliceFrom(a, b, space); } else { SliceListed(n - 1, space, a, b); }
  }

  lemma {:induction false} SlicesSize(a: nat, hi: nat)
    ensures |SlicesFrom(a, hi)| == if hi <= a then 0 else hi - a
  {
    if hi > a { SlicesSize(a, hi - 1); }
  }

  lemma {:induction false} AllSlicesSize(n: nat, space: nat)
    requires n <= space
    ensures |AllSlices(n, space)| <= n * space
  {
    if n > 0 {
      AllSlicesSize(n - 1, space);
      SlicesSize(n - 1, space);
      assert n * space == (n - 1) * space + space;
    }
  }

  /** The failures these slices have left before each is moved past. */
  function Spare(keys: seq<Iv>, fails: Fails, tries: nat): nat {
    if keys == [] then 0
    else
      var n := FailsOf(fails, keys[0]);
      (if n < tries then tries - n else 0) + Spare(keys[1..], fails, tries)
  }

  lemma {:induction false} SpareBumped(keys: seq<Iv>, fails: Fails, k: Iv, tries: nat)
    ensures Spare(keys, Bump(fails, k), tries) <= Spare(keys, fails, tries)
    ensures k in keys && FailsOf(fails, k) < tries ==> Spare(keys, Bump(fails, k), tries) < Spare(keys, fails, tries)
  {
    if keys != [] {
      SpareBumped(keys[1..], fails, k, tries);
      BumpCounts(fails, k, keys[0]);
    }
  }

  lemma {:induction false} SpareFits(keys: seq<Iv>, fails: Fails, tries: nat)
    ensures Spare(keys, fails, tries) <= tries * |keys|
  {
    if keys != [] {
      SpareFits(keys[1..], fails, tries);
      assert tries * |keys| == tries * |keys[1..]| + tries;
    }
  }

  /** Records an item's state can still take: the slices it has room for, and the failures. */
  function FuelOf(limit: int, space: nat, st: ItemState): int {
    space - |st.intervals| + Spare(AllSlices(space, space), st.fails, Tries(limit))
  }

  /** At most this many. */
  function MostOf(limit: int, space: nat): nat { space + Tries(limit) * (space * space) }

  lemma FuelFits(limit: int, space: nat, st: ItemState)
    ensures FuelOf(limit, space, st) <= MostOf(limit, space)
  {
    var keys := AllSlices(space, space);
    SpareFits(keys, st.fails, Tries(limit));
    AllSlicesSize(space, space);
    Times(Tries(limit), |keys|, space * space);
  }

  lemma Times(a: nat, b: nat, c: nat)
    requires b <= c
    ensures a * b <= a * c
  {
  }

  /** Steps an item's run has yet to give. */
  function YetOf(s: Setup, w: World, it: Item): int {
    if Sliced(s.cfg, it) then
      3 * FuelOf(s.cfg.limit, it.kind.space, At(w.live, it.name))
      + match Stage(w.flight, it.name) case -1 => -1 case 1 => -2 case _ => 0
    else 0
  }

  function Yet(s: Setup, w: World): int {
    SumOf(seq(|s.cfg.items|, i requires 0 <= i < |s.cfg.items| => YetOf(s, w, s.cfg.items[i])))
  }

  function Most(s: Setup): int {
    SumOf(seq(|s.cfg.items|, i requires 0 <= i < |s.cfg.items| =>
                if Sliced(s.cfg, s.cfg.items[i]) then MostOf(s.cfg.limit, s.cfg.items[i].kind.space) else 0))
  }

  lemma YetDown(s: Setup, w: World, w': World, it: Item, d: int)
    requires it in s.cfg.items && YetOf(s, w', it) <= YetOf(s, w, it) - d
    requires forall o :: o in s.cfg.items && o != it ==> YetOf(s, w', o) <= YetOf(s, w, o)
    requires forall i, j :: 0 <= i < j < |s.cfg.items| ==> s.cfg.items[i] != s.cfg.items[j]
    ensures Yet(s, w') <= Yet(s, w) - d
  {
    hide YetOf;
    var k :| 0 <= k < |s.cfg.items| && s.cfg.items[k] == it;
    SumsDown(seq(|s.cfg.items|, i requires 0 <= i < |s.cfg.items| => YetOf(s, w, s.cfg.items[i])),
             seq(|s.cfg.items|, i requires 0 <= i < |s.cfg.items| => YetOf(s, w', s.cfg.items[i])), k, d);
  }

  /** A live quarantine is what failed often enough, whatever is logged and not accounted. */
  ghost predicate Fenced(s: Setup, w: World) {
    forall it :: it in s.cfg.items ==> QuarantineIs(s.cfg.limit, At(w.live, it.name))
  }

  lemma BootIsFenced(s: Setup, log: seq<Rec>, own: Option<Tree>)
    requires ValidConfig(s.cfg)
    ensures Fenced(s, Boot(s, log, own))
  {
    hide LoadItem, QuarantineIs, ValidConfig;
    forall it | it in s.cfg.items
      ensures QuarantineIs(s.cfg.limit, At(Boot(s, log, own).live, it.name))
    {
      BootHas(s, log, own, it);
      LoadQuarantines(s, log, own, it);
    }
  }

  lemma StaysFenced(s: Setup, w: World, e: Event)
    requires ValidConfig(s.cfg) && Fenced(s, w)
    requires forall i :: 0 <= i < |w.flight| ==> w.flight[i].job.item in s.cfg.items
    ensures Fenced(s, Next(s, w, e))
  {
    hide Account, QuarantineIs, PlanWave, LoadItem, Recorded, ValidConfig;
    if e.Settle? && e.k < |w.flight| && w.flight[e.k].leg.Some? {
      var it := w.flight[e.k].job.item;
      AccountQuarantines(s.cfg.limit, At(w.live, it.name), w.flight[e.k].leg.value);
    }
    if e.Resume? { BootIsFenced(s, w.log, e.own); }
  }

  /** Accounting any record of a planned slice takes one off. */
  lemma FuelBurns(s: Setup, live: Live, job: Job, leg: Leg)
    requires WellPlanned(s.cfg, live, job) && job.item.kind.Exhaustive? && leg.ask == job.ask
    requires QuarantineIs(s.cfg.limit, At(live, job.item.name))
    ensures var st, space := At(live, job.item.name), job.item.kind.space;
            FuelOf(s.cfg.limit, space, Account(s.cfg.limit, st, leg)) <= FuelOf(s.cfg.limit, space, st) - 1
  {
    hide AllSlices, Spare, Bump, FailsOf;
    var st, space, k := At(live, job.item.name), job.item.kind.space, Slice(leg);
    if !Done(leg) {
      SliceListed(space, space, k.0, k.1);
      PastIsBehind(st, k);
      SpareBumped(AllSlices(space, space), st.fails, k, Tries(s.cfg.limit));
    }
  }

  lemma PastIsBehind(st: ItemState, k: Iv)
    ensures k in st.quarantine && k.0 < k.1 ==> In(Behind(st), k.0)
  {
    if k in st.quarantine {
      var i :| 0 <= i < |st.quarantine| && st.quarantine[i] == k;
      assert Behind(st)[|st.intervals| + i] == k;
    }
  }

  ghost predicate NoResume(es: seq<Event>) {
    forall i :: 0 <= i < |es| ==> !es[i].Resume?
  }

  lemma StepBurns(s: Setup, w: World, e: Event)
    requires Underway(s, w) && Fenced(s, w) && !e.Resume? && Next(s, w, e) != w
    ensures FlightRuns(s, Next(s, w, e))
    ensures Yet(s, Next(s, w, e)) <= Yet(s, w) - 1 + Loss(s.cfg, e)
  {
    hide Inv, Next, Yet, FlightRuns, OnlyExhaustive, Fenced, FuelOf, Runs, Stage;
    ItemsDiffer(s, w);
    var w' := Next(s, w, e);
    match e
    case Plan(reach, units) =>
      var it := PlanStages(s, w, reach, units);
      YetDown(s, w, w', it, 1);
    case Finish(k, status, cases, skipped) =>
      FinishStages(s, w, e);
      LiveStays(s, w, e);
      ForOthers(s, w, w', w.flight[k].job.item);
      YetDown(s, w, w', w.flight[k].job.item, 1);
    case Abandon(k) =>
      DropStages(s, w, e);
      LiveStays(s, w, e);
      ForOthers(s, w, w', w.flight[k].job.item);
      YetDown(s, w, w', w.flight[k].job.item, -1);
    case Settle(k) =>
      DropStages(s, w, e);
      SettleBurns(s, w, k);
      ForOthers(s, w, w', w.flight[k].job.item);
      YetDown(s, w, w', w.flight[k].job.item, 1);
  }

  lemma LiveStays(s: Setup, w: World, e: Event)
    requires e.Finish? || e.Abandon?
    ensures Next(s, w, e).live == w.live
  {
  }

  lemma ForOthers(s: Setup, w: World, w': World, it: Item)
    requires Inv(s, w) && it in s.cfg.items
    requires forall name :: name != it.name ==> Stage(w'.flight, name) == Stage(w.flight, name)
    requires forall name :: name != it.name ==> At(w'.live, name) == At(w.live, name)
    ensures forall o :: o in s.cfg.items && o != it ==> YetOf(s, w', o) == YetOf(s, w, o)
  {
    hide Inv, Stage, At, FuelOf, Runs;
    forall o | o in s.cfg.items && o != it
      ensures YetOf(s, w', o) == YetOf(s, w, o)
    {
      NamesDiffer(s, w, o, it);
    }
  }

  lemma SettleBurns(s: Setup, w: World, k: nat)
    requires Underway(s, w) && Fenced(s, w) && k < |w.flight| && Next(s, w, Settle(k)) != w
    ensures var w', it := Next(s, w, Settle(k)), w.flight[k].job.item;
            && it.kind.Exhaustive?
            && FuelOf(s.cfg.limit, it.kind.space, At(w'.live, it.name))
               <= FuelOf(s.cfg.limit, it.kind.space, At(w.live, it.name)) - 1
            && forall name :: name != it.name ==> At(w'.live, name) == At(w.live, name)
  {
    hide ReplayOk, CoverOk, Account, FuelOf, WellPlanned, QuarantineIs, Runs;
    FlightCounts(s, w, k);
    JobHas(s, w, k);
    FuelBurns(s, w.live, w.flight[k].job, w.flight[k].leg.value);
  }

  lemma {:induction false} RunBurns(s: Setup, log: seq<Rec>, own: Option<Tree>, es: seq<Event>)
    requires LawfulStart(s, log, own) && OnlyExhaustive(s.cfg) && NoResume(es) && Moves(s, Boot(s, log, own), es)
    ensures Underway(s, After(s, log, own, es)) && Fenced(s, After(s, log, own, es))
    ensures Yet(s, After(s, log, own, es)) <= Yet(s, Boot(s, log, own)) + Losses(s.cfg, es) - |es|
  {
    hide Inv, Next, Yet, OnlyExhaustive, LoadItem, Recorded, CutLog, Fenced, ValidConfig;
    if es == [] {
      BootOk(s, log, own);
      BootIsFenced(s, log, own);
    } else {
      var n := |es| - 1;
      MovesBefore(s, Boot(s, log, own), es);
      RunBurns(s, log, own, es[..n]);
      var w := After(s, log, own, es[..n]);
      assert Next(s, w, es[n]) != w;
      ItemsDiffer(s, w);
      NextKeeps(s, w, es[n]);
      StepBurns(s, w, es[n]);
      StaysFenced(s, w, es[n]);
    }
  }

  /** Every item has as many records to take as it has jobs in flight. */
  lemma FuelLeft(s: Setup, w: World, it: Item)
    requires Underway(s, w) && it in s.cfg.items
    ensures YetOf(s, w, it) >= 0
  {
    hide ReplayOk, WellPlanned, Runs, Cut, Spare, AllSlices, FlightOk, OnlyExhaustive, FlightRuns;
    if Sliced(s.cfg, it) {
      assert CoverOk(s, w, it);
      CutIsShort(At(w.live, it.name).intervals, it.kind.space);
      if f :| f in w.flight && f.job.item.name == it.name {
        var k :| 0 <= k < |w.flight| && w.flight[k] == f;
        JobHas(s, w, k);
        SameItem(s.cfg, f.job.item, it);
        SliceCuts(s, w.live, f.job);
        CutIsShort(At(w.live, it.name).intervals + [(f.job.ask.lo, f.job.ask.hi)], it.kind.space);
      }
    }
  }

  /** Whatever the statuses: a run in which every step does something takes at most three
      steps for each slice of its items' spaces and for each failure they have before the
      sweep moves past, and two for each job it loses. */
  lemma RunEnds(s: Setup, log: seq<Rec>, own: Option<Tree>, es: seq<Event>)
    requires LawfulStart(s, log, own) && OnlyExhaustive(s.cfg) && NoResume(es) && Moves(s, Boot(s, log, own), es)
    ensures |es| <= 3 * Most(s) + Losses(s.cfg, es)
  {
    hide Moves, OnlyExhaustive, NoResume, LawfulStart, YetOf, Underway;
    RunBurns(s, log, own, es);
    var w, first := After(s, log, own, es), Boot(s, log, own);
    forall i | 0 <= i < |s.cfg.items|
      ensures YetOf(s, w, s.cfg.items[i]) >= 0
    {
      FuelLeft(s, w, s.cfg.items[i]);
    }
    SumNotNegative(seq(|s.cfg.items|, i requires 0 <= i < |s.cfg.items| => YetOf(s, w, s.cfg.items[i])));
    StartsFull(s, first);
  }

  lemma StartsFull(s: Setup, w: World)
    requires w.flight == []
    ensures Yet(s, w) <= 3 * Most(s)
  {
    hide FuelOf, MostOf, Runs;
    var n := |s.cfg.items|;
    var xs := seq(n, i requires 0 <= i < n =>
                    if Sliced(s.cfg, s.cfg.items[i]) then MostOf(s.cfg.limit, s.cfg.items[i].kind.space) else 0);
    var ys := seq(n, i requires 0 <= i < n => 3 * xs[i]);
    SumTriples(xs, ys);
    forall i | 0 <= i < n
      ensures YetOf(s, w, s.cfg.items[i]) <= ys[i] + 0
    {
      if Sliced(s.cfg, s.cfg.items[i]) {
        FuelFits(s.cfg.limit, s.cfg.items[i].kind.space, At(w.live, s.cfg.items[i].name));
      }
    }
    SumsUp(ys, seq(n, i requires 0 <= i < n => YetOf(s, w, s.cfg.items[i])), 0);
    assert xs == seq(|s.cfg.items|, i requires 0 <= i < |s.cfg.items| =>
                       if Sliced(s.cfg, s.cfg.items[i]) then MostOf(s.cfg.limit, s.cfg.items[i].kind.space) else 0);
    assert seq(n, i requires 0 <= i < n => YetOf(s, w, s.cfg.items[i]))
        == seq(|s.cfg.items|, i requires 0 <= i < |s.cfg.items| => YetOf(s, w, s.cfg.items[i]));
  }
}
