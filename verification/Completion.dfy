/** A campaign of exhaustive items whose slices all get a verdict ends, with every space
    covered, however the card's waves, the pool, crashes and resumes interleave. */
module Completion {
  import opened Wrappers
  import opened Intervals
  import opened Slices
  import opened Trees
  import opened Sweep
  import opened Campaign
  import opened Outcomes

  /** --sweep-items leaves the item in. */
  predicate Runs(cfg: Config, it: Item) { cfg.only == {} || it.name in cfg.only }

  ghost predicate OnlyExhaustive(cfg: Config) {
    forall it :: it in cfg.items && Runs(cfg, it) ==> it.kind.Exhaustive?
  }

  /** A slice that ends, ends with a verdict. */
  predicate Verdict(e: Event) { e.Finish? ==> e.status == Pass || e.status == Fail }

  predicate Verdicts(es: seq<Event>) {
    forall i | 0 <= i < |es| :: Verdict(es[i])
  }

  // ---- where nothing can run, all is covered --------------------------------

  /** Nothing disabled, nothing moved past. */
  predicate Clean(live: Live) {
    forall name | name in live :: !live[name].disabled && live[name].quarantine == []
  }

  predicate AllDone(log: seq<Rec>) {
    forall i | 0 <= i < |log| :: log[i].Sweep? ==> Done(log[i].leg)
  }

  predicate Fine(w: World) {
    && Clean(w.live) && AllDone(w.log)
    && forall i | 0 <= i < |w.flight| :: w.flight[i].leg.Some? ==> Done(w.flight[i].leg.value)
  }

  lemma {:induction false} DoneLegs(log: seq<Rec>, name: string)
    requires AllDone(log)
    ensures ReplayBad(LegsFor(log, name)) == 0 && ReplayFails(LegsFor(log, name)) == []
  {
    hide ReplayBad, ReplayFails;
    if log == [] {
      NoLegs(name);
    } else {
      var before, r := log[..|log| - 1], log[|log| - 1];
      DoneLegs(before, name);
      var legs := LegsFor(before, name);
      assert legs + [] == legs;
      if r.Sweep? { DoneLeg(legs, r.leg); }
    }
  }

  lemma DoneLeg(legs: seq<Leg>, leg: Leg)
    requires Done(leg)
    ensures ReplayBad(legs + [leg]) == 0 && ReplayFails(legs + [leg]) == ReplayFails(legs)
  {
    assert (legs + [leg])[..|legs|] == legs;
  }

  lemma NoLegs(name: string)
    ensures ReplayBad(LegsFor([], name)) == 0 && ReplayFails(LegsFor([], name)) == []
  {
  }

  lemma BootIsFine(s: Setup, log: seq<Rec>, own: Option<Tree>)
    requires s.cfg.limit >= 0 && AllDone(log)
    ensures Fine(Boot(s, log, own))
  {
    hide MineFor, LegsFor, ReplayBad, ReplayFails, ReplayIntervals, ReplayServed, ReplayCases, ReplaySkipped,
         ReplaySeedN, Judged;
    var live := Boot(s, log, own).live;
    forall name | name in live
      ensures !live[name].disabled && live[name].quarantine == []
    {
      DoneLegs(log, name);
    }
  }

  lemma NextIsFine(s: Setup, w: World, e: Event)
    requires Fine(w) && Verdict(e) && s.cfg.limit >= 0
    ensures Fine(Next(s, w, e))
  {
    hide Boot, PlanWave, Recorded, MayPlan, SeedsFit, FailsOf, Bump;
    if e.Resume? { BootIsFine(s, w.log, e.own); }
  }

  lemma {:induction false} RunIsFine(s: Setup, log: seq<Rec>, own: Option<Tree>, es: seq<Event>)
    requires s.cfg.limit >= 0 && AllDone(log) && Verdicts(es)
    ensures Fine(After(s, log, own, es))
  {
    hide Next, Fine, AllDone, Boot;
    if es == [] {
      BootIsFine(s, log, own);
    } else {
      RunIsFine(s, log, own, es[..|es| - 1]);
      assert Verdict(es[|es| - 1]);
      NextIsFine(s, After(s, log, own, es[..|es| - 1]), es[|es| - 1]);
    }
  }

  /** In every reachable state, an exhaustive item that cannot be planned though it is not
      in flight, and its slices have all had verdicts, is covered at every point. */
  lemma QuiescentIsCovered(s: Setup, log: seq<Rec>, own: Option<Tree>, es: seq<Event>, it: Item, x: int)
    requires LawfulStart(s, log, own) && AllDone(log) && Verdicts(es)
    requires it in s.cfg.items && Runs(s.cfg, it) && it.kind.Exhaustive? && 0 <= x < it.kind.space
    requires !Eligible(s.cfg, After(s, log, own, es).live, {}, it.reach, it)
    ensures In(At(After(s, log, own, es).live, it.name).intervals, x)
  {
    hide Run, Boot, LawfulStart;
    RunIsFine(s, log, own, es) by { StartLimit(s, log, own); }
    var st := At(After(s, log, own, es).live, it.name);
    assert !st.disabled && Behind(st) == st.intervals;
  }

  lemma StartLimit(s: Setup, log: seq<Rec>, own: Option<Tree>)
    requires LawfulStart(s, log, own)
    ensures ValidConfig(s.cfg) && s.cfg.limit >= 0
  {
  }

  // ---- while something can run, it is planned -------------------------------

  lemma {:induction false} WaveRuns(cfg: Config, live: Live, reach: Reach, units: seq<nat>, avoid: set<string>)
    ensures forall i :: 0 <= i < |PlanWave(cfg, live, reach, units, avoid)| ==>
              Runs(cfg, PlanWave(cfg, live, reach, units, avoid)[i].item)
    ensures PlanWave(cfg, live, reach, units, avoid) == []
       <==> units == [] || forall i :: 0 <= i < |cfg.items| ==> !Eligible(cfg, live, avoid, reach, cfg.items[i])
    decreases |units|
  {
    hide NextAsk, Load;
    if units != [] && Pick(cfg, live, avoid, reach, |cfg.items|).Some? {
      var it := cfg.items[Pick(cfg, live, avoid, reach, |cfg.items|).value];
      WaveRuns(cfg, live, reach, units[1..], avoid + {it.name});
    }
  }

  /** The slices of exhaustive items ask for no seed. */
  lemma NoDraws(s: Setup, w: World, reach: Reach, units: seq<nat>, avoid: set<string>)
    requires OnlyExhaustive(s.cfg) && forall i :: 0 <= i < |units| ==> units[i] > 0
    ensures SeedsFit(PlanWave(s.cfg, w.live, reach, units, avoid))
  {
    hide PlanWave, Eligible, Runs;
    WaveRuns(s.cfg, w.live, reach, units, avoid);
    WavePlanned(s.cfg, w.live, reach, units, avoid);
    var wave := PlanWave(s.cfg, w.live, reach, units, avoid);
    forall i | 0 <= i < |wave|
      ensures !wave[i].ask.Draw?
    {
      assert WellPlanned(s.cfg, w.live, wave[i]);
    }
  }

  /** Planning adds a job exactly where the card's wave, or a worker, may be planned and
      some item it may take can run. */
  lemma PlanMoves(s: Setup, w: World, reach: Reach, units: seq<nat>)
    requires OnlyExhaustive(s.cfg)
    ensures var avoid := if reach == Tile then {} else Busy(w.flight);
            var some := exists i :: 0 <= i < |s.cfg.items| && Eligible(s.cfg, w.live, avoid, reach, s.cfg.items[i]);
            Next(s, w, Plan(reach, units)) != w <==> MayPlan(w, reach, units) && units != [] && some
  {
    hide PlanWave, Eligible, SeedsFit, OnlyExhaustive;
    var avoid := if reach == Tile then {} else Busy(w.flight);
    WaveRuns(s.cfg, w.live, reach, units, avoid);
    if MayPlan(w, reach, units) {
      NoDraws(s, w, reach, units, avoid);
      var wave := PlanWave(s.cfg, w.live, reach, units, avoid);
      assert |(w.flight + Fly(wave))| == |w.flight| + |wave|;
      if wave == [] { assert w.flight + Fly(wave) == w.flight; }
    }
  }

  /** No step of a run - a plan by card or pool, an end with a verdict, an accounting -
      does anything. */
  ghost predicate Stuck(s: Setup, w: World) {
    forall e: Event :: Verdict(e) && !e.Abandon? && !e.Resume? ==> Next(s, w, e) == w
  }

  /** A run is stuck only where it is done: nothing in flight, every item covered. */
  lemma StuckIsCovered(s: Setup, log: seq<Rec>, own: Option<Tree>, es: seq<Event>, it: Item, x: int)
    requires LawfulStart(s, log, own) && AllDone(log) && Verdicts(es) && OnlyExhaustive(s.cfg)
    requires Stuck(s, After(s, log, own, es))
    requires it in s.cfg.items && Runs(s.cfg, it) && 0 <= x < it.kind.space
    ensures After(s, log, own, es).flight == []
    ensures In(At(After(s, log, own, es).live, it.name).intervals, x)
  {
    hide After, LawfulStart, Verdicts, AllDone, Eligible, Next;
    var w := After(s, log, own, es);
    StuckIsQuiet(s, w);
    StuckIsIdle(s, w, it);
    QuiescentIsCovered(s, log, own, es, it, x);
  }

  lemma StuckIsQuiet(s: Setup, w: World)
    requires Stuck(s, w)
    ensures w.flight == []
  {
    hide Next;
    assert Next(s, w, Settle(0)) == w && Next(s, w, Finish(0, Pass, 0, 0)) == w;
    if w.flight != [] { FlightMoves(s, w); }
  }

  lemma FlightMoves(s: Setup, w: World)
    requires w.flight != []
    ensures Next(s, w, Settle(0)) != w || Next(s, w, Finish(0, Pass, 0, 0)) != w
  {
    hide PlanWave, Account, Boot, Recorded, LegOf;
    if w.flight[0].leg.Some? {
      assert |Next(s, w, Settle(0)).flight| < |w.flight|;
    } else {
      assert |Next(s, w, Finish(0, Pass, 0, 0)).log| > |w.log|;
    }
  }

  lemma StuckIsIdle(s: Setup, w: World, it: Item)
    requires Stuck(s, w) && OnlyExhaustive(s.cfg) && it in s.cfg.items && w.flight == []
    ensures !Eligible(s.cfg, w.live, {}, it.reach, it)
  {
    hide Next, Eligible, OnlyExhaustive;
    var e := Event.Plan(it.reach, [1]);
    assert Next(s, w, e) == w;
    PlanMoves(s, w, it.reach, [1]);
    assert Busy(w.flight) == {};
    var i :| 0 <= i < |s.cfg.items| && s.cfg.items[i] == it;
    assert MayPlan(w, it.reach, [1]);
  }

  // ---- and it cannot go on for ever -----------------------------------------

  /** Of one class throughout: what the campaign began as and every run that resumed it. */
  ghost predicate SameClass(s: Setup, own: Option<Tree>, now: Option<Tree>) {
    forall it :: it in s.cfg.items ==>
      var c, d := SeenClass(s, own, it.reach), SeenClass(s, now, it.reach);
      Known(c) && Known(d) && c.key == d.key
  }

  ghost predicate InClass(s: Setup, own: Option<Tree>, es: seq<Event>) {
    SameClass(s, own, own) && forall i :: 0 <= i < |es| ==> es[i].Resume? ==> SameClass(s, own, es[i].own)
  }

  /** An exhaustive item the campaign runs. */
  predicate Sliced(cfg: Config, it: Item) { Runs(cfg, it) && it.kind.Exhaustive? }

  /** The completed slices the file holds of an item in the campaign's class. */
  function Cells(s: Setup, log: seq<Rec>, own: Option<Tree>, it: Item): nat {
    if Sliced(s.cfg, it) then |ReplayIntervals(MineFor(s, log, it, SeenClass(s, own, it.reach)))| else 0
  }

  /** How many more there could be: its space's, less those. */
  function LeftOf(s: Setup, log: seq<Rec>, own: Option<Tree>, it: Item): int {
    if Sliced(s.cfg, it) then it.kind.space - Cells(s, log, own, it) else 0
  }

  function SumOf(xs: seq<int>): int {
    if xs == [] then 0 else xs[0] + SumOf(xs[1..])
  }

  function Left(s: Setup, log: seq<Rec>, own: Option<Tree>): int {
    SumOf(seq(|s.cfg.items|, i requires 0 <= i < |s.cfg.items| => LeftOf(s, log, own, s.cfg.items[i])))
  }

  lemma {:induction false} SumsDown(xs: seq<int>, ys: seq<int>, k: nat, d: int)
    requires |xs| == |ys| && k < |xs| && ys[k] <= xs[k] - d
    requires forall i :: 0 <= i < |xs| && i != k ==> ys[i] <= xs[i]
    ensures SumOf(ys) <= SumOf(xs) - d
  {
    if k == 0 {
      SumsUp(xs[1..], ys[1..], 0);
    } else {
      SumsDown(xs[1..], ys[1..], k - 1, d);
    }
  }

  lemma {:induction false} SumsUp(xs: seq<int>, ys: seq<int>, d: nat)
    requires |xs| == |ys| && forall i :: 0 <= i < |xs| ==> ys[i] <= xs[i] + d
    ensures SumOf(ys) <= SumOf(xs) + d * |xs|
  {
    if xs != [] {
      SumsUp(xs[1..], ys[1..], d);
      assert ys[0] <= xs[0] + d && d * |xs| == d * |xs[1..]| + d;
    }
  }

  lemma {:induction false} SumNotNegative(xs: seq<int>)
    requires forall i :: 0 <= i < |xs| ==> xs[i] >= 0
    ensures SumOf(xs) >= 0
  {
    if xs != [] {
      assert xs[0] >= 0;
      SumNotNegative(xs[1..]);
    }
  }

  lemma {:induction false} SumTriples(xs: seq<int>, ys: seq<int>)
    requires |xs| == |ys| && forall i :: 0 <= i < |xs| ==> ys[i] == 3 * xs[i]
    ensures SumOf(ys) == 3 * SumOf(xs)
  {
    if xs != [] {
      assert ys[0] == 3 * xs[0];
      SumTriples(xs[1..], ys[1..]);
    }
  }

  /** Where an item stands: a job without a record, a record not accounted, or neither. */
  function Stage(fs: seq<Flight>, name: string): int {
    if exists f | f in fs :: f.job.item.name == name && f.leg.None? then -1
    else if exists f | f in fs :: f.job.item.name == name && f.leg.Some? then 1 else 0
  }

  /** Steps an item has yet to give. */
  function StepsOf(s: Setup, w: World, own: Option<Tree>, it: Item): int {
    3 * LeftOf(s, w.log, own, it) + if Sliced(s.cfg, it) then Stage(w.flight, it.name) else 0
  }

  function Steps(s: Setup, w: World, own: Option<Tree>): int {
    SumOf(seq(|s.cfg.items|, i requires 0 <= i < |s.cfg.items| => StepsOf(s, w, own, s.cfg.items[i])))
  }

  ghost predicate FlightRuns(s: Setup, w: World) {
    forall i :: 0 <= i < |w.flight| ==> Runs(s.cfg, w.flight[i].job.item)
  }

  /** A campaign of exhaustive items. */
  ghost predicate Underway(s: Setup, w: World) {
    Inv(s, w) && OnlyExhaustive(s.cfg) && FlightRuns(s, w)
  }

  /** ... in one class. */
  ghost predicate OnCourse(s: Setup, own: Option<Tree>, w: World) {
    Underway(s, w) && SameClass(s, own, own) && SameClass(s, own, w.own)
  }

  lemma StepsDown(s: Setup, w: World, w': World, own: Option<Tree>, it: Item, d: int)
    requires it in s.cfg.items && StepsOf(s, w', own, it) <= StepsOf(s, w, own, it) - d
    requires forall o :: o in s.cfg.items && o != it ==> StepsOf(s, w', own, o) <= StepsOf(s, w, own, o)
    requires forall i, j :: 0 <= i < j < |s.cfg.items| ==> s.cfg.items[i] != s.cfg.items[j]
    ensures Steps(s, w', own) <= Steps(s, w, own) - d
  {
    hide StepsOf;
    var k :| 0 <= k < |s.cfg.items| && s.cfg.items[k] == it;
    SumsDown(seq(|s.cfg.items|, i requires 0 <= i < |s.cfg.items| => StepsOf(s, w, own, s.cfg.items[i])),
             seq(|s.cfg.items|, i requires 0 <= i < |s.cfg.items| => StepsOf(s, w', own, s.cfg.items[i])), k, d);
  }

  lemma StageAt(fs: seq<Flight>, k: nat)
    requires k < |fs| && forall i, j :: 0 <= i < j < |fs| ==> fs[i].job.item.name != fs[j].job.item.name
    ensures Stage(fs, fs[k].job.item.name) == if fs[k].leg.None? then -1 else 1
  {
    assert fs[k] in fs;
    forall f | f in fs && f.job.item.name == fs[k].job.item.name
      ensures f == fs[k]
    {
      var i :| 0 <= i < |fs| && fs[i] == f;
    }
  }

  lemma StageSame(fs: seq<Flight>, gs: seq<Flight>, name: string)
    requires forall f: Flight :: f.job.item.name == name ==> (f in fs <==> f in gs)
    ensures Stage(fs, name) == Stage(gs, name)
  {
  }

  lemma StageOfNone(fs: seq<Flight>, name: string)
    requires forall f :: f in fs ==> f.job.item.name != name
    ensures Stage(fs, name) == 0
  {
  }

  lemma ItemsDiffer(s: Setup, w: World)
    requires Inv(s, w)
    ensures forall i, j :: 0 <= i < j < |s.cfg.items| ==> s.cfg.items[i] != s.cfg.items[j]
    ensures forall i, j :: 0 <= i < j < |w.flight| ==> w.flight[i].job.item.name != w.flight[j].job.item.name
    ensures forall i :: 0 <= i < |w.flight| ==> w.flight[i].job.item in s.cfg.items
  {
    hide ReplayOk, CoverOk;
    forall i | 0 <= i < |w.flight|
      ensures w.flight[i].job.item in s.cfg.items
    {
      assert JobOk(s, w, w.flight[i]);
    }
  }

  /** The jobs of a run under way are of items it counts. */
  lemma FlightCounts(s: Setup, w: World, k: nat)
    requires Underway(s, w) && k < |w.flight|
    ensures Sliced(s.cfg, w.flight[k].job.item) && w.flight[k].job.item in s.cfg.items
  {
    hide ReplayOk, CoverOk;
    assert JobOk(s, w, w.flight[k]);
  }

  lemma LeftQuiet(s: Setup, log: seq<Rec>, r: Rec, own: Option<Tree>, it: Item)
    requires r.Sweep? ==> r.leg.item != it.name
    ensures LeftOf(s, log + [r], own, it) == LeftOf(s, log, own, it)
  {
    hide MineFor, ReplayIntervals;
    LogQuiet(s, log, r, it, SeenClass(s, own, it.reach));
  }

  lemma FlyNone(fs: seq<Flight>)
    ensures fs + Fly([]) == fs
  {
  }

  /** A wave planned: one item at least is taken up, and none is put down. */
  lemma PlanStages(s: Setup, w: World, reach: Reach, units: seq<nat>) returns (it: Item)
    requires Underway(s, w) && Next(s, w, Plan(reach, units)) != w
    ensures var w' := Next(s, w, Plan(reach, units));
            && FlightRuns(s, w') && w' == w.(flight := w'.flight)
            && Stage(w.flight, it.name) == 0 && Stage(w'.flight, it.name) == -1
            && forall name :: Stage(w'.flight, name) == Stage(w.flight, name)
                              || (Stage(w.flight, name) == 0 && Stage(w'.flight, name) == -1)
    ensures it in s.cfg.items && Sliced(s.cfg, it)
  {
    hide Inv, PlanWave, SeedsFit, Runs, Stage, OnlyExhaustive, Pick;
    var w' := Next(s, w, Plan(reach, units));
    var avoid := if reach == Tile then {} else Busy(w.flight);
    var wave := PlanWave(s.cfg, w.live, reach, units, avoid);
    assert w' == w.(flight := w.flight + Fly(wave));
    WaveRuns(s.cfg, w.live, reach, units, avoid);
    FlyNone(w.flight);
    var n := |w.flight|;
    PlanKeeps(s, w, reach, units);
    ItemsDiffer(s, w');
    ItemsDiffer(s, w);
    it := wave[0].item;
    CountsWave(s, w, reach, units, avoid, 0);
    assert forall i | 0 <= i < |wave| :: w'.flight[n + i].job == wave[i];
    assert forall i | 0 <= i < n :: w'.flight[i] == w.flight[i];
    StageGrows(w.flight, wave, it.name);
    forall name
      ensures Stage(w'.flight, name) == Stage(w.flight, name)
           || (Stage(w.flight, name) == 0 && Stage(w'.flight, name) == -1)
    {
      StageGrows(w.flight, wave, name);
    }
  }

  lemma PlanCosts(s: Setup, own: Option<Tree>, w: World, reach: Reach, units: seq<nat>)
    requires OnCourse(s, own, w) && Next(s, w, Plan(reach, units)) != w
    ensures FlightRuns(s, Next(s, w, Plan(reach, units)))
    ensures Steps(s, Next(s, w, Plan(reach, units)), own) <= Steps(s, w, own) - 1
  {
    hide Inv, Next, Runs, Steps, LeftOf, Stage, OnlyExhaustive, SameClass, FlightRuns;
    var it := PlanStages(s, w, reach, units);
    ItemsDiffer(s, w);
    StepsDown(s, w, Next(s, w, Plan(reach, units)), own, it, 1);
  }

  lemma CountsWave(s: Setup, w: World, reach: Reach, units: seq<nat>, avoid: set<string>, i: nat)
    requires OnlyExhaustive(s.cfg) && (forall i :: 0 <= i < |units| ==> units[i] > 0)
    requires i < |PlanWave(s.cfg, w.live, reach, units, avoid)|
    ensures Sliced(s.cfg, PlanWave(s.cfg, w.live, reach, units, avoid)[i].item)
  {
    hide PlanWave, Runs;
    WaveRuns(s.cfg, w.live, reach, units, avoid);
    WavePlanned(s.cfg, w.live, reach, units, avoid);
    assert WellPlanned(s.cfg, w.live, PlanWave(s.cfg, w.live, reach, units, avoid)[i]);
  }

  /** New jobs take up their own items and no other. */
  lemma StageGrows(fs: seq<Flight>, wave: seq<Job>, name: string)
    requires forall i, j :: 0 <= i < j < |fs + Fly(wave)| ==>
               (fs + Fly(wave))[i].job.item.name != (fs + Fly(wave))[j].job.item.name
    ensures (exists i :: 0 <= i < |wave| && wave[i].item.name == name) ==>
              Stage(fs, name) == 0 && Stage(fs + Fly(wave), name) == -1
    ensures (forall i :: 0 <= i < |wave| ==> wave[i].item.name != name) ==>
              Stage(fs + Fly(wave), name) == Stage(fs, name)
  {
    hide Stage;
    var gs, n := fs + Fly(wave), |fs|;
    assert forall i | 0 <= i < |wave| :: gs[n + i] == Flight(wave[i], None);
    assert forall i | 0 <= i < n :: gs[i] == fs[i];
    if i :| 0 <= i < |wave| && wave[i].item.name == name {
      StageAt(gs, n + i);
      StageOfNone(fs, name);
    } else {
      assert forall f: Flight :: f in gs <==> f in fs || f in Fly(wave);
      StageSame(gs, fs, name);
    }
  }

  /** A record appended: its item alone moves on. */
  lemma FinishStages(s: Setup, w: World, e: Event)
    requires Underway(s, w) && e.Finish? && Next(s, w, e) != w
    ensures e.k < |w.flight| && w.flight[e.k].leg.None?
    ensures var w', it := Next(s, w, e), w.flight[e.k].job.item;
            && FlightRuns(s, w') && it in s.cfg.items && Sliced(s.cfg, it)
            && Stage(w.flight, it.name) == -1 && Stage(w'.flight, it.name) == 1
            && forall name :: name != it.name ==> Stage(w'.flight, name) == Stage(w.flight, name)
  {
    hide Inv, Runs, Stage, OnlyExhaustive;
    var w', k := Next(s, w, e), e.k;
    ItemsDiffer(s, w);
    FlightCounts(s, w, k);
    StageAt(w.flight, k);
    StageAt(w'.flight, k);
    forall name | name != w.flight[k].job.item.name
      ensures Stage(w'.flight, name) == Stage(w.flight, name)
    {
      SetSame(w.flight, k, w'.flight[k], name);
    }
  }

  lemma FinishCosts(s: Setup, own: Option<Tree>, w: World, e: Event)
    requires OnCourse(s, own, w) && e.Finish? && Verdict(e) && Next(s, w, e) != w
    ensures FlightRuns(s, Next(s, w, e))
    ensures Steps(s, Next(s, w, e), own) <= Steps(s, w, own) - 1
  {
    hide Inv, Runs, Steps, LeftOf, Stage, OnlyExhaustive, SameClass;
    FinishStages(s, w, e);
    var w', job := Next(s, w, e), w.flight[e.k].job;
    var it, leg := job.item, LegOf(s, job, e.status, e.cases, e.skipped);
    ItemsDiffer(s, w);
    LeftShrinks(s, own, w, e.k, leg);
    forall o | o in s.cfg.items && o != it
      ensures StepsOf(s, w', own, o) <= StepsOf(s, w, own, o)
    {
      NamesDiffer(s, w, o, it);
      LeftQuiet(s, w.log, Sweep(leg), own, o);
    }
    StepsDown(s, w, w', own, it, 1);
  }

  lemma SetSame(fs: seq<Flight>, k: nat, f: Flight, name: string)
    requires k < |fs| && fs[k].job.item.name != name && f.job.item.name != name
    ensures Stage(fs[k := f], name) == Stage(fs, name)
  {
    hide Stage;
    var gs := fs[k := f];
    forall g: Flight | g.job.item.name == name
      ensures g in fs <==> g in gs
    {
      if g in fs {
        var i :| 0 <= i < |fs| && fs[i] == g;
        assert gs[i] == g;
      }
    }
    StageSame(gs, fs, name);
  }

  lemma NamesDiffer(s: Setup, w: World, a: Item, b: Item)
    requires Inv(s, w) && a in s.cfg.items && b in s.cfg.items && a != b
    ensures a.name != b.name
  {
  }

  /** A record appended: one fewer left of its item where the slice completed. */
  lemma LeftShrinks(s: Setup, own: Option<Tree>, w: World, k: nat, leg: Leg)
    requires Inv(s, w) && SameClass(s, own, w.own) && k < |w.flight| && w.flight[k].leg.None?
    requires leg == LegOf(s, w.flight[k].job, leg.status, leg.cases, leg.skipped)
    ensures var it := w.flight[k].job.item;
            LeftOf(s, w.log + [Sweep(leg)], own, it)
              == LeftOf(s, w.log, own, it) - if Done(leg) && Sliced(s.cfg, it) then 1 else 0
  {
    hide ReplayOk, CoverOk, SeenClass, ReplayIntervals, MineFor, Recorded, ValidConfig, Runs, LastTree;
    var it := w.flight[k].job.item;
    JobHas(s, w, k);
    NamesNotEmpty(s.cfg, it);
    var c := SeenClass(s, own, it.reach);
    LogLeg(s, w.log, leg, it, c);
    ReplayCovers(MineFor(s, w.log, it, c), leg);
  }

  /** A job over, accounted or dropped: its item alone is put down. */
  lemma DropStages(s: Setup, w: World, e: Event)
    requires Underway(s, w) && (e.Settle? || e.Abandon?) && Next(s, w, e) != w
    ensures e.k < |w.flight|
    ensures var w', it := Next(s, w, e), w.flight[e.k].job.item;
            && FlightRuns(s, w') && it in s.cfg.items && Sliced(s.cfg, it) && w'.log == w.log
            && Stage(w.flight, it.name) == (if e.Settle? then 1 else -1) && Stage(w'.flight, it.name) == 0
            && forall name :: name != it.name ==> Stage(w'.flight, name) == Stage(w.flight, name)
  {
    hide Inv, Runs, Stage, OnlyExhaustive, Account;
    var w', k := Next(s, w, e), e.k;
    var it := w.flight[k].job.item;
    ItemsDiffer(s, w);
    FlightCounts(s, w, k);
    StageAt(w.flight, k);
    forall f: Flight
      ensures f in Remove(w.flight, k) <==> f in w.flight && f.job.item.name != it.name
    {
      RemoveHas(w.flight, k, f);
    }
    StageOfNone(w'.flight, it.name);
    forall name | name != it.name
      ensures Stage(w'.flight, name) == Stage(w.flight, name)
    {
      StageSame(w'.flight, w.flight, name);
    }
  }

  lemma DropCosts(s: Setup, own: Option<Tree>, w: World, e: Event)
    requires OnCourse(s, own, w) && (e.Settle? || e.Abandon?) && Next(s, w, e) != w
    ensures FlightRuns(s, Next(s, w, e))
    ensures Steps(s, Next(s, w, e), own) <= Steps(s, w, own) + if e.Settle? then -1 else 1
  {
    hide Inv, Next, Runs, Steps, LeftOf, Stage, OnlyExhaustive, SameClass;
    DropStages(s, w, e);
    var w', it := Next(s, w, e), w.flight[e.k].job.item;
    ItemsDiffer(s, w);
    forall o | o in s.cfg.items && o != it
      ensures StepsOf(s, w', own, o) <= StepsOf(s, w, own, o)
    {
      NamesDiffer(s, w, o, it);
    }
    StepsDown(s, w, w', own, it, if e.Settle? then 1 else -1);
  }

  lemma RemoveHas(fs: seq<Flight>, k: nat, f: Flight)
    requires k < |fs| && forall i, j :: 0 <= i < j < |fs| ==> fs[i].job.item.name != fs[j].job.item.name
    ensures f in Remove(fs, k) <==> f in fs && f.job.item.name != fs[k].job.item.name
  {
    var gs := Remove(fs, k);
    assert forall i | 0 <= i < k :: gs[i] == fs[i];
    assert forall i | k <= i < |gs| :: gs[i] == fs[i + 1];
    if f in fs && f.job.item.name != fs[k].job.item.name {
      var i :| 0 <= i < |fs| && fs[i] == f;
      assert gs[if i < k then i else i - 1] == f;
    }
  }

  lemma ResumeCosts(s: Setup, own: Option<Tree>, w: World, next: Option<Tree>)
    requires OnCourse(s, own, w)
    ensures Steps(s, Boot(s, w.log, next), own) <= Steps(s, w, own) + |s.cfg.items|
  {
    hide Inv, Runs, LeftOf, OnlyExhaustive, SameClass, LoadItem;
    var w' := Boot(s, w.log, next);
    forall i | 0 <= i < |s.cfg.items|
      ensures StepsOf(s, w', own, s.cfg.items[i]) <= StepsOf(s, w, own, s.cfg.items[i]) + 1
    {
      LeftQuiet(s, w.log, RunStart(next), own, s.cfg.items[i]);
    }
    SumsUp(seq(|s.cfg.items|, i requires 0 <= i < |s.cfg.items| => StepsOf(s, w, own, s.cfg.items[i])),
           seq(|s.cfg.items|, i requires 0 <= i < |s.cfg.items| => StepsOf(s, w', own, s.cfg.items[i])), 1);
  }

  lemma LeftFits(s: Setup, own: Option<Tree>, w: World, it: Item)
    requires Inv(s, w) && it in s.cfg.items
    ensures LeftOf(s, w.log, own, it) >= 0
  {
    hide ReplayOk, SeenClass, ReplayIntervals, MineFor, ValidConfig, Runs, Cut, FlightOk;
    if Sliced(s.cfg, it) {
      assert CoverOk(s, w, it);
      CutIsShort(ReplayIntervals(MineFor(s, w.log, it, SeenClass(s, own, it.reach))), it.kind.space);
    }
  }

  /** Every item keeps room for what is in flight of it. */
  lemma RoomLeft(s: Setup, own: Option<Tree>, w: World, it: Item)
    requires OnCourse(s, own, w) && it in s.cfg.items
    ensures StepsOf(s, w, own, it) >= 0
  {
    hide Inv, SeenClass, ReplayIntervals, MineFor, Runs, FlightRuns, OnlyExhaustive, SameClass;
    LeftFits(s, own, w, it);
    if Sliced(s.cfg, it) {
      if exists f | f in w.flight :: f.job.item.name == it.name && f.leg.None? {
        var f :| f in w.flight && f.job.item.name == it.name && f.leg.None?;
        var k :| 0 <= k < |w.flight| && w.flight[k] == f;
        FlyingHasRoom(s, own, w, it, k);
      }
    }
  }

  lemma FlyingHasRoom(s: Setup, own: Option<Tree>, w: World, it: Item, k: nat)
    requires OnCourse(s, own, w) && it in s.cfg.items && it.kind.Exhaustive?
    requires k < |w.flight| && w.flight[k].job.item.name == it.name && w.flight[k].leg.None?
    ensures |ReplayIntervals(MineFor(s, w.log, it, SeenClass(s, own, it.reach)))| < it.kind.space
  {
    hide ReplayOk, SeenClass, ReplayIntervals, MineFor, ValidConfig, Runs, Cut, FlightOk, FlightRuns, OnlyExhaustive,
         WellPlanned, Recorded;
    JobHas(s, w, k);
    var job := w.flight[k].job;
    SameItem(s.cfg, job.item, it);
    assert ReplayOk(s, w, it) && CoverOk(s, w, it);
    RecordedHas(s, w.own, it);
    CoverIsLive(s, w, it);
    MineByKey(s, w.log, it, SeenClass(s, own, it.reach), SeenClass(s, w.own, it.reach));
    SliceCuts(s, w.live, job);
    CutIsShort(At(w.live, it.name).intervals + [(job.ask.lo, job.ask.hi)], it.kind.space);
  }

  /** What a lost job, and a lost run, can give back: the step that lost it apart, the
      planning of one job, and of one an item. */
  function Loss(cfg: Config, e: Event): nat {
    match e
    case Abandon(_) => 2
    case Resume(_) => 1 + |cfg.items|
    case _ => 0
  }

  function Losses(cfg: Config, es: seq<Event>): nat {
    if es == [] then 0 else Losses(cfg, es[..|es| - 1]) + Loss(cfg, es[|es| - 1])
  }

  /** Every step of the run does something. */
  ghost predicate Moves(s: Setup, w: World, es: seq<Event>) {
    forall n :: 0 <= n < |es| ==> Next(s, Run(s, w, es[..n]), es[n]) != Run(s, w, es[..n])
  }

  lemma StepCosts(s: Setup, own: Option<Tree>, w: World, e: Event)
    requires OnCourse(s, own, w) && Verdict(e) && (e.Resume? ==> SameClass(s, own, e.own)) && Next(s, w, e) != w
    ensures OnCourse(s, own, Next(s, w, e))
    ensures Steps(s, Next(s, w, e), own) <= Steps(s, w, own) - 1 + Loss(s.cfg, e)
  {
    hide Inv, Steps, OnlyExhaustive, SameClass, PlanWave, Account, SeedsFit, MayPlan, LoadItem, LegOf, Runs;
    NextKeeps(s, w, e);
    match e
    case Plan(reach, units) => PlanCosts(s, own, w, reach, units);
    case Finish(_, _, _, _) => FinishCosts(s, own, w, e);
    case Settle(_) => DropCosts(s, own, w, e);
    case Abandon(_) => DropCosts(s, own, w, e);
    case Resume(next) => ResumeCosts(s, own, w, next);
  }

  lemma {:induction false} RunCosts(s: Setup, log: seq<Rec>, own: Option<Tree>, es: seq<Event>)
    requires LawfulStart(s, log, own) && OnlyExhaustive(s.cfg) && InClass(s, own, es) && Verdicts(es)
    requires Moves(s, Boot(s, log, own), es)
    ensures OnCourse(s, own, After(s, log, own, es))
    ensures Steps(s, After(s, log, own, es), own) <= 3 * Left(s, log, own) + Losses(s.cfg, es) - |es|
  {
    hide Inv, Next, Steps, OnlyExhaustive, SameClass, LoadItem, Recorded, CutLog, Left;
    if es == [] {
      BootCosts(s, log, own);
    } else {
      var n := |es| - 1;
      MovesBefore(s, Boot(s, log, own), es);
      RunCosts(s, log, own, es[..n]);
      assert Verdict(es[n]) && (es[n].Resume? ==> SameClass(s, own, es[n].own));
      assert Next(s, Run(s, Boot(s, log, own), es[..n]), es[n]) != Run(s, Boot(s, log, own), es[..n]);
      StepCosts(s, own, After(s, log, own, es[..n]), es[n]);
    }
  }

  lemma MovesBefore(s: Setup, w: World, es: seq<Event>)
    requires Moves(s, w, es) && es != []
    ensures Moves(s, w, es[..|es| - 1])
  {
    hide Next, Run;
    var n := |es| - 1;
    forall m | 0 <= m < n
      ensures Next(s, Run(s, w, es[..n][..m]), es[..n][m]) != Run(s, w, es[..n][..m])
    {
      assert es[..n][..m] == es[..m];
      assert Next(s, Run(s, w, es[..m]), es[m]) != Run(s, w, es[..m]);
    }
  }

  lemma BootCosts(s: Setup, log: seq<Rec>, own: Option<Tree>)
    requires LawfulStart(s, log, own) && OnlyExhaustive(s.cfg) && SameClass(s, own, own)
    ensures OnCourse(s, own, Boot(s, log, own))
    ensures Steps(s, Boot(s, log, own), own) == 3 * Left(s, log, own)
  {
    hide LoadItem, Recorded, CutLog, LeftOf, OnlyExhaustive, Inv, ValidConfig;
    BootOk(s, log, own);
    var w := Boot(s, log, own);
    var xs := seq(|s.cfg.items|, i requires 0 <= i < |s.cfg.items| => LeftOf(s, log, own, s.cfg.items[i]));
    var ys := seq(|s.cfg.items|, i requires 0 <= i < |s.cfg.items| => StepsOf(s, w, own, s.cfg.items[i]));
    forall i | 0 <= i < |s.cfg.items|
      ensures ys[i] == 3 * xs[i]
    {
      LeftQuiet(s, log, RunStart(own), own, s.cfg.items[i]);
    }
    SumTriples(xs, ys);
  }

  /** However waves, workers, crashes and resumes interleave: where every slice gets a
      verdict and every step does something, a campaign of exhaustive items in one class
      takes at most three steps for each slice that fits what is left of their spaces, and
      for each lost job or run what had been planned of it. */
  lemma CampaignEnds(s: Setup, log: seq<Rec>, own: Option<Tree>, es: seq<Event>)
    requires LawfulStart(s, log, own) && OnlyExhaustive(s.cfg) && InClass(s, own, es) && Verdicts(es)
    requires Moves(s, Boot(s, log, own), es)
    ensures |es| <= 3 * Left(s, log, own) + Losses(s.cfg, es)
  {
    hide Moves, OnlyExhaustive, InClass, Verdicts, LawfulStart, StepsOf, OnCourse;
    RunCosts(s, log, own, es);
    var w := After(s, log, own, es);
    forall i | 0 <= i < |s.cfg.items|
      ensures StepsOf(s, w, own, s.cfg.items[i]) >= 0
    {
      RoomLeft(s, own, w, s.cfg.items[i]);
    }
    SumNotNegative(seq(|s.cfg.items|, i requires 0 <= i < |s.cfg.items| => StepsOf(s, w, own, s.cfg.items[i])));
  }

  /** The step completes a slice the campaign counts. */
  ghost predicate Completes(s: Setup, w: World, e: Event) {
    && e.Finish? && (e.status == Pass || e.status == Fail)
    && e.k < |w.flight| && w.flight[e.k].leg.None? && Sliced(s.cfg, w.flight[e.k].job.item)
  }

  ghost function Completions(s: Setup, w: World, es: seq<Event>): nat {
    if es == [] then 0
    else
      var before := es[..|es| - 1];
      Completions(s, w, before) + if Completes(s, Run(s, w, before), es[|es| - 1]) then 1 else 0
  }

  lemma LeftAfter(s: Setup, own: Option<Tree>, w: World, e: Event)
    requires Inv(s, w) && SameClass(s, own, w.own)
    ensures Left(s, Next(s, w, e).log, own) <= Left(s, w.log, own) - if Completes(s, w, e) then 1 else 0
  {
    hide Inv, LeftOf, SameClass, PlanWave, SeedsFit, MayPlan, Account, LoadItem, Recorded, LegOf;
    var xs := seq(|s.cfg.items|, i requires 0 <= i < |s.cfg.items| => LeftOf(s, w.log, own, s.cfg.items[i]));
    var log := Next(s, w, e).log;
    var ys := seq(|s.cfg.items|, i requires 0 <= i < |s.cfg.items| => LeftOf(s, log, own, s.cfg.items[i]));
    match e
    case Resume(next) =>
      forall i | 0 <= i < |s.cfg.items|
        ensures ys[i] <= xs[i]
      {
        LeftQuiet(s, w.log, RunStart(next), own, s.cfg.items[i]);
      }
      SumsUp(xs, ys, 0);
    case Finish(k, status, cases, skipped) =>
      if k < |w.flight| && w.flight[k].leg.None? && status != Skipped {
        var it, leg := w.flight[k].job.item, LegOf(s, w.flight[k].job, status, cases, skipped);
        ItemsDiffer(s, w);
        LegIs(s, w.flight[k].job, status, cases, skipped);
        LeftShrinks(s, own, w, k, leg);
        var n :| 0 <= n < |s.cfg.items| && s.cfg.items[n] == it;
        forall i | 0 <= i < |s.cfg.items| && i != n
          ensures ys[i] <= xs[i]
        {
          NamesDiffer(s, w, s.cfg.items[i], it);
          LeftQuiet(s, w.log, Sweep(leg), own, s.cfg.items[i]);
        }
        SumsDown(xs, ys, n, if Completes(s, w, e) then 1 else 0);
      }
    case _ =>
  }

  lemma LegIs(s: Setup, job: Job, status: Status, cases: nat, skipped: nat)
    ensures var leg := LegOf(s, job, status, cases, skipped);
            && leg == LegOf(s, job, leg.status, leg.cases, leg.skipped)
            && leg.item == job.item.name && leg.status == status
  {
  }

  lemma {:induction false} CompletionsLeave(s: Setup, log: seq<Rec>, own: Option<Tree>, es: seq<Event>)
    requires LawfulStart(s, log, own) && InClass(s, own, es)
    ensures SameClass(s, own, After(s, log, own, es).own)
    ensures Left(s, After(s, log, own, es).log, own) <= Left(s, log, own) - Completions(s, Boot(s, log, own), es)
  {
    hide Inv, Next, SameClass, LoadItem, Recorded, CutLog, Left, Completes;
    if es == [] {
      LeftAtStart(s, log, own);
    } else {
      var n := |es| - 1;
      CompletionsLeave(s, log, own, es[..n]);
      assert es[n].Resume? ==> SameClass(s, own, es[n].own);
      var w := After(s, log, own, es[..n]);
      RunKeeps(s, log, own, es[..n]);
      LeftAfter(s, own, w, es[n]);
      OwnAfter(s, w, es[n]);
    }
  }

  lemma OwnAfter(s: Setup, w: World, e: Event)
    ensures Next(s, w, e).own == w.own || (e.Resume? && Next(s, w, e).own == e.own)
  {
    hide PlanWave, Account, LoadItem;
  }

  lemma LeftAtStart(s: Setup, log: seq<Rec>, own: Option<Tree>)
    ensures Left(s, log + [RunStart(own)], own) <= Left(s, log, own)
  {
    hide LeftOf;
    forall i | 0 <= i < |s.cfg.items|
      ensures LeftOf(s, log + [RunStart(own)], own, s.cfg.items[i]) <= LeftOf(s, log, own, s.cfg.items[i])
    {
      LeftQuiet(s, log, RunStart(own), own, s.cfg.items[i]);
    }
    SumsUp(seq(|s.cfg.items|, i requires 0 <= i < |s.cfg.items| => LeftOf(s, log, own, s.cfg.items[i])),
           seq(|s.cfg.items|, i requires 0 <= i < |s.cfg.items| =>
                 LeftOf(s, log + [RunStart(own)], own, s.cfg.items[i])), 0);
  }

  /** Over any run of one class - random items beside, failures, lost jobs, crashes and
      resumes - no more slices of its exhaustive items complete, all items together, than
      their spaces had left. */
  lemma CompletionsRunOut(s: Setup, log: seq<Rec>, own: Option<Tree>, es: seq<Event>)
    requires LawfulStart(s, log, own) && InClass(s, own, es)
    ensures Completions(s, Boot(s, log, own), es) <= Left(s, log, own)
  {
    hide Inv, LeftOf, InClass, Completions, LawfulStart;
    CompletionsLeave(s, log, own, es);
    var w := After(s, log, own, es);
    StartKeeps(s, log, own, es);
    forall i | 0 <= i < |s.cfg.items|
      ensures LeftOf(s, w.log, own, s.cfg.items[i]) >= 0
    {
      LeftFits(s, own, w, s.cfg.items[i]);
    }
    SumNotNegative(seq(|s.cfg.items|, i requires 0 <= i < |s.cfg.items| => LeftOf(s, w.log, own, s.cfg.items[i])));
  }

  lemma StartKeeps(s: Setup, log: seq<Rec>, own: Option<Tree>, es: seq<Event>)
    requires LawfulStart(s, log, own)
    ensures Inv(s, After(s, log, own, es))
  {
    RunKeeps(s, log, own, es);
  }
}

/** The counts of a covered item, and the log the coverage is rebuilt from. */
module Totals {
  import opened Wrappers
  import opened Intervals
  import opened Slices
  import opened Skips
  import opened Trees
  import opened Sweep
  import opened Campaign
  import opened Outcomes

  /** The tool counted the slice as the mode says. */
  predicate Truthful(m: Mode, leg: Leg)
    requires m.Sound()
  {
    leg.ask.Range? ==>
      && leg.cases == CasesOf(m, leg.ask.lo, leg.ask.hi)
      && leg.skipped == Skips.Skipped(m, leg.ask.lo, leg.ask.hi)
  }

  lemma SumSnoc(F: int -> int, iv: seq<Iv>, a: Iv)
    ensures Sum(F, iv + [a]) == Sum(F, iv) + F(a.1) - F(a.0)
  {
    assert (iv + [a])[..|iv|] == iv;
  }

  lemma SumNone(F: int -> int)
    ensures Sum(F, []) == 0
  {
  }

  lemma {:induction false} SumsAreOfSlices(m: Mode, legs: seq<Leg>)
    requires m.Sound() && forall l :: l in legs && Done(l) ==> Truthful(m, l)
    ensures ReplayCases(legs) == Sum(CasesBefore(m), ReplayIntervals(legs))
    ensures ReplaySkipped(legs) == Sum(SkipsBefore(m), ReplayIntervals(legs))
  {
    hide CasesBefore, SkipsBefore, CasesOf, Skips.Skipped, Sum;
    if legs != [] {
      var n := |legs| - 1;
      SumsAreOfSlices(m, legs[..n]);
      var l := legs[n];
      assert l in legs;
      assert ReplayIntervals(legs[..n]) + [] == ReplayIntervals(legs[..n]);
      if Done(l) && l.ask.Range? {
        CountsAre(m, l.ask.lo, l.ask.hi);
        var iv := ReplayIntervals(legs[..n]);
        SumSnoc(CasesBefore(m), iv, Slice(l));
        SumSnoc(SkipsBefore(m), iv, Slice(l));
        assert Truthful(m, l);
      }
    } else {
      SumNone(CasesBefore(m));
      SumNone(SkipsBefore(m));
    }
  }

  /** A covered item has no slice in flight. */
  lemma CoveredIsGrounded(s: Setup, w: World, it: Item)
    requires ValidConfig(s.cfg) && FlightOk(s, w) && it in s.cfg.items && it.kind.Exhaustive?
    requires FirstGap(At(w.live, it.name).intervals, it.kind.space).None?
    ensures Pending(w.flight, it.name) == None
  {
    hide LegOf, FirstGap;
    forall i | 0 <= i < |w.flight|
      ensures w.flight[i].job.item.name != it.name
    {
      JobHas(s, w, i);
      if w.flight[i].job.item.name == it.name {
        SameItem(s.cfg, w.flight[i].job.item, it);
        InBehind(At(w.live, it.name), w.flight[i].job.ask.lo);
        assert false;
      }
    }
    PendingNone(w.flight, it.name);
  }

  /** whole_space_events: in every reachable state, whatever else is in flight and whatever
      class the run is of, an item with no gap left whose slices the tool counted truly has
      the mode's own sums - wherever they were cut, in whatever order, over however many
      runs. */
  lemma WholeSpaceOk(s: Setup, log: seq<Rec>, own: Option<Tree>, es: seq<Event>, it: Item, m: Mode)
    requires LawfulStart(s, log, own) && it in s.cfg.items && it.kind == Exhaustive(m.space) && m.Sound()
    requires var w := After(s, log, own, es);
             forall l :: l in LiveLegs(s, w.log, w.own, it) && Done(l) ==> Truthful(m, l)
    requires FirstGap(At(After(s, log, own, es).live, it.name).intervals, it.kind.space).None?
    ensures At(After(s, log, own, es).live, it.name).cases == m.k * m.space - m.whole
    ensures At(After(s, log, own, es).live, it.name).skipped == m.whole
  {
    hide Run, Next, Boot, Account, CasesBefore, SkipsBefore, Truthful, ReplayIntervals, ReplayCases, ReplaySkipped,
         Cut, FlightOk, LiveLegs, CutLog, Recorded, FirstGap;
    var w := After(s, log, own, es);
    RunKeeps(s, log, own, es);
    assert ReplayOk(s, w, it) && CoverOk(s, w, it);
    CoveredIsGrounded(s, w, it);
    SumsAreOfSlices(m, LiveLegs(s, w.log, w.own, it));
    CutSums(m, At(w.live, it.name).intervals);
  }

  lemma CutSums(m: Mode, iv: seq<Iv>)
    requires m.Sound() && Cut(iv, m.space) && FirstGap(iv, m.space).None?
    ensures Sum(SkipsBefore(m), iv) == m.whole
    ensures Sum(CasesBefore(m), iv) == m.k * m.space - m.whole
  {
    WholeSpace(m, iv);
  }

  // ---- the campaign's log under count_slices --------------------------------

  function ForItem(legs: seq<Leg>, name: string): seq<Leg> {
    if legs == [] then []
    else ForItem(legs[..|legs| - 1], name) + if legs[|legs| - 1].item == name then [legs[|legs| - 1]] else []
  }

  lemma ForItemSnoc(legs: seq<Leg>, l: Leg, name: string)
    ensures ForItem(legs + [l], name) == ForItem(legs, name) + if l.item == name then [l] else []
  {
    assert (legs + [l])[..|legs|] == legs;
  }

  /** Every leg of the item says where the item's work runs. */
  predicate SaysReach(recs: seq<Rec>, it: Item) {
    forall i | 0 <= i < |recs| && recs[i].Sweep? && recs[i].leg.item == it.name :: recs[i].leg.reach == Some(it.reach)
  }

  /** The finished slices a resume counts, kept in the log's order and then taken one item
      at a time, are the item's of the run's class. */
  lemma {:induction false} CountedByItem(s: Setup, recs: seq<Rec>, it: Item, now: Classes)
    requires SaysReach(recs, it)
    ensures MineFor(s, recs, it, now(it.reach)) == ForItem(Counted(recs, Some(s.rev), now), it.name)
  {
    if recs != [] {
      var before, r := recs[..|recs| - 1], recs[|recs| - 1];
      CountedByItem(s, before, it, now);
      var was := Counted(before, Some(s.rev), now);
      assert r.Sweep? && r.leg.item == it.name ==> r.leg.reach == Some(it.reach);
      assert was + [] == was && ForItem(was, it.name) + [] == ForItem(was, it.name);
      if r.Sweep? && Counts(LastTree(before), Some(s.rev), now, r.leg) { ForItemSnoc(was, r.leg, it.name); }
    }
  }

  lemma LogSaysReach(s: Setup, w: World, e: Event, it: Item)
    requires Inv(s, w) && it in s.cfg.items && SaysReach(w.log, it)
    ensures SaysReach(Next(s, w, e).log, it)
  {
    hide ReplayOk, CoverOk, FlightOk, PlanWave, Account;
    if e.Finish? && e.k < |w.flight| {
      JobHas(s, w, e.k);
      if w.flight[e.k].job.item.name == it.name { SameItem(s.cfg, w.flight[e.k].job.item, it); }
    }
  }

  lemma {:induction false} RunSaysReach(s: Setup, log: seq<Rec>, own: Option<Tree>, es: seq<Event>, it: Item)
    requires LawfulStart(s, log, own) && it in s.cfg.items && SaysReach(log, it)
    ensures SaysReach(After(s, log, own, es).log, it)
  {
    hide Next, Inv, SaysReach, CutLog, Recorded;
    if es == [] {
      StartSays(log, own, it);
    } else {
      RunSaysReach(s, log, own, es[..|es| - 1], it);
      RunKeeps(s, log, own, es[..|es| - 1]);
      LogSaysReach(s, After(s, log, own, es[..|es| - 1]), es[|es| - 1], it);
    }
  }

  lemma StartSays(log: seq<Rec>, own: Option<Tree>, it: Item)
    requires SaysReach(log, it)
    ensures SaysReach(log + [RunStart(own)], it)
  {
  }

  /** So what a resume loads for an item is what count_slices keeps of the whole log. */
  lemma ResumeCountsSlices(s: Setup, log: seq<Rec>, own: Option<Tree>, es: seq<Event>, next: Option<Tree>, it: Item)
    requires LawfulStart(s, log, own) && it in s.cfg.items && SaysReach(log, it)
    ensures var file := After(s, log, own, es).log;
            var counted := Counted(file, Some(s.rev), reach => OwnClass(next, reach));
            LoadItem(s, file, next, it)
              == Replay(s.cfg.limit, Floor(s, it.name), LegsFor(file, it.name), ForItem(counted, it.name))
  {
    hide Run, Next, Replay, MineFor, SaysReach;
    RunSaysReach(s, log, own, es, it);
    CountedByItem(s, After(s, log, own, es).log, it, reach => OwnClass(next, reach));
  }
}
