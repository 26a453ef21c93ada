/** The resumable sweep campaign as a machine of atomic steps: the card's wave loop and
    the host pool plan slices, run them, append a record and fold the result in; a crash
    loses what is in flight, and a resume rebuilds the state from the log alone. */
module Campaign {
  import opened Wrappers
  import opened Intervals
  import opened Slices
  import opened Trees
  import opened Sweep

  /** What stays the same over a campaign: the settings, the --earlier-runs floors and what
      git says of a commit. */
  datatype Setup = Setup(cfg: Config, floor: map<string, nat>, rev: Rev)

  /** A job in flight, and its record once it is in the log. */
  datatype Flight = Flight(job: Job, leg: Option<Leg>)

  datatype World = World(log: seq<Rec>, own: Option<Tree>, live: Live, flight: seq<Flight>)

  function OwnClass(own: Option<Tree>, reach: Reach): Class { ClassOf(own, None, reach) }

  /** The class any later reader of the log puts this run's slices in. */
  function SeenClass(s: Setup, own: Option<Tree>, reach: Reach): Class { ClassOf(own, Some(s.rev), reach) }

  /** Whatever class a later reader gives this run's slices of a reach, the run itself knew. */
  predicate RecordedAt(s: Setup, own: Option<Tree>, reach: Reach) {
    Known(SeenClass(s, own, reach)) ==> Known(OwnClass(own, reach))
  }

  /** ... of every reach its items have: true of every run that recorded its trees, and of
      one nobody can place. */
  ghost predicate Recorded(s: Setup, own: Option<Tree>) {
    forall it :: it in s.cfg.items ==> RecordedAt(s, own, it.reach)
  }

  lemma RecordedIsSeen(s: Setup, own: Option<Tree>, reach: Reach)
    requires RecordedAt(s, own, reach) && Known(SeenClass(s, own, reach))
    ensures SeenClass(s, own, reach) == OwnClass(own, reach)
  {
    GitOnlyRefuses(own, s.rev, reach);
  }

  // ---- one item's part of the log -------------------------------------------

  function LegsFor(recs: seq<Rec>, name: string): seq<Leg> {
    if recs == [] then []
    else
      var r := recs[|recs| - 1];
      LegsFor(recs[..|recs| - 1], name) + if r.Sweep? && r.leg.item == name then [r.leg] else []
  }

  /** The item's finished slices of class c, each judged by the run_start before it. */
  function MineFor(s: Setup, recs: seq<Rec>, it: Item, c: Class): seq<Leg> {
    if recs == [] then []
    else
      var before := recs[..|recs| - 1];
      var r := recs[|recs| - 1];
      MineFor(s, before, it, c) + if Mine(s, LastTree(before), it, c, r) then [r.leg] else []
  }

  predicate Mine(s: Setup, cur: Option<Tree>, it: Item, c: Class, r: Rec) {
    && r.Sweep? && r.leg.item == it.name && r.leg.reach == Some(it.reach) && Finished(r.leg)
    && Known(c) && Known(SeenClass(s, cur, it.reach)) && SeenClass(s, cur, it.reach).key == c.key
  }

  /** What the live run of this tree counts of the item: the slices of its class it loaded,
      and every record since. */
  function LiveLegs(s: Setup, recs: seq<Rec>, own: Option<Tree>, it: Item): seq<Leg> {
    if recs == [] then []
    else
      var before, r := recs[..|recs| - 1], recs[|recs| - 1];
      if r.RunStart? then MineFor(s, before, it, OwnClass(own, it.reach))
      else LiveLegs(s, before, own, it) + if r.Sweep? && r.leg.item == it.name then [r.leg] else []
  }

  /** The slices that could not start, since the last run_start. */
  function ErrorsSince(recs: seq<Rec>, name: string, k: Iv): nat {
    if recs == [] || recs[|recs| - 1].RunStart? then 0
    else
      var r := recs[|recs| - 1];
      ErrorsSince(recs[..|recs| - 1], name, k)
      + if r.Sweep? && r.leg.item == name && CouldNotStart(r.leg, k) then 1 else 0
  }

  function Floor(s: Setup, name: string): nat {
    if name in s.floor then s.floor[name] else 0
  }

  /** load_state, load_earlier and count_by_class, for one item of a run of this tree. */
  function LoadItem(s: Setup, recs: seq<Rec>, own: Option<Tree>, it: Item): ItemState {
    Replay(s.cfg.limit, Floor(s, it.name), LegsFor(recs, it.name), MineFor(s, recs, it, OwnClass(own, it.reach)))
  }

  // ---- the machine ----------------------------------------------------------

  datatype Event =
    | Plan(reach: Reach, units: seq<nat>)                                // plan_wave, or pool_plan's one slice
    | Finish(k: nat, status: Status, cases: nat, skipped: nat)           // the record appended
    | Settle(k: nat)                                                     // account_slice
    | Abandon(k: nat)                                                    // a job that leaves no record
    | Resume(own: Option<Tree>)                                          // a crash or an end, and a run after it

  function Names(items: seq<Item>): set<string> {
    set i | 0 <= i < |items| :: items[i].name
  }

  /** A run begins: its state from the log, then its own run_start. */
  function Boot(s: Setup, log: seq<Rec>, own: Option<Tree>): World {
    World(log + [RunStart(own)], own,
          map name | name in Names(s.cfg.items) :: LoadItem(s, log, own, ItemNamedOr(s.cfg.items, name)), [])
  }

  function ItemNamedOr(items: seq<Item>, name: string): (it: Item)
    requires name in Names(items)
    ensures it in items && it.name == name
  {
    if items[0].name == name then items[0]
    else
      assert name in Names(items[1..]) by {
        var i :| 0 <= i < |items| && items[i].name == name;
        assert items[1..][i - 1].name == name;
      }
      ItemNamedOr(items[1..], name)
  }

  function Busy(fs: seq<Flight>): set<string> {
    set i | 0 <= i < |fs| :: fs[i].job.item.name
  }

  function Fly(wave: seq<Job>): (fs: seq<Flight>)
    ensures |fs| == |wave|
  {
    seq(|wave|, i requires 0 <= i < |wave| => Flight(wave[i], None))
  }

  function LegOf(s: Setup, job: Job, status: Status, cases: nat, skipped: nat): Leg {
    Leg(job.item.name, Some(job.item.reach), status, job.ask, cases, skipped, s.cfg.batch)
  }

  /** The seed leaves n 39 bits: beyond them seed_for refuses and nothing is planned. */
  predicate SeedsFit(wave: seq<Job>) {
    forall i | 0 <= i < |wave| :: wave[i].ask.Draw? ==> wave[i].ask.n < SEEDLIMIT
  }

  ghost predicate MayPlan(w: World, reach: Reach, units: seq<nat>) {
    && (forall i :: 0 <= i < |units| ==> units[i] > 0)
    && (if reach == Tile then forall i :: 0 <= i < |w.flight| ==> w.flight[i].job.item.reach == Host else |units| == 1)
  }

  /** One step; a step that cannot be taken changes nothing.  The card's wave is planned
      when none of its jobs is in flight, with nothing to avoid; the pool's slice avoids
      every host item in flight. */
  ghost function Next(s: Setup, w: World, e: Event): World {
    match e
    case Plan(reach, units) =>
      var avoid := if reach == Tile then {} else Busy(w.flight);
      var wave := PlanWave(s.cfg, w.live, reach, units, avoid);
      if MayPlan(w, reach, units) && SeedsFit(wave) then w.(flight := w.flight + Fly(wave)) else w
    case Finish(k, status, cases, skipped) =>
      if k < |w.flight| && w.flight[k].leg.None? && status != Skipped then
        var leg := LegOf(s, w.flight[k].job, status, cases, skipped);
        w.(log := w.log + [Sweep(leg)], flight := w.flight[k := w.flight[k].(leg := Some(leg))])
      else w
    case Settle(k) =>
      if k < |w.flight| && w.flight[k].leg.Some? then
        var name := w.flight[k].job.item.name;
        w.(live := w.live[name := Account(s.cfg.limit, At(w.live, name), w.flight[k].leg.value)],
           flight := Remove(w.flight, k))
      else w
    case Abandon(k) => if k < |w.flight| && w.flight[k].leg.None? then w.(flight := Remove(w.flight, k)) else w
    case Resume(own) => if Recorded(s, own) then Boot(s, w.log, own) else w
  }

  ghost function Run(s: Setup, w: World, es: seq<Event>): World {
    if es == [] then w else Next(s, Run(s, w, es[..|es| - 1]), es[|es| - 1])
  }

  lemma RunMore(s: Setup, w: World, es: seq<Event>, e: Event)
    ensures Run(s, w, es + [e]) == Next(s, Run(s, w, es), e)
  {
    assert (es + [e])[..|es|] == es;
  }

  // ---- what every run keeps -------------------------------------------------

  /** Slices of a space: not empty, inside it, pairwise disjoint. */
  predicate Cut(iv: seq<Iv>, space: nat) {
    Proper(iv) && Disjoint(iv) && Within(iv, 0, space)
  }

  /** The record an item has in the log that is not yet accounted. */
  function Pending(fs: seq<Flight>, name: string): Option<Leg> {
    if fs == [] then None
    else if fs[0].job.item.name == name then fs[0].leg
    else Pending(fs[1..], name)
  }

  /** The item's state once every logged record is accounted. */
  function Settled(s: Setup, w: World, name: string): ItemState {
    var p := Pending(w.flight, name);
    if p.Some? then Account(s.cfg.limit, At(w.live, name), p.value) else At(w.live, name)
  }

  ghost predicate FlightOk(s: Setup, w: World) {
    && (forall i, j :: 0 <= i < j < |w.flight| ==> w.flight[i].job.item.name != w.flight[j].job.item.name)
    && forall i :: 0 <= i < |w.flight| ==> JobOk(s, w, w.flight[i])
  }

  ghost predicate JobOk(s: Setup, w: World, f: Flight) {
    && WellPlanned(s.cfg, w.live, f.job)
    && (f.leg.Some? ==> f.leg.value == LegOf(s, f.job, f.leg.value.status, f.leg.value.cases, f.leg.value.skipped)
                        && f.leg.value.status != Skipped)
  }

  /** Replay is live: the numbers, streaks and disabling of the whole file; the coverage,
      slices served and sums of what the run loaded and logged, and of its class where that
      is known to the file's readers; the fail counts but for the slices that could not
      start; the quarantine those counts say. */
  ghost predicate ReplayOk(s: Setup, w: World, it: Item) {
    var now, file := Settled(s, w, it.name), LoadItem(s, w.log, w.own, it);
    && WholeAgrees(now, file)
    && ClassAgrees(now, Replay(s.cfg.limit, 0, [], LiveLegs(s, w.log, w.own, it)))
    && (Known(SeenClass(s, w.own, it.reach)) ==> ClassAgrees(now, file))
    && (forall k :: FailsOf(now.fails, k) == FailsOf(file.fails, k) + ErrorsSince(w.log, it.name, k))
    && QuarantineIs(s.cfg.limit, now)
  }

  /** Coverage is a cut of the space: the live run's, and in every tree class the file's. */
  ghost predicate CoverOk(s: Setup, w: World, it: Item) {
    it.kind.Exhaustive? ==>
      && Cut(At(w.live, it.name).intervals, it.kind.space)
      && forall c: Class :: Cut(ReplayIntervals(MineFor(s, w.log, it, c)), it.kind.space)
  }

  ghost predicate Inv(s: Setup, w: World) {
    && ValidConfig(s.cfg) && s.cfg.limit >= 0 && Recorded(s, w.own)
    && w.live.Keys == Names(s.cfg.items) && LastTree(w.log) == w.own
    && FlightOk(s, w)
    && forall it :: it in s.cfg.items ==> ReplayOk(s, w, it) && CoverOk(s, w, it)
  }

  lemma SameItem(cfg: Config, a: Item, b: Item)
    requires ValidConfig(cfg) && a in cfg.items && b in cfg.items && a.name == b.name
    ensures a == b
  {
  }

  lemma {:induction false} PendingAt(fs: seq<Flight>, k: nat)
    requires k < |fs| && forall i, j :: 0 <= i < j < |fs| ==> fs[i].job.item.name != fs[j].job.item.name
    ensures Pending(fs, fs[k].job.item.name) == fs[k].leg
  {
    if k > 0 { PendingAt(fs[1..], k - 1); }
  }

  lemma {:induction false} PendingNone(fs: seq<Flight>, name: string)
    requires forall i :: 0 <= i < |fs| ==> fs[i].job.item.name != name
    ensures Pending(fs, name) == None
  {
    if fs != [] { PendingNone(fs[1..], name); }
  }

  /** Pending of a list with distinct names depends only on the entry of that name. */
  lemma {:induction false} PendingSet(fs: seq<Flight>, k: nat, leg: Option<Leg>, name: string)
    requires k < |fs| && forall i, j :: 0 <= i < j < |fs| ==> fs[i].job.item.name != fs[j].job.item.name
    ensures Pending(fs[k := fs[k].(leg := leg)], name) == if fs[k].job.item.name == name then leg else Pending(fs, name)
  {
    var gs := fs[k := fs[k].(leg := leg)];
    if k > 0 {
      assert gs[1..] == fs[1..][k - 1 := fs[1..][k - 1].(leg := leg)];
      PendingSet(fs[1..], k - 1, leg, name);
    } else {
      assert gs[1..] == fs[1..];
    }
  }

  lemma {:induction false} PendingRemove(fs: seq<Flight>, k: nat, name: string)
    requires k < |fs| && forall i, j :: 0 <= i < j < |fs| ==> fs[i].job.item.name != fs[j].job.item.name
    ensures Pending(Remove(fs, k), name) == if fs[k].job.item.name == name then None else Pending(fs, name)
  {
    if k > 0 {
      assert Remove(fs, k)[1..] == Remove(fs[1..], k - 1);
      PendingRemove(fs[1..], k - 1, name);
    } else {
      assert Remove(fs, k) == fs[1..];
      if fs[0].job.item.name == name { PendingNone(fs[1..], name); }
    }
  }

  lemma {:induction false} PendingAppend(fs: seq<Flight>, gs: seq<Flight>, name: string)
    requires forall i :: 0 <= i < |gs| ==> gs[i].leg == None
    ensures Pending(fs + gs, name) == Pending(fs, name)
  {
    if fs == [] {
      assert fs + gs == gs;
      if gs != [] {
        assert gs == gs[..1] + gs[1..];
        PendingAppend([], gs[1..], name);
        assert [] + gs[1..] == gs[1..];
      }
    } else {
      assert (fs + gs)[1..] == fs[1..] + gs;
      PendingAppend(fs[1..], gs, name);
    }
  }

  // ---- each step keeps it ---------------------------------------------------

  /** Only the log grew, by a record of no item of this name. */
  lemma LogQuiet(s: Setup, recs: seq<Rec>, r: Rec, it: Item, c: Class)
    requires r.Sweep? ==> r.leg.item != it.name
    ensures LegsFor(recs + [r], it.name) == LegsFor(recs, it.name)
    ensures MineFor(s, recs + [r], it, c) == MineFor(s, recs, it, c)
    ensures !r.RunStart? ==> forall own :: LiveLegs(s, recs + [r], own, it) == LiveLegs(s, recs, own, it)
    ensures r.RunStart? ==> forall own ::
              LiveLegs(s, recs + [r], own, it) == MineFor(s, recs, it, OwnClass(own, it.reach))
    ensures !r.RunStart? ==> forall k :: ErrorsSince(recs + [r], it.name, k) == ErrorsSince(recs, it.name, k)
    ensures r.RunStart? ==> forall k :: ErrorsSince(recs + [r], it.name, k) == 0
    ensures LastTree(recs + [r]) == if r.RunStart? then r.tree else LastTree(recs)
  {
    assert (recs + [r])[..|recs|] == recs;
  }

  /** The log grew by a leg of this item, of the running run. */
  lemma LogLeg(s: Setup, recs: seq<Rec>, leg: Leg, it: Item, c: Class)
    requires leg.item == it.name
    ensures LegsFor(recs + [Sweep(leg)], it.name) == LegsFor(recs, it.name) + [leg]
    ensures MineFor(s, recs + [Sweep(leg)], it, c)
         == if Mine(s, LastTree(recs), it, c, Sweep(leg)) then MineFor(s, recs, it, c) + [leg]
            else MineFor(s, recs, it, c)
    ensures forall own :: LiveLegs(s, recs + [Sweep(leg)], own, it) == LiveLegs(s, recs, own, it) + [leg]
    ensures forall k :: ErrorsSince(recs + [Sweep(leg)], it.name, k)
                     == ErrorsSince(recs, it.name, k) + if CouldNotStart(leg, k) then 1 else 0
    ensures LastTree(recs + [Sweep(leg)]) == LastTree(recs)
  {
    assert (recs + [Sweep(leg)])[..|recs|] == recs;
  }

  lemma NamesOf(items: seq<Item>, it: Item)
    requires it in items
    ensures it.name in Names(items)
  {
    var i :| 0 <= i < |items| && items[i] == it;
  }

  /** The file's coverage is a cut in every tree class, as a new file's is. */
  ghost predicate CutLog(s: Setup, log: seq<Rec>) {
    forall it :: it in s.cfg.items && it.kind.Exhaustive? ==>
      forall c: Class :: Cut(ReplayIntervals(MineFor(s, log, it, c)), it.kind.space)
  }

  lemma NewFileIsCut(s: Setup)
    ensures CutLog(s, [])
  {
  }

  lemma BootItem(s: Setup, log: seq<Rec>, own: Option<Tree>, it: Item)
    requires ValidConfig(s.cfg) && it in s.cfg.items && CutLog(s, log)
    ensures ReplayOk(s, Boot(s, log, own), it) && CoverOk(s, Boot(s, log, own), it)
  {
    hide Replay, ReplayIntervals, LegsFor, MineFor, ErrorsSince, QuarantineIs, FailsOf, Known, SeenClass, OwnClass,
         Cut, ValidConfig, LiveLegs;
    var w := Boot(s, log, own);
    NamesOf(s.cfg.items, it);
    SameItem(s.cfg, it, ItemNamedOr(s.cfg.items, it.name));
    var c := OwnClass(own, it.reach);
    LogQuiet(s, log, RunStart(own), it, c);
    ReplayQuarantines(s.cfg.limit, Floor(s, it.name), LegsFor(log, it.name), MineFor(s, log, it, c));
    ReplaysClass(s.cfg.limit, Floor(s, it.name), LegsFor(log, it.name), MineFor(s, log, it, c));
    forall d: Class
      ensures MineFor(s, w.log, it, d) == MineFor(s, log, it, d)
    {
      LogQuiet(s, log, RunStart(own), it, d);
    }
  }

  /** Coverage, slices served and sums are replayed of the counted slices alone. */
  lemma ReplaysClass(limit: int, floor: nat, all: seq<Leg>, mine: seq<Leg>)
    ensures ClassAgrees(Replay(limit, floor, all, mine), Replay(limit, 0, [], mine))
    ensures Replay(limit, floor, all, mine).intervals == ReplayIntervals(mine)
  {
  }

  /** A run's beginning. */
  lemma BootOk(s: Setup, log: seq<Rec>, own: Option<Tree>)
    requires ValidConfig(s.cfg) && s.cfg.limit >= 0 && Recorded(s, own) && CutLog(s, log)
    ensures Inv(s, Boot(s, log, own))
  {
    hide ReplayOk, CoverOk, LoadItem, CutLog, Recorded, ValidConfig;
    LogEndsInStart(log, own);
    forall it | it in s.cfg.items
      ensures ReplayOk(s, Boot(s, log, own), it) && CoverOk(s, Boot(s, log, own), it)
    {
      BootItem(s, log, own, it);
    }
  }

  lemma LogEndsInStart(log: seq<Rec>, own: Option<Tree>)
    ensures LastTree(log + [RunStart(own)]) == own
  {
  }

  lemma ResumeKeeps(s: Setup, w: World, own: Option<Tree>)
    requires Inv(s, w) && Recorded(s, own)
    ensures Inv(s, Boot(s, w.log, own))
  {
    LogIsCut(s, w);
    BootOk(s, w.log, own);
  }

  lemma LogIsCut(s: Setup, w: World)
    requires Inv(s, w)
    ensures CutLog(s, w.log)
  {
    hide ReplayOk, ReplayIntervals, MineFor, Cut;
    forall it | it in s.cfg.items && it.kind.Exhaustive?
      ensures forall c: Class :: Cut(ReplayIntervals(MineFor(s, w.log, it, c)), it.kind.space)
    {
      assert CoverOk(s, w, it);
    }
  }

  /** A world whose log, live state and pending records are as they were. */
  lemma SameItems(s: Setup, w: World, w': World)
    requires Inv(s, w) && w'.log == w.log && w'.own == w.own && w'.live == w.live
    requires forall it :: it in s.cfg.items ==> Pending(w'.flight, it.name) == Pending(w.flight, it.name)
    ensures forall it :: it in s.cfg.items ==> ReplayOk(s, w', it) && CoverOk(s, w', it)
  {
    forall it | it in s.cfg.items
      ensures ReplayOk(s, w', it) && CoverOk(s, w', it)
    {
      assert ReplayOk(s, w, it) && CoverOk(s, w, it);
    }
  }

  lemma PlanKeeps(s: Setup, w: World, reach: Reach, units: seq<nat>)
    requires Inv(s, w)
    ensures Inv(s, Next(s, w, Plan(reach, units)))
  {
    hide PlanWave, WellPlanned, WaveOf, FlightOk, ReplayOk, CoverOk, SeedsFit, Pending, ValidConfig;
    var w' := Next(s, w, Plan(reach, units));
    var avoid := if reach == Tile then {} else Busy(w.flight);
    var wave := PlanWave(s.cfg, w.live, reach, units, avoid);
    if MayPlan(w, reach, units) && SeedsFit(wave) {
      WavePlanned(s.cfg, w.live, reach, units, avoid);
      FlightGrows(s, w, reach, avoid, wave);
      forall it | it in s.cfg.items
        ensures Pending(w'.flight, it.name) == Pending(w.flight, it.name)
      {
        PendingAppend(w.flight, Fly(wave), it.name);
      }
      SameItems(s, w, w');
    }
  }

  lemma FlightGrows(s: Setup, w: World, reach: Reach, avoid: set<string>, wave: seq<Job>)
    requires ValidConfig(s.cfg) && FlightOk(s, w) && WaveOf(s.cfg, w.live, reach, avoid, wave)
    requires avoid == if reach == Tile then {} else Busy(w.flight)
    requires reach == Tile ==> forall i :: 0 <= i < |w.flight| ==> w.flight[i].job.item.reach == Host
    ensures FlightOk(s, w.(flight := w.flight + Fly(wave)))
  {
    hide PlanWave;
    var w' := w.(flight := w.flight + Fly(wave));
    var n := |w.flight|;
    assert forall i | n <= i < |w'.flight| :: w'.flight[i] == Flight(wave[i - n], None);
    assert forall i | 0 <= i < n :: w'.flight[i] == w.flight[i];
    forall i | 0 <= i < |w'.flight|
      ensures JobOk(s, w', w'.flight[i])
    {
      if i < n { assert JobOk(s, w, w.flight[i]); }
    }
    forall i, j | 0 <= i < n <= j < |w'.flight|
      ensures w'.flight[i].job.item.name != w'.flight[j].job.item.name
    {
      if reach == Host {
        assert w.flight[i].job.item.name in Busy(w.flight);
      } else {
        assert JobOk(s, w, w.flight[i]);
        assert WellPlanned(s.cfg, w.live, w.flight[i].job) && WellPlanned(s.cfg, w.live, wave[j - n]);
        var a, b := w.flight[i].job.item, wave[j - n].item;
        if a.name == b.name { SameItem(s.cfg, a, b); }
      }
    }
  }

  /** Job k is over: the others are as they were. */
  lemma FlightShrinks(s: Setup, w: World, w': World, k: nat)
    requires FlightOk(s, w) && k < |w.flight| && w'.flight == Remove(w.flight, k)
    requires forall f :: f in w.flight && f.job.item.name != w.flight[k].job.item.name && JobOk(s, w, f) ==>
               JobOk(s, w', f)
    ensures FlightOk(s, w')
  {
    hide JobOk;
    assert forall i | 0 <= i < |w'.flight| :: w'.flight[i] == w.flight[if i < k then i else i + 1];
    forall i | 0 <= i < |w'.flight|
      ensures JobOk(s, w', w'.flight[i])
    {
      var j := if i < k then i else i + 1;
      assert JobOk(s, w, w.flight[j]) && w.flight[j] in w.flight;
      assert w.flight[j].job.item.name != w.flight[k].job.item.name;
    }
  }

  lemma AbandonKeeps(s: Setup, w: World, k: nat)
    requires Inv(s, w)
    ensures Inv(s, Next(s, w, Abandon(k)))
  {
    hide WellPlanned, LegOf, ReplayOk, CoverOk, LoadItem, PlanWave;
    var w' := Next(s, w, Abandon(k));
    if k < |w.flight| && w.flight[k].leg.None? {
      forall it | it in s.cfg.items
        ensures Pending(w'.flight, it.name) == Pending(w.flight, it.name)
      {
        PendingRemove(w.flight, k, it.name);
        PendingAt(w.flight, k);
      }
      SameItems(s, w, w');
      FlightShrinks(s, w, w', k);
    }
  }

  // ---- a record appended ----------------------------------------------------

  lemma CutGrows(iv: seq<Iv>, lo: int, hi: int, space: nat)
    requires Cut(iv, space) && 0 <= lo < hi <= space && forall x :: lo <= x < hi ==> !In(iv, x)
    ensures Cut(iv + [(lo, hi)], space)
  {
    ClearIsApart(iv, lo, hi);
  }

  lemma InBehind(st: ItemState, x: int)
    requires In(st.intervals, x)
    ensures In(Behind(st), x)
  {
    var k :| 0 <= k < |st.intervals| && st.intervals[k].0 <= x < st.intervals[k].1;
    assert Behind(st)[k] == st.intervals[k];
  }

  /** A planned slice is clear of its item's coverage, so the coverage with it is a cut. */
  lemma SliceCuts(s: Setup, live: Live, job: Job)
    requires WellPlanned(s.cfg, live, job) && job.item.kind.Exhaustive?
    requires Cut(At(live, job.item.name).intervals, job.item.kind.space)
    ensures Cut(At(live, job.item.name).intervals + [(job.ask.lo, job.ask.hi)], job.item.kind.space)
  {
    var st := At(live, job.item.name);
    forall x | job.ask.lo <= x < job.ask.hi
      ensures !In(st.intervals, x)
    {
      if In(st.intervals, x) { InBehind(st, x); }
    }
    CutGrows(st.intervals, job.ask.lo, job.ask.hi, job.item.kind.space);
  }

  /** Which slices are a class's depends on its key alone. */
  lemma {:induction false} MineByKey(s: Setup, recs: seq<Rec>, it: Item, c: Class, d: Class)
    requires Known(c) && Known(d) && c.key == d.key
    ensures MineFor(s, recs, it, c) == MineFor(s, recs, it, d)
  {
    if recs != [] { MineByKey(s, recs[..|recs| - 1], it, c, d); }
  }

  /** The running run's finished slice is of class c exactly where c is its own class. */
  lemma MineOwn(s: Setup, own: Option<Tree>, it: Item, c: Class, leg: Leg)
    requires RecordedAt(s, own, it.reach) && it.name != "" && leg.item == it.name && leg.reach == Some(it.reach)
    ensures Mine(s, own, it, c, Sweep(leg))
        <==> Done(leg) && Known(c) && Known(SeenClass(s, own, it.reach)) && SeenClass(s, own, it.reach).key == c.key
    ensures Known(SeenClass(s, own, it.reach)) ==>
              (Mine(s, own, it, OwnClass(own, it.reach), Sweep(leg)) <==> Done(leg))
  {
    if Known(SeenClass(s, own, it.reach)) { RecordedIsSeen(s, own, it.reach); }
  }

  lemma NamesNotEmpty(cfg: Config, it: Item)
    requires ValidConfig(cfg) && it in cfg.items
    ensures it.name != ""
  {
  }

  lemma LiveAccounts(limit: int, now: ItemState, legs: seq<Leg>, leg: Leg)
    requires ClassAgrees(now, Replay(limit, 0, [], legs))
    ensures ClassAgrees(Account(limit, now, leg), Replay(limit, 0, [], legs + [leg]))
  {
    hide Account, ReplayIntervals, ReplayServed, ReplayCases, ReplaySkipped, ReplayFails, Reached, ReplaySeedN,
         ReplayBad, Judged;
    AccountCovers(limit, now, leg);
    ReplayCovers(legs, leg);
  }

  /** What one appended leg does to its item, file and settled state alike. */
  lemma FinishReplays(s: Setup, w: World, w': World, it: Item, leg: Leg)
    requires ReplayOk(s, w, it) && s.cfg.limit >= 0 && RecordedAt(s, w.own, it.reach)
    requires it.name != "" && LastTree(w.log) == w.own
    requires w'.log == w.log + [Sweep(leg)] && w'.own == w.own
    requires leg.item == it.name && leg.reach == Some(it.reach) && leg.status != Skipped
    requires Planned(Settled(s, w, it.name), leg)
    requires Settled(s, w', it.name) == Account(s.cfg.limit, Settled(s, w, it.name), leg)
    ensures ReplayOk(s, w', it)
  {
    hide Account, Replay, Settled, Mine, SeenClass, OwnClass, Done, CouldNotStart, FailsOf, QuarantineIs, MineFor,
         LegsFor, ErrorsSince, LiveLegs, RecordedAt;
    var limit, now, own := s.cfg.limit, Settled(s, w, it.name), OwnClass(w.own, it.reach);
    var all, mine := LegsFor(w.log, it.name), MineFor(s, w.log, it, own);
    var more := if Mine(s, w.own, it, own, Sweep(leg)) then mine + [leg] else mine;
    LogLeg(s, w.log, leg, it, own);
    MineOwn(s, w.own, it, own, leg);
    AccountReplaysWhole(limit, Floor(s, it.name), all, mine, more, leg, now);
    if Known(SeenClass(s, w.own, it.reach)) {
      AccountReplaysClass(limit, Floor(s, it.name), all, mine, all + [leg], leg, now);
    }
    LiveAccounts(limit, now, LiveLegs(s, w.log, w.own, it), leg);
    FinishCounts(s, all, mine, more, leg, now, Floor(s, it.name));
    AccountQuarantines(limit, now, leg);
  }

  lemma FinishCounts(s: Setup, all: seq<Leg>, mine: seq<Leg>, more: seq<Leg>, leg: Leg, now: ItemState, floor: nat)
    requires leg.status != Skipped
    ensures forall k ::
      FailsOf(Account(s.cfg.limit, now, leg).fails, k) - FailsOf(Replay(s.cfg.limit, floor, all + [leg], more).fails, k)
        == FailsOf(now.fails, k) - FailsOf(Replay(s.cfg.limit, floor, all, mine).fails, k)
           + if CouldNotStart(leg, k) then 1 else 0
  {
    hide Account, ReplayFails;
    forall k
      ensures FailsOf(Account(s.cfg.limit, now, leg).fails, k) - FailsOf(ReplayFails(all + [leg]), k)
           == FailsOf(now.fails, k) - FailsOf(ReplayFails(all), k) + if CouldNotStart(leg, k) then 1 else 0
    {
      AccountCountsFails(s.cfg.limit, all, leg, now, k);
    }
  }

  /** In every class of the file the coverage stays a cut: the leg joins the class it is
      of, and what that class held is what the live run covered. */
  lemma FinishCuts(s: Setup, w: World, w': World, it: Item, leg: Leg, job: Job, c: Class)
    requires ReplayOk(s, w, it) && CoverOk(s, w, it) && RecordedAt(s, w.own, it.reach)
    requires it.name != "" && LastTree(w.log) == w.own
    requires w'.log == w.log + [Sweep(leg)] && it.kind.Exhaustive?
    requires job.item == it && leg.item == it.name && leg.reach == Some(it.reach) && leg.ask == job.ask
    requires WellPlanned(s.cfg, w.live, job) && Settled(s, w, it.name) == At(w.live, it.name)
    ensures Cut(ReplayIntervals(MineFor(s, w'.log, it, c)), it.kind.space)
  {
    hide Settled, SeenClass, OwnClass, MineFor, LegsFor, ErrorsSince, FailsOf, QuarantineIs, ReplayFails, ReplaySeedN,
         ReplayServed, ReplayCases, ReplaySkipped, Reached, Judged, ReplayBad, Cut, Mine;
    LogLeg(s, w.log, leg, it, c);
    MineOwn(s, w.own, it, c, leg);
    var before := MineFor(s, w.log, it, c);
    if Mine(s, w.own, it, c, Sweep(leg)) {
      RecordedIsSeen(s, w.own, it.reach);
      MineByKey(s, w.log, it, c, OwnClass(w.own, it.reach));
      assert ReplayIntervals(before) == At(w.live, it.name).intervals;
      assert (before + [leg])[..|before|] == before;
      assert ReplayIntervals(before + [leg]) == ReplayIntervals(before) + [(leg.ask.lo, leg.ask.hi)];
      SliceCuts(s, w.live, job);
    }
  }

  lemma JobHas(s: Setup, w: World, k: nat)
    requires FlightOk(s, w) && k < |w.flight|
    ensures JobOk(s, w, w.flight[k]) && WellPlanned(s.cfg, w.live, w.flight[k].job)
    ensures w.flight[k].job.item in s.cfg.items && w.flight[k].job.item.name in Names(s.cfg.items)
    ensures Pending(w.flight, w.flight[k].job.item.name) == w.flight[k].leg
  {
    assert JobOk(s, w, w.flight[k]);
    NamesOf(s.cfg.items, w.flight[k].job.item);
    PendingAt(w.flight, k);
  }

  /** A record appended for job k: the flight stays in order. */
  lemma FlightFinishes(s: Setup, w: World, w': World, k: nat, leg: Leg)
    requires FlightOk(s, w) && k < |w.flight| && w'.live == w.live
    requires w'.flight == w.flight[k := w.flight[k].(leg := Some(leg))]
    requires leg == LegOf(s, w.flight[k].job, leg.status, leg.cases, leg.skipped) && leg.status != Skipped
    ensures FlightOk(s, w')
  {
    hide WellPlanned, LegOf;
    forall i | 0 <= i < |w'.flight|
      ensures JobOk(s, w', w'.flight[i])
    {
      assert JobOk(s, w, w.flight[i]);
    }
  }

  /** What a leg of one item leaves of another. */
  lemma OthersQuiet(s: Setup, w: World, w': World, r: Rec, it: Item)
    requires ReplayOk(s, w, it) && CoverOk(s, w, it)
    requires w'.log == w.log + [r] && w'.own == w.own && At(w'.live, it.name) == At(w.live, it.name)
    requires r.Sweep? && r.leg.item != it.name && Pending(w'.flight, it.name) == Pending(w.flight, it.name)
    ensures ReplayOk(s, w', it) && CoverOk(s, w', it)
  {
    hide Replay, Pending, QuarantineIs, ReplayIntervals, Cut;
    LogQuiet(s, w.log, r, it, OwnClass(w.own, it.reach));
    forall c: Class
      ensures MineFor(s, w'.log, it, c) == MineFor(s, w.log, it, c)
    {
      LogQuiet(s, w.log, r, it, c);
    }
  }

  lemma PlannedLeg(s: Setup, live: Live, job: Job, status: Status, cases: nat, skipped: nat)
    requires WellPlanned(s.cfg, live, job)
    ensures Planned(At(live, job.item.name), LegOf(s, job, status, cases, skipped))
  {
  }

  /** The item whose leg it is. */
  lemma OwnFinishes(s: Setup, w: World, w': World, job: Job, leg: Leg)
    requires ReplayOk(s, w, job.item) && CoverOk(s, w, job.item)
    requires RecordedAt(s, w.own, job.item.reach) && LastTree(w.log) == w.own
    requires ValidConfig(s.cfg) && s.cfg.limit >= 0 && WellPlanned(s.cfg, w.live, job)
    requires w'.log == w.log + [Sweep(leg)] && w'.own == w.own && w'.live == w.live
    requires leg == LegOf(s, job, leg.status, leg.cases, leg.skipped) && leg.status != Skipped
    requires Pending(w.flight, job.item.name) == None && Pending(w'.flight, job.item.name) == Some(leg)
    ensures ReplayOk(s, w', job.item) && CoverOk(s, w', job.item)
  {
    var it := job.item;
    hide WellPlanned, ReplayOk, Account, MineFor, ReplayIntervals, Cut, Planned, ValidConfig;
    PlannedLeg(s, w.live, job, leg.status, leg.cases, leg.skipped);
    PlannedIn(s, w.live, job);
    NamesNotEmpty(s.cfg, it);
    FinishReplays(s, w, w', it, leg);
    if it.kind.Exhaustive? {
      forall c: Class
        ensures Cut(ReplayIntervals(MineFor(s, w'.log, it, c)), it.kind.space)
      {
        FinishCuts(s, w, w', it, leg, job, c);
      }
    }
  }

  lemma PlannedIn(s: Setup, live: Live, job: Job)
    requires WellPlanned(s.cfg, live, job)
    ensures job.item in s.cfg.items
  {
  }

  lemma RecordedHas(s: Setup, own: Option<Tree>, it: Item)
    requires Recorded(s, own) && it in s.cfg.items
    ensures RecordedAt(s, own, it.reach)
  {
  }

  lemma FinishKeeps(s: Setup, w: World, k: nat, status: Status, cases: nat, skipped: nat)
    requires Inv(s, w)
    ensures Inv(s, Next(s, w, Finish(k, status, cases, skipped)))
  {
    hide WellPlanned, ReplayOk, CoverOk, LoadItem, PlanWave, ValidConfig, FlightOk, JobOk, Pending, LastTree,
         Recorded;
    var w' := Next(s, w, Finish(k, status, cases, skipped));
    if k < |w.flight| && w.flight[k].leg.None? && status != Skipped {
      var job := w.flight[k].job;
      var leg := LegOf(s, job, status, cases, skipped);
      JobHas(s, w, k);
      assert RecordedAt(s, w.own, job.item.reach) by { RecordedHas(s, w.own, job.item); }
      FlightFinishes(s, w, w', k, leg);
      LogLeg(s, w.log, leg, job.item, OwnClass(w.own, job.item.reach));
      Distinct(s, w);
      PendingSet(w.flight, k, Some(leg), job.item.name);
      OwnFinishes(s, w, w', job, leg);
      forall it | it in s.cfg.items
        ensures ReplayOk(s, w', it) && CoverOk(s, w', it)
      {
        if it.name == job.item.name {
          SameItem(s.cfg, it, job.item);
        } else {
          PendingSet(w.flight, k, Some(leg), it.name);
          OthersQuiet(s, w, w', Sweep(leg), it);
        }
      }
    }
  }

  lemma Distinct(s: Setup, w: World)
    requires FlightOk(s, w)
    ensures forall i, j :: 0 <= i < j < |w.flight| ==> w.flight[i].job.item.name != w.flight[j].job.item.name
  {
  }

  // ---- a record accounted ---------------------------------------------------

  /** The log as it was, and every item's settled state. */
  lemma SettledSame(s: Setup, w: World, w': World, it: Item)
    requires ReplayOk(s, w, it) && CoverOk(s, w, it) && w'.log == w.log && w'.own == w.own
    requires Settled(s, w', it.name) == Settled(s, w, it.name)
    requires it.kind.Exhaustive? ==> Cut(At(w'.live, it.name).intervals, it.kind.space)
    ensures ReplayOk(s, w', it) && CoverOk(s, w', it)
  {
    hide Settled, LoadItem, Cut;
  }

  lemma AccountCuts(s: Setup, live: Live, job: Job, leg: Leg)
    requires WellPlanned(s.cfg, live, job) && leg == LegOf(s, job, leg.status, leg.cases, leg.skipped)
    requires job.item.kind.Exhaustive? && Cut(At(live, job.item.name).intervals, job.item.kind.space)
    ensures Cut(Account(s.cfg.limit, At(live, job.item.name), leg).intervals, job.item.kind.space)
  {
    hide Cut, FailsOf, Bump;
    SliceCuts(s, live, job);
  }

  lemma SettleKeeps(s: Setup, w: World, k: nat)
    requires Inv(s, w)
    ensures Inv(s, Next(s, w, Settle(k)))
  {
    hide WellPlanned, ReplayOk, LoadItem, PlanWave, ValidConfig, FlightOk, Pending, LastTree, Recorded, Account,
         LegOf, Cut, ReplayIntervals, MineFor;
    var w' := Next(s, w, Settle(k));
    if k < |w.flight| && w.flight[k].leg.Some? {
      var job, leg := w.flight[k].job, w.flight[k].leg.value;
      JobHas(s, w, k);
      Distinct(s, w);
      assert w'.live.Keys == Names(s.cfg.items);
      forall f | f in w.flight && f.job.item.name != job.item.name && JobOk(s, w, f)
        ensures JobOk(s, w', f)
      {
        PlannedAlike(s, w.live, w'.live, f.job);
      }
      FlightShrinks(s, w, w', k);
      forall it | it in s.cfg.items
        ensures ReplayOk(s, w', it) && CoverOk(s, w', it)
      {
        PendingRemove(w.flight, k, it.name);
        if it.name == job.item.name { SameItem(s.cfg, it, job.item); }
        assert CoverOk(s, w, it);
        if it.name == job.item.name && it.kind.Exhaustive? { AccountCuts(s, w.live, job, leg); }
        SettledSame(s, w, w', it);
      }
    }
  }

  /** A job's plan depends on its own item's state alone. */
  lemma PlannedAlike(s: Setup, live: Live, live': Live, job: Job)
    requires WellPlanned(s.cfg, live, job) && At(live', job.item.name) == At(live, job.item.name)
    ensures WellPlanned(s.cfg, live', job)
  {
  }

  // ---- every run ------------------------------------------------------------

  lemma NextKeeps(s: Setup, w: World, e: Event)
    requires Inv(s, w)
    ensures Inv(s, Next(s, w, e))
  {
    hide Inv, MayPlan, SeedsFit, PlanWave, Boot, LegOf, Account, At;
    match e
    case Plan(reach, units) => PlanKeeps(s, w, reach, units);
    case Finish(k, status, cases, skipped) => FinishKeeps(s, w, k, status, cases, skipped);
    case Settle(k) => SettleKeeps(s, w, k);
    case Abandon(k) => AbandonKeeps(s, w, k);
    case Resume(own) =>
      if Recorded(s, own) { ResumeKeeps(s, w, own); }
  }

  /** Every run of the campaign, from a new file or one whose coverage is a cut, through any
      plans, ends, failures, jobs that leave no record, crashes and resumes. */
  lemma {:induction false} RunKeeps(s: Setup, log: seq<Rec>, own: Option<Tree>, es: seq<Event>)
    requires ValidConfig(s.cfg) && s.cfg.limit >= 0 && Recorded(s, own) && CutLog(s, log)
    ensures Inv(s, Run(s, Boot(s, log, own), es))
  {
    hide Inv, Next;
    if es == [] {
      BootOk(s, log, own);
    } else {
      RunKeeps(s, log, own, es[..|es| - 1]);
      NextKeeps(s, Run(s, Boot(s, log, own), es[..|es| - 1]), es[|es| - 1]);
    }
  }
}
