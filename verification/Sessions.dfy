/** A campaign whose runs take other settings: each resume may give another
    --quarantine-after, --sweep-items, weights, batch, --earlier-runs and items of the catalog. */
module Sessions {
  import opened Wrappers
  import opened Intervals
  import opened Trees
  import opened Sweep
  import opened Campaign
  import opened Outcomes
  import Seeds

  /** A run under settings of its own, through these events. */
  datatype Session = Session(cfg: Config, floor: map<string, nat>, own: Option<Tree>, es: seq<Event>)

  /** Git's answers and the catalog stay: an item keeps its kind and reach by name. */
  function Under(base: Setup, r: Session): Setup { Setup(r.cfg, r.floor, base.rev) }

  ghost function FileAfter(base: Setup, log: seq<Rec>, rs: seq<Session>): seq<Rec>
    decreases |rs|, 1
  {
    if rs == [] then log else Ended(base, log, rs, |rs| - 1).log
  }

  /** Run number n at its end. */
  ghost function Ended(base: Setup, log: seq<Rec>, rs: seq<Session>, n: nat): World
    requires n < |rs|
    decreases n + 1, 0
  {
    After(Under(base, rs[n]), FileAfter(base, log, rs[..n]), rs[n].own, rs[n].es)
  }

  ghost predicate Allowed(base: Setup, r: Session) {
    && ValidConfig(r.cfg) && r.cfg.limit >= 0 && Recorded(Under(base, r), r.own)
    && forall it :: it in r.cfg.items ==> it in base.cfg.items
  }

  lemma {:induction false} MineAlike(s: Setup, z: Setup, recs: seq<Rec>, it: Item, c: Class)
    requires s.rev == z.rev
    ensures MineFor(s, recs, it, c) == MineFor(z, recs, it, c)
  {
    if recs != [] { MineAlike(s, z, recs[..|recs| - 1], it, c); }
  }

  /** A run leaves an item it does not have. */
  lemma {:induction false} Untouched(s: Setup, log: seq<Rec>, own: Option<Tree>, es: seq<Event>, it: Item, c: Class)
    requires LawfulStart(s, log, own) && it.name !in Names(s.cfg.items)
    ensures MineFor(s, After(s, log, own, es).log, it, c) == MineFor(s, log, it, c)
  {
    hide Next, Inv, CutLog, Recorded, MineFor, LoadItem;
    if es == [] {
      LogQuiet(s, log, RunStart(own), it, c);
    } else {
      var n := |es| - 1;
      Untouched(s, log, own, es[..n], it, c);
      RunKeeps(s, log, own, es[..n]);
      StepLeaves(s, After(s, log, own, es[..n]), es[n], it, c);
    }
  }

  lemma StepLeaves(s: Setup, w: World, e: Event, it: Item, c: Class)
    requires Inv(s, w) && it.name !in Names(s.cfg.items)
    ensures MineFor(s, Next(s, w, e).log, it, c) == MineFor(s, w.log, it, c)
  {
    hide ReplayOk, CoverOk, FlightOk, PlanWave, Account, MineFor, LoadItem, Recorded, MayPlan, SeedsFit;
    match e
    case Finish(k, status, cases, skipped) =>
      if k < |w.flight| && w.flight[k].leg.None? && status != Skipped {
        JobHas(s, w, k);
        LogQuiet(s, w.log, Sweep(LegOf(s, w.flight[k].job, status, cases, skipped)), it, c);
      }
    case Resume(own) => LogQuiet(s, w.log, RunStart(own), it, c);
    case _ =>
  }

  /** One run, whatever its settings, keeps the whole catalog's coverage. */
  lemma SessionKeeps(base: Setup, log: seq<Rec>, r: Session)
    requires ValidConfig(base.cfg) && Allowed(base, r) && CutLog(base, log)
    ensures LawfulStart(Under(base, r), log, r.own)
    ensures Inv(Under(base, r), After(Under(base, r), log, r.own, r.es))
    ensures CutLog(base, After(Under(base, r), log, r.own, r.es).log)
  {
    hide After, Inv, Cut, ReplayIntervals, MineFor, ValidConfig, Recorded;
    var s := Under(base, r);
    CutUnder(base, s, log);
    var end := After(s, log, r.own, r.es);
    Kept(s, log, r.own, r.es);
    forall it, c: Class | it in base.cfg.items && it.kind.Exhaustive?
      ensures Cut(ReplayIntervals(MineFor(base, end.log, it, c)), it.kind.space)
    {
      MineAlike(base, s, end.log, it, c);
      if it in s.cfg.items {
        CoverageIsACut(s, log, r.own, r.es, it, c);
      } else {
        NotItsName(base.cfg, s.cfg, it);
        Untouched(s, log, r.own, r.es, it, c);
        MineAlike(base, s, log, it, c);
      }
    }
  }

  lemma Kept(s: Setup, log: seq<Rec>, own: Option<Tree>, es: seq<Event>)
    requires LawfulStart(s, log, own)
    ensures Inv(s, After(s, log, own, es))
  {
    RunKeeps(s, log, own, es);
  }

  lemma CutUnder(base: Setup, s: Setup, log: seq<Rec>)
    requires CutLog(base, log) && s.rev == base.rev && forall it :: it in s.cfg.items ==> it in base.cfg.items
    ensures CutLog(s, log)
  {
    hide Cut, ReplayIntervals, MineFor;
    forall it, c: Class | it in s.cfg.items && it.kind.Exhaustive?
      ensures Cut(ReplayIntervals(MineFor(s, log, it, c)), it.kind.space)
    {
      MineAlike(base, s, log, it, c);
    }
  }

  lemma NotItsName(base: Config, cfg: Config, it: Item)
    requires ValidConfig(base) && it in base.items && it !in cfg.items
    requires forall o :: o in cfg.items ==> o in base.items
    ensures it.name !in Names(cfg.items)
  {
    if it.name in Names(cfg.items) { SameItem(base, it, ItemNamedOr(cfg.items, it.name)); }
  }

  /** Every run of every chain of runs on one file, each under its own settings, keeps the
      whole invariant and the catalog's coverage. */
  lemma {:induction false} SessionsKeep(base: Setup, log: seq<Rec>, rs: seq<Session>, n: nat)
    requires ValidConfig(base.cfg) && CutLog(base, log) && forall i :: 0 <= i < |rs| ==> Allowed(base, rs[i])
    requires n < |rs|
    ensures LawfulStart(Under(base, rs[n]), FileAfter(base, log, rs[..n]), rs[n].own)
    ensures Inv(Under(base, rs[n]), Ended(base, log, rs, n))
    ensures CutLog(base, Ended(base, log, rs, n).log)
    decreases n
  {
    hide After, Inv, CutLog, ValidConfig, Allowed, LawfulStart;
    if n > 0 {
      SessionsKeep(base, log, rs[..n], n - 1);
      assert rs[..n][..n - 1] == rs[..n - 1] && rs[..n][n - 1] == rs[n - 1];
    }
    SessionKeeps(base, FileAfter(base, log, rs[..n]), rs[n]);
  }

  /** What a resume under other settings finds: the streak, the numbers over both floors, and
      in its class the coverage and sums as they were; disabled and moved past by its own
      limit, the failures to start since the last run_start not counted. */
  lemma ResumeUnder(s: Setup, z: Setup, log: seq<Rec>, own: Option<Tree>, es: seq<Event>, next: Option<Tree>,
                    it: Item, k: Iv)
    requires LawfulStart(s, log, own) && it in s.cfg.items
    requires ValidConfig(z.cfg) && z.cfg.limit >= 0 && it in z.cfg.items && z.rev == s.rev
    ensures var w := After(s, log, own, es);
            var was, now := Settled(s, w, it.name), At(Boot(z, w.log, next).live, it.name);
            var left, c := FailsOf(was.fails, k) - ErrorsSince(w.log, it.name, k), OwnClass(next, it.reach);
            && now.bad == was.bad && (now.disabled <==> was.bad > z.cfg.limit)
            && Seeds.Max(now.seedN, Floor(s, it.name)) == Seeds.Max(was.seedN, Floor(z, it.name))
            && (Known(c) && c == SeenClass(s, w.own, it.reach) ==> ClassAgrees(was, now))
            && FailsOf(now.fails, k) == left && (k in now.quarantine <==> left > 0 && left >= z.cfg.limit)
  {
    hide After, Boot, LawfulStart, Settled, Replay, FailsOf, ErrorsSince, ValidConfig, QuarantineIs;
    var w := After(s, log, own, es);
    StartIsValid(s, log, own);
    ResumeFinds(s, log, own, es, next, it);
    BootHas(s, w.log, next, it);
    BootHas(z, w.log, next, it);
    LoadUnder(s, z, w.log, next, it);
    LoadQuarantines(z, w.log, next, it);
    assert QuarantineIs(z.cfg.limit, LoadItem(z, w.log, next, it));
    QuarantineAt(z.cfg.limit, LoadItem(z, w.log, next, it), k);
  }

  lemma StartIsValid(s: Setup, log: seq<Rec>, own: Option<Tree>)
    requires LawfulStart(s, log, own)
    ensures ValidConfig(s.cfg)
  {
  }

  lemma QuarantineAt(limit: int, st: ItemState, k: Iv)
    requires QuarantineIs(limit, st)
    ensures k in st.quarantine <==> FailsOf(st.fails, k) > 0 && FailsOf(st.fails, k) >= limit
  {
  }

  lemma LoadUnder(s: Setup, z: Setup, log: seq<Rec>, own: Option<Tree>, it: Item)
    requires s.rev == z.rev && z.cfg.limit >= 0
    ensures var a, b := LoadItem(s, log, own, it), LoadItem(z, log, own, it);
            && ClassAgrees(a, b) && a.bad == b.bad && a.fails == b.fails && (b.disabled <==> b.bad > z.cfg.limit)
            && Seeds.Max(b.seedN, Floor(s, it.name)) == Seeds.Max(a.seedN, Floor(z, it.name))
  {
    hide ReplayIntervals, ReplayServed, ReplayCases, ReplaySkipped, ReplayFails, ReplayBad, ReplaySeedN, Judged;
    MineAlike(s, z, log, it, OwnClass(own, it.reach));
    BadNeedsJudged(LegsFor(log, it.name));
  }
}
