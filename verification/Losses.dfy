/** What breaks the campaign's promises, and exactly where: slices that could not start and
    a resume, a run that git alone can place, a record never accounted. */
module Losses {
  import opened Wrappers
  import opened Intervals
  import opened Slices
  import opened Trees
  import opened Sweep
  import opened Campaign
  import opened Outcomes
  import Completion

  /** --sweep-items names this one exhaustive item. */
  ghost predicate Alone(s: Setup, it: Item) {
    && ValidConfig(s.cfg) && s.cfg.limit >= 0 && it in s.cfg.items && s.cfg.only == {it.name}
    && it.kind.Exhaustive? && it.kind.space > 0
  }

  lemma AloneHas(s: Setup, it: Item)
    requires Alone(s, it)
    ensures ValidConfig(s.cfg) && it in s.cfg.items && it.kind.Exhaustive? && it.kind.space > 0
  {
  }

  function FirstSlice(it: Item, u: nat): Iv
    requires it.kind.Exhaustive?
  {
    (0, if it.kind.space < u then it.kind.space else u)
  }

  function FirstJob(it: Item, u: nat): Job
    requires it.kind.Exhaustive?
  {
    Job(it, Ask.Range(0, FirstSlice(it, u).1))
  }

  lemma AloneIsPicked(s: Setup, live: Live, it: Item)
    requires Alone(s, it) && !At(live, it.name).disabled && Behind(At(live, it.name)) == []
    ensures var p := Pick(s.cfg, live, {}, it.reach, |s.cfg.items|);
            p.Some? && s.cfg.items[p.value] == it
    ensures FirstGap(Behind(At(live, it.name)), it.kind.space) == Some((0, it.kind.space))
  {
    hide Load, FirstGap, At;
    var i :| 0 <= i < |s.cfg.items| && s.cfg.items[i] == it;
    FirstGapUnique([], it.kind.space, 0, it.kind.space);
    assert Eligible(s.cfg, live, {}, it.reach, s.cfg.items[i]);
    var p := Pick(s.cfg, live, {}, it.reach, |s.cfg.items|);
    assert Eligible(s.cfg, live, {}, it.reach, s.cfg.items[p.value]);
    SameItem(s.cfg, s.cfg.items[p.value], it);
  }

  /** With nothing behind it the item's first slice is planned. */
  lemma PlansFirst(s: Setup, w: World, it: Item, u: nat)
    requires Alone(s, it) && u > 0 && w.flight == []
    requires !At(w.live, it.name).disabled && Behind(At(w.live, it.name)) == []
    ensures Next(s, w, Plan(it.reach, [u])) == w.(flight := [Flight(FirstJob(it, u), None)])
  {
    hide Pick, At, Eligible, FirstGap;
    AloneIsPicked(s, w.live, it);
    assert Busy([]) == {};
    assert [u][1..] == [];
    var wave := PlanWave(s.cfg, w.live, it.reach, [u], {});
    assert wave == [FirstJob(it, u)];
    assert Fly(wave) == [Flight(FirstJob(it, u), None)];
  }

  function LegAt(s: Setup, it: Item, u: nat, status: Status, cases: nat, skipped: nat): Leg
    requires it.kind.Exhaustive?
  {
    LegOf(s, FirstJob(it, u), status, cases, skipped)
  }

  /** ... and recorded. */
  lemma RecordsFirst(s: Setup, w: World, it: Item, u: nat, status: Status, cases: nat, skipped: nat)
    requires Alone(s, it) && u > 0 && w.flight == [] && status != Skipped
    requires !At(w.live, it.name).disabled && Behind(At(w.live, it.name)) == []
    ensures Run(s, w, [Plan(it.reach, [u]), Finish(0, status, cases, skipped)])
         == w.(log := w.log + [Sweep(LegAt(s, it, u, status, cases, skipped))],
               flight := [Flight(FirstJob(it, u), Some(LegAt(s, it, u, status, cases, skipped)))])
  {
    hide PlanWave, At, Behind, FirstJob, Account, Alone;
    AloneHas(s, it);
    PlansFirst(s, w, it, u);
    var p, f := Event.Plan(it.reach, [u]), Finish(0, status, cases, skipped);
    RunMore(s, w, [p], f);
    RunMore(s, w, [], p);
    assert [p] + [f] == [p, f] && [] + [p] == [p];
  }

  // ---- slices that could not start ------------------------------------------

  /** The item's first slice n times over, its tool never starting. */
  function Retries(reach: Reach, u: nat, n: nat): seq<Event> {
    if n == 0 then [] else Retries(reach, u, n - 1) + [Plan(reach, [u]), Finish(0, Error, 0, 0)] + [Settle(0)]
  }

  lemma RunTwo(s: Setup, w: World, es: seq<Event>, a: Event, b: Event)
    ensures Run(s, w, es + [a, b]) == Run(s, Run(s, w, es), [a, b])
  {
    hide Next;
    RunMore(s, w, es, a);
    RunMore(s, w, es + [a], b);
    RunMore(s, Run(s, w, es), [], a);
    RunMore(s, Run(s, w, es), [a], b);
    assert es + [a] + [b] == es + [a, b] && [a] + [b] == [a, b] && [] + [a] == [a];
  }

  /** The item after n of them: as many failures, in the state and not in the file. */
  ghost predicate Tried(s: Setup, w: World, it: Item, k: Iv, n: nat) {
    var st := At(w.live, it.name);
    && w.flight == [] && st.intervals == [] && st.bad == n && !st.disabled
    && st.fails == (if n == 0 then [] else [(k, n)])
    && st.quarantine == (if n > 0 && n >= s.cfg.limit then [k] else [])
    && ReplayFails(LegsFor(w.log, it.name)) == []
    && forall c: Class :: MineFor(s, w.log, it, c) == []
  }

  lemma AccountsError(limit: int, st: ItemState, leg: Leg)
    requires leg.status == Error && leg.ask.Range? && st.bad < limit
    requires st.fails == if st.bad == 0 then [] else [(Slice(leg), st.bad)]
    requires st.intervals == [] && st.quarantine == [] && !st.disabled
    ensures var now := Account(limit, st, leg);
            && now.intervals == [] && now.bad == st.bad + 1 && !now.disabled && now.fails == [(Slice(leg), st.bad + 1)]
            && now.quarantine == if st.bad + 1 >= limit then [Slice(leg)] else []
  {
  }

  lemma ErrorIsNotReplayed(all: seq<Leg>, leg: Leg)
    requires leg.status == Error && ReplayFails(all) == []
    ensures ReplayFails(all + [leg]) == []
  {
    assert (all + [leg])[..|all|] == all;
  }

  lemma TriesOnce(s: Setup, w: World, it: Item, u: nat, n: nat)
    requires Alone(s, it) && u > 0 && n < s.cfg.limit && Tried(s, w, it, FirstSlice(it, u), n)
    ensures Tried(s, Next(s, Run(s, w, [Plan(it.reach, [u]), Finish(0, Error, 0, 0)]), Settle(0)), it,
                  FirstSlice(it, u), n + 1)
  {
    hide PlanWave, Run, Alone, MayPlan, Account, LegsFor, MineFor, ReplayFails, Boot, ErrorsSince, LiveLegs, LastTree,
         SeedsFit, Recorded;
    AloneHas(s, it);
    RecordsFirst(s, w, it, u, Error, 0, 0);
    var leg := LegAt(s, it, u, Error, 0, 0);
    AccountsError(s.cfg.limit, At(w.live, it.name), leg);
    ErrorIsNotReplayed(LegsFor(w.log, it.name), leg);
    LogLeg(s, w.log, leg, it, Class("", None));
    forall c: Class
      ensures MineFor(s, w.log + [Sweep(leg)], it, c) == []
    {
      LogLeg(s, w.log, leg, it, c);
    }
  }

  lemma {:induction false} RetriesFail(s: Setup, own: Option<Tree>, it: Item, u: nat, n: nat)
    requires Alone(s, it) && u > 0 && n <= s.cfg.limit
    ensures Tried(s, After(s, [], own, Retries(it.reach, u, n)), it, FirstSlice(it, u), n)
  {
    hide Next, Alone, Tried, Run;
    AloneHas(s, it);
    if n == 0 {
      NoneTried(s, own, it, FirstSlice(it, u));
    } else {
      RetriesFail(s, own, it, u, n - 1);
      var es := Retries(it.reach, u, n - 1);
      var a, b := Event.Plan(it.reach, [u]), Finish(0, Error, 0, 0);
      var w := Boot(s, [], own);
      RunTwo(s, w, es, a, b);
      RunMore(s, w, es + [a, b], Settle(0));
      TriesOnce(s, Run(s, w, es), it, u, n - 1);
    }
  }

  lemma NoneTried(s: Setup, own: Option<Tree>, it: Item, k: Iv)
    requires Alone(s, it)
    ensures Tried(s, After(s, [], own, []), it, k, 0)
  {
    hide Next, LoadItem, LegsFor, MineFor, ErrorsSince;
    NoneLoaded(s, own, it);
    BootHas(s, [], own, it);
    NoneIn(s, it, OwnClass(own, it.reach));
    LogQuiet(s, [], RunStart(own), it, OwnClass(own, it.reach));
    forall c: Class
      ensures MineFor(s, [] + [RunStart(own)], it, c) == []
    {
      LogQuiet(s, [], RunStart(own), it, c);
      NoneIn(s, it, c);
    }
  }

  lemma NoneLoaded(s: Setup, own: Option<Tree>, it: Item)
    ensures var st := LoadItem(s, [], own, it);
            st.intervals == [] && st.bad == 0 && !st.disabled && st.fails == [] && st.quarantine == []
  {
  }

  lemma NoneIn(s: Setup, it: Item, c: Class)
    ensures MineFor(s, [], it, c) == [] && LegsFor([], it.name) == []
  {
  }

  /** At any limit there is: tried as often as the limit, a slice whose tool never started
      is moved past by the run that met it, and the run that resumes it starts there again. */
  lemma ErrorForgotten(s: Setup, own: Option<Tree>, it: Item, u: nat)
    requires Alone(s, it) && u > 0 && s.cfg.limit >= 1
    ensures var w := After(s, [], own, Retries(it.reach, u, s.cfg.limit));
            && FirstSlice(it, u) in At(w.live, it.name).quarantine && In(Behind(At(w.live, it.name)), 0)
            && Behind(At(Boot(s, w.log, own).live, it.name)) == []
  {
    hide Next, Run, Alone;
    AloneHas(s, it);
    RetriesFail(s, own, it, u, s.cfg.limit);
    var w := After(s, [], own, Retries(it.reach, u, s.cfg.limit));
    var st := At(w.live, it.name);
    assert Behind(st)[0] == FirstSlice(it, u) && FirstSlice(it, u).0 <= 0 < FirstSlice(it, u).1;
    BootHas(s, w.log, own, it);
  }

  // ---- a slice done twice ---------------------------------------------------

  /** The first slice finished: the class holds one slice more, live and rebuilt alike. */
  lemma HoldsFirst(s: Setup, recs: seq<Rec>, own: Option<Tree>, it: Item, u: nat, c: Class)
    requires Alone(s, it) && LastTree(recs) == own && Known(c)
    requires Known(SeenClass(s, own, it.reach)) && SeenClass(s, own, it.reach).key == c.key
    ensures it.kind.Exhaustive?
    ensures ReplayIntervals(MineFor(s, recs + [Sweep(LegAt(s, it, u, Pass, 0, 0))], it, c))
         == ReplayIntervals(MineFor(s, recs, it, c)) + [FirstSlice(it, u)]
  {
    hide MineFor, ReplayIntervals, SeenClass, LegsFor, ValidConfig, LastTree;
    var leg := LegAt(s, it, u, Pass, 0, 0);
    NamesNotEmpty(s.cfg, it);
    LogLeg(s, recs, leg, it, c);
    ReplayCovers(MineFor(s, recs, it, c), leg);
  }

  /** A run starts with nothing behind the item where its class counts none of the file
      and nothing in the file failed. */
  lemma StartsFresh(s: Setup, log: seq<Rec>, own: Option<Tree>, it: Item)
    requires Alone(s, it) && Completion.AllDone(log)
    requires MineFor(s, log, it, OwnClass(own, it.reach)) == []
    ensures var st := At(Boot(s, log, own).live, it.name);
            !st.disabled && Behind(st) == [] && Boot(s, log, own).flight == []
  {
    hide MineFor;
    BootHas(s, log, own, it);
    Completion.DoneLegs(log, it.name);
  }

  /** The run's first slice, planned and recorded as passing. */
  function Once(it: Item, u: nat): seq<Event> { [Plan(it.reach, [u]), Finish(0, Pass, 0, 0)] }

  lemma FirstRun(s: Setup, own: Option<Tree>, it: Item, u: nat)
    requires Alone(s, it) && u > 0
    ensures it.kind.Exhaustive?
    ensures var w, leg := Boot(s, [], own), LegAt(s, it, u, Pass, 0, 0);
            After(s, [], own, Once(it, u))
              == w.(log := [RunStart(own), Sweep(leg)], flight := [Flight(FirstJob(it, u), Some(leg))])
    ensures var st := At(Boot(s, [], own).live, it.name);
            !st.disabled && Behind(st) == []
  {
    hide Next, Run, Alone, At;
    AloneHas(s, it);
    StartsFresh(s, [], own, it);
    RecordsFirst(s, Boot(s, [], own), it, u, Pass, 0, 0);
    assert [] + [RunStart(own)] + [Sweep(LegAt(s, it, u, Pass, 0, 0))]
        == [RunStart(own), Sweep(LegAt(s, it, u, Pass, 0, 0))];
  }

  /** A run, and one of the same class as git has it that did not know so: the second loads
      nothing of the first, and both slices then are of one class. */
  lemma PlacedByGitOverlaps(s: Setup, a: Option<Tree>, b: Option<Tree>, it: Item, u: nat)
    requires Alone(s, it) && u > 0 && !RecordedAt(s, b, it.reach)
    requires Known(SeenClass(s, a, it.reach)) && SeenClass(s, a, it.reach).key == SeenClass(s, b, it.reach).key
    ensures var log := After(s, [], a, Once(it, u)).log;
            && it.kind.Exhaustive?
            && ReplayIntervals(MineFor(s, After(s, log, b, Once(it, u)).log, it, SeenClass(s, b, it.reach)))
               == [FirstSlice(it, u), FirstSlice(it, u)]
  {
    hide Next, Run, Alone, At, MineFor;
    AloneHas(s, it);
    var log := [RunStart(a), Sweep(LegAt(s, it, u, Pass, 0, 0))];
    FirstRun(s, a, it, u);
    UnknownCountsNone(s, log, it, OwnClass(b, it.reach));
    StartsFresh(s, log, b, it);
    RecordsFirst(s, Boot(s, log, b), it, u, Pass, 0, 0);
    TwiceHeld(s, a, b, it, u, SeenClass(s, b, it.reach));
  }

  /** Where a run is one git alone can place: it wrote no hash of the reach's directory, its
      checkout was clean, git knows the directory's hash at its commit, and, for the host,
      it wrote its compiler down. */
  lemma UnrecordedIs(s: Setup, t: Tree, reach: Reach)
    ensures var have := Text(if reach == Tile then t.rtl else t.hostSrc);
            var got := Asked(t, Some(s.rev), reach);
            var placed := have.None? && Text(got).Some? && t.dirty == Some(false);
            RecordedAt(s, Some(t), reach) <==> !(placed && (reach == Host ==> Text(t.cc).Some?))
  {
  }

  /** --sweep-items for one run. */
  function With(s: Setup, only: set<string>): Setup { s.(cfg := s.cfg.(only := only)) }

  /** Where an item runs, some item's space is swept. */
  ghost predicate Sweeps(cfg: Config) {
    forall it :: it in cfg.items ==> exists e :: e in cfg.items && e.reach == it.reach && Swept(e)
  }

  predicate Swept(e: Item) { e.kind.Exhaustive? && e.kind.space > 0 }

  /** Recorded is exactly the condition: a run keeps every file's coverage a cut, whatever
      items it is for and whatever happens in it, if and only if it is recorded. */
  lemma RecordedIsExact(s: Setup, own: Option<Tree>)
    requires ValidConfig(s.cfg) && s.cfg.limit >= 0 && Sweeps(s.cfg)
    ensures Recorded(s, own) <==> KeepsCuts(s, own)
  {
    hide KeepsCuts, With, ValidConfig, RecordedAt, Sweeps;
    if Recorded(s, own) {
      RecordedKeeps(s, own);
    } else {
      var it :| it in s.cfg.items && !RecordedAt(s, own, it.reach);
      UnrecordedAt(s, own, it);
    }
  }

  lemma UnrecordedAt(s: Setup, own: Option<Tree>, it: Item)
    requires ValidConfig(s.cfg) && s.cfg.limit >= 0 && Sweeps(s.cfg) && it in s.cfg.items
    requires !RecordedAt(s, own, it.reach)
    ensures !KeepsCuts(s, own)
  {
    hide KeepsCuts, With, ValidConfig, RecordedAt, Alone;
    var e :| e in s.cfg.items && e.reach == it.reach && Swept(e);
    AloneWith(s, e);
    UnrecordedBreaks(With(s, {e.name}), own, e, s);
  }

  lemma AloneWith(s: Setup, e: Item)
    requires ValidConfig(s.cfg) && s.cfg.limit >= 0 && e in s.cfg.items && Swept(e)
    ensures Alone(With(s, {e.name}), e) && With(s, {e.name}).cfg.only == {e.name}
    ensures forall own :: RecordedAt(With(s, {e.name}), own, e.reach) == RecordedAt(s, own, e.reach)
  {
  }

  lemma RecordedKeeps(s: Setup, own: Option<Tree>)
    requires ValidConfig(s.cfg) && s.cfg.limit >= 0 && Recorded(s, own)
    ensures KeepsCuts(s, own)
  {
    hide CutLog, Inv, Run, Boot;
    forall only, log, es | CutLog(With(s, only), log)
      ensures CutLog(With(s, only), After(With(s, only), log, own, es).log)
    {
      assert Recorded(With(s, only), own) && ValidConfig(With(s, only).cfg) && With(s, only).cfg.limit >= 0;
      RunKeeps(With(s, only), log, own, es);
      LogIsCut(With(s, only), After(With(s, only), log, own, es));
    }
  }

  ghost predicate KeepsCuts(s: Setup, own: Option<Tree>) {
    forall only, log, es ::
      CutLog(With(s, only), log) ==> CutLog(With(s, only), After(With(s, only), log, own, es).log)
  }

  lemma UnrecordedBreaks(s: Setup, own: Option<Tree>, it: Item, base: Setup)
    requires Alone(s, it) && !RecordedAt(s, own, it.reach) && s == With(base, s.cfg.only)
    ensures !KeepsCuts(base, own)
  {
    hide Next, Run, MineFor, ReplayIntervals, CutLog;
    AloneHas(s, it);
    var log, twice := After(s, [], own, Once(it, 1)).log, [FirstSlice(it, 1), FirstSlice(it, 1)];
    NewFileIsCut(s);
    PlacedByGitOverlaps(s, own, own, it, 1);
    assert !Apart(twice[0], twice[1]);
    NotCut(s, After(s, log, own, Once(it, 1)).log, it, SeenClass(s, own, it.reach));
  }

  lemma NotCut(s: Setup, log: seq<Rec>, it: Item, c: Class)
    requires it in s.cfg.items && it.kind.Exhaustive? && !Disjoint(ReplayIntervals(MineFor(s, log, it, c)))
    ensures !CutLog(s, log)
  {
  }

  /** Two runs' first slices under one class. */
  lemma TwiceHeld(s: Setup, a: Option<Tree>, b: Option<Tree>, it: Item, u: nat, c: Class)
    requires Alone(s, it) && Known(c)
    requires Known(SeenClass(s, a, it.reach)) && SeenClass(s, a, it.reach).key == c.key
    requires Known(SeenClass(s, b, it.reach)) && SeenClass(s, b, it.reach).key == c.key
    ensures it.kind.Exhaustive?
    ensures var leg, twice := LegAt(s, it, u, Pass, 0, 0), [FirstSlice(it, u), FirstSlice(it, u)];
            && ReplayIntervals(MineFor(s, [RunStart(a), Sweep(leg)] + [RunStart(b)] + [Sweep(leg)], it, c)) == twice
            && (a == b ==> ReplayIntervals(MineFor(s, [RunStart(a), Sweep(leg)] + [Sweep(leg)], it, c)) == twice)
  {
    hide Alone, SeenClass, MineFor, ReplayIntervals;
    AloneHas(s, it);
    var leg := LegAt(s, it, u, Pass, 0, 0);
    var none: seq<Rec>, log := [], [RunStart(a), Sweep(leg)];
    assert none + [RunStart(a)] + [Sweep(leg)] == log;
    NothingHeld(s, it, c);
    LogQuiet(s, none, RunStart(a), it, c);
    LogQuiet(s, log, RunStart(b), it, c);
    LogEndsInStart(none, a);
    LogEndsInStart(log, b);
    HoldsFirst(s, none + [RunStart(a)], a, it, u, c);
    HoldsFirst(s, log + [RunStart(b)], b, it, u, c);
    LogLeg(s, none + [RunStart(a)], leg, it, c);
    if a == b { HoldsFirst(s, log, a, it, u, c); }
  }

  lemma NothingHeld(s: Setup, it: Item, c: Class)
    ensures ReplayIntervals(MineFor(s, [], it, c)) == []
  {
  }

  // ---- a record never accounted ---------------------------------------------

  /** A job lost without its accounting, as a worker loses one after an exception. */
  function Dropped(w: World, k: nat): World
    requires k < |w.flight|
  {
    w.(flight := Remove(w.flight, k))
  }

  /** There is no record, or it is a draw's that timed out or lost its device. */
  predicate OwesNothing(f: Flight) {
    f.leg.None? || (f.leg.value.ask.Draw? && !Done(f.leg.value) && !Unreadable(f.leg.value))
  }

  /** The invariant holds here and whatever is done from here. */
  ghost predicate StaysTrue(s: Setup, w: World) {
    forall more :: Inv(s, Run(s, w, more))
  }

  /** In every reachable state, losing a job is safe for good if and only if its record,
      where it has one, had nothing to account: any other leaves the live state behind the
      file's at once. */
  lemma DropIsSafe(s: Setup, log: seq<Rec>, own: Option<Tree>, es: seq<Event>, k: nat)
    requires LawfulStart(s, log, own) && k < |After(s, log, own, es).flight|
    ensures var w := After(s, log, own, es);
            && (OwesNothing(w.flight[k]) <==> StaysTrue(s, Dropped(w, k)))
            && (OwesNothing(w.flight[k]) <==> Inv(s, Dropped(w, k)))
  {
    hide After, Inv, OwesNothing, Dropped, Next;
    Completion.StartKeeps(s, log, own, es);
    var w := After(s, log, own, es);
    if OwesNothing(w.flight[k]) {
      SafeDrop(s, w, k);
      forall more
        ensures Inv(s, Run(s, Dropped(w, k), more))
      {
        InvRun(s, Dropped(w, k), more);
      }
    } else {
      UnsafeDrop(s, w, k);
      assert Run(s, Dropped(w, k), []) == Dropped(w, k);
    }
  }

  lemma {:induction false} InvRun(s: Setup, w: World, es: seq<Event>)
    requires Inv(s, w)
    ensures Inv(s, Run(s, w, es))
  {
    hide Inv, Next;
    if es != [] {
      InvRun(s, w, es[..|es| - 1]);
      NextKeeps(s, Run(s, w, es[..|es| - 1]), es[|es| - 1]);
    }
  }

  lemma SafeDrop(s: Setup, w: World, k: nat)
    requires Inv(s, w) && k < |w.flight| && OwesNothing(w.flight[k])
    ensures Inv(s, Dropped(w, k))
  {
    hide WellPlanned, LegOf, ReplayOk, LoadItem, Account, LastTree, Recorded, Cut, MineFor, ReplayIntervals;
    var w' := Dropped(w, k);
    if w.flight[k].leg.Some? { OwedNothing(s.cfg.limit, At(w.live, w.flight[k].job.item.name), w.flight[k].leg.value); }
    PendingAt(w.flight, k);
    forall it | it in s.cfg.items
      ensures ReplayOk(s, w', it) && CoverOk(s, w', it)
    {
      PendingRemove(w.flight, k, it.name);
      assert CoverOk(s, w, it);
      SettledSame(s, w, w', it);
    }
    FlightShrinks(s, w, w', k);
  }

  lemma OwedNothing(limit: int, st: ItemState, leg: Leg)
    requires leg.ask.Draw? && !Done(leg) && !Unreadable(leg)
    ensures Account(limit, st, leg) == st
  {
  }

  lemma UnsafeDrop(s: Setup, w: World, k: nat)
    requires Inv(s, w) && k < |w.flight| && !OwesNothing(w.flight[k])
    ensures !Inv(s, Dropped(w, k))
  {
    hide WellPlanned, LegOf, CoverOk, LoadItem, Account, LastTree, Recorded, Replay, QuarantineIs, ErrorsSince, FailsOf;
    var it, leg, w' := w.flight[k].job.item, w.flight[k].leg.value, Dropped(w, k);
    JobHas(s, w, k);
    PendingRemove(w.flight, k, it.name);
    Owes(s.cfg.limit, At(w.live, it.name), leg);
    assert ReplayOk(s, w, it);
    StillOwes(s, w, w', it, leg);
    assert !ReplayOk(s, w', it);
  }

  /** Accounting shows: in the streak, in the slices served, or in the failures. */
  ghost predicate Shows(was: ItemState, now: ItemState) {
    !WholeAgrees(was, now) || !ClassAgrees(was, now) || exists k :: FailsOf(was.fails, k) != FailsOf(now.fails, k)
  }

  lemma Owes(limit: int, st: ItemState, leg: Leg)
    requires !OwesNothing(Flight(Job(Item("", Exhaustive(0), Tile), leg.ask), Some(leg)))
    ensures Shows(Account(limit, st, leg), st)
  {
    if !Done(leg) && !Unreadable(leg) {
      BumpCounts(st.fails, Slice(leg), Slice(leg));
      assert FailsOf(Account(limit, st, leg).fails, Slice(leg)) != FailsOf(st.fails, Slice(leg));
    }
  }

  /** Both states cannot agree with the file. */
  lemma StillOwes(s: Setup, w: World, w': World, it: Item, leg: Leg)
    requires ReplayOk(s, w, it) && w'.log == w.log && w'.own == w.own && w'.live == w.live
    requires Shows(Account(s.cfg.limit, At(w.live, it.name), leg), At(w.live, it.name))
    requires Pending(w.flight, it.name) == Some(leg) && Pending(w'.flight, it.name) == None
    ensures !ReplayOk(s, w', it)
  {
    hide Account, LoadItem, Replay, LiveLegs, ErrorsSince, FailsOf, QuarantineIs;
  }

  // ---- and what it costs ----------------------------------------------------

  /** Whatever is planned of the item next starts where the lost slice did; and where the
      lost one had a verdict and the run's class is known, its own verdict makes that class
      overlap. */
  lemma LostSliceOverlaps(s: Setup, log: seq<Rec>, own: Option<Tree>, es: seq<Event>, k: nat, reach: Reach,
                          units: seq<nat>, j: nat, status: Status, cases: nat, skipped: nat)
    requires LawfulStart(s, log, own) && k < |After(s, log, own, es).flight|
    requires After(s, log, own, es).flight[k].leg.Some? && After(s, log, own, es).flight[k].job.item.kind.Exhaustive?
    requires var w := After(s, log, own, es);
             var next := Next(s, Dropped(w, k), Plan(reach, units));
             j < |next.flight| && next.flight[j].job.item == w.flight[k].job.item && (status == Pass || status == Fail)
    ensures var w := After(s, log, own, es);
            var job, it := w.flight[k].job, w.flight[k].job.item;
            var next := Next(s, Dropped(w, k), Plan(reach, units));
            var c := SeenClass(s, w.own, it.reach);
            && job.ask.Range? && next.flight[j].job.ask.Range? && next.flight[j].job.ask.lo == job.ask.lo
            && (Done(w.flight[k].leg.value) && Known(c) ==>
                  !Disjoint(ReplayIntervals(MineFor(s, Next(s, next, Finish(j, status, cases, skipped)).log, it, c))))
  {
    hide After, Next, Inv, LawfulStart, ReplayIntervals, MineFor, SeenClass, LegOf, Disjoint;
    Completion.StartKeeps(s, log, own, es);
    var w := After(s, log, own, es);
    var next := Next(s, Dropped(w, k), Plan(reach, units));
    PlannedAgain(s, w, k, reach, units, j);
    SameStart(s.cfg, w.live, w.flight[k].job, next.flight[j].job);
    FinishAppends(s, next, j, status, cases, skipped);
    if Done(w.flight[k].leg.value) && Known(SeenClass(s, w.own, w.flight[k].job.item.reach)) {
      Completion.LegIs(s, next.flight[j].job, status, cases, skipped);
      HeldTwice(s, w, k, next.flight[j].job, LegOf(s, next.flight[j].job, status, cases, skipped));
    }
  }

  lemma PlannedAgain(s: Setup, w: World, k: nat, reach: Reach, units: seq<nat>, j: nat)
    requires Inv(s, w) && k < |w.flight|
    requires var next := Next(s, Dropped(w, k), Plan(reach, units));
             j < |next.flight| && next.flight[j].job.item == w.flight[k].job.item
    ensures var next := Next(s, Dropped(w, k), Plan(reach, units));
            && next.log == w.log && next.flight[j].leg.None?
            && WellPlanned(s.cfg, w.live, next.flight[j].job) && WellPlanned(s.cfg, w.live, w.flight[k].job)
  {
    hide ReplayOk, CoverOk, PlanWave, WellPlanned, SeedsFit, Recorded, ValidConfig;
    var w' := Dropped(w, k);
    var next := Next(s, w', Plan(reach, units));
    var avoid := if reach == Tile then {} else Busy(w'.flight);
    var wave := PlanWave(s.cfg, w.live, reach, units, avoid);
    JobHas(s, w, k);
    assert forall i | 0 <= i < |w'.flight| :: w'.flight[i] == w.flight[if i < k then i else i + 1];
    assert forall i | 0 <= i < |w'.flight| :: w'.flight[i].job.item.name != w.flight[k].job.item.name;
    if MayPlan(w', reach, units) { WavePlanned(s.cfg, w.live, reach, units, avoid); }
    assert forall i | 0 <= i < |w'.flight| :: next.flight[i] == w'.flight[i];
    assert j >= |w'.flight| && next.flight[j] == Flight(wave[j - |w'.flight|], None);
  }

  lemma SameStart(cfg: Config, live: Live, a: Job, b: Job)
    requires WellPlanned(cfg, live, a) && WellPlanned(cfg, live, b) && a.item == b.item && a.item.kind.Exhaustive?
    ensures a.ask.Range? && b.ask.Range? && a.ask.lo == b.ask.lo && a.ask.lo < a.ask.hi && b.ask.lo < b.ask.hi
  {
    hide Behind;
    var s := Behind(At(live, a.item.name));
    assert !In(s, a.ask.lo) && !In(s, b.ask.lo);
  }

  lemma FinishAppends(s: Setup, w: World, j: nat, status: Status, cases: nat, skipped: nat)
    requires j < |w.flight| && w.flight[j].leg.None? && status != Skipped
    ensures Next(s, w, Finish(j, status, cases, skipped)).log
         == w.log + [Sweep(LegOf(s, w.flight[j].job, status, cases, skipped))]
  {
  }

  lemma HeldTwice(s: Setup, w: World, k: nat, job: Job, leg: Leg)
    requires Inv(s, w) && k < |w.flight| && w.flight[k].leg.Some? && Done(w.flight[k].leg.value)
    requires w.flight[k].job.item.kind.Exhaustive? && Known(SeenClass(s, w.own, w.flight[k].job.item.reach))
    requires job.item == w.flight[k].job.item && job.ask.Range? && w.flight[k].job.ask.Range?
    requires job.ask.lo == w.flight[k].job.ask.lo < w.flight[k].job.ask.hi && job.ask.lo < job.ask.hi
    requires Done(leg) && leg == LegOf(s, job, leg.status, leg.cases, leg.skipped)
    ensures var it := job.item;
            !Disjoint(ReplayIntervals(MineFor(s, w.log + [Sweep(leg)], it, SeenClass(s, w.own, it.reach))))
  {
    hide CoverOk, SeenClass, OwnClass, MineFor, ReplayIntervals, Mine, Account, ValidConfig, WellPlanned, Recorded,
         LastTree, ReplayOk, Disjoint;
    var it, lost := job.item, w.flight[k].leg.value;
    var c := SeenClass(s, w.own, it.reach);
    JobHas(s, w, k);
    NamesNotEmpty(s.cfg, it);
    RecordedHas(s, w.own, it);
    RecordedIsSeen(s, w.own, it.reach);
    assert ReplayOk(s, w, it);
    LogLeg(s, w.log, leg, it, c);
    MineOwn(s, w.own, it, c, leg);
    ReplayCovers(MineFor(s, w.log, it, c), leg);
    LoggedIsHeld(s, w, it, lost);
    var iv := At(w.live, it.name).intervals + [Slice(lost)];
    assert iv[|iv| - 1] == Slice(lost);
    MeetsItself(iv, job.ask.lo, job.ask.hi);
  }

  lemma LoggedIsHeld(s: Setup, w: World, it: Item, leg: Leg)
    requires ReplayOk(s, w, it) && Pending(w.flight, it.name) == Some(leg) && Done(leg) && leg.ask.Range?
    requires Known(SeenClass(s, w.own, it.reach))
    ensures ReplayIntervals(MineFor(s, w.log, it, OwnClass(w.own, it.reach)))
         == At(w.live, it.name).intervals + [Slice(leg)]
  {
    hide Account, SeenClass, OwnClass, MineFor, ReplayIntervals, ReplayFails, ReplayServed, ReplayCases, ReplaySkipped,
         ReplayBad, ReplaySeedN, Judged, LegsFor, LiveLegs, ErrorsSince, FailsOf, QuarantineIs;
    AccountCovers(s.cfg.limit, At(w.live, it.name), leg);
  }

  /** Such a run: one item, its first slice's record appended, its job lost, and the slice
      done again. */
  lemma LostRecordOverlaps(s: Setup, own: Option<Tree>, it: Item, u: nat)
    requires Alone(s, it) && u > 0 && Known(SeenClass(s, own, it.reach))
    ensures var w := After(s, [], own, Once(it, u));
            && |w.flight| == 1 && it.kind.Exhaustive?
            && var again := Run(s, Dropped(w, 0), Once(it, u)).log;
               ReplayIntervals(MineFor(s, again, it, SeenClass(s, own, it.reach)))
                == [FirstSlice(it, u), FirstSlice(it, u)]
  {
    hide Next, Run, Alone, At, MineFor, SeenClass, Boot, ReplayIntervals;
    AloneHas(s, it);
    FirstRun(s, own, it, u);
    var w := After(s, [], own, Once(it, u));
    assert Remove(w.flight, 0) == [];
    RecordsFirst(s, w.(flight := []), it, u, Pass, 0, 0);
    TwiceHeld(s, own, own, it, u, SeenClass(s, own, it.reach));
  }
}
