/** hw/card_stress.py's Driver as the object it is: dictionaries updated in place by
    load_state, count_by_class, pick_item, plan_wave and account_slice, each proved to do
    to every item's entries what the item-at-a-time definitions say. */
module CardDriver {
  import opened Wrappers
  import opened Intervals
  import opened Trees
  import opened Sweep
  import opened Campaign
  import opened Totals
  import Seeds
  import opened History

  function Get<V>(m: map<string, V>, k: string, d: V): V {
    if k in m then m[k] else d
  }

  /** whole_space_ok or whole_space_mismatch. */
  datatype Closed = Closed(ok: bool, cases: int, skipped: int)

  /** What plan_wave comes to: the wave, an interval that is none, a number seed_for has no
      room for, or a stream another slice started. */
  datatype Planning =
    | Planned(wave: seq<Job>)
    | Improper(lo: int, hi: int)
    | NoSeed(item: string, n: nat)
    | Collision(item: string, n: nat, prior: (string, nat))

  /** The random slices of a file, whatever came of them. */
  function Draws(recs: seq<Rec>): seq<Seeds.Drawn> {
    if recs == [] then []
    else
      var r := recs[|recs| - 1];
      Draws(recs[..|recs| - 1])
      + if r.Sweep? && r.leg.item != "" && r.leg.ask.Draw? then [DrawnOf(r.leg)] else []
  }

  function DrawnOf(leg: Leg): Seeds.Drawn
    requires leg.ask.Draw?
  {
    Seeds.Drawn(leg.item, leg.ask.n, leg.ask.seed, leg.batch, Done(leg))
  }

  // ---- sweep_coverage -------------------------------------------------------

  function AllLegs(recs: seq<Rec>): seq<Leg> {
    if recs == [] then []
    else AllLegs(recs[..|recs| - 1]) + if recs[|recs| - 1].Sweep? then [recs[|recs| - 1].leg] else []
  }

  lemma {:induction false} LegsAreForItem(recs: seq<Rec>, name: string)
    ensures ForItem(AllLegs(recs), name) == LegsFor(recs, name)
  {
    if recs != [] {
      var before, r := recs[..|recs| - 1], recs[|recs| - 1];
      LegsAreForItem(before, name);
      assert AllLegs(before) + [] == AllLegs(before) && LegsFor(before, name) + [] == LegsFor(before, name);
      if r.Sweep? { ForItemSnoc(AllLegs(before), r.leg, name); }
    }
  }

  type Spans = map<string, seq<Iv>>
  type Tallies = map<string, nat>

  /** What the three dictionaries hold of one item, given its legs. */
  ghost predicate Covers(intervals: Spans, served: Tallies, seeds: Tallies, name: string, mine: seq<Leg>) {
    name != "" ==>
      && Get(intervals, name, []) == ReplayIntervals(mine)
      && Get(served, name, 0) == ReplayServed(mine)
      && (if name in seeds then seeds[name] + 1 else 0) == ReplaySeedN(mine)
  }

  /** The slices covered and served by item, and the highest n completed of each. */
  method SweepCoverage(legs: seq<Leg>) returns (intervals: Spans, served: Tallies, seeds: Tallies)
    ensures forall name :: Covers(intervals, served, seeds, name, ForItem(legs, name))
  {
    hide Covers, StepIs, ReplayIntervals, ReplayServed, ReplaySeedN;
    intervals, served, seeds := map[], map[], map[];
    CoversNone();
    for i := 0 to |legs|
      invariant forall name :: Covers(intervals, served, seeds, name, ForItem(legs[..i], name))
    {
      ghost var iv, sv, sd := intervals, served, seeds;
      var leg := legs[i];
      if leg.item != "" && Done(leg) {
        served := served[leg.item := Get(served, leg.item, 0) + 1];
        match leg.ask {
          case Range(lo, hi) => intervals := intervals[leg.item := Get(intervals, leg.item, []) + [(lo, hi)]];
          case Draw(n, _) =>
            if leg.item !in seeds || n > seeds[leg.item] { seeds := seeds[leg.item := n]; }
        }
      }
      ghost var seen := legs[..i + 1];
      forall name
        ensures Covers(intervals, served, seeds, name, ForItem(seen, name))
      {
        assert Covers(iv, sv, sd, name, ForItem(legs[..i], name));
        OneMore(legs, i, name);
        CoversStep(iv, sv, sd, intervals, served, seeds, name, ForItem(legs[..i], name), leg);
      }
    }
    assert legs[..|legs|] == legs;
  }

  lemma CoversNone()
    ensures forall name :: Covers(map[], map[], map[], name, [])
  {
  }

  lemma CoversStep(iv: Spans, sv: Tallies, sd: Tallies, intervals: Spans, served: Tallies, seeds: Tallies,
                   name: string, before: seq<Leg>, leg: Leg)
    requires Covers(iv, sv, sd, name, before)
    requires var counts := leg.item != "" && Done(leg);
             && served == (if counts then sv[leg.item := Get(sv, leg.item, 0) + 1] else sv)
             && intervals == (if counts && leg.ask.Range?
                              then iv[leg.item := Get(iv, leg.item, []) + [(leg.ask.lo, leg.ask.hi)]] else iv)
             && seeds == (if counts && leg.ask.Draw? && (leg.item !in sd || leg.ask.n > sd[leg.item])
                          then sd[leg.item := leg.ask.n] else sd)
    ensures Covers(intervals, served, seeds, name, if leg.item == name then before + [leg] else before)
  {
    hide ReplayIntervals, ReplayServed, ReplayCases, ReplaySkipped, ReplayBad, ReplayFails, ReplaySeedN, Judged, Bump;
    StepOf(before, leg);
  }

  /** What one more leg adds to an item's legs, and to its numbers. */
  lemma OneMore(legs: seq<Leg>, i: nat, name: string)
    requires i < |legs|
    ensures var before, now := ForItem(legs[..i], name), ForItem(legs[..i + 1], name);
            if legs[i].item == name then now == before + [legs[i]] && StepIs(before, legs[i]) else now == before
  {
    hide StepIs;
    assert legs[..i + 1] == legs[..i] + [legs[i]];
    ForItemSnoc(legs[..i], legs[i], name);
    StepOf(ForItem(legs[..i], name), legs[i]);
  }

  ghost predicate StepIs(before: seq<Leg>, leg: Leg) {
    var all := before + [leg];
    && ReplayIntervals(all) == ReplayIntervals(before) + (if Done(leg) && leg.ask.Range? then [Slice(leg)] else [])
    && ReplayServed(all) == ReplayServed(before) + (if Done(leg) then 1 else 0)
    && ReplayCases(all) == ReplayCases(before) + (if Done(leg) && leg.ask.Range? then leg.cases else 0)
    && ReplaySkipped(all) == ReplaySkipped(before) + (if Done(leg) && leg.ask.Range? then leg.skipped else 0)
    && ReplaySeedN(all) == (if Done(leg) && leg.ask.Draw? && leg.ask.n + 1 > ReplaySeedN(before) then leg.ask.n + 1
                            else ReplaySeedN(before))
    && ReplayBad(all) == (if Unreadable(leg) then ReplayBad(before) + 1 else if Done(leg) then 0 else ReplayBad(before))
    && ReplayFails(all) == (if ReplayFailed(leg) then Bump(ReplayFails(before), Slice(leg)) else ReplayFails(before))
    && (Judged(all) <==> Judged(before) || Done(leg) || Unreadable(leg))
  }

  lemma StepOf(before: seq<Leg>, leg: Leg)
    ensures StepIs(before, leg)
  {
    assert (before + [leg])[..|before|] == before;
    JudgedSnoc(before, leg);
  }

  lemma EmptyReached(limit: int)
    ensures Sweep.Reached([], limit) == []
  {
  }

  /** What load_state's own three dictionaries hold of one item, given its legs. */
  ghost predicate Notes(itemBad: Tallies, sums: map<string, (int, int)>, fails: map<string, Fails>, name: string,
                        all: seq<Leg>) {
    name != "" ==>
      && (name in itemBad <==> Judged(all)) && Get(itemBad, name, 0) == ReplayBad(all)
      && Get(sums, name, (0, 0)) == (ReplayCases(all), ReplaySkipped(all))
      && Get(fails, name, []) == ReplayFails(all)
  }

  /** load_state's pass over the records: streaks, sums and the slices that did not finish. */
  method ReadStreaks(legs: seq<Leg>) returns (itemBad: Tallies, sums: map<string, (int, int)>,
                     fails: map<string, Fails>)
    ensures forall name :: Notes(itemBad, sums, fails, name, ForItem(legs, name))
    ensures forall name :: name != "" ==> Get(itemBad, name, 0) == Streak(ForItem(legs, name))
  {
    hide Streak, Notes, StepIs, Bump, Judged, ReplayBad, ReplayCases, ReplaySkipped, ReplayFails;
    itemBad, sums, fails := map[], map[], map[];
    NotesNone();
    for i := 0 to |legs|
      invariant forall name :: Notes(itemBad, sums, fails, name, ForItem(legs[..i], name))
    {
      ghost var ib, sm, fl := itemBad, sums, fails;
      var leg := legs[i];
      if leg.item != "" && Unreadable(leg) {
        itemBad := itemBad[leg.item := Get(itemBad, leg.item, 0) + 1];
      } else if leg.item != "" && Done(leg) {
        itemBad := itemBad[leg.item := 0];
        if leg.ask.Range? {
          var s := Get(sums, leg.item, (0, 0));
          sums := sums[leg.item := (s.0 + leg.cases, s.1 + leg.skipped)];
        }
      }
      if ReplayFailed(leg) { fails := fails[leg.item := Bump(Get(fails, leg.item, []), Slice(leg))]; }
      ghost var seen := legs[..i + 1];
      forall name
        ensures Notes(itemBad, sums, fails, name, ForItem(seen, name))
      {
        assert Notes(ib, sm, fl, name, ForItem(legs[..i], name));
        OneMore(legs, i, name);
        NotesStep(ib, sm, fl, itemBad, sums, fails, name, ForItem(legs[..i], name), leg);
      }
    }
    assert legs[..|legs|] == legs;
    forall name | name != ""
      ensures Get(itemBad, name, 0) == Streak(ForItem(legs, name))
    {
      NotesStreak(itemBad, sums, fails, name, ForItem(legs, name));
    }
  }

  lemma NotesStreak(itemBad: Tallies, sums: map<string, (int, int)>, fails: map<string, Fails>, name: string,
                    all: seq<Leg>)
    requires name != "" && Notes(itemBad, sums, fails, name, all)
    ensures Get(itemBad, name, 0) == Streak(all)
  {
    hide Streak;
    RebuiltStreak(all);
  }

  lemma NotesNone()
    ensures forall name :: Notes(map[], map[], map[], name, [])
  {
  }

  function Added(sums: map<string, (int, int)>, leg: Leg): (int, int) {
    (Get(sums, leg.item, (0, 0)).0 + leg.cases, Get(sums, leg.item, (0, 0)).1 + leg.skipped)
  }

  lemma NotesStep(ib: Tallies, sm: map<string, (int, int)>, fl: map<string, Fails>,
                  itemBad: Tallies, sums: map<string, (int, int)>, fails: map<string, Fails>, name: string,
                  before: seq<Leg>, leg: Leg)
    requires Notes(ib, sm, fl, name, before)
    requires itemBad == if leg.item != "" && Unreadable(leg) then ib[leg.item := Get(ib, leg.item, 0) + 1]
                        else if leg.item != "" && Done(leg) then ib[leg.item := 0] else ib
    requires sums == if leg.item != "" && Done(leg) && leg.ask.Range? then sm[leg.item := Added(sm, leg)] else sm
    requires fails == if ReplayFailed(leg) then fl[leg.item := Bump(Get(fl, leg.item, []), Slice(leg))] else fl
    ensures Notes(itemBad, sums, fails, name, if leg.item == name then before + [leg] else before)
  {
    hide Bump, Judged, ReplayBad, ReplayCases, ReplaySkipped, ReplayFails, ReplayServed, ReplaySeedN, ReplayIntervals;
    StepOf(before, leg);
    BadNeedsJudged(before);
  }

  /** The dictionaries load_state derives, for one item. */
  lemma LoadedIs(limit: int, intervals: Spans, served: Tallies, seeds: Tallies, itemBad: Tallies,
                 sums: map<string, (int, int)>, fails: map<string, Fails>, name: string, all: seq<Leg>)
    requires name != "" && Covers(intervals, served, seeds, name, all) && Notes(itemBad, sums, fails, name, all)
    ensures Replay(limit, 0, all, all)
         == ItemState(Get(intervals, name, []), Get(served, name, 0),
                      Get(sums, name, (0, 0)).0, Get(sums, name, (0, 0)).1,
                      if name in seeds then seeds[name] + 1 else 0, Get(itemBad, name, 0),
                      name in itemBad && itemBad[name] > limit, Get(fails, name, []),
                      if name in fails then Sweep.Reached(fails[name], limit) else [])
  {
    hide ReplayIntervals, ReplayServed, ReplayCases, ReplaySkipped, ReplayBad, ReplayFails, ReplaySeedN, Judged;
    EmptyReached(limit);
  }

  /** What the sums hold of one item, given its counted slices. */
  ghost predicate Summed(sums: map<string, (int, int)>, name: string, mine: seq<Leg>) {
    Get(sums, name, (0, 0)) == (ReplayCases(mine), ReplaySkipped(mine))
  }

  lemma SummedNone()
    ensures forall name :: Summed(map[], name, [])
  {
  }

  lemma SummedStep(was: map<string, (int, int)>, sums: map<string, (int, int)>, name: string, before: seq<Leg>,
                   leg: Leg)
    requires Summed(was, name, before) && Finished(leg)
    requires sums == if leg.ask.Range? then was[leg.item := Added(was, leg)] else was
    ensures Summed(sums, name, if leg.item == name then before + [leg] else before)
  {
    hide ReplayCases, ReplaySkipped, ReplayIntervals, ReplayServed, ReplaySeedN, ReplayBad, ReplayFails, Judged, Bump;
    StepOf(before, leg);
  }

  /** The class sums, over the slices counted. */
  method ReadSums(legs: seq<Leg>) returns (sums: map<string, (int, int)>)
    requires forall l :: l in legs ==> Finished(l)
    ensures forall name ::
              Get(sums, name, (0, 0)) == (ReplayCases(ForItem(legs, name)), ReplaySkipped(ForItem(legs, name)))
  {
    hide Summed, StepIs, ReplayCases, ReplaySkipped;
    sums := map[];
    SummedNone();
    for i := 0 to |legs|
      invariant forall name :: Summed(sums, name, ForItem(legs[..i], name))
    {
      ghost var was := sums;
      var leg := legs[i];
      assert leg in legs;
      if leg.ask.Range? {
        var s := Get(sums, leg.item, (0, 0));
        sums := sums[leg.item := (s.0 + leg.cases, s.1 + leg.skipped)];
      }
      ghost var seen := legs[..i + 1];
      forall name
        ensures Summed(sums, name, ForItem(seen, name))
      {
        assert Summed(was, name, ForItem(legs[..i], name));
        OneMore(legs, i, name);
        SummedStep(was, sums, name, ForItem(legs[..i], name), leg);
      }
    }
    assert legs[..|legs|] == legs;
    forall name
      ensures Get(sums, name, (0, 0)) == (ReplayCases(ForItem(legs, name)), ReplaySkipped(ForItem(legs, name)))
    {
      assert Summed(sums, name, ForItem(legs, name));
      SummedIs(sums, name, ForItem(legs, name));
    }
  }

  lemma SummedIs(sums: map<string, (int, int)>, name: string, mine: seq<Leg>)
    requires Summed(sums, name, mine)
    ensures Get(sums, name, (0, 0)) == (ReplayCases(mine), ReplaySkipped(mine))
  {
  }

  // ---- where nothing is left out, the whole file is the class's -------------

  lemma {:induction false} AllCounted(recs: seq<Rec>, rev: Option<Rev>, now: Classes)
    ensures |Counted(recs, rev, now)| <= |AllFinished(recs)|
    ensures |Counted(recs, rev, now)| == |AllFinished(recs)| ==> Counted(recs, rev, now) == AllFinished(recs)
  {
    if recs != [] { AllCounted(recs[..|recs| - 1], rev, now); }
  }

  ghost predicate SameCounts(a: seq<Leg>, b: seq<Leg>) {
    && ReplayIntervals(a) == ReplayIntervals(b) && ReplayServed(a) == ReplayServed(b)
    && ReplayCases(a) == ReplayCases(b) && ReplaySkipped(a) == ReplaySkipped(b)
  }

  lemma SameCountsStep(a: seq<Leg>, b: seq<Leg>, leg: Leg)
    requires SameCounts(a, b) && StepIs(a, leg) && StepIs(b, leg)
    ensures SameCounts(a + [leg], b + [leg]) && (!Done(leg) ==> SameCounts(a + [leg], b))
  {
    hide ReplayIntervals, ReplayServed, ReplayCases, ReplaySkipped, ReplayBad, ReplayFails, ReplaySeedN, Judged;
  }

  /** The legs that did not finish count for nothing here. */
  lemma {:induction false} OnlyFinished(recs: seq<Rec>, name: string)
    requires name != ""
    ensures SameCounts(LegsFor(recs, name), ForItem(AllFinished(recs), name))
  {
    hide SameCounts, StepIs;
    if recs == [] {
      SameCountsNone();
    } else {
      var before, r := recs[..|recs| - 1], recs[|recs| - 1];
      OnlyFinished(before, name);
      var fin := AllFinished(before);
      assert fin + [] == fin && LegsFor(before, name) + [] == LegsFor(before, name);
      assert ForItem(fin, name) + [] == ForItem(fin, name);
      if r.Sweep? {
        StepOf(LegsFor(before, name), r.leg);
        StepOf(ForItem(fin, name), r.leg);
        SameCountsStep(LegsFor(before, name), ForItem(fin, name), r.leg);
        ForItemSnoc(fin, r.leg, name);
      }
    }
  }

  lemma SameCountsNone()
    ensures SameCounts([], [])
  {
  }

  /** No gap left in [0, space). */
  ghost predicate Full(iv: seq<Iv>, space: nat) { FirstGap(iv, space).None? }

  // ---- the driver -----------------------------------------------------------

  class Driver {
    const cfg: Config
    const cat: Seeds.Catalog
    const earlier: seq<seq<Seeds.Drawn>>      // --earlier-runs: the draws of each directory named
    const wholes: map<string, (int, int)>     // an item's whole-space cases and skipped slots
    var intervals: Spans
    var served: Tallies
    var sums: map<string, (int, int)>
    var seedN: Tallies
    var seedStates: Seeds.States
    var itemBad: Tallies
    var disabled: set<string>
    var fails: map<string, Fails>
    var quarantine: Spans
    var wholeDone: set<string>

    constructor (cfg: Config, cat: Seeds.Catalog, earlier: seq<seq<Seeds.Drawn>>, wholes: map<string, (int, int)>)
      ensures this.cfg == cfg && this.cat == cat && this.earlier == earlier && this.wholes == wholes
      ensures Fresh()
    {
      this.cfg, this.cat, this.earlier, this.wholes := cfg, cat, earlier, wholes;
      intervals, served, sums, seedN, seedStates, itemBad := map[], map[], map[], map[], map[], map[];
      disabled, fails, quarantine, wholeDone := {}, map[], map[], {};
    }

    ghost predicate Fresh()
      reads this
    {
      && intervals == map[] && served == map[] && sums == map[] && seedN == map[]
      && seedStates == map[] && itemBad == map[]
      && disabled == {} && fails == map[] && quarantine == map[] && wholeDone == {}
    }

    /** Everything the dictionaries say of one item. */
    ghost function StateOf(name: string): ItemState
      reads this
    {
      ItemState(Get(intervals, name, []), Get(served, name, 0), Get(sums, name, (0, 0)).0, Get(sums, name, (0, 0)).1,
                Get(seedN, name, 0), Get(itemBad, name, 0), name in disabled,
                Get(fails, name, []), Get(quarantine, name, []))
    }

    ghost function State(): Live
      reads this
    {
      map name | name in Names(cfg.items) :: StateOf(name)
    }

    /** load_state: the state of the whole file, and the streams its slices started. */
    method LoadState(recs: seq<Rec>)
      requires Fresh()
      modifies this
      ensures forall name :: name != "" ==>
                StateOf(name) == Replay(cfg.limit, 0, LegsFor(recs, name), LegsFor(recs, name))
      ensures seedStates == Seeds.StatesIn(cat, Draws(recs)) && wholeDone == {}
      ensures forall name :: name != "" ==> StateOf(name).bad == Streak(LegsFor(recs, name))
      ensures forall name :: name != "" && cfg.limit >= 0 ==>
                (StateOf(name).disabled <==> Streak(LegsFor(recs, name)) > cfg.limit)
    {
      hide Streak, Replay, LegsFor, Draws, Seeds.StatesIn, StateOf;
      seedStates := Seeds.SeedStates(cat, Draws(recs));
      LoadItems(recs);
      forall name | name != ""
        ensures StateOf(name).bad == Streak(LegsFor(recs, name))
        ensures cfg.limit >= 0 ==> (StateOf(name).disabled <==> Streak(LegsFor(recs, name)) > cfg.limit)
      {
        RebuiltSays(cfg.limit, 0, LegsFor(recs, name), LegsFor(recs, name));
      }
    }

    method LoadItems(recs: seq<Rec>)
      modifies this`intervals, this`served, this`sums, this`seedN, this`itemBad, this`disabled, this`fails,
               this`quarantine
      ensures forall name :: name != "" ==>
                StateOf(name) == Replay(cfg.limit, 0, LegsFor(recs, name), LegsFor(recs, name))
    {
      hide Replay, Covers, Notes, AllLegs, LegsFor, ForItem, Sweep.Reached, StateOf;
      var legs := AllLegs(recs);
      var seeds: Tallies;
      intervals, served, seeds := SweepCoverage(legs);
      seedN := map k | k in seeds :: seeds[k] + 1;
      itemBad, sums, fails := ReadStreaks(legs);
      disabled := set k | k in itemBad && itemBad[k] > cfg.limit;
      quarantine := map k | k in fails :: Sweep.Reached(fails[k], cfg.limit);
      forall name | name != ""
        ensures StateOf(name) == Replay(cfg.limit, 0, LegsFor(recs, name), LegsFor(recs, name))
      {
        LegsAreForItem(recs, name);
        assert Covers(intervals, served, seeds, name, ForItem(legs, name));
        assert Notes(itemBad, sums, fails, name, ForItem(legs, name));
        LoadIs(seeds, name, LegsFor(recs, name));
      }
    }

    lemma LoadIs(seeds: Tallies, name: string, all: seq<Leg>)
      requires name != "" && Covers(intervals, served, seeds, name, all) && Notes(itemBad, sums, fails, name, all)
      requires Get(seedN, name, 0) == if name in seeds then seeds[name] + 1 else 0
      requires name in disabled <==> name in itemBad && itemBad[name] > cfg.limit
      requires Get(quarantine, name, []) == if name in fails then Sweep.Reached(fails[name], cfg.limit) else []
      ensures StateOf(name) == Replay(cfg.limit, 0, all, all)
    {
      hide Replay, Covers, Notes, Sweep.Reached;
      LoadedIs(cfg.limit, intervals, served, seeds, itemBad, sums, fails, name, all);
    }

    /** The first number of an item above those of every run named. */
    function FloorOf(name: string): nat { Seeds.FloorOver(cat, earlier, name, Some(cfg.batch)) }

    /** load_earlier: a random item's first n is above every named earlier run's, and their
        streams are known beside this file's own, which win. */
    method LoadEarlier()
      modifies this`seedN, this`seedStates
      ensures forall name ::
                StateOf(name) == old(StateOf(name)).(seedN := Seeds.Max(old(StateOf(name)).seedN, FloorOf(name)))
      ensures seedStates == Seeds.StatesOver(cat, earlier) + old(seedStates)
    {
      if earlier == [] { return; }
      var floor, states := Seeds.EarlierRuns(cat, earlier, Some(cfg.batch));
      seedStates := states + seedStates;
      seedN := map k | k in seedN.Keys + floor.Keys :: Seeds.Max(Get(seedN, k, 0), Get(floor, k, 0));
      assert forall name :: Get(floor, name, 0) == Seeds.Get(floor, name);
    }

    /** count_by_class: keep, of the coverage, the slices served and the sums, what the file
        holds of this run's own class. */
    method CountByClass(recs: seq<Rec>, rev: Option<Rev>, now: Classes)
      requires forall name :: name != "" ==>
                 StateOf(name) == Replay(cfg.limit, FloorOf(name), LegsFor(recs, name), LegsFor(recs, name))
      modifies this`intervals, this`served, this`sums
      ensures forall name :: name != "" ==>
                StateOf(name) == Replay(cfg.limit, FloorOf(name), LegsFor(recs, name),
                                        ForItem(Counted(recs, rev, now), name))
    {
      hide FloorOf, ReplayIntervals, ReplayServed, ReplayCases, ReplaySkipped, ReplayBad, ReplayFails, ReplaySeedN,
           Judged, Tallied, ForItem, LegsFor, Counted, AllFinished;
      var counted, tally := CountSlices(recs, now, rev);
      if tally.otherTile + tally.otherHost == 0 && Total(tally.unknown) == 0 {
        AllCounted(recs, rev, now);
        forall name | name != ""
          ensures StateOf(name) == Replay(cfg.limit, FloorOf(name), LegsFor(recs, name), ForItem(counted, name))
        {
          OnlyFinished(recs, name);
        }
        return;
      }
      var seeds: Tallies;
      intervals, served, seeds := SweepCoverage(counted);
      CountedAreRecs(recs, rev, now);
      sums := ReadSums(counted);
      forall name | name != ""
        ensures StateOf(name) == Replay(cfg.limit, FloorOf(name), LegsFor(recs, name), ForItem(counted, name))
      {
        assert old(StateOf(name)) == Replay(cfg.limit, FloorOf(name), LegsFor(recs, name), LegsFor(recs, name));
        assert Covers(intervals, served, seeds, name, ForItem(counted, name));
      }
    }

    /** A resume: what each item's state is, is what LoadItem says of the file; and the
        streams known are this file's and the named ones'. */
    method Resume(recs: seq<Rec>, rev: Option<Rev>, now: Classes)
      requires Fresh()
      modifies this
      ensures forall name :: name != "" ==>
                StateOf(name) == Replay(cfg.limit, FloorOf(name), LegsFor(recs, name),
                                        ForItem(Counted(recs, rev, now), name))
      ensures seedStates == Seeds.StatesOver(cat, earlier) + Seeds.StatesIn(cat, Draws(recs))
    {
      hide FloorOf, LegsFor, ForItem, Counted, Draws;
      LoadState(recs);
      LoadEarlier();
      forall name | name != ""
        ensures StateOf(name) == Replay(cfg.limit, FloorOf(name), LegsFor(recs, name), LegsFor(recs, name))
      {
        FloorRaises(cfg.limit, FloorOf(name), LegsFor(recs, name));
      }
      CountByClass(recs, rev, now);
    }

    lemma FloorRaises(limit: int, floor: nat, legs: seq<Leg>)
      ensures var r := Replay(limit, 0, legs, legs);
              Replay(limit, floor, legs, legs) == r.(seedN := Seeds.Max(r.seedN, floor))
    {
    }

    /** The stream a slice of the item starts from this seed. */
    function KeyOf(item: string, seed: nat): Seeds.Key { Seeds.StreamKey(cat, item, seed, cfg.batch) }

    /** account_slice, and whole_space_events. */
    method AccountSlice(job: Job, leg: Leg) returns (ev: Option<Closed>)
      requires leg.item == job.item.name && leg.ask == job.ask && (job.item.kind.Exhaustive? <==> job.ask.Range?)
      requires job.ask.Range? ==>
                 Proper(StateOf(leg.item).intervals + [(job.ask.lo, job.ask.hi)]) && job.item.kind.space > 0
      modifies this
      ensures StateOf(leg.item) == Account(cfg.limit, old(StateOf(leg.item)), leg)
      ensures var was, now := old(StateOf(leg.item)), StateOf(leg.item);
              && now.bad == (match leg.status
                             case ParseError | Error => was.bad + 1
                             case Pass | Fail => 0
                             case Timeout | NoDevice | Skipped => was.bad)
              && (now.disabled <==> was.disabled || (leg.status in {ParseError, Error} && now.bad > cfg.limit))
      ensures forall name :: name != leg.item ==> StateOf(name) == old(StateOf(name))
      ensures seedStates == match job.ask
                            case Draw(n, seed) => old(seedStates)[KeyOf(job.item.name, seed) := (job.item.name, n)]
                            case Range(_, _) => old(seedStates)
      ensures var st := StateOf(leg.item);
              var closes := Done(leg) && leg.ask.Range? && leg.item in wholes && leg.item !in old(wholeDone)
                            && Full(st.intervals, job.item.kind.space);
              && ev == (if closes then Some(Closed((st.cases, st.skipped) == wholes[leg.item], st.cases, st.skipped))
                        else None)
              && wholeDone == if closes then old(wholeDone) + {leg.item} else old(wholeDone)
    {
      hide Full, Proper, Bump, FailsOf, StateOf, KeyOf;
      ev := None;
      NoteStream(job);
      Judge(leg);
      if Done(leg) {
        Serve(leg);
        if job.ask.Range? { ev := WholeSpaceEvents(job.item); }
      } else if job.ask.Range? {
        Miss(leg);
      }
    }

    /** The job's stream is started, whatever comes of it. */
    method NoteStream(job: Job)
      modifies this`seedStates
      ensures forall name :: StateOf(name) == old(StateOf(name))
      ensures seedStates == match job.ask
                            case Draw(n, seed) => old(seedStates)[KeyOf(job.item.name, seed) := (job.item.name, n)]
                            case Range(_, _) => old(seedStates)
    {
      match job.ask
      case Draw(n, seed) => seedStates := seedStates[KeyOf(job.item.name, seed) := (job.item.name, n)];
      case Range(_, _) =>
    }

    /** The item's good or bad streak. */
    method Judge(leg: Leg)
      modifies this`itemBad, this`disabled
      ensures forall name :: name != leg.item ==> StateOf(name) == old(StateOf(name))
      ensures var s, bad := old(StateOf(leg.item)), Get(itemBad, leg.item, 0);
              && StateOf(leg.item) == s.(bad := bad, disabled := s.disabled || (Unreadable(leg) && bad > cfg.limit))
              && bad == if Unreadable(leg) then s.bad + 1 else if Done(leg) then 0 else s.bad
    {
      var name := leg.item;
      if Unreadable(leg) {
        itemBad := itemBad[name := Get(itemBad, name, 0) + 1];
        if itemBad[name] > cfg.limit { disabled := disabled + {name}; }
      } else if Done(leg) {
        itemBad := itemBad[name := 0];
      }
    }

    /** A slice with a verdict. */
    method Serve(leg: Leg)
      modifies this`served, this`intervals, this`sums, this`seedN
      ensures forall name :: name != leg.item ==> StateOf(name) == old(StateOf(name))
      ensures var s := old(StateOf(leg.item));
              StateOf(leg.item) == match leg.ask
                                   case Range(lo, hi) =>
                                     s.(served := s.served + 1, intervals := s.intervals + [(lo, hi)],
                                        cases := s.cases + leg.cases, skipped := s.skipped + leg.skipped)
                                   case Draw(n, _) => s.(served := s.served + 1, seedN := n + 1)
    {
      var name := leg.item;
      served := served[name := Get(served, name, 0) + 1];
      match leg.ask {
        case Range(lo, hi) =>
          intervals := intervals[name := Get(intervals, name, []) + [(lo, hi)]];
          var sm := Get(sums, name, (0, 0));
          sums := sums[name := (sm.0 + leg.cases, sm.1 + leg.skipped)];
        case Draw(n, _) => seedN := seedN[name := n + 1];
      }
    }

    /** A slice of an exhaustive item without one. */
    method Miss(leg: Leg)
      requires leg.ask.Range?
      modifies this`fails, this`quarantine
      ensures forall name :: name != leg.item ==> StateOf(name) == old(StateOf(name))
      ensures var s := old(StateOf(leg.item));
              var mine := Bump(s.fails, Slice(leg));
              var more := if FailsOf(mine, Slice(leg)) >= cfg.limit then [Slice(leg)] else [];
              StateOf(leg.item) == s.(fails := mine, quarantine := s.quarantine + more)
    {
      hide Bump, FailsOf;
      var name, k := leg.item, Slice(leg);
      var mine := Bump(Get(fails, name, []), k);
      fails := fails[name := mine];
      if FailsOf(mine, k) >= cfg.limit { quarantine := quarantine[name := Get(quarantine, name, []) + [k]]; }
      assert Get(old(quarantine), name, []) + [] == Get(old(quarantine), name, []);
    }

    method WholeSpaceEvents(it: Item) returns (ev: Option<Closed>)
      requires it.kind.Exhaustive? && it.kind.space > 0 && Proper(StateOf(it.name).intervals)
      modifies this`wholeDone
      ensures forall name :: StateOf(name) == old(StateOf(name))
      ensures var st := StateOf(it.name);
              var closes := it.name in wholes && it.name !in old(wholeDone) && Full(st.intervals, it.kind.space);
              && ev == (if closes then Some(Closed((st.cases, st.skipped) == wholes[it.name], st.cases, st.skipped))
                        else None)
              && wholeDone == if closes then old(wholeDone) + {it.name} else old(wholeDone)
    {
      if it.name !in wholes || it.name in wholeDone { return None; }
      var gap := FirstGapOf(Get(intervals, it.name, []), it.kind.space);
      if gap.value.Some? { return None; }
      wholeDone := wholeDone + {it.name};
      var sm := Get(sums, it.name, (0, 0));
      return Some(Closed(sm == wholes[it.name], sm.0, sm.1));
    }

    /** The item passes pick_item's filters, its gaps apart. */
    predicate Asked(it: Item, avoid: set<string>, reach: Reach)
      reads this
    {
      it.name !in avoid && it.reach == reach && (cfg.only == {} || it.name in cfg.only) && it.name !in disabled
    }

    /** What the coverage and the quarantine say an item has behind it. */
    function Have(it: Item): seq<Iv>
      reads this
    {
      Get(intervals, it.name, []) + Get(quarantine, it.name, [])
    }

    ghost predicate Spaces() {
      forall i :: 0 <= i < |cfg.items| ==> cfg.items[i].kind.Exhaustive? ==> cfg.items[i].kind.space > 0
    }

    /** pick_item's answer among the first n items: which, and its gap. */
    ghost function Choice(avoid: set<string>, reach: Reach, n: nat): Option<(nat, Option<Iv>)>
      requires n <= |cfg.items|
      reads this
    {
      match Pick(cfg, State(), avoid, reach, n)
      case None => None
      case Some(k) => Some((k, GapOf(cfg.items[k])))
    }

    ghost function GapOf(it: Item): Option<Iv>
      reads this
    {
      if it.kind.Exhaustive? then FirstGap(Have(it), it.kind.space) else None
    }

    predicate Refused(it: Item, avoid: set<string>, reach: Reach)
      reads this
    {
      Asked(it, avoid, reach) && it.kind.Exhaustive? && !Proper(Have(it))
    }

    lemma ChoiceNext(avoid: set<string>, reach: Reach, i: nat)
      requires i < |cfg.items|
      ensures var it, best := cfg.items[i], Choice(avoid, reach, i);
              && (best.Some? ==> best.value.0 < i)
              && Choice(avoid, reach, i + 1)
                 == if !Asked(it, avoid, reach) || (it.kind.Exhaustive? && GapOf(it).None?) then best
                    else if best.None? || Loaded(it) < Loaded(cfg.items[best.value.0]) then Some((i, GapOf(it)))
                    else best
    {
      hide FirstGap, Weight;
      AskedIsEligible(i, avoid, reach);
      var p := Pick(cfg, State(), avoid, reach, i);
      if p.Some? { AskedIsEligible(p.value, avoid, reach); }
    }

    function Loaded(it: Item): real
      reads this
    {
      Get(served, it.name, 0) as real / Weight(cfg, it)
    }

    lemma AskedIsEligible(i: nat, avoid: set<string>, reach: Reach)
      requires i < |cfg.items|
      ensures var it := cfg.items[i];
              && (Eligible(cfg, State(), avoid, reach, it) <==>
                    Asked(it, avoid, reach) && (it.kind.Exhaustive? ==> GapOf(it).Some?))
              && Load(cfg, State(), it) == Loaded(it)
              && At(State(), it.name) == StateOf(it.name) && Behind(StateOf(it.name)) == Have(it)
    {
      hide FirstGap, Weight;
      assert cfg.items[i].name in Names(cfg.items);
    }

    /** pick_item: the choice Pick makes, or the refusal of an interval that is none. */
    method PickItem(avoid: set<string>, reach: Reach) returns (r: Result<Option<(nat, Option<Iv>)>>)
      requires Spaces()
      ensures r.Ok? <==> forall i :: 0 <= i < |cfg.items| ==> !Refused(cfg.items[i], avoid, reach)
      ensures r.Ok? ==> r.value == Choice(avoid, reach, |cfg.items|)
    {
      hide Choice, GapOf, Weight, Proper, Have, State;
      var best: Option<(nat, Option<Iv>)> := None;
      var key := 0.0;
      ChoiceNone(avoid, reach);
      for i := 0 to |cfg.items|
        invariant forall j :: 0 <= j < i ==> !Refused(cfg.items[j], avoid, reach)
        invariant best == Choice(avoid, reach, i)
        invariant best.Some? ==> best.value.0 < i && key == Loaded(cfg.items[best.value.0])
      {
        var it := cfg.items[i];
        ChoiceNext(avoid, reach, i);
        if it.name in avoid || it.reach != reach { continue; }
        if cfg.only != {} && it.name !in cfg.only { continue; }
        if it.name in disabled { continue; }
        var gap: Option<Iv> := None;
        if it.kind.Exhaustive? {
          var g := GapFound(it);
          if g.BadInterval? { return BadInterval(g.lo, g.hi); }
          gap := g.value;
          if gap.None? { continue; }
        } else {
          NoGap(it);
        }
        var w := Weight(cfg, it);
        WeightNotZero(it);
        var k := Get(served, it.name, 0) as real / w;
        if best.None? || k < key { best, key := Some((i, gap)), k; }
      }
      return Ok(best);
    }

    lemma ChoiceNone(avoid: set<string>, reach: Reach)
      ensures Choice(avoid, reach, 0) == None
    {
    }

    lemma NoGap(it: Item)
      requires !it.kind.Exhaustive?
      ensures GapOf(it) == None
    {
    }

    lemma WeightNotZero(it: Item)
      ensures Weight(cfg, it) != 0.0
    {
    }

    method GapFound(it: Item) returns (r: Result<Option<Iv>>)
      requires it.kind.Exhaustive? && it.kind.space > 0
      ensures r.Ok? <==> Proper(Have(it))
      ensures r.Ok? ==> r.value == GapOf(it)
    {
      r := FirstGapOf(Have(it), it.kind.space);
    }

    lemma ChoiceHasGap(avoid: set<string>, reach: Reach)
      ensures var pick, p := Choice(avoid, reach, |cfg.items|), Pick(cfg, State(), avoid, reach, |cfg.items|);
              && (pick.None? <==> p.None?)
              && (pick.Some? ==>
                    && p.Some? && p.value == pick.value.0 && pick.value.0 < |cfg.items|
                    && pick.value.1 == GapOf(cfg.items[pick.value.0])
                    && (cfg.items[pick.value.0].kind.Exhaustive? ==> pick.value.1.Some?))
    {
      hide FirstGap, Weight, Load, State, Have;
      var p := Pick(cfg, State(), avoid, reach, |cfg.items|);
      if p.Some? { AskedIsEligible(p.value, avoid, reach); }
    }

    /** What one more job adds to a wave. */
    lemma WaveNext(reach: Reach, units: seq<nat>, avoid: set<string>)
      requires units != []
      ensures var pick := Choice(avoid, reach, |cfg.items|);
              PlanWave(cfg, State(), reach, units, avoid)
                == if pick.None? then []
                   else if pick.value.0 < |cfg.items| then
                     [JobOf(pick.value.0, pick.value.1, units[0])]
                     + PlanWave(cfg, State(), reach, units[1..], avoid + {cfg.items[pick.value.0].name})
                   else []
      ensures var pick := Choice(avoid, reach, |cfg.items|);
              pick.Some? ==>
                && pick.value.0 < |cfg.items|
                && (cfg.items[pick.value.0].kind.Exhaustive? ==> pick.value.1.Some?)
    {
      hide FirstGap, SeedFor, Choice, State, NextAsk, JobOf;
      ChoiceHasGap(avoid, reach);
      var pick := Choice(avoid, reach, |cfg.items|);
      if pick.Some? {
        JobIs(pick.value.0, units[0]);
        AskedIsEligible(pick.value.0, avoid, reach);
      }
    }

    lemma JobIs(i: nat, units: nat)
      requires i < |cfg.items|
      requires cfg.items[i].kind.Exhaustive? ==> FirstGap(Have(cfg.items[i]), cfg.items[i].kind.space).Some?
      ensures var it := cfg.items[i];
              JobOf(i, GapOf(it), units) == Job(it, NextAsk(StateOf(it.name), it, units))
    {
      hide FirstGap, SeedFor;
    }

    /** The job of one pick. */
    function JobOf(i: nat, gap: Option<Iv>, units: nat): Job
      requires i < |cfg.items|
      reads this
    {
      var it := cfg.items[i];
      match it.kind
      case Exhaustive(_) =>
        if gap.None? then Job(it, Ask.Range(0, 0))
        else
          var (lo, end) := gap.value;
          Job(it, Ask.Range(lo, if end < lo + units then end else lo + units))
      case Random(index) => Job(it, Draw(Get(seedN, it.name, 0), SeedFor(index, Get(seedN, it.name, 0))))
    }

    /** Another slice, of this file or an earlier run's, started from the job's stream. */
    predicate Collides(job: Job)
      reads this
    {
      && job.ask.Draw? && KeyOf(job.item.name, job.ask.seed) in seedStates
      && seedStates[KeyOf(job.item.name, job.ask.seed)] != (job.item.name, job.ask.n)
    }

    /** What the first job of a wave that may not run makes of it. */
    function FirstRefusal(wave: seq<Job>): Option<Planning>
      reads this
    {
      if wave == [] then None
      else if wave[0].ask.Draw? && wave[0].ask.n >= SEEDLIMIT then Some(NoSeed(wave[0].item.name, wave[0].ask.n))
      else if Collides(wave[0]) then
        Some(Collision(wave[0].item.name, wave[0].ask.n, seedStates[KeyOf(wave[0].item.name, wave[0].ask.seed)]))
      else FirstRefusal(wave[1..])
    }

    /** An exhaustive slice is of at most u units, and of fewer only where it ends at the end
        of the space or at a point already covered or moved past. */
    ghost predicate SliceFits(job: Job, u: nat)
      reads this
    {
      job.item.kind.Exhaustive? ==>
        && job.ask.Range? && job.ask.hi - job.ask.lo <= u
        && (job.ask.hi - job.ask.lo < u ==> job.ask.hi == job.item.kind.space || In(Have(job.item), job.ask.hi))
    }

    /** A draw's number has room, and no other item's or number's slice started its stream. */
    ghost predicate StreamIsFree(job: Job)
      reads this
    {
      job.ask.Draw? ==>
        && job.ask.n < 0x80_0000_0000
        && var key := Seeds.StreamKey(cat, job.item.name, job.ask.seed, cfg.batch);
           key in seedStates ==> seedStates[key].0 == job.item.name && seedStates[key].1 == job.ask.n
    }

    lemma {:induction false} RefusalMeans(wave: seq<Job>)
      ensures FirstRefusal(wave) == None <==> forall k :: 0 <= k < |wave| ==> StreamIsFree(wave[k])
      ensures FirstRefusal(wave).Some? ==>
                match FirstRefusal(wave).value
                case NoSeed(_, n) => n >= 0x80_0000_0000
                case Collision(item, n, prior) => prior != (item, n) && prior in seedStates.Values
                case _ => false
    {
      if wave != [] {
        RefusalMeans(wave[1..]);
        assert forall k | 1 <= k < |wave| :: wave[k] == wave[1..][k - 1];
        assert forall k | 0 <= k < |wave[1..]| :: wave[1..][k] == wave[k + 1];
      }
    }

    lemma WaveFits(reach: Reach, units: seq<nat>, busy: set<string>)
      ensures var wave := PlanWave(cfg, State(), reach, units, busy);
              forall k :: 0 <= k < |wave| ==> SliceFits(wave[k], units[k])
    {
      hide PlanWave, State, Have, Behind;
      WaveEnds(cfg, State(), reach, units, busy);
      var wave := PlanWave(cfg, State(), reach, units, busy);
      forall k | 0 <= k < |wave|
        ensures SliceFits(wave[k], units[k])
      {
        assert PlanWave(cfg, State(), reach, units, busy)[k].item in cfg.items;
        var i :| 0 <= i < |cfg.items| && cfg.items[i] == wave[k].item;
        AskedIsEligible(i, busy, reach);
      }
    }

    /** plan_wave, one job for each number of units: the planner's wave, or what the first of
        its jobs that has no seed or a seed started before is refused for. */
    method Plan(reach: Reach, units: seq<nat>, busy: set<string>) returns (r: Planning)
      requires Spaces()
      ensures r.Planned? ==> r.wave == PlanWave(cfg, State(), reach, units, busy) && FirstRefusal(r.wave) == None
      ensures r.Planned? ==> |r.wave| <= |units|
      ensures r.Planned? ==> forall k :: 0 <= k < |r.wave| ==> SliceFits(r.wave[k], units[k])
      ensures r.Planned? ==> forall k :: 0 <= k < |r.wave| ==> StreamIsFree(r.wave[k])
      ensures r.NoSeed? ==> r.n >= 0x80_0000_0000
      ensures r.Collision? ==> r.prior != (r.item, r.n) && r.prior in seedStates.Values
      ensures r.NoSeed? || r.Collision? ==> FirstRefusal(PlanWave(cfg, State(), reach, units, busy)) == Some(r)
      ensures (forall it :: it in cfg.items && it.kind.Exhaustive? ==> Proper(Have(it))) ==> !r.Improper?
    {
      hide Choice, Pick, PlanWave, State, Have, Proper, Asked, FirstRefusal, JobOf, SliceFits, StreamIsFree;
      WaveFits(reach, units, busy);
      RefusalMeans(PlanWave(cfg, State(), reach, units, busy));
      var wave, avoid := [], busy;
      ghost var all := PlanWave(cfg, State(), reach, units, busy);
      for k := 0 to |units|
        invariant wave + PlanWave(cfg, State(), reach, units[k..], avoid) == all
        invariant FirstRefusal(PlanWave(cfg, State(), reach, units[k..], avoid)) == FirstRefusal(all)
      {
        var pick := PickItem(avoid, reach);
        if pick.BadInterval? { return Improper(pick.lo, pick.hi); }
        WaveNext(reach, units[k..], avoid);
        NoRefusal();
        if pick.value.None? { return Planned(wave); }
        var (i, gap) := pick.value.value;
        avoid := avoid + {cfg.items[i].name};
        var one := PlanJob(i, gap, units[k]);
        assert units[k..][1..] == units[k + 1..];
        RefusalNext(JobOf(i, gap, units[k]), PlanWave(cfg, State(), reach, units[k + 1..], avoid));
        if !one.Planned? { return one; }
        wave := wave + one.wave;
      }
      NoUnits(reach, avoid);
      NoRefusal();
      return Planned(wave);
    }

    /** The job of one pick, or its refusal. */
    method PlanJob(i: nat, gap: Option<Iv>, units: nat) returns (r: Planning)
      requires i < |cfg.items| && (cfg.items[i].kind.Exhaustive? ==> gap.Some?)
      ensures r.Planned? ==> r.wave == [JobOf(i, gap, units)] && FirstRefusal(r.wave) == None
      ensures !r.Planned? ==> !r.Improper? && FirstRefusal([JobOf(i, gap, units)]) == Some(r)
    {
      hide SeedFor, KeyOf;
      var it := cfg.items[i];
      match it.kind {
        case Exhaustive(_) =>
          var lo := gap.value.0;
          return Planned([Job(it, Ask.Range(lo, if gap.value.1 < lo + units then gap.value.1 else lo + units))]);
        case Random(index) =>
          var n := Get(seedN, it.name, 0);
          if n >= SEEDLIMIT { return NoSeed(it.name, n); }
          var seed := SeedFor(index, n);
          var key := KeyOf(it.name, seed);
          if key in seedStates && seedStates[key] != (it.name, n) { return Collision(it.name, n, seedStates[key]); }
          return Planned([Job(it, Draw(n, seed))]);
      }
    }

    lemma RefusalNext(job: Job, rest: seq<Job>)
      ensures FirstRefusal([job] + rest) == if FirstRefusal([job]).Some? then FirstRefusal([job])
                                            else FirstRefusal(rest)
    {
      assert ([job] + rest)[1..] == rest;
    }

    lemma NoRefusal()
      ensures FirstRefusal([]) == None
    {
    }

    lemma NoUnits(reach: Reach, avoid: set<string>)
      ensures PlanWave(cfg, State(), reach, [], avoid) == []
    {
    }
  }
}
