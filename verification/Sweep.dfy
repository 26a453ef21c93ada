/** The sweep's state as hw/card_stress.py keeps it, one campaign item at a time:
    account_slice folds a finished slice in, load_state and count_by_class rebuild it from
    the records, pick_item and plan_wave choose what runs next. */
module Sweep {
  import opened Wrappers
  import opened Intervals
  import opened Slices
  import opened Trees

  datatype Kind = Exhaustive(space: nat) | Random(index: nat)

  datatype Item = Item(name: string, kind: Kind, reach: Reach)

  /** A run's settings: the catalog, --sweep-items (empty: all), the weights of the two
      kinds, --quarantine-after and the tools' batch. */
  datatype Config = Config(items: seq<Item>, only: set<string>, weightExhaustive: real, weightRandom: real,
                           limit: int, batch: nat)

  ghost predicate ValidConfig(cfg: Config) {
    && cfg.weightExhaustive >= 0.0 && cfg.weightRandom >= 0.0
    && (forall i, j :: 0 <= i < j < |cfg.items| ==> cfg.items[i].name != cfg.items[j].name)
    && forall i :: 0 <= i < |cfg.items| ==> cfg.items[i].name != ""
  }

  // ---- the fail counts: a dict in the order its keys first failed -----------

  type Fails = seq<(Iv, nat)>

  function FailsOf(fs: Fails, k: Iv): nat {
    if fs == [] then 0 else if fs[0].0 == k then fs[0].1 else FailsOf(fs[1..], k)
  }

  /** fail_slices[k] = fail_slices.get(k, 0) + 1 */
  function Bump(fs: Fails, k: Iv): Fails {
    if fs == [] then [(k, 1)]
    else if fs[0].0 == k then [(k, fs[0].1 + 1)] + fs[1..]
    else [fs[0]] + Bump(fs[1..], k)
  }

  lemma {:induction false} BumpCounts(fs: Fails, k: Iv, j: Iv)
    ensures FailsOf(Bump(fs, k), j) == FailsOf(fs, j) + if j == k then 1 else 0
  {
    if fs != [] {
      BumpCounts(fs[1..], k, j);
      if fs[0].0 == k { assert ([(k, fs[0].1 + 1)] + fs[1..])[1..] == fs[1..]; }
      else { assert ([fs[0]] + Bump(fs[1..], k))[1..] == Bump(fs[1..], k); }
    }
  }

  // ---- one item's state -----------------------------------------------------

  datatype ItemState = ItemState(
    intervals: seq<Iv>,     // the slices covered
    served: nat,            // slices finished
    cases: int,             // their cases and skipped slots
    skipped: int,
    seedN: nat,             // the next random slice's number
    bad: nat,               // slices in a row with no readable verdict
    disabled: bool,
    fails: Fails,           // slices that did not finish
    quarantine: seq<Iv>)    // and those the sweep has moved past

  const FRESH := ItemState([], 0, 0, 0, 0, 0, false, [], [])

  function Slice(leg: Leg): Iv
    requires leg.ask.Range?
  {
    (leg.ask.lo, leg.ask.hi)
  }

  predicate Done(leg: Leg) { leg.status == Pass || leg.status == Fail }

  predicate Unreadable(leg: Leg) { leg.status == ParseError || leg.status == Error }

  /** account_slice: fold one finished leg into its item's state. */
  function Account(limit: int, s: ItemState, leg: Leg): ItemState {
    var bad := if Unreadable(leg) then s.bad + 1 else if Done(leg) then 0 else s.bad;
    var s1 := s.(bad := bad, disabled := s.disabled || (Unreadable(leg) && bad > limit));
    if Done(leg) then
      var s2 := s1.(served := s.served + 1);
      match leg.ask
      case Range(lo, hi) =>
        s2.(intervals := s.intervals + [(lo, hi)], cases := s.cases + leg.cases, skipped := s.skipped + leg.skipped)
      case Draw(n, _) => s2.(seedN := n + 1)
    else if leg.ask.Range? then
      var fails := Bump(s.fails, Slice(leg));
      s1.(fails := fails,
          quarantine := s.quarantine + if FailsOf(fails, Slice(leg)) >= limit then [Slice(leg)] else [])
    else s1
  }

  // ---- rebuilding it from the records ---------------------------------------

  function ReplayIntervals(legs: seq<Leg>): seq<Iv> {
    if legs == [] then []
    else
      var l := legs[|legs| - 1];
      ReplayIntervals(legs[..|legs| - 1]) + if Done(l) && l.ask.Range? then [Slice(l)] else []
  }

  function ReplayServed(legs: seq<Leg>): nat {
    if legs == [] then 0 else ReplayServed(legs[..|legs| - 1]) + if Done(legs[|legs| - 1]) then 1 else 0
  }

  function ReplayCases(legs: seq<Leg>): int {
    if legs == [] then 0
    else
      var l := legs[|legs| - 1];
      ReplayCases(legs[..|legs| - 1]) + if Done(l) && l.ask.Range? then l.cases else 0
  }

  function ReplaySkipped(legs: seq<Leg>): int {
    if legs == [] then 0
    else
      var l := legs[|legs| - 1];
      ReplaySkipped(legs[..|legs| - 1]) + if Done(l) && l.ask.Range? then l.skipped else 0
  }

  /** One more than the highest n completed, or 0. */
  function ReplaySeedN(legs: seq<Leg>): nat {
    if legs == [] then 0
    else
      var before := ReplaySeedN(legs[..|legs| - 1]);
      var l := legs[|legs| - 1];
      if Done(l) && l.ask.Draw? && l.ask.n + 1 > before then l.ask.n + 1 else before
  }

  function ReplayBad(legs: seq<Leg>): nat {
    if legs == [] then 0
    else
      var l := legs[|legs| - 1];
      if Unreadable(l) then ReplayBad(legs[..|legs| - 1]) + 1 else if Done(l) then 0 else ReplayBad(legs[..|legs| - 1])
  }

  /** The item has an entry in item_bad at all. */
  predicate Judged(legs: seq<Leg>) {
    exists i | 0 <= i < |legs| :: Done(legs[i]) || Unreadable(legs[i])
  }

  /** load_state counts a slice that did not finish for a timeout, a lost device or an
      unreadable verdict - and, unlike account_slice, not one that could not start. */
  predicate ReplayFailed(leg: Leg) {
    leg.ask.Range? && (leg.status == Timeout || leg.status == NoDevice || leg.status == ParseError)
  }

  function ReplayFails(legs: seq<Leg>): Fails {
    if legs == [] then []
    else
      var l := legs[|legs| - 1];
      var before := ReplayFails(legs[..|legs| - 1]);
      if ReplayFailed(l) then Bump(before, Slice(l)) else before
  }

  function Reached(fs: Fails, limit: int): seq<Iv> {
    if fs == [] then [] else (if fs[0].1 >= limit then [fs[0].0] else []) + Reached(fs[1..], limit)
  }

  /** load_state, load_earlier and count_by_class for one item: `all` are its legs in the
      file, `mine` the finished ones the resume counts, `floor` its --earlier-runs floor. */
  function Replay(limit: int, floor: nat, all: seq<Leg>, mine: seq<Leg>): ItemState {
    var n := ReplaySeedN(all);
    var bad := ReplayBad(all);
    ItemState(ReplayIntervals(mine), ReplayServed(mine), ReplayCases(mine), ReplaySkipped(mine),
              if n > floor then n else floor,
              bad, Judged(all) && bad > limit,
              ReplayFails(all), Reached(ReplayFails(all), limit))
  }

  // ---- replay refines the live fold -----------------------------------------

  /** What the whole file decides. */
  predicate WholeAgrees(s: ItemState, r: ItemState) {
    s.seedN == r.seedN && s.bad == r.bad && s.disabled == r.disabled
  }

  /** What the slices of the run's own class decide. */
  predicate ClassAgrees(s: ItemState, r: ItemState) {
    s.intervals == r.intervals && s.served == r.served && s.cases == r.cases && s.skipped == r.skipped
  }

  /** A leg as the planner leaves one: of an item still running, the draw its next. */
  predicate Planned(s: ItemState, leg: Leg) {
    !s.disabled && (leg.ask.Draw? ==> leg.ask.n == s.seedN)
  }

  lemma JudgedSnoc(all: seq<Leg>, leg: Leg)
    ensures Judged(all + [leg]) <==> Judged(all) || Done(leg) || Unreadable(leg)
  {
    if Judged(all) {
      var i :| 0 <= i < |all| && (Done(all[i]) || Unreadable(all[i]));
      assert (all + [leg])[i] == all[i];
    }
    if Done(leg) || Unreadable(leg) { assert (all + [leg])[|all|] == leg; }
  }

  /** One more record, accounted, is one more record replayed: numbers, streaks and
      disabling. */
  lemma AccountReplaysWhole(limit: int, floor: nat, all: seq<Leg>, mine: seq<Leg>, more: seq<Leg>, leg: Leg,
                            s: ItemState)
    requires limit >= 0 && leg.status != Skipped && Planned(s, leg)
    requires WholeAgrees(s, Replay(limit, floor, all, mine))
    ensures WholeAgrees(Account(limit, s, leg), Replay(limit, floor, all + [leg], more))
  {
    assert (all + [leg])[..|all|] == all;
    JudgedSnoc(all, leg);
    assert !Judged(all) ==> ReplayBad(all) == 0 by { BadNeedsJudged(all); }
  }

  lemma {:induction false} BadNeedsJudged(all: seq<Leg>)
    ensures !Judged(all) ==> ReplayBad(all) == 0
  {
    if all != [] {
      BadNeedsJudged(all[..|all| - 1]);
      JudgedSnoc(all[..|all| - 1], all[|all| - 1]);
      assert all[..|all| - 1] + [all[|all| - 1]] == all;
    }
  }

  /** ... and coverage, slices served and sums. */
  lemma AccountReplaysClass(limit: int, floor: nat, all: seq<Leg>, mine: seq<Leg>, more: seq<Leg>, leg: Leg,
                            s: ItemState)
    requires ClassAgrees(s, Replay(limit, floor, all, mine))
    ensures ClassAgrees(Account(limit, s, leg), Replay(limit, floor, more, if Done(leg) then mine + [leg] else mine))
  {
    hide Account, ReplayIntervals, ReplayServed, ReplayCases, ReplaySkipped, ReplayFails, Reached, ReplaySeedN,
         ReplayBad, Judged;
    AccountCovers(limit, s, leg);
    ReplayCovers(mine, leg);
  }

  /** What account_slice does to coverage, slices served and sums. */
  lemma AccountCovers(limit: int, s: ItemState, leg: Leg)
    ensures var t, ranged := Account(limit, s, leg), Done(leg) && leg.ask.Range?;
            && t.intervals == (if ranged then s.intervals + [Slice(leg)] else s.intervals)
            && t.served == s.served + (if Done(leg) then 1 else 0)
            && t.cases == s.cases + (if ranged then leg.cases else 0)
            && t.skipped == s.skipped + (if ranged then leg.skipped else 0)
  {
    hide Bump, FailsOf;
  }

  /** And what one more of them does to the replay. */
  lemma ReplayCovers(mine: seq<Leg>, leg: Leg)
    ensures var all, ranged := mine + [leg], Done(leg) && leg.ask.Range?;
            && ReplayIntervals(all) == (if ranged then ReplayIntervals(mine) + [Slice(leg)] else ReplayIntervals(mine))
            && ReplayServed(all) == ReplayServed(mine) + (if Done(leg) then 1 else 0)
            && ReplayCases(all) == ReplayCases(mine) + (if ranged then leg.cases else 0)
            && ReplaySkipped(all) == ReplaySkipped(mine) + (if ranged then leg.skipped else 0)
  {
    assert (mine + [leg])[..|mine|] == mine;
  }

  /** A run that could not start a slice leaves the live count one ahead of the file's. */
  predicate CouldNotStart(leg: Leg, k: Iv) {
    leg.status == Error && leg.ask.Range? && Slice(leg) == k
  }

  lemma AccountCountsFails(limit: int, all: seq<Leg>, leg: Leg, s: ItemState, k: Iv)
    requires leg.status != Skipped
    ensures FailsOf(Account(limit, s, leg).fails, k) - FailsOf(ReplayFails(all + [leg]), k)
         == FailsOf(s.fails, k) - FailsOf(ReplayFails(all), k) + if CouldNotStart(leg, k) then 1 else 0
  {
    assert (all + [leg])[..|all|] == all;
    if leg.ask.Range? {
      BumpCounts(s.fails, Slice(leg), k);
      BumpCounts(ReplayFails(all), Slice(leg), k);
    }
  }

  /** Quarantined is failed often enough, live and rebuilt alike. */
  ghost predicate QuarantineIs(limit: int, s: ItemState) {
    forall k :: k in s.quarantine <==> FailsOf(s.fails, k) > 0 && FailsOf(s.fails, k) >= limit
  }

  lemma AccountQuarantines(limit: int, s: ItemState, leg: Leg)
    requires QuarantineIs(limit, s)
    ensures QuarantineIs(limit, Account(limit, s, leg))
  {
    if !Done(leg) && leg.ask.Range? {
      forall k
        ensures FailsOf(Bump(s.fails, Slice(leg)), k) == FailsOf(s.fails, k) + if k == Slice(leg) then 1 else 0
      {
        BumpCounts(s.fails, Slice(leg), k);
      }
    }
  }

  /** Each slice once among the fail counts, none of them zero. */
  ghost predicate Keyed(fs: Fails) {
    && (forall i, j :: 0 <= i < j < |fs| ==> fs[i].0 != fs[j].0)
    && forall i :: 0 <= i < |fs| ==> fs[i].1 > 0
  }

  lemma {:induction false} FailsIn(fs: Fails, k: Iv)
    requires forall i :: 0 <= i < |fs| ==> fs[i].1 > 0
    ensures FailsOf(fs, k) > 0 <==> exists i :: 0 <= i < |fs| && fs[i].0 == k
  {
    if fs != [] {
      FailsIn(fs[1..], k);
      if exists i :: 0 <= i < |fs[1..]| && fs[1..][i].0 == k {
        var i :| 0 <= i < |fs[1..]| && fs[1..][i].0 == k;
        assert fs[i + 1].0 == k;
      }
      if exists i :: 0 <= i < |fs| && fs[i].0 == k && fs[0].0 != k {
        var i :| 0 <= i < |fs| && fs[i].0 == k && fs[0].0 != k;
        assert fs[1..][i - 1].0 == k;
      }
    }
  }

  lemma {:induction false} BumpKeyed(fs: Fails, k: Iv)
    requires Keyed(fs)
    ensures Keyed(Bump(fs, k))
    ensures forall i :: 0 <= i < |Bump(fs, k)| ==>
              Bump(fs, k)[i].0 == k || exists j :: 0 <= j < |fs| && fs[j].0 == Bump(fs, k)[i].0
  {
    if fs != [] && fs[0].0 != k {
      BumpKeyed(fs[1..], k);
      var r := Bump(fs[1..], k);
      forall i | 0 <= i < |r|
        ensures r[i].0 != fs[0].0
        ensures r[i].0 == k || exists j :: 0 <= j < |fs| && fs[j].0 == r[i].0
      {
        if r[i].0 != k {
          var j :| 0 <= j < |fs[1..]| && fs[1..][j].0 == r[i].0;
          assert fs[j + 1].0 == r[i].0;
        }
      }
    }
  }

  lemma {:induction false} ReachedIs(fs: Fails, limit: int, k: Iv)
    requires Keyed(fs)
    ensures k in Reached(fs, limit) <==> FailsOf(fs, k) > 0 && FailsOf(fs, k) >= limit
  {
    if fs != [] {
      assert Keyed(fs[1..]);
      ReachedIs(fs[1..], limit, k);
      if fs[0].0 == k {
        FailsIn(fs[1..], k);
        assert forall i | 0 <= i < |fs[1..]| :: fs[1..][i] == fs[i + 1];
      }
    }
  }

  lemma {:induction false} ReplayKeyed(all: seq<Leg>)
    ensures Keyed(ReplayFails(all))
  {
    if all != [] {
      ReplayKeyed(all[..|all| - 1]);
      if ReplayFailed(all[|all| - 1]) { BumpKeyed(ReplayFails(all[..|all| - 1]), Slice(all[|all| - 1])); }
    }
  }

  lemma ReplayQuarantines(limit: int, floor: nat, all: seq<Leg>, mine: seq<Leg>)
    ensures QuarantineIs(limit, Replay(limit, floor, all, mine))
  {
    ReplayKeyed(all);
    forall k
      ensures k in Reached(ReplayFails(all), limit) <==>
                FailsOf(ReplayFails(all), k) > 0 && FailsOf(ReplayFails(all), k) >= limit
    {
      ReachedIs(ReplayFails(all), limit, k);
    }
  }

  /** Why the limit must not be negative (nothing checks --quarantine-after): one passing
      slice, and the rebuilt run disables the item the live one goes on with. */
  lemma NegativeLimitDisables(limit: int, leg: Leg)
    requires limit < 0 && leg.status == Pass
    ensures !Account(limit, FRESH, leg).disabled && Replay(limit, 0, [leg], [leg]).disabled
  {
    assert [leg][..0] == [];
    JudgedSnoc([], leg);
    assert [] + [leg] == [leg];
  }

  // ---- choosing what runs next ----------------------------------------------

  type Live = map<string, ItemState>

  function At(live: Live, name: string): ItemState {
    if name in live then live[name] else FRESH
  }

  function Weight(cfg: Config, it: Item): real {
    var w := if it.kind.Exhaustive? then cfg.weightExhaustive else cfg.weightRandom;
    if w == 0.0 then 1.0 else w
  }

  /** Slices served per unit of weight. */
  function Load(cfg: Config, live: Live, it: Item): real {
    At(live, it.name).served as real / Weight(cfg, it)
  }

  /** What an exhaustive item has behind it: covered, or moved past. */
  function Behind(s: ItemState): seq<Iv> { s.intervals + s.quarantine }

  ghost predicate Eligible(cfg: Config, live: Live, avoid: set<string>, reach: Reach, it: Item) {
    && it.name !in avoid && it.reach == reach
    && (cfg.only == {} || it.name in cfg.only)
    && !At(live, it.name).disabled
    && (it.kind.Exhaustive? ==> FirstGap(Behind(At(live, it.name)), it.kind.space).Some?)
  }

  /** pick_item's choice among the first n items: the least loaded, the first of equals. */
  ghost function Pick(cfg: Config, live: Live, avoid: set<string>, reach: Reach, n: nat): (b: Option<nat>)
    requires n <= |cfg.items|
    ensures b.None? <==> forall i :: 0 <= i < n ==> !Eligible(cfg, live, avoid, reach, cfg.items[i])
    ensures b.Some? ==> b.value < n && Eligible(cfg, live, avoid, reach, cfg.items[b.value])
    ensures b.Some? ==> forall i :: 0 <= i < n && Eligible(cfg, live, avoid, reach, cfg.items[i]) ==>
                          Load(cfg, live, cfg.items[b.value]) <= Load(cfg, live, cfg.items[i])
    ensures b.Some? ==> forall i :: 0 <= i < b.value && Eligible(cfg, live, avoid, reach, cfg.items[i]) ==>
                          Load(cfg, live, cfg.items[b.value]) < Load(cfg, live, cfg.items[i])
  {
    if n == 0 then None
    else
      var b := Pick(cfg, live, avoid, reach, n - 1);
      var it := cfg.items[n - 1];
      if !Eligible(cfg, live, avoid, reach, it) then b
      else if b.None? || Load(cfg, live, it) < Load(cfg, live, cfg.items[b.value]) then Some(n - 1)
      else b
  }

  /** What a slice of an item's kind weighs: --weight-exhaustive or --weight-random, 0 read
      as 1. */
  predicate Weighs(cfg: Config, it: Item, w: real) {
    match it.kind
    case Exhaustive(_) => if cfg.weightExhaustive == 0.0 then w == 1.0 else w == cfg.weightExhaustive
    case Random(_) => if cfg.weightRandom == 0.0 then w == 1.0 else w == cfg.weightRandom
  }

  /** The item picked has had no more for its kind's weight than any that could run, and less
      than any before it. */
  lemma PickIsLeast(cfg: Config, live: Live, avoid: set<string>, reach: Reach, i: nat, v: real, w: real)
    requires ValidConfig(cfg) && i < |cfg.items| && Eligible(cfg, live, avoid, reach, cfg.items[i])
    ensures var p := Pick(cfg, live, avoid, reach, |cfg.items|);
            && p.Some?
            && (Weighs(cfg, cfg.items[p.value], v) && Weighs(cfg, cfg.items[i], w) ==>
                  var a := At(live, cfg.items[p.value].name).served as real;
                  var b := At(live, cfg.items[i].name).served as real;
                  a * w <= b * v && (i < p.value ==> a * w < b * v))
  {
    hide Eligible, At, Load, Weighs, ValidConfig, Pick;
    var p := Pick(cfg, live, avoid, reach, |cfg.items|).value;
    if Weighs(cfg, cfg.items[p], v) && Weighs(cfg, cfg.items[i], w) {
      var a, b := At(live, cfg.items[p].name).served as real, At(live, cfg.items[i].name).served as real;
      LoadIs(cfg, live, cfg.items[p], v);
      LoadIs(cfg, live, cfg.items[i], w);
      CrossMultiply(a, v, b, w);
    }
  }

  lemma LoadIs(cfg: Config, live: Live, it: Item, w: real)
    requires ValidConfig(cfg) && Weighs(cfg, it, w)
    ensures w > 0.0 && Load(cfg, live, it) == At(live, it.name).served as real / w
  {
  }

  lemma CrossMultiply(a: real, v: real, b: real, w: real)
    requires v > 0.0 && w > 0.0
    ensures a / v <= b / w ==> a * w <= b * v
    ensures a / v < b / w ==> a * w < b * v
  {
    var x, y, vw := a / v, b / w, v * w;
    assert a * w == x * vw && b * v == y * vw && vw > 0.0;
    if x <= y { assert x * vw <= y * vw; }
    if x < y { assert x * vw < y * vw; }
  }

  datatype Job = Job(item: Item, ask: Ask)

  const SEEDLIMIT: nat := 0x80_0000_0000

  /** Item.seed_for: (index << 40) | (n << 1) | 1. */
  function SeedFor(index: nat, n: nat): nat {
    index * 0x100_0000_0000 + n * 2 + 1
  }

  ghost function NextAsk(s: ItemState, it: Item, units: nat): Ask
    requires it.kind.Exhaustive? ==> FirstGap(Behind(s), it.kind.space).Some?
  {
    match it.kind
    case Exhaustive(space) =>
      var gap := FirstGap(Behind(s), space).value;
      Range(gap.0, if gap.1 < gap.0 + units then gap.1 else gap.0 + units)
    case Random(index) => Draw(s.seedN, SeedFor(index, s.seedN))
  }

  /** plan_wave: one job for each number of units, as long as some item can run; no item
      twice. */
  ghost function PlanWave(cfg: Config, live: Live, reach: Reach, units: seq<nat>, avoid: set<string>): (wave: seq<Job>)
    ensures |wave| <= |units|
  {
    if units == [] then []
    else
      match Pick(cfg, live, avoid, reach, |cfg.items|)
      case None => []
      case Some(k) =>
        var it := cfg.items[k];
        [Job(it, NextAsk(At(live, it.name), it, units[0]))] + PlanWave(cfg, live, reach, units[1..], avoid + {it.name})
  }

  /** A job as planned: an item of the catalog and the reach asked for, not avoided, not
      disabled; an exhaustive slice not empty, inside the space and clear of everything
      covered or moved past, starting at the item's first gap; a random slice its next. */
  ghost predicate WellPlanned(cfg: Config, live: Live, job: Job) {
    var s := At(live, job.item.name);
    && job.item in cfg.items && !s.disabled
    && match job.item.kind
       case Exhaustive(space) =>
         && job.ask.Range? && 0 <= job.ask.lo < job.ask.hi <= space
         && (forall x :: job.ask.lo <= x < job.ask.hi ==> !In(Behind(s), x))
         && forall x :: 0 <= x < job.ask.lo ==> In(Behind(s), x)
       case Random(index) => job.ask == Draw(s.seedN, SeedFor(index, s.seedN))
  }

  lemma NextIsPlanned(cfg: Config, live: Live, avoid: set<string>, reach: Reach, it: Item, units: nat)
    requires Eligible(cfg, live, avoid, reach, it) && it in cfg.items && units > 0
    ensures WellPlanned(cfg, live, Job(it, NextAsk(At(live, it.name), it, units)))
  {
  }

  ghost predicate WaveOf(cfg: Config, live: Live, reach: Reach, avoid: set<string>, wave: seq<Job>) {
    && (forall i :: 0 <= i < |wave| ==>
          WellPlanned(cfg, live, wave[i]) && wave[i].item.reach == reach && wave[i].item.name !in avoid)
    && (forall i, j :: 0 <= i < j < |wave| ==> wave[i].item.name != wave[j].item.name)
  }

  lemma WaveCons(cfg: Config, live: Live, reach: Reach, avoid: set<string>, job: Job, rest: seq<Job>)
    requires WellPlanned(cfg, live, job) && job.item.reach == reach && job.item.name !in avoid
    requires WaveOf(cfg, live, reach, avoid + {job.item.name}, rest)
    ensures WaveOf(cfg, live, reach, avoid, [job] + rest)
  {
    hide WellPlanned;
    var wave := [job] + rest;
    assert forall i | 1 <= i < |wave| :: wave[i] == rest[i - 1];
  }

  lemma {:induction false} WavePlanned(cfg: Config, live: Live, reach: Reach, units: seq<nat>, avoid: set<string>)
    requires forall i :: 0 <= i < |units| ==> units[i] > 0
    ensures WaveOf(cfg, live, reach, avoid, PlanWave(cfg, live, reach, units, avoid))
    decreases |units|
  {
    hide WellPlanned, Eligible, NextAsk;
    if units != [] && Pick(cfg, live, avoid, reach, |cfg.items|).Some? {
      var it := cfg.items[Pick(cfg, live, avoid, reach, |cfg.items|).value];
      WavePlanned(cfg, live, reach, units[1..], avoid + {it.name});
      assert units[0] > 0;
      EligibleHas(cfg, live, avoid, reach, it);
      NextIsPlanned(cfg, live, avoid, reach, it, units[0]);
      WaveCons(cfg, live, reach, avoid, Job(it, NextAsk(At(live, it.name), it, units[0])),
               PlanWave(cfg, live, reach, units[1..], avoid + {it.name}));
    }
  }

  /** Where a slice of at most u units ends: u units on, or short of that only at the end of
      the space or at a point already behind the item. */
  ghost predicate EndsRight(st: ItemState, space: nat, lo: int, hi: int, u: nat) {
    hi - lo <= u && (hi - lo < u ==> hi == space || In(Behind(st), hi))
  }

  lemma {:induction false} WaveEnds(cfg: Config, live: Live, reach: Reach, units: seq<nat>, avoid: set<string>)
    ensures forall k :: 0 <= k < |PlanWave(cfg, live, reach, units, avoid)| ==>
              PlanWave(cfg, live, reach, units, avoid)[k].item in cfg.items
    ensures var wave := PlanWave(cfg, live, reach, units, avoid);
            forall k :: 0 <= k < |wave| ==>
              match wave[k].item.kind
              case Exhaustive(space) =>
                && wave[k].ask.Range?
                && EndsRight(At(live, wave[k].item.name), space, wave[k].ask.lo, wave[k].ask.hi, units[k])
              case Random(_) => wave[k].ask.Draw?
    decreases |units|
  {
    hide Eligible, Load, EndsRight, At, FirstGap, NextAsk, Behind;
    if units != [] && Pick(cfg, live, avoid, reach, |cfg.items|).Some? {
      var it := cfg.items[Pick(cfg, live, avoid, reach, |cfg.items|).value];
      EligibleHas(cfg, live, avoid, reach, it);
      NextEnds(At(live, it.name), it, units[0]);
      WaveEnds(cfg, live, reach, units[1..], avoid + {it.name});
      var wave, rest := PlanWave(cfg, live, reach, units, avoid),
          PlanWave(cfg, live, reach, units[1..], avoid + {it.name});
      assert forall k | 1 <= k < |wave| :: wave[k] == rest[k - 1] && units[k] == units[1..][k - 1];
    }
  }

  lemma NextEnds(st: ItemState, it: Item, u: nat)
    requires it.kind.Exhaustive? ==> FirstGap(Behind(st), it.kind.space).Some?
    ensures var ask := NextAsk(st, it, u);
            match it.kind
            case Exhaustive(space) => ask.Range? && EndsRight(st, space, ask.lo, ask.hi, u)
            case Random(_) => ask.Draw?
  {
  }

  lemma EligibleHas(cfg: Config, live: Live, avoid: set<string>, reach: Reach, it: Item)
    requires Eligible(cfg, live, avoid, reach, it)
    ensures it.reach == reach && it.name !in avoid
    ensures it.kind.Exhaustive? ==> FirstGap(Behind(At(live, it.name)), it.kind.space).Some?
  {
  }

  /** A slice clear of proper intervals is apart from each. */
  lemma ClearIsApart(iv: seq<Iv>, lo: int, hi: int)
    requires Proper(iv) && lo < hi && forall x :: lo <= x < hi ==> !In(iv, x)
    ensures forall k :: 0 <= k < |iv| ==> Apart(iv[k], (lo, hi))
  {
    forall k | 0 <= k < |iv|
      ensures Apart(iv[k], (lo, hi))
    {
      var a := iv[k];
      assert In(iv, a.0) && !In(iv, lo);
      assert !(a.0 <= lo < a.1) && !(lo <= a.0 < hi);
    }
  }
}
