/** How far pick_item's rotation lets an item get ahead: with one job a wave and every
    slice passing, no further than one slice of its weight. */
module Fairness {
  import opened Wrappers
  import opened Slices
  import opened Trees
  import opened Sweep
  import opened Campaign
  import opened Outcomes

  /** One slice of at most t.0 units planned, passed with these counts, and accounted. */
  function Turns(reach: Reach, turns: seq<(nat, nat, nat)>): seq<Event> {
    if turns == [] then []
    else
      var t := turns[|turns| - 1];
      Turns(reach, turns[..|turns| - 1]) + [Plan(reach, [t.0])] + [Finish(0, Pass, t.1, t.2)] + [Settle(0)]
  }

  /** A new campaign after these turns. */
  ghost function Turned(s: Setup, own: Option<Tree>, reach: Reach, turns: seq<(nat, nat, nat)>): World {
    After(s, [], own, Turns(reach, turns))
  }

  function Served(live: Live, it: Item): real { At(live, it.name).served as real }

  /** The item can run before every one of these turns. */
  ghost predicate AlwaysEligible(s: Setup, own: Option<Tree>, reach: Reach, turns: seq<(nat, nat, nat)>, it: Item) {
    forall n :: 0 <= n < |turns| ==> Eligible(s.cfg, Turned(s, own, reach, turns[..n]).live, {}, reach, it)
  }

  lemma WeighsPositive(cfg: Config, it: Item, w: real)
    requires ValidConfig(cfg) && Weighs(cfg, it, w)
    ensures w > 0.0
  {
  }

  /** What a turn is, from where nothing is in flight. */
  ghost function Turn(s: Setup, w: World, reach: Reach, t: (nat, nat, nat)): World {
    Next(s, Next(s, Next(s, w, Plan(reach, [t.0])), Finish(0, Pass, t.1, t.2)), Settle(0))
  }

  lemma TurnedMore(s: Setup, own: Option<Tree>, reach: Reach, turns: seq<(nat, nat, nat)>)
    requires turns != []
    ensures Turned(s, own, reach, turns)
         == Turn(s, Turned(s, own, reach, turns[..|turns| - 1]), reach, turns[|turns| - 1])
  {
    hide Next, Run;
    var t, es, w := turns[|turns| - 1], Turns(reach, turns[..|turns| - 1]), Boot(s, [], own);
    var a, b := Event.Plan(reach, [t.0]), Finish(0, Pass, t.1, t.2);
    RunMore(s, w, es, a);
    RunMore(s, w, es + [a], b);
    RunMore(s, w, es + [a] + [b], Settle(0));
  }

  /** The item a turn serves: the least loaded, where there is one, units are asked for and
      a draw's number has room. */
  ghost predicate Serves(s: Setup, w: World, reach: Reach, t: (nat, nat, nat), it: Item) {
    var p := Pick(s.cfg, w.live, {}, reach, |s.cfg.items|);
    && p.Some? && s.cfg.items[p.value] == it && t.0 > 0
    && SeedsFit(PlanWave(s.cfg, w.live, reach, [t.0], {}))
  }

  lemma OneWave(s: Setup, w: World, reach: Reach, u: nat)
    requires w.flight == []
    ensures var p := Pick(s.cfg, w.live, {}, reach, |s.cfg.items|);
            var next := Next(s, w, Plan(reach, [u]));
            if p.Some? && u > 0 && SeedsFit(PlanWave(s.cfg, w.live, reach, [u], {})) then
              && |next.flight| == 1 && next.flight[0].leg.None? && next.flight[0].job.item == s.cfg.items[p.value]
              && next == w.(flight := next.flight)
            else next == w
  {
    hide Eligible, Load, At, SeedsFit;
    assert Busy([]) == {};
    assert [u][1..] == [];
    var p := Pick(s.cfg, w.live, {}, reach, |s.cfg.items|);
    if p.Some? { EligibleHas(s.cfg, w.live, {}, reach, s.cfg.items[p.value]); }
    if p.None? { assert w.flight + Fly([]) == w.flight; }
  }

  /** One turn serves one item, or none. */
  lemma TurnServes(s: Setup, w: World, reach: Reach, t: (nat, nat, nat), it: Item)
    requires ValidConfig(s.cfg) && it in s.cfg.items && w.flight == []
    ensures Turn(s, w, reach, t).flight == []
    ensures Served(Turn(s, w, reach, t).live, it)
         == Served(w.live, it) + if Serves(s, w, reach, t, it) then 1.0 else 0.0
  {
    hide Eligible, PlanWave, SeedsFit, MayPlan, Served, Next;
    OneWave(s, w, reach, t.0);
    var w1 := Next(s, w, Plan(reach, [t.0]));
    if w1.flight == [] {
      NothingEnds(s, w1, t);
    } else {
      EndsServed(s, w1, t, it);
    }
  }

  lemma NothingEnds(s: Setup, w: World, t: (nat, nat, nat))
    requires w.flight == []
    ensures Next(s, Next(s, w, Finish(0, Pass, t.1, t.2)), Settle(0)) == w
  {
  }

  lemma EndsServed(s: Setup, w: World, t: (nat, nat, nat), it: Item)
    requires ValidConfig(s.cfg) && it in s.cfg.items
    requires |w.flight| == 1 && w.flight[0].leg.None? && w.flight[0].job.item in s.cfg.items
    ensures var end := Next(s, Next(s, w, Finish(0, Pass, t.1, t.2)), Settle(0));
            && end.flight == []
            && Served(end.live, it) == Served(w.live, it) + if w.flight[0].job.item == it then 1.0 else 0.0
  {
    hide Account, ValidConfig, PlanWave;
    var job := w.flight[0].job;
    var leg := LegOf(s, job, Pass, t.1, t.2);
    var w2 := Next(s, w, Finish(0, Pass, t.1, t.2));
    assert w2.flight == [Flight(job, Some(leg))];
    assert Remove(w2.flight, 0) == [];
    AccountCovers(s.cfg.limit, At(w.live, job.item.name), leg);
    if job.item.name == it.name { SameItem(s.cfg, job.item, it); }
  }

  /** a slices for a weight of v are no more than b for one of w. */
  predicate NoMore(a: real, v: real, b: real, w: real) { a * w <= b * v }

  lemma OneMore(a: real, v: real, b: real, w: real, i: real, j: real)
    requires v > 0.0 && w > 0.0 && NoMore(a - 1.0, v, b, w) && (i == 1.0 ==> NoMore(a, v, b, w))
    requires (i == 0.0 || i == 1.0) && (j == 0.0 || j == 1.0)
    ensures NoMore(a + i - 1.0, v, b + j, w)
  {
    assert (b + j) * v == b * v + j * v;
  }

  /** Over any number of turns of a new campaign, of any two items that could always run,
      neither is served more than one slice ahead of its kind's share: one slice back, item i
      has had no more for its kind's weight than item j for its own. */
  lemma {:induction false} RotationIsFair(s: Setup, own: Option<Tree>, reach: Reach, turns: seq<(nat, nat, nat)>,
                                          i: Item, j: Item, v: real, w: real)
    requires ValidConfig(s.cfg) && i in s.cfg.items && j in s.cfg.items && Weighs(s.cfg, i, v) && Weighs(s.cfg, j, w)
    requires AlwaysEligible(s, own, reach, turns, i) && AlwaysEligible(s, own, reach, turns, j)
    ensures var end := Turned(s, own, reach, turns);
            end.flight == [] && NoMore(Served(end.live, i) - 1.0, v, Served(end.live, j), w)
  {
    hide Eligible, Weighs, Turn, At, Served, Serves, Turns, NoMore, ValidConfig, Run, Boot;
    WeighsPositive(s.cfg, i, v);
    WeighsPositive(s.cfg, j, w);
    if turns == [] {
      NoneServed(s, own, reach, i);
      NoneServed(s, own, reach, j);
      assert NoMore(0.0 - 1.0, v, 0.0, w) by { StartFair(v, w); }
    } else {
      var n := |turns| - 1;
      var was := Turned(s, own, reach, turns[..n]);
      EarlierEligible(s, own, reach, turns, i);
      EarlierEligible(s, own, reach, turns, j);
      RotationIsFair(s, own, reach, turns[..n], i, j, v, w);
      TurnedMore(s, own, reach, turns);
      TurnServes(s, was, reach, turns[n], i);
      TurnServes(s, was, reach, turns[n], j);
      LeastLoaded(s, was, reach, turns[n], i, j, v, w);
      OneMore(Served(was.live, i), v, Served(was.live, j), w,
              if Serves(s, was, reach, turns[n], i) then 1.0 else 0.0,
              if Serves(s, was, reach, turns[n], j) then 1.0 else 0.0);
    }
  }

  lemma StartFair(v: real, w: real)
    requires w > 0.0
    ensures NoMore(0.0 - 1.0, v, 0.0, w)
  {
  }

  lemma NoneServed(s: Setup, own: Option<Tree>, reach: Reach, it: Item)
    requires ValidConfig(s.cfg) && it in s.cfg.items
    ensures Turned(s, own, reach, []).flight == [] && Served(Turned(s, own, reach, []).live, it) == 0.0
  {
    BootHas(s, [], own, it);
  }

  lemma EarlierEligible(s: Setup, own: Option<Tree>, reach: Reach, turns: seq<(nat, nat, nat)>, it: Item)
    requires turns != [] && AlwaysEligible(s, own, reach, turns, it)
    ensures AlwaysEligible(s, own, reach, turns[..|turns| - 1], it)
    ensures Eligible(s.cfg, Turned(s, own, reach, turns[..|turns| - 1]).live, {}, reach, it)
  {
    hide Eligible, Turned;
    var n := |turns| - 1;
    assert Eligible(s.cfg, Turned(s, own, reach, turns[..n]).live, {}, reach, it);
    forall m | 0 <= m < n
      ensures Eligible(s.cfg, Turned(s, own, reach, turns[..n][..m]).live, {}, reach, it)
    {
      assert turns[..n][..m] == turns[..m];
      assert Eligible(s.cfg, Turned(s, own, reach, turns[..m]).live, {}, reach, it);
    }
  }

  lemma LeastLoaded(s: Setup, w: World, reach: Reach, t: (nat, nat, nat), i: Item, j: Item, a: real, b: real)
    requires ValidConfig(s.cfg) && j in s.cfg.items && Eligible(s.cfg, w.live, {}, reach, j)
    requires Weighs(s.cfg, i, a) && Weighs(s.cfg, j, b)
    ensures Serves(s, w, reach, t, i) ==> NoMore(Served(w.live, i), a, Served(w.live, j), b)
  {
    hide Eligible, Weighs, At, SeedsFit, PlanWave, ValidConfig, Pick;
    var k :| 0 <= k < |s.cfg.items| && s.cfg.items[k] == j;
    PickIsLeast(s.cfg, w.live, {}, reach, k, a, b);
  }
}
