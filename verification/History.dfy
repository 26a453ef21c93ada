/** What an item's state says of the slices behind it, status by status: the state
    account_slice reaches over any of them, and the one load_state rebuilds. */
module History {
  import opened Intervals
  import opened Trees
  import opened Sweep

  /** Of the slices from one on, those that ended so. */
  function Ended(legs: seq<Leg>, how: set<Status>, from: nat): nat {
    |set i | from <= i < |legs| && legs[i].status in how|
  }

  /** The slices that bear on the streak at all. */
  function JudgedIn(legs: seq<Leg>): nat { Ended(legs, {Pass, Fail, ParseError, Error}, 0) }

  /** The slices of encodings k that ended so. */
  function EndedAt(legs: seq<Leg>, how: set<Status>, k: Iv): nat {
    |set i | 0 <= i < |legs| && legs[i].status in how && legs[i].ask == Ask.Range(k.0, k.1)|
  }

  /** One past the last slice with a verdict. */
  function SinceVerdict(legs: seq<Leg>): nat {
    if legs == [] then 0
    else if legs[|legs| - 1].status in {Pass, Fail} then |legs|
    else SinceVerdict(legs[..|legs| - 1])
  }

  /** The slices with no readable verdict, or that could not start, since the last that had
      one: a timeout or a lost device is neither. */
  function Streak(legs: seq<Leg>): nat { Ended(legs, {ParseError, Error}, SinceVerdict(legs)) }

  /** Some slice took the streak over the limit. */
  ghost predicate WentOver(legs: seq<Leg>, limit: int) {
    exists n :: 0 <= n < |legs| && legs[n].status in {ParseError, Error} && Streak(legs[..n + 1]) > limit
  }

  /** One more than the highest number completed, or 0. */
  ghost predicate NextDraw(legs: seq<Leg>, n: nat) {
    && (forall i :: 0 <= i < |legs| && legs[i].status in {Pass, Fail} && legs[i].ask.Draw? ==> legs[i].ask.n < n)
    && (n > 0 ==> exists i :: 0 <= i < |legs| && legs[i].status in {Pass, Fail}
                              && legs[i].ask.Draw? && legs[i].ask.n == n - 1)
  }

  /** A point is in some slice that has a verdict. */
  ghost predicate Swept(legs: seq<Leg>, x: int) {
    exists i :: 0 <= i < |legs| && legs[i].status in {Pass, Fail}
                && legs[i].ask.Range? && legs[i].ask.lo <= x < legs[i].ask.hi
  }

  // ---- one slice more -------------------------------------------------------

  lemma EndedMore(legs: seq<Leg>, leg: Leg, how: set<Status>, from: nat)
    requires from <= |legs|
    ensures Ended(legs + [leg], how, from) == Ended(legs, how, from) + if leg.status in how then 1 else 0
    ensures Ended(legs, how, |legs|) == 0
  {
    var all := legs + [leg];
    var was := set i | from <= i < |legs| && legs[i].status in how;
    var now := set i | from <= i < |all| && all[i].status in how;
    assert now == was + if leg.status in how then {|legs|} else {};
  }

  lemma EndedAtMore(legs: seq<Leg>, leg: Leg, how: set<Status>, k: Iv)
    ensures EndedAt(legs + [leg], how, k)
         == EndedAt(legs, how, k) + if leg.status in how && leg.ask == Ask.Range(k.0, k.1) then 1 else 0
  {
    var all, ask := legs + [leg], Ask.Range(k.0, k.1);
    var was := set i | 0 <= i < |legs| && legs[i].status in how && legs[i].ask == ask;
    var now := set i | 0 <= i < |all| && all[i].status in how && all[i].ask == ask;
    assert now == was + if leg.status in how && leg.ask == ask then {|legs|} else {};
  }

  lemma {:induction false} SinceFits(legs: seq<Leg>)
    ensures SinceVerdict(legs) <= |legs|
  {
    if legs != [] { SinceFits(legs[..|legs| - 1]); }
  }

  lemma StreakMore(legs: seq<Leg>, leg: Leg)
    ensures Streak(legs + [leg]) == match leg.status
                                    case ParseError | Error => Streak(legs) + 1
                                    case Pass | Fail => 0
                                    case Timeout | NoDevice | Skipped => Streak(legs)
  {
    hide Ended;
    SinceFits(legs);
    assert (legs + [leg])[..|legs|] == legs;
    EndedMore(legs, leg, {ParseError, Error}, SinceVerdict(legs));
    EndedMore(legs + [leg], leg, {ParseError, Error}, |legs| + 1);
  }

  lemma StreakNone()
    ensures Streak([]) == 0
  {
  }

  // ---- what account_slice reaches -------------------------------------------

  /** The state over all of them, from an item's first. */
  function Accounted(limit: int, legs: seq<Leg>): ItemState {
    if legs == [] then FRESH else Account(limit, Accounted(limit, legs[..|legs| - 1]), legs[|legs| - 1])
  }

  /** The bad streak is Streak, an item is disabled where it went over, a slice has failed
      as often as it ended without a verdict, however that was, and what is covered is what
      had one. */
  lemma {:induction false} LiveSays(limit: int, legs: seq<Leg>)
    ensures var st := Accounted(limit, legs);
            && st.bad == Streak(legs) && (st.disabled <==> WentOver(legs, limit))
            && st.served == Ended(legs, {Pass, Fail}, 0)
            && (forall x :: In(st.intervals, x) <==> Swept(legs, x))
            && (forall k :: FailsOf(st.fails, k) == EndedAt(legs, {Timeout, NoDevice, ParseError, Error, Skipped}, k))
            && QuarantineIs(limit, st)
  {
    hide Account, Streak, Ended, EndedAt, WentOver, Swept, FailsOf, QuarantineIs, In;
    if legs == [] {
      NothingSaid(limit);
    } else {
      var before, leg := legs[..|legs| - 1], legs[|legs| - 1];
      assert before + [leg] == legs;
      LiveSays(limit, before);
      StreakSays(limit, Accounted(limit, before), before, leg);
      CoverSays(limit, Accounted(limit, before), before, leg);
      FailsSay(limit, Accounted(limit, before), before, leg);
    }
  }

  lemma NothingSaid(limit: int)
    ensures Streak([]) == 0 && !WentOver([], limit) && Ended([], {Pass, Fail}, 0) == 0
    ensures forall x :: !In([], x) && !Swept([], x)
    ensures forall k :: FailsOf([], k) == EndedAt([], {Timeout, NoDevice, ParseError, Error, Skipped}, k) == 0
    ensures QuarantineIs(limit, FRESH)
  {
  }

  lemma OverMore(limit: int, legs: seq<Leg>, leg: Leg)
    ensures WentOver(legs + [leg], limit)
       <==> WentOver(legs, limit) || (leg.status in {ParseError, Error} && Streak(legs + [leg]) > limit)
  {
    hide Streak;
    var all := legs + [leg];
    assert all[..|legs| + 1] == all;
    assert forall n | 0 <= n < |legs| :: all[..n + 1] == legs[..n + 1] && all[n] == legs[n];
    if WentOver(legs, limit) {
      var n :| 0 <= n < |legs| && legs[n].status in {ParseError, Error} && Streak(legs[..n + 1]) > limit;
      assert all[n].status in {ParseError, Error} && Streak(all[..n + 1]) > limit;
    }
    if leg.status in {ParseError, Error} && Streak(all) > limit {
      assert all[|legs|].status in {ParseError, Error} && Streak(all[..|legs| + 1]) > limit;
    }
  }

  lemma StreakSays(limit: int, st: ItemState, legs: seq<Leg>, leg: Leg)
    requires st.bad == Streak(legs) && (st.disabled <==> WentOver(legs, limit))
    ensures var now := Account(limit, st, leg);
            now.bad == Streak(legs + [leg]) && (now.disabled <==> WentOver(legs + [leg], limit))
  {
    hide Streak, WentOver, FailsOf, Bump;
    StreakMore(legs, leg);
    OverMore(limit, legs, leg);
  }

  lemma CoverSays(limit: int, st: ItemState, legs: seq<Leg>, leg: Leg)
    requires st.served == Ended(legs, {Pass, Fail}, 0) && forall x :: In(st.intervals, x) <==> Swept(legs, x)
    ensures var now := Account(limit, st, leg);
            && now.served == Ended(legs + [leg], {Pass, Fail}, 0)
            && forall x :: In(now.intervals, x) <==> Swept(legs + [leg], x)
  {
    hide Account, Ended, In;
    AccountCovers(limit, st, leg);
    EndedMore(legs, leg, {Pass, Fail}, 0);
    forall x
      ensures In(Account(limit, st, leg).intervals, x) <==> Swept(legs + [leg], x)
    {
      SweptMore(legs, leg, x);
      if leg.ask.Range? { InOneMore(st.intervals, Slice(leg), x); }
    }
  }

  lemma SweptMore(legs: seq<Leg>, leg: Leg, x: int)
    ensures Swept(legs + [leg], x)
       <==> Swept(legs, x) || (leg.status in {Pass, Fail} && leg.ask.Range? && leg.ask.lo <= x < leg.ask.hi)
  {
    var all := legs + [leg];
    assert all[|legs|] == leg && forall i | 0 <= i < |legs| :: all[i] == legs[i];
    if Swept(legs, x) {
      var i :| 0 <= i < |legs| && legs[i].status in {Pass, Fail}
               && legs[i].ask.Range? && legs[i].ask.lo <= x < legs[i].ask.hi;
      assert all[i] == legs[i];
    }
  }

  lemma InOneMore(iv: seq<Iv>, a: Iv, x: int)
    ensures In(iv + [a], x) <==> In(iv, x) || a.0 <= x < a.1
  {
    var all := iv + [a];
    assert all[|iv|] == a && forall i | 0 <= i < |iv| :: all[i] == iv[i];
    if In(iv, x) {
      var i :| 0 <= i < |iv| && iv[i].0 <= x < iv[i].1;
      assert all[i] == iv[i];
    }
  }

  lemma FailsSay(limit: int, st: ItemState, legs: seq<Leg>, leg: Leg)
    requires forall k :: FailsOf(st.fails, k) == EndedAt(legs, {Timeout, NoDevice, ParseError, Error, Skipped}, k)
    requires QuarantineIs(limit, st)
    ensures var now := Account(limit, st, leg);
            && QuarantineIs(limit, now)
            && forall k ::
                 FailsOf(now.fails, k) == EndedAt(legs + [leg], {Timeout, NoDevice, ParseError, Error, Skipped}, k)
  {
    hide EndedAt, QuarantineIs, FailsOf;
    AccountQuarantines(limit, st, leg);
    forall k
      ensures FailsOf(Account(limit, st, leg).fails, k)
           == EndedAt(legs + [leg], {Timeout, NoDevice, ParseError, Error, Skipped}, k)
    {
      EndedAtMore(legs, leg, {Timeout, NoDevice, ParseError, Error, Skipped}, k);
      if leg.ask.Range? { BumpCounts(st.fails, Slice(leg), k); }
    }
  }

  // ---- and what load_state rebuilds -----------------------------------------

  /** From the records: the same streak, and disabled where it now stands over the limit; a
      slice has failed for a timeout, a lost device or an unreadable verdict alone. */
  lemma RebuiltSays(limit: int, floor: nat, all: seq<Leg>, mine: seq<Leg>)
    ensures var st := Replay(limit, floor, all, mine);
            && st.bad == Streak(all)
            && (limit >= 0 ==> (st.disabled <==> Streak(all) > limit))
            && (limit < 0 ==> (st.disabled <==> Streak(all) > limit && JudgedIn(all) > 0))
            && st.served == Ended(mine, {Pass, Fail}, 0)
            && (forall x :: In(st.intervals, x) <==> Swept(mine, x))
            && (forall k :: FailsOf(st.fails, k) == EndedAt(all, {Timeout, NoDevice, ParseError}, k))
            && QuarantineIs(limit, st)
            && exists n: nat :: NextDraw(all, n) && st.seedN == if n > floor then n else floor
  {
    hide Streak, Ended, EndedAt, Swept, NextDraw, FailsOf, QuarantineIs, In, ReplayBad, ReplayServed, ReplayIntervals,
         ReplayFails, ReplaySeedN, ReplayCases, ReplaySkipped, Judged;
    RebuiltStreak(all);
    RebuiltCover(mine);
    RebuiltFails(all);
    RebuiltDraws(all);
    ReplayQuarantines(limit, floor, all, mine);
  }

  lemma {:induction false} RebuiltStreak(all: seq<Leg>)
    ensures ReplayBad(all) == Streak(all)
    ensures Judged(all) <==> Ended(all, {Pass, Fail, ParseError, Error}, 0) > 0
    ensures Streak(all) > 0 ==> Judged(all)
  {
    hide Streak, Ended, Judged;
    if all == [] {
      StreakNone();
      NoneJudged();
    } else {
      var before, leg := all[..|all| - 1], all[|all| - 1];
      assert before + [leg] == all;
      RebuiltStreak(before);
      StreakMore(before, leg);
      EndedMore(before, leg, {Pass, Fail, ParseError, Error}, 0);
      JudgedSnoc(before, leg);
    }
  }

  lemma NoneJudged()
    ensures !Judged([]) && Ended([], {Pass, Fail, ParseError, Error}, 0) == 0
  {
  }

  lemma {:induction false} RebuiltCover(mine: seq<Leg>)
    ensures ReplayServed(mine) == Ended(mine, {Pass, Fail}, 0)
    ensures forall x :: In(ReplayIntervals(mine), x) <==> Swept(mine, x)
  {
    hide Ended, In, Swept;
    if mine == [] {
      NothingSaid(0);
    } else {
      var before, leg := mine[..|mine| - 1], mine[|mine| - 1];
      assert before + [leg] == mine;
      RebuiltCover(before);
      EndedMore(before, leg, {Pass, Fail}, 0);
      assert ReplayIntervals(before) + [] == ReplayIntervals(before);
      forall x
        ensures In(ReplayIntervals(mine), x) <==> Swept(mine, x)
      {
        SweptMore(before, leg, x);
        if leg.ask.Range? { InOneMore(ReplayIntervals(before), Slice(leg), x); }
      }
    }
  }

  lemma {:induction false} RebuiltFails(all: seq<Leg>)
    ensures forall k :: FailsOf(ReplayFails(all), k) == EndedAt(all, {Timeout, NoDevice, ParseError}, k)
  {
    hide EndedAt, FailsOf;
    if all == [] {
      forall k
        ensures FailsOf(ReplayFails([]), k) == EndedAt([], {Timeout, NoDevice, ParseError}, k)
      {
        NoFails(k);
      }
    } else {
      var before, leg := all[..|all| - 1], all[|all| - 1];
      assert before + [leg] == all;
      RebuiltFails(before);
      forall k
        ensures FailsOf(ReplayFails(all), k) == EndedAt(all, {Timeout, NoDevice, ParseError}, k)
      {
        EndedAtMore(before, leg, {Timeout, NoDevice, ParseError}, k);
        if leg.ask.Range? { BumpCounts(ReplayFails(before), Slice(leg), k); }
      }
    }
  }

  lemma NoFails(k: Iv)
    ensures FailsOf([], k) == 0 && EndedAt([], {Timeout, NoDevice, ParseError}, k) == 0
  {
  }

  lemma {:induction false} RebuiltDraws(all: seq<Leg>)
    ensures NextDraw(all, ReplaySeedN(all))
  {
    if all != [] {
      var before, leg := all[..|all| - 1], all[|all| - 1];
      RebuiltDraws(before);
      var n := ReplaySeedN(before);
      if n > 0 {
        var i :| 0 <= i < |before| && before[i].status in {Pass, Fail}
                 && before[i].ask.Draw? && before[i].ask.n == n - 1;
        assert all[i] == before[i];
      }
      assert forall i | 0 <= i < |before| :: all[i] == before[i];
    }
  }
}
