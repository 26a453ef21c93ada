/** hw/card_stress_lib.py's smooth_wrr, the images' weighted rotation, and the driver's
    next_image, which asks it for one pick more each time. */
module Rotation {
  import opened Wrappers
  import Arithmetic

  type Weights = seq<int>

  function Sum(s: seq<int>): int {
    if s == [] then 0 else s[0] + Sum(s[1..])
  }

  function Plus(a: seq<int>, b: seq<int>): (c: seq<int>)
    requires |a| == |b|
    ensures |c| == |a|
  {
    seq(|a|, k requires 0 <= k < |a| => a[k] + b[k])
  }

  /** The first name of the largest total. */
  function Best(c: seq<int>): (b: nat)
    requires c != []
    ensures b < |c|
    ensures forall k :: 0 <= k < |c| ==> c[k] <= c[b]
    ensures forall k :: 0 <= k < b ==> c[k] < c[b]
  {
    if |c| == 1 then 0
    else
      var b := Best(c[..|c| - 1]);
      if c[|c| - 1] > c[b] then |c| - 1 else b
  }

  /** The running totals after n rounds. */
  function Cur(w: Weights, n: nat): (c: seq<int>)
    requires w != []
    ensures |c| == |w|
  {
    if n == 0 then seq(|w|, k => 0)
    else
      var c := Plus(Cur(w, n - 1), w);
      c[Best(c) := c[Best(c)] - Sum(w)]
  }

  /** Round n's pick (0-based). */
  function Pick(w: Weights, n: nat): (b: nat)
    requires w != []
    ensures b < |w|
  {
    Best(Plus(Cur(w, n), w))
  }

  function Picks(w: Weights, n: nat): (p: seq<nat>)
    requires w != []
    ensures |p| == n
  {
    if n == 0 then [] else Picks(w, n - 1) + [Pick(w, n - 1)]
  }

  function Count(p: seq<nat>, k: nat): (c: nat)
    ensures c <= |p|
  {
    if p == [] then 0 else Count(p[..|p| - 1], k) + if p[|p| - 1] == k then 1 else 0
  }

  // ---- the loop -------------------------------------------------------------

  predicate Named(names: seq<string>, p: seq<nat>, r: seq<string>) {
    |r| == |p| && forall j | 0 <= j < |p| :: p[j] < |names| && r[j] == names[p[j]]
  }

  /** The first n picks, by name; None where Python's max meets no name at all. */
  method SmoothWrr(names: seq<string>, w: Weights, n: nat) returns (r: Option<seq<string>>)
    requires |names| == |w|
    ensures r.None? <==> w == [] && n > 0
    ensures r.Some? && w != [] ==> Named(names, Picks(w, n), r.value)
    ensures r.Some? && w == [] ==> r.value == []
  {
    hide Best, Sum, Plus, Cur, Picks;
    if w != [] { PicksNext(w, 0); }
    var total := Total(w);
    var cur := seq(|w|, k => 0);
    var picks: seq<string> := [];
    for j := 0 to n
      invariant |cur| == |w| && |picks| == j && (j > 0 ==> w != [])
      invariant w != [] ==> cur == Cur(w, j)
      invariant w != [] ==> Named(names, Picks(w, j), picks)
    {
      if w == [] { return None; }
      PicksNext(w, j);
      cur := Gain(cur, w);
      var best := Largest(cur);
      BestUnique(cur, best);
      cur := cur[best := cur[best] - total];
      picks := picks + [names[best]];
    }
    r := Some(picks);
  }

  /** Every name gains its weight. */
  method Gain(was: seq<int>, w: Weights) returns (cur: seq<int>)
    requires |was| == |w|
    ensures cur == Plus(was, w)
  {
    cur := was;
    for k := 0 to |w|
      invariant |cur| == |w|
      invariant forall i :: 0 <= i < |w| ==> cur[i] == was[i] + if i < k then w[i] else 0
    {
      cur := cur[k := cur[k] + w[k]];
    }
  }

  method Total(w: seq<int>) returns (t: int)
    ensures t == Sum(w)
  {
    t := 0;
    for k := 0 to |w|
      invariant t + Sum(w[k..]) == Sum(w)
    {
      t := t + w[k];
      assert w[k..][1..] == w[k + 1..];
    }
  }

  method Largest(c: seq<int>) returns (b: nat)
    requires c != []
    ensures b < |c| && (forall k :: 0 <= k < |c| ==> c[k] <= c[b]) && (forall k :: 0 <= k < b ==> c[k] < c[b])
  {
    b := 0;
    for k := 1 to |c|
      invariant b < k && (forall i :: 0 <= i < k ==> c[i] <= c[b]) && (forall i :: 0 <= i < b ==> c[i] < c[b])
    {
      if c[k] > c[b] { b := k; }
    }
  }

  lemma BestUnique(c: seq<int>, b: nat)
    requires b < |c| && (forall k :: 0 <= k < |c| ==> c[k] <= c[b]) && (forall k :: 0 <= k < b ==> c[k] < c[b])
    ensures Best(c) == b
  {
    assert c[b] <= c[Best(c)] && c[Best(c)] <= c[b];
  }

  /** next_image's pick: the last of one more pick than have been made. */
  method NextImage(names: seq<string>, w: Weights, picked: nat) returns (name: string)
    requires |names| == |w| > 0
    ensures name == names[Pick(w, picked)]
  {
    var r := SmoothWrr(names, w, picked + 1);
    name := r.value[picked];
  }

  // ---- prefixes -------------------------------------------------------------

  /** Each call extends the last: recomputing a prefix agrees with going on. */
  lemma {:induction false} PicksExtend(w: Weights, m: nat, n: nat)
    requires w != [] && m <= n
    ensures Picks(w, m) == Picks(w, n)[..m]
  {
    if m < n { PicksExtend(w, m, n - 1); }
  }

  // ---- where the totals stand -----------------------------------------------

  ghost predicate Weighted(w: Weights) {
    w != [] && (forall k :: 0 <= k < |w| ==> w[k] >= 0) && Sum(w) > 0
  }

  lemma {:induction false} SumSet(s: seq<int>, k: nat, v: int)
    requires k < |s|
    ensures Sum(s[k := v]) == Sum(s) - s[k] + v
  {
    if k > 0 {
      assert s[k := v][1..] == s[1..][k - 1 := v];
      SumSet(s[1..], k - 1, v);
    } else {
      assert s[k := v][1..] == s[1..];
    }
  }

  lemma {:induction false} SumPlus(a: seq<int>, b: seq<int>)
    requires |a| == |b|
    ensures Sum(Plus(a, b)) == Sum(a) + Sum(b)
  {
    if a != [] {
      assert Plus(a, b)[1..] == Plus(a[1..], b[1..]);
      SumPlus(a[1..], b[1..]);
    }
  }

  lemma {:induction false} SumZeros(n: nat)
    ensures Sum(seq(n, k => 0)) == 0
  {
    if n > 0 {
      assert seq(n, k => 0)[1..] == seq(n - 1, k => 0);
      SumZeros(n - 1);
    }
  }

  lemma {:induction false} SumBelow(s: seq<int>, b: int)
    requires forall k :: 0 <= k < |s| ==> s[k] <= b
    ensures Sum(s) <= |s| * b
  {
    if s != [] {
      SumBelow(s[1..], b);
      assert |s| * b == b + (|s| - 1) * b;
    }
  }

  lemma {:induction false} SumAbove(s: seq<int>, b: int, k: nat)
    requires k < |s| && forall j :: 0 <= j < |s| ==> s[j] >= b
    ensures Sum(s) >= s[k] + (|s| - 1) * b
  {
    var t := s[1..];
    assert forall j :: 0 <= j < |t| ==> t[j] == s[j + 1];
    if k > 0 {
      SumAbove(t, b, k - 1);
      Times(|t| - 1, b);
    } else {
      SumAtLeast(t, b);
    }
  }

  lemma Times(n: int, b: int)
    ensures (n + 1) * b == n * b + b
  {
  }

  lemma {:induction false} SumAtLeast(s: seq<int>, b: int)
    requires forall j :: 0 <= j < |s| ==> s[j] >= b
    ensures Sum(s) >= |s| * b
  {
    if s != [] {
      var t := s[1..];
      assert forall j :: 0 <= j < |t| ==> t[j] == s[j + 1];
      SumAtLeast(t, b);
      Times(|t|, b);
    }
  }

  lemma CountSnoc(p: seq<nat>, b: nat, k: nat)
    ensures Count(p + [b], k) == Count(p, k) + (if b == k then 1 else 0) && Count([], k) == 0
  {
    assert (p + [b])[..|p|] == p;
  }

  lemma PlusAt(a: seq<int>, b: seq<int>, k: nat)
    requires |a| == |b| && k < |a|
    ensures Plus(a, b)[k] == a[k] + b[k]
  {
  }

  /** One round's arithmetic. */
  lemma Round(n: int, x: int, T: int, c: int)
    ensures (n - 1) * x + x == n * x && T * (c + 1) == T * c + T && T * 0 == 0
  {
  }

  /** cur[k] = n w_k - T picks_k. */
  lemma {:induction false} CurIs(w: Weights, n: nat, k: nat)
    requires w != [] && k < |w|
    ensures Cur(w, n)[k] == n * w[k] - Sum(w) * Count(Picks(w, n), k)
  {
    hide Cur, Picks, Best, Sum, Plus, Count;
    if n == 0 {
      PicksNext(w, 0);
      CountSnoc([], 0, k);
      Round(0, w[k], Sum(w), 0);
    } else {
      CurIs(w, n - 1, k);
      PicksNext(w, n - 1);
      var was, p := Cur(w, n - 1), Picks(w, n - 1);
      PlusAt(was, w, k);
      CountSnoc(p, Best(Plus(was, w)), k);
      Round(n, w[k], Sum(w), Count(p, k));
    }
  }

  /** The totals sum to zero. */
  lemma {:induction false} CurSum(w: Weights, n: nat)
    requires w != []
    ensures Sum(Cur(w, n)) == 0
  {
    hide Cur, Picks, Best, Sum, Plus;
    if n == 0 {
      PicksNext(w, 0);
      SumZeros(|w|);
    } else {
      CurSum(w, n - 1);
      PicksNext(w, n - 1);
      var c := Plus(Cur(w, n - 1), w);
      SumPlus(Cur(w, n - 1), w);
      SumSet(c, Best(c), c[Best(c)] - Sum(w));
    }
  }

  /** The largest of totals that sum to more than 0 is more than 0. */
  lemma BestAbove(c: seq<int>)
    requires c != [] && Sum(c) > 0
    ensures c[Best(c)] > 0
  {
    hide Sum;
    if c[Best(c)] <= 0 { SumBelow(c, 0); }
  }

  /** No total falls to -T. */
  lemma {:induction false} CurAbove(w: Weights, n: nat, k: nat)
    requires Weighted(w) && k < |w|
    ensures Cur(w, n)[k] > -Sum(w)
  {
    hide Cur, Picks, Best, Sum, Plus;
    if n == 0 {
      PicksNext(w, 0);
    } else {
      CurAbove(w, n - 1, k);
      PicksNext(w, n - 1);
      var was := Cur(w, n - 1);
      CurSum(w, n - 1);
      SumPlus(was, w);
      PlusAt(was, w, k);
      BestAbove(Plus(was, w));
    }
  }

  /** A multiple of T above -T is not negative. */
  lemma ScaleAbove(T: int, x: int)
    requires T > 0 && T * x > -T
    ensures x >= 0 && T * x >= 0
  {
    if x < 0 { Arithmetic.Mono(x, -1, T); } else { Arithmetic.Mono(0, x, T); }
  }

  lemma ScaleZero(T: int, x: int)
    requires T > 0 && T * x == 0
    ensures x == 0
  {
  }

  lemma Distribute(T: int, x: int, y: int)
    ensures T * (x - y) == T * x - T * y && x * -y == -(x * y)
  {
  }

  /** Each name's share at every moment: above n w_k / T - (K - 1) and below
      n w_k / T + 1 picks in n rounds. */
  lemma Share(w: Weights, n: nat, k: nat)
    requires Weighted(w) && k < |w|
    ensures var picks := Count(Picks(w, n), k);
            Sum(w) * picks < n * w[k] + Sum(w) && n * w[k] - (|w| - 1) * Sum(w) <= Sum(w) * picks
  {
    hide Cur, Count, Picks, Sum;
    CurIs(w, n, k);
    CurAbove(w, n, k);
    CurSum(w, n);
    var c := Cur(w, n);
    forall j | 0 <= j < |w| ensures c[j] >= -Sum(w) { CurAbove(w, n, j); }
    SumAbove(c, -Sum(w), k);
    Distribute(0, |w| - 1, Sum(w));
  }

  /** A name of no weight is never picked. */
  lemma NeverPicked(w: Weights, n: nat, k: nat)
    requires Weighted(w) && k < |w| && w[k] == 0
    ensures Count(Picks(w, n), k) == 0
  {
    hide Cur, Count, Picks, Sum;
    CurIs(w, n, k);
    CurAbove(w, n, k);
    var c: int := Count(Picks(w, n), k);
    Distribute(Sum(w), 0, c);
    ScaleAbove(Sum(w), -c);
  }

  /** T rounds in, no total is below zero. */
  lemma WindowAbove(w: Weights, k: nat)
    requires Weighted(w) && k < |w|
    ensures Cur(w, Sum(w))[k] == Sum(w) * (w[k] - Count(Picks(w, Sum(w)), k)) >= 0
  {
    hide Cur, Count, Picks, Sum;
    var T := Sum(w);
    CurIs(w, T, k);
    CurAbove(w, T, k);
    Distribute(T, w[k], Count(Picks(w, T), k));
    ScaleAbove(T, w[k] - Count(Picks(w, T), k));
  }

  /** T rounds give each name exactly its weight, and bring every total back to zero. */
  lemma Window(w: Weights, k: nat)
    requires Weighted(w) && k < |w|
    ensures Cur(w, Sum(w))[k] == 0 && Count(Picks(w, Sum(w)), k) == w[k]
  {
    hide Cur, Count, Picks, Sum;
    var c := Cur(w, Sum(w));
    forall j | 0 <= j < |w| ensures c[j] >= 0 { WindowAbove(w, j); }
    CurSum(w, Sum(w));
    SumAbove(c, 0, k);
    WindowAbove(w, k);
    ScaleZero(Sum(w), w[k] - Count(Picks(w, Sum(w)), k));
  }

  lemma PicksNext(w: Weights, n: nat)
    requires w != []
    ensures Picks(w, 0) == [] && Picks(w, n + 1) == Picks(w, n) + [Best(Plus(Cur(w, n), w))]
    ensures var c := Plus(Cur(w, n), w); Cur(w, n + 1) == c[Best(c) := c[Best(c)] - Sum(w)]
    ensures Cur(w, 0) == seq(|w|, k => 0)
  {
    hide Best, Sum, Plus;
  }

  /** So the sequence repeats with period T. */
  lemma {:induction false} Periodic(w: Weights, n: nat)
    requires Weighted(w)
    ensures Picks(w, Sum(w) + n) == Picks(w, Sum(w)) + Picks(w, n)
    ensures Cur(w, Sum(w) + n) == Cur(w, n)
  {
    hide Sum, Best, Plus, Picks;
    PicksNext(w, 0);
    if n == 0 {
      forall k | 0 <= k < |w| ensures Cur(w, Sum(w))[k] == 0 { Window(w, k); }
      assert Cur(w, Sum(w)) == Cur(w, 0);
    } else {
      Periodic(w, n - 1);
      PicksNext(w, n - 1);
      PicksNext(w, Sum(w) + n - 1);
    }
  }
}
