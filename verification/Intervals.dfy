/** hw/card_stress_lib.py's interval bookkeeping: merge_intervals, covered, first_gap. */
module Intervals {
  import opened Wrappers

  datatype Result<+T> = Ok(value: T) | BadInterval(lo: int, hi: int)

  /** [lo, hi) */
  type Iv = (int, int)

  predicate Proper(iv: seq<Iv>) {
    forall k | 0 <= k < |iv| :: iv[k].0 < iv[k].1
  }

  ghost predicate In(iv: seq<Iv>, x: int) {
    exists k :: 0 <= k < |iv| && iv[k].0 <= x < iv[k].1
  }

  // ---- sorting: Python's order on pairs -------------------------------------

  predicate Le(a: Iv, b: Iv) {
    a.0 < b.0 || (a.0 == b.0 && a.1 <= b.1)
  }

  predicate Sorted(s: seq<Iv>) {
    forall i, j | 0 <= i < j < |s| :: Le(s[i], s[j])
  }

  function Insert(a: Iv, s: seq<Iv>): (r: seq<Iv>)
    ensures multiset(r) == multiset(s) + multiset{a}
  {
    if s == [] || Le(a, s[0]) then
      [a] + s
    else
      assert s == [s[0]] + s[1..];
      [s[0]] + Insert(a, s[1..])
  }

  lemma {:induction false} InsertSorted(a: Iv, s: seq<Iv>)
    requires Sorted(s)
    ensures Sorted(Insert(a, s))
  {
    if s != [] && !Le(a, s[0]) {
      var r := Insert(a, s[1..]);
      InsertSorted(a, s[1..]);
      assert s == [s[0]] + s[1..];
      forall j | 0 <= j < |r|
        ensures Le(s[0], r[j])
      {
        assert r[j] in multiset(r);
        assert r[j] == a || r[j] in s[1..];
      }
    }
  }

  /** Python's `sorted`. */
  function Sort(s: seq<Iv>): (r: seq<Iv>)
    ensures multiset(r) == multiset(s)
  {
    if s == [] then [] else
      assert s == [s[0]] + s[1..];
      Insert(s[0], Sort(s[1..]))
  }

  lemma {:induction false} SortSorts(s: seq<Iv>)
    ensures Sorted(Sort(s))
  {
    if s != [] {
      SortSorts(s[1..]);
      InsertSorted(s[0], Sort(s[1..]));
    }
  }

  lemma SortSame(s: seq<Iv>)
    ensures forall a :: a in Sort(s) <==> a in s
    ensures forall x :: In(Sort(s), x) <==> In(s, x)
  {
    hide Sort;
    forall a
      ensures a in Sort(s) <==> a in s
    {
      assert a in multiset(Sort(s)) <==> a in multiset(s);
    }
    InSame(Sort(s), s);
  }

  /** Lists of the same intervals hold the same points. */
  lemma InSame(s: seq<Iv>, t: seq<Iv>)
    requires forall a :: a in s <==> a in t
    ensures forall x :: In(s, x) <==> In(t, x)
  {
    forall x
      ensures In(s, x) <==> In(t, x)
    {
      if In(s, x) { InOther(s, t, x); }
      if In(t, x) { InOther(t, s, x); }
    }
  }

  lemma InOther(s: seq<Iv>, t: seq<Iv>, x: int)
    requires In(s, x) && forall a :: a in s ==> a in t
    ensures In(t, x)
  {
    var k :| 0 <= k < |s| && s[k].0 <= x < s[k].1;
    assert s[k] in t;
  }

  // ---- merging --------------------------------------------------------------

  /** Sorted, proper, disjoint and non-touching. */
  predicate Separated(s: seq<Iv>) {
    Proper(s) && forall k | 0 < k < |s| :: s[k - 1].1 < s[k].0
  }

  lemma {:induction false} SeparatedOrder(s: seq<Iv>, i: nat, j: nat)
    requires Separated(s) && i < j < |s|
    ensures s[i].1 < s[j].0
  {
    if i + 1 < j { SeparatedOrder(s, i, j - 1); }
  }

  /** A point set has one separated list: merging forgets how the set was cut up. */
  lemma {:induction false} SeparatedUnique(s: seq<Iv>, t: seq<Iv>)
    requires Separated(s) && Separated(t) && forall x :: In(s, x) <==> In(t, x)
    ensures s == t
  {
    assert s != [] ==> In(s, s[0].0);
    assert t != [] ==> In(t, t[0].0);
    if s != [] && t != [] {
      FirstAgree(s, t);
      forall x
        ensures In(s[1..], x) <==> In(t[1..], x)
      {
        InTail(s, x);
        InTail(t, x);
      }
      SeparatedUnique(s[1..], t[1..]);
    }
  }

  lemma InTail(s: seq<Iv>, x: int)
    requires Separated(s) && s != []
    ensures In(s[1..], x) <==> In(s, x) && x >= s[0].1
  {
    if In(s[1..], x) {
      var k :| 0 <= k < |s[1..]| && s[1..][k].0 <= x < s[1..][k].1;
      SeparatedOrder(s, 0, k + 1);
      assert s[k + 1].0 <= x < s[k + 1].1;
    }
    if In(s, x) && x >= s[0].1 {
      var k :| 0 <= k < |s| && s[k].0 <= x < s[k].1;
      assert k > 0 && s[1..][k - 1] == s[k];
    }
  }

  lemma NotBefore(s: seq<Iv>, x: int)
    requires Separated(s) && s != [] && In(s, x)
    ensures s[0].0 <= x
  {
    var k :| 0 <= k < |s| && s[k].0 <= x < s[k].1;
    if k > 0 { SeparatedOrder(s, 0, k); }
  }

  /** Where a separated list's first interval ends, nothing starts. */
  lemma EndIsOut(s: seq<Iv>)
    requires Separated(s) && s != []
    ensures !In(s, s[0].1)
  {
    if In(s, s[0].1) {
      InTail(s, s[0].1);
      NotBefore(s[1..], s[0].1);
    }
  }

  lemma FirstAgree(s: seq<Iv>, t: seq<Iv>)
    requires Separated(s) && Separated(t) && s != [] && t != [] && forall x :: In(s, x) <==> In(t, x)
    ensures s[0] == t[0]
  {
    assert In(s, s[0].0) && In(t, t[0].0);
    NotBefore(s, t[0].0);
    NotBefore(t, s[0].0);
    EndIsOut(s);
    EndIsOut(t);
    assert !In(t, s[0].1) && !In(s, t[0].1);
    assert !(t[0].0 <= s[0].1 < t[0].1) && !(s[0].0 <= t[0].1 < s[0].1);
  }

  lemma InSnoc(s: seq<Iv>, a: Iv, x: int)
    ensures In(s + [a], x) <==> In(s, x) || a.0 <= x < a.1
  {
    if In(s, x) { var k :| 0 <= k < |s| && s[k].0 <= x < s[k].1; assert (s + [a])[k] == s[k]; }
    if a.0 <= x < a.1 { assert (s + [a])[|s|] == a; }
  }

  /** Sorted, merged, adjacent intervals joined; an empty or reversed interval anywhere is
      refused, the first in sorted order by name. */
  method MergeIntervals(iv: seq<Iv>) returns (r: Result<seq<Iv>>)
    ensures r.Ok? <==> Proper(iv)
    ensures r.Ok? ==> Separated(r.value) && forall x :: In(r.value, x) <==> In(iv, x)
    ensures r.BadInterval? ==> (r.lo, r.hi) in iv && r.hi <= r.lo
                               && forall a | a in iv && a.1 <= a.0 :: Le((r.lo, r.hi), a)
  {
    hide Sort, In;
    var s := Sort(iv);
    SortSame(iv);
    SortSorts(iv);
    var out: seq<Iv> := [];
    for i := 0 to |s|
      invariant Proper(s[..i]) && Separated(out)
      invariant i == 0 <==> out == []
      invariant forall x :: In(out, x) <==> In(s[..i], x)
      invariant out != [] ==> out[|out| - 1].0 <= s[i - 1].0
    {
      var lo, hi := s[i].0, s[i].1;
      if hi <= lo {
        BadIsFirst(s, i);
        assert !Proper(iv) by { assert s[i] in iv; }
        return BadInterval(lo, hi);
      }
      assert s[..i + 1] == s[..i] + [s[i]];
      ghost var before := out;
      if out != [] && lo <= out[|out| - 1].1 {
        assert out == out[..|out| - 1] + [out[|out| - 1]];
        if hi > out[|out| - 1].1 {
          out := out[..|out| - 1] + [(out[|out| - 1].0, hi)];
        }
        forall x
          ensures In(out, x) <==> In(s[..i + 1], x)
        {
          InSnoc(s[..i], s[i], x);
          InSnoc(before[..|before| - 1], before[|before| - 1], x);
          InSnoc(before[..|before| - 1], out[|out| - 1], x);
        }
      } else {
        out := out + [(lo, hi)];
        forall x
          ensures In(out, x) <==> In(s[..i + 1], x)
        {
          InSnoc(s[..i], s[i], x);
          InSnoc(before, (lo, hi), x);
        }
      }
    }
    assert s[..|s|] == s;
    assert Proper(iv) by { forall k | 0 <= k < |iv| ensures iv[k].0 < iv[k].1 { assert iv[k] in s; } }
    r := Ok(out);
  }

  lemma BadIsFirst(s: seq<Iv>, i: nat)
    requires Sorted(s) && i < |s| && Proper(s[..i])
    ensures forall a | a in s && a.1 <= a.0 :: Le(s[i], a)
  {
    assert forall j | 0 <= j < i :: s[..i][j] == s[j] && s[j].0 < s[j].1;
    forall a | a in s && a.1 <= a.0
      ensures Le(s[i], a)
    {
      var j :| 0 <= j < |s| && s[j] == a;
      assert j >= i;
    }
  }

  // ---- covered --------------------------------------------------------------

  predicate Between(lo: int, x: int, hi: int) { lo <= x < hi }

  ghost function Range(lo: int, hi: int): set<int> {
    set x | lo <= x < hi && Between(lo, x, hi)
  }

  /** The point set. */
  ghost function Points(iv: seq<Iv>): set<int> {
    set k, x | 0 <= k < |iv| && iv[k].0 <= x < iv[k].1 && Between(iv[k].0, x, iv[k].1) :: x
  }

  lemma PointsIn(iv: seq<Iv>, x: int)
    ensures x in Points(iv) <==> In(iv, x)
  {
    if In(iv, x) {
      var k :| 0 <= k < |iv| && iv[k].0 <= x < iv[k].1;
      assert Between(iv[k].0, x, iv[k].1);
    }
  }

  lemma {:induction false} RangeSize(lo: int, hi: int)
    requires lo <= hi
    ensures |Range(lo, hi)| == hi - lo
    decreases hi - lo
  {
    if lo < hi {
      assert Range(lo, hi) == Range(lo, hi - 1) + {hi - 1};
      RangeSize(lo, hi - 1);
    } else {
      assert Range(lo, hi) == {};
    }
  }

  function Length(s: seq<Iv>): int {
    if s == [] then 0 else s[0].1 - s[0].0 + Length(s[1..])
  }

  /** A separated list's lengths sum to the size of its point set. */
  lemma {:induction false} LengthIsSize(s: seq<Iv>)
    requires Separated(s)
    ensures Length(s) == |Points(s)|
  {
    if s == [] {
      assert Points(s) == {};
    } else {
      LengthIsSize(s[1..]);
      RangeSize(s[0].0, s[0].1);
      PointsSplit(s);
    }
  }

  lemma PointsSplit(s: seq<Iv>)
    requires Separated(s) && s != []
    ensures Points(s) == Range(s[0].0, s[0].1) + Points(s[1..])
    ensures Range(s[0].0, s[0].1) !! Points(s[1..])
  {
    hide Points;
    forall x
      ensures x in Points(s) <==> x in Range(s[0].0, s[0].1) + Points(s[1..])
      ensures !(x in Range(s[0].0, s[0].1) && x in Points(s[1..]))
    {
      InTail(s, x);
      PointsIn(s, x);
      PointsIn(s[1..], x);
      if In(s, x) && x < s[0].1 { NotBefore(s, x); }
    }
  }

  /** How many points are covered, however the intervals overlap. */
  method Covered(iv: seq<Iv>) returns (r: Result<int>)
    ensures r.Ok? <==> Proper(iv)
    ensures r.Ok? ==> r.value == |Points(iv)|
  {
    var m := MergeIntervals(iv);
    if m.BadInterval? { return BadInterval(m.lo, m.hi); }
    var s := m.value;
    var total := 0;
    for i := 0 to |s|
      invariant total + Length(s[i..]) == Length(s)
    {
      total := total + (s[i].1 - s[i].0);
      assert s[i..][1..] == s[i + 1..];
    }
    LengthIsSize(s);
    assert Points(s) == Points(iv) by {
      forall x ensures x in Points(s) <==> x in Points(iv) { PointsIn(s, x); PointsIn(iv, x); }
    }
    r := Ok(total);
  }

  // ---- first_gap ------------------------------------------------------------

  /** The least uncovered point of [p, total), or total. */
  ghost function LeastOut(iv: seq<Iv>, p: int, total: int): (q: int)
    ensures p <= total ==> p <= q <= total
    ensures forall x :: p <= x < q ==> In(iv, x)
    ensures p <= total && q < total ==> !In(iv, q)
    decreases total - p
  {
    if p >= total || !In(iv, p) then p else LeastOut(iv, p + 1, total)
  }

  /** The least covered point of [p, total), or total. */
  ghost function LeastIn(iv: seq<Iv>, p: int, total: int): (q: int)
    ensures p <= total ==> p <= q <= total
    ensures forall x :: p <= x < q ==> !In(iv, x)
    ensures p <= total && q < total ==> In(iv, q)
    decreases total - p
  {
    if p >= total || In(iv, p) then p else LeastIn(iv, p + 1, total)
  }

  /** The first gap of a space: the least uncovered point and the maximal uncovered run
      from it, clipped to the space; None when every point is covered. */
  ghost function FirstGap(iv: seq<Iv>, total: int): (g: Option<Iv>)
    requires total >= 0
    ensures g.None? <==> forall x :: 0 <= x < total ==> In(iv, x)
    ensures g.Some? ==> 0 <= g.value.0 < g.value.1 <= total
    ensures g.Some? ==> forall x :: 0 <= x < g.value.0 ==> In(iv, x)
    ensures g.Some? ==> forall x :: g.value.0 <= x < g.value.1 ==> !In(iv, x)
    ensures g.Some? && g.value.1 < total ==> In(iv, g.value.1)
  {
    var lo := LeastOut(iv, 0, total);
    if lo == total then None else Some((lo, LeastIn(iv, lo, total)))
  }

  /** Those properties have one answer. */
  lemma FirstGapUnique(iv: seq<Iv>, total: int, lo: int, hi: int)
    requires 0 <= lo < hi <= total
    requires forall x :: 0 <= x < lo ==> In(iv, x)
    requires forall x :: lo <= x < hi ==> !In(iv, x)
    requires hi < total ==> In(iv, hi)
    ensures FirstGap(iv, total) == Some((lo, hi))
  {
    assert !In(iv, lo);
    var g := FirstGap(iv, total);
    assert g.Some?;
    assert !In(iv, g.value.0);
    assert g.value.0 == lo;
    assert !(hi < g.value.1) && !(g.value.1 < hi);
  }

  /** Only the point set matters to it. */
  lemma FirstGapOfPoints(s: seq<Iv>, t: seq<Iv>, total: int)
    requires total >= 0 && forall x :: In(s, x) <==> In(t, x)
    ensures FirstGap(s, total) == FirstGap(t, total)
  {
    var g := FirstGap(s, total);
    if g.Some? {
      FirstGapUnique(t, total, g.value.0, g.value.1);
    }
  }

  predicate AllAbove(iv: seq<Iv>) {
    forall k | 0 <= k < |iv| :: iv[k].0 > 0
  }

  lemma FirstAbove(s: seq<Iv>, iv: seq<Iv>)
    requires Separated(s) && Proper(iv) && forall x :: In(s, x) <==> In(iv, x)
    ensures (s != [] && s[0].0 > 0) <==> (iv != [] && AllAbove(iv))
  {
    assert iv != [] ==> In(iv, iv[0].0);
    if s != [] {
      assert In(s, s[0].0);
      forall k | 0 <= k < |iv|
        ensures s[0].0 <= iv[k].0
      {
        assert In(iv, iv[k].0);
        NotBefore(s, iv[k].0);
      }
    }
  }

  /** The first uncovered [lo, hi) within [0, total).  Of a space of no points the code
      still answers (0, total) when its first interval starts above 0. */
  method FirstGapOf(iv: seq<Iv>, total: int) returns (r: Result<Option<Iv>>)
    ensures r.Ok? <==> Proper(iv)
    ensures r.Ok? && total > 0 ==> r.value == FirstGap(iv, total)
    ensures r.Ok? && total <= 0 ==>
              r.value == if iv != [] && AllAbove(iv) then Some((0, total)) else None
  {
    var m := MergeIntervals(iv);
    if m.BadInterval? { return BadInterval(m.lo, m.hi); }
    var s := m.value;
    FirstAbove(s, iv);
    var pos := 0;
    for i := 0 to |s|
      invariant pos >= 0 && (i > 0 ==> s[i - 1].1 <= pos < total) && (i == 0 ==> pos == 0)
      invariant pos > 0 ==> i > 0 && pos == s[i - 1].1
      invariant forall x :: 0 <= x < pos ==> In(s, x)
    {
      var lo, hi := s[i].0, s[i].1;
      if lo > pos {
        if total > 0 { GapAt(s, i, pos, total); FirstGapOfPoints(s, iv, total); }
        return Ok(Some((pos, if lo < total then lo else total)));
      }
      pos := if hi > pos then hi else pos;
      forall x | 0 <= x < pos
        ensures In(s, x)
      {
      }
      if pos >= total {
        if total > 0 { FirstGapOfPoints(s, iv, total); }
        return Ok(None);
      }
    }
    if pos < total {
      GapAt(s, |s|, pos, total);
      FirstGapOfPoints(s, iv, total);
      return Ok(Some((pos, total)));
    }
    return Ok(None);
  }

  lemma GapAt(s: seq<Iv>, i: nat, pos: int, total: int)
    requires Separated(s) && i <= |s| && 0 <= pos < total
    requires i > 0 ==> s[i - 1].1 <= pos
    requires i < |s| ==> pos < s[i].0
    requires forall x :: 0 <= x < pos ==> In(s, x)
    ensures FirstGap(s, total) == Some((pos, if i < |s| && s[i].0 < total then s[i].0 else total))
  {
    var hi := if i < |s| && s[i].0 < total then s[i].0 else total;
    forall x | pos <= x < hi
      ensures !In(s, x)
    {
      forall k | 0 <= k < |s|
        ensures !(s[k].0 <= x < s[k].1)
      {
        if k < i && k + 1 < i { SeparatedOrder(s, k, i - 1); }
        if k > i { SeparatedOrder(s, i, k); }
      }
    }
    if hi < total { assert In(s, hi); }
    FirstGapUnique(s, total, pos, hi);
  }
}
