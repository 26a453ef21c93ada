// The counts a slice's tool prints: random scaleB's batches (hw/card_stress_lib.py,
// hw/card_stress_standin.py), and the skips of an indexed mode spread over any cut of its
// space (hw/card_stress_standin.py).

/** The few facts of integer arithmetic the counting rests on. */
module Arithmetic {

  lemma Mono(a: int, b: int, c: int)
    requires a <= b && c >= 0
    ensures a * c <= b * c && c * a <= c * b
  {
  }

  lemma Distribute(a: int, b: int, c: int)
    ensures (a - b) * c == a * c - b * c && (a + b) * c == a * c + b * c
    ensures c * (a - b) == c * a - c * b && a * c == c * a
  {
  }

  /** Division is the greatest quotient that fits. */
  lemma Floor(a: int, s: int, q: int)
    requires s > 0
    ensures q * s <= a ==> q <= a / s
    ensures a < q * s ==> a / s < q
    ensures a / s * s <= a < a / s * s + s
  {
    var d := a / s;
    assert a == d * s + a % s;
    Distribute(d, 1, s);
    if q >= d + 1 { Mono(d + 1, q, s); } else { Mono(q, d, s); }
  }

  /** Floors step by at most the step: floor(b/s) - floor(a/s) lies in [0, n] when
      b - a lies in [0, n s]. */
  lemma FloorStep(a: int, b: int, s: int, n: int)
    requires s > 0 && 0 <= b - a <= n * s
    ensures 0 <= b / s - a / s <= n
  {
    Floor(a, s, 0);
    Floor(b, s, a / s);
    Distribute(a / s, n + 1, s);
    Distribute(n, 1, s);
    Floor(b, s, a / s + (n + 1));
  }

  lemma Exact(a: int, s: int)
    requires s > 0
    ensures a * s / s == a && a * s % s == 0
  {
    Floor(a * s, s, a);
    Distribute(a, 1, s);
    Floor(a * s, s, a + 1);
  }
}

module ScaleB {
  import opened Arithmetic

  /** Writing count = q (batch len) + r with 1 <= r <= batch len: q whole rounds of the
      exponent list and one last batch. */
  function Cases(count: nat, batch: nat, len: nat): (c: nat)
    requires batch >= 1 && len >= 1
  {
    if count == 0 then 0
    else
      var round := batch * len;
      assert round >= 1;
      var q := (count - 1) / round;
      var r := (count - 1) % round + 1;
      q * round + Min(r, batch) * len
  }

  function Min(a: nat, b: nat): nat { if a < b then a else b }

  lemma OneRound(count: nat, batch: nat, len: nat)
    requires batch >= 1 && len >= 1
    ensures batch * len >= batch && batch * len >= 1
    ensures 1 <= count <= batch * len ==> Cases(count, batch, len) == Min(count, batch) * len
    ensures count > batch * len ==> Cases(count, batch, len) == batch * len + Cases(count - batch * len, batch, len)
  {
    Mono(1, len, batch);
    var round := batch * len;
    if 1 <= count <= round {
      Small(count - 1, round);
    } else if count > round {
      Shift(count - 1 - round, round);
      Distribute((count - 1 - round) / round, 1, round);
    }
  }

  lemma Small(d: nat, m: nat)
    requires d < m
    ensures d / m == 0 && d % m == d && 0 * m == 0
  {
    Floor(d, m, 1);
    Floor(d, m, 0);
  }

  lemma Shift(d: nat, m: nat)
    requires m >= 1
    ensures (d + m) / m == d / m + 1 && (d + m) % m == d % m
  {
    Floor(d, m, 0);
    Distribute(d / m, 1, m);
    Distribute(d / m, 2, m);
    Floor(d + m, m, d / m + 1);
    Floor(d + m, m, d / m + 2);
  }

  /** random_cases' and scaleb_cases' loop: batches of min(left, batch) operands, each
      against the whole exponent list, that many cases taken off the count. */
  method CountCases(count: nat, batch: nat, len: nat) returns (total: nat)
    requires batch >= 1 && len >= 1
    ensures total == Cases(count, batch, len)
  {
    hide Cases;
    var left: nat := count;
    total := 0;
    CasesOfNone(batch, len);
    while left > 0
      invariant total + Cases(left, batch, len) == Cases(count, batch, len)
      decreases left
    {
      OneRound(left, batch, len);
      var n := if left < batch then left else batch;
      Mono(1, len, n);
      total := total + n * len;
      left := if left > n * len then left - n * len else 0;
    }
  }

  lemma CasesOfNone(batch: nat, len: nat)
    requires batch >= 1 && len >= 1
    ensures Cases(0, batch, len) == 0
  {
  }

  /** The count rounded up by whole batches: never short of it, never a round over. */
  lemma {:induction false} CasesBounds(count: nat, batch: nat, len: nat)
    requires batch >= 1 && len >= 1
    ensures count <= Cases(count, batch, len) <= count + batch * len
    ensures count > 0 ==> Cases(count, batch, len) < count + batch * len
    decreases count
  {
    hide Cases;
    CasesOfNone(batch, len);
    OneRound(count, batch, len);
    if count > batch * len {
      CasesBounds(count - batch * len, batch, len);
    } else if count > 0 {
      Mono(Min(count, batch), batch, len);
      Mono(1, len, Min(count, batch));
    }
  }

  /** More asked, no fewer made. */
  lemma {:induction false} CasesMonotone(a: nat, b: nat, batch: nat, len: nat)
    requires batch >= 1 && len >= 1 && a <= b
    ensures Cases(a, batch, len) <= Cases(b, batch, len)
    decreases b
  {
    hide Cases;
    CasesOfNone(batch, len);
    OneRound(a, batch, len);
    OneRound(b, batch, len);
    var round := batch * len;
    if a > round {
      CasesMonotone(a - round, b - round, batch, len);
    } else if a > 0 {
      Mono(Min(a, batch), batch, len);
      if b <= round { Mono(Min(a, batch), Min(b, batch), len); }
    }
  }
}

module Slices {
  import opened Intervals

  /** Pairwise disjoint. */
  predicate Disjoint(iv: seq<Iv>) {
    forall i, j | 0 <= i < j < |iv| :: Apart(iv[i], iv[j])
  }

  predicate Apart(a: Iv, b: Iv) { a.1 <= b.0 || b.1 <= a.0 }

  predicate Within(iv: seq<Iv>, lo: int, hi: int) {
    forall k | 0 <= k < |iv| :: lo <= iv[k].0 && iv[k].1 <= hi
  }

  /** The sum of F(hi) - F(lo) over the slices. */
  ghost function Sum(F: int -> int, iv: seq<Iv>): int {
    if iv == [] then 0 else Sum(F, iv[..|iv| - 1]) + F(iv[|iv| - 1].1) - F(iv[|iv| - 1].0)
  }

  function Remove<T>(s: seq<T>, k: nat): seq<T>
    requires k < |s|
  {
    s[..k] + s[k + 1..]
  }

  lemma {:induction false} SumRemove(F: int -> int, iv: seq<Iv>, k: nat)
    requires k < |iv|
    ensures Sum(F, iv) == Sum(F, Remove(iv, k)) + F(iv[k].1) - F(iv[k].0)
  {
    var n := |iv| - 1;
    if k == n {
      assert Remove(iv, k) == iv[..n];
    } else {
      SumRemove(F, iv[..n], k);
      assert Remove(iv, k)[..n - 1] == Remove(iv[..n], k);
      assert Remove(iv, k)[n - 1] == iv[n];
    }
  }

  /** Whatever is additive over slices is, summed over any disjoint slices that cover
      [lo, hi) - in any order, cut anywhere - its value on the whole. */
  lemma {:induction false} Telescope(F: int -> int, iv: seq<Iv>, lo: int, hi: int)
    requires lo <= hi && Proper(iv) && Disjoint(iv) && Within(iv, lo, hi)
    requires forall x :: lo <= x < hi ==> In(iv, x)
    ensures Sum(F, iv) == F(hi) - F(lo)
    decreases |iv|
  {
    if lo == hi {
      RoomWithin(iv, lo, hi);
    } else {
      assert In(iv, lo);
      var k :| 0 <= k < |iv| && iv[k].0 <= lo < iv[k].1;
      var rest := Remove(iv, k);
      RestCovers(iv, k, lo, hi);
      Telescope(F, rest, iv[k].1, hi);
      SumRemove(F, iv, k);
    }
  }

  lemma RoomWithin(iv: seq<Iv>, lo: int, hi: int)
    requires Proper(iv) && Within(iv, lo, hi)
    ensures iv != [] ==> lo < hi
  {
    if iv != [] { assert lo <= iv[0].0 < iv[0].1 <= hi; }
  }

  lemma RestCovers(iv: seq<Iv>, k: nat, lo: int, hi: int)
    requires Proper(iv) && Disjoint(iv) && Within(iv, lo, hi) && k < |iv| && iv[k].0 == lo
    requires forall x :: lo <= x < hi ==> In(iv, x)
    ensures var rest := Remove(iv, k);
            && Proper(rest) && Disjoint(rest) && Within(rest, iv[k].1, hi)
            && forall x :: iv[k].1 <= x < hi ==> In(rest, x)
  {
    var rest := Remove(iv, k);
    assert forall j | 0 <= j < |rest| :: rest[j] == iv[if j < k then j else j + 1];
    forall j | 0 <= j < |iv| && j != k
      ensures iv[k].1 <= iv[j].0
    {
      assert Apart(iv[if j < k then j else k], iv[if j < k then k else j]);
    }
    forall x | iv[k].1 <= x < hi
      ensures In(rest, x)
    {
      assert In(iv, x);
      var j :| 0 <= j < |iv| && iv[j].0 <= x < iv[j].1;
      assert rest[if j < k then j else j - 1] == iv[j];
    }
  }
}

module Skips {
  import opened Arithmetic
  import opened Intervals
  import opened Slices

  /** A mode whose skipped slots the tool counts over its whole space: `space` indices, k
      slots each, `whole` of them skipped.  A hard-case mode skips all k slots of an index
      or none, so its skips come in k's. */
  datatype Mode = Mode(space: nat, k: nat, whole: nat, hard: bool) {
    function G(): nat { if hard then k else 1 }

    predicate Sound() {
      space > 0 && k > 0 && whole % G() == 0 && whole <= k * space
    }
  }

  /** The skips before index x. */
  function Before(m: Mode, x: int): int
    requires m.Sound()
  {
    m.G() * ((x * (m.whole / m.G())) / m.space)
  }

  /** idx_skipped: the slots slice [lo, hi) skips. */
  function Skipped(m: Mode, lo: int, hi: int): int
    requires m.Sound()
  {
    m.G() * ((hi * (m.whole / m.G())) / m.space - (lo * (m.whole / m.G())) / m.space)
  }

  function CasesOf(m: Mode, lo: int, hi: int): int
    requires m.Sound()
  {
    (hi - lo) * m.k - Skipped(m, lo, hi)
  }

  lemma SkippedIs(m: Mode, lo: int, hi: int)
    requires m.Sound()
    ensures Skipped(m, lo, hi) == Before(m, hi) - Before(m, lo)
  {
    Distribute((hi * (m.whole / m.G())) / m.space, (lo * (m.whole / m.G())) / m.space, m.G());
  }

  lemma BeforeEnds(m: Mode)
    requires m.Sound()
    ensures Before(m, 0) == 0 && Before(m, m.space) == m.whole
  {
    var per := m.whole / m.G();
    Exact(0, m.space);
    Exact(per, m.space);
    Distribute(m.space, 0, per);
    Floor(m.whole, m.G(), 0);
    assert m.whole == per * m.G() + m.whole % m.G();
    Distribute(per, 0, m.G());
  }

  /** A slice skips between none and all of its slots. */
  lemma SkippedBounds(m: Mode, lo: int, hi: int)
    requires m.Sound() && 0 <= lo <= hi <= m.space
    ensures 0 <= Skipped(m, lo, hi) <= (hi - lo) * m.k
    ensures CasesOf(m, lo, hi) + Skipped(m, lo, hi) == (hi - lo) * m.k && CasesOf(m, lo, hi) >= 0
  {
    if m.hard { HardBounds(m, lo, hi); } else { PlainBounds(m, lo, hi); }
  }

  lemma HardBounds(m: Mode, lo: int, hi: int)
    requires m.Sound() && 0 <= lo <= hi <= m.space && m.hard
    ensures 0 <= Skipped(m, lo, hi) <= (hi - lo) * m.k
  {
    var per, e := m.whole / m.k, hi - lo;
    Distribute(hi, lo, per);
    Distribute(m.space, 0, m.k);
    Floor(m.whole, m.k, m.space + 1);
    Distribute(m.space, 1, m.k);
    assert per <= m.space;
    Floor(m.whole, m.k, 0);
    Mono(per, m.space, e);
    Mono(0, e, per);
    FloorStep(lo * per, hi * per, m.space, e);
    var d := (hi * per) / m.space - (lo * per) / m.space;
    Mono(0, d, m.k);
    Mono(d, e, m.k);
    Distribute(e, 0, m.k);
  }

  lemma PlainBounds(m: Mode, lo: int, hi: int)
    requires m.Sound() && 0 <= lo <= hi <= m.space && !m.hard
    ensures 0 <= Skipped(m, lo, hi) <= (hi - lo) * m.k
  {
    var per, e := m.whole, hi - lo;
    assert m.whole / 1 == per;
    Distribute(hi, lo, per);
    Mono(per, m.k * m.space, e);
    Mono(0, e, per);
    assert e * (m.k * m.space) == (e * m.k) * m.space;
    FloorStep(lo * per, hi * per, m.space, e * m.k);
  }

  /** In a hard mode an index is skipped whole or not at all: every slice's skips and cases
      come in k's. */
  lemma HardInKs(m: Mode, lo: int, hi: int)
    requires m.Sound() && m.hard
    ensures Skipped(m, lo, hi) % m.k == 0 && CasesOf(m, lo, hi) % m.k == 0
  {
    var d := (hi * (m.whole / m.k)) / m.space - (lo * (m.whole / m.k)) / m.space;
    assert Skipped(m, lo, hi) == m.k * d;
    Distribute(hi - lo, d, m.k);
    Exact(d, m.k);
    Exact(hi - lo - d, m.k);
  }

  /** How the skips are spread: before any index they are the most whole steps - of k in a
      hard mode, of one otherwise - within that index's share of them all. */
  lemma BeforeIsShare(m: Mode, x: int)
    requires m.Sound()
    ensures var step := if m.hard then m.k else 1;
            && Before(m, x) % step == 0
            && Before(m, x) * m.space <= x * m.whole < (Before(m, x) + step) * m.space
  {
    var step, per := if m.hard then m.k else 1, m.whole / m.G();
    var q := (x * per) / m.space;
    Floor(m.whole, step, 0);
    Floor(x * per, m.space, 0);
    Exact(q, step);
    Distribute(step, 0, q);
    Scaled(x, per, q, m.space, step);
    assert m.whole == per * step && Before(m, x) == q * step;
  }

  /** A share and its floor, both scaled by the step. */
  lemma Scaled(x: int, per: int, q: int, space: int, step: int)
    requires step > 0 && q * space <= x * per < q * space + space
    ensures (q * step) * space <= x * (per * step) < (q * step + step) * space
  {
    Mono(q * space, x * per, step);
    Mono(x * per + 1, q * space + space, step);
    Distribute(x * per, -1, step);
    Distribute(q * space, -space, step);
    Thrice(q, step, space);
    Thrice(x, per, step);
    Distribute(q * step, -step, space);
    Distribute(step, 0, space);
  }

  lemma Thrice(a: int, b: int, c: int)
    ensures (a * b) * c == a * (b * c) == (a * c) * b
  {
  }

  function SkipsBefore(m: Mode): int -> int
    requires m.Sound()
  {
    x => Before(m, x)
  }

  function CasesBefore(m: Mode): int -> int
    requires m.Sound()
  {
    x => x * m.k - Before(m, x)
  }

  /** A slice's counts are differences of these. */
  lemma CountsAre(m: Mode, lo: int, hi: int)
    requires m.Sound()
    ensures Skipped(m, lo, hi) == SkipsBefore(m)(hi) - SkipsBefore(m)(lo)
    ensures CasesOf(m, lo, hi) == CasesBefore(m)(hi) - CasesBefore(m)(lo)
  {
    SkippedIs(m, lo, hi);
    Distribute(hi, lo, m.k);
  }

  /** However the space is cut into slices, their skips and cases sum exactly to the
      mode's own whole-space figures. */
  lemma WholeSpace(m: Mode, iv: seq<Iv>)
    requires m.Sound() && Proper(iv) && Disjoint(iv) && Within(iv, 0, m.space)
    requires forall x :: 0 <= x < m.space ==> In(iv, x)
    ensures Sum(SkipsBefore(m), iv) == m.whole
    ensures Sum(CasesBefore(m), iv) == m.k * m.space - m.whole
  {
    Telescope(SkipsBefore(m), iv, 0, m.space);
    Telescope(CasesBefore(m), iv, 0, m.space);
    BeforeEnds(m);
    Distribute(m.space, 0, m.k);
  }

  // ---- the table ------------------------------------------------------------

  /** The stand-in's IDX, cvtto64-class's five attributes apart. */
  const TABLE: seq<Mode> := [
    Mode(21235788, 4, 20596560, true),    // div32-hard
    Mode(289685696, 4, 346253600, true),  // div64-hard, div128-f64hard, div256-f64hard
    Mode(4456448, 1, 2710696, true),      // sqrt64-hard, sqrt128-f64hard, sqrt256-f64hard
    Mode(136192, 1, 0, false),            // conv64to32-class
    Mode(35840, 4, 0, false),             // rint64-class
    Mode(50923, 1, 0, false),             // cvtfrom64-class, cvtfrom128-class, cvtfrom256-class
    Mode(72648, 4, 0, false),             // scaleb64-class
    Mode(289931696, 4, 346256596, true),  // div128-hard
    Mode(293864352, 4, 346250232, true),  // div256-hard
    Mode(4456448, 1, 2711437, true),      // sqrt128-hard
    Mode(4456448, 1, 2710648, true),      // sqrt256-hard
    Mode(137344, 2, 0, false),            // rint128-class
    Mode(537600, 1, 0, false),            // rint256-class
    Mode(317448, 2, 0, false),            // scaleb128-class
    Mode(1370952, 1, 0, false),           // scaleb256-class
    Mode(1979424, 1, 0, false),           // conv128to64-class
    Mode(63208320, 1, 0, false),          // conv256to128-class
    Mode(91872, 4, 0, false),             // cvtto128-class
    Mode(205440, 4, 0, false)             // cvtto256-class
  ]

  /** cvtto64-class under rne, rtz, rdn, rup and rmm. */
  const CVTTO64: seq<Mode> := [
    Mode(40768, 4, 72067, false), Mode(40768, 4, 71588, false), Mode(40768, 4, 77931, false),
    Mode(40768, 4, 71594, false), Mode(40768, 4, 72086, false)
  ]

  /** Every mode the stand-in runs is one the sums come out for. */
  lemma TableIsSound()
    ensures forall i | 0 <= i < |TABLE| :: TABLE[i].Sound()
    ensures forall i | 0 <= i < |CVTTO64| :: CVTTO64[i].Sound()
  {
  }
}
