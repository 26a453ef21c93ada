/** Decimals in their one spelling, as str() writes and the manifest reads them. */
module Decimal {

  const MAX: nat := 0x7fff_ffff_ffff_ffff

  predicate Digit(c: char) { '0' <= c <= '9' }

  predicate Digits(s: string) {
    forall i | 0 <= i < |s| :: Digit(s[i])
  }

  /** The decimal spelling of some natural: no leading zero, no sign. */
  predicate IsNat(s: string) {
    s == "0" || (s != "" && '1' <= s[0] <= '9' && Digits(s))
  }

  /** The manifest's decimal: of at most 19 digits. */
  predicate IsDec(s: string) { IsNat(s) && |s| <= 19 }

  function Of(c: char): nat {
    if Digit(c) then c as int - '0' as int else 0
  }

  function Value(s: string): nat {
    if s == "" then 0 else 10 * Value(s[..|s| - 1]) + Of(s[|s| - 1])
  }

  function Char(d: nat): (c: char)
    requires d < 10
    ensures Digit(c) && Of(c) == d && (d > 0 ==> '1' <= c)
  {
    '0' + d as char
  }

  /** str(n) */
  function Str(n: nat): (s: string)
    ensures s != "" && Digits(s)
  {
    if n < 10 then [Char(n)] else Str(n / 10) + [Char(n % 10)]
  }

  lemma {:induction false} StrValue(n: nat)
    ensures IsNat(Str(n)) && Value(Str(n)) == n
    ensures n > 0 ==> '1' <= Str(n)[0]
  {
    if n < 10 {
      assert Str(n)[..0] == "";
      assert n == 0 ==> Str(n) == "0";
    } else {
      StrValue(n / 10);
      assert Str(n)[..|Str(n)| - 1] == Str(n / 10);
      assert Str(n)[0] == Str(n / 10)[0];
    }
  }

  lemma {:induction false} ValueStr(s: string)
    requires IsNat(s)
    ensures Str(Value(s)) == s && (s != "0" ==> Value(s) > 0)
  {
    var n := |s| - 1;
    if n == 0 {
      assert s[..0] == "" && s == [s[0]];
      assert Char(Of(s[0])) == s[0];
    } else {
      ValueStr(s[..n]);
      assert s[..n] != "0";
      var v := Value(s[..n]);
      assert (10 * v + Of(s[n])) / 10 == v && (10 * v + Of(s[n])) % 10 == Of(s[n]);
      assert Char(Of(s[n])) == s[n];
      assert s == s[..n] + [s[n]];
    }
  }

  function Pow10(k: nat): nat { if k == 0 then 1 else 10 * Pow10(k - 1) }

  lemma {:induction false} StrShort(n: nat, k: nat)
    requires k > 0 && n < Pow10(k)
    ensures |Str(n)| <= k
  {
    if n >= 10 {
      assert Pow10(k) == 10 * Pow10(k - 1);
      StrShort(n / 10, k - 1);
    }
  }

  /** Every number up to the bound has a spelling the manifest reads, and one alone. */
  lemma StrIsDec(n: nat)
    requires n <= MAX
    ensures IsDec(Str(n)) && Value(Str(n)) == n
  {
    StrValue(n);
    TenToThe19();
    StrShort(n, 19);
  }

  lemma TenToThe19()
    ensures Pow10(19) == 10000000000000000000
  {
    assert Pow10(4) == 10000;
    assert Pow10(8) == 100000000;
    assert Pow10(12) == 1000000000000;
    assert Pow10(16) == 10000000000000000;
  }
}

/** Python's order on strings of code points, and sorting by it. */
module Order {

  predicate Less(a: string, b: string) {
    b != "" && (a == "" || a[0] < b[0] || (a[0] == b[0] && Less(a[1..], b[1..])))
  }

  lemma {:induction false} LessIrreflexive(a: string)
    ensures !Less(a, a)
  {
    if a != "" { LessIrreflexive(a[1..]); }
  }

  lemma {:induction false} LessTransitive(a: string, b: string, c: string)
    requires Less(a, b) && Less(b, c)
    ensures Less(a, c)
  {
    if a != "" && a[0] == b[0] && b[0] == c[0] { LessTransitive(a[1..], b[1..], c[1..]); }
  }

  lemma {:induction false} LessTotal(a: string, b: string)
    ensures a == b || Less(a, b) || Less(b, a)
  {
    if a != "" && b != "" && a[0] == b[0] {
      LessTotal(a[1..], b[1..]);
      if a[1..] == b[1..] { assert a == [a[0]] + a[1..] && b == [b[0]] + b[1..]; }
    }
  }

  predicate Increasing(s: seq<string>) {
    forall i, j | 0 <= i < j < |s| :: Less(s[i], s[j])
  }

  /** One increasing list holds the elements of a set. */
  lemma {:induction false} IncreasingUnique(s: seq<string>, t: seq<string>)
    requires Increasing(s) && Increasing(t) && forall x :: x in s <==> x in t
    ensures s == t
  {
    assert t != [] ==> t[0] in s;
    if s != [] {
      assert s[0] in t;
      assert t[0] in s;
      if s[0] != t[0] {
        var i :| 0 <= i < |t| && t[i] == s[0];
        var j :| 0 <= j < |s| && s[j] == t[0];
        assert Less(t[0], t[i]) && Less(s[0], s[j]);
        LessTransitive(s[0], t[0], s[0]);
        LessIrreflexive(s[0]);
      } else {
        forall x
          ensures x in s[1..] <==> x in t[1..]
        {
          InTail(s, x);
          InTail(t, x);
        }
        IncreasingUnique(s[1..], t[1..]);
        assert s == [s[0]] + s[1..] && t == [t[0]] + t[1..];
      }
    }
  }

  lemma InTail(s: seq<string>, x: string)
    requires Increasing(s) && s != []
    ensures x in s[1..] <==> x in s && x != s[0]
  {
    if x in s[1..] {
      var i :| 0 <= i < |s[1..]| && s[1..][i] == x;
      assert s[i + 1] == x;
      LessIrreflexive(x);
    }
    if x in s && x != s[0] {
      var i :| 0 <= i < |s| && s[i] == x;
      assert s[1..][i - 1] == x;
    }
  }

  function Insert(x: string, s: seq<string>): (r: seq<string>)
    ensures multiset(r) == multiset(s) + multiset{x}
  {
    if s == [] || Less(x, s[0]) then
      [x] + s
    else
      assert s == [s[0]] + s[1..];
      [s[0]] + Insert(x, s[1..])
  }

  lemma {:induction false} InsertIncreasing(x: string, s: seq<string>)
    requires Increasing(s) && x !in s
    ensures Increasing(Insert(x, s))
    ensures forall y :: y in Insert(x, s) <==> y == x || y in s
  {
    var r := Insert(x, s);
    forall y
      ensures y in r <==> y == x || y in s
    {
      assert y in r <==> y in multiset(r);
      assert y in s <==> y in multiset(s);
    }
    if s != [] && !Less(x, s[0]) {
      LessTotal(x, s[0]);
      InsertIncreasing(x, s[1..]);
      forall j | 0 <= j < |r| - 1
        ensures Less(s[0], r[1..][j])
      {
        assert r[1..][j] in r[1..];
        if r[1..][j] != x { var i :| 0 <= i < |s[1..]| && s[1..][i] == r[1..][j]; assert s[i + 1] == r[1..][j]; }
      }
      assert r == [s[0]] + r[1..];
    } else if s != [] {
      forall i | 0 <= i < |s|
        ensures Less(x, s[i])
      {
        if i > 0 { LessTransitive(x, s[0], s[i]); }
      }
    }
  }

  /** sorted(keys): whatever order the set gives them in. */
  ghost function Sorted(keys: set<string>): (r: seq<string>)
    ensures Increasing(r) && forall x :: x in r <==> x in keys
    decreases |keys|
  {
    if keys == {} then []
    else
      var x :| x in keys;
      var rest := Sorted(keys - {x});
      InsertIncreasing(x, rest);
      Insert(x, rest)
  }

  method SortKeys(keys: set<string>) returns (r: seq<string>)
    ensures r == Sorted(keys)
  {
    r := [];
    var left := keys;
    while left != {}
      invariant left <= keys && Increasing(r) && forall x :: x in r <==> x in keys && x !in left
      decreases |left|
    {
      var x :| x in left;
      InsertIncreasing(x, r);
      r := Insert(x, r);
      left := left - {x};
    }
    IncreasingUnique(r, Sorted(keys));
  }
}
