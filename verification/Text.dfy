/** Python's str.split and str.join on one separator. */
module Text {

  function Split(sep: char, s: string): (ps: seq<string>)
    ensures ps != []
  {
    if s == [] then [[]]
    else if s[0] == sep then [[]] + Split(sep, s[1..])
    else
      var rest := Split(sep, s[1..]);
      [[s[0]] + rest[0]] + rest[1..]
  }

  function Join(sep: char, ps: seq<string>): string {
    if ps == [] then []
    else if |ps| == 1 then ps[0]
    else ps[0] + [sep] + Join(sep, ps[1..])
  }

  ghost predicate Free(sep: char, ps: seq<string>) {
    forall i :: 0 <= i < |ps| ==> sep !in ps[i]
  }

  lemma {:induction false} SplitFree(sep: char, s: string)
    ensures Free(sep, Split(sep, s))
  {
    if s != [] { SplitFree(sep, s[1..]); }
  }

  /** Prefixing the first part prefixes the whole. */
  lemma JoinPrefix(sep: char, c: char, ps: seq<string>)
    requires ps != []
    ensures Join(sep, [[c] + ps[0]] + ps[1..]) == [c] + Join(sep, ps)
  {
    var qs := [[c] + ps[0]] + ps[1..];
    assert qs[1..] == ps[1..];
    if |ps| > 1 {
      assert Join(sep, qs) == ([c] + ps[0]) + [sep] + Join(sep, ps[1..]);
    }
  }

  lemma {:induction false} JoinSplit(sep: char, s: string)
    ensures Join(sep, Split(sep, s)) == s
  {
    if s != [] {
      JoinSplit(sep, s[1..]);
      var rest := Split(sep, s[1..]);
      if s[0] == sep {
        assert ([[]] + rest)[1..] == rest;
        assert [] + [sep] + s[1..] == s;
      } else {
        JoinPrefix(sep, s[0], rest);
      }
    }
  }

  lemma {:induction false} SplitFront(sep: char, p: string, s: string)
    requires sep !in p
    ensures Split(sep, p + [sep] + s) == [p] + Split(sep, s)
  {
    if p == [] {
      assert (p + [sep] + s)[1..] == s && (p + [sep] + s)[0] == sep;
    } else {
      assert (p + [sep] + s)[1..] == p[1..] + [sep] + s;
      SplitFront(sep, p[1..], s);
      assert [p[0]] + p[1..] == p;
    }
  }

  lemma {:induction false} SplitOne(sep: char, p: string)
    requires sep !in p
    ensures Split(sep, p) == [p]
  {
    if p != [] {
      SplitOne(sep, p[1..]);
      assert [p[0]] + p[1..] == p;
    }
  }

  lemma {:induction false} SplitJoin(sep: char, ps: seq<string>)
    requires ps != [] && Free(sep, ps)
    ensures Split(sep, Join(sep, ps)) == ps
  {
    if |ps| == 1 {
      SplitOne(sep, ps[0]);
    } else {
      SplitFront(sep, ps[0], Join(sep, ps[1..]));
      SplitJoin(sep, ps[1..]);
      assert [ps[0]] + ps[1..] == ps;
    }
  }

  predicate StartsWith(s: string, p: string) {
    |p| <= |s| && s[..|p|] == p
  }

  predicate Ascii(s: string) {
    forall i | 0 <= i < |s| :: s[i] < 128 as char
  }
}
