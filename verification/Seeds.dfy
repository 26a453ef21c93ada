/** The random items' streams: a slice's seed, what identifies the stream it starts, the
    floors --earlier-runs leaves, and a chain of runs that never draws one stream twice. */
module Seeds {
  import opened Wrappers
  import opened Sweep

  /** The random items: each one's place in the seed table, and those whose operand stream
      depends on the tool's batch. */
  datatype Catalog = Catalog(index: map<string, nat>, layout: set<string>)

  ghost predicate ValidCatalog(cat: Catalog) {
    forall a, b :: a in cat.index && b in cat.index && a != b ==> cat.index[a] != cat.index[b]
  }

  /** What a random slice's record says of its draw, and whether it completed. */
  datatype Drawn = Drawn(item: string, n: nat, seed: nat, batch: nat, done: bool)

  /** What a stream is: the state the tool starts from, and for a layout-dependent op the
      batch too. */
  datatype Key = State(state: nat) | StateAt(state: nat, batch: nat)

  /** seed | 1 */
  function Odd(seed: nat): nat { if seed % 2 == 0 then seed + 1 else seed }

  function StreamKey(cat: Catalog, item: string, seed: nat, batch: nat): Key {
    if item in cat.layout then StateAt(Odd(seed), batch) else State(Odd(seed))
  }

  function KeyOf(cat: Catalog, r: Drawn): Key { StreamKey(cat, r.item, r.seed, r.batch) }

  /** Two seeds below the room n has are equal only for one item's one number, and the
      tools' `| 1` changes neither. */
  lemma SeedsApart(i: nat, n: nat, j: nat, m: nat)
    requires n < SEEDLIMIT && m < SEEDLIMIT
    ensures SeedFor(i, n) == SeedFor(j, m) ==> i == j && n == m
    ensures Odd(SeedFor(i, n)) == SeedFor(i, n)
  {
    assert 2 * SEEDLIMIT == 0x100_0000_0000;
    if i < j { assert (j - i) * 0x100_0000_0000 >= 0x100_0000_0000; }
    if j < i { assert (i - j) * 0x100_0000_0000 >= 0x100_0000_0000; }
  }

  /** ... and the bound is what keeps them so: one past it, an item's slice has the seed of
      the next item's first. */
  lemma BeyondTheRoom(i: nat)
    ensures SeedFor(i, SEEDLIMIT) == SeedFor(i + 1, 0)
  {
  }

  /** The streams of two slices are one only for one item, one number and, where the batch
      matters, one batch. */
  lemma KeysApart(cat: Catalog, a: string, n: nat, b: nat, c: string, m: nat, d: nat)
    requires ValidCatalog(cat) && a in cat.index && c in cat.index && n < SEEDLIMIT && m < SEEDLIMIT
    ensures StreamKey(cat, a, SeedFor(cat.index[a], n), b) == StreamKey(cat, c, SeedFor(cat.index[c], m), d)
       <==> a == c && n == m && (a in cat.layout ==> b == d)
  {
    hide SeedFor;
    SeedsApart(cat.index[a], n, cat.index[c], m);
    SeedsApart(cat.index[c], m, cat.index[a], n);
  }

  /** Of any recorded seeds: one stream if and only if they differ in their last bit alone,
      and - where the batch is part of the stream, of both items - the batches are one. */
  lemma KeysMeet(cat: Catalog, a: string, s: nat, b: nat, c: string, t: nat, d: nat)
    ensures StreamKey(cat, a, s, b) == StreamKey(cat, c, t, d)
       <==> s / 2 == t / 2 && (a in cat.layout <==> c in cat.layout) && (a in cat.layout ==> b == d)
  {
  }

  // ---- the floors -----------------------------------------------------------

  function Max(a: nat, b: nat): nat { if a < b then b else a }

  function Get(m: map<string, nat>, k: string): nat { if k in m then m[k] else 0 }

  /** A completed draw that a run at this batch must stay above (None: at any). */
  predicate Counts(cat: Catalog, r: Drawn, batch: Option<nat>) {
    r.done && (batch.None? || r.item !in cat.layout || r.batch == batch.value)
  }

  /** One more than the highest n drawn of the item in a file, or 0. */
  function FloorIn(cat: Catalog, file: seq<Drawn>, item: string, batch: Option<nat>): nat {
    if file == [] then 0
    else
      var r := file[|file| - 1];
      Max(FloorIn(cat, file[..|file| - 1], item, batch), if r.item == item && Counts(cat, r, batch) then r.n + 1 else 0)
  }

  function FloorOver(cat: Catalog, files: seq<seq<Drawn>>, item: string, batch: Option<nat>): nat {
    if files == [] then 0
    else Max(FloorOver(cat, files[..|files| - 1], item, batch), FloorIn(cat, files[|files| - 1], item, batch))
  }

  lemma {:induction false} FloorAbove(cat: Catalog, file: seq<Drawn>, item: string, batch: Option<nat>, i: nat)
    requires i < |file| && file[i].item == item && Counts(cat, file[i], batch)
    ensures file[i].n < FloorIn(cat, file, item, batch)
  {
    if i < |file| - 1 { FloorAbove(cat, file[..|file| - 1], item, batch, i); }
  }

  lemma {:induction false} FloorOverAbove(cat: Catalog, files: seq<seq<Drawn>>, item: string, batch: Option<nat>,
                                          k: nat)
    requires k < |files|
    ensures FloorIn(cat, files[k], item, batch) <= FloorOver(cat, files, item, batch)
  {
    if k < |files| - 1 { FloorOverAbove(cat, files[..|files| - 1], item, batch, k); }
  }

  /** What a floor is: above every number that counts, and 0 or one more than one of them. */
  lemma FloorIs(cat: Catalog, files: seq<seq<Drawn>>, item: string, batch: Option<nat>)
    ensures var floor := FloorOver(cat, files, item, batch);
            && (forall d, i :: 0 <= d < |files| && 0 <= i < |files[d]| && CountsFor(cat, files[d][i], item, batch) ==>
                  files[d][i].n < floor)
            && (floor == 0 || exists d, i :: 0 <= d < |files| && 0 <= i < |files[d]|
                                             && CountsFor(cat, files[d][i], item, batch) && files[d][i].n + 1 == floor)
  {
    hide Counts, CountsFor;
    forall d, i | 0 <= d < |files| && 0 <= i < |files[d]| && CountsFor(cat, files[d][i], item, batch)
      ensures files[d][i].n < FloorOver(cat, files, item, batch)
    {
      CountsAre(cat, files[d][i], item, batch);
      FloorAbove(cat, files[d], item, batch, i);
      FloorOverAbove(cat, files, item, batch, d);
    }
    FloorReached(cat, files, item, batch);
  }

  /** A completed draw of the item, of any batch where the batch does not matter. */
  predicate CountsFor(cat: Catalog, r: Drawn, item: string, batch: Option<nat>) {
    r.item == item && r.done && (batch == None || item !in cat.layout || batch == Some(r.batch))
  }

  lemma CountsAre(cat: Catalog, r: Drawn, item: string, batch: Option<nat>)
    ensures CountsFor(cat, r, item, batch) <==> r.item == item && Counts(cat, r, batch)
  {
  }

  lemma {:induction false} FloorInReached(cat: Catalog, file: seq<Drawn>, item: string, batch: Option<nat>)
    ensures var floor := FloorIn(cat, file, item, batch);
            floor == 0 || exists i :: 0 <= i < |file| && CountsFor(cat, file[i], item, batch) && file[i].n + 1 == floor
  {
    hide Counts, CountsFor;
    if file != [] {
      var before, r := file[..|file| - 1], file[|file| - 1];
      FloorInReached(cat, before, item, batch);
      CountsAre(cat, r, item, batch);
      var was := FloorIn(cat, before, item, batch);
      if was > 0 {
        var i :| 0 <= i < |before| && CountsFor(cat, before[i], item, batch) && before[i].n + 1 == was;
        assert file[i] == before[i];
      }
    }
  }

  lemma {:induction false} FloorReached(cat: Catalog, files: seq<seq<Drawn>>, item: string, batch: Option<nat>)
    ensures var floor := FloorOver(cat, files, item, batch);
            floor == 0 || exists d, i :: 0 <= d < |files| && 0 <= i < |files[d]|
                                         && CountsFor(cat, files[d][i], item, batch) && files[d][i].n + 1 == floor
  {
    hide CountsFor, FloorIn;
    if files != [] {
      var n := |files| - 1;
      FloorReached(cat, files[..n], item, batch);
      FloorInReached(cat, files[n], item, batch);
      var was, now := FloorOver(cat, files[..n], item, batch), FloorIn(cat, files[n], item, batch);
      if was > 0 {
        var d, i :| 0 <= d < n && 0 <= i < |files[..n][d]|
                    && CountsFor(cat, files[..n][d][i], item, batch) && files[..n][d][i].n + 1 == was;
        assert files[d][i] == files[..n][d][i];
      }
    }
  }

  // ---- seed_states and earlier_runs -----------------------------------------

  type States = map<Key, (string, nat)>

  /** The streams a file's slices started, whatever came of them; the later record wins. */
  function StatesIn(cat: Catalog, file: seq<Drawn>): States {
    if file == [] then map[]
    else StatesIn(cat, file[..|file| - 1])[KeyOf(cat, file[|file| - 1]) := (file[|file| - 1].item, file[|file| - 1].n)]
  }

  function StatesOver(cat: Catalog, files: seq<seq<Drawn>>): States {
    if files == [] then map[] else StatesOver(cat, files[..|files| - 1]) + StatesIn(cat, files[|files| - 1])
  }

  /** What the streams known of a file are: exactly those its draws started, completed or not,
      each under the item and number of its last record. */
  lemma {:induction false} StatesAre(cat: Catalog, file: seq<Drawn>, k: Key)
    ensures k in StatesIn(cat, file) <==> exists i :: 0 <= i < |file| && KeyOf(cat, file[i]) == k
    ensures forall i :: 0 <= i < |file| && KeyOf(cat, file[i]) == k
                        && (forall j :: i < j < |file| ==> KeyOf(cat, file[j]) != k) ==>
              k in StatesIn(cat, file) && StatesIn(cat, file)[k] == (file[i].item, file[i].n)
  {
    hide KeyOf;
    if file != [] {
      var before, r := file[..|file| - 1], file[|file| - 1];
      StatesAre(cat, before, k);
      assert forall i | 0 <= i < |before| :: file[i] == before[i];
      if KeyOf(cat, r) == k { assert KeyOf(cat, file[|file| - 1]) == k; }
      if i :| 0 <= i < |before| && KeyOf(cat, before[i]) == k { assert KeyOf(cat, file[i]) == k; }
    }
  }

  /** ... and of several, the later file's where two have one. */
  lemma StatesOverAre(cat: Catalog, files: seq<seq<Drawn>>, k: Key)
    ensures k in StatesOver(cat, files) <==>
              exists d, i :: 0 <= d < |files| && 0 <= i < |files[d]| && KeyOf(cat, files[d][i]) == k
    ensures forall d :: 0 <= d < |files| && k in StatesIn(cat, files[d])
                        && (forall e :: d < e < |files| ==> k !in StatesIn(cat, files[e])) ==>
              k in StatesOver(cat, files) && StatesOver(cat, files)[k] == StatesIn(cat, files[d])[k]
  {
    hide KeyOf, StatesIn, StatesOver;
    StatesOverKeys(cat, files, k);
    forall d | 0 <= d < |files| && k in StatesIn(cat, files[d])
               && forall e :: d < e < |files| ==> k !in StatesIn(cat, files[e])
      ensures k in StatesOver(cat, files) && StatesOver(cat, files)[k] == StatesIn(cat, files[d])[k]
    {
      LastIsKnown(cat, files, k, d);
    }
  }

  lemma {:induction false} StatesOverKeys(cat: Catalog, files: seq<seq<Drawn>>, k: Key)
    ensures k in StatesOver(cat, files) <==>
              exists d, i :: 0 <= d < |files| && 0 <= i < |files[d]| && KeyOf(cat, files[d][i]) == k
  {
    hide KeyOf, StatesIn;
    if files != [] {
      var n := |files| - 1;
      StatesOverKeys(cat, files[..n], k);
      StatesAre(cat, files[n], k);
      assert files == files[..n] + [files[n]];
      KeyAmong(cat, files[..n], files[n], k);
    }
  }

  lemma {:induction false} LastIsKnown(cat: Catalog, files: seq<seq<Drawn>>, k: Key, d: nat)
    requires d < |files| && k in StatesIn(cat, files[d])
    requires forall e :: d < e < |files| ==> k !in StatesIn(cat, files[e])
    ensures k in StatesOver(cat, files) && StatesOver(cat, files)[k] == StatesIn(cat, files[d])[k]
  {
    hide StatesIn;
    var n := |files| - 1;
    if d < n { LastIsKnown(cat, files[..n], k, d); }
  }

  lemma KeyAmong(cat: Catalog, front: seq<seq<Drawn>>, file: seq<Drawn>, k: Key)
    ensures var all := front + [file];
            (exists d, i :: 0 <= d < |all| && 0 <= i < |all[d]| && KeyOf(cat, all[d][i]) == k) <==>
              (exists d, i :: 0 <= d < |front| && 0 <= i < |front[d]| && KeyOf(cat, front[d][i]) == k)
              || exists i :: 0 <= i < |file| && KeyOf(cat, file[i]) == k
  {
    hide KeyOf;
    var all, n := front + [file], |front|;
    if i :| 0 <= i < |file| && KeyOf(cat, file[i]) == k { assert KeyOf(cat, all[n][i]) == k; }
    if d, i :| 0 <= d < n && 0 <= i < |front[d]| && KeyOf(cat, front[d][i]) == k {
      assert KeyOf(cat, all[d][i]) == k;
    }
    if d, i :| 0 <= d < |all| && 0 <= i < |all[d]| && KeyOf(cat, all[d][i]) == k {
      if d < n { assert KeyOf(cat, front[d][i]) == k; } else { assert KeyOf(cat, file[i]) == k; }
    }
  }

  method SeedStates(cat: Catalog, file: seq<Drawn>) returns (out: States)
    ensures out == StatesIn(cat, file)
  {
    out := map[];
    for i := 0 to |file|
      invariant out == StatesIn(cat, file[..i])
    {
      assert file[..i + 1][..i] == file[..i];
      out := out[KeyOf(cat, file[i]) := (file[i].item, file[i].n)];
    }
    assert file[..|file|] == file;
  }

  /** sweep_coverage's: the highest n completed of each item in one file. */
  method SweepSeeds(cat: Catalog, file: seq<Drawn>) returns (seeds: map<string, nat>)
    ensures forall item :: (if item in seeds then seeds[item] + 1 else 0) == FloorIn(cat, file, item, None)
  {
    seeds := map[];
    for i := 0 to |file|
      invariant forall item :: (if item in seeds then seeds[item] + 1 else 0) == FloorIn(cat, file[..i], item, None)
    {
      var r := file[i];
      assert file[..i + 1][..i] == file[..i];
      if r.done && (r.item !in seeds || seeds[r.item] < r.n) { seeds := seeds[r.item := r.n]; }
    }
    assert file[..|file|] == file;
  }

  /** Of a layout-dependent item, the highest at the batch asked for alone. */
  method Highest(cat: Catalog, file: seq<Drawn>, batch: Option<nat>) returns (seeds: map<string, nat>)
    ensures forall item :: (if item in seeds then seeds[item] + 1 else 0) == FloorIn(cat, file, item, batch)
  {
    seeds := SweepSeeds(cat, file);
    if batch.None? { return; }
    ghost var all := seeds;
    seeds := map item | item in seeds && item !in cat.layout :: seeds[item];
    for i := 0 to |file|
      invariant forall item :: item !in cat.layout ==>
                  (item in seeds <==> item in all) && (item in seeds ==> seeds[item] == all[item])
      invariant forall item :: item in cat.layout ==>
                  (if item in seeds then seeds[item] + 1 else 0) == FloorIn(cat, file[..i], item, batch)
    {
      var r := file[i];
      assert file[..i + 1][..i] == file[..i];
      if r.item in cat.layout && r.done && r.batch == batch.value && (r.item !in seeds || seeds[r.item] < r.n) {
        seeds := seeds[r.item := r.n];
      }
    }
    assert file[..|file|] == file;
    forall item | item !in cat.layout
      ensures FloorIn(cat, file, item, batch) == FloorIn(cat, file, item, None)
    {
      AnyBatch(cat, file, item, batch);
    }
  }

  lemma {:induction false} AnyBatch(cat: Catalog, file: seq<Drawn>, item: string, batch: Option<nat>)
    requires item !in cat.layout
    ensures FloorIn(cat, file, item, batch) == FloorIn(cat, file, item, None)
  {
    if file != [] { AnyBatch(cat, file[..|file| - 1], item, batch); }
  }

  /** earlier_runs: the first n each item may use, and the streams those runs started. */
  method EarlierRuns(cat: Catalog, files: seq<seq<Drawn>>, batch: Option<nat>) returns (floor: map<string, nat>,
                     states: States)
    ensures forall item :: Get(floor, item) == FloorOver(cat, files, item, batch)
    ensures states == StatesOver(cat, files)
  {
    floor, states := map[], map[];
    for k := 0 to |files|
      invariant forall item :: Get(floor, item) == FloorOver(cat, files[..k], item, batch)
      invariant states == StatesOver(cat, files[..k])
    {
      var seeds := Highest(cat, files[k], batch);
      assert files[..k + 1][..k] == files[..k];
      floor := map item | item in floor.Keys + seeds.Keys ::
                 Max(Get(floor, item), if item in seeds then seeds[item] + 1 else 0);
      var more := SeedStates(cat, files[k]);
      states := states + more;
    }
    assert files[..|files|] == files;
  }
}

/** A chain of runs: each new or resumed, one at a time, each naming every other directory
    there is with --earlier-runs. */
module Streams {
  import opened Wrappers
  import opened Slices
  import opened Sweep
  import opened Seeds

  /** A random slice in flight, and whether its record is written and it completed. */
  datatype Draw = Draw(item: string, n: nat, recorded: Option<bool>)

  datatype Chain = Chain(files: seq<seq<Drawn>>, own: nat, batch: nat, seedN: map<string, nat>, states: States,
                         flight: seq<Draw>)

  datatype Event =
    | Start(own: Option<nat>, named: seq<nat>, batch: nat)
    | Plan(item: string)
    | Finish(k: nat, done: bool)
    | Settle(k: nat)
    | Abandon(k: nat)

  function Select(files: seq<seq<Drawn>>, named: seq<nat>): seq<seq<Drawn>>
    requires forall i | 0 <= i < |named| :: named[i] < |files|
  {
    seq(|named|, i requires 0 <= i < |named| => files[named[i]])
  }

  /** Every directory but the run's own is named. */
  predicate NamesAll(files: seq<seq<Drawn>>, own: nat, named: seq<nat>) {
    && (forall i | 0 <= i < |named| :: named[i] < |files|)
    && forall d | 0 <= d < |files| :: d == own || d in named
  }

  /** load_state and load_earlier: the next n of each item and the streams known. */
  function Load(cat: Catalog, files: seq<seq<Drawn>>, own: nat, named: seq<nat>, batch: nat): Chain
    requires own < |files| && forall i | 0 <= i < |named| :: named[i] < |files|
  {
    var before := Select(files, named);
    Chain(files, own, batch,
          map item | item in cat.index ::
            Max(FloorIn(cat, files[own], item, None), FloorOver(cat, before, item, Some(batch))),
          StatesOver(cat, before) + StatesIn(cat, files[own]), [])
  }

  function Flying(w: Chain): set<string> {
    set i | 0 <= i < |w.flight| :: w.flight[i].item
  }

  /** plan_wave's guard: another (item, n) already started from this stream. */
  predicate GuardFires(cat: Catalog, w: Chain, item: string)
    requires item in cat.index
  {
    var n := Get(w.seedN, item);
    var k := StreamKey(cat, item, SeedFor(cat.index[item], n), w.batch);
    k in w.states && w.states[k] != (item, n)
  }

  function Next(cat: Catalog, w: Chain, e: Event): Chain {
    match e
    case Start(own, named, batch) =>
      var files := if own.None? then w.files + [[]] else w.files;
      var me := if own.None? then |w.files| else own.value;
      if me < |files| && NamesAll(files, me, named) then Load(cat, files, me, named, batch) else w
    case Plan(item) =>
      if item in cat.index && item !in Flying(w) && Get(w.seedN, item) < SEEDLIMIT && !GuardFires(cat, w, item)
      then w.(flight := w.flight + [Draw(item, Get(w.seedN, item), None)])
      else w
    case Finish(k, done) =>
      if k < |w.flight| && w.flight[k].recorded.None? && w.own < |w.files| && w.flight[k].item in cat.index then
        var d := w.flight[k];
        var r := RecordOf(cat, w, d, done);
        w.(files := w.files[w.own := w.files[w.own] + [r]],
           flight := w.flight[k := d.(recorded := Some(done))])
      else w
    case Settle(k) =>
      if k < |w.flight| && w.flight[k].recorded.Some? && w.flight[k].item in cat.index then
        var d := w.flight[k];
        w.(states := w.states[StreamKey(cat, d.item, SeedFor(cat.index[d.item], d.n), w.batch) := (d.item, d.n)],
           seedN := if d.recorded == Some(true) then w.seedN[d.item := d.n + 1] else w.seedN,
           flight := Remove(w.flight, k))
      else w
    case Abandon(k) =>
      if k < |w.flight| && w.flight[k].recorded.None? then w.(flight := Remove(w.flight, k)) else w
  }

  /** The first run, in a directory of its own. */
  function First(batch: nat): Chain { Chain([[]], 0, batch, map[], map[], []) }

  function RunFrom(cat: Catalog, w: Chain, es: seq<Event>): Chain {
    if es == [] then w else Next(cat, RunFrom(cat, w, es[..|es| - 1]), es[|es| - 1])
  }

  function Run(cat: Catalog, batch: nat, es: seq<Event>): Chain { RunFrom(cat, First(batch), es) }

  // ---- what every chain keeps -----------------------------------------------

  predicate Good(cat: Catalog, r: Drawn) {
    r.item in cat.index && r.n < SEEDLIMIT && r.seed == SeedFor(cat.index[r.item], r.n)
  }

  predicate AllGood(cat: Catalog, files: seq<seq<Drawn>>) {
    forall d, i | 0 <= d < |files| && 0 <= i < |files[d]| :: Good(cat, files[d][i])
  }

  /** No two completed slices, of one run or of two, started one stream. */
  predicate NoRepeat(cat: Catalog, files: seq<seq<Drawn>>) {
    forall d, i, e, j | 0 <= d < |files| && 0 <= i < |files[d]| && 0 <= e < |files| && 0 <= j < |files[e]|
                        && (d != e || i != j) ::
      files[d][i].done && files[e][j].done ==> KeyOf(cat, files[d][i]) != KeyOf(cat, files[e][j])
  }

  /** A known stream is some item's at its number. */
  ghost predicate StateIs(cat: Catalog, k: Key, who: (string, nat)) {
    who.0 in cat.index && who.1 < SEEDLIMIT
    && exists b: nat :: k == StreamKey(cat, who.0, SeedFor(cat.index[who.0], who.1), b)
  }

  ghost predicate AllStates(cat: Catalog, states: States) {
    forall k | k in states :: StateIs(cat, k, states[k])
  }

  /** The item has a completed record not yet accounted. */
  predicate Waiting(w: Chain, item: string) {
    exists i | 0 <= i < |w.flight| :: w.flight[i].item == item && w.flight[i].recorded == Some(true)
  }

  /** Every completed draw that this run could repeat is behind it. */
  predicate Behind(cat: Catalog, w: Chain) {
    forall d, i | 0 <= d < |w.files| && 0 <= i < |w.files[d]| ::
      Counts(cat, w.files[d][i], Some(w.batch)) ==>
        w.files[d][i].n < Get(w.seedN, w.files[d][i].item) + if Waiting(w, w.files[d][i].item) then 1 else 0
  }

  predicate FlightOk(cat: Catalog, w: Chain) {
    && (forall i, j | 0 <= i < j < |w.flight| :: w.flight[i].item != w.flight[j].item)
    && forall i | 0 <= i < |w.flight| ::
         w.flight[i].item in cat.index && w.flight[i].n == Get(w.seedN, w.flight[i].item) && w.flight[i].n < SEEDLIMIT
  }

  /** What a draw in flight writes. */
  function RecordOf(cat: Catalog, w: Chain, d: Draw, done: bool): Drawn
    requires d.item in cat.index
  {
    Drawn(d.item, d.n, SeedFor(cat.index[d.item], d.n), w.batch, done)
  }

  /** A draw in flight that is recorded is so in the run's own file. */
  predicate Written(cat: Catalog, w: Chain) {
    forall i | 0 <= i < |w.flight| && w.flight[i].recorded.Some? ::
      && w.own < |w.files| && w.flight[i].item in cat.index
      && RecordOf(cat, w, w.flight[i], w.flight[i].recorded.value) in w.files[w.own]
  }

  ghost predicate Inv(cat: Catalog, w: Chain) {
    && w.own < |w.files| && AllGood(cat, w.files) && NoRepeat(cat, w.files) && AllStates(cat, w.states)
    && FlightOk(cat, w) && Behind(cat, w) && Written(cat, w)
  }

  // ---- each step keeps it ---------------------------------------------------

  lemma {:induction false} StatesOk(cat: Catalog, file: seq<Drawn>)
    requires forall i | 0 <= i < |file| :: Good(cat, file[i])
    ensures AllStates(cat, StatesIn(cat, file))
  {
    hide SeedFor;
    if file != [] {
      StatesOk(cat, file[..|file| - 1]);
      var r := file[|file| - 1];
      assert Good(cat, r) && KeyOf(cat, r) == StreamKey(cat, r.item, SeedFor(cat.index[r.item], r.n), r.batch);
    }
  }

  lemma {:induction false} StatesOverOk(cat: Catalog, files: seq<seq<Drawn>>)
    requires AllGood(cat, files)
    ensures AllStates(cat, StatesOver(cat, files))
  {
    hide Good, StateIs, StatesIn;
    if files != [] {
      var n := |files| - 1;
      assert AllGood(cat, files[..n]) by {
        forall d, i | 0 <= d < n && 0 <= i < |files[..n][d]|
          ensures Good(cat, files[..n][d][i])
        {
          assert files[..n][d] == files[d];
        }
      }
      StatesOverOk(cat, files[..n]);
      assert forall i | 0 <= i < |files[n]| :: Good(cat, files[n][i]);
      StatesOk(cat, files[n]);
    }
  }

  /** A run that starts with every completed draw it could repeat behind it, starts well. */
  lemma StartOk(cat: Catalog, files: seq<seq<Drawn>>, own: nat, named: seq<nat>, batch: nat)
    requires AllGood(cat, files) && NoRepeat(cat, files) && own < |files|
    requires forall i | 0 <= i < |named| :: named[i] < |files|
    ensures AllStates(cat, Load(cat, files, own, named, batch).states)
    ensures Behind(cat, Load(cat, files, own, named, batch)) ==> Inv(cat, Load(cat, files, own, named, batch))
  {
    hide Good, StateIs, KeyOf, StatesIn, StatesOver, FloorIn, FloorOver, SeedFor, Behind;
    var before := Select(files, named);
    assert forall k | 0 <= k < |before| :: before[k] == files[named[k]];
    StatesOverOk(cat, before);
    assert forall i | 0 <= i < |files[own]| :: Good(cat, files[own][i]);
    StatesOk(cat, files[own]);
  }

  lemma StartKeeps(cat: Catalog, files: seq<seq<Drawn>>, own: nat, named: seq<nat>, batch: nat)
    requires AllGood(cat, files) && NoRepeat(cat, files) && own < |files| && NamesAll(files, own, named)
    ensures Inv(cat, Load(cat, files, own, named, batch))
  {
    hide Good, StateIs, KeyOf, StatesIn, StatesOver, FloorIn, FloorOver, SeedFor, Inv;
    var before, w := Select(files, named), Load(cat, files, own, named, batch);
    StartOk(cat, files, own, named, batch);
    forall d, i | 0 <= d < |files| && 0 <= i < |files[d]| && Counts(cat, files[d][i], Some(batch))
      ensures files[d][i].n < Get(w.seedN, files[d][i].item)
    {
      var r := files[d][i];
      GoodItem(cat, files, d, i);
      if d == own {
        FloorAbove(cat, files[own], r.item, None, i);
      } else {
        assert d in named;
        var k :| 0 <= k < |named| && named[k] == d;
        assert before[k] == files[d];
        FloorAbove(cat, files[d], r.item, Some(batch), i);
        FloorOverAbove(cat, before, r.item, Some(batch), k);
      }
    }
  }

  lemma GoodItem(cat: Catalog, files: seq<seq<Drawn>>, d: nat, i: nat)
    requires AllGood(cat, files) && d < |files| && i < |files[d]|
    ensures files[d][i].item in cat.index && Good(cat, files[d][i])
  {
  }

  lemma NewFile(cat: Catalog, files: seq<seq<Drawn>>)
    requires AllGood(cat, files) && NoRepeat(cat, files)
    ensures AllGood(cat, files + [[]]) && NoRepeat(cat, files + [[]])
  {
    hide Good, KeyOf;
    var more := files + [[]];
    assert forall d | 0 <= d < |files| :: more[d] == files[d];
  }

  /** The guard has nothing to find. */
  lemma GuardIsQuiet(cat: Catalog, w: Chain, item: string)
    requires ValidCatalog(cat) && AllStates(cat, w.states) && item in cat.index && Get(w.seedN, item) < SEEDLIMIT
    ensures !GuardFires(cat, w, item)
  {
    hide SeedFor, StreamKey, ValidCatalog;
    var n := Get(w.seedN, item);
    var k := StreamKey(cat, item, SeedFor(cat.index[item], n), w.batch);
    if k in w.states {
      var who := w.states[k];
      assert StateIs(cat, k, who);
      var b: nat :| k == StreamKey(cat, who.0, SeedFor(cat.index[who.0], who.1), b);
      KeysApart(cat, item, n, w.batch, who.0, who.1, b);
    }
  }

  /** A draw about to be recorded is no completed one's again. */
  lemma FreshDraw(cat: Catalog, w: Chain, k: nat, d: nat, i: nat)
    requires ValidCatalog(cat) && Inv(cat, w) && k < |w.flight| && w.flight[k].recorded.None?
    requires d < |w.files| && i < |w.files[d]| && w.files[d][i].done
    ensures var f := w.flight[k];
            && f.item in cat.index
            && KeyOf(cat, w.files[d][i]) != StreamKey(cat, f.item, SeedFor(cat.index[f.item], f.n), w.batch)
  {
    hide SeedFor, NoRepeat, AllStates, StreamKey, ValidCatalog;
    var f, r := w.flight[k], w.files[d][i];
    GoodItem(cat, w.files, d, i);
    KeysApart(cat, r.item, r.n, r.batch, f.item, f.n, w.batch);
    assert r.item == f.item ==> !Waiting(w, f.item);
  }

  lemma FinishKeeps(cat: Catalog, w: Chain, k: nat, done: bool)
    requires ValidCatalog(cat) && Inv(cat, w)
    ensures Inv(cat, Next(cat, w, Finish(k, done)))
  {
    hide SeedFor, AllStates, KeyOf, ValidCatalog, Good;
    if k < |w.flight| && w.flight[k].recorded.None? && w.flight[k].item in cat.index {
      var w' := Next(cat, w, Finish(k, done));
      var f := w.flight[k];
      var r := Drawn(f.item, f.n, SeedFor(cat.index[f.item], f.n), w.batch, done);
      FilesGrow(cat, w, k, r, w'.files);
      assert forall i | 0 <= i < |w.flight| && i != k :: w'.flight[i] == w.flight[i];
      WaitingFinishes(w, w', k, done);
    }
  }

  lemma WaitingFinishes(w: Chain, w': Chain, k: nat, done: bool)
    requires k < |w.flight| && w.flight[k].recorded.None?
    requires w'.flight == w.flight[k := w.flight[k].(recorded := Some(done))]
    requires forall i, j | 0 <= i < j < |w.flight| :: w.flight[i].item != w.flight[j].item
    ensures forall item :: Waiting(w', item) <==> Waiting(w, item) || (done && item == w.flight[k].item)
  {
    assert forall i | 0 <= i < |w.flight| :: w'.flight[i].item == w.flight[i].item;
    assert w'.flight[k].recorded == Some(done);
    forall item
      ensures Waiting(w', item) <==> Waiting(w, item) || (done && item == w.flight[k].item)
    {
      if Waiting(w, item) {
        var i :| 0 <= i < |w.flight| && w.flight[i].item == item && w.flight[i].recorded == Some(true);
        assert w'.flight[i] == w.flight[i];
      }
    }
  }

  lemma FilesGrow(cat: Catalog, w: Chain, k: nat, r: Drawn, files: seq<seq<Drawn>>)
    requires ValidCatalog(cat) && Inv(cat, w) && k < |w.flight| && w.flight[k].recorded.None?
    requires w.flight[k].item in cat.index
    requires r == Drawn(w.flight[k].item, w.flight[k].n, SeedFor(cat.index[w.flight[k].item], w.flight[k].n), w.batch,
                        r.done)
    requires files == w.files[w.own := w.files[w.own] + [r]]
    ensures AllGood(cat, files) && NoRepeat(cat, files)
    ensures forall d, i | 0 <= d < |files| && 0 <= i < |files[d]| ::
              (d < |w.files| && i < |w.files[d]| && files[d][i] == w.files[d][i]) || files[d][i] == r
  {
    hide SeedFor, AllStates, ValidCatalog, Good, Behind;
    RecordIsGood(cat, w, k, r);
    var last := |w.files[w.own]|;
    forall d, i | 0 <= d < |w.files| && 0 <= i < |w.files[d]| && w.files[d][i].done
      ensures KeyOf(cat, w.files[d][i]) != KeyOf(cat, r)
    {
      FreshDraw(cat, w, k, d, i);
    }
    forall d, i | 0 <= d < |files| && 0 <= i < |files[d]|
      ensures if d == w.own && i == last then files[d][i] == r else i < |w.files[d]| && files[d][i] == w.files[d][i]
    {
    }
  }

  lemma RecordIsGood(cat: Catalog, w: Chain, k: nat, r: Drawn)
    requires FlightOk(cat, w) && k < |w.flight|
    requires r == Drawn(w.flight[k].item, w.flight[k].n, SeedFor(cat.index[w.flight[k].item], w.flight[k].n), w.batch,
                        r.done)
    ensures Good(cat, r)
  {
  }

  lemma WaitingRemoved(w: Chain, k: nat)
    requires k < |w.flight| && forall i, j | 0 <= i < j < |w.flight| :: w.flight[i].item != w.flight[j].item
    ensures var w' := w.(flight := Remove(w.flight, k));
            forall item :: Waiting(w', item) <==> Waiting(w, item) && item != w.flight[k].item
    ensures var w' := w.(flight := Remove(w.flight, k));
            forall i | 0 <= i < |w'.flight| :: w'.flight[i] == w.flight[if i < k then i else i + 1]
  {
    var fs := Remove(w.flight, k);
    assert forall i | 0 <= i < |fs| :: fs[i] == w.flight[if i < k then i else i + 1];
    forall item
      ensures Waiting(w.(flight := fs), item) <==> Waiting(w, item) && item != w.flight[k].item
    {
      if Waiting(w, item) && item != w.flight[k].item {
        var i :| 0 <= i < |w.flight| && w.flight[i].item == item && w.flight[i].recorded == Some(true);
        assert fs[if i < k then i else i - 1] == w.flight[i];
      }
      if Waiting(w.(flight := fs), item) {
        var i :| 0 <= i < |fs| && fs[i].item == item && fs[i].recorded == Some(true);
        assert w.flight[if i < k then i else i + 1] == fs[i];
      }
    }
  }

  lemma FlightShrinks(cat: Catalog, w: Chain, w': Chain, k: nat)
    requires FlightOk(cat, w) && k < |w.flight| && w'.flight == Remove(w.flight, k)
    requires forall item :: item != w.flight[k].item ==> Get(w'.seedN, item) == Get(w.seedN, item)
    ensures FlightOk(cat, w')
  {
    assert forall i | 0 <= i < |w'.flight| :: w'.flight[i] == w.flight[if i < k then i else i + 1];
  }

  lemma WrittenShrinks(cat: Catalog, w: Chain, w': Chain, k: nat)
    requires Written(cat, w) && k < |w.flight| && w'.flight == Remove(w.flight, k)
    requires w'.files == w.files && w'.own == w.own && w'.batch == w.batch
    ensures Written(cat, w')
  {
    assert forall i | 0 <= i < |w'.flight| :: w'.flight[i] == w.flight[if i < k then i else i + 1];
  }

  lemma BehindKept(cat: Catalog, w: Chain, w': Chain)
    requires Behind(cat, w) && w'.files == w.files && w'.batch == w.batch
    requires forall item ::
               Get(w.seedN, item) + (if Waiting(w, item) then 1 else 0)
               <= Get(w'.seedN, item) + if Waiting(w', item) then 1 else 0
    ensures Behind(cat, w')
  {
    hide Waiting, Counts;
  }

  lemma SettleKeeps(cat: Catalog, w: Chain, k: nat)
    requires Inv(cat, w)
    ensures Inv(cat, Next(cat, w, Settle(k)))
  {
    hide SeedFor, AllGood, NoRepeat, StreamKey, Counts, Remove;
    if k < |w.flight| && w.flight[k].recorded.Some? && w.flight[k].item in cat.index {
      var f, w' := w.flight[k], Next(cat, w, Settle(k));
      WaitingRemoved(w, k);
      assert StateIs(cat, StreamKey(cat, f.item, SeedFor(cat.index[f.item], f.n), w.batch), (f.item, f.n));
      assert f.recorded == Some(true) ==> Waiting(w, f.item);
      WaitingIs(w, k);
      assert forall item :: Waiting(w', item) <==> Waiting(w.(flight := Remove(w.flight, k)), item);
      FlightShrinks(cat, w, w', k);
      WrittenShrinks(cat, w, w', k);
      BehindKept(cat, w, w');
    }
  }

  lemma WaitingIs(w: Chain, k: nat)
    requires k < |w.flight| && forall i, j | 0 <= i < j < |w.flight| :: w.flight[i].item != w.flight[j].item
    ensures Waiting(w, w.flight[k].item) <==> w.flight[k].recorded == Some(true)
  {
  }

  /** A job lost, whatever is written of it. */
  function Dropped(w: Chain, k: nat): Chain
    requires k < |w.flight|
  {
    w.(flight := Remove(w.flight, k))
  }

  lemma DropKeeps(cat: Catalog, w: Chain, k: nat)
    requires Inv(cat, w) && k < |w.flight| && w.flight[k].recorded != Some(true)
    ensures Inv(cat, Dropped(w, k))
  {
    hide SeedFor, AllGood, NoRepeat, AllStates, Counts, Remove;
    WaitingRemoved(w, k);
    WaitingIs(w, k);
    FlightShrinks(cat, w, Dropped(w, k), k);
    WrittenShrinks(cat, w, Dropped(w, k), k);
    BehindKept(cat, w, Dropped(w, k));
  }

  lemma AbandonKeeps(cat: Catalog, w: Chain, k: nat)
    requires Inv(cat, w)
    ensures Inv(cat, Next(cat, w, Abandon(k)))
  {
    hide Inv;
    if k < |w.flight| && w.flight[k].recorded.None? { DropKeeps(cat, w, k); }
  }

  lemma PlanKeeps(cat: Catalog, w: Chain, item: string)
    requires Inv(cat, w)
    ensures Inv(cat, Next(cat, w, Plan(item)))
  {
    hide SeedFor, AllGood, NoRepeat, AllStates, Counts, GuardFires;
    if item in cat.index && item !in Flying(w) && Get(w.seedN, item) < SEEDLIMIT && !GuardFires(cat, w, item) {
      var w' := Next(cat, w, Plan(item));
      assert forall i | 0 <= i < |w.flight| :: w'.flight[i] == w.flight[i] && w.flight[i].item in Flying(w);
      forall name
        ensures Waiting(w', name) <==> Waiting(w, name)
      {
        if Waiting(w, name) {
          var i :| 0 <= i < |w.flight| && w.flight[i].item == name && w.flight[i].recorded == Some(true);
          assert w'.flight[i] == w.flight[i];
        }
      }
    }
  }

  lemma {:induction false} RunKeeps(cat: Catalog, w: Chain, es: seq<Event>)
    requires ValidCatalog(cat) && Inv(cat, w)
    ensures Inv(cat, RunFrom(cat, w, es))
  {
    hide Inv, Load, ValidCatalog, GuardFires, SeedFor, StreamKey;
    if es != [] {
      RunKeeps(cat, w, es[..|es| - 1]);
      NextKeeps(cat, RunFrom(cat, w, es[..|es| - 1]), es[|es| - 1]);
    }
  }

  lemma ChainKeeps(cat: Catalog, batch: nat, es: seq<Event>)
    requires ValidCatalog(cat)
    ensures Inv(cat, Run(cat, batch, es))
  {
    hide Inv, ValidCatalog;
    FirstOk(cat, batch);
    RunKeeps(cat, First(batch), es);
  }

  lemma FirstOk(cat: Catalog, batch: nat)
    ensures Inv(cat, First(batch))
  {
  }

  lemma NextKeeps(cat: Catalog, w: Chain, e: Event)
    requires ValidCatalog(cat) && Inv(cat, w)
    ensures Inv(cat, Next(cat, w, e))
  {
    hide Load, ValidCatalog, GuardFires, SeedFor, StreamKey, AllGood, NoRepeat, AllStates, FlightOk, Behind, NamesAll;
    match e
    case Start(own, named, batch) =>
      var files := if own.None? then w.files + [[]] else w.files;
      var me := if own.None? then |w.files| else own.value;
      NewFile(cat, w.files);
      if me < |files| && NamesAll(files, me, named) { StartKeeps(cat, files, me, named, batch); }
    case Plan(item) => PlanKeeps(cat, w, item);
    case Finish(k, done) => FinishKeeps(cat, w, k, done);
    case Settle(k) => SettleKeeps(cat, w, k);
    case Abandon(k) => AbandonKeeps(cat, w, k);
  }

  /** Over any chain of runs and resumes that name all the others, of any two completed
      random slices, in one directory or two, each started a stream of its own. */
  lemma NoStreamTwice(cat: Catalog, batch: nat, es: seq<Event>, d: nat, i: nat, e: nat, j: nat)
    requires ValidCatalog(cat)
    requires var files := Run(cat, batch, es).files;
             && d < |files| && i < |files[d]| && e < |files| && j < |files[e]| && (d != e || i != j)
             && files[d][i].done && files[e][j].done
    ensures KeyOf(cat, Run(cat, batch, es).files[d][i]) != KeyOf(cat, Run(cat, batch, es).files[e][j])
  {
    hide Run, KeyOf, AllGood, AllStates, FlightOk, Behind;
    ChainKeeps(cat, batch, es);
  }

  /** ... and in none of those chains does plan_wave's guard ever refuse a slice. */
  lemma GuardNeverFires(cat: Catalog, batch: nat, es: seq<Event>, item: string)
    requires ValidCatalog(cat) && item in cat.index && Get(Run(cat, batch, es).seedN, item) < SEEDLIMIT
    ensures !GuardFires(cat, Run(cat, batch, es), item)
  {
    hide Run, AllGood, NoRepeat, AllStates, FlightOk, Behind, Written;
    ChainKeeps(cat, batch, es);
    GuardIsQuiet(cat, Run(cat, batch, es), item);
  }

  // ---- where it fails -------------------------------------------------------

  /** A draw at the number of a completed one that counts, recorded, repeats its stream. */
  lemma Repeats(cat: Catalog, w: Chain, item: string, d: nat, i: nat)
    requires ValidCatalog(cat) && AllStates(cat, w.states) && item in cat.index && item !in Flying(w)
    requires w.own < |w.files|
    requires d < |w.files| && i < |w.files[d]| && Good(cat, w.files[d][i])
    requires w.files[d][i].item == item && w.files[d][i].n == Get(w.seedN, item)
    requires Counts(cat, w.files[d][i], Some(w.batch))
    ensures !NoRepeat(cat, RunFrom(cat, w, [Plan(item), Finish(|w.flight|, true)]).files)
  {
    hide SeedFor, ValidCatalog, AllStates, GuardFires;
    GuardIsQuiet(cat, w, item);
    var f, n := Draw(item, Get(w.seedN, item), None), |w.files[w.own]|;
    var r := RecordOf(cat, w, f, true);
    TwoSteps(cat, w, Plan(item), Finish(|w.flight|, true));
    var w1 := Next(cat, w, Plan(item));
    assert w1 == w.(flight := w.flight + [f]);
    var files := Next(cat, w1, Finish(|w.flight|, true)).files;
    assert files == w.files[w.own := w.files[w.own] + [r]];
    assert files[w.own][n] == r && files[d][i] == w.files[d][i];
    assert KeyOf(cat, r) == KeyOf(cat, files[d][i]);
  }

  lemma TwoSteps(cat: Catalog, w: Chain, a: Event, b: Event)
    ensures RunFrom(cat, w, [a, b]) == Next(cat, Next(cat, w, a), b)
  {
    hide Next;
    FromSnoc(cat, w, [], a);
    FromSnoc(cat, w, [a], b);
    assert [] + [a] == [a] && [a] + [b] == [a, b];
  }

  /** A completed draw's record whose job is lost leaves the number where it was: a run that
      goes on can draw the same stream again, and the guard lets it. */
  lemma LostDrawRepeats(cat: Catalog, w: Chain, k: nat)
    requires ValidCatalog(cat) && Inv(cat, w) && k < |w.flight| && w.flight[k].recorded == Some(true)
    ensures var again := [Plan(w.flight[k].item), Finish(|w.flight| - 1, true)];
            !NoRepeat(cat, RunFrom(cat, Dropped(w, k), again).files)
  {
    hide SeedFor, ValidCatalog, AllStates, NoRepeat, Behind, RunFrom;
    var f, w' := w.flight[k], Dropped(w, k);
    var r := RecordOf(cat, w, f, true);
    assert r in w.files[w.own];
    var i :| 0 <= i < |w.files[w.own]| && w.files[w.own][i] == r;
    WaitingRemoved(w, k);
    assert Good(cat, r);
    Repeats(cat, w', f.item, w.own, i);
  }

  /** In every chain, losing a job is safe if and only if it had not completed in the file:
      then no stream is started twice, whatever follows; and otherwise one can be. */
  lemma DropIsSafe(cat: Catalog, batch: nat, es: seq<Event>, k: nat)
    requires ValidCatalog(cat) && k < |Run(cat, batch, es).flight|
    ensures var w := Run(cat, batch, es);
            w.flight[k].recorded != Some(true) <==> NeverRepeats(cat, Dropped(w, k))
  {
    hide Run, Inv, NoRepeat, ValidCatalog, Dropped, RunFrom;
    ChainKeeps(cat, batch, es);
    var w := Run(cat, batch, es);
    if w.flight[k].recorded == Some(true) {
      LostDrawRepeats(cat, w, k);
    } else {
      DropKeeps(cat, w, k);
      SafeFrom(cat, Dropped(w, k));
    }
  }

  /** Whatever is done from here, no two completed slices start one stream. */
  ghost predicate NeverRepeats(cat: Catalog, w: Chain) {
    forall more :: NoRepeat(cat, RunFrom(cat, w, more).files)
  }

  lemma SafeFrom(cat: Catalog, w: Chain)
    requires ValidCatalog(cat) && Inv(cat, w)
    ensures NeverRepeats(cat, w)
  {
    hide RunFrom, NoRepeat, AllGood, AllStates, FlightOk, Behind, Written, ValidCatalog;
    forall more
      ensures NoRepeat(cat, RunFrom(cat, w, more).files)
    {
      RunKeeps(cat, w, more);
    }
  }

  /** The item drawn, completed and accounted, m times. */
  function Rounds(item: string, m: nat): seq<Event> {
    if m == 0 then [] else Rounds(item, m - 1) + [Plan(item)] + [Finish(0, true)] + [Settle(0)]
  }

  /** After them its number is m on, and all the files held they hold. */
  ghost predicate GoneOn(cat: Catalog, w: Chain, w': Chain, item: string, m: nat) {
    && w'.flight == [] && w'.batch == w.batch && w'.own == w.own && |w'.files| == |w.files|
    && AllStates(cat, w'.states) && Get(w'.seedN, item) == Get(w.seedN, item) + m
    && forall d | 0 <= d < |w.files| :: w.files[d] <= w'.files[d]
  }

  lemma {:induction false} RoundsGoOn(cat: Catalog, w: Chain, item: string, m: nat)
    requires ValidCatalog(cat) && AllStates(cat, w.states) && item in cat.index && w.flight == [] && w.own < |w.files|
    requires Get(w.seedN, item) + m <= SEEDLIMIT
    ensures GoneOn(cat, w, RunFrom(cat, w, Rounds(item, m)), item, m)
  {
    hide Next, AllStates, GoneOn, ValidCatalog;
    if m == 0 {
      StandsStill(cat, w, item);
    } else {
      RoundsGoOn(cat, w, item, m - 1);
      var es := Rounds(item, m - 1);
      var now := RunFrom(cat, w, es);
      FromSnoc(cat, w, es, Plan(item));
      FromSnoc(cat, w, es + [Plan(item)], Finish(0, true));
      FromSnoc(cat, w, es + [Plan(item)] + [Finish(0, true)], Settle(0));
      OneRound(cat, w, now, item, m - 1);
    }
  }

  lemma StandsStill(cat: Catalog, w: Chain, item: string)
    requires AllStates(cat, w.states) && w.flight == []
    ensures GoneOn(cat, w, w, item, 0)
  {
  }

  lemma FromSnoc(cat: Catalog, w: Chain, es: seq<Event>, e: Event)
    ensures RunFrom(cat, w, es + [e]) == Next(cat, RunFrom(cat, w, es), e)
  {
    assert (es + [e])[..|es|] == es;
  }

  lemma OneRound(cat: Catalog, w: Chain, now: Chain, item: string, m: nat)
    requires ValidCatalog(cat) && item in cat.index && w.own < |w.files| && GoneOn(cat, w, now, item, m)
    requires Get(w.seedN, item) + m < SEEDLIMIT
    ensures GoneOn(cat, w, Next(cat, Next(cat, Next(cat, now, Plan(item)), Finish(0, true)), Settle(0)), item, m + 1)
  {
    hide SeedFor, StreamKey, ValidCatalog, GuardFires;
    GuardIsQuiet(cat, now, item);
    var n := Get(now.seedN, item);
    var w1 := Next(cat, now, Plan(item));
    assert w1 == now.(flight := [Draw(item, n, None)]);
    var w2 := Next(cat, w1, Finish(0, true));
    var r := RecordOf(cat, w1, Draw(item, n, None), true);
    assert w2 == now.(files := now.files[now.own := now.files[now.own] + [r]], flight := [Draw(item, n, Some(true))]);
    var w3 := Next(cat, w2, Settle(0));
    assert w3.flight == [];
    var key := StreamKey(cat, item, SeedFor(cat.index[item], n), now.batch);
    assert StateIs(cat, key, (item, n));
    assert w3.states == now.states[key := (item, n)];
  }

  /** A run that starts at or below a completed draw's number - one it did not name - comes
      to that draw's stream, and the guard lets it. */
  lemma UnnamedRepeats(cat: Catalog, files: seq<seq<Drawn>>, own: nat, named: seq<nat>, batch: nat, d: nat, i: nat)
    requires ValidCatalog(cat) && AllGood(cat, files) && NoRepeat(cat, files) && own < |files|
    requires forall i | 0 <= i < |named| :: named[i] < |files|
    requires d < |files| && i < |files[d]| && Counts(cat, files[d][i], Some(batch))
    requires files[d][i].n >= Get(Load(cat, files, own, named, batch).seedN, files[d][i].item)
    ensures var r, w := files[d][i], Load(cat, files, own, named, batch);
            var es := Rounds(r.item, r.n - Get(w.seedN, r.item)) + [Plan(r.item)] + [Finish(0, true)];
            !NoRepeat(cat, RunFrom(cat, w, es).files)
  {
    hide Next, Load, AllStates, NoRepeat, SeedFor, ValidCatalog, Counts;
    var r, w := files[d][i], Load(cat, files, own, named, batch);
    var m := r.n - Get(w.seedN, r.item);
    var es := Rounds(r.item, m);
    LoadIs(cat, files, own, named, batch);
    StartOk(cat, files, own, named, batch);
    GoodItem(cat, files, d, i);
    RoundsGoOn(cat, w, r.item, m);
    var now := RunFrom(cat, w, es);
    assert now.files[d][i] == r;
    Repeats(cat, now, r.item, d, i);
    TwoSteps(cat, now, Plan(r.item), Finish(0, true));
    FromSnoc(cat, w, es, Plan(r.item));
    FromSnoc(cat, w, es + [Plan(r.item)], Finish(0, true));
  }

  lemma LoadIs(cat: Catalog, files: seq<seq<Drawn>>, own: nat, named: seq<nat>, batch: nat)
    requires own < |files| && forall i | 0 <= i < |named| :: named[i] < |files|
    ensures var w := Load(cat, files, own, named, batch);
            w.files == files && w.own == own && w.batch == batch && w.flight == []
  {
  }

  /** What a run must name: it never starts a stream twice, whatever follows, if and only if
      every completed draw that counts for it, in any directory, is below its next. */
  lemma NamingIsExact(cat: Catalog, files: seq<seq<Drawn>>, own: nat, named: seq<nat>, batch: nat)
    requires ValidCatalog(cat) && AllGood(cat, files) && NoRepeat(cat, files) && own < |files|
    requires forall i | 0 <= i < |named| :: named[i] < |files|
    ensures var w := Load(cat, files, own, named, batch);
            NeverRepeats(cat, w) <==> forall d, i | 0 <= d < |files| && 0 <= i < |files[d]| ::
              Counts(cat, files[d][i], Some(batch)) ==> files[d][i].n < Get(w.seedN, files[d][i].item)
  {
    hide Load, NoRepeat, RunFrom, SeedFor, ValidCatalog, Counts, AllGood, AllStates;
    var w := Load(cat, files, own, named, batch);
    LoadIs(cat, files, own, named, batch);
    if d, i :| 0 <= d < |files| && 0 <= i < |files[d]| && Counts(cat, files[d][i], Some(batch))
               && files[d][i].n >= Get(w.seedN, files[d][i].item) {
      UnnamedRepeats(cat, files, own, named, batch, d, i);
    } else {
      StartOk(cat, files, own, named, batch);
      SafeFrom(cat, w);
    }
  }
}
