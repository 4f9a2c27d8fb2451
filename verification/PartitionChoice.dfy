/** What the score of a shard means, and which shard a vertex is moved to (partition/partition_CLPA.go). */
module PartitionChoice {
  import opened EdgeCounts
  import opened PartitionRuns

  // ---------------------------------------------------------------- counting neighbours

  /** The shards of a list of vertices. */
  function Shards(lst: seq<Vertex>, P: map<Vertex, int>): seq<int> {
    seq(|lst|, i requires 0 <= i < |lst| => ShardOf(P, lst[i]))
  }

  lemma {:induction false} CountIsMultiplicity(lst: seq<Vertex>, P: map<Vertex, int>, k: int)
    ensures CountIn(lst, P, k) == multiset(Shards(lst, P))[k]
  {
    if lst != [] {
      CountIsMultiplicity(lst[..|lst| - 1], P, k);
      assert Shards(lst, P) == Shards(lst[..|lst| - 1], P) + [ShardOf(P, lst[|lst| - 1])];
    }
  }

  function Counts(lst: seq<Vertex>, P: map<Vertex, int>, n: nat): seq<int> {
    seq(n, k => CountIn(lst, P, k))
  }

  /** Every entry is counted for exactly one shard. */
  lemma {:induction false} CountsSum(lst: seq<Vertex>, P: map<Vertex, int>, n: nat)
    requires forall u :: u in lst ==> 0 <= ShardOf(P, u) < n
    ensures SumSeq(Counts(lst, P, n)) == |lst|
  {
    if lst == [] {
      SumSeqZero(Counts(lst, P, n));
    } else {
      var init, k := lst[..|lst| - 1], ShardOf(P, lst[|lst| - 1]);
      CountsSum(init, P, n);
      var before := Counts(init, P, n);
      assert lst[|lst| - 1] in lst && Counts(lst, P, n) == before[k := before[k] + 1];
      SumSeqBump(before, k, 1);
    }
  }

  /** The ends of edges at `v` whose other end lies in shard `k`, read off the edge log: a self-loop has two. */
  function Links(log: seq<Edge>, P: map<Vertex, int>, v: Vertex, k: int): int {
    if log == [] then 0 else
      var e := log[|log| - 1];
      Links(log[..|log| - 1], P, v, k)
      + (if e.0 == v && ShardOf(P, e.1) == k then 1 else 0) + if e.1 == v && ShardOf(P, e.0) == k then 1 else 0
  }

  lemma {:induction false} CountIsLinks(log: seq<Edge>, P: map<Vertex, int>, v: Vertex, k: int)
    ensures CountIn(Nbrs(Adjacency(log), v), P, k) == Links(log, P, v, k)
  {
    if log != [] {
      var init, e := log[..|log| - 1], log[|log| - 1];
      CountIsLinks(init, P, v, k);
      CountLink(Adjacency(init), P, v, k, e);
      hide CountIn, Link, Nbrs;
    }
  }

  lemma CountLink(E: AdjacencyMap, P: map<Vertex, int>, v: Vertex, k: int, e: Edge)
    ensures CountIn(Nbrs(Link(E, e.0, e.1), v), P, k)
         == CountIn(Nbrs(E, v), P, k) + (if e.0 == v && ShardOf(P, e.1) == k then 1 else 0)
              + if e.1 == v && ShardOf(P, e.0) == k then 1 else 0
  {
    LinkNbrs(E, e.0, e.1, v);
    hide CountIn, Link, Nbrs;
    CountMaybe(Nbrs(E, v), P, k, e.0 == v, e.1);
    CountMaybe(Nbrs(E, v) + if e.0 == v then [e.1] else [], P, k, e.1 == v, e.0);
  }

  lemma CountMaybe(lst: seq<Vertex>, P: map<Vertex, int>, k: int, yes: bool, u: Vertex)
    ensures CountIn(lst + if yes then [u] else [], P, k) == CountIn(lst, P, k) + if yes && ShardOf(P, u) == k then 1 else 0
  {
    if yes {
      assert (lst + [u])[..|lst|] == lst;
    } else {
      assert lst + [] == lst;
    }
  }

  // ---------------------------------------------------------------- what a score is worth

  /** What a score is worth, without division: `entries` of `degree` neighbours lie in a shard of this weight. */
  ghost predicate Worth(score: Score, entries: int, degree: int, wp: real, weight: int, min: int) {
    score.Fin? && score.r * degree as real * min as real == entries as real * (min as real - wp * weight as real)
  }

  lemma ScoreIs(entries: int, degree: int, wp: real, weight: int, min: int)
    requires degree > 0 && min != 0
    ensures Worth(ScoreOf(entries, degree, wp, weight, min), entries, degree, wp, weight, min)
  {
    var c, d, m := entries as real, degree as real, min as real;
    var x := wp * weight as real;
    Scaled(c, d);
    Scaled(x, m);
    Product(c / d, d, x / m, m);
  }

  lemma ShardScoreIs(lst: seq<Vertex>, P: map<Vertex, int>, wp: real, w: seq<int>, m: int, k: int)
    requires lst != [] && m != 0
    ensures Worth(ShardScore(lst, P, wp, w, m, k), CountIn(lst, P, k), |lst|, wp, WeightAt(w, k), m)
  {
    hide ScoreOf, CountIn, Worth;
    ScoreIs(CountIn(lst, P, k), |lst|, wp, WeightAt(w, k), m);
  }

  lemma Scaled(x: real, y: real)
    requires y != 0.0
    ensures x / y * y == x
  {
  }

  lemma Product(share: real, d: real, q: real, m: real)
    ensures share * (1.0 - q) * d * m == (share * d) * (m - q * m)
  {
  }

  /** At the minimum weight only the share of the neighbours counts. */
  lemma AtMinimum(entries: int, degree: int, wp: real, min: int)
    requires degree > 0 && min != 0
    ensures ScoreOf(entries, degree, wp, min, min) == Fin((1.0 - wp) * (entries as real / degree as real))
  {
    var m := min as real;
    assert wp * m / m == wp;
  }

  lemma Ordered(a: real, b: real, d: real, m: real)
    requires d > 0.0 && m > 0.0
    ensures a < b <==> a * d * m < b * d * m
  {
    Cancel(a, b, d);
    Cancel(a * d, b * d, m);
  }

  lemma Cancel(a: real, b: real, d: real)
    requires d > 0.0
    ensures a < b <==> a * d < b * d
  {
  }

  /** Scores above a positive minimum compare as these products do. */
  lemma Compare(c: int, c': int, degree: int, wp: real, w: int, w': int, min: int)
    requires degree > 0 && min > 0
    ensures Less(ScoreOf(c, degree, wp, w, min), ScoreOf(c', degree, wp, w', min))
       <==> c as real * (min as real - wp * w as real) < c' as real * (min as real - wp * w' as real)
  {
    ScoreIs(c, degree, wp, w, min);
    ScoreIs(c', degree, wp, w', min);
    Ordered(ScoreOf(c, degree, wp, w, min).r, ScoreOf(c', degree, wp, w', min).r, degree as real, min as real);
  }

  /** Of two shards with equally many neighbours, the lighter scores higher, and only the lighter. */
  lemma LighterScoresHigher(entries: int, degree: int, wp: real, weight: int, weight': int, min: int)
    requires degree > 0 && min > 0 && wp > 0.0 && entries > 0
    ensures Less(ScoreOf(entries, degree, wp, weight, min), ScoreOf(entries, degree, wp, weight', min)) <==> weight' < weight
  {
    var c, m := entries as real, min as real;
    Compare(entries, entries, degree, wp, weight, weight', min);
    Cancel(m - wp * weight as real, m - wp * weight' as real, c);
    Cancel(weight' as real, weight as real, wp);
  }

  /** Of two shards of equal weight, the one with more neighbours scores higher if and only if the weight is
      below what the penalty allows. */
  lemma MoreScoreHigher(entries: int, entries': int, degree: int, wp: real, weight: int, min: int)
    requires degree > 0 && min > 0 && entries < entries'
    ensures Less(ScoreOf(entries, degree, wp, weight, min), ScoreOf(entries', degree, wp, weight, min))
       <==> wp * weight as real < min as real
  {
    Compare(entries, entries', degree, wp, weight, weight, min);
    var gap := min as real - wp * weight as real;
    if gap > 0.0 {
      Cancel(entries as real, entries' as real, gap);
    } else {
      NotCancel(entries as real, entries' as real, gap);
    }
  }

  lemma NotCancel(a: real, b: real, d: real)
    requires d <= 0.0 && a < b
    ensures b * d <= a * d
  {
    assert (b - a) * d <= 0.0;
  }

  // ---------------------------------------------------------------- the choice

  /** No neighbour's shard has a higher score than shard `s`. */
  ghost predicate Highest(lst: seq<Vertex>, P: map<Vertex, int>, wp: real, w: seq<int>, m: int, s: int) {
    lst != [] && forall u :: u in lst ==> !Less(ShardScore(lst, P, wp, w, m, s), ShardScore(lst, P, wp, w, m, ShardOf(P, u)))
  }

  ghost predicate AllBelow(lst: seq<Vertex>, P: map<Vertex, int>, wp: real, w: seq<int>, m: int, start: Score) {
    lst != [] ==> forall u :: u in lst ==> !Less(start, ShardScore(lst, P, wp, w, m, ShardOf(P, u)))
  }

  /** The choice: a neighbour's shard that no other beats, or the vertex's own if no score exceeds -9999. */
  lemma PickIsHighest(lst: seq<Vertex>, P: map<Vertex, int>, here: int, wp: real, w: seq<int>, m: int)
    ensures var s := Best(lst, |lst|, P, here, wp, w, m).1;
      || (s == here && AllBelow(lst, P, wp, w, m, Fin(-9999.0)))
      || ((exists u :: u in lst && s == ShardOf(P, u)) && Highest(lst, P, wp, w, m, s))
  {
    BestIsMax(lst, |lst|, P, here, wp, w, m);
    hide Best, ShardScore, Less;
  }

  /** Another shard with as many neighbours but less weight, or with more neighbours, no more weight and room
      under the penalty. */
  ghost predicate Dominates(lst: seq<Vertex>, P: map<Vertex, int>, wp: real, w: seq<int>, m: int, k: int, s: int) {
    var c, c' := CountIn(lst, P, s), CountIn(lst, P, k);
    || (c' == c && WeightAt(w, k) < WeightAt(w, s))
    || (c' > c && WeightAt(w, k) <= WeightAt(w, s) && wp * WeightAt(w, k) as real < m as real)
  }

  lemma DominatedScoresLess(lst: seq<Vertex>, P: map<Vertex, int>, wp: real, w: seq<int>, m: int, k: int, s: int)
    requires lst != [] && m > 0 && wp > 0.0 && CountIn(lst, P, s) > 0 && Dominates(lst, P, wp, w, m, k, s)
    ensures Less(ShardScore(lst, P, wp, w, m, s), ShardScore(lst, P, wp, w, m, k))
  {
    var c, c', d := CountIn(lst, P, s), CountIn(lst, P, k), |lst|;
    var x, y := WeightAt(w, s), WeightAt(w, k);
    LighterScoresHigher(c, d, wp, x, y, m);
    if c' > c {
      MoreScoreHigher(c, c', d, wp, y, m);
      Chain(ScoreOf(c, d, wp, x, m), ScoreOf(c, d, wp, y, m), ScoreOf(c', d, wp, y, m), x == y);
    }
  }

  lemma Chain(a: Score, b: Score, c: Score, same: bool)
    requires (if same then a == b else Less(a, b)) && Less(b, c)
    ensures Less(a, c)
  {
  }

  /** So, with a positive minimum weight and a positive penalty, no neighbour's shard dominates the shard that a
      vertex is moved to, nor the one it stays in because it scores best. */
  lemma PickUndominated(lst: seq<Vertex>, P: map<Vertex, int>, here: int, wp: real, w: seq<int>, m: int, u: Vertex)
    requires m > 0 && wp > 0.0 && u in lst
    ensures var s := Best(lst, |lst|, P, here, wp, w, m).1;
      (s == here && AllBelow(lst, P, wp, w, m, Fin(-9999.0))) || !Dominates(lst, P, wp, w, m, ShardOf(P, u), s)
  {
    var s := Best(lst, |lst|, P, here, wp, w, m).1;
    PickIsHighest(lst, P, here, wp, w, m);
    hide Best, Dominates, ShardScore, AllBelow, Less;
    if Dominates(lst, P, wp, w, m, ShardOf(P, u), s) && Highest(lst, P, wp, w, m, s) && CountIn(lst, P, s) > 0 {
      DominatedScoresLess(lst, P, wp, w, m, ShardOf(P, u), s);
    }
  }

  lemma NoneDominates(lst: seq<Vertex>, P: map<Vertex, int>, here: int, wp: real, w: seq<int>, m: int)
    ensures m > 0 && wp > 0.0 ==>
              var s := Best(lst, |lst|, P, here, wp, w, m).1;
              || (s == here && AllBelow(lst, P, wp, w, m, Fin(-9999.0)))
              || (forall u :: u in lst ==> !Dominates(lst, P, wp, w, m, ShardOf(P, u), s))
  {
    hide Best, Dominates, AllBelow;
    if m > 0 && wp > 0.0 {
      forall u | u in lst {
        PickUndominated(lst, P, here, wp, w, m, u);
      }
    }
  }

  /** Of shard `k` and shard `s`, as edges in the log: as many edges to `v` and fewer edges in all, or more edges
      to `v`, no more in all, and room under the penalty. */
  ghost predicate BetterFor(log: seq<Edge>, P: map<Vertex, int>, wp: real, m: int, v: Vertex, k: int, s: int) {
    || (Links(log, P, v, k) == Links(log, P, v, s) && Touch(log, P, k) < Touch(log, P, s))
    || (Links(log, P, v, k) > Links(log, P, v, s) && Touch(log, P, k) <= Touch(log, P, s)
        && wp * Touch(log, P, k) as real < m as real)
  }

  /** The same of the reference run, in terms of the edge log: with no empty shard, the shard picked for `v`
      is its own because no score exceeds -9999, or no neighbour's shard would have been better. */
  lemma RefPickUndominated(log: seq<Edge>, P: map<Vertex, int>, wp: real, n: nat, v: Vertex, u: Vertex)
    requires InRange(log, P, n) && !SomeShardEmpty(log, P, n) && wp > 0.0
    requires v in Endpoints(log) && u in Nbrs(Adjacency(log), v)
    ensures var m, s, k := MinWeight(Weights(log, P, n), SCRATCH_SENTINEL), RefPick(log, P, wp, n, v), ShardOf(P, u);
      || (s == ShardOf(P, v) && AllBelow(Nbrs(Adjacency(log), v), P, wp, Weights(log, P, n), m, Fin(-9999.0)))
      || !BetterFor(log, P, wp, m, v, k, s)
  {
    var lst, w := Nbrs(Adjacency(log), v), Weights(log, P, n);
    var m, s, k := MinWeight(w, SCRATCH_SENTINEL), RefPick(log, P, wp, n, v), ShardOf(P, u);
    MinimumZero(log, P, n, SCRATCH_SENTINEL);
    RefPickRange(log, P, wp, n, v);
    AdjacencyKeys(log);
    InRangeAt(log, P, n, u);
    hide SomeShardEmpty, MinWeight, Best, AllBelow, Dominates, Weights, InRange, BetterFor, Endpoints, Adjacency;
    PickUndominated(lst, P, ShardOf(P, v), wp, w, m, u);
    DominatesIs(log, P, wp, n, v, k, s);
  }

  lemma InRangeAt(log: seq<Edge>, P: map<Vertex, int>, n: nat, u: Vertex)
    requires InRange(log, P, n) && u in Endpoints(log)
    ensures 0 <= ShardOf(P, u) < n
  {
  }

  lemma RefPickRange(log: seq<Edge>, P: map<Vertex, int>, wp: real, n: nat, v: Vertex)
    requires InRange(log, P, n) && v in Endpoints(log)
    ensures 0 <= RefPick(log, P, wp, n, v) < n
  {
    var lst, w := Nbrs(Adjacency(log), v), Weights(log, P, n);
    PickIsHighest(lst, P, ShardOf(P, v), wp, w, MinWeight(w, SCRATCH_SENTINEL));
    AdjacencyKeys(log);
    hide Best, Highest, AllBelow, MinWeight, Adjacency, Endpoints;
  }

  lemma DominatesIs(log: seq<Edge>, P: map<Vertex, int>, wp: real, n: nat, v: Vertex, k: int, s: int)
    requires 0 <= s < n
    ensures 0 <= k < n ==>
      var lst, w, m := Nbrs(Adjacency(log), v), Weights(log, P, n), MinWeight(Weights(log, P, n), SCRATCH_SENTINEL);
      Dominates(lst, P, wp, w, m, k, s) <==> BetterFor(log, P, wp, m, v, k, s)
  {
    hide CountIn, Links, Adjacency, Touch, MinWeight, Nbrs, Weights, WeightAt;
    CountIsLinks(log, P, v, k);
    CountIsLinks(log, P, v, s);
    WeightIsTouch(log, P, n, s);
    if 0 <= k < n {
      WeightIsTouch(log, P, n, k);
    }
  }

  lemma WeightIsTouch(log: seq<Edge>, P: map<Vertex, int>, n: nat, k: int)
    requires 0 <= k < n
    ensures WeightAt(Weights(log, P, n), k) == Touch(log, P, k)
  {
  }

  /** One neighbour in a heavy shard, one in the lightest: the vertex leaves the heavy one. */
  lemma LeavesHeavyShard(u: Vertex, x: Vertex, P: map<Vertex, int>)
    requires ShardOf(P, u) == 0 && ShardOf(P, x) == 1
    ensures ShardScore([u, x], P, 0.5, [10, 2], 2, 0) == Fin(-0.75)
    ensures ShardScore([u, x], P, 0.5, [10, 2], 2, 1) == Fin(0.25)
    ensures Best([u, x], 2, P, 0, 0.5, [10, 2], 2).1 == 1
  {
    var lst := [u, x];
    assert lst[..1] == [u] && lst[..1][..0] == [];
    assert CountIn([u], P, 0) == 1 && CountIn([u], P, 1) == 0;
    assert CountIn(lst, P, 0) == 1 && CountIn(lst, P, 1) == 1;
    hide CountIn;
    assert Best(lst, 1, P, 0, 0.5, [10, 2], 2) == (Fin(-0.75), 0);
  }
}
