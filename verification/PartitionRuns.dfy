/** The reference meaning of a run of the CLPA partitioner (partition/partition_CLPA.go): a fold over
    vertex visits, in which every score is computed from weights counted from scratch.  The class in
    PartitionCLPA.dfy keeps those weights incrementally and is proved to follow this reference. */
module PartitionRuns {
  import opened EdgeCounts

  /** The sentinel of ComputeEdges2Shard (partition_CLPA.go:104). */
  const SCRATCH_SENTINEL := 0x7fffffff

  /** The sentinel of changeShardRecompute, one hexadecimal digit longer (partition_CLPA.go:160). */
  const MOVE_SENTINEL := 0x7ffffffff

  /** How often one vertex may move (partition_CLPA.go:237). */
  const MAX_MOVES := 50

  /** A floating-point score; dividing by a zero minimum weight leaves the finite range. */
  datatype Score = NaN | NegInf | PosInf | Fin(r: real)

  /** Go's `<` on floats. */
  predicate Less(a: Score, b: Score) {
    match (a, b)
    case (Fin(x), Fin(y)) => x < y
    case (NegInf, Fin(_)) => true
    case (NegInf, PosInf) => true
    case (Fin(_), PosInf) => true
    case _ => false
  }

  /** The smallest weight, capped by the sentinel the minimum search starts from. */
  function MinWeight(w: seq<int>, sentinel: int): (m: int)
    ensures m <= sentinel && forall k :: 0 <= k < |w| ==> m <= w[k]
    ensures m == sentinel || exists k :: 0 <= k < |w| && m == w[k]
  {
    if w == [] then sentinel else
      var m := MinWeight(w[..|w| - 1], sentinel);
      if m > w[|w| - 1] then w[|w| - 1] else m
  }

  /** How many entries of an adjacency list lie in shard `k`. */
  function CountIn(lst: seq<Vertex>, P: map<Vertex, int>, k: int): (n: int)
    ensures 0 <= n <= |lst|
    ensures n > 0 <==> exists u :: u in lst && ShardOf(P, u) == k
  {
    if lst == [] then 0 else
      CountIn(lst[..|lst| - 1], P, k) + (if ShardOf(P, lst[|lst| - 1]) == k then 1 else 0)
  }

  /** getShard_score: share of the neighbours in the shard, times a penalty for the shard's weight. */
  function ScoreOf(edgesTo: int, degree: int, wp: real, weight: int, minWeight: int): Score
    requires degree != 0
  {
    var share := edgesTo as real / degree as real;
    if minWeight != 0 then
      Fin(share * (1.0 - wp * weight as real / minWeight as real))
    else
      var penalty := wp * weight as real;
      if penalty == 0.0 || share == 0.0 then NaN
      else if (penalty > 0.0) == (share > 0.0) then NegInf
      else PosInf
  }

  function WeightAt(w: seq<int>, k: int): int {
    if 0 <= k < |w| then w[k] else 0
  }

  /** The score of shard `k` for a vertex with adjacency list `lst`. */
  function ShardScore(lst: seq<Vertex>, P: map<Vertex, int>, wp: real, w: seq<int>, m: int, k: int): Score
    requires lst != []
  {
    ScoreOf(CountIn(lst, P, k), |lst|, wp, WeightAt(w, k), m)
  }

  /** The best score and its shard over the first `i` neighbours; only a strictly better score wins, so
      ties go to the shard met first. */
  function Best(lst: seq<Vertex>, i: nat, P: map<Vertex, int>, here: int, wp: real, w: seq<int>, m: int): (Score, int)
    requires i <= |lst|
  {
    if i == 0 then (Fin(-9999.0), here) else
      var (max, s) := Best(lst, i - 1, P, here, wp, w, m);
      var k := ShardOf(P, lst[i - 1]);
      var score := ShardScore(lst, P, wp, w, m, k);
      if Less(max, score) then (score, k) else (max, s)
  }

  /** What `Best` means: no shard met so far beats the returned score, and the returned shard is either
      the vertex's own, with the start score, or one of the shards met, with its own score. */
  lemma {:induction false} BestIsMax(lst: seq<Vertex>, i: nat, P: map<Vertex, int>, here: int, wp: real, w: seq<int>, m: int)
    requires i <= |lst|
    ensures var (max, s) := Best(lst, i, P, here, wp, w, m);
      && (forall j :: 0 <= j < i ==> !Less(max, ShardScore(lst, P, wp, w, m, ShardOf(P, lst[j]))))
      && ((s == here && max == Fin(-9999.0))
          || exists j :: 0 <= j < i && s == ShardOf(P, lst[j]) && max == ShardScore(lst, P, wp, w, m, s))
  {
    if i > 0 {
      BestIsMax(lst, i - 1, P, here, wp, w, m);
      var (max0, s0) := Best(lst, i - 1, P, here, wp, w, m);
      var k := ShardOf(P, lst[i - 1]);
      if !Less(max0, ShardScore(lst, P, wp, w, m, k)) && !(s0 == here && max0 == Fin(-9999.0)) {
        var j :| 0 <= j < i - 1 && s0 == ShardOf(P, lst[j]) && max0 == ShardScore(lst, P, wp, w, m, s0);
        assert 0 <= j < i && s0 == ShardOf(P, lst[j]);
      }
    }
  }

  /** All shard weights, counted from scratch. */
  function Weights(log: seq<Edge>, P: map<Vertex, int>, n: nat): seq<int> {
    seq(n, k => Touch(log, P, k))
  }

  /** The shard the reference partitioner picks for `v`. */
  function RefPick(log: seq<Edge>, P: map<Vertex, int>, wp: real, n: nat, v: Vertex): int {
    var lst, w := Nbrs(Adjacency(log), v), Weights(log, P, n);
    Best(lst, |lst|, P, ShardOf(P, v), wp, w, MinWeight(w, SCRATCH_SENTINEL)).1
  }

  // ---------------------------------------------------------------- runs

  /** The vertices of the graph that lie in shard `k`. */
  function Members(V: set<Vertex>, P: map<Vertex, int>, k: int): set<Vertex> {
    set v | v in V && ShardOf(P, v) == k
  }

  /** A partition map, how often each address has moved, and the delta reported so far. */
  datatype PState = PState(P: map<Vertex, int>, moves: map<string, int>, delta: map<string, int>)

  /** One pass through the inner loop: the vertex visited and the shard picked for it. */
  datatype Visit = Visit(v: Vertex, target: int)

  function MoveCount(moves: map<string, int>, a: string): int {
    if a in moves then moves[a] else 0
  }

  predicate Moves(V: set<Vertex>, s: PState, x: Visit) {
    && MoveCount(s.moves, x.v.Addr) < MAX_MOVES
    && ShardOf(s.P, x.v) != x.target
    && |Members(V, s.P, ShardOf(s.P, x.v))| > 1
  }

  function Step(V: set<Vertex>, s: PState, x: Visit): PState {
    if Moves(V, s, x) then
      PState(s.P[x.v := x.target],
             s.moves[x.v.Addr := MoveCount(s.moves, x.v.Addr) + 1],
             s.delta[x.v.Addr := x.target])
    else s
  }

  function Run(V: set<Vertex>, s: PState, xs: seq<Visit>): PState {
    if xs == [] then s else Step(V, Run(V, s, xs[..|xs| - 1]), xs[|xs| - 1])
  }

  function Start(P: map<Vertex, int>): PState {
    PState(P, map[], map[])
  }

  /** Every vertex visited is a vertex, and its target is its own shard or a neighbour's. */
  ghost predicate NeighbourPicks(V: set<Vertex>, log: seq<Edge>, s: PState, xs: seq<Visit>) {
    forall i :: 0 <= i < |xs| ==> NeighbourPick(V, log, Run(V, s, xs[..i]).P, xs[i])
  }

  ghost predicate NeighbourPick(V: set<Vertex>, log: seq<Edge>, P: map<Vertex, int>, x: Visit) {
    x.v in V &&
    (x.target == ShardOf(P, x.v) || exists u :: u in Nbrs(Adjacency(log), x.v) && x.target == ShardOf(P, u))
  }

  function Visited(xs: seq<Visit>): set<Vertex> {
    set x | x in xs :: x.v
  }

  /** The visits of `n` iterations: each of them visits every vertex, and so each vertex once. */
  ghost predicate Sweeps(V: set<Vertex>, xs: seq<Visit>, n: nat)
    decreases n
  {
    if n == 0 then xs == [] else
      |xs| >= |V| && Visited(xs[|xs| - |V|..]) == V && Sweeps(V, xs[..|xs| - |V|], n - 1)
  }

  lemma SweepMore(V: set<Vertex>, xs: seq<Visit>, ys: seq<Visit>, n: nat)
    requires Sweeps(V, xs, n) && xs <= ys && |ys| == |xs| + |V| && Visited(ys[|xs|..]) == V
    ensures Sweeps(V, ys, n + 1)
  {
    assert ys[..|ys| - |V|] == xs;
  }

  lemma VisitMore(xs: seq<Visit>, ys: seq<Visit>, x: Visit)
    requires xs <= ys
    ensures xs <= ys + [x] && Visited((ys + [x])[|xs|..]) == Visited(ys[|xs|..]) + {x.v}
  {
    assert (ys + [x])[|xs|..] == ys[|xs|..] + [x];
  }

  lemma {:induction false} SweepsLength(V: set<Vertex>, xs: seq<Visit>, n: nat)
    requires Sweeps(V, xs, n)
    ensures |xs| == n * |V|
    decreases n
  {
    if n > 0 {
      SweepsLength(V, xs[..|xs| - |V|], n - 1);
      assert n * |V| == (n - 1) * |V| + |V|;
    }
  }

  /** No vertex with a self-loop is among the moved ones. */
  ghost predicate NoLoopMoved(log: seq<Edge>, delta: map<string, int>) {
    forall a :: a in delta ==> Loops(log, Vertex(a)) == 0
  }

  /** On a graph without self-loops, as the supervisor builds it, that is always so. */
  lemma LoopFreeNoneMoved(log: seq<Edge>, delta: map<string, int>)
    requires LoopFree(log)
    ensures NoLoopMoved(log, delta)
  {
    forall a | a in delta ensures Loops(log, Vertex(a)) == 0 {
      LoopFreeNoLoops(log, Vertex(a));
    }
  }

  /** Some weight is at most the sentinel of ComputeEdges2Shard. */
  ghost predicate SomeWeightSmall(w: seq<int>) {
    exists k :: 0 <= k < |w| && w[k] <= SCRATCH_SENTINEL
  }

  /** The state in which the incremental numbers are those of a recount: only vertices without self-loops
      have moved, and the two sentinels cannot be told apart or nothing has moved yet. */
  ghost predicate Trusted(log: seq<Edge>, s: PState, n: nat) {
    NoLoopMoved(log, s.delta) && (s.delta == map[] || SomeWeightSmall(Weights(log, s.P, n)))
  }

  /** Every target is what the reference picks from recounted weights, for every vertex still allowed to
      move. */
  ghost predicate ReferencePicks(V: set<Vertex>, log: seq<Edge>, s: PState, xs: seq<Visit>, wp: real, n: nat) {
    forall i :: 0 <= i < |xs| ==> ReferencePick(log, Run(V, s, xs[..i]), xs[i], wp, n)
  }

  ghost predicate ReferencePick(log: seq<Edge>, s: PState, x: Visit, wp: real, n: nat) {
    Trusted(log, s, n) && MoveCount(s.moves, x.v.Addr) < MAX_MOVES ==> x.target == RefPick(log, s.P, wp, n, x.v)
  }

  lemma PrefixPicks(V: set<Vertex>, log: seq<Edge>, s: PState, xs: seq<Visit>)
    requires xs != [] && NeighbourPicks(V, log, s, xs)
    ensures NeighbourPicks(V, log, s, xs[..|xs| - 1])
    ensures NeighbourPick(V, log, Run(V, s, xs[..|xs| - 1]).P, xs[|xs| - 1])
  {
    var init := xs[..|xs| - 1];
    forall i | 0 <= i < |init| ensures NeighbourPick(V, log, Run(V, s, init[..i]).P, init[i]) {
      assert init[..i] == xs[..i];
      assert NeighbourPick(V, log, Run(V, s, xs[..i]).P, xs[i]);
    }
  }

  /** One more visit extends both kinds of picks. */
  lemma ExtendPicks(V: set<Vertex>, log: seq<Edge>, s: PState, xs: seq<Visit>, x: Visit, wp: real, n: nat)
    ensures Run(V, s, xs + [x]) == Step(V, Run(V, s, xs), x)
    ensures NeighbourPicks(V, log, s, xs) && NeighbourPick(V, log, Run(V, s, xs).P, x)
            ==> NeighbourPicks(V, log, s, xs + [x])
    ensures ReferencePicks(V, log, s, xs, wp, n) && ReferencePick(log, Run(V, s, xs), x, wp, n)
            ==> ReferencePicks(V, log, s, xs + [x], wp, n)
  {
    var ys := xs + [x];
    assert ys[..|xs|] == xs;
    if NeighbourPicks(V, log, s, xs) && NeighbourPick(V, log, Run(V, s, xs).P, x) {
      forall i | 0 <= i < |ys| ensures NeighbourPick(V, log, Run(V, s, ys[..i]).P, ys[i]) {
        if i < |xs| {
          assert ys[..i] == xs[..i];
          assert NeighbourPick(V, log, Run(V, s, xs[..i]).P, xs[i]);
        }
      }
    }
    if ReferencePicks(V, log, s, xs, wp, n) && ReferencePick(log, Run(V, s, xs), x, wp, n) {
      forall i | 0 <= i < |ys| ensures ReferencePick(log, Run(V, s, ys[..i]), ys[i], wp, n) {
        if i < |xs| {
          assert ys[..i] == xs[..i];
          assert ReferencePick(log, Run(V, s, xs[..i]), xs[i], wp, n);
        }
      }
    }
  }

  /** The cached minimum at each visit is zero exactly if some shard has no vertex of the graph then. */
  ghost predicate MinsTrue(V: set<Vertex>, log: seq<Edge>, s: PState, xs: seq<Visit>, mins: seq<int>, n: nat) {
    |mins| == |xs| && forall i :: 0 <= i < |mins| ==> MinTrue(log, Run(V, s, xs[..i]), mins[i], n)
  }

  ghost predicate MinTrue(log: seq<Edge>, s: PState, m: int, n: nat) {
    NoLoopMoved(log, s.delta) ==> (m == 0 <==> SomeShardEmpty(log, s.P, n))
  }

  lemma ExtendMins(V: set<Vertex>, log: seq<Edge>, s: PState, xs: seq<Visit>, mins: seq<int>, n: nat, x: Visit, m: int)
    requires MinsTrue(V, log, s, xs, mins, n) && MinTrue(log, Run(V, s, xs), m, n)
    ensures MinsTrue(V, log, s, xs + [x], mins + [m], n)
  {
    var ys, ms := xs + [x], mins + [m];
    hide MinTrue, Run;
    forall i | 0 <= i < |ms| ensures MinTrue(log, Run(V, s, ys[..i]), ms[i], n) {
      if i < |mins| {
        assert ys[..i] == xs[..i];
        assert MinTrue(log, Run(V, s, xs[..i]), mins[i], n);
      } else {
        assert ys[..i] == xs;
      }
    }
  }

  // ---------------------------------------------------------------- what every run keeps

  /** The old partition map overridden by the reported delta is the new partition map. */
  ghost predicate ExactDelta(P: map<Vertex, int>, delta: map<string, int>, Q: map<Vertex, int>) {
    && Q.Keys == P.Keys + (set a | a in delta :: Vertex(a))
    && forall v :: v in Q ==> Q[v] == if v.Addr in delta then delta[v.Addr] else ShardOf(P, v)
  }

  lemma {:induction false} RunExactDelta(V: set<Vertex>, P: map<Vertex, int>, xs: seq<Visit>)
    ensures var t := Run(V, Start(P), xs); ExactDelta(P, t.delta, t.P) && t.delta.Keys == t.moves.Keys
  {
    if xs != [] {
      RunExactDelta(V, P, xs[..|xs| - 1]);
      var s, x := Run(V, Start(P), xs[..|xs| - 1]), xs[|xs| - 1];
      if Moves(V, s, x) {
        var d := s.delta[x.v.Addr := x.target];
        assert (set a | a in d :: Vertex(a)) == (set a | a in s.delta :: Vertex(a)) + {x.v} by {
          assert Vertex(x.v.Addr) == x.v;
        }
      }
    }
  }

  /** No vertex moves more than fifty times, however long the run. */
  lemma {:induction false} RunMoveBound(V: set<Vertex>, P: map<Vertex, int>, xs: seq<Visit>)
    ensures forall a :: a in Run(V, Start(P), xs).moves ==> 1 <= Run(V, Start(P), xs).moves[a] <= 50
    ensures forall a :: MoveCount(Run(V, Start(P), xs).moves, a) == MovesOf(V, Start(P), xs, a)
  {
    if xs != [] {
      RunMoveBound(V, P, xs[..|xs| - 1]);
    }
  }

  /** A visit changes anything exactly if the vertex has moved fewer than fifty times, another shard was picked and
      the vertex is not the last of its own. */
  lemma VisitMovesIff(V: set<Vertex>, s: PState, x: Visit)
    ensures Step(V, s, x) != s <==>
              (x.v.Addr in s.moves ==> s.moves[x.v.Addr] < 50) && x.target != ShardOf(s.P, x.v)
              && |Members(V, s.P, ShardOf(s.P, x.v))| > 1
    ensures Step(V, s, x) != s ==> Step(V, s, x).P == s.P[x.v := x.target] && Step(V, s, x).delta == s.delta[x.v.Addr := x.target]
  {
    if Moves(V, s, x) {
      assert ShardOf(Step(V, s, x).P, x.v) == x.target;
    }
  }

  /** How often address `a` changes shard along a run, read off the visits alone. */
  function MovesOf(V: set<Vertex>, s: PState, xs: seq<Visit>, a: string): nat {
    if xs == [] then 0 else
      var init, x := xs[..|xs| - 1], xs[|xs| - 1];
      MovesOf(V, s, init, a) + if x.v.Addr == a && Moves(V, Run(V, s, init), x) then 1 else 0
  }

  /** The effect of one move on the member sets. */
  lemma MembersMove(V: set<Vertex>, P: map<Vertex, int>, v: Vertex, to: int, k: int)
    requires v in V
    ensures Members(V, P[v := to], k)
         == if k == to then Members(V, P, k) + {v} else Members(V, P, k) - {v}
    ensures |Members(V, P[v := to], k)| == |Members(V, P, k)|
              + (if k == to then 1 else 0) - (if k == ShardOf(P, v) then 1 else 0)
  {
    var Q := P[v := to];
    assert Members(V, Q, k) == if k == to then Members(V, P, k) + {v} else Members(V, P, k) - {v};
    assert v in Members(V, P, k) <==> ShardOf(P, v) == k;
  }

  /** No shard is ever emptied and no empty shard is ever filled. */
  lemma {:induction false} RunKeepsShards(V: set<Vertex>, log: seq<Edge>, P: map<Vertex, int>, xs: seq<Visit>, k: int)
    requires Endpoints(log) <= V
    requires NeighbourPicks(V, log, Start(P), xs)
    ensures Members(V, Run(V, Start(P), xs).P, k) == {} <==> Members(V, P, k) == {}
  {
    if xs != [] {
      var init, x := xs[..|xs| - 1], xs[|xs| - 1];
      PrefixPicks(V, log, Start(P), xs);
      RunKeepsShards(V, log, P, init, k);
      var s := Run(V, Start(P), init);
      if Moves(V, s, x) {
        MembersMove(V, s.P, x.v, x.target, k);
        AdjacencyKeys(log);
        var u :| u in Nbrs(Adjacency(log), x.v) && x.target == ShardOf(s.P, u);
        assert u in V;
        assert u in Members(V, s.P, x.target);
      }
    }
  }

  /** The minimum weight is zero exactly when some shard holds no vertex of the graph, and it is never
      negative, whichever positive sentinel the search starts from. */
  lemma MinimumZero(log: seq<Edge>, P: map<Vertex, int>, n: nat, sentinel: int)
    requires sentinel > 0
    ensures MinWeight(Weights(log, P, n), sentinel) >= 0
    ensures MinWeight(Weights(log, P, n), sentinel) == 0 <==> SomeShardEmpty(log, P, n)
  {
    var w := Weights(log, P, n);
    var m := MinWeight(w, sentinel);
    if m <= 0 {
      var k :| 0 <= k < |w| && m == w[k];
      ZeroWeight(log, P, k);
    }
    if SomeShardEmpty(log, P, n) {
      var k :| 0 <= k < n && Members(Endpoints(log), P, k) == {};
      ZeroWeight(log, P, k);
      assert w[k] == 0;
    }
  }

  ghost predicate SomeShardEmpty(log: seq<Edge>, P: map<Vertex, int>, n: nat) {
    exists k :: 0 <= k < n && Members(Endpoints(log), P, k) == {}
  }

  lemma ZeroWeight(log: seq<Edge>, P: map<Vertex, int>, k: int)
    ensures Touch(log, P, k) == 0 <==> Members(Endpoints(log), P, k) == {}
  {
    TouchZero(log, P, k);
    assert forall v :: v in Members(Endpoints(log), P, k) <==> v in Endpoints(log) && ShardOf(P, v) == k;
  }

  /** So along a run on a graph without isolated vertices the minimum weight is zero throughout or
      positive throughout: the division in the score fails at the first visit or never. */
  lemma RunKeepsMinimumSign(log: seq<Edge>, P: map<Vertex, int>, xs: seq<Visit>, n: nat)
    requires NeighbourPicks(Endpoints(log), log, Start(P), xs)
    ensures var Q := Run(Endpoints(log), Start(P), xs).P;
      && (SomeShardEmpty(log, Q, n) <==> SomeShardEmpty(log, P, n))
      && (MinWeight(Weights(log, Q, n), SCRATCH_SENTINEL) == 0 <==> MinWeight(Weights(log, P, n), SCRATCH_SENTINEL) == 0)
  {
    var Q := Run(Endpoints(log), Start(P), xs).P;
    MinimumZero(log, P, n, SCRATCH_SENTINEL);
    MinimumZero(log, Q, n, SCRATCH_SENTINEL);
    forall k {
      RunKeepsShards(Endpoints(log), log, P, xs, k);
    }
  }

  /** The same at every visit of the run. */
  lemma SignThroughout(log: seq<Edge>, P: map<Vertex, int>, xs: seq<Visit>, i: nat, n: nat)
    requires NeighbourPicks(Endpoints(log), log, Start(P), xs) && i <= |xs|
    ensures SomeShardEmpty(log, Run(Endpoints(log), Start(P), xs[..i]).P, n) <==> SomeShardEmpty(log, P, n)
  {
    var some := xs[..i];
    forall j | 0 <= j < |some| ensures NeighbourPick(Endpoints(log), log, Run(Endpoints(log), Start(P), some[..j]).P, some[j]) {
      assert some[..j] == xs[..j];
      assert NeighbourPick(Endpoints(log), log, Run(Endpoints(log), Start(P), xs[..j]).P, xs[j]);
    }
    RunKeepsMinimumSign(log, P, some, n);
  }

  /** If the graph has no vertex in some shard, the minimum weight is zero, every score is minus
      infinity and the partitioner moves nothing at all, for any positive penalty. */
  lemma {:induction false} EmptyShardFreezes(V: set<Vertex>, log: seq<Edge>, P: map<Vertex, int>, xs: seq<Visit>, wp: real, n: nat)
    requires SomeShardEmpty(log, P, n) && InRange(log, P, n) && wp > 0.0
    requires ReferencePicks(V, log, Start(P), xs, wp, n)
    ensures Run(V, Start(P), xs) == Start(P)
  {
    if xs != [] {
      var init, x := xs[..|xs| - 1], xs[|xs| - 1];
      forall i | 0 <= i < |init| ensures ReferencePick(log, Run(V, Start(P), init[..i]), init[i], wp, n) {
        assert init[..i] == xs[..i];
        assert ReferencePick(log, Run(V, Start(P), xs[..i]), xs[i], wp, n);
      }
      EmptyShardFreezes(V, log, P, init, wp, n);
      assert ReferencePick(log, Run(V, Start(P), xs[..|init|]), xs[|init|], wp, n);
      hide ReferencePicks, SomeShardEmpty, InRange, RefPick;
      EmptyShardStays(log, P, wp, n, x.v);
    }
  }

  /** With an empty shard the reference picks the vertex's own shard. */
  lemma EmptyShardStays(log: seq<Edge>, P: map<Vertex, int>, wp: real, n: nat, v: Vertex)
    requires SomeShardEmpty(log, P, n) && InRange(log, P, n) && wp > 0.0
    ensures RefPick(log, P, wp, n, v) == ShardOf(P, v)
  {
    var lst, w := Nbrs(Adjacency(log), v), Weights(log, P, n);
    MinimumZero(log, P, n, SCRATCH_SENTINEL);
    var m := MinWeight(w, SCRATCH_SENTINEL);
    assert m == 0;
    AdjacencyKeys(log);
    BestIsMax(lst, |lst|, P, ShardOf(P, v), wp, w, m);
    var (max, s) := Best(lst, |lst|, P, ShardOf(P, v), wp, w, m);
    if s != ShardOf(P, v) {
      var j :| 0 <= j < |lst| && s == ShardOf(P, lst[j]) && max == ShardScore(lst, P, wp, w, m, s);
      assert lst[j] in lst && lst[j] in Endpoints(log);
      NegativeScores(log, P, wp, n, lst, s, lst[j]);
      NeverPicked(lst, |lst|, P, ShardOf(P, v), wp, w);
      assert false;
    }
  }

  /** With a zero minimum, the score of a neighbour's shard is minus infinity. */
  lemma NegativeScores(log: seq<Edge>, P: map<Vertex, int>, wp: real, n: nat, lst: seq<Vertex>, s: int, u: Vertex)
    requires InRange(log, P, n) && wp > 0.0
    requires u in lst && u in Endpoints(log) && s == ShardOf(P, u)
    ensures ShardScore(lst, P, wp, Weights(log, P, n), 0, s) == NegInf
  {
    TouchZero(log, P, s);
    var c, d := CountIn(lst, P, s), |lst|;
    assert c > 0 && d > 0;
    assert c as real / d as real > 0.0;
    var t := Touch(log, P, s);
    assert t > 0 && Weights(log, P, n)[s] == t;
    assert wp * t as real > 0.0;
  }

  /** A picked shard has a score above the start score, so it is never minus infinity. */
  lemma {:induction false} NeverPicked(lst: seq<Vertex>, i: nat, P: map<Vertex, int>, here: int, wp: real, w: seq<int>)
    requires i <= |lst|
    ensures Best(lst, i, P, here, wp, w, 0).0 != NegInf
  {
    if i > 0 {
      NeverPicked(lst, i - 1, P, here, wp, w);
    }
  }
}
