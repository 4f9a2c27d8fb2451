/** partition/graph.go and partition/partition_CLPA.go: the transaction graph and the partitioner that
    keeps its weights, cut size and vertex counts up to date while it moves vertices. */
module PartitionCLPA {
  import opened EdgeCounts
  import opened PartitionRuns
  import opened PartitionChoice

  /** The graph of account transfers.  `Log` is the history of AddEdge calls that explains `EdgeSet`. */
  class Graph {
    var VertexSet: set<Vertex>
    var EdgeSet: AdjacencyMap
    ghost var Log: seq<Edge>

    ghost predicate Valid()
      reads this
    {
      EdgeSet == Adjacency(Log) && Endpoints(Log) <= VertexSet
    }

    constructor ()
      ensures Valid() && VertexSet == {} && Log == []
    {
      VertexSet, EdgeSet, Log := {}, map[], [];
    }

    method AddVertex(v: Vertex)
      requires Valid()
      modifies this`VertexSet
      ensures Valid() && VertexSet == old(VertexSet) + {v}
    {
      VertexSet := VertexSet + {v};
    }

    method EnsureVertex(v: Vertex)
      requires Valid()
      modifies this`VertexSet
      ensures Valid() && VertexSet == old(VertexSet) + {v}
    {
      if v !in VertexSet {
        AddVertex(v);
      }
    }

    method AddEdge(u: Vertex, v: Vertex)
      requires Valid()
      modifies this
      ensures Valid() && VertexSet == old(VertexSet) + {u, v} && Log == old(Log) + [(u, v)]
    {
      EnsureVertex(u);
      EnsureVertex(v);
      EdgeSet := EdgeSet[u := Nbrs(EdgeSet, u) + [v]];
      EdgeSet := EdgeSet[v := Nbrs(EdgeSet, v) + [u]];
      assert EdgeSet == Link(old(EdgeSet), u, v);
      LogAppend(Log, u, v);
      Log := Log + [(u, v)];
    }
  }

  /** The cached numbers at one moment: Edges2Shard, CrossShardEdgeNum and MinEdges2Shard. */
  datatype Cached = Cached(weights: seq<int>, cut: int, min: int)

  class CLPAState {
    const NetGraph: Graph
    var PartitionMap: map<Vertex, int>
    var Edges2Shard: array<int>
    var VertexsNumInShard: array<int>
    const WeightPenalty: real
    var MinEdges2Shard: int
    const MaxIterations: nat
    var CrossShardEdgeNum: int
    const ShardNum: nat
    const StaticShard: string -> int  // utils.Addr2Shard: where an account lives by default

    /** The arrays and the map fit the number of shards. */
    ghost predicate Valid()
      reads this, NetGraph, VertexsNumInShard
    {
      && NetGraph.Valid()
      && ShardNum > 0
      && VertexsNumInShard.Length == ShardNum
      && Edges2Shard != VertexsNumInShard
      && NetGraph.VertexSet <= PartitionMap.Keys
      && (forall v :: v in PartitionMap ==> 0 <= PartitionMap[v] < ShardNum)
      && (forall a :: 0 <= StaticShard(a) < ShardNum)
      && (forall k :: 0 <= k < ShardNum ==>
            VertexsNumInShard[k] == |Members(NetGraph.VertexSet, PartitionMap, k)|)
    }

    /** The cached weights and the cached cut size are those of partition map `P`. */
    ghost predicate WeightsOf(P: map<Vertex, int>)
      reads this, NetGraph, Edges2Shard
    {
      && Edges2Shard.Length == ShardNum
      && (forall k :: 0 <= k < ShardNum ==> Edges2Shard[k] == Touch(NetGraph.Log, P, k))
      && CrossShardEdgeNum == Cut(NetGraph.Log, P)
    }

    ghost predicate WeightsExact()
      reads this, NetGraph, Edges2Shard
    {
      WeightsOf(PartitionMap)
    }

    constructor Init_CLPAState(wp: real, mIter: nat, sn: nat, addr2Shard: string -> int)
      requires sn > 0 && forall a :: 0 <= addr2Shard(a) < sn
      ensures Valid() && fresh(NetGraph) && fresh(VertexsNumInShard)
      ensures NetGraph.VertexSet == {} && NetGraph.Log == [] && PartitionMap == map[]
      ensures WeightPenalty == wp && MaxIterations == mIter && ShardNum == sn && StaticShard == addr2Shard
    {
      NetGraph := new Graph();
      WeightPenalty, MaxIterations, ShardNum, StaticShard := wp, mIter, sn, addr2Shard;
      VertexsNumInShard := new int[sn](_ => 0);
      Edges2Shard := new int[0];
      PartitionMap := map[];
    }

    /** A vertex that has no shard yet gets its default one. */
    function Placed(P: map<Vertex, int>, v: Vertex): map<Vertex, int> {
      if v in P then P else P[v := StaticShard(v.Addr)]
    }

    /** Raw vertex insertion counts the vertex even if it is already there, so the count of its shard
        stays the true one exactly when the vertex is new. */
    method AddVertex(v: Vertex)
      requires Valid()
      modifies this`PartitionMap, NetGraph`VertexSet, VertexsNumInShard
      ensures PartitionMap == Placed(old(PartitionMap), v)
      ensures NetGraph.VertexSet == old(NetGraph.VertexSet) + {v}
      ensures Valid() <==> v !in old(NetGraph.VertexSet)
    {
      ghost var V, P := NetGraph.VertexSet, PartitionMap;
      NetGraph.AddVertex(v);
      PartitionMap := Placed(PartitionMap, v);
      var k := PartitionMap[v];
      CountsAfterAdd(V, P, PartitionMap, v);
      VertexsNumInShard[k] := VertexsNumInShard[k] + 1;
      assert VertexsNumInShard[k] == |Members(V, P, k)| + 1;
    }

    static lemma CountsAfterAdd(V: set<Vertex>, P: map<Vertex, int>, Q: map<Vertex, int>, v: Vertex)
      requires V <= P.Keys && v in Q && (Q == P || (v !in P && Q == P[v := Q[v]]))
      ensures forall k :: |Members(V + {v}, Q, k)| == |Members(V, P, k)| + if k == Q[v] && v !in V then 1 else 0
    {
      forall k
        ensures |Members(V + {v}, Q, k)| == |Members(V, P, k)| + if k == Q[v] && v !in V then 1 else 0
      {
        var M := Members(V, P, k);
        assert v in M <==> v in V && k == Q[v];
        if k == Q[v] {
          assert Members(V + {v}, Q, k) == M + {v};
          assert v in M ==> M + {v} == M;
        } else {
          assert Members(V + {v}, Q, k) == M;
        }
      }
    }

    method EnsureVertex(v: Vertex)
      requires Valid()
      modifies this`PartitionMap, NetGraph`VertexSet, VertexsNumInShard
      ensures Valid()
      ensures PartitionMap == Placed(old(PartitionMap), v)
      ensures NetGraph.VertexSet == old(NetGraph.VertexSet) + {v}
    {
      if v !in NetGraph.VertexSet {
        AddVertex(v);
      }
    }

    /** An edge brings its missing end points in, each in the shard it is already assigned to or else in
        its default shard; every vertex count stays the true one. */
    method AddEdge(u: Vertex, v: Vertex)
      requires Valid()
      modifies this`PartitionMap, NetGraph, VertexsNumInShard
      ensures Valid()
      ensures NetGraph.VertexSet == old(NetGraph.VertexSet) + {u, v}
      ensures NetGraph.Log == old(NetGraph.Log) + [(u, v)]
      ensures PartitionMap == Placed(Placed(old(PartitionMap), u), v)
    {
      EnsureVertex(u);
      EnsureVertex(v);
      ghost var V := NetGraph.VertexSet;
      NetGraph.AddEdge(u, v);
      assert NetGraph.VertexSet == V;
    }

    /** One adjacency list: an entry from outside counts for the shard it points into, an entry inside
        a shard counts there. */
    method ScanList(v: Vertex, lst: seq<Vertex>, cross: array<int>, interEdge: array<int>)
      requires cross != interEdge && cross.Length == interEdge.Length
      requires forall u :: u in lst ==> 0 <= ShardOf(PartitionMap, u) < cross.Length
      modifies cross, interEdge
      ensures forall k :: 0 <= k < cross.Length ==>
                cross[k] == old(cross[k]) + NbrSum(lst, v, CrossInto(PartitionMap, k))
      ensures forall k :: 0 <= k < cross.Length ==>
                interEdge[k] == old(interEdge[k]) + NbrSum(lst, v, InnerAt(PartitionMap, k))
    {
      var vShard := ShardOf(PartitionMap, v);
      for i := 0 to |lst|
        invariant forall k :: 0 <= k < cross.Length ==>
                    cross[k] == old(cross[k]) + NbrSum(lst[..i], v, CrossInto(PartitionMap, k))
        invariant forall k :: 0 <= k < cross.Length ==>
                    interEdge[k] == old(interEdge[k]) + NbrSum(lst[..i], v, InnerAt(PartitionMap, k))
      {
        var uShard := ShardOf(PartitionMap, lst[i]);
        NbrSumPrefix(lst, i, v);
        if vShard != uShard {
          cross[uShard] := cross[uShard] + 1;
        } else {
          interEdge[uShard] := interEdge[uShard] + 1;
        }
      }
      assert lst[..|lst|] == lst;
    }

    /** All adjacency lists, in the order the map happens to be read. */
    method ScanLists(cross: array<int>, interEdge: array<int>)
      requires NetGraph.Valid() && cross != interEdge && cross.Length == interEdge.Length
      requires InRange(NetGraph.Log, PartitionMap, cross.Length)
      requires forall k :: 0 <= k < cross.Length ==> cross[k] == 0 && interEdge[k] == 0
      modifies cross, interEdge
      ensures forall k :: 0 <= k < cross.Length ==> cross[k] == CrossTouch(NetGraph.Log, PartitionMap, k)
      ensures forall k :: 0 <= k < cross.Length ==> interEdge[k] == 2 * Inner(NetGraph.Log, PartitionMap, k)
    {
      ghost var log, P, E := NetGraph.Log, PartitionMap, NetGraph.EdgeSet;
      var todo := NetGraph.EdgeSet.Keys;
      ghost var done: set<Vertex> := {};
      AdjacencyKeys(log);
      NothingRead(log);
      while todo != {}
        invariant todo !! done && todo + done == E.Keys
        invariant forall k :: 0 <= k < cross.Length ==> cross[k] == LogSum(log, done, CrossInto(P, k))
        invariant forall k :: 0 <= k < cross.Length ==> interEdge[k] == LogSum(log, done, InnerAt(P, k))
        decreases |todo|
      {
        var v :| v in todo;
        ScanNext(v, done, cross, interEdge);
        done := done + {v};
        todo := todo - {v};
      }
      forall k {
        Handshake(log, done, P, k);
      }
    }

    method ScanNext(v: Vertex, ghost done: set<Vertex>, cross: array<int>, interEdge: array<int>)
      requires NetGraph.Valid() && cross != interEdge && cross.Length == interEdge.Length
      requires v in NetGraph.EdgeSet && v !in done
      requires InRange(NetGraph.Log, PartitionMap, cross.Length)
      requires forall k :: 0 <= k < cross.Length ==> cross[k] == LogSum(NetGraph.Log, done, CrossInto(PartitionMap, k))
      requires forall k :: 0 <= k < cross.Length ==> interEdge[k] == LogSum(NetGraph.Log, done, InnerAt(PartitionMap, k))
      modifies cross, interEdge
      ensures forall k :: 0 <= k < cross.Length ==> cross[k] == LogSum(NetGraph.Log, done + {v}, CrossInto(PartitionMap, k))
      ensures forall k :: 0 <= k < cross.Length ==> interEdge[k] == LogSum(NetGraph.Log, done + {v}, InnerAt(PartitionMap, k))
    {
      AdjacencyKeys(NetGraph.Log);
      OneListRead(NetGraph.Log, done, v);
      ScanList(v, NetGraph.EdgeSet[v], cross, interEdge);
    }

    static lemma NbrSumPrefix(lst: seq<Vertex>, i: nat, v: Vertex)
      requires i < |lst|
      ensures forall f: Weight :: NbrSum(lst[..i + 1], v, f) == NbrSum(lst[..i], v, f) + f(v, lst[i])
    {
      assert lst[..i + 1] == lst[..i] + [lst[i]];
      forall f: Weight {
        NbrSumAppend(lst[..i], lst[i], v, f);
      }
    }

    static lemma NothingRead(log: seq<Edge>)
      ensures forall f: Weight :: LogSum(log, {}, f) == 0
    {
      forall f: Weight {
        LogSumNone(log, f);
      }
    }

    static lemma OneListRead(log: seq<Edge>, done: set<Vertex>, v: Vertex)
      requires v !in done
      ensures forall f: Weight ::
                LogSum(log, done + {v}, f) == LogSum(log, done, f) + NbrSum(Nbrs(Adjacency(log), v), v, f)
    {
      forall f: Weight {
        LogSumAdd(log, done, v, f);
      }
    }

    static method SumOf(a: array<int>) returns (sum: int)
      ensures sum == SumSeq(a[..])
    {
      sum := 0;
      for i := 0 to a.Length
        invariant sum == SumSeq(a[..i])
      {
        assert a[..i + 1][..i] == a[..i];
        sum := sum + a[i];
      }
      assert a[..a.Length] == a[..];
    }

    static method AddHalves(cross: array<int>, interEdge: array<int>)
      requires cross != interEdge && cross.Length == interEdge.Length
      modifies cross
      ensures forall k :: 0 <= k < cross.Length ==> cross[k] == old(cross[k]) + interEdge[k] / 2
    {
      for i := 0 to cross.Length
        invariant forall k :: 0 <= k < i ==> cross[k] == old(cross[k]) + interEdge[k] / 2
        invariant forall k :: i <= k < cross.Length ==> cross[k] == old(cross[k])
      {
        cross[i] := cross[i] + interEdge[i] / 2;
      }
    }

    /** The weights from scratch: each is the number of undirected edges touching the shard, the cut
        size is the number of cut edges, whatever order the adjacency lists are visited in, and
        self-loops included. */
    method ComputeEdges2Shard()
      requires Valid()
      modifies this`Edges2Shard, this`MinEdges2Shard, this`CrossShardEdgeNum
      ensures Valid() && fresh(Edges2Shard)
      ensures WeightsExact()
      ensures MinEdges2Shard == MinWeight(Edges2Shard[..], SCRATCH_SENTINEL)
    {
      ghost var log, P := NetGraph.Log, PartitionMap;
      var cross := new int[ShardNum](_ => 0);
      var interEdge := new int[ShardNum](_ => 0);
      assert InRange(log, P, ShardNum);
      ScanLists(cross, interEdge);
      var twiceCut := SumOf(cross);
      CrossSum(log, P, ShardNum, cross[..]);
      AddHalves(cross, interEdge);
      forall k {
        Handshake(log, Endpoints(log), P, k);
      }
      Edges2Shard := cross;
      CrossShardEdgeNum := twiceCut / 2;
      FindMin(SCRATCH_SENTINEL);
    }

    /** The minimum search that closes both weight computations. */
    method FindMin(sentinel: int)
      modifies this`MinEdges2Shard
      ensures MinEdges2Shard == MinWeight(Edges2Shard[..], sentinel)
    {
      MinEdges2Shard := sentinel;
      for i := 0 to Edges2Shard.Length
        invariant MinEdges2Shard == MinWeight(Edges2Shard[..i], sentinel)
      {
        assert Edges2Shard[..i + 1][..i] == Edges2Shard[..i];
        if MinEdges2Shard > Edges2Shard[i] {
          MinEdges2Shard := Edges2Shard[i];
        }
      }
      assert Edges2Shard[..Edges2Shard.Length] == Edges2Shard[..];
    }

    /** The incremental update after `v` went from shard `before` to its present shard, for any cached
        weights.  It adds what counting from scratch would add, but for the self-loops of `v`: each
        leaves both shards one edge short and the cut two short.  So weights that were exact for the
        old map are exact for the new one if and only if `v` is not in its own adjacency list. */
    method ChangeShardRecompute(v: Vertex, before: int)
      requires Valid() && Edges2Shard.Length == ShardNum
      requires v in PartitionMap && 0 <= before < ShardNum && before != PartitionMap[v]
      modifies Edges2Shard, this`CrossShardEdgeNum, this`MinEdges2Shard
      ensures Valid()
      ensures var (log, P, n) := (NetGraph.Log, PartitionMap[v := before], Loops(NetGraph.Log, v));
        && (forall k :: 0 <= k < ShardNum ==>
              Edges2Shard[k] - old(Edges2Shard[k]) == Touch(log, PartitionMap, k) - Touch(log, P, k)
                                                      - if k == before || k == PartitionMap[v] then n else 0)
        && CrossShardEdgeNum - old(CrossShardEdgeNum) == Cut(log, PartitionMap) - Cut(log, P) - 2 * n
      ensures old(WeightsOf(PartitionMap[v := before])) ==>
                (WeightsExact() <==> v !in Nbrs(NetGraph.EdgeSet, v))
      ensures MinEdges2Shard == MinWeight(Edges2Shard[..], MOVE_SENTINEL)
    {
      ghost var P := PartitionMap[v := before];
      ShiftWeights(v, Nbrs(NetGraph.EdgeSet, v), PartitionMap[v], before);
      FromListToDrift(NetGraph.Log, P, PartitionMap, v, PartitionMap[v], Nbrs(NetGraph.EdgeSet, v));
      FindMin(MOVE_SENTINEL);
      LoopsSeen(NetGraph.Log, v);
    }

    /** The loop of changeShardRecompute. */
    method ShiftWeights(v: Vertex, lst: seq<Vertex>, now: int, before: int)
      requires 0 <= now < Edges2Shard.Length && 0 <= before < Edges2Shard.Length && now != before
      requires ShardOf(PartitionMap, v) == now
      modifies Edges2Shard, this`CrossShardEdgeNum
      ensures forall k :: 0 <= k < Edges2Shard.Length ==>
                Edges2Shard[k] == old(Edges2Shard[k]) + NbrSum(lst, v, MoveTouch(PartitionMap, before, k))
      ensures CrossShardEdgeNum == old(CrossShardEdgeNum) + NbrSum(lst, v, MoveCut(PartitionMap, before))
    {
      var a := Edges2Shard;
      for i := 0 to |lst|
        invariant forall k :: 0 <= k < a.Length ==>
                    a[k] == old(a[k]) + NbrSum(lst[..i], v, MoveTouch(PartitionMap, before, k))
        invariant CrossShardEdgeNum == old(CrossShardEdgeNum) + NbrSum(lst[..i], v, MoveCut(PartitionMap, before))
      {
        NbrSumPrefix(lst, i, v);
        var neighborShard := ShardOf(PartitionMap, lst[i]);
        if neighborShard != now && neighborShard != before {
          a[now] := a[now] + 1;
          a[before] := a[before] - 1;
        } else if neighborShard == now {
          a[before] := a[before] - 1;
          CrossShardEdgeNum := CrossShardEdgeNum - 1;
        } else {
          a[now] := a[now] + 1;
          CrossShardEdgeNum := CrossShardEdgeNum + 1;
        }
      }
      assert lst[..|lst|] == lst;
    }

    /** Reading the list of `v` is reading the log at `v`; then the drift law applies. */
    static lemma FromListToDrift(log: seq<Edge>, P: map<Vertex, int>, Q: map<Vertex, int>, v: Vertex, now: int, lst: seq<Vertex>)
      requires v in P && P[v] != now && Q == P[v := now] && lst == Nbrs(Adjacency(log), v)
      ensures forall k :: Touch(log, P, k) + NbrSum(lst, v, MoveTouch(Q, P[v], k))
                       == Touch(log, Q, k) - (if k == now || k == P[v] then Loops(log, v) else 0)
      ensures Cut(log, P) + NbrSum(lst, v, MoveCut(Q, P[v])) == Cut(log, Q) - 2 * Loops(log, v)
    {
      forall f: Weight ensures NbrSum(lst, v, f) == LogSum(log, {v}, f) {
        LogSumNone(log, f);
        LogSumAdd(log, {}, v, f);
        assert {} + {v} == {v};
      }
      forall k
        ensures Touch(log, P, k) + NbrSum(lst, v, MoveTouch(Q, P[v], k))
             == Touch(log, Q, k) - (if k == now || k == P[v] then Loops(log, v) else 0)
        ensures Cut(log, P) + NbrSum(lst, v, MoveCut(Q, P[v])) == Cut(log, Q) - 2 * Loops(log, v)
      {
        MoveDrift(log, P, v, now, k);
      }
    }

    /** getShard_score, from the cached weights. */
    method GetShardScore(v: Vertex, uShard: int) returns (score: Score)
      requires Nbrs(NetGraph.EdgeSet, v) != [] && 0 <= uShard < Edges2Shard.Length
      ensures score == ShardScore(Nbrs(NetGraph.EdgeSet, v), PartitionMap, WeightPenalty, Edges2Shard[..],
                                  MinEdges2Shard, uShard)
      ensures MinEdges2Shard != 0 ==>
                var lst := Nbrs(NetGraph.EdgeSet, v);
                Worth(score, CountIn(lst, PartitionMap, uShard), |lst|, WeightPenalty,
                                      Edges2Shard[uShard], MinEdges2Shard)
    {
      var lst := Nbrs(NetGraph.EdgeSet, v);
      var edgesTo := 0;
      for i := 0 to |lst|
        invariant edgesTo == CountIn(lst[..i], PartitionMap, uShard)
      {
        assert lst[..i + 1][..i] == lst[..i];
        if ShardOf(PartitionMap, lst[i]) == uShard {
          edgesTo := edgesTo + 1;
        }
      }
      assert lst[..|lst|] == lst;
      score := ScoreOf(edgesTo, |lst|, WeightPenalty, Edges2Shard[uShard], MinEdges2Shard);
      hide ScoreOf, CountIn, Worth;
      if MinEdges2Shard != 0 {
        ShardScoreIs(lst, PartitionMap, WeightPenalty, Edges2Shard[..], MinEdges2Shard, uShard);
      }
    }

    /** The choice of a shard for `v` in CLPA_Partition: each neighbouring shard is scored once, the
        first strictly best one wins. */
    method PickShard(v: Vertex) returns (s: int)
      requires Valid() && Edges2Shard.Length == ShardNum && v in NetGraph.VertexSet
      ensures var lst := Nbrs(NetGraph.EdgeSet, v);
        s == Best(lst, |lst|, PartitionMap, PartitionMap[v], WeightPenalty, Edges2Shard[..], MinEdges2Shard).1
      ensures 0 <= s < ShardNum
      ensures NeighbourPick(NetGraph.VertexSet, NetGraph.Log, PartitionMap, Visit(v, s))
      ensures MinEdges2Shard > 0 && WeightPenalty > 0.0 ==>
                var lst, w, m := Nbrs(NetGraph.EdgeSet, v), Edges2Shard[..], MinEdges2Shard;
                || (s == PartitionMap[v] && AllBelow(lst, PartitionMap, WeightPenalty, w, m, Fin(-9999.0)))
                || (forall u :: u in lst ==> !Dominates(lst, PartitionMap, WeightPenalty, w, m, ShardOf(PartitionMap, u), s))
    {
      AdjacencyKeys(NetGraph.Log);
      var lst := Nbrs(NetGraph.EdgeSet, v);
      assert forall u :: u in lst ==> u in Endpoints(NetGraph.Log);
      s := BestNeighbour(v, lst, PartitionMap[v]);
      NoneDominates(lst, PartitionMap, PartitionMap[v], WeightPenalty, Edges2Shard[..], MinEdges2Shard);
    }

    method BestNeighbour(v: Vertex, lst: seq<Vertex>, vNowShard: int) returns (s: int)
      requires lst == Nbrs(NetGraph.EdgeSet, v)
      requires forall u :: u in lst ==> 0 <= ShardOf(PartitionMap, u) < Edges2Shard.Length
      ensures s == Best(lst, |lst|, PartitionMap, vNowShard, WeightPenalty, Edges2Shard[..], MinEdges2Shard).1
      ensures s == vNowShard || exists u :: u in lst && s == ShardOf(PartitionMap, u)
    {
      ghost var P, wp, w, m := PartitionMap, WeightPenalty, Edges2Shard[..], MinEdges2Shard;
      var computed: map<int, Score> := map[];
      var max := Fin(-9999.0);
      s := vNowShard;
      for i := 0 to |lst|
        invariant (max, s) == Best(lst, i, P, vNowShard, wp, w, m)
        invariant s == vNowShard || exists u :: u in lst && s == ShardOf(P, u)
        invariant lst == [] ==> computed == map[]
        invariant forall k :: k in computed ==> computed[k] == ShardScore(lst, P, wp, w, m, k)
        invariant forall k :: k in computed ==> !Less(max, computed[k])
      {
        var uShard := ShardOf(PartitionMap, lst[i]);
        assert lst[i] in lst;
        if uShard !in computed {
          var score := GetShardScore(v, uShard);
          computed := computed[uShard := score];
          if Less(max, score) {
            max, s := score, uShard;
          }
        }
      }
    }

    /** The caches after moves reported in `res`: never above a recount in the cut, equal to one exactly if
        no vertex with a self-loop has moved, with the minimum of whichever code ran last. */
    ghost predicate Tracks(res: map<string, int>)
      reads this, NetGraph, Edges2Shard
    {
      && Edges2Shard.Length == ShardNum
      && CrossShardEdgeNum <= Cut(NetGraph.Log, PartitionMap)
      && (CrossShardEdgeNum == Cut(NetGraph.Log, PartitionMap) <==> NoLoopMoved(NetGraph.Log, res))
      && (NoLoopMoved(NetGraph.Log, res) ==> WeightsExact())
      && MinEdges2Shard == MinWeight(Edges2Shard[..], if res == map[] then SCRATCH_SENTINEL else MOVE_SENTINEL)
    }

    /** Where a run of the partitioner stands after the visits `xs`. */
    ghost predicate Running(s0: PState, xs: seq<Visit>, mins: seq<int>, threshold: map<string, int>, res: map<string, int>)
      reads this, NetGraph, Edges2Shard
    {
      && Tracks(res)
      && PartitionRuns.Run(NetGraph.VertexSet, s0, xs) == PState(PartitionMap, threshold, res)
      && NeighbourPicks(NetGraph.VertexSet, NetGraph.Log, s0, xs)
      && ReferencePicks(NetGraph.VertexSet, NetGraph.Log, s0, xs, WeightPenalty, ShardNum)
      && MinsTrue(NetGraph.VertexSet, NetGraph.Log, s0, xs, mins, ShardNum)
    }

    /** The partitioner.  `xs` lists the visits in the order the vertex map happened to be read, `mins` the
        cached minimum at each of them, and `seen` the caches just before the closing recount.  The result is
        the reference run over those visits.  The closing recount changes neither weights nor cut if and only
        if no vertex with a self-loop was moved, and then the minimum stays as well if and only if nothing
        moved or some weight is at most the smaller sentinel. */
    method CLPA_Partition() returns (res: map<string, int>, crossEdges: int, ghost xs: seq<Visit>,
                                     ghost mins: seq<int>, ghost seen: Cached)
      requires Valid()
      modifies this, VertexsNumInShard
      ensures Valid() && VertexsNumInShard == old(VertexsNumInShard)
      ensures fresh(Edges2Shard) && WeightsExact() && crossEdges == CrossShardEdgeNum
      ensures MinEdges2Shard == MinWeight(Edges2Shard[..], SCRATCH_SENTINEL)
      ensures var t := PartitionRuns.Run(NetGraph.VertexSet, Start(old(PartitionMap)), xs);
        PartitionMap == t.P && res == t.delta
      ensures Sweeps(NetGraph.VertexSet, xs, MaxIterations) && |xs| == MaxIterations * |NetGraph.VertexSet|
      ensures NeighbourPicks(NetGraph.VertexSet, NetGraph.Log, Start(old(PartitionMap)), xs)
      ensures ReferencePicks(NetGraph.VertexSet, NetGraph.Log, Start(old(PartitionMap)), xs, WeightPenalty, ShardNum)
      ensures MinsTrue(NetGraph.VertexSet, NetGraph.Log, Start(old(PartitionMap)), xs, mins, ShardNum)
      ensures seen.weights == Edges2Shard[..] && seen.cut == CrossShardEdgeNum <==> NoLoopMoved(NetGraph.Log, res)
      ensures NoLoopMoved(NetGraph.Log, res) ==>
                (seen.min == MinEdges2Shard <==> res == map[] || SomeWeightSmall(Edges2Shard[..]))
    {
      ghost var s0 := Start(PartitionMap);
      ComputeEdges2Shard();
      ghost var threshold;
      assert Running(s0, [], [], map[], map[]);
      hide Running, Tracks, WeightsOf, MinWeight, NoLoopMoved, Sweeps;
      threshold, res, xs, mins := Iterate(s0);
      seen := Cached(Edges2Shard[..], CrossShardEdgeNum, MinEdges2Shard);
      RunningGives(s0, xs, mins, threshold, res, seen);
      SweepsLength(NetGraph.VertexSet, xs, MaxIterations);
      ghost var P := PartitionMap;
      ComputeEdges2Shard();
      crossEdges := CrossShardEdgeNum;
      RecountCompares(res, seen, P);
    }

    /** The outer loop. */
    method Iterate(ghost s0: PState)
      returns (threshold: map<string, int>, res: map<string, int>, ghost xs: seq<Visit>, ghost mins: seq<int>)
      requires Valid() && Edges2Shard != VertexsNumInShard && Running(s0, [], [], map[], map[])
      modifies this`PartitionMap, this`CrossShardEdgeNum, this`MinEdges2Shard, VertexsNumInShard, Edges2Shard
      ensures Valid() && Running(s0, xs, mins, threshold, res) && Sweeps(NetGraph.VertexSet, xs, MaxIterations)
    {
      threshold, res, xs, mins := map[], map[], [], [];
      hide Running, Tracks, Visited;
      for iter := 0 to MaxIterations
        invariant Valid() && Running(s0, xs, mins, threshold, res) && Sweeps(NetGraph.VertexSet, xs, iter)
      {
        ghost var before := xs;
        threshold, res, xs, mins := Sweep(s0, xs, mins, threshold, res);
        SweepMore(NetGraph.VertexSet, before, xs, iter);
        hide Sweeps;
      }
    }

    /** What is left of a run when its caches are overwritten. */
    lemma RunningGives(s0: PState, xs: seq<Visit>, mins: seq<int>, threshold: map<string, int>, res: map<string, int>, seen: Cached)
      requires Running(s0, xs, mins, threshold, res) && Edges2Shard.Length == ShardNum
      requires seen == Cached(Edges2Shard[..], CrossShardEdgeNum, MinEdges2Shard)
      ensures PartitionRuns.Run(NetGraph.VertexSet, s0, xs) == PState(PartitionMap, threshold, res)
      ensures NeighbourPicks(NetGraph.VertexSet, NetGraph.Log, s0, xs)
      ensures ReferencePicks(NetGraph.VertexSet, NetGraph.Log, s0, xs, WeightPenalty, ShardNum)
      ensures MinsTrue(NetGraph.VertexSet, NetGraph.Log, s0, xs, mins, ShardNum)
      ensures Tracked(NetGraph.Log, PartitionMap, ShardNum, res, seen)
    {
      hide MinWeight, NoLoopMoved;
      if NoLoopMoved(NetGraph.Log, res) {
        assert Edges2Shard[..] == Weights(NetGraph.Log, PartitionMap, ShardNum);
      }
    }

    /** `Tracks`, of caches kept aside. */
    static ghost predicate Tracked(log: seq<Edge>, P: map<Vertex, int>, n: nat, res: map<string, int>, seen: Cached) {
      && (seen.cut == Cut(log, P) <==> NoLoopMoved(log, res))
      && (NoLoopMoved(log, res) ==> seen.weights == Weights(log, P, n))
      && seen.min == MinWeight(seen.weights, if res == map[] then SCRATCH_SENTINEL else MOVE_SENTINEL)
    }

    lemma RecountCompares(res: map<string, int>, seen: Cached, P: map<Vertex, int>)
      requires WeightsExact() && P == PartitionMap && Tracked(NetGraph.Log, P, ShardNum, res, seen)
      requires MinEdges2Shard == MinWeight(Edges2Shard[..], SCRATCH_SENTINEL)
      ensures seen.weights == Edges2Shard[..] && seen.cut == CrossShardEdgeNum <==> NoLoopMoved(NetGraph.Log, res)
      ensures NoLoopMoved(NetGraph.Log, res) ==>
                (seen.min == MinEdges2Shard <==> res == map[] || SomeWeightSmall(Edges2Shard[..]))
    {
      hide MinWeight, NoLoopMoved;
      assert Edges2Shard[..] == Weights(NetGraph.Log, P, ShardNum);
      SentinelsAgree(Edges2Shard[..]);
    }

    /** The inner loop: every vertex once, in any order. */
    method Sweep(ghost s0: PState, ghost xs: seq<Visit>, ghost mins: seq<int>, threshold: map<string, int>, res: map<string, int>)
      returns (threshold': map<string, int>, res': map<string, int>, ghost xs': seq<Visit>, ghost mins': seq<int>)
      requires Valid() && Edges2Shard != VertexsNumInShard && Running(s0, xs, mins, threshold, res)
      modifies this`PartitionMap, this`CrossShardEdgeNum, this`MinEdges2Shard, VertexsNumInShard, Edges2Shard
      ensures Valid() && Running(s0, xs', mins', threshold', res')
      ensures xs <= xs' && |xs'| == |xs| + |NetGraph.VertexSet| && Visited(xs'[|xs|..]) == NetGraph.VertexSet
    {
      hide Running, Tracks;
      assert xs[|xs|..] == [];
      threshold', res', xs', mins' := threshold, res, xs, mins;
      var todo := NetGraph.VertexSet;
      while todo != {}
        invariant todo <= NetGraph.VertexSet
        invariant Valid() && Running(s0, xs', mins', threshold', res') && |xs'| == |xs| + |NetGraph.VertexSet| - |todo|
        invariant xs <= xs' && Visited(xs'[|xs|..]) == NetGraph.VertexSet - todo
        decreases |todo|
      {
        var v :| v in todo;
        todo := todo - {v};
        ghost var before := xs';
        threshold', res', xs', mins' := VisitOne(v, s0, xs', mins', threshold', res');
        VisitMore(xs, before, xs'[|before|]);
      }
    }

    /** One visit extends the run. */
    method VisitOne(v: Vertex, ghost s0: PState, ghost xs: seq<Visit>, ghost mins: seq<int>, threshold: map<string, int>, res: map<string, int>)
      returns (threshold': map<string, int>, res': map<string, int>, ghost xs': seq<Visit>, ghost mins': seq<int>)
      requires Valid() && Running(s0, xs, mins, threshold, res) && v in NetGraph.VertexSet
      modifies this`PartitionMap, this`CrossShardEdgeNum, this`MinEdges2Shard, VertexsNumInShard, Edges2Shard
      ensures Valid() && Running(s0, xs', mins', threshold', res') && |xs'| == |xs| + 1 && xs' == xs + [xs'[|xs|]] && xs'[|xs|].v == v
    {
      hide Tracks, NeighbourPicks, ReferencePicks, MinsTrue, NeighbourPick, ReferencePick, MinTrue, Members, PartitionRuns.Run, Step;
      ghost var V, log := NetGraph.VertexSet, NetGraph.Log;
      MinIsTrue(threshold, res);
      mins' := mins + [MinEdges2Shard];
      ghost var m := MinEdges2Shard;
      ghost var x;
      threshold', res', x := VisitVertex(v, threshold, res);
      ExtendPicks(V, log, s0, xs, x, WeightPenalty, ShardNum);
      ExtendMins(V, log, s0, xs, mins, ShardNum, x, m);
      xs' := xs + [x];
    }

    /** The cached minimum, whichever code computed it, is zero exactly if some shard has no vertex of the
        graph. */
    lemma MinIsTrue(threshold: map<string, int>, res: map<string, int>)
      requires Tracks(res)
      ensures MinTrue(NetGraph.Log, PState(PartitionMap, threshold, res), MinEdges2Shard, ShardNum)
    {
      hide MinWeight, NoLoopMoved, SomeShardEmpty;
      if NoLoopMoved(NetGraph.Log, res) {
        assert Edges2Shard[..] == Weights(NetGraph.Log, PartitionMap, ShardNum);
        MinimumZero(NetGraph.Log, PartitionMap, ShardNum, SCRATCH_SENTINEL);
        MinimumZero(NetGraph.Log, PartitionMap, ShardNum, MOVE_SENTINEL);
      }
    }

    /** The body of the inner loop of CLPA_Partition. */
    method VisitVertex(v: Vertex, threshold: map<string, int>, res: map<string, int>)
      returns (threshold': map<string, int>, res': map<string, int>, ghost x: Visit)
      requires Valid() && Tracks(res) && v in NetGraph.VertexSet
      modifies this`PartitionMap, this`CrossShardEdgeNum, this`MinEdges2Shard, VertexsNumInShard, Edges2Shard
      ensures Valid() && Tracks(res') && x.v == v
      ensures PState(PartitionMap, threshold', res')
           == Step(NetGraph.VertexSet, PState(old(PartitionMap), threshold, res), x)
      ensures NeighbourPick(NetGraph.VertexSet, NetGraph.Log, old(PartitionMap), x)
      ensures ReferencePick(NetGraph.Log, PState(old(PartitionMap), threshold, res), x, WeightPenalty, ShardNum)
    {
      hide Best, NeighbourPick, MinWeight, Members, NoLoopMoved, WeightsOf, Trusted;
      threshold', res' := threshold, res;
      var vNowShard := PartitionMap[v];
      if MoveCount(threshold, v.Addr) >= MAX_MOVES {
        x := Visit(v, vNowShard);
        StayIsNeighbourPick(NetGraph.VertexSet, NetGraph.Log, PartitionMap, v);
        return;
      }
      var max_scoreShard := PickShard(v);
      x := Visit(v, max_scoreShard);
      TrackedPick(max_scoreShard, v, threshold, res);
      hide ReferencePick, Tracks;
      if vNowShard != max_scoreShard && VertexsNumInShard[vNowShard] > 1 {
        MoveVertex(v, vNowShard, max_scoreShard, res);
        res' := res[v.Addr := max_scoreShard];
        threshold' := threshold[v.Addr := MoveCount(threshold, v.Addr) + 1];
      }
    }

    static lemma StayIsNeighbourPick(V: set<Vertex>, log: seq<Edge>, P: map<Vertex, int>, v: Vertex)
      requires v in V && v in P
      ensures NeighbourPick(V, log, P, Visit(v, P[v]))
    {
    }

    /** While the caches can be trusted, what PickShard returns is the reference pick. */
    lemma TrackedPick(s: int, v: Vertex, threshold: map<string, int>, res: map<string, int>)
      requires Tracks(res)
      requires Valid() && v in NetGraph.VertexSet
      requires var lst := Nbrs(NetGraph.EdgeSet, v);
        s == Best(lst, |lst|, PartitionMap, PartitionMap[v], WeightPenalty, Edges2Shard[..], MinEdges2Shard).1
      ensures ReferencePick(NetGraph.Log, PState(PartitionMap, threshold, res), Visit(v, s), WeightPenalty, ShardNum)
    {
      hide Best, MinWeight, NoLoopMoved;
      if Trusted(NetGraph.Log, PState(PartitionMap, threshold, res), ShardNum) {
        assert Edges2Shard[..] == Weights(NetGraph.Log, PartitionMap, ShardNum);
        SentinelsAgree(Edges2Shard[..]);
      }
    }

    /** Moving one vertex and repairing every cached number. */
    method MoveVertex(v: Vertex, vNowShard: int, target: int, ghost res: map<string, int>)
      requires Valid() && Tracks(res)
      requires v in NetGraph.VertexSet && PartitionMap[v] == vNowShard != target && 0 <= target < ShardNum
      modifies this`PartitionMap, this`CrossShardEdgeNum, this`MinEdges2Shard, VertexsNumInShard, Edges2Shard
      ensures Valid()
      ensures PartitionMap == old(PartitionMap)[v := target]
      ensures Tracks(res[v.Addr := target])
    {
      hide MinWeight, NoLoopMoved, Members;
      ghost var P := PartitionMap;
      MoveCounts(v, vNowShard, target);
      assert PartitionMap[v := vNowShard] == P;
      assert NoLoopMoved(NetGraph.Log, res) ==> WeightsOf(P);
      ChangeShardRecompute(v, vNowShard);
      LoopsSeen(NetGraph.Log, v);
      OneMoreMoved(NetGraph.Log, res, v, target);
      assert v.Addr in res[v.Addr := target];
      assert CrossShardEdgeNum - Cut(NetGraph.Log, PartitionMap)
          == old(CrossShardEdgeNum) - Cut(NetGraph.Log, P) - 2 * Loops(NetGraph.Log, v);
      assert NoLoopMoved(NetGraph.Log, res[v.Addr := target]) ==> WeightsExact();
    }

    static lemma OneMoreMoved(log: seq<Edge>, res: map<string, int>, v: Vertex, target: int)
      ensures NoLoopMoved(log, res[v.Addr := target]) <==> NoLoopMoved(log, res) && Loops(log, v) == 0
    {
      var next := res[v.Addr := target];
      assert Vertex(v.Addr) == v;
      if NoLoopMoved(log, next) {
        forall a | a in res ensures Loops(log, Vertex(a)) == 0 {
          assert a in next;
        }
        assert v.Addr in next;
      }
    }

    method MoveCounts(v: Vertex, vNowShard: int, target: int)
      requires Valid()
      requires v in NetGraph.VertexSet && PartitionMap[v] == vNowShard != target && 0 <= target < ShardNum
      modifies this`PartitionMap, VertexsNumInShard
      ensures Valid()
      ensures PartitionMap == old(PartitionMap)[v := target]
    {
      forall k {
        MembersMove(NetGraph.VertexSet, PartitionMap, v, target, k);
      }
      PartitionMap := PartitionMap[v := target];
      VertexsNumInShard[vNowShard] := VertexsNumInShard[vNowShard] - 1;
      VertexsNumInShard[target] := VertexsNumInShard[target] + 1;
    }

    /** The two sentinels give the same minimum if and only if some weight is at most the smaller one. */
    static lemma SentinelsAgree(w: seq<int>)
      ensures MinWeight(w, MOVE_SENTINEL) == MinWeight(w, SCRATCH_SENTINEL) <==> SomeWeightSmall(w)
    {
      var m := MinWeight(w, MOVE_SENTINEL);
      if m <= SCRATCH_SENTINEL {
        assert SomeWeightSmall(w);
      }
    }
  }
}
