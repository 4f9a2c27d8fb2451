/** supervisor/committee/committee_clpa.go: the supervisor's view of where every account lives, and the
    rounds in which it runs the partitioner, publishes the delta and starts a new transaction graph. */
module CommitteeCLPA {
  import opened EdgeCounts
  import opened Placement
  import opened PartitionRuns
  import opened PartitionCLPA

  /** The same overrides keyed by graph vertex. */
  ghost predicate SameOverrides(P: map<Vertex, int>, overrides: map<string, int>) {
    && P.Keys == (set a | a in overrides :: Vertex(a))
    && forall a :: a in overrides ==> P[Vertex(a)] == overrides[a]
  }

  class CLPACommittee {
    var clpaGraph: CLPAState
    var modifiedMap: map<string, int>
    const ShardNum: nat
    const Addr2Shard: string -> int

    /** The graph's partition map and the supervisor's overrides place every address alike. */
    ghost predicate Agree()
      reads this, clpaGraph
    {
      && (forall a :: a in modifiedMap ==> Vertex(a) in clpaGraph.PartitionMap)
      && (forall v :: v in clpaGraph.PartitionMap ==>
            clpaGraph.PartitionMap[v] == Lookup(modifiedMap, Addr2Shard, v.Addr))
    }

    ghost predicate Valid()
      reads this, clpaGraph, clpaGraph.NetGraph, clpaGraph.VertexsNumInShard
    {
      && clpaGraph.Valid() && Agree()
      && clpaGraph.NetGraph.VertexSet == Endpoints(clpaGraph.NetGraph.Log)
      && clpaGraph.ShardNum == ShardNum && clpaGraph.StaticShard == Addr2Shard
      && clpaGraph.WeightPenalty == 0.5 && clpaGraph.MaxIterations == 100
    }

    constructor (shardNum: nat, addr2Shard: string -> int)
      requires shardNum > 0 && forall a :: 0 <= addr2Shard(a) < shardNum
      ensures Valid() && modifiedMap == map[] && ShardNum == shardNum && Addr2Shard == addr2Shard
      ensures fresh(clpaGraph) && fresh(clpaGraph.NetGraph) && fresh(clpaGraph.VertexsNumInShard)
    {
      clpaGraph := new CLPAState.Init_CLPAState(0.5, 100, shardNum, addr2Shard);
      modifiedMap := map[];
      ShardNum, Addr2Shard := shardNum, addr2Shard;
    }

    function FetchModifiedMap(key: string): int
      reads this
    {
      Lookup(modifiedMap, Addr2Shard, key)
    }

    /** Executed transfers become edges, in order; where accounts live does not change. */
    method AdjustByBlockInfos(executed: seq<Edge>)
      requires Valid()
      modifies clpaGraph`PartitionMap, clpaGraph.NetGraph, clpaGraph.VertexsNumInShard
      ensures Valid()
      ensures clpaGraph.NetGraph.Log == old(clpaGraph.NetGraph.Log) + executed
    {
      hide Valid;
      assert executed[..0] == [];
      for i := 0 to |executed|
        invariant Valid()
        invariant clpaGraph.NetGraph.Log == old(clpaGraph.NetGraph.Log) + executed[..i]
      {
        AddTransfer(executed[i].0, executed[i].1);
        assert executed[..i + 1] == executed[..i] + [executed[i]];
      }
      assert executed[..|executed|] == executed;
    }

    method AddTransfer(sender: Vertex, recipient: Vertex)
      requires Valid()
      modifies clpaGraph`PartitionMap, clpaGraph.NetGraph, clpaGraph.VertexsNumInShard
      ensures Valid()
      ensures clpaGraph.NetGraph.Log == old(clpaGraph.NetGraph.Log) + [(sender, recipient)]
    {
      LogAppend(clpaGraph.NetGraph.Log, sender, recipient);
      clpaGraph.AddEdge(sender, recipient);
      assert Agree();
    }

    /** One round: run the partitioner, send the delta, merge it, and start a new graph.  A hundred times every
        vertex is visited, in any order, and gets the shard the reference picks; after the round the supervisor looks every address up exactly where
        the partitioner left it, and the new graph starts from those same places.  The old graph's run
        empties and fills no shard and moves no vertex more than fifty times; its minimum weight is zero
        after the run, and at every visit while no vertex with a self-loop has moved, exactly if some shard
        had no vertex before; and in that case the round moves nothing. */
    method RunRound() returns (mmap: map<string, int>, ghost xs: seq<Visit>, ghost mins: seq<int>)
      requires Valid()
      modifies this, clpaGraph, clpaGraph.VertexsNumInShard
      ensures Valid()
      ensures modifiedMap == old(modifiedMap) + mmap
      ensures forall a :: a in mmap ==> 0 <= mmap[a] < ShardNum
      ensures var t := Run(old(clpaGraph.NetGraph.VertexSet), Start(old(clpaGraph.PartitionMap)), xs);
        forall a :: FetchModifiedMap(a) == if Vertex(a) in t.P then t.P[Vertex(a)] else Addr2Shard(a)
      ensures fresh(clpaGraph) && clpaGraph.NetGraph.VertexSet == {} && clpaGraph.NetGraph.Log == []
      ensures SameOverrides(clpaGraph.PartitionMap, modifiedMap)
      ensures RoundKeeps(old(clpaGraph.NetGraph.VertexSet), old(clpaGraph.NetGraph.Log), old(clpaGraph.PartitionMap), xs)
      ensures SomeShardEmpty(old(clpaGraph.NetGraph.Log), old(clpaGraph.PartitionMap), ShardNum) ==> mmap == map[]
      ensures old(clpaGraph).MinEdges2Shard == 0 <==>
                SomeShardEmpty(old(clpaGraph.NetGraph.Log), old(clpaGraph.PartitionMap), ShardNum)
      ensures SignKept(old(clpaGraph.NetGraph.Log), old(clpaGraph.PartitionMap), xs, mins, ShardNum)
      ensures Sweeps(old(clpaGraph.NetGraph.VertexSet), xs, 100)
      ensures ReferencePicks(old(clpaGraph.NetGraph.VertexSet), old(clpaGraph.NetGraph.Log), Start(old(clpaGraph.PartitionMap)), xs, 0.5, ShardNum)
    {
      hide Run, ReferencePicks, SomeShardEmpty, SignKept, RoundKeeps, Sweeps, ExactDelta;
      ghost var P0 := clpaGraph.PartitionMap;
      mmap, xs, mins := RunPartition();
      Merge(mmap, P0);
    }

    /** The run of the partitioner in a round. */
    method RunPartition() returns (mmap: map<string, int>, ghost xs: seq<Visit>, ghost mins: seq<int>)
      requires Valid()
      modifies clpaGraph, clpaGraph.VertexsNumInShard
      ensures ExactDelta(old(clpaGraph.PartitionMap), mmap, clpaGraph.PartitionMap)
      ensures forall v :: v in clpaGraph.PartitionMap ==> 0 <= clpaGraph.PartitionMap[v] < ShardNum
      ensures clpaGraph.PartitionMap == Run(clpaGraph.NetGraph.VertexSet, Start(old(clpaGraph.PartitionMap)), xs).P
      ensures RoundKeeps(clpaGraph.NetGraph.VertexSet, clpaGraph.NetGraph.Log, old(clpaGraph.PartitionMap), xs)
      ensures Sweeps(clpaGraph.NetGraph.VertexSet, xs, 100)
      ensures ReferencePicks(clpaGraph.NetGraph.VertexSet, clpaGraph.NetGraph.Log, Start(old(clpaGraph.PartitionMap)), xs, 0.5, ShardNum)
      ensures SomeShardEmpty(clpaGraph.NetGraph.Log, old(clpaGraph.PartitionMap), ShardNum) ==> mmap == map[]
      ensures clpaGraph.MinEdges2Shard == 0 <==> SomeShardEmpty(clpaGraph.NetGraph.Log, old(clpaGraph.PartitionMap), ShardNum)
      ensures SignKept(clpaGraph.NetGraph.Log, old(clpaGraph.PartitionMap), xs, mins, ShardNum)
    {
      hide Run, ReferencePicks, MinsTrue, NeighbourPicks, SomeShardEmpty, SignKept, RoundKeeps, MinWeight, Sweeps, ExactDelta;
      ghost var g, P0, log := clpaGraph, clpaGraph.PartitionMap, clpaGraph.NetGraph.Log;
      var crossEdges;
      ghost var seen;
      mmap, crossEdges, xs, mins, seen := clpaGraph.CLPA_Partition();
      RunExactDelta(clpaGraph.NetGraph.VertexSet, P0, xs);
      RoundFacts(log, P0, xs, mins, ShardNum);
      MinimumAfter(g, P0, xs);
    }

    /** Merging the delta and starting anew. */
    method Merge(mmap: map<string, int>, ghost P: map<Vertex, int>)
      requires ShardNum > 0 && (forall a :: 0 <= Addr2Shard(a) < ShardNum)
      requires forall a :: a in modifiedMap ==> Vertex(a) in P && 0 <= modifiedMap[a] < ShardNum
      requires forall v :: v in P ==> P[v] == Lookup(modifiedMap, Addr2Shard, v.Addr)
      requires ExactDelta(P, mmap, clpaGraph.PartitionMap)
      requires forall v :: v in clpaGraph.PartitionMap ==> 0 <= clpaGraph.PartitionMap[v] < ShardNum
      modifies this
      ensures Valid() && fresh(clpaGraph) && clpaGraph.NetGraph.VertexSet == {} && clpaGraph.NetGraph.Log == []
      ensures modifiedMap == old(modifiedMap) + mmap && SameOverrides(clpaGraph.PartitionMap, modifiedMap)
      ensures forall a :: a in mmap ==> 0 <= mmap[a] < ShardNum
      ensures forall a :: FetchModifiedMap(a) == if Vertex(a) in old(clpaGraph.PartitionMap)
                                                 then old(clpaGraph.PartitionMap)[Vertex(a)] else Addr2Shard(a)
    {
      RoundAgrees(P, clpaGraph.PartitionMap, modifiedMap, mmap, Addr2Shard);
      forall a | a in mmap ensures 0 <= mmap[a] < ShardNum {
        assert Vertex(a) in clpaGraph.PartitionMap && clpaGraph.PartitionMap[Vertex(a)] == mmap[a];
      }
      modifiedMap := modifiedMap + mmap;
      ClpaReset();
    }

    /** The closing recount leaves the minimum zero exactly if some shard had no vertex before the run. */
    static lemma MinimumAfter(g: CLPAState, P0: map<Vertex, int>, xs: seq<Visit>)
      requires g.WeightsExact() && g.MinEdges2Shard == MinWeight(g.Edges2Shard[..], SCRATCH_SENTINEL)
      requires g.NetGraph.VertexSet == Endpoints(g.NetGraph.Log)
      requires g.PartitionMap == Run(g.NetGraph.VertexSet, Start(P0), xs).P
      requires NeighbourPicks(g.NetGraph.VertexSet, g.NetGraph.Log, Start(P0), xs)
      ensures g.MinEdges2Shard == 0 <==> SomeShardEmpty(g.NetGraph.Log, P0, g.ShardNum)
    {
      hide Run, MinWeight, NeighbourPicks, SomeShardEmpty;
      var log, P := g.NetGraph.Log, g.PartitionMap;
      assert g.Edges2Shard[..] == Weights(log, P, g.ShardNum);
      MinimumZero(log, P, g.ShardNum, SCRATCH_SENTINEL);
      RunKeepsMinimumSign(log, P0, xs, g.ShardNum);
    }

    /** What a round keeps of the shards, and how often it moves a vertex. */
    static ghost predicate RoundKeeps(V: set<Vertex>, log: seq<Edge>, P: map<Vertex, int>, xs: seq<Visit>) {
      && NeighbourPicks(V, log, Start(P), xs)
      && (forall k :: Members(V, Run(V, Start(P), xs).P, k) == {} <==> Members(V, P, k) == {})
      && (forall a :: MovesOf(V, Start(P), xs, a) <= 50)
    }

    /** The cached minimum at each visit is zero exactly if some shard had no vertex before the round. */
    static ghost predicate SignKept(log: seq<Edge>, P: map<Vertex, int>, xs: seq<Visit>, mins: seq<int>, n: nat) {
      |mins| == |xs|
      && forall i :: 0 <= i < |mins| && NoLoopMoved(log, Run(Endpoints(log), Start(P), xs[..i]).delta) ==>
           (mins[i] == 0 <==> SomeShardEmpty(log, P, n))
    }

    static lemma RoundFacts(log: seq<Edge>, P: map<Vertex, int>, xs: seq<Visit>, mins: seq<int>, n: nat)
      requires NeighbourPicks(Endpoints(log), log, Start(P), xs) && InRange(log, P, n)
      requires ReferencePicks(Endpoints(log), log, Start(P), xs, 0.5, n)
      requires MinsTrue(Endpoints(log), log, Start(P), xs, mins, n)
      ensures RoundKeeps(Endpoints(log), log, P, xs) && SignKept(log, P, xs, mins, n)
      ensures SomeShardEmpty(log, P, n) ==> Run(Endpoints(log), Start(P), xs).delta == map[]
    {
      var V := Endpoints(log);
      hide Run, NeighbourPicks, ReferencePicks, SomeShardEmpty, Members, InRange, NoLoopMoved;
      forall k ensures Members(V, Run(V, Start(P), xs).P, k) == {} <==> Members(V, P, k) == {} {
        RunKeepsShards(V, log, P, xs, k);
      }
      forall a ensures MovesOf(V, Start(P), xs, a) <= 50 {
        RunMoveBound(V, P, xs);
      }
      forall i | 0 <= i < |mins| && NoLoopMoved(log, Run(V, Start(P), xs[..i]).delta)
        ensures mins[i] == 0 <==> SomeShardEmpty(log, P, n)
      {
        assert MinTrue(log, Run(V, Start(P), xs[..i]), mins[i], n);
        SignThroughout(log, P, xs, i, n);
      }
      if SomeShardEmpty(log, P, n) {
        EmptyShardFreezes(V, log, P, xs, 0.5, n);
      }
    }

    /** If places agreed before a round, the merged overrides agree with the partitioner's result. */
    static lemma RoundAgrees(P: map<Vertex, int>, Q: map<Vertex, int>, overrides: map<string, int>,
                             delta: map<string, int>, addr2Shard: string -> int)
      requires forall a :: a in overrides ==> Vertex(a) in P
      requires forall v :: v in P ==> P[v] == Lookup(overrides, addr2Shard, v.Addr)
      requires ExactDelta(P, delta, Q)
      ensures forall a :: Lookup(overrides + delta, addr2Shard, a) == if Vertex(a) in Q then Q[Vertex(a)] else addr2Shard(a)
      ensures forall a :: a in overrides + delta ==> Vertex(a) in Q
    {
      forall a
        ensures Lookup(overrides + delta, addr2Shard, a) == if Vertex(a) in Q then Q[Vertex(a)] else addr2Shard(a)
        ensures a in overrides + delta ==> Vertex(a) in Q
      {
        var v := Vertex(a);
        assert v in Q <==> v in P || a in delta;
      }
    }

    /** A new graph whose partition map is the overrides. */
    method ClpaReset()
      requires ShardNum > 0 && (forall a :: 0 <= Addr2Shard(a) < ShardNum)
      requires forall a :: a in modifiedMap ==> 0 <= modifiedMap[a] < ShardNum
      modifies this`clpaGraph
      ensures Valid() && fresh(clpaGraph) && clpaGraph.NetGraph.VertexSet == {} && clpaGraph.NetGraph.Log == []
      ensures SameOverrides(clpaGraph.PartitionMap, modifiedMap)
    {
      var g := new CLPAState.Init_CLPAState(0.5, 100, ShardNum, Addr2Shard);
      CopyOverrides(g);
      assert forall k :: Members({}, g.PartitionMap, k) == {};
      assert g.Valid();
      clpaGraph := g;
      assert Agree();
    }

    method CopyOverrides(g: CLPAState)
      requires g.PartitionMap == map[]
      modifies g`PartitionMap
      ensures SameOverrides(g.PartitionMap, modifiedMap)
    {
      var todo := modifiedMap.Keys;
      while todo != {}
        invariant todo <= modifiedMap.Keys
        invariant g.PartitionMap.Keys == (set a | a in modifiedMap && a !in todo :: Vertex(a))
        invariant forall a :: a in modifiedMap && a !in todo ==> g.PartitionMap[Vertex(a)] == modifiedMap[a]
        decreases |todo|
      {
        var key :| key in todo;
        g.PartitionMap := g.PartitionMap[Vertex(key) := modifiedMap[key]];
        todo := todo - {key};
      }
    }
  }
}
