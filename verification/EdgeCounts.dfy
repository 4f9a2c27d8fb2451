/** Counting over an undirected multigraph that is stored as symmetric adjacency lists.

    A graph is given by the log of its undirected edges, in the order they were added.  `Adjacency`
    is the adjacency map that partition/graph.go builds from that log; the functions `Touch` and
    `Cut` are the independent meaning of the numbers that the partitioner caches: they count log
    entries, once each, and never look at an adjacency list. */
module EdgeCounts {

  datatype Vertex = Vertex(Addr: string)

  type Edge = (Vertex, Vertex)

  /** What one directed adjacency entry `v -> u` contributes to a sum. */
  type Weight = (Vertex, Vertex) -> int

  type AdjacencyMap = map<Vertex, seq<Vertex>>

  /** The shard of a vertex; a missing key reads as zero, as in a Go map. */
  function ShardOf(P: map<Vertex, int>, v: Vertex): int {
    if v in P then P[v] else 0
  }

  function Nbrs(E: AdjacencyMap, v: Vertex): seq<Vertex> {
    if v in E then E[v] else []
  }

  /** Append each end of an undirected edge to the other end's list; a self-loop is appended twice. */
  function Link(E: AdjacencyMap, u: Vertex, v: Vertex): AdjacencyMap {
    var E1 := E[u := Nbrs(E, u) + [v]];
    E1[v := Nbrs(E1, v) + [u]]
  }

  function Adjacency(log: seq<Edge>): AdjacencyMap {
    if log == [] then map[] else
      var e := log[|log| - 1];
      Link(Adjacency(log[..|log| - 1]), e.0, e.1)
  }

  function Endpoints(log: seq<Edge>): set<Vertex> {
    if log == [] then {} else
      var e := log[|log| - 1];
      Endpoints(log[..|log| - 1]) + {e.0, e.1}
  }

  /** Sum over one adjacency list. */
  function NbrSum(lst: seq<Vertex>, v: Vertex, f: Weight): int {
    if lst == [] then 0 else NbrSum(lst[..|lst| - 1], v, f) + f(v, lst[|lst| - 1])
  }

  /** Sum over the adjacency lists of the vertices in `done`, read off the edge log. */
  function LogSum(log: seq<Edge>, done: set<Vertex>, f: Weight): int {
    if log == [] then 0 else
      var e := log[|log| - 1];
      LogSum(log[..|log| - 1], done, f)
      + (if e.0 in done then f(e.0, e.1) else 0)
      + (if e.1 in done then f(e.1, e.0) else 0)
  }

  /** 1 if the undirected edge has an end in shard `k`. */
  function TouchOf(e: Edge, P: map<Vertex, int>, k: int): int {
    if ShardOf(P, e.0) == k || ShardOf(P, e.1) == k then 1 else 0
  }

  /** 1 if the undirected edge crosses shards. */
  function CutOf(e: Edge, P: map<Vertex, int>): int {
    if ShardOf(P, e.0) != ShardOf(P, e.1) then 1 else 0
  }

  /** The number of undirected edges with an end in shard `k`. */
  function Touch(log: seq<Edge>, P: map<Vertex, int>, k: int): (n: int)
    ensures 0 <= n <= |log|
  {
    if log == [] then 0 else Touch(log[..|log| - 1], P, k) + TouchOf(log[|log| - 1], P, k)
  }

  /** The number of undirected edges whose ends lie in different shards. */
  function Cut(log: seq<Edge>, P: map<Vertex, int>): (n: int)
    ensures 0 <= n <= |log|
  {
    if log == [] then 0 else Cut(log[..|log| - 1], P) + CutOf(log[|log| - 1], P)
  }

  /** The number of self-loops at `v`. */
  function Loops(log: seq<Edge>, v: Vertex): (n: int)
    ensures 0 <= n <= |log|
  {
    if log == [] then 0 else
      Loops(log[..|log| - 1], v) + (if log[|log| - 1] == (v, v) then 1 else 0)
  }

  ghost predicate LoopFree(log: seq<Edge>) {
    forall i :: 0 <= i < |log| ==> log[i].0 != log[i].1
  }

  function SumSeq(s: seq<int>): int {
    if s == [] then 0 else SumSeq(s[..|s| - 1]) + s[|s| - 1]
  }

  // ---------------------------------------------------------------- double counting

  lemma {:induction false} AdjacencyKeys(log: seq<Edge>)
    ensures Adjacency(log).Keys == Endpoints(log)
    ensures forall v :: v in Endpoints(log) ==> Nbrs(Adjacency(log), v) != []
    ensures forall v, u :: v in Endpoints(log) && u in Nbrs(Adjacency(log), v) ==> u in Endpoints(log)
  {
    if log != [] {
      AdjacencyKeys(log[..|log| - 1]);
    }
  }

  lemma LogAppend(log: seq<Edge>, u: Vertex, v: Vertex)
    ensures Adjacency(log + [(u, v)]) == Link(Adjacency(log), u, v)
    ensures Endpoints(log + [(u, v)]) == Endpoints(log) + {u, v}
  {
    assert (log + [(u, v)])[..|log|] == log;
  }

  lemma NbrSumAppend(lst: seq<Vertex>, u: Vertex, v: Vertex, f: Weight)
    ensures NbrSum(lst + [u], v, f) == NbrSum(lst, v, f) + f(v, u)
  {
    assert (lst + [u])[..|lst|] == lst;
  }

  /** The list of `v` after an edge is linked. */
  lemma LinkNbrs(E: AdjacencyMap, u: Vertex, w: Vertex, v: Vertex)
    ensures Nbrs(Link(E, u, w), v)
         == Nbrs(E, v) + (if u == v then [w] else []) + (if w == v then [u] else [])
  {
  }

  lemma NbrSumMaybe(lst: seq<Vertex>, yes: bool, u: Vertex, v: Vertex, f: Weight)
    ensures NbrSum(lst + if yes then [u] else [], v, f) == NbrSum(lst, v, f) + if yes then f(v, u) else 0
  {
    if yes {
      NbrSumAppend(lst, u, v, f);
    } else {
      assert lst + [] == lst;
    }
  }

  lemma NbrSumLink(E: AdjacencyMap, u: Vertex, w: Vertex, v: Vertex, f: Weight)
    ensures NbrSum(Nbrs(Link(E, u, w), v), v, f)
         == NbrSum(Nbrs(E, v), v, f) + (if u == v then f(v, w) else 0) + (if w == v then f(v, u) else 0)
  {
    hide NbrSum;
    LinkNbrs(E, u, w, v);
    NbrSumMaybe(Nbrs(E, v), u == v, w, v, f);
    NbrSumMaybe(Nbrs(E, v) + if u == v then [w] else [], w == v, u, v, f);
  }

  /** Reading one more adjacency list adds exactly that list's entries. */
  lemma {:induction false} LogSumAdd(log: seq<Edge>, done: set<Vertex>, v: Vertex, f: Weight)
    requires v !in done
    ensures LogSum(log, done + {v}, f) == LogSum(log, done, f) + NbrSum(Nbrs(Adjacency(log), v), v, f)
  {
    if log != [] {
      var init, e := log[..|log| - 1], log[|log| - 1];
      LogSumAdd(init, done, v, f);
      NbrSumLink(Adjacency(init), e.0, e.1, v, f);
    }
  }

  lemma {:induction false} LogSumNone(log: seq<Edge>, f: Weight)
    ensures LogSum(log, {}, f) == 0
  {
    if log != [] {
      LogSumNone(log[..|log| - 1], f);
    }
  }

  lemma {:induction false} EndpointsAt(log: seq<Edge>, i: nat)
    requires i < |log|
    ensures log[i].0 in Endpoints(log) && log[i].1 in Endpoints(log)
  {
    if i < |log| - 1 {
      EndpointsAt(log[..|log| - 1], i);
    }
  }

  /** The entries pointing into shard `k` from another shard. */
  function CrossInto(P: map<Vertex, int>, k: int): Weight {
    (v, u) => if ShardOf(P, v) != ShardOf(P, u) && ShardOf(P, u) == k then 1 else 0
  }

  /** The entries between two vertices of shard `k`. */
  function InnerAt(P: map<Vertex, int>, k: int): Weight {
    (v, u) => if ShardOf(P, v) == ShardOf(P, u) && ShardOf(P, u) == k then 1 else 0
  }

  /** Cross edges with an end in shard `k`. */
  function CrossTouch(log: seq<Edge>, P: map<Vertex, int>, k: int): int {
    if log == [] then 0 else
      CrossTouch(log[..|log| - 1], P, k) + CutOf(log[|log| - 1], P) * TouchOf(log[|log| - 1], P, k)
  }

  /** Edges with both ends in shard `k`, self-loops included. */
  function Inner(log: seq<Edge>, P: map<Vertex, int>, k: int): int {
    if log == [] then 0 else
      Inner(log[..|log| - 1], P, k) + (1 - CutOf(log[|log| - 1], P)) * TouchOf(log[|log| - 1], P, k)
  }

  /** Handshake: over all adjacency lists a cross edge at `k` is seen once from outside, an inner edge
      (a self-loop too) exactly twice.  So halving the inner count is exact, and adding the two gives
      the number of undirected edges touching `k`. */
  lemma {:induction false} Handshake(log: seq<Edge>, all: set<Vertex>, P: map<Vertex, int>, k: int)
    requires Endpoints(log) <= all
    ensures LogSum(log, all, CrossInto(P, k)) == CrossTouch(log, P, k)
    ensures LogSum(log, all, InnerAt(P, k)) == 2 * Inner(log, P, k)
    ensures CrossTouch(log, P, k) + Inner(log, P, k) == Touch(log, P, k)
  {
    if log != [] {
      Handshake(log[..|log| - 1], all, P, k);
    }
  }

  lemma {:induction false} SumSeqSplit(s: seq<int>, a: seq<int>, b: seq<int>)
    requires |s| == |a| == |b|
    requires forall k :: 0 <= k < |s| ==> s[k] == a[k] + b[k]
    ensures SumSeq(s) == SumSeq(a) + SumSeq(b)
  {
    if s != [] {
      SumSeqSplit(s[..|s| - 1], a[..|s| - 1], b[..|s| - 1]);
    }
  }

  lemma {:induction false} SumSeqZero(s: seq<int>)
    requires forall k :: 0 <= k < |s| ==> s[k] == 0
    ensures SumSeq(s) == 0
  {
    if s != [] {
      SumSeqZero(s[..|s| - 1]);
    }
  }

  /** Adding `d` at one index adds `d` to the sum. */
  lemma {:induction false} SumSeqBump(s: seq<int>, i: nat, d: int)
    requires i < |s|
    ensures SumSeq(s[i := s[i] + d]) == SumSeq(s) + d
  {
    var t := s[i := s[i] + d];
    if i == |s| - 1 {
      assert t[..|s| - 1] == s[..|s| - 1];
    } else {
      assert t[..|s| - 1] == s[..|s| - 1][i := s[i] + d];
      SumSeqBump(s[..|s| - 1], i, d);
    }
  }

  /** The shards that one edge touches: one for an inner edge, two for a cross edge. */
  lemma SumTouchOf(e: Edge, P: map<Vertex, int>, n: nat, t: seq<int>)
    requires 0 <= ShardOf(P, e.0) < n && 0 <= ShardOf(P, e.1) < n
    requires |t| == n && forall k :: 0 <= k < n ==> t[k] == TouchOf(e, P, k)
    ensures SumSeq(t) == 1 + CutOf(e, P)
  {
    var i, j := ShardOf(P, e.0), ShardOf(P, e.1);
    var z := seq(n, _ => 0);
    SumSeqZero(z);
    SumSeqBump(z, i, 1);
    var z1 := z[i := 1];
    if i == j {
      assert t == z1;
    } else {
      SumSeqBump(z1, j, 1);
      assert t == z1[j := 1];
    }
  }

  ghost predicate InRange(log: seq<Edge>, P: map<Vertex, int>, n: nat) {
    forall v :: v in Endpoints(log) ==> 0 <= ShardOf(P, v) < n
  }

  /** The weights of all shards sum to the number of edges plus the number of cut edges. */
  lemma {:induction false} WeightsSum(log: seq<Edge>, P: map<Vertex, int>, n: nat, w: seq<int>)
    requires InRange(log, P, n)
    requires |w| == n && forall k :: 0 <= k < n ==> w[k] == Touch(log, P, k)
    ensures SumSeq(w) == |log| + Cut(log, P)
  {
    if log == [] {
      SumSeqZero(w);
    } else {
      var init, e := log[..|log| - 1], log[|log| - 1];
      var w0 := seq(n, k => Touch(init, P, k));
      var t := seq(n, k => TouchOf(e, P, k));
      assert InRange(init, P, n);
      WeightsSum(init, P, n, w0);
      assert ShardOf(P, e.0) == ShardOf(P, e.0) && e.0 in Endpoints(log) && e.1 in Endpoints(log);
      SumTouchOf(e, P, n, t);
      SumSeqSplit(w, w0, t);
    }
  }

  /** Summed over all shards, every cut edge is seen exactly twice: the second halving is exact too. */
  lemma {:induction false} CrossSum(log: seq<Edge>, P: map<Vertex, int>, n: nat, w: seq<int>)
    requires InRange(log, P, n)
    requires |w| == n && forall k :: 0 <= k < n ==> w[k] == CrossTouch(log, P, k)
    ensures SumSeq(w) == 2 * Cut(log, P)
  {
    if log == [] {
      SumSeqZero(w);
    } else {
      var init, e := log[..|log| - 1], log[|log| - 1];
      var w0 := seq(n, k => CrossTouch(init, P, k));
      var t := seq(n, k => CutOf(e, P) * TouchOf(e, P, k));
      assert InRange(init, P, n);
      CrossSum(init, P, n, w0);
      assert e.0 in Endpoints(log) && e.1 in Endpoints(log);
      if CutOf(e, P) == 1 {
        SumTouchOf(e, P, n, t);
      } else {
        SumSeqZero(t);
      }
      SumSeqSplit(w, w0, t);
    }
  }

  // ---------------------------------------------------------------- moving one vertex

  /** What the incremental update adds to shard `k` for the entry `v -> u`, after `v` went from
      `before` to its shard in `P`. */
  function MoveTouch(P: map<Vertex, int>, before: int, k: int): Weight {
    (v, u) =>
      var now, s := ShardOf(P, v), ShardOf(P, u);
      (if k == now && s != now then 1 else 0) - (if k == before && s != before then 1 else 0)
  }

  /** What the incremental update adds to the cut size for the entry `v -> u`. */
  function MoveCut(P: map<Vertex, int>, before: int): Weight {
    (v, u) =>
      var now, s := ShardOf(P, v), ShardOf(P, u);
      if s == now then -1 else if s == before then 1 else 0
  }

  /** The whole effect of the incremental update against counting from scratch: it is short by one
      edge at the old and at the new shard, and by two in the cut, for every self-loop at `v`, and
      exact otherwise. */
  lemma {:induction false} MoveDrift(log: seq<Edge>, P: map<Vertex, int>, v: Vertex, now: int, k: int)
    requires v in P && P[v] != now
    ensures var Q := P[v := now];
      && Touch(log, P, k) + LogSum(log, {v}, MoveTouch(Q, P[v], k))
         == Touch(log, Q, k) - (if k == now || k == P[v] then Loops(log, v) else 0)
      && Cut(log, P) + LogSum(log, {v}, MoveCut(Q, P[v])) == Cut(log, Q) - 2 * Loops(log, v)
  {
    if log != [] {
      MoveDrift(log[..|log| - 1], P, v, now, k);
    }
  }

  /** Self-loops at `v` are exactly the occurrences of `v` in its own adjacency list. */
  lemma {:induction false} LoopsSeen(log: seq<Edge>, v: Vertex)
    ensures v in Nbrs(Adjacency(log), v) <==> Loops(log, v) > 0
  {
    if log != [] {
      LoopsSeen(log[..|log| - 1], v);
    }
  }

  lemma {:induction false} LoopFreeNoLoops(log: seq<Edge>, v: Vertex)
    requires LoopFree(log)
    ensures Loops(log, v) == 0
  {
    if log != [] {
      LoopFreeNoLoops(log[..|log| - 1], v);
    }
  }

  /** The smallest drift: one vertex whose only edge is a self-loop goes from shard 0 to shard 1.  The
      incremental update leaves the new shard without its edge and makes the cut negative. */
  lemma SelfLoopDrifts(v: Vertex)
    ensures var log, P, Q: map<Vertex, int> := [(v, v)], map[v := 0], map[v := 1];
      && Touch(log, P, 1) + LogSum(log, {v}, MoveTouch(Q, 0, 1)) == 0 && Touch(log, Q, 1) == 1
      && Cut(log, P) + LogSum(log, {v}, MoveCut(Q, 0)) == -2 && Cut(log, Q) == 0
  {
    var log: seq<Edge> := [(v, v)];
    var P: map<Vertex, int> := map[v := 0];
    assert log[..0] == [];
    assert P[v := 1] == map[v := 1];
    MoveDrift(log, P, v, 1, 1);
  }

  // ---------------------------------------------------------------- empty shards

  /** A shard has weight zero exactly when no vertex of the graph lies in it. */
  lemma {:induction false} TouchZero(log: seq<Edge>, P: map<Vertex, int>, k: int)
    ensures Touch(log, P, k) == 0 <==> forall v :: v in Endpoints(log) ==> ShardOf(P, v) != k
  {
    if log != [] {
      var e := log[|log| - 1];
      TouchZero(log[..|log| - 1], P, k);
      assert e.0 in Endpoints(log) && e.1 in Endpoints(log);
    }
  }

  /** Weights depend only on the shards of the end points. */
  lemma {:induction false} TouchLocal(log: seq<Edge>, P: map<Vertex, int>, Q: map<Vertex, int>, k: int)
    requires forall v :: v in Endpoints(log) ==> ShardOf(P, v) == ShardOf(Q, v)
    ensures Touch(log, P, k) == Touch(log, Q, k) && Cut(log, P) == Cut(log, Q)
  {
    if log != [] {
      var e := log[|log| - 1];
      TouchLocal(log[..|log| - 1], P, Q, k);
      assert e.0 in Endpoints(log) && e.1 in Endpoints(log);
    }
  }
}
