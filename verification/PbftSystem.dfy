/** The consensus of one shard: node 0 leads, messages may be lost, duplicated and reordered. */
module PbftSystem {
  import opened PbftSpec

  /** `net` holds every message ever sent; `proposals` lists the leader's blocks and `delivered` the
      deliveries so far, both as history. */
  datatype Sys = Sys(nodes: seq<Node>, net: set<Msg>, proposals: seq<Block>, delivered: set<(Msg, int)>)

  datatype Event = Propose(content: int) | Deliver(m: Msg, to: int)

  /** malicious_nums for a shard of this many nodes. */
  function Faults(n: nat): int {
    (n - 1) / 3
  }

  function Init(n: nat): Sys {
    Sys(seq(n, _ => NewNode()), {}, [], {})
  }

  /** A broadcast goes to everyone but its sender, the rest to one node. */
  predicate Addressed(m: Msg, to: int) {
    match m
    case PrePrepare(_, _) => to != 0
    case Prepare(_, _, sender) => to != sender
    case Commit(_, _, sender) => to != sender
    case RequestOld(_, _, _) => to == 0
    case SendOld(_, _, _, receiver) => to == receiver
  }

  predicate Enabled(s: Sys, e: Event) {
    match e
    case Propose(_) => |s.nodes| > 0 && !s.nodes[0].locked && !s.nodes[0].halted
    case Deliver(m, to) => m in s.net && 0 <= to < |s.nodes| && Addressed(m, to) && !s.nodes[to].halted
  }

  function Next(s: Sys, e: Event): Sys
    requires Enabled(s, e)
  {
    match e
    case Propose(content) =>
      var r := OnPropose(s.nodes[0], content);
      s.(nodes := s.nodes[0 := r.node], net := s.net + r.out,
         proposals := s.proposals + [Block(Current(s.nodes[0].chain), Number(Current(s.nodes[0].chain)) + 1, content)])
    case Deliver(m, to) =>
      var r := React(s.nodes[to], to, Faults(|s.nodes|), m);
      s.(nodes := s.nodes[to := r.node], net := s.net + r.out, delivered := s.delivered + {(m, to)})
  }

  /** A run; `once` asks that no message is delivered twice to the same node. */
  predicate Run(s: Sys, es: seq<Event>, t: Sys, once: bool)
    decreases |es|
  {
    if es == [] then s == t else
      && Enabled(s, es[0])
      && (once && es[0].Deliver? ==> (es[0].m, es[0].to) !in s.delivered)
      && Run(Next(s, es[0]), es[1..], t, once)
  }

  // ---------------------------------------------------------------- the invariant

  /** One proposal for each height, each on top of the one before. */
  ghost predicate ProposalsOk(ps: seq<Block>) {
    forall k :: 0 <= k < |ps| ==> ps[k].Block? && ps[k].number == k + 1 && ps[k].parent == Current(ps[..k])
  }

  /** A digest with its sequence id. */
  ghost predicate Known(ps: seq<Block>, d: Digest, seqId: int) {
    d in ps && Number(d) == seqId
  }

  ghost predicate NodeOk(ps: seq<Block>, p: Node) {
    && p.chain <= ps
    && (forall d :: d in p.requestPool ==> d in ps)
    && (forall h :: h in p.height2Digest ==> Known(ps, p.height2Digest[h], h))
  }

  ghost predicate MsgOk(ps: seq<Block>, m: Msg) {
    match m
    case PrePrepare(r, q) => Known(ps, r, q)
    case Prepare(d, q, _) => Known(ps, d, q)
    case Commit(d, q, _) => Known(ps, d, q)
    case RequestOld(_, _, _) => true
    case SendOld(start, _, past, receiver) =>
      receiver != 0 && forall k :: 0 <= k < |past| ==> Known(ps, past[k], start + k)
  }

  /** The leader holds the lock exactly while its last proposal is not on its chain. */
  ghost predicate LeaderOk(ps: seq<Block>, p: Node) {
    && !p.halted && !p.asking
    && |p.chain| == (if p.locked then |ps| - 1 else |ps|)
    && p.sequenceID == |p.chain| + 1
    && (forall d :: d in ps ==> d in p.requestPool)
    && (forall d :: d in p.isReply <==> d in p.chain)
  }

  ghost predicate NodesOk(ps: seq<Block>, nodes: seq<Node>) {
    forall i :: 0 <= i < |nodes| ==> NodeOk(ps, nodes[i])
  }

  /** Nobody asks in the name of the leader. */
  ghost predicate MsgsOk(ps: seq<Block>, net: set<Msg>) {
    forall m :: m in net ==> MsgOk(ps, m) && (m.RequestOld? ==> m.sender != 0)
  }

  ghost predicate Inv(s: Sys) {
    && |s.nodes| > 0
    && ProposalsOk(s.proposals)
    && NodesOk(s.proposals, s.nodes)
    && MsgsOk(s.proposals, s.net)
    && LeaderOk(s.proposals, s.nodes[0])
  }

  lemma InitInv(n: nat)
    requires n > 0
    ensures Inv(Init(n))
  {
  }

  // ---------------------------------------------------------------- chains

  lemma HeightOf(ps: seq<Block>, chain: seq<Block>)
    requires ProposalsOk(ps) && chain <= ps
    ensures Number(Current(chain)) == |chain|
  {
    if chain != [] {
      assert chain[|chain| - 1] == ps[|chain| - 1];
    }
  }

  /** Whatever proposal is offered, the chain stays a prefix of the proposals. */
  lemma AddKeepsPrefix(ps: seq<Block>, chain: seq<Block>, b: Block)
    requires ProposalsOk(ps) && chain <= ps && b in ps
    ensures AddBlock(chain, b) <= ps
  {
    HeightOf(ps, chain);
    var j :| 0 <= j < |ps| && ps[j] == b;
  }

  lemma {:induction false} AddAllKeepsPrefix(ps: seq<Block>, chain: seq<Block>, bs: seq<Block>)
    requires ProposalsOk(ps) && chain <= ps && forall b :: b in bs ==> b in ps
    ensures AddBlocks(chain, bs) <= ps
  {
    if bs != [] {
      AddAllKeepsPrefix(ps, chain, bs[..|bs| - 1]);
      AddKeepsPrefix(ps, AddBlocks(chain, bs[..|bs| - 1]), bs[|bs| - 1]);
    }
  }

  // ---------------------------------------------------------------- proposing

  lemma MoreProposals(ps: seq<Block>, b: Block, nodes: seq<Node>, net: set<Msg>)
    requires NodesOk(ps, nodes) && MsgsOk(ps, net)
    ensures NodesOk(ps + [b], nodes) && MsgsOk(ps + [b], net)
  {
    forall i | 0 <= i < |nodes| ensures NodeOk(ps + [b], nodes[i]) {
      NodeMore(ps, b, nodes[i]);
    }
  }

  lemma NodeMore(ps: seq<Block>, b: Block, p: Node)
    requires NodeOk(ps, p)
    ensures NodeOk(ps + [b], p)
  {
  }

  lemma LeaderIsFree(s: Sys)
    requires Inv(s) && !s.nodes[0].locked
    ensures var p, ps := s.nodes[0], s.proposals;
      && NodeOk(ps, p) && LeaderOk(ps, p) && ProposalsOk(ps) && p.chain == ps && Number(Current(ps)) == |ps|
      && NodesOk(ps, s.nodes) && MsgsOk(ps, s.net)
  {
    assert NodeOk(s.proposals, s.nodes[0]);
    HeightOf(s.proposals, s.nodes[0].chain);
  }

  lemma StepPropose(s: Sys, content: int)
    requires Inv(s) && Enabled(s, Propose(content))
    ensures Inv(Next(s, Propose(content)))
  {
    LeaderIsFree(s);
    hide NodesOk, MsgsOk, NodeOk, LeaderOk, ProposalsOk, OnPropose, Current, Number;
    var b := Block(Current(s.proposals), |s.proposals| + 1, content);
    ProposedIsOk(s.proposals, b);
    MoreProposals(s.proposals, b, s.nodes, s.net);
    NodeProposes(s.proposals, s.nodes[0], b, content);
    LeaderWrites(s, b, content);
  }

  lemma LeaderWrites(s: Sys, b: Block, content: int)
    requires |s.nodes| > 0 && NodesOk(s.proposals + [b], s.nodes) && MsgsOk(s.proposals + [b], s.net)
    requires var r := OnPropose(s.nodes[0], content);
      NodeOk(s.proposals + [b], r.node) && forall m :: m in r.out ==> MsgOk(s.proposals + [b], m) && !m.RequestOld?
    ensures var r := OnPropose(s.nodes[0], content);
      NodesOk(s.proposals + [b], s.nodes[0 := r.node]) && MsgsOk(s.proposals + [b], s.net + r.out)
  {
    hide NodeOk, MsgOk, OnPropose;
  }

  lemma ProposedIsOk(ps: seq<Block>, b: Block)
    requires ProposalsOk(ps) && b.Block? && b.parent == Current(ps) && b.number == |ps| + 1
    ensures ProposalsOk(ps + [b])
  {
    var next := ps + [b];
    forall k | 0 <= k < |next| ensures next[k].Block? && next[k].number == k + 1 && next[k].parent == Current(next[..k]) {
      assert next[..k] == ps[..k];
      assert ps[..|ps|] == ps;
    }
  }

  lemma NodeProposes(ps: seq<Block>, p: Node, b: Block, content: int)
    requires NodeOk(ps, p) && LeaderOk(ps, p) && !p.locked && p.chain == ps && b == Block(Current(ps), |ps| + 1, content)
    requires Number(Current(ps)) == |ps|
    ensures NodeOk(ps + [b], OnPropose(p, content).node) && LeaderOk(ps + [b], OnPropose(p, content).node)
    ensures OnPropose(p, content).out == {PrePrepare(b, |ps| + 1)} && MsgOk(ps + [b], PrePrepare(b, |ps| + 1))
  {
    assert b in ps + [b];
  }

  // ---------------------------------------------------------------- reacting

  /** What a reaction keeps at any node. */
  lemma ReactOk(ps: seq<Block>, p: Node, me: int, f: nat, m: Msg)
    requires ProposalsOk(ps) && NodeOk(ps, p) && MsgOk(ps, m)
    ensures NodeOk(ps, React(p, me, f, m).node)
  {
    hide OnPrePrepare, OnPrepare, OnCommit, OnSendOld, NodeOk, ProposalsOk, CaughtUp;
    match m
    case PrePrepare(r, q) => PrePrepareOk(ps, p, me, r, q);
    case Prepare(d, q, x) => PrepareOk(ps, p, me, f, d, q, x);
    case Commit(d, q, x) => CommitOk(ps, p, me, f, d, q, x);
    case RequestOld(_, _, _) =>
    case SendOld(start, end, past, _) => SendOldOk(ps, p, me, start, end, past);
  }

  lemma PrePrepareOk(ps: seq<Block>, p: Node, me: int, r: Block, q: int)
    requires NodeOk(ps, p) && Known(ps, r, q)
    ensures NodeOk(ps, OnPrePrepare(p, me, r, q).node)
  {
  }

  lemma PrepareOk(ps: seq<Block>, p: Node, me: int, f: nat, d: Digest, q: int, x: int)
    requires NodeOk(ps, p)
    ensures NodeOk(ps, OnPrepare(p, me, f, d, q, x).node)
  {
  }

  lemma CommitOk(ps: seq<Block>, p: Node, me: int, f: nat, d: Digest, q: int, x: int)
    requires ProposalsOk(ps) && NodeOk(ps, p) && Known(ps, d, q)
    ensures NodeOk(ps, OnCommit(p, me, f, d, q, x).node)
  {
    AddKeepsPrefix(ps, p.chain, d);
    ReplyKeeps(CountCommit(p, d, x), me, d, q);
    hide AddBlock, ProposalsOk, Votes, Reply, Known;
  }

  lemma ReplyKeeps(p: Node, me: int, d: Digest, q: int)
    ensures var p' := Reply(p, me, d, q).node;
      && p'.requestPool == p.requestPool && p'.height2Digest == p.height2Digest
      && p'.chain == if d in p.requestPool then AddBlock(p.chain, d) else p.chain
  {
    hide AddBlock;
  }

  lemma ReplyKeepsVotes(p: Node, me: int, d: Digest, q: int)
    ensures var p' := Reply(p, me, d, q).node;
      && p'.cntCommitConfirm == p.cntCommitConfirm && p'.cntPrepareConfirm == p.cntPrepareConfirm
      && p'.isCommitBroadcast == p.isCommitBroadcast
  {
    hide AddBlock;
  }

  lemma SendOldOk(ps: seq<Block>, p: Node, me: int, start: int, end: int, past: seq<Block>)
    requires ProposalsOk(ps) && NodeOk(ps, p) && forall k :: 0 <= k < |past| ==> Known(ps, past[k], start + k)
    ensures NodeOk(ps, OnSendOld(p, me, start, end, past).node)
  {
    CaughtUpOk(ps, p, start, end, past);
    hide CaughtUp, Resume;
  }

  lemma CaughtUpOk(ps: seq<Block>, p: Node, start: int, end: int, past: seq<Block>)
    requires ProposalsOk(ps) && NodeOk(ps, p) && forall k :: 0 <= k < |past| ==> Known(ps, past[k], start + k)
    ensures NodeOk(ps, CaughtUp(p, start, end, past))
  {
    AddAllKeepsPrefix(ps, p.chain, past);
    IndexedOk(ps, p.height2Digest, start, past);
  }

  lemma {:induction false} IndexedOk(ps: seq<Block>, m: map<int, Digest>, start: int, past: seq<Block>)
    requires forall h :: h in m ==> Known(ps, m[h], h)
    requires forall k :: 0 <= k < |past| ==> Known(ps, past[k], start + k)
    ensures forall h :: h in Indexed(m, start, past) ==> Known(ps, Indexed(m, start, past)[h], h)
  {
    if past != [] {
      IndexedOk(ps, m, start, past[..|past| - 1]);
    }
  }

  lemma {:induction false} GatheredOk(ps: seq<Block>, p: Node, height: int, end: int)
    requires NodeOk(ps, p)
    ensures forall k :: 0 <= k < |Gather(p, height, end)| ==> Known(ps, Gather(p, height, end)[k], height + k)
    decreases end - height
  {
    if !(height > end || height !in p.height2Digest || p.height2Digest[height] !in p.requestPool) {
      GatheredOk(ps, p, height + 1, end);
    }
  }

  /** What a reaction sends. */
  lemma SentOk(ps: seq<Block>, p: Node, me: int, f: nat, m: Msg)
    requires ProposalsOk(ps) && NodeOk(ps, p) && MsgOk(ps, m) && (m.RequestOld? ==> m.sender != 0)
    ensures forall x :: x in React(p, me, f, m).out ==> MsgOk(ps, x)
  {
    match m
    case PrePrepare(_, _) =>
    case Prepare(_, _, _) =>
    case Commit(_, _, _) =>
    case RequestOld(start, end, _) => GatheredOk(ps, p, start, end);
    case SendOld(start, end, past, _) => CaughtUpOk(ps, p, start, end, past);
  }

  lemma LeaderReacts(ps: seq<Block>, p: Node, f: nat, m: Msg)
    requires ProposalsOk(ps) && NodeOk(ps, p) && LeaderOk(ps, p) && MsgOk(ps, m) && Addressed(m, 0)
    ensures LeaderOk(ps, React(p, 0, f, m).node)
    ensures forall x :: x in React(p, 0, f, m).out ==> !x.RequestOld?
  {
    hide OnPrepare, OnCommit, LeaderOk, NodeOk, ProposalsOk;
    match m
    case Prepare(d, q, x) => LeaderPrepares(ps, p, f, d, q, x);
    case Commit(d, q, x) => LeaderCommits(ps, p, f, d, q, x);
    case RequestOld(_, _, _) =>
  }

  lemma LeaderPrepares(ps: seq<Block>, p: Node, f: nat, d: Digest, q: int, x: int)
    requires LeaderOk(ps, p)
    ensures LeaderOk(ps, OnPrepare(p, 0, f, d, q, x).node)
    ensures forall m :: m in OnPrepare(p, 0, f, d, q, x).out ==> !m.RequestOld?
  {
  }

  /** A commit that counts at the leader is for its last proposal and releases the lock it holds. */
  lemma LeaderCommits(ps: seq<Block>, p: Node, f: nat, d: Digest, q: int, x: int)
    requires ProposalsOk(ps) && NodeOk(ps, p) && LeaderOk(ps, p) && Known(ps, d, q)
    ensures LeaderOk(ps, OnCommit(p, 0, f, d, q, x).node)
    ensures OnCommit(p, 0, f, d, q, x).out == {}
    ensures var p' := OnCommit(p, 0, f, d, q, x).node;
      || (p'.chain == p.chain && p'.locked == p.locked)
      || (p.locked && !p'.locked && p'.chain == ps && p.chain != ps)
  {
    hide ProposalsOk, NodeOk, AddBlock, Reply, Votes;
    var p1 := CountCommit(p, d, x);
    if |p1.cntCommitConfirm[d]| >= 2 * f && d !in p1.isReply {
      LastProposal(ps, p, d);
      LastIsNext(ps, p.chain, d);
      LeaderReplies(ps, p1, d, q);
    }
  }

  lemma LeaderReplies(ps: seq<Block>, p: Node, d: Digest, q: int)
    requires LeaderOk(ps, p) && p.locked && d in p.requestPool && AddBlock(p.chain, d) == p.chain + [d] == ps
    ensures var p' := Reply(p, 0, d, q).node; LeaderOk(ps, p') && !p'.locked && p'.chain == ps && p.chain != ps
    ensures Reply(p, 0, d, q).out == {}
  {
    hide AddBlock;
    assert forall e :: e in ps <==> e in p.chain || e == d;
  }

  lemma OnChain(ps: seq<Block>, chain: seq<Block>, j: nat)
    requires chain <= ps && j < |ps|
    ensures j < |chain| ==> ps[j] in chain
  {
    if j < |chain| {
      assert chain[j] == ps[j];
    }
  }

  lemma LastProposal(ps: seq<Block>, p: Node, d: Digest)
    requires NodeOk(ps, p) && LeaderOk(ps, p) && d in ps && d !in p.isReply
    ensures p.locked && p.chain == ps[..|ps| - 1] && d == ps[|ps| - 1]
  {
    var j :| 0 <= j < |ps| && ps[j] == d;
    OnChain(ps, p.chain, j);
  }

  lemma LastIsNext(ps: seq<Block>, chain: seq<Block>, d: Digest)
    requires ProposalsOk(ps) && ps != [] && chain == ps[..|ps| - 1] && d == ps[|ps| - 1]
    ensures AddBlock(chain, d) == chain + [d] == ps
  {
    HeightOf(ps, chain);
    assert ps == ps[..|ps| - 1] + [d];
  }

  /** A node other than the leader asks in its own name. */
  lemma AsksAsItself(p: Node, me: int, f: nat, m: Msg)
    ensures forall x :: x in React(p, me, f, m).out ==> x.RequestOld? ==> x.sender == me
  {
  }

  lemma StepDeliver(s: Sys, m: Msg, to: int)
    requires Inv(s) && Enabled(s, Deliver(m, to))
    ensures Inv(Next(s, Deliver(m, to)))
  {
    var ps, p, f := s.proposals, s.nodes[to], Faults(|s.nodes|);
    ReactOk(ps, p, to, f, m);
    SentOk(ps, p, to, f, m);
    AsksAsItself(p, to, f, m);
    if to == 0 {
      LeaderReacts(ps, p, f, m);
    }
    hide React, NodeOk, MsgOk, LeaderOk, ProposalsOk;
  }

  lemma StepInv(s: Sys, e: Event)
    requires Inv(s) && Enabled(s, e)
    ensures Inv(Next(s, e))
  {
    if e.Propose? {
      StepPropose(s, e.content);
    } else {
      StepDeliver(s, e.m, e.to);
    }
  }

  lemma {:induction false} RunInv(s: Sys, es: seq<Event>, t: Sys, once: bool)
    requires Inv(s) && Run(s, es, t, once)
    ensures Inv(t)
    decreases |es|
  {
    hide Inv, Enabled, Next;
    if es != [] {
      StepInv(s, es[0]);
      RunInv(Next(s, es[0]), es[1..], t, once);
    }
  }

  lemma SameNodes(s: Sys, e: Event)
    requires Enabled(s, e)
    ensures |Next(s, e).nodes| == |s.nodes|
  {
  }

  lemma {:induction false} NodesStay(s: Sys, es: seq<Event>, t: Sys, once: bool)
    requires Run(s, es, t, once)
    ensures |t.nodes| == |s.nodes|
    decreases |es|
  {
    hide Enabled, Next;
    if es != [] {
      SameNodes(s, es[0]);
      NodesStay(Next(s, es[0]), es[1..], t, once);
    }
  }

  // ---------------------------------------------------------------- main results

  /** In every run every node's chain, catch-up included, is a prefix of the leader's proposals, of which
      there is exactly one for each height; so any two chains agree as far as both go. */
  lemma PrefixAgreement(n: nat, es: seq<Event>, t: Sys, i: int, j: int)
    requires n > 0 && Run(Init(n), es, t, false)
    requires 0 <= i < |t.nodes| && 0 <= j < |t.nodes|
    ensures ProposalsOk(t.proposals)
    ensures t.nodes[i].chain <= t.proposals
    ensures t.nodes[i].chain <= t.nodes[j].chain || t.nodes[j].chain <= t.nodes[i].chain
  {
    InitInv(n);
    RunInv(Init(n), es, t, false);
    assert NodeOk(t.proposals, t.nodes[i]) && NodeOk(t.proposals, t.nodes[j]);
  }

  /** The sequence lock is held exactly while the last proposal is not on the leader's chain, and it is never
      released when free. */
  lemma LockMeansPending(n: nat, es: seq<Event>, t: Sys)
    requires n > 0 && Run(Init(n), es, t, false)
    ensures |t.nodes| > 0 && !t.nodes[0].halted
    ensures t.nodes[0].locked <==> t.nodes[0].chain != t.proposals
    ensures t.nodes[0].locked ==> t.proposals != [] && t.nodes[0].chain == t.proposals[..|t.proposals| - 1]
  {
    InitInv(n);
    RunInv(Init(n), es, t, false);
  }

  /** One release for each proposal: a step releases the lock exactly when it puts the pending proposal on
      the leader's chain. */
  lemma ReleasedOncePerProposal(n: nat, es: seq<Event>, s: Sys, e: Event)
    requires n > 0 && Run(Init(n), es, s, false) && Enabled(s, e)
    ensures |s.nodes| > 0
    ensures s.nodes[0].locked && !Next(s, e).nodes[0].locked
       <==> Next(s, e).nodes[0].chain != s.nodes[0].chain
    ensures Next(s, e).nodes[0].chain == s.nodes[0].chain || Next(s, e).nodes[0].chain == s.proposals
  {
    InitInv(n);
    RunInv(Init(n), es, s, false);
    var p := s.nodes[0];
    if e.Deliver? && e.to == 0 && e.m.Commit? {
      LeaderCommits(s.proposals, p, Faults(|s.nodes|), e.m.digest, e.m.seqId, e.m.sender);
    } else if e.Propose? {
      HeightOf(s.proposals, p.chain);
    }
  }
}
