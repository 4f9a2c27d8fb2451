/** Without duplicated messages a node that catches up never falls behind its own chain
    (consensus_shard/pbft_all/messageHandle.go). */
module PbftCatchUp {
  import opened PbftSpec
  import opened PbftSystem
  import opened PbftProgress

  /** A request of node `i` for old blocks that the leader has not received, or an answer that `i` has not. */
  predicate Outstanding(s: Sys, i: int, m: Msg) {
    && m in s.net
    && ((m.RequestOld? && m.sender == i && (m, 0) !in s.delivered) || (m.SendOld? && m.receiver == i && (m, i) !in s.delivered))
  }

  function End(m: Msg): int {
    if m.RequestOld? || m.SendOld? then m.end else 0
  }

  /** The block that a node is missing: answered, but not on its chain. */
  ghost predicate Missing(ps: seq<Block>, p: Node, end: int) {
    1 <= end <= |ps| && ps[end - 1] in p.isReply && ps[end - 1] !in p.chain
  }

  ghost predicate AsksOnce(s: Sys, i: int)
    requires 0 <= i < |s.nodes|
  {
    && (forall m :: Outstanding(s, i, m) ==> s.nodes[i].asking && Missing(s.proposals, s.nodes[i], End(m)))
    && (forall m, m' :: Outstanding(s, i, m) && Outstanding(s, i, m') ==> m == m')
  }

  ghost predicate KeepsUp(p: Node) {
    p.sequenceID >= |p.chain| + 1 && forall d :: d in p.chain ==> d in p.isReply
  }

  ghost predicate OnceInv(s: Sys, i: int) {
    0 < i < |s.nodes| && Inv(s) && AsksOnce(s, i) && KeepsUp(s.nodes[i])
  }

  // ---------------------------------------------------------------- one reaction

  /** What any reaction but a catch-up leaves of a node. */
  ghost predicate Onward(p: Node, p': Node) {
    && (p.asking ==> p'.asking) && p.isReply <= p'.isReply
    && forall d :: d in p.isReply && d !in p.chain ==> d !in p'.chain
  }

  lemma ReplyOnward(p: Node, me: int, d: Digest, q: int)
    requires d !in p.isReply && me != 0 && KeepsUp(p)
    ensures Onward(p, Reply(p, me, d, q).node) && KeepsUp(Reply(p, me, d, q).node)
    ensures Reply(p, me, d, q).out != {} ==>
              Reply(p, me, d, q).out == {RequestOld(p.sequenceID + 1, q, me)} && !p.asking && Reply(p, me, d, q).node.asking
              && d in Reply(p, me, d, q).node.isReply && d !in Reply(p, me, d, q).node.chain
  {
  }

  /** What a reaction may add to the requests and answers under way. */
  ghost predicate AsksFor(ps: seq<Block>, p: Node, p': Node, me: int, m: Msg, out: set<Msg>) {
    forall x :: x in out && (x.RequestOld? || x.SendOld?) ==>
      || (m.RequestOld? && x.SendOld? && x.receiver == m.sender && x.end == m.end)
      || (m.Commit? && x.RequestOld? && x.sender == me && !p.asking && p'.asking && Missing(ps, p', x.end)
          && forall y :: y in out ==> y == x)
  }

  lemma ReactOnward(ps: seq<Block>, p: Node, me: int, f: nat, m: Msg)
    requires !m.SendOld? && me != 0 && KeepsUp(p) && ProposalsOk(ps) && MsgOk(ps, m)
    ensures var r := React(p, me, f, m); Onward(p, r.node) && KeepsUp(r.node) && AsksFor(ps, p, r.node, me, m, r.out)
  {
    hide Reply, AddBlock, ProposalsOk;
    if m.Commit? && m.digest !in p.isReply {
      var d, q, p1 := m.digest, m.seqId, CountCommit(p, m.digest, m.sender);
      ReplyOnward(p1, me, d, q);
      IsAt(ps, d, q);
    }
  }

  lemma IsAt(ps: seq<Block>, d: Block, q: int)
    requires ProposalsOk(ps) && Known(ps, d, q)
    ensures 1 <= q <= |ps| && ps[q - 1] == d
  {
  }

  /** Blocks up to a height take a chain no further than that height. */
  lemma {:induction false} AddBlocksHeight(ps: seq<Block>, chain: seq<Block>, bs: seq<Block>, end: int)
    requires ProposalsOk(ps) && chain <= ps && |chain| <= end
    requires forall k :: 0 <= k < |bs| ==> bs[k] in ps && Number(bs[k]) <= end
    ensures AddBlocks(chain, bs) <= ps && |AddBlocks(chain, bs)| <= end
    ensures forall d :: d in AddBlocks(chain, bs) ==> d in chain || d in bs
  {
    if bs != [] {
      var init, b := bs[..|bs| - 1], bs[|bs| - 1];
      AddBlocksHeight(ps, chain, init, end);
      AddKeepsPrefix(ps, AddBlocks(chain, init), b);
      HeightOf(ps, AddBlocks(chain, init));
    }
  }

  lemma MissingHeight(ps: seq<Block>, p: Node, end: int)
    requires p.chain <= ps && Missing(ps, p, end)
    ensures |p.chain| <= end
  {
    if |p.chain| >= end {
      assert p.chain[end - 1] == ps[end - 1];
    }
  }

  lemma CatchUpKeepsUp(ps: seq<Block>, p: Node, me: int, f: nat, m: Msg)
    requires m.SendOld? && ProposalsOk(ps) && NodeOk(ps, p) && MsgOk(ps, m) && KeepsUp(p) && p.asking && Missing(ps, p, m.end)
    ensures KeepsUp(React(p, me, f, m).node)
    ensures forall x :: x in React(p, me, f, m).out ==> x.Prepare?
  {
    MissingHeight(ps, p, m.end);
    hide Missing, Indexed, ProposalsOk, AddBlocks;
    if m.end - m.start + 1 == |m.past| {
      AddBlocksHeight(ps, p.chain, m.past, m.end);
    }
  }

  // ---------------------------------------------------------------- the system

  /** The leader's reactions send old blocks only to whom asked for them. */
  lemma LeaderAnswers(ps: seq<Block>, p: Node, f: nat, m: Msg)
    requires ProposalsOk(ps) && NodeOk(ps, p) && LeaderOk(ps, p) && MsgOk(ps, m) && Addressed(m, 0)
    ensures forall x :: x in React(p, 0, f, m).out && (x.RequestOld? || x.SendOld?) ==>
              m.RequestOld? && x.SendOld? && x.receiver == m.sender && x.end == m.end
  {
    LeaderReacts(ps, p, f, m);
    hide Reply, LeaderOk, NodeOk, ProposalsOk;
  }

  lemma OthersSend(p: Node, me: int, f: nat, m: Msg)
    requires me != 0
    ensures forall x :: x in React(p, me, f, m).out ==> !x.SendOld? && (x.RequestOld? ==> x.sender == me)
  {
    AsksAsItself(p, me, f, m);
  }

  lemma Stays(s: Sys, t: Sys, i: int, x: Msg, out: set<Msg>)
    requires Outstanding(t, i, x) && t.net == s.net + out && s.delivered <= t.delivered
    ensures Outstanding(s, i, x) || x in out
  {
  }

  lemma MissingOnward(ps: seq<Block>, qs: seq<Block>, p: Node, p': Node, end: int)
    requires Missing(ps, p, end) && ps <= qs && Onward(p, p')
    ensures Missing(qs, p', end)
  {
  }

  /** Nothing new is asked or answered for node `i`. */
  lemma NothingNew(s: Sys, t: Sys, i: int, out: set<Msg>)
    requires 0 <= i < |s.nodes| && |t.nodes| == |s.nodes| && AsksOnce(s, i)
    requires t.net == s.net + out && s.delivered <= t.delivered && s.proposals <= t.proposals
    requires Onward(s.nodes[i], t.nodes[i])
    requires forall x :: x in out ==> !(x.RequestOld? && x.sender == i) && !(x.SendOld? && x.receiver == i)
    ensures AsksOnce(t, i)
  {
    hide Missing, Onward;
    forall x | Outstanding(t, i, x) ensures Outstanding(s, i, x) && t.nodes[i].asking && Missing(t.proposals, t.nodes[i], End(x)) {
      Stays(s, t, i, x, out);
      MissingOnward(s.proposals, t.proposals, s.nodes[i], t.nodes[i], End(x));
      StillAsking(s.nodes[i], t.nodes[i]);
    }
  }

  lemma StillAsking(p: Node, p': Node)
    requires Onward(p, p') && p.asking
    ensures p'.asking
  {
  }

  lemma OnwardSame(p: Node)
    ensures Onward(p, p)
  {
  }

  lemma ToLeader(s: Sys, m: Msg, i: int)
    requires OnceInv(s, i) && Enabled(s, Deliver(m, 0)) && (m, 0) !in s.delivered
    ensures AsksOnce(Next(s, Deliver(m, 0)), i)
  {
    var t, p, f := Next(s, Deliver(m, 0)), s.nodes[0], Faults(|s.nodes|);
    var out := React(p, 0, f, m).out;
    LeaderAnswers(s.proposals, p, f, m);
    OnwardSame(s.nodes[i]);
    hide React, Inv, Missing, Onward;
    if m.RequestOld? && m.sender == i {
      assert Outstanding(s, i, m);
      forall x | Outstanding(t, i, x) ensures x in out && x.SendOld? && x.end == m.end {
        Stays(s, t, i, x, out);
      }
      OneAnswer(p, f, m);
    } else {
      NothingNew(s, t, i, out);
    }
  }

  lemma OneAnswer(p: Node, f: nat, m: Msg)
    requires m.RequestOld?
    ensures forall x, y :: x in React(p, 0, f, m).out && y in React(p, 0, f, m).out ==> x == y
  {
  }

  lemma CatchesUp(s: Sys, m: Msg, i: int)
    requires OnceInv(s, i) && Enabled(s, Deliver(m, i)) && (m, i) !in s.delivered && m.SendOld?
    ensures var t := Next(s, Deliver(m, i)); |t.nodes| == |s.nodes| && AsksOnce(t, i) && KeepsUp(t.nodes[i])
  {
    hide React, Inv, Missing, NodeOk, MsgOk, ProposalsOk, KeepsUp, AsksOnce;
    var t, p, f, ps := Next(s, Deliver(m, i)), s.nodes[i], Faults(|s.nodes|), s.proposals;
    InvGives(s, i, m);
    OutstandingAsks(s, i, m);
    CatchUpKeepsUp(ps, p, i, f, m);
    NoneLeft(s, t, i, m, React(p, i, f, m).out);
  }

  lemma OutstandingAsks(s: Sys, i: int, m: Msg)
    requires 0 <= i < |s.nodes| && AsksOnce(s, i) && m in s.net && m.SendOld? && m.receiver == i && (m, i) !in s.delivered
    ensures s.nodes[i].asking && Missing(s.proposals, s.nodes[i], m.end)
  {
    hide Missing;
    assert Outstanding(s, i, m);
  }

  lemma NoneLeft(s: Sys, t: Sys, i: int, m: Msg, out: set<Msg>)
    requires 0 <= i < |s.nodes| && |t.nodes| == |s.nodes| && AsksOnce(s, i)
    requires m in s.net && m.SendOld? && m.receiver == i && (m, i) !in s.delivered
    requires t.net == s.net + out && t.delivered == s.delivered + {(m, i)} && forall x :: x in out ==> x.Prepare?
    ensures AsksOnce(t, i)
  {
    hide Missing;
    assert Outstanding(s, i, m);
    forall x ensures !Outstanding(t, i, x) {
      if Outstanding(t, i, x) {
        Stays(s, t, i, x, out);
      }
    }
  }

  lemma InvGives(s: Sys, i: int, m: Msg)
    requires Inv(s) && 0 <= i < |s.nodes| && m in s.net
    ensures NodeOk(s.proposals, s.nodes[i]) && MsgOk(s.proposals, m) && ProposalsOk(s.proposals)
  {
  }

  lemma GoesOn(s: Sys, m: Msg, i: int)
    requires OnceInv(s, i) && Enabled(s, Deliver(m, i)) && !m.SendOld?
    ensures var t := Next(s, Deliver(m, i)); |t.nodes| == |s.nodes| && AsksOnce(t, i) && KeepsUp(t.nodes[i])
  {
    var t, p, f, ps := Next(s, Deliver(m, i)), s.nodes[i], Faults(|s.nodes|), s.proposals;
    var r := React(p, i, f, m);
    InvGives(s, i, m);
    hide React, Inv, NodeOk, MsgOk, ProposalsOk, KeepsUp, AsksOnce, Onward;
    ReactOnward(ps, p, i, f, m);
    OthersSend(p, i, f, m);
    if x :| x in r.out && x.RequestOld? {
      Asked(s, t, i, r.out, x);
    } else {
      NothingNew(s, t, i, r.out);
    }
  }

  lemma ToSelf(s: Sys, m: Msg, i: int)
    requires OnceInv(s, i) && Enabled(s, Deliver(m, i)) && (m, i) !in s.delivered
    ensures var t := Next(s, Deliver(m, i)); |t.nodes| == |s.nodes| && AsksOnce(t, i) && KeepsUp(t.nodes[i])
  {
    hide OnceInv, React, Enabled, AsksOnce, KeepsUp;
    if m.SendOld? {
      CatchesUp(s, m, i);
    } else {
      GoesOn(s, m, i);
    }
  }

  lemma Asked(s: Sys, t: Sys, i: int, out: set<Msg>, x: Msg)
    requires 0 <= i < |s.nodes| && |t.nodes| == |s.nodes| && AsksOnce(s, i) && !s.nodes[i].asking
    requires t.net == s.net + out && s.delivered <= t.delivered && x.RequestOld? && forall y :: y in out ==> y == x
    requires t.nodes[i].asking && Missing(t.proposals, t.nodes[i], x.end)
    ensures AsksOnce(t, i)
  {
    hide Missing;
    forall y | Outstanding(t, i, y) ensures y == x {
      Stays(s, t, i, y, out);
    }
  }

  lemma OnceStep(s: Sys, e: Event, i: int)
    requires OnceInv(s, i) && Enabled(s, e) && (e.Deliver? ==> (e.m, e.to) !in s.delivered)
    ensures OnceInv(Next(s, e), i)
  {
    StepInv(s, e);
    SameNodes(s, e);
    OnwardSame(s.nodes[i]);
    hide Inv, React, AsksOnce, KeepsUp, Onward, OnPropose;
    if e.Propose? {
      ProposeAsks(s.nodes[0], e.content);
      NothingNew(s, Next(s, e), i, OnPropose(s.nodes[0], e.content).out);
    } else if e.to == 0 {
      ToLeader(s, e.m, i);
    } else if e.to == i {
      ToSelf(s, e.m, i);
    } else {
      OthersSend(s.nodes[e.to], e.to, Faults(|s.nodes|), e.m);
      NothingNew(s, Next(s, e), i, React(s.nodes[e.to], e.to, Faults(|s.nodes|), e.m).out);
    }
  }

  lemma ProposeAsks(p: Node, content: int)
    ensures forall x :: x in OnPropose(p, content).out ==> x.PrePrepare?
  {
  }

  lemma {:induction false} OnceRun(s: Sys, es: seq<Event>, t: Sys, i: int)
    requires OnceInv(s, i) && Run(s, es, t, true)
    ensures OnceInv(t, i)
    decreases |es|
  {
    hide OnceInv, Enabled, Next;
    if es != [] {
      OnceStep(s, es[0], i);
      OnceRun(Next(s, es[0]), es[1..], t, i);
    }
  }

  /** In every run in which no message is delivered twice, every node's sequence id is past its height, however
      often it caught up, so that it prepares the next block as soon as it hears of it. */
  lemma NeverBehind(n: nat, es: seq<Event>, t: Sys, i: int)
    requires Run(Init(n), es, t, true) && 0 < i < n
    ensures |t.nodes| == n && t.nodes[i].sequenceID >= |t.nodes[i].chain| + 1
    ensures AnswersNext(t, i)
  {
    InitInv(n);
    assert OnceInv(Init(n), i);
    OnceRun(Init(n), es, t, i);
    NodesStay(Init(n), es, t, true);
    hide Run, AnswersNext;
    PreparesInTime(t, i);
  }

  // ---------------------------------------------------------------- what catching up brings

  /** The leader's index of its own proposals. */
  ghost predicate Indexes(s: Sys) {
    |s.nodes| > 0 && forall h :: 1 <= h <= |s.proposals| ==>
      h in s.nodes[0].height2Digest && s.nodes[0].height2Digest[h] == s.proposals[h - 1]
  }

  lemma IndexesStep(s: Sys, e: Event)
    requires Inv(s) && Indexes(s) && Enabled(s, e)
    ensures Indexes(Next(s, e))
  {
    if e.Deliver? && e.to == 0 {
      assert MsgOk(s.proposals, e.m);
      LeaderKeepsIndex(s.nodes[0], Faults(|s.nodes|), e.m);
      hide React, Inv;
    } else if e.Propose? {
      HeightOf(s.proposals, s.nodes[0].chain);
    }
  }

  lemma LeaderKeepsIndex(p: Node, f: nat, m: Msg)
    requires Addressed(m, 0) && !m.SendOld?
    ensures React(p, 0, f, m).node.height2Digest == p.height2Digest
  {
    hide AddBlock, Votes, Reply, Gather;
    if m.Commit? {
      ReplyKeeps(CountCommit(p, m.digest, m.sender), 0, m.digest, m.seqId);
    }
  }

  lemma {:induction false} IndexesRun(s: Sys, es: seq<Event>, t: Sys)
    requires Inv(s) && Indexes(s) && Run(s, es, t, false)
    ensures Inv(t) && Indexes(t)
    decreases |es|
  {
    hide Inv, Indexes, Enabled, Next;
    if es != [] {
      StepInv(s, es[0]);
      IndexesStep(s, es[0]);
      IndexesRun(Next(s, es[0]), es[1..], t);
    }
  }

  function Least(a: int, b: int): int {
    if a < b then a else b
  }

  ghost predicate HasAll(ps: seq<Block>, p: Node) {
    forall h :: 1 <= h <= |ps| ==> h in p.height2Digest && p.height2Digest[h] == ps[h - 1] && ps[h - 1] in p.requestPool
  }

  lemma {:induction false} GatherAll(ps: seq<Block>, p: Node, start: int, end: int)
    requires HasAll(ps, p) && ProposalsOk(ps) && NodeOk(ps, p) && 1 <= start <= |ps| + 1 && start <= end + 1
    ensures Gather(p, start, end) == ps[start - 1..Least(end, |ps|)]
    decreases end - start
  {
    hide ProposalsOk, NodeOk;
    if start <= end && start <= |ps| {
      GatherAll(ps, p, start + 1, end);
      assert ps[start - 1..Least(end, |ps|)] == [ps[start - 1]] + ps[start..Least(end, |ps|)];
    } else if start <= end {
      NotIndexed(ps, p, start);
    }
  }

  lemma NotIndexed(ps: seq<Block>, p: Node, h: int)
    requires ProposalsOk(ps) && NodeOk(ps, p) && h > |ps|
    ensures h !in p.height2Digest
  {
  }

  /** In every run, the leader's answer to a request for old blocks holds all of its proposals in that range. */
  lemma LeaderSendsAll(n: nat, es: seq<Event>, s: Sys, start: int, end: int, i: int)
    requires n > 0 && Run(Init(n), es, s, false) && 1 <= start <= |s.proposals| + 1 && start <= end + 1
    ensures |s.nodes| > 0
    ensures React(s.nodes[0], 0, Faults(n), RequestOld(start, end, i)).out
         == {SendOld(start, end, s.proposals[start - 1..Least(end, |s.proposals|)], i)}
  {
    InitInv(n);
    IndexesRun(Init(n), es, s);
    assert HasAll(s.proposals, s.nodes[0]);
    assert NodeOk(s.proposals, s.nodes[0]);
    hide Inv, HasAll, Indexes, ProposalsOk, NodeOk;
    GatherAll(s.proposals, s.nodes[0], start, end);
  }

  /** The chain after offering it the proposals of a range. */
  function Extended(ps: seq<Block>, chain: seq<Block>, start: int, end: int): seq<Block>
    requires 0 <= end <= |ps|
  {
    if |chain| < start - 1 || end <= |chain| then chain else ps[..end]
  }

  lemma {:induction false} AddRange(ps: seq<Block>, chain: seq<Block>, start: int, end: int)
    requires ProposalsOk(ps) && chain <= ps && 1 <= start <= end + 1 <= |ps| + 1
    ensures AddBlocks(chain, ps[start - 1..end]) == Extended(ps, chain, start, end)
    decreases end
  {
    hide ProposalsOk, AddBlock, Extended;
    if start <= end {
      AddRange(ps, chain, start, end - 1);
      SplitLast(ps, start, end);
      ExtendOne(ps, chain, start, end);
    } else {
      assert ps[start - 1..end] == [];
      ExtendNone(ps, chain, start, end);
    }
  }

  lemma SplitLast(ps: seq<Block>, start: int, end: int)
    requires 1 <= start <= end <= |ps|
    ensures var past := ps[start - 1..end]; past != [] && past[..|past| - 1] == ps[start - 1..end - 1] && past[|past| - 1] == ps[end - 1]
  {
  }

  lemma ExtendNone(ps: seq<Block>, chain: seq<Block>, start: int, end: int)
    requires chain <= ps && 1 <= start == end + 1 <= |ps| + 1
    ensures Extended(ps, chain, start, end) == chain
  {
  }

  lemma ExtendOne(ps: seq<Block>, chain: seq<Block>, start: int, end: int)
    requires ProposalsOk(ps) && chain <= ps && 1 <= start <= end <= |ps|
    ensures AddBlock(Extended(ps, chain, start, end - 1), ps[end - 1]) == Extended(ps, chain, start, end)
  {
    AddOne(ps, Extended(ps, chain, start, end - 1), end);
    hide ProposalsOk, AddBlock;
  }

  lemma AddOne(ps: seq<Block>, chain: seq<Block>, end: int)
    requires ProposalsOk(ps) && chain <= ps && 1 <= end <= |ps|
    ensures AddBlock(chain, ps[end - 1]) == if |chain| == end - 1 then ps[..end] else chain
    ensures chain == ps[..|chain|]
  {
    HeightOf(ps, chain);
    assert ps[..end] == ps[..end - 1] + [ps[end - 1]];
  }

  /** Catching up with a full answer takes the chain to the end of the range if and only if it already reached the
      block before the range; otherwise it adds nothing.  Since a node asks from one past its sequence id, which
      is past its height, a node that adds no block meanwhile gains nothing. */
  lemma CatchUpExactly(ps: seq<Block>, p: Node, me: int, f: nat, start: int, end: int)
    requires ProposalsOk(ps) && p.chain <= ps && 1 <= start <= end + 1 <= |ps| + 1 && |p.chain| < end
    ensures var p' := React(p, me, f, SendOld(start, end, ps[start - 1..end], me)).node;
      && p'.sequenceID == end + 1
      && p'.chain == (if |p.chain| >= start - 1 then ps[..end] else p.chain)
      && (start > p.sequenceID >= |p.chain| + 1 ==> p'.chain == p.chain)
  {
    AddRange(ps, p.chain, start, end);
    hide AddBlocks, Indexed, Resume, ProposalsOk;
  }

  /** A node that has caught up and already holds the pre-prepare for the next block prepares it at once. */
  lemma ResumesNext(ps: seq<Block>, p: Node, me: int, f: nat, m: Msg)
    requires m.SendOld? && ProposalsOk(ps) && m.end + 1 <= |ps|
    requires var p' := React(p, me, f, m).node;
      p'.chain <= ps && |p'.chain| == m.end && m.end + 1 in p'.height2Digest
      && p'.height2Digest[m.end + 1] == ps[m.end] && ps[m.end] in p'.requestPool
    ensures React(p, me, f, m).out == {Prepare(ps[m.end], m.end + 1, me)}
  {
    NextIsValid(ps, React(p, me, f, m).node.chain);
    hide AddBlocks, Indexed, ProposalsOk;
  }
}
