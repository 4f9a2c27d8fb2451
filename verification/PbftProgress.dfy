/** Where a node's sequence id stands, and that a node which keeps up prepares the next block
    (consensus_shard/pbft_all/messageHandle.go). */
module PbftProgress {
  import opened PbftSpec
  import opened PbftSystem

  // ---------------------------------------------------------------- what the sequence id counts

  function One(yes: bool): int {
    if yes then 1 else 0
  }

  /** How far the sequence id is ahead of the requests a node has answered from its pool: all it has answered but
      the one it asks the leader about, and the one that stopped it. */
  function Ahead(p: Node): int {
    p.sequenceID - (|p.isReply| - One(p.asking) - One(p.halted))
  }

  predicate CatchUp(e: Event, i: int) {
    e.Deliver? && e.to == i && e.m.SendOld?
  }

  ghost predicate NoCatchUp(es: seq<Event>, i: int) {
    forall k :: 0 <= k < |es| ==> !CatchUp(es[k], i)
  }

  lemma ReplyCounts(p: Node, me: int, d: Digest, q: int)
    requires d !in p.isReply && !p.halted && (me == 0 ==> p.locked)
    ensures Ahead(Reply(p, me, d, q).node) == Ahead(p)
    ensures var p' := Reply(p, me, d, q).node; p'.sequenceID - |p'.chain| >= p.sequenceID - |p.chain|
  {
    assert |p.isReply + {d}| == |p.isReply| + 1;
  }

  lemma ReactCounts(p: Node, me: int, f: nat, m: Msg)
    requires !m.SendOld? && !p.halted && (me == 0 && m.Commit? && m.digest !in p.isReply ==> p.locked)
    ensures Ahead(React(p, me, f, m).node) == Ahead(p)
    ensures var p' := React(p, me, f, m).node; p'.sequenceID - |p'.chain| >= p.sequenceID - |p.chain|
  {
    hide Reply;
    if m.Commit? && m.digest !in p.isReply {
      ReplyCounts(CountCommit(p, m.digest, m.sender), me, m.digest, m.seqId);
    }
  }

  /** At the leader a commit that has not been answered is for the block it holds the lock for. */
  lemma LeaderHolds(s: Sys, m: Msg)
    requires Inv(s) && m in s.net && m.Commit? && m.digest !in s.nodes[0].isReply
    ensures s.nodes[0].locked
  {
    assert MsgOk(s.proposals, m) && NodeOk(s.proposals, s.nodes[0]);
    LastProposal(s.proposals, s.nodes[0], m.digest);
  }

  lemma StepCounts(s: Sys, e: Event, i: int)
    requires Inv(s) && Enabled(s, e) && 0 <= i < |s.nodes| && !CatchUp(e, i)
    ensures var p, p' := s.nodes[i], Next(s, e).nodes[i];
      Ahead(p') == Ahead(p) && p'.sequenceID - |p'.chain| >= p.sequenceID - |p.chain|
  {
    hide Inv, React, Ahead;
    if e.Deliver? && e.to == i {
      if i == 0 && e.m.Commit? && e.m.digest !in s.nodes[0].isReply {
        LeaderHolds(s, e.m);
      }
      ReactCounts(s.nodes[i], i, Faults(|s.nodes|), e.m);
    } else if e.Propose? {
      ProposeCounts(s.nodes[0], e.content);
    }
  }

  lemma ProposeCounts(p: Node, content: int)
    ensures var p' := OnPropose(p, content).node;
      Ahead(p') == Ahead(p) && p'.sequenceID == p.sequenceID && p'.chain == p.chain
  {
  }

  /** Along any part of a run in which a node receives no catch-up, its sequence id moves by one for each request
      it answers from its pool, and by nothing else; it never falls behind its chain. */
  lemma {:induction false} IdCountsReplies(s: Sys, es: seq<Event>, t: Sys, i: int)
    requires Inv(s) && Run(s, es, t, false) && 0 <= i < |s.nodes| && NoCatchUp(es, i)
    ensures |t.nodes| == |s.nodes| && Ahead(t.nodes[i]) == Ahead(s.nodes[i])
    ensures t.nodes[i].sequenceID - |t.nodes[i].chain| >= s.nodes[i].sequenceID - |s.nodes[i].chain|
    decreases |es|
  {
    hide Inv, Next, Enabled, Ahead, CatchUp;
    if es != [] {
      assert !CatchUp(es[0], i);
      StepInv(s, es[0]);
      StepCounts(s, es[0], i);
      SameNodes(s, es[0]);
      IdCountsReplies(Next(s, es[0]), es[1..], t, i);
    }
  }

  /** In every run, a node that never needed to catch up has sequence id one more than the number of blocks it
      answered from its pool, which is at least one more than its height. */
  lemma IdFromStart(n: nat, es: seq<Event>, t: Sys, i: int)
    requires n > 0 && Run(Init(n), es, t, false) && 0 <= i < n && NoCatchUp(es, i)
    ensures |t.nodes| == n
    ensures t.nodes[i].sequenceID == 1 + |t.nodes[i].isReply| - One(t.nodes[i].asking) - One(t.nodes[i].halted)
    ensures t.nodes[i].sequenceID >= |t.nodes[i].chain| + 1
  {
    InitInv(n);
    IdCountsReplies(Init(n), es, t, i);
  }

  /** After catching up to `end` the id is one past it and moves on from there in the same way; it is past the
      height from then on if and only if the chain is not longer than `end` now. */
  lemma IdAfterCatchUp(n: nat, es: seq<Event>, s: Sys, m: Msg, i: int, more: seq<Event>, t: Sys)
    requires n > 0 && Run(Init(n), es, s, false) && m.SendOld? && Enabled(s, Deliver(m, i))
    requires var u := Next(s, Deliver(m, i)); Run(u, more, t, false) && NoCatchUp(more, i)
    ensures var u := Next(s, Deliver(m, i));
      && 0 <= i < |u.nodes| && |t.nodes| == |u.nodes| && u.nodes[i].sequenceID == m.end + 1
      && t.nodes[i].sequenceID - (|t.nodes[i].isReply| - One(t.nodes[i].asking) - One(t.nodes[i].halted))
         == m.end + 1 - (|u.nodes[i].isReply| - One(u.nodes[i].asking) - One(u.nodes[i].halted))
      && (u.nodes[i].sequenceID >= |u.nodes[i].chain| + 1 <==> |u.nodes[i].chain| <= m.end)
      && (|u.nodes[i].chain| <= m.end ==> t.nodes[i].sequenceID >= |t.nodes[i].chain| + 1)
  {
    InitInv(n);
    RunInv(Init(n), es, s, false);
    StepInv(s, Deliver(m, i));
    var u := Next(s, Deliver(m, i));
    CaughtUpId(s.nodes[i], i, m);
    hide Inv, Run, React, Enabled;
    IdCountsReplies(u, more, t, i);
  }

  lemma CaughtUpId(p: Node, me: int, m: Msg)
    requires m.SendOld?
    ensures React(p, me, 0, m).node.sequenceID == m.end + 1
    ensures forall f: nat :: React(p, me, f, m) == React(p, me, 0, m)
  {
    hide AddBlocks, Indexed, Resume;
  }

  // ---------------------------------------------------------------- preparing in time

  /** The next proposal is valid on this chain, and its number is the next height. */
  lemma NextIsValid(ps: seq<Block>, chain: seq<Block>)
    requires ProposalsOk(ps) && chain <= ps && |chain| < |ps|
    ensures IsValidBlock(chain, ps[|chain|]) && Number(ps[|chain|]) == |chain| + 1
  {
    assert ps[..|chain|] == chain;
  }

  /** Whenever a pre-prepare of the proposal that comes next on its chain reaches node `i`, it answers with its
      prepare and nothing else. */
  ghost predicate AnswersNext(s: Sys, i: int)
    requires 0 <= i < |s.nodes|
  {
    |s.nodes[i].chain| < |s.proposals| ==>
      var b := s.proposals[|s.nodes[i].chain|];
      forall q :: Enabled(s, Deliver(PrePrepare(b, q), i)) ==>
        React(s.nodes[i], i, Faults(|s.nodes|), PrePrepare(b, q)).out == {Prepare(b, q, i)}
  }

  lemma PreparesInTime(s: Sys, i: int)
    requires Inv(s) && 0 <= i < |s.nodes| && s.nodes[i].sequenceID >= |s.nodes[i].chain| + 1
    ensures AnswersNext(s, i)
  {
    var p, ps := s.nodes[i], s.proposals;
    assert NodeOk(ps, p);
    if |p.chain| < |ps| {
      var b := ps[|p.chain|];
      NextIsValid(ps, p.chain);
      hide ProposalsOk, NodeOk, IsValidBlock;
      forall q | Enabled(s, Deliver(PrePrepare(b, q), i))
        ensures React(p, i, Faults(|s.nodes|), PrePrepare(b, q)).out == {Prepare(b, q, i)}
      {
        assert MsgOk(ps, PrePrepare(b, q));
      }
    }
  }

  /** In every run, a node that never needed to catch up prepares the next block as soon as it hears of it. */
  lemma NextIsPrepared(n: nat, es: seq<Event>, s: Sys, i: int)
    requires n > 0 && Run(Init(n), es, s, false) && 0 <= i < |s.nodes| && NoCatchUp(es, i)
    ensures AnswersNext(s, i)
  {
    InitInv(n);
    RunInv(Init(n), es, s, false);
    NodesStay(Init(n), es, s, false);
    IdFromStart(n, es, s, i);
    hide Inv, Run, AnswersNext;
    PreparesInTime(s, i);
  }
}
