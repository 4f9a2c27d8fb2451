/** What a Prepare and a broadcast Commit stand for. */
module PbftPrepares {
  import opened PbftSpec
  import opened PbftSystem
  import opened PbftQuorums

  // ---------------------------------------------------------------- a prepare

  /** Whoever prepared a block is not the leader and holds every block below it. */
  ghost predicate PrepareMeans(nodes: seq<Node>, m: Msg) {
    m.Prepare? ==> 0 < m.sender < |nodes| && |nodes[m.sender].chain| >= m.seqId - 1
  }

  ghost predicate PreparesMean(s: Sys) {
    forall m :: m in s.net ==> PrepareMeans(s.nodes, m)
  }

  /** Chains only grow. */
  lemma ChainGrows(p: Node, me: int, f: nat, m: Msg)
    ensures p.chain <= React(p, me, f, m).node.chain
  {
    match m
    case PrePrepare(_, _) =>
    case Prepare(_, _, _) =>
    case Commit(d, q, x) =>
      ReplyKeeps(CountCommit(p, d, x), me, d, q);
      hide Reply, Votes;
    case RequestOld(_, _, _) =>
    case SendOld(_, _, past, _) =>
      AddBlocksGrows(p.chain, past);
      hide AddBlocks, Indexed, Resume;
  }

  lemma {:induction false} AddBlocksGrows(chain: seq<Block>, bs: seq<Block>)
    ensures chain <= AddBlocks(chain, bs)
  {
    if bs != [] {
      AddBlocksGrows(chain, bs[..|bs| - 1]);
    }
  }

  /** A valid block on top of a prefix of the proposals is the next proposal. */
  lemma ValidIsNext(ps: seq<Block>, chain: seq<Block>, d: Block)
    requires ProposalsOk(ps) && chain <= ps && d in ps && IsValidBlock(chain, d)
    ensures Number(d) == |chain| + 1
  {
    var j :| 0 <= j < |ps| && ps[j] == d;
    HeightOf(ps, chain);
    HeightOf(ps, ps[..j]);
  }

  /** A reaction prepares only the next block of the reacting node's chain. */
  lemma PreparedIsNext(ps: seq<Block>, p: Node, me: int, f: nat, m: Msg, x: Msg)
    requires ProposalsOk(ps) && NodeOk(ps, p) && MsgOk(ps, m) && x in React(p, me, f, m).out && x.Prepare?
    ensures x.sender == me && x.seqId == |React(p, me, f, m).node.chain| + 1 && (m.PrePrepare? || m.SendOld?)
  {
    ReactOk(ps, p, me, f, m);
    SentKnown(ps, p, me, f, m, x);
    match m
    case PrePrepare(r, q) => ValidIsNext(ps, p.chain, r);
    case SendOld(start, end, past, _) =>
      var p1 := CaughtUp(p, start, end, past);
      ValidIsNext(ps, p1.chain, x.digest);
  }

  lemma SentKnown(ps: seq<Block>, p: Node, me: int, f: nat, m: Msg, x: Msg)
    requires ProposalsOk(ps) && NodeOk(ps, p) && MsgOk(ps, m) && x in React(p, me, f, m).out && x.Prepare?
    ensures Known(ps, x.digest, x.seqId)
  {
    if m.SendOld? {
      CaughtUpOk(ps, p, m.start, m.end, m.past);
      hide CaughtUp, ProposalsOk;
    }
  }

  lemma PrepareStep(s: Sys, e: Event)
    requires Inv(s) && PreparesMean(s) && Enabled(s, e)
    ensures PreparesMean(Next(s, e))
  {
    if e.Deliver? {
      var p, f, s' := s.nodes[e.to], Faults(|s.nodes|), Next(s, e);
      ChainGrows(p, e.to, f, e.m);
      assert MsgOk(s.proposals, e.m) && NodeOk(s.proposals, p);
      hide React, Inv, MsgOk, NodeOk;
      forall x | x in s'.net ensures PrepareMeans(s'.nodes, x) {
        if x in s.net {
          assert PrepareMeans(s.nodes, x);
        } else if x.Prepare? {
          NewPrepare(s, e.m, e.to, x);
        }
      }
    }
  }

  lemma NewPrepare(s: Sys, m: Msg, to: int, x: Msg)
    requires Inv(s) && Enabled(s, Deliver(m, to)) && x.Prepare? && x in React(s.nodes[to], to, Faults(|s.nodes|), m).out
    ensures x.sender == to != 0 && x.seqId == |React(s.nodes[to], to, Faults(|s.nodes|), m).node.chain| + 1
  {
    assert MsgOk(s.proposals, m) && NodeOk(s.proposals, s.nodes[to]);
    hide React, Inv, NodeOk;
    PreparedIsNext(s.proposals, s.nodes[to], to, Faults(|s.nodes|), m, x);
  }

  // ---------------------------------------------------------------- a commit

  /** A prepare counts if its digest is known and its sequence id has come. */
  predicate Counts(p: Node, m: Msg) {
    m.Prepare? && m.digest in p.requestPool && p.sequenceID >= m.seqId
  }

  /** Each counted prepare was sent by another node. */
  ghost predicate ToldPrepares(net: set<Msg>, i: int, cnt: map<Digest, seq<int>>) {
    forall d :: d in cnt ==> forall x :: x in cnt[d] ==> x != i && Prepare(d, Number(d), x) in net
  }

  ghost predicate AllToldPrepares(s: Sys) {
    forall i :: 0 <= i < |s.nodes| ==> ToldPrepares(s.net, i, s.nodes[i].cntPrepareConfirm)
  }

  /** A commit is broadcast with the prepare that meets the threshold. */
  ghost predicate Backed(i: int, f: nat, p: Node) {
    && (forall d :: d in p.isCommitBroadcast ==> |Votes(p.cntPrepareConfirm, d)| >= Deciding(PreparesNeeded(i, f)))
    && (forall d :: d in p.cntPrepareConfirm && d !in p.isCommitBroadcast ==>
          |p.cntPrepareConfirm[d]| < PreparesNeeded(i, f))
  }

  ghost predicate AllBacked(s: Sys) {
    forall i :: 0 <= i < |s.nodes| ==> Backed(i, Faults(|s.nodes|), s.nodes[i])
  }

  ghost predicate PrepInv(s: Sys) {
    Inv(s) && PreparesMean(s) && AllToldPrepares(s) && AllBacked(s)
  }

  lemma PreparesAfter(p: Node, me: int, f: nat, m: Msg)
    ensures React(p, me, f, m).node.cntPrepareConfirm
         == if Counts(p, m) then p.cntPrepareConfirm[m.digest := Votes(p.cntPrepareConfirm, m.digest) + [m.sender]] else p.cntPrepareConfirm
  {
    hide OnCommit, AddBlock, Votes, Resume, Gather, Indexed, AddBlocks;
    if m.Commit? {
      CommitKeepsPrepares(p, me, f, m.digest, m.seqId, m.sender);
    }
  }

  lemma CommitKeepsPrepares(p: Node, me: int, f: nat, d: Digest, q: int, x: int)
    ensures OnCommit(p, me, f, d, q, x).node.cntPrepareConfirm == p.cntPrepareConfirm
    ensures OnCommit(p, me, f, d, q, x).node.isCommitBroadcast == p.isCommitBroadcast
  {
    ReplyKeepsVotes(CountCommit(p, d, x), me, d, q);
    hide Reply, Votes;
  }

  /** A commit is broadcast exactly with the counted prepare that brings the number to the threshold. */
  lemma BroadcastsAfter(p: Node, me: int, f: nat, m: Msg)
    ensures forall d :: d in React(p, me, f, m).node.isCommitBroadcast <==>
              d in p.isCommitBroadcast
              || (Counts(p, m) && d == m.digest && |Votes(p.cntPrepareConfirm, d)| + 1 >= PreparesNeeded(me, f))
  {
    hide OnCommit, AddBlock, Resume, Gather, Indexed, AddBlocks;
    if m.Commit? {
      CommitKeepsPrepares(p, me, f, m.digest, m.seqId, m.sender);
    }
  }

  lemma BackedAfter(p: Node, me: int, f: nat, m: Msg)
    requires Backed(me, f, p)
    ensures Backed(me, f, React(p, me, f, m).node)
  {
    PreparesAfter(p, me, f, m);
    BroadcastsAfter(p, me, f, m);
    hide React, Counts, PreparesNeeded;
  }

  lemma ToldPreparesStep(s: Sys, e: Event)
    requires Inv(s) && AllToldPrepares(s) && Enabled(s, e)
    ensures AllToldPrepares(Next(s, e))
  {
    var s' := Next(s, e);
    if e.Deliver? {
      PreparesAfter(s.nodes[e.to], e.to, Faults(|s.nodes|), e.m);
      assert MsgOk(s.proposals, e.m);
    }
    hide ToldPrepares, Inv, React;
    forall i | 0 <= i < |s'.nodes| ensures ToldPrepares(s'.net, i, s'.nodes[i].cntPrepareConfirm) {
      assert ToldPrepares(s.net, i, s.nodes[i].cntPrepareConfirm);
      if e.Deliver? && i == e.to && Counts(s.nodes[i], e.m) {
        ToldOnePrepare(s.net, s'.net, i, s.nodes[i].cntPrepareConfirm, e.m);
      } else {
        ToldPreparesStill(s.net, s'.net, i, s.nodes[i].cntPrepareConfirm);
      }
    }
  }

  lemma ToldOnePrepare(net: set<Msg>, net': set<Msg>, i: int, cnt: map<Digest, seq<int>>, m: Msg)
    requires ToldPrepares(net, i, cnt) && net <= net' && m in net && m.Prepare? && m.seqId == Number(m.digest) && m.sender != i
    ensures ToldPrepares(net', i, cnt[m.digest := Votes(cnt, m.digest) + [m.sender]])
  {
    assert m == Prepare(m.digest, Number(m.digest), m.sender);
    hide Number;
  }

  lemma ToldPreparesStill(net: set<Msg>, net': set<Msg>, i: int, cnt: map<Digest, seq<int>>)
    requires ToldPrepares(net, i, cnt) && net <= net'
    ensures ToldPrepares(net', i, cnt)
  {
    hide Number;
  }

  lemma BackedStep(s: Sys, e: Event)
    requires AllBacked(s) && Enabled(s, e)
    ensures AllBacked(Next(s, e))
  {
    var s' := Next(s, e);
    if e.Deliver? {
      assert Backed(e.to, Faults(|s.nodes|), s.nodes[e.to]);
      BackedAfter(s.nodes[e.to], e.to, Faults(|s.nodes|), e.m);
    } else {
      assert Backed(0, Faults(|s.nodes|), s.nodes[0]);
    }
    hide React, Faults;
    forall i | 0 <= i < |s'.nodes| ensures Backed(i, Faults(|s'.nodes|), s'.nodes[i]) {
      assert Backed(i, Faults(|s.nodes|), s.nodes[i]);
    }
  }

  lemma PrepStep(s: Sys, e: Event)
    requires PrepInv(s) && Enabled(s, e)
    ensures PrepInv(Next(s, e))
  {
    StepInv(s, e);
    PrepareStep(s, e);
    BackedStep(s, e);
    ToldPreparesStep(s, e);
    hide Inv, PreparesMean, AllToldPrepares, AllBacked, Next;
  }

  lemma {:induction false} PrepRun(s: Sys, es: seq<Event>, t: Sys, once: bool)
    requires PrepInv(s) && Run(s, es, t, once)
    ensures PrepInv(t)
    decreases |es|
  {
    hide PrepInv, Enabled, Next;
    if es != [] {
      PrepStep(s, es[0]);
      PrepRun(Next(s, es[0]), es[1..], t, once);
    }
  }

  lemma InitPrep(n: nat)
    requires n > 0
    ensures PrepInv(Init(n))
  {
    InitInv(n);
  }

  /** `voters` prepared `d`: none is the leader or node `i`, and each holds every block below it. */
  ghost predicate Prepared(s: Sys, i: int, d: Digest, voters: set<int>) {
    forall x :: x in voters ==>
      x != i && 0 < x < |s.nodes| && Prepare(d, Number(d), x) in s.net && |s.nodes[x].chain| >= Number(d) - 1
  }

  lemma VotersPrepared(s: Sys, i: int, d: Digest)
    requires PrepInv(s) && 0 <= i < |s.nodes|
    ensures Prepared(s, i, d, SenderSet(Votes(s.nodes[i].cntPrepareConfirm, d)))
  {
    var votes := Votes(s.nodes[i].cntPrepareConfirm, d);
    assert ToldPrepares(s.net, i, s.nodes[i].cntPrepareConfirm);
    hide Inv, AllBacked;
    forall x | x in votes
      ensures x != i && 0 < x < |s.nodes| && Prepare(d, Number(d), x) in s.net && |s.nodes[x].chain| >= Number(d) - 1
    {
      assert Prepare(d, Number(d), x) in s.net;
      assert PrepareMeans(s.nodes, Prepare(d, Number(d), x));
    }
  }

  /** The prepares on which node `i` broadcasts a commit come from enough distinct nodes. */
  ghost predicate PreparedByEnough(s: Sys, i: int, d: Digest, votes: seq<int>)
    requires |s.nodes| > 0
  {
    |SenderSet(votes)| >= PreparesNeeded(i, Faults(|s.nodes|)) && Prepared(s, i, d, SenderSet(votes))
  }

  /** In every run, whatever is lost, duplicated or reordered: when node `i` broadcasts a commit, the prepares
      it counted come from 2f distinct other nodes (one less if it is not the leader), none of them the leader
      and each holding every block below, if and only if no node's prepare was counted twice. */
  lemma BroadcastExactly(n: nat, es: seq<Event>, s: Sys, m: Msg, i: int)
    requires n > 0 && Run(Init(n), es, s, false) && Enabled(s, Deliver(m, i)) && m.Prepare?
    requires m.digest !in s.nodes[i].isCommitBroadcast && m.digest in Next(s, Deliver(m, i)).nodes[i].isCommitBroadcast
    ensures var (t, votes) := (Next(s, Deliver(m, i)), Votes(Next(s, Deliver(m, i)).nodes[i].cntPrepareConfirm, m.digest));
      && |votes| == Deciding(PreparesNeeded(i, Faults(|s.nodes|)))
      && (PreparedByEnough(t, i, m.digest, votes) <==> DistinctSenders(votes))
  {
    var t, p, f := Next(s, Deliver(m, i)), s.nodes[i], Faults(|s.nodes|);
    InitPrep(n);
    PrepRun(Init(n), es, s, false);
    PrepStep(s, Deliver(m, i));
    assert Backed(i, f, p) && Backed(i, f, t.nodes[i]);
    PreparesAfter(p, i, f, m);
    BroadcastsAfter(p, i, f, m);
    hide React, PrepInv, Run;
    VotersPrepared(t, i, m.digest);
    DecidedIff(Votes(t.nodes[i].cntPrepareConfirm, m.digest), PreparesNeeded(i, f));
  }

  /** The same looked at later: the prepares counted first decide. */
  lemma BackedExactly(n: nat, es: seq<Event>, t: Sys, i: int, d: Digest)
    requires n > 0 && Run(Init(n), es, t, false) && 0 <= i < |t.nodes| && d in t.nodes[i].isCommitBroadcast
    ensures var (votes, k) := (Votes(t.nodes[i].cntPrepareConfirm, d), Deciding(PreparesNeeded(i, Faults(|t.nodes|))));
      && |votes| >= k
      && (PreparedByEnough(t, i, d, votes[..k]) <==> DistinctSenders(votes[..k]))
  {
    InitPrep(n);
    PrepRun(Init(n), es, t, false);
    assert Backed(i, Faults(|t.nodes|), t.nodes[i]);
    var votes, k := Votes(t.nodes[i].cntPrepareConfirm, d), Deciding(PreparesNeeded(i, Faults(|t.nodes|)));
    assert |votes| >= k;
    VotersPrepared(t, i, d);
    hide PrepInv, Run, Backed, Votes;
    DistinctCount(votes[..k]);
    assert forall x :: x in SenderSet(votes[..k]) ==> x in SenderSet(votes);
    assert Prepared(t, i, d, SenderSet(votes[..k]));
    DecidedIff(votes[..k], PreparesNeeded(i, Faults(|t.nodes|)));
  }

  /** The deciding votes are enough exactly if no sender is among them twice. */
  lemma DecidedIff(votes: seq<int>, needed: int)
    requires |votes| == Deciding(needed)
    ensures |SenderSet(votes)| >= needed <==> DistinctSenders(votes)
  {
    DistinctCount(votes);
    if needed < 1 {
      assert DistinctSenders(votes);
    }
  }

  // ---------------------------------------------------------------- no prepare delivered twice

  /** A prepare that does not count may be left out. */
  lemma LeaveOut(votes: seq<int>, x: int, tail: seq<int>)
    requires DistinctSenders(votes + ([x] + tail))
    ensures DistinctSenders(votes + tail)
  {
    var all, some := votes + ([x] + tail), votes + tail;
    forall p, q | 0 <= p < q < |some| ensures some[p] != some[q] {
      var p', q' := if p < |votes| then p else p + 1, if q < |votes| then q else q + 1;
      assert some[p] == all[p'] && some[q] == all[q'];
    }
  }

  /** What is counted is part of what is delivered. */
  lemma {:induction false} CountedOnce(s: Sys, es: seq<Event>, t: Sys, i: int, d: Digest)
    requires Run(s, es, t, false) && 0 <= i < |s.nodes|
    requires DistinctSenders(Votes(s.nodes[i].cntPrepareConfirm, d) + SendersOf(es, true, i, d))
    ensures |t.nodes| == |s.nodes| && DistinctSenders(Votes(t.nodes[i].cntPrepareConfirm, d))
    decreases |es|
  {
    var votes := Votes(s.nodes[i].cntPrepareConfirm, d);
    if es == [] {
      assert votes + [] == votes;
    } else {
      OnePrepare(s, es[0], i, d);
      CountedTail(s, es, i, d);
      hide Next, Enabled, VoteTo, SendersOf;
      CountedOnce(Next(s, es[0]), es[1..], t, i, d);
    }
  }

  lemma CountedTail(s: Sys, es: seq<Event>, i: int, d: Digest)
    requires es != [] && Enabled(s, es[0]) && 0 <= i < |s.nodes| == |Next(s, es[0]).nodes|
    requires DistinctSenders(Votes(s.nodes[i].cntPrepareConfirm, d) + SendersOf(es, true, i, d))
    requires Votes(Next(s, es[0]).nodes[i].cntPrepareConfirm, d) == Votes(s.nodes[i].cntPrepareConfirm, d)
             || (VoteTo(es[0], true, i, d)
                 && Votes(Next(s, es[0]).nodes[i].cntPrepareConfirm, d) == Votes(s.nodes[i].cntPrepareConfirm, d) + [Voter(es[0])])
    ensures DistinctSenders(Votes(Next(s, es[0]).nodes[i].cntPrepareConfirm, d) + SendersOf(es[1..], true, i, d))
  {
    var votes, tail := Votes(s.nodes[i].cntPrepareConfirm, d), SendersOf(es[1..], true, i, d);
    HeadRepeat(es, true, i, d);
    hide Next, Enabled, VoteTo, Voter, Votes, SendersOf, DistinctSenders;
    if VoteTo(es[0], true, i, d) {
      assert votes + ([Voter(es[0])] + tail) == votes + [Voter(es[0])] + tail;
      LeaveOut(votes, Voter(es[0]), tail);
    } else {
      assert [] + tail == tail;
    }
  }

  lemma OnePrepare(s: Sys, e: Event, i: int, d: Digest)
    requires Enabled(s, e) && 0 <= i < |s.nodes|
    ensures |Next(s, e).nodes| == |s.nodes|
    ensures Votes(Next(s, e).nodes[i].cntPrepareConfirm, d) == Votes(s.nodes[i].cntPrepareConfirm, d)
            || (VoteTo(e, true, i, d)
                && Votes(Next(s, e).nodes[i].cntPrepareConfirm, d) == Votes(s.nodes[i].cntPrepareConfirm, d) + [Voter(e)])
  {
    if e.Deliver? {
      PreparesAfter(s.nodes[e.to], e.to, Faults(|s.nodes|), e.m);
      hide React;
    }
  }

  /** So a node that no other node's prepare for a block reached twice broadcast its commit only after enough
      distinct nodes prepared the block. */
  lemma NoRepeatIsBacked(n: nat, es: seq<Event>, t: Sys, i: int, d: Digest)
    requires n > 0 && Run(Init(n), es, t, false) && 0 <= i < |t.nodes| && d in t.nodes[i].isCommitBroadcast
    requires NoRepeat(es, true, i, d)
    ensures PreparedByEnough(t, i, d, Votes(t.nodes[i].cntPrepareConfirm, d))
  {
    RepeatIff(es, true, i, d);
    VotesAreDeliveries(Init(n), es, t, false, 0, d);
    assert [] + SendersOf(es, true, i, d) == SendersOf(es, true, i, d);
    CountedOnce(Init(n), es, t, i, d);
    BackedExactly(n, es, t, i, d);
    InitPrep(n);
    PrepRun(Init(n), es, t, false);
    hide Run, SendersOf, Inv;
    VotersPrepared(t, i, d);
    DistinctCount(Votes(t.nodes[i].cntPrepareConfirm, d));
  }

  /** In particular if no message is delivered twice to one node. */
  lemma CommitsAreBacked(n: nat, es: seq<Event>, t: Sys, i: int, d: Digest)
    requires n > 0 && Run(Init(n), es, t, true) && 0 <= i < |t.nodes| && d in t.nodes[i].isCommitBroadcast
    ensures var voters := SenderSet(Votes(t.nodes[i].cntPrepareConfirm, d));
      |voters| >= PreparesNeeded(i, Faults(|t.nodes|)) && Prepared(t, i, d, voters)
  {
    InitInv(n);
    OnceNoRepeat(Init(n), es, t, true, i, d);
    Forget(Init(n), es, t);
    NoRepeatIsBacked(n, es, t, i, d);
  }

  // ---------------------------------------------------------------- the thresholds

  /** Every commit that a node recorded as broadcast was sent. */
  ghost predicate BroadcastsSent(s: Sys) {
    forall i, d :: 0 <= i < |s.nodes| && d in s.nodes[i].isCommitBroadcast ==> Commit(d, Number(d), i) in s.net
  }

  lemma BroadcastIsSent(p: Node, me: int, f: nat, m: Msg, d: Digest)
    requires d in React(p, me, f, m).node.isCommitBroadcast && d !in p.isCommitBroadcast
    ensures m.Prepare? && d == m.digest && React(p, me, f, m).out == {Commit(d, m.seqId, me)}
  {
    hide OnCommit, AddBlock, Resume, Gather, Indexed, AddBlocks;
    if m.Commit? {
      CommitKeepsPrepares(p, me, f, m.digest, m.seqId, m.sender);
    }
  }

  lemma SentBackStep(s: Sys, e: Event)
    requires Inv(s) && BroadcastsSent(s) && Enabled(s, e)
    ensures BroadcastsSent(Next(s, e))
  {
    var t, f := Next(s, e), Faults(|s.nodes|);
    if e.Deliver? {
      assert MsgOk(s.proposals, e.m);
    }
    hide React, Inv, Number;
    forall i, d | 0 <= i < |t.nodes| && d in t.nodes[i].isCommitBroadcast ensures Commit(d, Number(d), i) in t.net {
      if d !in s.nodes[i].isCommitBroadcast && e.Deliver? {
        BroadcastIsSent(s.nodes[i], i, f, e.m, d);
      }
    }
  }

  lemma {:induction false} SentBackRun(s: Sys, es: seq<Event>, t: Sys)
    requires Inv(s) && BroadcastsSent(s) && Run(s, es, t, false)
    ensures BroadcastsSent(t)
    decreases |es|
  {
    hide Inv, BroadcastsSent, Enabled, Next;
    if es != [] {
      StepInv(s, es[0]);
      SentBackStep(s, es[0]);
      SentBackRun(Next(s, es[0]), es[1..], t);
    }
  }

  /** In every run and at every node: a commit for a block has been sent exactly if the node has counted prepares for
      it, as many as 2f, or one fewer if it is not the leader; and as soon as it has counted 2f commits it has
      answered the block. */
  lemma ThresholdsExactly(n: nat, es: seq<Event>, t: Sys, i: int, d: Digest)
    requires n > 0 && Run(Init(n), es, t, false) && 0 <= i < n
    ensures |t.nodes| == n
    ensures var f, prepares, commits := (n - 1) / 3, Votes(t.nodes[i].cntPrepareConfirm, d), Votes(t.nodes[i].cntCommitConfirm, d);
      && (Commit(d, Number(d), i) in t.net <==> prepares != [] && |prepares| >= if i == 0 then 2 * f else 2 * f - 1)
      && (commits != [] && |commits| >= 2 * f ==> d in t.nodes[i].isReply)
  {
    NodesStay(Init(n), es, t, false);
    InitPrep(n);
    InitQuorum(n);
    InitInv(n);
    PrepRun(Init(n), es, t, false);
    QuorumRun(Init(n), es, t, false);
    SentBackRun(Init(n), es, t);
    ThresholdsAt(t, i, d);
  }

  lemma ThresholdsAt(t: Sys, i: int, d: Digest)
    requires 0 <= i < |t.nodes| && AllBacked(t) && AllTooFew(t) && CommitsSent(t) && BroadcastsSent(t)
    ensures var f, prepares, commits := (|t.nodes| - 1) / 3, Votes(t.nodes[i].cntPrepareConfirm, d), Votes(t.nodes[i].cntCommitConfirm, d);
      && (Commit(d, Number(d), i) in t.net <==> prepares != [] && |prepares| >= if i == 0 then 2 * f else 2 * f - 1)
      && (commits != [] && |commits| >= 2 * f ==> d in t.nodes[i].isReply)
  {
    assert Backed(i, Faults(|t.nodes|), t.nodes[i]) && TooFew(Faults(|t.nodes|), t.nodes[i]);
    hide Number;
  }
}
