/** When the commits that a node counted come from a quorum: exactly if no node's commit for the block was
    delivered to it twice.  Votes are counted per delivered message (consensus_shard/pbft_all/toolFuncs.go). */
module PbftQuorums {
  import opened PbftSpec
  import opened PbftSystem

  // ---------------------------------------------------------------- senders

  ghost predicate DistinctSenders(votes: seq<int>) {
    forall p, q :: 0 <= p < q < |votes| ==> votes[p] != votes[q]
  }

  function SenderSet(votes: seq<int>): set<int> {
    set x | x in votes
  }

  /** There are as many senders as votes exactly if no sender voted twice. */
  lemma {:induction false} DistinctCount(votes: seq<int>)
    ensures |SenderSet(votes)| <= |votes|
    ensures |SenderSet(votes)| == |votes| <==> DistinctSenders(votes)
  {
    if votes == [] {
      assert SenderSet(votes) == {};
    } else {
      var init, last := votes[..|votes| - 1], votes[|votes| - 1];
      DistinctCount(init);
      assert votes == init + [last];
      assert SenderSet(votes) == SenderSet(init) + {last};
      if last in init {
        var p :| 0 <= p < |init| && init[p] == last;
        assert SenderSet(init) + {last} == SenderSet(init);
        assert votes[p] == votes[|votes| - 1];
      } else {
        assert DistinctSenders(init) <==> DistinctSenders(votes);
      }
    }
  }

  lemma DistinctPrefix(votes: seq<int>, k: nat)
    requires DistinctSenders(votes) && k <= |votes|
    ensures DistinctSenders(votes[..k])
  {
  }

  // ---------------------------------------------------------------- deliveries

  /** A vote for `d`, a prepare or a commit, is delivered to node `i`. */
  predicate VoteTo(e: Event, prepare: bool, i: int, d: Digest) {
    e.Deliver? && e.to == i && (if prepare then e.m.Prepare? else e.m.Commit?) && e.m.digest == d
  }

  /** Who sent the vote that an event delivers. */
  function Voter(e: Event): int {
    if e.Deliver? && (e.m.Prepare? || e.m.Commit?) then e.m.sender else -1
  }

  /** Who sent the votes for `d` that are delivered to node `i`, in that order. */
  function SendersOf(es: seq<Event>, prepare: bool, i: int, d: Digest): seq<int> {
    if es == [] then [] else
      (if VoteTo(es[0], prepare, i, d) then [Voter(es[0])] else []) + SendersOf(es[1..], prepare, i, d)
  }

  /** No node's vote for `d` is delivered to node `i` twice. */
  ghost predicate NoRepeat(es: seq<Event>, prepare: bool, i: int, d: Digest) {
    forall p, q :: 0 <= p < q < |es| && VoteTo(es[p], prepare, i, d) && VoteTo(es[q], prepare, i, d) ==>
      Voter(es[p]) != Voter(es[q])
  }

  lemma {:induction false} SendersAre(es: seq<Event>, prepare: bool, i: int, d: Digest)
    ensures forall x :: x in SendersOf(es, prepare, i, d) <==>
              exists p :: 0 <= p < |es| && VoteTo(es[p], prepare, i, d) && Voter(es[p]) == x
  {
    hide VoteTo, Voter;
    if es != [] {
      var rest := es[1..];
      SendersAre(rest, prepare, i, d);
      forall x | x in SendersOf(es, prepare, i, d)
        ensures exists p :: 0 <= p < |es| && VoteTo(es[p], prepare, i, d) && Voter(es[p]) == x
      {
        if x in SendersOf(rest, prepare, i, d) {
          var p :| 0 <= p < |rest| && VoteTo(rest[p], prepare, i, d) && Voter(rest[p]) == x;
          assert es[p + 1] == rest[p];
        } else {
          assert VoteTo(es[0], prepare, i, d);
        }
      }
      forall p | 0 <= p < |es| && VoteTo(es[p], prepare, i, d) ensures Voter(es[p]) in SendersOf(es, prepare, i, d) {
        if p > 0 {
          assert es[p] == rest[p - 1];
        }
      }
    }
  }

  lemma {:induction false} RepeatIff(es: seq<Event>, prepare: bool, i: int, d: Digest)
    ensures NoRepeat(es, prepare, i, d) <==> DistinctSenders(SendersOf(es, prepare, i, d))
  {
    if es != [] {
      var rest := es[1..];
      RepeatIff(rest, prepare, i, d);
      SendersAre(rest, prepare, i, d);
      HeadRepeat(es, prepare, i, d);
      hide VoteTo, Voter, SendersOf, DistinctSenders, NoRepeat;
      var tail := SendersOf(rest, prepare, i, d);
      if VoteTo(es[0], prepare, i, d) {
        HeadDistinct(Voter(es[0]), tail);
      } else {
        assert [] + tail == tail;
      }
    }
  }

  lemma HeadDistinct(x: int, tail: seq<int>)
    ensures DistinctSenders([x] + tail) <==> x !in tail && DistinctSenders(tail)
  {
    var all := [x] + tail;
    if DistinctSenders(all) {
      forall q | 0 <= q < |tail| ensures tail[q] != x {
        assert all[0] == x && all[q + 1] == tail[q];
      }
      forall p, q | 0 <= p < q < |tail| ensures tail[p] != tail[q] {
        assert all[p + 1] == tail[p] && all[q + 1] == tail[q];
      }
    }
  }

  lemma HeadRepeat(es: seq<Event>, prepare: bool, i: int, d: Digest)
    requires es != []
    ensures SendersOf(es, prepare, i, d)
         == (if VoteTo(es[0], prepare, i, d) then [Voter(es[0])] else []) + SendersOf(es[1..], prepare, i, d)
    ensures NoRepeat(es, prepare, i, d) <==>
              NoRepeat(es[1..], prepare, i, d)
              && (VoteTo(es[0], prepare, i, d) ==>
                    forall q :: 0 <= q < |es[1..]| && VoteTo(es[1..][q], prepare, i, d) ==> Voter(es[1..][q]) != Voter(es[0]))
  {
    hide VoteTo, Voter;
    var rest := es[1..];
    assert forall q :: 0 <= q < |rest| ==> rest[q] == es[q + 1];
    if NoRepeat(es, prepare, i, d) {
      forall p, q | 0 <= p < q < |rest| && VoteTo(rest[p], prepare, i, d) && VoteTo(rest[q], prepare, i, d)
        ensures Voter(rest[p]) != Voter(rest[q])
      {
        assert rest[p] == es[p + 1] && rest[q] == es[q + 1];
      }
      forall q | 0 <= q < |rest| && VoteTo(rest[q], prepare, i, d) && VoteTo(es[0], prepare, i, d)
        ensures Voter(rest[q]) != Voter(es[0])
      {
        assert rest[q] == es[q + 1];
      }
    }
    if NoRepeat(rest, prepare, i, d)
       && (VoteTo(es[0], prepare, i, d) ==>
             forall q :: 0 <= q < |rest| && VoteTo(rest[q], prepare, i, d) ==> Voter(rest[q]) != Voter(es[0])) {
      forall p, q | 0 <= p < q < |es| && VoteTo(es[p], prepare, i, d) && VoteTo(es[q], prepare, i, d)
        ensures Voter(es[p]) != Voter(es[q])
      {
        assert es[q] == rest[q - 1];
        if p > 0 {
          assert es[p] == rest[p - 1];
        }
      }
    }
  }

  /** Every vote on its way carries the number of its block; and what was delivered is not delivered again
      in a run that forbids it. */
  lemma {:induction false} LaterVotes(s: Sys, es: seq<Event>, t: Sys, once: bool, q: nat)
    requires Inv(s) && Run(s, es, t, once) && q < |es| && es[q].Deliver?
    ensures es[q].m.Prepare? || es[q].m.Commit? ==> es[q].m.seqId == Number(es[q].m.digest)
    ensures once ==> (es[q].m, es[q].to) !in s.delivered
    decreases |es|
  {
    StepInv(s, es[0]);
    if q == 0 {
      assert MsgOk(s.proposals, es[0].m);
    } else {
      hide Inv, React;
      LaterVotes(Next(s, es[0]), es[1..], t, once, q - 1);
      assert s.delivered <= Next(s, es[0]).delivered;
    }
  }

  /** Without double delivery no vote repeats. */
  lemma {:induction false} OnceNoRepeat(s: Sys, es: seq<Event>, t: Sys, prepare: bool, i: int, d: Digest)
    requires Inv(s) && Run(s, es, t, true)
    ensures NoRepeat(es, prepare, i, d)
    decreases |es|
  {
    if es != [] {
      StepInv(s, es[0]);
      if VoteTo(es[0], prepare, i, d) {
        HeadOnce(s, es, t, prepare, i, d);
      }
      hide Inv, Next, Enabled, VoteTo, NoRepeat;
      OnceNoRepeat(Next(s, es[0]), es[1..], t, prepare, i, d);
      HeadRepeat(es, prepare, i, d);
    }
  }

  lemma HeadOnce(s: Sys, es: seq<Event>, t: Sys, prepare: bool, i: int, d: Digest)
    requires es != [] && Inv(s) && Run(s, es, t, true) && VoteTo(es[0], prepare, i, d)
    ensures forall q :: 0 <= q < |es[1..]| && VoteTo(es[1..][q], prepare, i, d) ==> Voter(es[1..][q]) != Voter(es[0])
  {
    var rest, s' := es[1..], Next(s, es[0]);
    StepInv(s, es[0]);
    assert (es[0].m, i) in s'.delivered;
    LaterVotes(s, es, t, true, 0);
    hide Inv, Next, Enabled;
    forall q | 0 <= q < |rest| && VoteTo(rest[q], prepare, i, d) ensures Voter(rest[q]) != Voter(es[0]) {
      LaterVotes(s', rest, t, true, q);
    }
  }

  // ---------------------------------------------------------------- counted commits

  /** How a reaction changes the votes: only a Commit is counted. */
  lemma VotesAfter(p: Node, me: int, f: nat, m: Msg)
    ensures React(p, me, f, m).node.cntCommitConfirm
         == if m.Commit? then p.cntCommitConfirm[m.digest := Votes(p.cntCommitConfirm, m.digest) + [m.sender]] else p.cntCommitConfirm
  {
    hide OnCommit, AddBlock, Votes, Resume, Gather, Indexed, AddBlocks;
    if m.Commit? {
      CommitCounts(p, me, f, m.digest, m.seqId, m.sender);
    }
  }

  lemma CommitCounts(p: Node, me: int, f: nat, d: Digest, q: int, x: int)
    ensures OnCommit(p, me, f, d, q, x).node.cntCommitConfirm == CountCommit(p, d, x).cntCommitConfirm
  {
    ReplyKeepsVotes(CountCommit(p, d, x), me, d, q);
    hide Reply, Votes;
  }

  /** Every delivered commit is counted, in the order of delivery, whatever is lost or duplicated. */
  lemma {:induction false} VotesAreDeliveries(s: Sys, es: seq<Event>, t: Sys, once: bool, i: int, d: Digest)
    requires Run(s, es, t, once) && 0 <= i < |s.nodes|
    ensures |t.nodes| == |s.nodes|
    ensures Votes(t.nodes[i].cntCommitConfirm, d) == Votes(s.nodes[i].cntCommitConfirm, d) + SendersOf(es, false, i, d)
    decreases |es|
  {
    hide Next, Enabled, VoteTo, Voter, Votes;
    var votes := Votes(s.nodes[i].cntCommitConfirm, d);
    if es == [] {
      assert votes + [] == votes;
    } else {
      OneDelivery(s, es[0], i, d);
      VotesAreDeliveries(Next(s, es[0]), es[1..], t, once, i, d);
      var head := if VoteTo(es[0], false, i, d) then [Voter(es[0])] else [];
      assert SendersOf(es, false, i, d) == head + SendersOf(es[1..], false, i, d);
      assert (votes + head) + SendersOf(es[1..], false, i, d) == votes + (head + SendersOf(es[1..], false, i, d));
    }
  }

  lemma OneDelivery(s: Sys, e: Event, i: int, d: Digest)
    requires Enabled(s, e) && 0 <= i < |s.nodes|
    ensures |Next(s, e).nodes| == |s.nodes|
    ensures Votes(Next(s, e).nodes[i].cntCommitConfirm, d)
         == Votes(s.nodes[i].cntCommitConfirm, d) + if VoteTo(e, false, i, d) then [Voter(e)] else []
  {
    var votes := Votes(s.nodes[i].cntCommitConfirm, d);
    assert votes + [] == votes;
    if e.Deliver? {
      VotesAfter(s.nodes[e.to], e.to, Faults(|s.nodes|), e.m);
      hide React;
    }
  }

  /** Each counted commit was sent by another node. */
  ghost predicate Told(net: set<Msg>, i: int, cnt: map<Digest, seq<int>>) {
    forall d :: d in cnt ==> forall x :: x in cnt[d] ==> x != i && Commit(d, Number(d), x) in net
  }

  ghost predicate AllTold(s: Sys) {
    forall i :: 0 <= i < |s.nodes| ==> Told(s.net, i, s.nodes[i].cntCommitConfirm)
  }

  /** Commits are sent by nodes that broadcast them. */
  ghost predicate CommitsSent(s: Sys) {
    forall m :: m in s.net && m.Commit? ==> 0 <= m.sender < |s.nodes| && m.digest in s.nodes[m.sender].isCommitBroadcast
  }

  /** How many votes are counted when the threshold is met. */
  function Deciding(needed: int): nat {
    if needed >= 1 then needed else 1
  }

  /** Until a node replies it has counted too few commits. */
  ghost predicate TooFew(f: nat, p: Node) {
    forall d :: d in p.cntCommitConfirm && d !in p.isReply ==> |p.cntCommitConfirm[d]| < 2 * f
  }

  ghost predicate AllTooFew(s: Sys) {
    forall i :: 0 <= i < |s.nodes| ==> TooFew(Faults(|s.nodes|), s.nodes[i])
  }

  /** Every block on the leader's chain was committed with enough votes. */
  ghost predicate LeaderVoted(s: Sys)
    requires |s.nodes| > 0
  {
    forall d :: d in s.nodes[0].chain ==> |Votes(s.nodes[0].cntCommitConfirm, d)| >= Deciding(2 * Faults(|s.nodes|))
  }

  ghost predicate QuorumInv(s: Sys) {
    Inv(s) && AllTold(s) && CommitsSent(s) && AllTooFew(s) && LeaderVoted(s)
  }

  lemma InitQuorum(n: nat)
    requires n > 0
    ensures QuorumInv(Init(n))
  {
    InitInv(n);
  }

  lemma ToldStep(s: Sys, e: Event)
    requires Inv(s) && AllTold(s) && Enabled(s, e)
    ensures AllTold(Next(s, e))
  {
    var s' := Next(s, e);
    if e.Deliver? {
      VotesAfter(s.nodes[e.to], e.to, Faults(|s.nodes|), e.m);
      assert MsgOk(s.proposals, e.m);
    }
    hide Told, Inv, React;
    forall i | 0 <= i < |s'.nodes| ensures Told(s'.net, i, s'.nodes[i].cntCommitConfirm) {
      assert Told(s.net, i, s.nodes[i].cntCommitConfirm);
      if e.Deliver? && i == e.to && e.m.Commit? {
        ToldOneMore(s.net, s'.net, i, s.nodes[i].cntCommitConfirm, e.m);
      } else {
        ToldStill(s.net, s'.net, i, s.nodes[i].cntCommitConfirm);
      }
    }
  }

  lemma ToldOneMore(net: set<Msg>, net': set<Msg>, i: int, cnt: map<Digest, seq<int>>, m: Msg)
    requires Told(net, i, cnt) && net <= net' && m in net && m.Commit? && m.seqId == Number(m.digest) && m.sender != i
    ensures Told(net', i, cnt[m.digest := Votes(cnt, m.digest) + [m.sender]])
  {
    assert m == Commit(m.digest, Number(m.digest), m.sender);
    hide Number;
  }

  lemma ToldStill(net: set<Msg>, net': set<Msg>, i: int, cnt: map<Digest, seq<int>>)
    requires Told(net, i, cnt) && net <= net'
    ensures Told(net', i, cnt)
  {
    hide Number;
  }

  /** A commit that is sent is recorded as broadcast, and the record is kept. */
  lemma BroadcastAfter(p: Node, me: int, f: nat, m: Msg)
    ensures p.isCommitBroadcast <= React(p, me, f, m).node.isCommitBroadcast
    ensures forall x :: x in React(p, me, f, m).out && x.Commit? ==>
              x.sender == me && x.digest in React(p, me, f, m).node.isCommitBroadcast
  {
    hide AddBlock, Votes, Gather, Indexed, AddBlocks;
  }

  lemma SentStep(s: Sys, e: Event)
    requires CommitsSent(s) && Enabled(s, e)
    ensures CommitsSent(Next(s, e))
  {
    if e.Deliver? {
      BroadcastAfter(s.nodes[e.to], e.to, Faults(|s.nodes|), e.m);
      hide React;
    }
  }

  lemma TooFewAfter(p: Node, me: int, f: nat, m: Msg)
    requires TooFew(f, p)
    ensures TooFew(f, React(p, me, f, m).node)
  {
    VotesAfter(p, me, f, m);
    RepliesAfter(p, me, f, m);
    hide React;
  }

  /** Replies are kept, and one is due when the threshold is met. */
  lemma RepliesAfter(p: Node, me: int, f: nat, m: Msg)
    ensures p.isReply <= React(p, me, f, m).node.isReply
    ensures m.Commit? && |Votes(p.cntCommitConfirm, m.digest)| + 1 >= 2 * f ==> m.digest in React(p, me, f, m).node.isReply
  {
    hide AddBlock, Resume, Gather, Indexed, AddBlocks;
  }

  lemma TooFewStep(s: Sys, e: Event)
    requires AllTooFew(s) && Enabled(s, e)
    ensures AllTooFew(Next(s, e))
  {
    var s', f := Next(s, e), Faults(|s.nodes|);
    if e.Deliver? {
      assert TooFew(f, s.nodes[e.to]);
      TooFewAfter(s.nodes[e.to], e.to, f, e.m);
    } else {
      assert TooFew(f, s.nodes[0]);
    }
    hide React, Faults;
    forall i | 0 <= i < |s'.nodes| ensures TooFew(f, s'.nodes[i]) {
      assert TooFew(f, s.nodes[i]);
    }
  }

  /** A block added on a commit is the one committed, and exactly the deciding votes were counted. */
  lemma AddedWithVotes(p: Node, me: int, f: nat, m: Msg)
    requires TooFew(f, p) && m.Commit? && React(p, me, f, m).node.chain != p.chain
    ensures React(p, me, f, m).node.chain == p.chain + [m.digest]
    ensures |Votes(React(p, me, f, m).node.cntCommitConfirm, m.digest)| == Deciding(2 * f)
  {
    var p1 := CountCommit(p, m.digest, m.sender);
    CommitCounts(p, me, f, m.digest, m.seqId, m.sender);
    ReplyKeeps(p1, me, m.digest, m.seqId);
    hide Reply;
  }

  lemma LeaderChainByCommit(s: Sys, m: Msg)
    requires Inv(s) && Enabled(s, Deliver(m, 0)) && !m.Commit?
    ensures React(s.nodes[0], 0, Faults(|s.nodes|), m).node.chain == s.nodes[0].chain
  {
    assert MsgOk(s.proposals, m);
  }

  lemma VotedStep(s: Sys, e: Event)
    requires Inv(s) && AllTooFew(s) && LeaderVoted(s) && Enabled(s, e)
    ensures |Next(s, e).nodes| > 0 && LeaderVoted(Next(s, e))
  {
    if e.Deliver? && e.to == 0 {
      var p, f := s.nodes[0], Faults(|s.nodes|);
      assert TooFew(f, p);
      VotesAfter(p, 0, f, e.m);
      if !e.m.Commit? {
        LeaderChainByCommit(s, e.m);
      } else if React(p, 0, f, e.m).node.chain != p.chain {
        AddedWithVotes(p, 0, f, e.m);
      }
    }
    hide React, Inv, AllTooFew, Faults, Deciding, TooFew;
  }

  lemma QuorumStep(s: Sys, e: Event)
    requires QuorumInv(s) && Enabled(s, e)
    ensures QuorumInv(Next(s, e))
  {
    StepInv(s, e);
    ToldStep(s, e);
    SentStep(s, e);
    TooFewStep(s, e);
    VotedStep(s, e);
    hide Inv, AllTold, CommitsSent, AllTooFew, LeaderVoted, Next;
  }

  lemma {:induction false} QuorumRun(s: Sys, es: seq<Event>, t: Sys, once: bool)
    requires QuorumInv(s) && Run(s, es, t, once)
    ensures QuorumInv(t)
    decreases |es|
  {
    hide QuorumInv, Enabled, Next;
    if es != [] {
      QuorumStep(s, es[0]);
      QuorumRun(Next(s, es[0]), es[1..], t, once);
    }
  }

  // ---------------------------------------------------------------- quorums

  /** `voters` are nodes other than `i` that broadcast a commit for `d`, at least 2f of them. */
  ghost predicate Quorum(s: Sys, i: int, d: Digest, voters: set<int>) {
    && |voters| >= 2 * Faults(|s.nodes|) && i !in voters
    && forall x :: x in voters ==> 0 <= x < |s.nodes| && d in s.nodes[x].isCommitBroadcast
  }

  /** The deciding votes come from a quorum exactly if no sender is among them twice. */
  lemma QuorumIff(s: Sys, i: int, d: Digest, votes: seq<int>)
    requires QuorumInv(s) && 0 <= i < |s.nodes|
    requires votes <= Votes(s.nodes[i].cntCommitConfirm, d) && |votes| == Deciding(2 * Faults(|s.nodes|))
    ensures Quorum(s, i, d, SenderSet(votes)) <==> DistinctSenders(votes)
  {
    var cnt := s.nodes[i].cntCommitConfirm;
    assert Told(s.net, i, cnt);
    DistinctCount(votes);
    hide Inv, AllTold, AllTooFew, LeaderVoted;
    forall x | x in votes ensures x != i && 0 <= x < |s.nodes| && d in s.nodes[x].isCommitBroadcast {
      assert x in cnt[d];
      assert Commit(d, Number(d), x) in s.net;
    }
    if Faults(|s.nodes|) == 0 {
      assert DistinctSenders(votes);
    }
  }

  /** In every run, whatever is lost, duplicated or reordered: a block that node `i` adds on a commit has
      commits of at least 2f distinct other nodes if and only if no node's commit for it was delivered to
      `i` twice so far. */
  lemma QuorumExactly(n: nat, es: seq<Event>, s: Sys, m: Msg, i: int)
    requires n > 0 && Run(Init(n), es, s, false) && Enabled(s, Deliver(m, i)) && m.Commit?
    requires Next(s, Deliver(m, i)).nodes[i].chain != s.nodes[i].chain
    ensures var (t, all) := (Next(s, Deliver(m, i)), es + [Deliver(m, i)]);
      && t.nodes[i].chain == s.nodes[i].chain + [m.digest]
      && Votes(t.nodes[i].cntCommitConfirm, m.digest) == SendersOf(all, false, i, m.digest)
      && (Quorum(t, i, m.digest, SenderSet(SendersOf(all, false, i, m.digest))) <==> NoRepeat(all, false, i, m.digest))
  {
    var e := Deliver(m, i);
    AddingStep(n, es, s, m, i);
    hide Quorum, QuorumInv, Next, Enabled, Run;
    RepeatIff(es + [e], false, i, m.digest);
    QuorumIff(Next(s, e), i, m.digest, SendersOf(es + [e], false, i, m.digest));
  }

  lemma AddingStep(n: nat, es: seq<Event>, s: Sys, m: Msg, i: int)
    requires n > 0 && Run(Init(n), es, s, false) && Enabled(s, Deliver(m, i)) && m.Commit?
    requires Next(s, Deliver(m, i)).nodes[i].chain != s.nodes[i].chain
    ensures var t := Next(s, Deliver(m, i));
      && QuorumInv(t) && t.nodes[i].chain == s.nodes[i].chain + [m.digest]
      && Votes(t.nodes[i].cntCommitConfirm, m.digest) == SendersOf(es + [Deliver(m, i)], false, i, m.digest)
      && |Votes(t.nodes[i].cntCommitConfirm, m.digest)| == Deciding(2 * Faults(|t.nodes|))
  {
    var e := Deliver(m, i);
    InitQuorum(n);
    QuorumRun(Init(n), es, s, false);
    QuorumStep(s, e);
    VotesSoFar(n, es, s, false, i, m.digest);
    OneDelivery(s, e, i, m.digest);
    SendersAppend(es, e, false, i, m.digest);
    assert TooFew(Faults(|s.nodes|), s.nodes[i]);
    hide QuorumInv, Run, SendersOf;
    AddedWithVotes(s.nodes[i], i, Faults(|s.nodes|), m);
  }

  lemma VotesSoFar(n: nat, es: seq<Event>, s: Sys, once: bool, i: int, d: Digest)
    requires n > 0 && Run(Init(n), es, s, once) && 0 <= i < |s.nodes|
    ensures Votes(s.nodes[i].cntCommitConfirm, d) == SendersOf(es, false, i, d)
  {
    VotesAreDeliveries(Init(n), es, s, once, 0, d);
    VotesAreDeliveries(Init(n), es, s, once, i, d);
    assert [] + SendersOf(es, false, i, d) == SendersOf(es, false, i, d);
  }

  lemma {:induction false} SendersAppend(es: seq<Event>, e: Event, prepare: bool, i: int, d: Digest)
    ensures SendersOf(es + [e], prepare, i, d)
         == SendersOf(es, prepare, i, d) + if VoteTo(e, prepare, i, d) then [Voter(e)] else []
  {
    hide VoteTo, Voter;
    var last := if VoteTo(e, prepare, i, d) then [Voter(e)] else [];
    if es == [] {
      assert (es + [e])[1..] == [];
      assert last + [] == [] + last;
    } else {
      var head, rest := if VoteTo(es[0], prepare, i, d) then [Voter(es[0])] else [], SendersOf(es[1..], prepare, i, d);
      assert (es + [e])[1..] == es[1..] + [e] && (es + [e])[0] == es[0];
      SendersAppend(es[1..], e, prepare, i, d);
      assert head + (rest + last) == (head + rest) + last;
    }
  }

  /** In every run: the commits on which a block of the leader's chain was added come from at least 2f
      distinct other nodes if and only if no sender is among them twice. */
  lemma LeaderBlocksExactly(n: nat, es: seq<Event>, t: Sys, d: Digest)
    requires n > 0 && Run(Init(n), es, t, false) && |t.nodes| > 0 && d in t.nodes[0].chain
    ensures var (votes, k) := (SendersOf(es, false, 0, d), Deciding(2 * Faults(|t.nodes|)));
      && |votes| >= k
      && (Quorum(t, 0, d, SenderSet(votes[..k])) <==> DistinctSenders(votes[..k]))
  {
    InitQuorum(n);
    QuorumRun(Init(n), es, t, false);
    VotesSoFar(n, es, t, false, 0, d);
    hide Run, SendersOf, Quorum;
    var k := Deciding(2 * Faults(|t.nodes|));
    assert |Votes(t.nodes[0].cntCommitConfirm, d)| >= k;
    QuorumIff(t, 0, d, Votes(t.nodes[0].cntCommitConfirm, d)[..k]);
  }

  /** So if no message is delivered twice to one node, a block that a node adds on commits has commits of at
      least 2f distinct other nodes, although the code counts messages. */
  lemma CommitsHaveQuorum(n: nat, es: seq<Event>, s: Sys, m: Msg, i: int)
    requires n > 0 && Run(Init(n), es, s, true) && Enabled(s, Deliver(m, i)) && (m, i) !in s.delivered && m.Commit?
    requires Next(s, Deliver(m, i)).nodes[i].chain != s.nodes[i].chain
    ensures var t := Next(s, Deliver(m, i));
      && t.nodes[i].chain == s.nodes[i].chain + [m.digest]
      && Quorum(t, i, m.digest, SenderSet(Votes(t.nodes[i].cntCommitConfirm, m.digest)))
  {
    var e := Deliver(m, i);
    InitInv(n);
    Forget(Init(n), es, s);
    RunAppend(Init(n), es, s, e, true);
    OnceNoRepeat(Init(n), es + [e], Next(s, e), false, i, m.digest);
    QuorumExactly(n, es, s, m, i);
  }

  /** In the same runs every block on the leader's chain has such a quorum. */
  lemma LeaderBlocksHaveQuorum(n: nat, es: seq<Event>, t: Sys, d: Digest)
    requires n > 0 && Run(Init(n), es, t, true) && |t.nodes| > 0 && d in t.nodes[0].chain
    ensures Quorum(t, 0, d, SenderSet(Votes(t.nodes[0].cntCommitConfirm, d)))
  {
    InitInv(n);
    Forget(Init(n), es, t);
    OnceNoRepeat(Init(n), es, t, false, 0, d);
    RepeatIff(es, false, 0, d);
    VotesSoFar(n, es, t, true, 0, d);
    LeaderBlocksExactly(n, es, t, d);
    var votes, k := SendersOf(es, false, 0, d), Deciding(2 * Faults(|t.nodes|));
    DistinctPrefix(votes, k);
    InitQuorum(n);
    QuorumRun(Init(n), es, t, true);
    hide Run, SendersOf, Inv;
    AllVotersBroadcast(t, 0, d);
    DistinctCount(votes);
  }

  lemma AllVotersBroadcast(s: Sys, i: int, d: Digest)
    requires QuorumInv(s) && 0 <= i < |s.nodes|
    ensures forall x :: x in Votes(s.nodes[i].cntCommitConfirm, d) ==>
              x != i && 0 <= x < |s.nodes| && d in s.nodes[x].isCommitBroadcast
  {
    var cnt := s.nodes[i].cntCommitConfirm;
    assert Told(s.net, i, cnt);
    hide Inv, AllTold, AllTooFew, LeaderVoted;
    forall x | x in Votes(cnt, d) ensures x != i && 0 <= x < |s.nodes| && d in s.nodes[x].isCommitBroadcast {
      assert Commit(d, Number(d), x) in s.net;
    }
  }

  /** A run without double delivery is a run. */
  lemma {:induction false} Forget(s: Sys, es: seq<Event>, t: Sys)
    requires Run(s, es, t, true)
    ensures Run(s, es, t, false)
    decreases |es|
  {
    hide Enabled, Next;
    if es != [] {
      Forget(Next(s, es[0]), es[1..], t);
    }
  }

  lemma {:induction false} RunAppend(s: Sys, es: seq<Event>, t: Sys, e: Event, once: bool)
    requires Run(s, es, t, once) && Enabled(t, e) && (once && e.Deliver? ==> (e.m, e.to) !in t.delivered)
    ensures Run(s, es + [e], Next(t, e), once)
    decreases |es|
  {
    hide Enabled, Next;
    if es == [] {
      assert (es + [e])[1..] == [];
    } else {
      assert (es + [e])[1..] == es[1..] + [e];
      RunAppend(Next(s, es[0]), es[1..], t, e, once);
    }
  }
}
