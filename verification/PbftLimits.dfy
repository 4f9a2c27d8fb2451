/** Votes are counted per delivered message: with duplicated messages one node's commit is enough. */
module PbftLimits {
  import opened PbftSpec
  import opened PbftSystem
  import opened PbftQuorums

  /** Some run of four nodes ends with these nodes and with these messages in the network. */
  ghost predicate Reaches(nodes: seq<Node>, msgs: set<Msg>) {
    exists es, t :: Run(Init(4), es, t, false) && t.nodes == nodes && msgs <= t.net
  }

  lemma Extend(nodes: seq<Node>, msgs: set<Msg>, m: Msg, to: int, p: Node, out: set<Msg>)
    requires Reaches(nodes, msgs) && m in msgs && |nodes| == 4 && 0 <= to < 4 && Addressed(m, to) && !nodes[to].halted
    requires React(nodes[to], to, 1, m) == Reaction(p, out)
    ensures Reaches(nodes[to := p], msgs + out)
  {
    var es, t :| Run(Init(4), es, t, false) && t.nodes == nodes && msgs <= t.net;
    hide Run, React, Addressed;
    RunAppend(Init(4), es, t, Deliver(m, to), false);
    assert Faults(4) == 1;
  }

  const B1 := Block(Genesis, 1, 0)

  function L1(): Node { NewNode().(locked := true, requestPool := {B1}, height2Digest := map[1 := B1]) }
  function L2(): Node { L1().(cntCommitConfirm := map[B1 := [1]]) }
  function L3(): Node {
    L1().(cntCommitConfirm := map[B1 := [1, 1]], chain := [B1], sequenceID := 2, isReply := {B1}, locked := false)
  }
  function A1(): Node { NewNode().(requestPool := {B1}, height2Digest := map[1 := B1]) }
  function A2(): Node { A1().(cntPrepareConfirm := map[B1 := [2]], isCommitBroadcast := {B1}) }

  lemma Proposed()
    ensures Reaches([L1(), NewNode(), NewNode(), NewNode()], {PrePrepare(B1, 1)})
  {
    var s := Init(4);
    assert Run(s, [], s, false);
    RunAppend(s, [], s, Propose(0), false);
    var t := Next(s, Propose(0));
    assert {} + {B1} == {B1};
    assert t.nodes == [L1(), NewNode(), NewNode(), NewNode()];
  }

  lemma Prepared()
    ensures Reaches([L1(), A1(), A1(), NewNode()], {PrePrepare(B1, 1), Prepare(B1, 1, 1), Prepare(B1, 1, 2)})
  {
    Proposed();
    assert {} + {B1} == {B1};
    var nodes, msgs := [L1(), NewNode(), NewNode(), NewNode()], {PrePrepare(B1, 1)};
    Extend(nodes, msgs, PrePrepare(B1, 1), 1, A1(), {Prepare(B1, 1, 1)});
    var nodes', msgs' := nodes[1 := A1()], msgs + {Prepare(B1, 1, 1)};
    Extend(nodes', msgs', PrePrepare(B1, 1), 2, A1(), {Prepare(B1, 1, 2)});
    assert nodes'[2 := A1()] == [L1(), A1(), A1(), NewNode()];
    assert msgs' + {Prepare(B1, 1, 2)} == {PrePrepare(B1, 1), Prepare(B1, 1, 1), Prepare(B1, 1, 2)};
  }

  lemma Committed()
    ensures Reaches([L1(), A2(), A1(), NewNode()], {Commit(B1, 1, 1)})
  {
    Prepared();
    var nodes, msgs := [L1(), A1(), A1(), NewNode()], {PrePrepare(B1, 1), Prepare(B1, 1, 1), Prepare(B1, 1, 2)};
    assert Votes(map[], B1) + [2] == [2] && {} + {B1} == {B1};
    Extend(nodes, msgs, Prepare(B1, 1, 2), 1, A2(), {Commit(B1, 1, 1)});
    assert nodes[1 := A2()] == [L1(), A2(), A1(), NewNode()];
    Fewer(nodes[1 := A2()], msgs + {Commit(B1, 1, 1)}, {Commit(B1, 1, 1)});
  }

  lemma Fewer(nodes: seq<Node>, msgs: set<Msg>, some: set<Msg>)
    requires Reaches(nodes, msgs) && some <= msgs
    ensures Reaches(nodes, some)
  {
  }

  /** With f = 1 the leader adds its block on the commit of a single node, delivered twice. */
  lemma DuplicatesFakeAQuorum()
    ensures exists es, t :: Run(Init(4), es, t, false) && |t.nodes| == 4 && t.nodes[0].chain == [B1]
              && SenderSet(Votes(t.nodes[0].cntCommitConfirm, B1)) == {1}
  {
    Committed();
    var m := Commit(B1, 1, 1);
    var nodes := [L1(), A2(), A1(), NewNode()];
    OneVote();
    Extend(nodes, {m}, m, 0, L2(), {});
    assert nodes[0 := L2()] == [L2(), A2(), A1(), NewNode()] && {m} + {} == {m};
    TwoVotes();
    Extend(nodes[0 := L2()], {m}, m, 0, L3(), {});
    var es, t :| Run(Init(4), es, t, false) && t.nodes == nodes[0 := L2()][0 := L3()] && {m} + {} <= t.net;
    assert SenderSet([1, 1]) == {1};
  }

  lemma OneVote()
    ensures OnCommit(L1(), 0, 1, B1, 1, 1) == Reaction(L2(), {})
  {
    assert Votes(map[], B1) + [1] == [1];
  }

  lemma TwoVotes()
    ensures OnCommit(L2(), 0, 1, B1, 1, 1) == Reaction(L3(), {})
  {
    assert [1] + [1] == [1, 1];
    assert AddBlock([], B1) == [B1];
    assert {} + {B1} == {B1};
  }
}
