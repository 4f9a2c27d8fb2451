/** The normal case works: three of four nodes commit any number of blocks in time, without a duplicated message
    and without catching up (consensus_shard/pbft_all/messageHandle.go). */
module PbftRounds {
  import opened PbftSpec
  import opened PbftSystem
  import opened PbftQuorums

  // ---------------------------------------------------------------- one node in a round

  /** Everything a node has counted, stored or answered is about these blocks. */
  ghost predicate Only(p: Node, ds: seq<Block>) {
    forall d :: d in p.requestPool || d in p.cntPrepareConfirm || d in p.cntCommitConfirm || d in p.isCommitBroadcast || d in p.isReply
                ==> d in ds
  }

  /** A node between two rounds. */
  ghost predicate UpToDate(p: Node, ps: seq<Block>) {
    p.chain == ps && p.sequenceID == |ps| + 1 && !p.locked && !p.asking && !p.halted && Only(p, ps)
  }

  /** A node in the round of block `b`: the prepares and commits it has counted, and whether it has committed. */
  ghost predicate Midway(p: Node, me: int, ps: seq<Block>, b: Block, prepares: seq<int>, commits: seq<int>, sent: bool) {
    && p.chain == ps && p.sequenceID == |ps| + 1 && (p.locked <==> me == 0) && !p.asking && !p.halted
    && Only(p, ps + [b]) && b in p.requestPool && b !in p.isReply
    && Votes(p.cntPrepareConfirm, b) == prepares && Votes(p.cntCommitConfirm, b) == commits
    && (b in p.isCommitBroadcast <==> sent)
  }

  /** The block a leader makes on a chain. */
  function NextBlock(ps: seq<Block>, content: int): Block {
    Block(Current(ps), |ps| + 1, content)
  }

  lemma IsNew(ps: seq<Block>, content: int)
    requires ProposalsOk(ps)
    ensures NextBlock(ps, content) !in ps && Number(Current(ps)) == |ps|
    ensures AddBlock(ps, NextBlock(ps, content)) == ps + [NextBlock(ps, content)]
    ensures ProposalsOk(ps + [NextBlock(ps, content)])
  {
    HeightOf(ps, ps);
    ProposedIsOk(ps, NextBlock(ps, content));
  }

  lemma LeaderStarts(p: Node, ps: seq<Block>, content: int)
    requires UpToDate(p, ps) && ProposalsOk(ps)
    ensures var b := NextBlock(ps, content);
      && Midway(OnPropose(p, content).node, 0, ps, b, [], [], false)
      && OnPropose(p, content).out == {PrePrepare(b, |ps| + 1)}
      && Block(Current(p.chain), Number(Current(p.chain)) + 1, content) == b
  {
    IsNew(ps, content);
  }

  lemma FollowerStarts(p: Node, me: int, ps: seq<Block>, content: int)
    requires UpToDate(p, ps) && ProposalsOk(ps) && me != 0
    ensures var b, r := NextBlock(ps, content), OnPrePrepare(p, me, NextBlock(ps, content), |ps| + 1);
      Midway(r.node, me, ps, b, [], [], false) && r.out == {Prepare(b, |ps| + 1, me)}
  {
    IsNew(ps, content);
  }

  lemma Prepares(p: Node, me: int, ps: seq<Block>, b: Block, prepares: seq<int>, commits: seq<int>, sent: bool, x: int)
    requires Midway(p, me, ps, b, prepares, commits, sent)
    ensures var r, enough := OnPrepare(p, me, 1, b, |ps| + 1, x), |prepares| + 1 >= if me == 0 then 2 else 1;
      && Midway(r.node, me, ps, b, prepares + [x], commits, sent || enough)
      && r.out == if enough && !sent then {Commit(b, |ps| + 1, me)} else {}
  {
    assert b in ps + [b];
  }

  lemma FirstCommit(p: Node, me: int, ps: seq<Block>, b: Block, prepares: seq<int>, sent: bool, x: int)
    requires Midway(p, me, ps, b, prepares, [], sent)
    ensures var r := OnCommit(p, me, 1, b, |ps| + 1, x);
      Midway(r.node, me, ps, b, prepares, [x], sent) && r.out == {}
  {
    assert b in ps + [b] && [] + [x] == [x];
    hide Reply;
  }

  lemma SecondCommit(p: Node, me: int, ps: seq<Block>, content: int, prepares: seq<int>, sent: bool, y: int, x: int)
    requires ProposalsOk(ps) && Midway(p, me, ps, NextBlock(ps, content), prepares, [y], sent)
    ensures var b := NextBlock(ps, content); var r := OnCommit(p, me, 1, b, |ps| + 1, x);
      UpToDate(r.node, ps + [b]) && r.out == {}
  {
    var b := NextBlock(ps, content);
    IsNew(ps, content);
    Counted(p, me, ps, b, prepares, sent, y, x);
    MidwayIs(CountCommit(p, b, x), me, ps, b, prepares, [y] + [x], sent);
    hide AddBlock, NextBlock, Midway, ProposalsOk, UpToDate;
    Added(CountCommit(p, b, x), me, ps, b);
  }

  lemma MidwayIs(p: Node, me: int, ps: seq<Block>, b: Block, prepares: seq<int>, commits: seq<int>, sent: bool)
    requires Midway(p, me, ps, b, prepares, commits, sent)
    ensures b in p.requestPool && p.chain == ps && p.sequenceID == |ps| + 1
    ensures (p.locked <==> me == 0) && !p.asking && !p.halted && Only(p, ps + [b])
  {
  }

  lemma Counted(p: Node, me: int, ps: seq<Block>, b: Block, prepares: seq<int>, sent: bool, y: int, x: int)
    requires Midway(p, me, ps, b, prepares, [y], sent)
    ensures OnCommit(p, me, 1, b, |ps| + 1, x) == Reply(CountCommit(p, b, x), me, b, |ps| + 1)
    ensures Midway(CountCommit(p, b, x), me, ps, b, prepares, [y] + [x], sent)
  {
    assert b in ps + [b];
    hide Reply;
    assert |[y] + [x]| == 2;
  }

  lemma Added(p: Node, me: int, ps: seq<Block>, b: Block)
    requires AddBlock(ps, b) == ps + [b] && b in p.requestPool && p.chain == ps && p.sequenceID == |ps| + 1
    requires (p.locked <==> me == 0) && !p.asking && !p.halted && Only(p, ps + [b])
    ensures var r := Reply(p, me, b, |ps| + 1); UpToDate(r.node, ps + [b]) && r.out == {}
  {
    hide AddBlock;
    assert b in ps + [b];
  }

  // ---------------------------------------------------------------- runs

  /** What a message is about. */
  function Topic(m: Msg): Block {
    match m
    case PrePrepare(r, _) => r
    case Prepare(d, _, _) => d
    case Commit(d, _, _) => d
    case _ => Genesis
  }

  /** Some run without duplicates leads from one state to the other. */
  ghost predicate Path(s: Sys, t: Sys) {
    exists es :: Run(s, es, t, true)
  }

  /** Four nodes in a round: messages sent in it, and those delivered. */
  ghost predicate During(s0: Sys, s: Sys, ps: seq<Block>, b: Block, msgs: set<Msg>, given: set<(Msg, int)>) {
    && Path(s0, s) && |s.nodes| == 4 && s.proposals == ps + [b] && msgs <= s.net
    && forall x :: x in s.delivered ==> Topic(x.0) in ps || x in given
  }

  /** Deliver one of them. */
  lemma Give(s0: Sys, s: Sys, ps: seq<Block>, b: Block, msgs: set<Msg>, given: set<(Msg, int)>, m: Msg, to: int) returns (t: Sys)
    requires During(s0, s, ps, b, msgs, given) && m in msgs && Topic(m) !in ps && (m, to) !in given
    requires 0 <= to < 4 && Addressed(m, to) && !s.nodes[to].halted
    ensures t.nodes == s.nodes[to := React(s.nodes[to], to, 1, m).node]
    ensures During(s0, t, ps, b, msgs + React(s.nodes[to], to, 1, m).out, given + {(m, to)})
  {
    var e := Deliver(m, to);
    assert Faults(4) == 1;
    var es :| Run(s0, es, s, true);
    hide Run, React, Addressed;
    RunAppend(s0, es, s, e, true);
    t := Next(s, e);
  }

  /** The system between two rounds: nodes 0, 1 and 2 hold all proposals. */
  ghost predicate Settled(s: Sys, ps: seq<Block>) {
    && |s.nodes| == 4 && s.proposals == ps && ProposalsOk(ps)
    && UpToDate(s.nodes[0], ps) && UpToDate(s.nodes[1], ps) && UpToDate(s.nodes[2], ps)
    && forall x :: x in s.delivered ==> Topic(x.0) in ps
  }

  /** The leader proposes, two followers prepare. */
  lemma Preparing(s: Sys, ps: seq<Block>, content: int) returns (t: Sys, msgs: set<Msg>, given: set<(Msg, int)>)
    requires Settled(s, ps)
    ensures var b, q := NextBlock(ps, content), |ps| + 1;
      && msgs == {PrePrepare(b, q), Prepare(b, q, 1), Prepare(b, q, 2)}
      && given == {(PrePrepare(b, q), 1), (PrePrepare(b, q), 2)}
      && During(s, t, ps, b, msgs, given)
      && Midway(t.nodes[0], 0, ps, b, [], [], false)
      && Midway(t.nodes[1], 1, ps, b, [], [], false)
      && Midway(t.nodes[2], 2, ps, b, [], [], false)
  {
    var b, q := NextBlock(ps, content), |ps| + 1;
    IsNew(ps, content);
    var u := Starting(s, ps, content);
    FollowerStarts(u.nodes[1], 1, ps, content);
    FollowerStarts(u.nodes[2], 2, ps, content);
    NotHalted(u.nodes[1], u.nodes[2], ps);
    hide During, Midway, UpToDate, OnPrePrepare, NextBlock, ProposalsOk;
    DuringFour(s, u, ps, b, {PrePrepare(b, q)}, {});
    u := Give(s, u, ps, b, {PrePrepare(b, q)}, {}, PrePrepare(b, q), 1);
    t := Give(s, u, ps, b, {PrePrepare(b, q)} + {Prepare(b, q, 1)}, {} + {(PrePrepare(b, q), 1)}, PrePrepare(b, q), 2);
    msgs := {PrePrepare(b, q)} + {Prepare(b, q, 1)} + {Prepare(b, q, 2)};
    given := {} + {(PrePrepare(b, q), 1)} + {(PrePrepare(b, q), 2)};
  }

  lemma DuringFour(s0: Sys, s: Sys, ps: seq<Block>, b: Block, msgs: set<Msg>, given: set<(Msg, int)>)
    requires During(s0, s, ps, b, msgs, given)
    ensures |s.nodes| == 4
  {
  }

  lemma NotHalted(p: Node, p': Node, ps: seq<Block>)
    requires UpToDate(p, ps) && UpToDate(p', ps)
    ensures !p.halted && !p'.halted
  {
  }

  lemma Starting(s: Sys, ps: seq<Block>, content: int) returns (t: Sys)
    requires Settled(s, ps)
    ensures var b := NextBlock(ps, content);
      && During(s, t, ps, b, {PrePrepare(b, |ps| + 1)}, {})
      && Midway(t.nodes[0], 0, ps, b, [], [], false) && t.nodes[1..] == s.nodes[1..]
  {
    LeaderStarts(s.nodes[0], ps, content);
    var e := Propose(content);
    assert Run(s, [], s, true);
    assert Enabled(s, e);
    hide Run, OnPropose, Midway, NextBlock;
    RunAppend(s, [], s, e, true);
    t := Next(s, e);
  }

  /** The prepares are delivered in this order: 2 to 1, 1 to 2, 1 to 0, 2 to 0. */
  function Sender(n: nat): int { if n == 0 || n == 3 then 2 else 1 }
  function Target(n: nat): int { if n == 0 then 1 else if n == 1 then 2 else 0 }

  /** The prepares node `i` has counted after `n` of them. */
  function Heard(n: nat, i: int): seq<int> {
    if i == 1 then (if n >= 1 then [2] else [])
    else if i == 2 then (if n >= 2 then [1] else [])
    else if n >= 4 then [1, 2] else if n >= 3 then [1] else []
  }

  predicate Enough(n: nat, i: int) {
    |Heard(n, i)| >= if i == 0 then 2 else 1
  }

  ghost predicate MidwayAll(s: Sys, ps: seq<Block>, b: Block, n: nat, from: int) {
    |s.nodes| == 4 && forall i :: from <= i < 3 && 0 <= i ==> Midway(s.nodes[i], i, ps, b, Heard(n, i), [], Enough(n, i))
  }

  ghost predicate Spoken(msgs: set<Msg>, b: Block, q: int, n: nat) {
    && Prepare(b, q, 1) in msgs && Prepare(b, q, 2) in msgs
    && forall i :: 0 <= i < 3 && Enough(n, i) ==> Commit(b, q, i) in msgs
  }

  ghost predicate Unsaid(given: set<(Msg, int)>, b: Block, q: int, n: nat) {
    && (forall x :: x in given ==> Topic(x.0) == b && !x.0.Commit?)
    && forall k: nat :: n <= k < 4 ==> (Prepare(b, q, Sender(k)), Target(k)) !in given
  }

  /** The round after `n` prepares. */
  ghost predicate Prepared(s0: Sys, s: Sys, ps: seq<Block>, b: Block, msgs: set<Msg>, given: set<(Msg, int)>, n: nat) {
    && During(s0, s, ps, b, msgs, given) && b !in ps
    && MidwayAll(s, ps, b, n, 0) && Spoken(msgs, b, |ps| + 1, n) && Unsaid(given, b, |ps| + 1, n)
  }

  lemma HeardMore(n: nat, i: int)
    requires n < 4 && 0 <= i < 3
    ensures Heard(n + 1, i) == Heard(n, i) + if i == Target(n) then [Sender(n)] else []
    ensures Enough(n + 1, i) <==> Enough(n, i) || (i == Target(n) && |Heard(n, i)| + 1 >= if i == 0 then 2 else 1)
  {
  }

  lemma SpokenMore(msgs: set<Msg>, b: Block, q: int, n: nat)
    requires Spoken(msgs, b, q, n) && n < 4
    ensures Spoken(msgs + (if Enough(n + 1, Target(n)) && !Enough(n, Target(n)) then {Commit(b, q, Target(n))} else {}), b, q, n + 1)
  {
    forall i | 0 <= i < 3 ensures Enough(n + 1, i) && !Enough(n, i) ==> i == Target(n) {
      HeardMore(n, i);
    }
  }

  lemma MidwayMore(s: Sys, t: Sys, ps: seq<Block>, b: Block, n: nat, p: Node)
    requires MidwayAll(s, ps, b, n, 0) && n < 4 && t.nodes == s.nodes[Target(n) := p]
    requires Midway(p, Target(n), ps, b, Heard(n + 1, Target(n)), [], Enough(n + 1, Target(n)))
    ensures MidwayAll(t, ps, b, n + 1, 0)
  {
    hide Midway;
    forall i | 0 <= i < 3 ensures Midway(t.nodes[i], i, ps, b, Heard(n + 1, i), [], Enough(n + 1, i)) {
      HeardMore(n, i);
      assert i != Target(n) ==> Heard(n, i) + [] == Heard(n, i);
    }
  }

  lemma GivePrepare(s0: Sys, s: Sys, ps: seq<Block>, b: Block, msgs: set<Msg>, given: set<(Msg, int)>, n: nat)
    returns (t: Sys, msgs': set<Msg>, given': set<(Msg, int)>)
    requires Prepared(s0, s, ps, b, msgs, given, n) && n < 4
    ensures Prepared(s0, t, ps, b, msgs', given', n + 1)
  {
    hide During, MidwayAll, OnPrepare, Heard, Enough, Spoken, Unsaid;
    var to, m := Target(n), Prepare(b, |ps| + 1, Sender(n));
    PrepareAt(s, ps, b, n);
    ToSay(msgs, given, b, |ps| + 1, n);
    SpokenMore(msgs, b, |ps| + 1, n);
    t := Give(s0, s, ps, b, msgs, given, m, to);
    msgs', given' := msgs + React(s.nodes[to], to, 1, m).out, given + {(m, to)};
    MidwayMore(s, t, ps, b, n, t.nodes[to]);
  }

  lemma ToSay(msgs: set<Msg>, given: set<(Msg, int)>, b: Block, q: int, n: nat)
    requires Spoken(msgs, b, q, n) && Unsaid(given, b, q, n) && n < 4
    ensures Prepare(b, q, Sender(n)) in msgs && (Prepare(b, q, Sender(n)), Target(n)) !in given
    ensures Unsaid(given + {(Prepare(b, q, Sender(n)), Target(n))}, b, q, n + 1)
  {
  }

  lemma PrepareAt(s: Sys, ps: seq<Block>, b: Block, n: nat)
    requires MidwayAll(s, ps, b, n, 0) && n < 4
    ensures var to := Target(n); var r := OnPrepare(s.nodes[to], to, 1, b, |ps| + 1, Sender(n));
      && |s.nodes| == 4 && !s.nodes[to].halted
      && Midway(r.node, to, ps, b, Heard(n + 1, to), [], Enough(n + 1, to))
      && r.out == if Enough(n + 1, to) && !Enough(n, to) then {Commit(b, |ps| + 1, to)} else {}
  {
    var to := Target(n);
    HeardMore(n, to);
    assert Midway(s.nodes[to], to, ps, b, Heard(n, to), [], Enough(n, to));
    hide Midway, OnPrepare, Heard, MidwayAll;
    Prepares(s.nodes[to], to, ps, b, Heard(n, to), [], Enough(n, to), Sender(n));
    MidwayIs(s.nodes[to], to, ps, b, Heard(n, to), [], Enough(n, to));
  }

  /** Commits were delivered to nodes below `k` only. */
  ghost predicate Waits(given: set<(Msg, int)>, b: Block, k: int) {
    forall x :: x in given ==> Topic(x.0) == b && (x.0.Commit? ==> x.1 < k)
  }

  ghost predicate AllCommitted(msgs: set<Msg>, b: Block, q: int) {
    Commit(b, q, 0) in msgs && Commit(b, q, 1) in msgs && Commit(b, q, 2) in msgs
  }

  /** The round after the first `k` nodes have added the block. */
  ghost predicate Adding(s0: Sys, s: Sys, ps: seq<Block>, b: Block, msgs: set<Msg>, given: set<(Msg, int)>, k: nat) {
    && During(s0, s, ps, b, msgs, given) && b !in ps && AllCommitted(msgs, b, |ps| + 1) && Waits(given, b, k)
    && MidwayAll(s, ps, b, 4, k) && AddedAll(s, ps + [b], k)
  }

  ghost predicate AddedAll(s: Sys, ps: seq<Block>, k: int) {
    forall i :: 0 <= i < k && i < |s.nodes| ==> UpToDate(s.nodes[i], ps)
  }

  lemma AddedMore(s: Sys, t: Sys, ps: seq<Block>, b: Block, k: nat, p: Node)
    requires MidwayAll(s, ps, b, 4, k) && AddedAll(s, ps + [b], k) && k < 3 && t.nodes == s.nodes[k := p] && UpToDate(p, ps + [b])
    ensures MidwayAll(t, ps, b, 4, k + 1) && AddedAll(t, ps + [b], k + 1)
  {
    hide Midway, UpToDate, Heard, Enough;
  }

  /** The two commits of the others reach node `k`. */
  lemma GiveCommits(s0: Sys, s: Sys, ps: seq<Block>, content: int, msgs: set<Msg>, given: set<(Msg, int)>, k: nat)
    returns (t: Sys, given': set<(Msg, int)>)
    requires ProposalsOk(ps) && Adding(s0, s, ps, NextBlock(ps, content), msgs, given, k) && k < 3
    ensures Adding(s0, t, ps, NextBlock(ps, content), msgs, given', k + 1)
  {
    hide During, MidwayAll, OnCommit, NextBlock, ProposalsOk, UpToDate, AddedAll;
    var b, q := NextBlock(ps, content), |ps| + 1;
    var x, y := if k == 0 then 1 else 0, if k == 2 then 1 else 2;
    CommitsReach(s, k, ps, content, x, y);
    var u := Give(s0, s, ps, b, msgs, given, Commit(b, q, x), k);
    assert msgs + {} == msgs;
    given' := given + {(Commit(b, q, x), k)};
    t := Give(s0, u, ps, b, msgs, given', Commit(b, q, y), k);
    given' := given' + {(Commit(b, q, y), k)};
    assert t.nodes == s.nodes[k := t.nodes[k]];
    AddedMore(s, t, ps, b, k, t.nodes[k]);
  }

  lemma CommitsReach(s: Sys, k: nat, ps: seq<Block>, content: int, x: int, y: int)
    requires ProposalsOk(ps) && MidwayAll(s, ps, NextBlock(ps, content), 4, k) && k < 3
    ensures var b, q := NextBlock(ps, content), |ps| + 1;
      && |s.nodes| == 4 && !s.nodes[k].halted
      && var r := OnCommit(s.nodes[k], k, 1, b, q, x);
         var r' := OnCommit(r.node, k, 1, b, q, y);
         r.out == {} && !r.node.halted && r'.out == {} && UpToDate(r'.node, ps + [b])
  {
    assert Enough(4, k);
    assert Midway(s.nodes[k], k, ps, NextBlock(ps, content), Heard(4, k), [], true);
    hide Midway, OnCommit, NextBlock, ProposalsOk, UpToDate, Heard, MidwayAll;
    CommitsAt(s.nodes[k], k, ps, content, Heard(4, k), x, y);
  }

  lemma CommitsAt(p: Node, me: int, ps: seq<Block>, content: int, prepares: seq<int>, x: int, y: int)
    requires ProposalsOk(ps) && Midway(p, me, ps, NextBlock(ps, content), prepares, [], true)
    ensures var b, q := NextBlock(ps, content), |ps| + 1;
      var r := OnCommit(p, me, 1, b, q, x);
      var r' := OnCommit(r.node, me, 1, b, q, y);
      !p.halted && r.out == {} && !r.node.halted && r'.out == {} && UpToDate(r'.node, ps + [b])
  {
    var b := NextBlock(ps, content);
    hide ProposalsOk, Midway, OnCommit, UpToDate, NextBlock;
    FirstCommit(p, me, ps, b, prepares, true, x);
    MidwayIs(p, me, ps, b, prepares, [], true);
    var p' := OnCommit(p, me, 1, b, |ps| + 1, x).node;
    SecondCommit(p', me, ps, content, prepares, true, x, y);
    MidwayIs(p', me, ps, b, prepares, [x], true);
  }

  lemma PreparingDone(s: Sys, ps: seq<Block>, content: int) returns (t: Sys, msgs: set<Msg>, given: set<(Msg, int)>)
    requires Settled(s, ps)
    ensures Prepared(s, t, ps, NextBlock(ps, content), msgs, given, 0)
  {
    SettledOk(s, ps);
    IsNew(ps, content);
    hide Settled, NextBlock, ProposalsOk, Midway;
    t, msgs, given := Preparing(s, ps, content);
  }

  /** All prepares heard, all three nodes have committed. */
  lemma AllHeard(s0: Sys, s: Sys, ps: seq<Block>, b: Block, msgs: set<Msg>, given: set<(Msg, int)>)
    requires Prepared(s0, s, ps, b, msgs, given, 4)
    ensures Adding(s0, s, ps, b, msgs, given, 0)
  {
    hide During, Midway, UpToDate;
    assert Enough(4, 0) && Enough(4, 1) && Enough(4, 2);
  }

  /** One round: from a settled system a run without duplicates leads to a settled system with one block more. */
  lemma OneRound(s: Sys, ps: seq<Block>, content: int) returns (t: Sys)
    requires Settled(s, ps)
    ensures Path(s, t) && Settled(t, ps + [NextBlock(ps, content)])
  {
    var b := NextBlock(ps, content);
    SettledOk(s, ps);
    IsNew(ps, content);
    hide Settled, NextBlock, ProposalsOk, Prepared, Adding, Path;
    var msgs, given;
    t, msgs, given := PreparingDone(s, ps, content);
    for n := 0 to 4
      invariant Prepared(s, t, ps, b, msgs, given, n)
    {
      t, msgs, given := GivePrepare(s, t, ps, b, msgs, given, n);
    }
    AllHeard(s, t, ps, b, msgs, given);
    for k := 0 to 3
      invariant Adding(s, t, ps, b, msgs, given, k)
    {
      t, given := GiveCommits(s, t, ps, content, msgs, given, k);
    }
    Settles(s, t, ps, b, msgs, given);
  }

  lemma SettledOk(s: Sys, ps: seq<Block>)
    requires Settled(s, ps)
    ensures ProposalsOk(ps)
  {
  }

  lemma Settles(s: Sys, t: Sys, ps: seq<Block>, b: Block, msgs: set<Msg>, given: set<(Msg, int)>)
    requires Adding(s, t, ps, b, msgs, given, 3) && ProposalsOk(ps + [b])
    ensures Path(s, t) && Settled(t, ps + [b])
  {
    assert b in ps + [b];
    hide Path, ProposalsOk, UpToDate, MidwayAll;
  }

  lemma {:induction false} PathAppend(s: Sys, es: seq<Event>, t: Sys, fs: seq<Event>, u: Sys)
    requires Run(s, es, t, true) && Run(t, fs, u, true)
    ensures Run(s, es + fs, u, true)
    decreases |es|
  {
    hide Enabled, Next;
    if es == [] {
      assert es + fs == fs;
    } else {
      PathAppend(Next(s, es[0]), es[1..], t, fs, u);
      assert (es + fs)[1..] == es[1..] + fs;
    }
  }

  lemma PathPath(s: Sys, t: Sys, u: Sys)
    requires Path(s, t) && Path(t, u)
    ensures Path(s, u)
  {
    var es :| Run(s, es, t, true);
    var fs :| Run(t, fs, u, true);
    hide Run;
    PathAppend(s, es, t, fs, u);
  }

  lemma {:induction false} Rounds(contents: seq<int>) returns (t: Sys, ps: seq<Block>)
    ensures Path(Init(4), t) && Settled(t, ps)
    ensures |ps| == |contents| && forall k :: 0 <= k < |ps| ==> ps[k].Block? && ps[k].content == contents[k]
    decreases |contents|
  {
    if contents == [] {
      t, ps := Init(4), [];
      assert Run(t, [], t, true);
    } else {
      var last := |contents| - 1;
      var s, qs := Rounds(contents[..last]);
      hide Path, Settled;
      t := OneRound(s, qs, contents[last]);
      ps := qs + [NextBlock(qs, contents[last])];
      PathPath(Init(4), s, t);
    }
  }

  /** For any list of contents, some run of four nodes in which no message is delivered twice and node 3 stays
      silent ends with exactly these blocks on the chains of the leader and both followers, every lock free and
      every sequence id one past the height. */
  lemma AnyBlocksInTime(contents: seq<int>)
    ensures exists es, t :: Run(Init(4), es, t, true) && AllInTime(t, contents)
  {
    var t, ps := Rounds(contents);
    var es :| Run(Init(4), es, t, true);
    hide Run;
    hide Only;
    assert AllInTime(t, contents);
  }

  ghost predicate AllInTime(t: Sys, contents: seq<int>) {
    && |t.nodes| == 4 && |t.proposals| == |contents|
    && (forall k :: 0 <= k < |contents| ==> t.proposals[k].Block? && t.proposals[k].content == contents[k])
    && forall i :: 0 <= i < 3 ==> InTime(t.nodes[i], t.proposals)
  }

  ghost predicate InTime(p: Node, ps: seq<Block>) {
    p.chain == ps && p.sequenceID == |ps| + 1 && !p.locked && !p.asking && !p.halted
  }
}
