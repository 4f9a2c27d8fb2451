/** Two limits of the barrier: what goes wrong without the side condition, and when the barrier never
    opens. */
module ReshardingLimits {
  import opened Placement
  import opened Transfers
  import opened LeaderSpec
  import opened ReshardingSystem
  import opened ReshardingInvariant
  import opened ReshardingSteps
  import opened ReshardingSafety

  // ---------------------------------------------------------------- without the side condition

  /** Two shards; account "b" lives on shard 1, everything else on shard 0. */
  function Two(): Config {
    Config(2, a => if a == "b" then 1 else 0, ["a", "b"])
  }

  lemma {:induction false} Then(c: Config, s: Sys, es: seq<Event>, t: Sys, e: Event, heard: bool)
    requires Run(c, s, es, t, heard) && Enabled(c, t, e)
    requires heard && e.Pass? ==> Heard(c, t.leaders[e.shard], e.shard)
    ensures Run(c, s, es + [e], Next(c, t, e), heard)
    decreases |es|
  {
    hide Enabled, Next;
    if es == [] {
      assert (es + [e])[1..] == [];
    } else {
      assert (es + [e])[1..] == es[1..] + [e];
      Then(c, Next(c, s, es[0]), es[1..], t, e, heard);
    }
  }

  const PAY := Tx(7, "a", "b", 1, false)
  const RELAYED := Tx(7, "a", "b", 1, true)
  const MOVE: map<Addr, int> := map["b" := 0]

  // Shard 0, from genesis to having sent its accounts.
  function P0(): Leader { NewLeader() }
  function P1(): Leader { P0().(pool := [PAY]) }
  function P2(): Leader { P0().(phase := Proposed([PAY], map["a" := INIT_BALANCE - 1])) }
  function P3(): Leader { P0().(trie := map["a" := INIT_BALANCE - 1], sequenceID := 2) }
  function P4(): Leader { P3().(modifiedMap := [MOVE], partitionOn := true) }
  function P5(): Leader { P4().(partitionReady := {0}, phase := Waiting) }
  function P6(): Leader { P5().(partitionReady := {0, 1}, readySeq := map[1 := 1]) }
  function P7(): Leader { P6().(phase := Collecting) }

  // Shard 1, from genesis to proposing a block under the new map.
  function Q4(): Leader { P0().(modifiedMap := [MOVE], partitionOn := true) }
  function Q5(): Leader { Q4().(partitionReady := {1}, phase := Waiting) }
  function Q6(): Leader { Q5().(partitionReady := {1, 0}, readySeq := map[0 := 2]) }
  function Q7(): Leader { Q6().(phase := Collecting) }
  function Q8(): Leader { Q7().(parcels := map[0 := Parcel(map[], [])], collectOver := true) }
  function Q9(): Leader { Q8().(phase := Committing(TransferMsg(MOVE, map[], 1))) }
  function Q10(): Leader {
    P0().(pmap := MOVE, sequenceID := 2, modifiedMap := [MOVE], round := 1, readySeq := map[0 := 2])
  }
  function Q11(): Leader { Q10().(pool := [RELAYED], seqIDMap := map[0 := 1]) }

  /** The system with these two leaders, before the round and after its publication. */
  function Early(l0: Leader, net: seq<Msg>, injected: seq<Tx>): Sys {
    Sys([l0, NewLeader()], net, map[], 0, map[], map[], injected, [], 0)
  }

  function Late(l0: Leader, l1: Leader, net: seq<Msg>): Sys {
    Sys([l0, l1], net, MOVE, 1, map[], MOVE, [PAY], [], 0)
  }

  function Under(): Msg { Relay(0, 1, 1, [RELAYED]) }

  /** A run from genesis to `t`. */
  ghost predicate Reaches(t: Sys) {
    exists es :: Run(Two(), Init(Two()), es, t, false)
  }

  lemma Extend(t: Sys, e: Event, u: Sys)
    requires Reaches(t) && Enabled(Two(), t, e) && Next(Two(), t, e) == u
    ensures Reaches(u)
  {
    hide Enabled, Next;
    var es :| Run(Two(), Init(Two()), es, t, false);
    Then(Two(), Init(Two()), es, t, e, false);
  }

  /** Shard 0 relays a transfer to "b". */
  lemma Relaying()
    ensures Reaches(Early(P3(), [Under()], [PAY]))
  {
    assert Early(P0(), [], []).leaders == Init(Two()).leaders;
    assert Run(Two(), Init(Two()), [], Early(P0(), [], []), false);
    assert Two().accounts[0] == "a" && Two().accounts[1] == "b";
    Extend(Early(P0(), [], []), InjectTxs(0, [PAY]), Early(P0(), [Inject(0, [PAY], 0)], [PAY]));
    PayArrives();
    RelaySent();
  }

  lemma PayArrives()
    requires Reaches(Early(P0(), [Inject(0, [PAY], 0)], [PAY]))
    ensures Reaches(Early(P1(), [], [PAY]))
  {
    assert Receive(Two(), P0(), Inject(0, [PAY], 0)) == P1();
    Extend(Early(P0(), [Inject(0, [PAY], 0)], [PAY]), Deliver(0), Early(P1(), [], [PAY]));
  }

  lemma RelaySent()
    requires Reaches(Early(P1(), [], [PAY]))
    ensures Reaches(Early(P3(), [Under()], [PAY]))
  {
    Packing();
    Extend(Early(P1(), [], [PAY]), Propose(0, 10), Early(P2(), [], [PAY]));
    CommittingPay();
    Extend(Early(P2(), [], [PAY]), Commit(0), Early(P3(), [Under()], [PAY]));
  }

  lemma Packing()
    ensures ProposeBlock(P1(), At(0, P1(), Two().addr2Shard), 10) == P2()
  {
    assert [PAY][..1] == [PAY] && [PAY][1..] == [] && [PAY][..0] == [];
    assert At(0, P1(), Two().addr2Shard).ApplyAll(map[], [PAY]) == map["a" := INIT_BALANCE - 1];
  }

  lemma CommittingPay()
    ensures Enabled(Two(), Early(P2(), [], [PAY]), Commit(0))
    ensures Next(Two(), Early(P2(), [], [PAY]), Commit(0)) == Early(P3(), [Under()], [PAY])
  {
    var h := H(Two(), Early(P2(), [], [PAY]), 0);
    assert [PAY][..0] == [];
    assert h.RelayTo(1, [PAY]) == [RELAYED];
    assert Relays(h, [PAY], 1, 1) == [];
    assert Relays(h, [PAY], 1, 2) == [Under()];
    assert h.Executed([PAY]) == [];
    assert !h.Refuses(h.ApplyAll(map[], []), PAY);
    assert h.Forged(map[], [PAY]) == 0;
  }

  /** Delivering the message behind the relay. */
  lemma Second(l0: Leader, l1: Leader, m: Msg, rest: seq<Msg>, l0': Leader, l1': Leader)
    requires Reaches(Late(l0, l1, [Under(), m] + rest)) && !SameChannel(Under(), m)
    requires m.to == 0 || m.to == 1
    requires l0' == (if m.to == 0 then Receive(Two(), l0, m) else l0)
    requires l1' == (if m.to == 1 then Receive(Two(), l1, m) else l1)
    ensures Reaches(Late(l0', l1', [Under()] + rest))
  {
    var s := Late(l0, l1, [Under(), m] + rest);
    assert s.net[1] == m && s.net[0] == Under();
    assert Without(s.net, 1) == [Under()] + rest;
    assert s.leaders[m.to := if m.to == 0 then l0' else l1'] == [l0', l1'];
    hide Receive, SameChannel;
    Extend(s, Deliver(1), Late(l0', l1', [Under()] + rest));
  }

  /** An event of one leader that sends messages after the relay. */
  lemma Own(l0: Leader, l1: Leader, e: Event, more: seq<Msg>, l0': Leader, l1': Leader)
    requires Reaches(Late(l0, l1, [Under()])) && Enabled(Two(), Late(l0, l1, [Under()]), e)
    requires Next(Two(), Late(l0, l1, [Under()]), e)
          == Late(l0, l1, [Under()]).(leaders := [l0', l1'], net := [Under()] + more)
    ensures Reaches(Late(l0', l1', [Under()] + more))
  {
    hide Enabled, Next;
    Extend(Late(l0, l1, [Under()]), e, Late(l0', l1', [Under()] + more));
  }

  /** The round is published and both shards announce readiness; the relay is still on its way. */
  lemma Announcing()
    ensures Reaches(Late(P6(), Q6(), [Under()]))
  {
    Relaying();
    Publishing();
    Extend(Early(P3(), [Under()], [PAY]), PublishRound(MOVE), Late(P3(), P0(), [Under(), Publish(0, MOVE)] + [Publish(1, MOVE)]));
    Second(P3(), P0(), Publish(0, MOVE), [Publish(1, MOVE)], P4(), P0());
    assert [Under()] + [Publish(1, MOVE)] == [Under(), Publish(1, MOVE)] + [];
    Second(P4(), P0(), Publish(1, MOVE), [], P4(), Q4());
    assert [Under()] + [] == [Under()];
    FirstAnnounces();
    SecondAnnounces();
  }

  lemma Publishing()
    ensures Enabled(Two(), Early(P3(), [Under()], [PAY]), PublishRound(MOVE))
    ensures Next(Two(), Early(P3(), [Under()], [PAY]), PublishRound(MOVE))
         == Late(P3(), P0(), [Under(), Publish(0, MOVE)] + [Publish(1, MOVE)])
  {
    assert Publishes(MOVE, 0) == [] && Publishes(MOVE, 1) == [Publish(0, MOVE)];
    assert Publishes(MOVE, 2) == [Publish(0, MOVE), Publish(1, MOVE)];
    assert [Under()] + [Publish(0, MOVE), Publish(1, MOVE)] == [Under(), Publish(0, MOVE)] + [Publish(1, MOVE)];
  }

  lemma FirstAnnounces()
    requires Reaches(Late(P4(), Q4(), [Under()]))
    ensures Reaches(Late(P5(), Q6().(partitionReady := {0}, phase := Idle), [Under()]))
  {
    assert Readies(0, 2, 1) == [] && Readies(0, 2, 2) == [Ready(0, 1, 2)];
    assert [P4(), Q4()][0 := P5()] == [P5(), Q4()];
    assert AnnounceReady(P4(), 0) == P5();
    assert |Late(P4(), Q4(), [Under()]).leaders| == 2;
    Own(P4(), Q4(), Announce(0), [Ready(0, 1, 2)], P5(), Q4());
    assert [Under()] + [Ready(0, 1, 2)] == [Under(), Ready(0, 1, 2)] + [];
    Second(P5(), Q4(), Ready(0, 1, 2), [], P5(), Q6().(partitionReady := {0}, phase := Idle));
    assert [Under()] + [] == [Under()];
  }

  lemma SecondAnnounces()
    requires Reaches(Late(P5(), Q6().(partitionReady := {0}, phase := Idle), [Under()]))
    ensures Reaches(Late(P6(), Q6(), [Under()]))
  {
    var q := Q6().(partitionReady := {0}, phase := Idle);
    assert Readies(1, 1, 1) == [Ready(1, 0, 1)] && Readies(1, 1, 2) == [Ready(1, 0, 1)];
    assert [P5(), q][1 := Q6()] == [P5(), Q6()];
    assert AnnounceReady(q, 1) == Q6();
    assert |Late(P5(), q, [Under()]).leaders| == 2;
    Own(P5(), q, Announce(1), [Ready(1, 0, 1)], P5(), Q6());
    assert [Under()] + [Ready(1, 0, 1)] == [Under(), Ready(1, 0, 1)] + [];
    Second(P5(), Q6(), Ready(1, 0, 1), [], P6(), Q6());
    assert [Under()] + [] == [Under()];
  }

  /** Shard 1 never received a relay, so its barrier opens with one still under way. */
  lemma Passing()
    ensures Reaches(Late(P7(), Q8(), [Under(), Accounts(1, 0, Parcel(map["b" := INIT_BALANCE], []))]))
    ensures !Heard(Two(), Q6(), 1)
  {
    Announcing();
    var h0, h1 := At(0, P6(), Two().addr2Shard), At(1, Q6(), Two().addr2Shard);
    assert h0.Accounts(MOVE, 1, P6().trie) == map[];
    assert Parcels(P6(), h0, 1) == [] && Parcels(P6(), h0, 2) == [Accounts(0, 1, Parcel(map[], []))];
    assert [P6(), Q6()][0 := P7()] == [P7(), Q6()];
    Own(P6(), Q6(), Pass(0), [Accounts(0, 1, Parcel(map[], []))], P7(), Q6());
    assert [Under()] + [Accounts(0, 1, Parcel(map[], []))] == [Under(), Accounts(0, 1, Parcel(map[], []))] + [];
    var q := Q6().(parcels := map[0 := Parcel(map[], [])], collectOver := true);
    Second(P7(), Q6(), Accounts(0, 1, Parcel(map[], [])), [], P7(), q);
    assert [Under()] + [] == [Under()];
    PassingSecond();
  }

  lemma PassingSecond()
    requires Reaches(Late(P7(), Q6().(parcels := map[0 := Parcel(map[], [])], collectOver := true), [Under()]))
    ensures Reaches(Late(P7(), Q8(), [Under(), Accounts(1, 0, Parcel(map["b" := INIT_BALANCE], []))]))
  {
    var q := Q6().(parcels := map[0 := Parcel(map[], [])], collectOver := true);
    var h1 := At(1, q, Two().addr2Shard);
    var p := Parcel(map["b" := INIT_BALANCE], []);
    assert h1.Accounts(MOVE, 0, q.trie) == map["b" := INIT_BALANCE];
    assert Parcels(q, h1, 1) == [Accounts(1, 0, p)] && Parcels(q, h1, 2) == [Accounts(1, 0, p)];
    assert [P7(), q][1 := Q8()] == [P7(), Q8()];
    Own(P7(), q, Pass(1), [Accounts(1, 0, p)], P7(), Q8());
    assert [Under()] + [Accounts(1, 0, p)] == [Under(), Accounts(1, 0, p)];
  }

  /** Shard 1's parcel for shard 0, which stays under way. */
  function Handover(): Msg { Accounts(1, 0, Parcel(map["b" := INIT_BALANCE], [])) }

  /** Shard 1 commits the round, and only then receives the relay for an account that has left it. */
  lemma ProposingRound()
    ensures Reaches(Late(P7(), Q9(), [Under(), Handover()]))
  {
    Passing();
    var net := [Under(), Handover()];
    RoundProposed();
    assert [P7(), Q8()][1 := Q9()] == [P7(), Q9()];
    Extend(Late(P7(), Q8(), net), ProposeRound(1, [0]), Late(P7(), Q9(), net));
  }

  lemma RoundProposed()
    ensures Reads([0], Q8().parcels) && ProposePartition(Q8(), [0]) == Q9()
  {
    var parcels := map[0 := Parcel(map[], [])];
    assert forall j :: j in [0] <==> j in parcels;
    assert [0][..0] == [];
    assert Collected(parcels, [0]) == [] && CollectedAccounts(parcels, [0]) == map[];
  }

  lemma CommittingRound()
    ensures Reaches(Late(P7(), Q11(), [Handover()]))
  {
    ProposingRound();
    var net := [Under(), Handover()];
    PartitionCommitted();
    assert [P7(), Q9()][1 := Q10()] == [P7(), Q10()];
    Extend(Late(P7(), Q9(), net), CommitRound(1), Late(P7(), Q10(), net));
    RelayArrives();
  }

  lemma RelayArrives()
    requires Reaches(Late(P7(), Q10(), [Under(), Handover()]))
    ensures Reaches(Late(P7(), Q11(), [Handover()]))
  {
    var net := [Under(), Handover()];
    assert Without(net, 0) == [Handover()];
    assert Receive(Two(), Q10(), Under()) == Q11();
    assert [P7(), Q10()][1 := Q11()] == [P7(), Q11()];
    Extend(Late(P7(), Q10(), net), Deliver(0), Late(P7(), Q11(), [Handover()]));
  }

  lemma PartitionCommitted()
    ensures CommitPartition(Q9(), 1, Two().addr2Shard) == Q10()
  {
    var h := Where(1, MOVE, Two().addr2Shard);
    assert map[] + MOVE == MOVE;
    assert AddAccounts(map[], h, map[]) == map[];
  }

  /** Without the side condition the routing panic is reachable: there is a run from genesis, in which a
      shard passes the barrier that never heard from another, to a block with a transfer that is not its
      shard's to process. */
  lemma BarrierHole()
    ensures exists es, t :: Run(Two(), Init(Two()), es, t, false) && |t.leaders| == 2
              && t.leaders[1].phase.Proposed? && IncorrectTx(H(Two(), t, 1), t.leaders[1].phase.body)
  {
    CommittingRound();
    var s := Late(P7(), Q11(), [Handover()]);
    var t := Next(Two(), s, Propose(1, 10));
    Extend(s, Propose(1, 10), t);
    assert [RELAYED][..1] == [RELAYED];
    assert t.leaders[1].phase.body == [RELAYED];
    assert H(Two(), t, 1).Misrouted(RELAYED);
    var es :| Run(Two(), Init(Two()), es, t, false);
  }

  // ---------------------------------------------------------------- when the barrier stays shut

  /** When every shard has announced, the barrier of shard `i` opens exactly if from each shard that it
      ever heard from, the last relay it received is the one sent for that shard's latest block. */
  lemma BarrierOpensWhen(c: Config, s: Sys, i: int)
    requires Inv(c, s) && 0 <= i < c.shards && s.leaders[i].phase.Waiting?
    requires AllShards(s.leaders[i].partitionReady, c.shards)
    ensures BarrierOpen(s.leaders[i], c.shards)
        <==> forall j :: j in s.leaders[i].seqIDMap ==> 0 <= j < c.shards && s.leaders[i].seqIDMap[j] + 1 == s.leaders[j].sequenceID
  {
    var r, li := R(c, s), s.leaders[i];
    assert LeaderOk(r, i, li);
    FullCard(c.shards, li.partitionReady);
    forall j | j in li.seqIDMap
      ensures 0 <= j < c.shards && j in li.readySeq && li.readySeq[j] == s.leaders[j].sequenceID
    {
      assert PairOk(r, i, li, j, s.leaders[j]);
    }
  }

  lemma {:induction false} FullCard(n: nat, ready: set<int>)
    requires AllShards(ready, n)
    ensures |ready| == n
    decreases n
  {
    if n == 0 {
      assert forall j :: j !in ready;
      assert ready == {};
    } else {
      FullCard(n - 1, ready - {n - 1});
    }
  }

  /** Shard `i` passed a barrier in round `was + 1` after relay `m` of shard `j`, and `j` has not committed
      a block since. */
  ghost predicate Stalls(s: Sys, i: int, j: int, m: nat, was: nat) {
    && 0 <= i < |s.leaders| && 0 <= j < |s.leaders| && i != j
    && j in s.leaders[i].seqIDMap && s.leaders[i].seqIDMap[j] == m
    && LinkEmpty(s.net, j, i)
    && was <= s.leaders[i].round <= was + 1 <= s.epoch
    && was <= s.leaders[j].round <= was + 1
    && s.leaders[j].sequenceID == m + 1 + s.leaders[j].round - was
    && (s.leaders[i].round == was + 1 ==> !s.leaders[i].phase.Collecting? && !s.leaders[i].phase.Committing?)
  }

  lemma LinkMore(net: seq<Msg>, more: seq<Msg>, j: int, i: int)
    requires LinkEmpty(net, j, i) && LinkEmpty(more, j, i)
    ensures LinkEmpty(net + more, j, i)
  {
  }

  lemma LinkWithout(net: seq<Msg>, k: nat, j: int, i: int)
    requires k < |net| && LinkEmpty(net, j, i)
    ensures LinkEmpty(Without(net, k), j, i)
  {
    WithoutMembers(net, k);
  }

  /** What an event adds to the network. */
  ghost function Added(c: Config, s: Sys, e: Event): seq<Msg>
    requires Enabled(c, s, e)
  {
    match e
    case InjectTxs(x, txs) => [Inject(x, txs, s.epoch)]
    case PublishRound(delta) => Publishes(delta, |s.leaders|)
    case Commit(x) => Relays(H(c, s, x), s.leaders[x].phase.body, s.leaders[x].sequenceID, |s.leaders|)
    case Announce(x) => Readies(x, s.leaders[x].sequenceID, |s.leaders|)
    case Pass(x) => Parcels(s.leaders[x], H(c, s, x), |s.leaders|)
    case _ => []
  }

  lemma AddedNoRelay(c: Config, s: Sys, e: Event, i: int, j: int)
    requires Enabled(c, s, e) && e != Commit(j)
    ensures LinkEmpty(Added(c, s, e), j, i)
  {
    hide Relays, Readies, Parcels, Publishes, ParcelFor, Where.RelayTo;
    match e
    case PublishRound(delta) => PublishesAre(delta, |s.leaders|);
    case Commit(x) => RelaysAre(H(c, s, x), s.leaders[x].phase.body, s.leaders[x].sequenceID, |s.leaders|);
    case Announce(x) => ReadiesAre(x, s.leaders[x].sequenceID, |s.leaders|);
    case Pass(x) => ParcelsAre(s.leaders[x], H(c, s, x), |s.leaders|);
    case _ =>
  }

  lemma NetAfter(c: Config, s: Sys, e: Event)
    requires Enabled(c, s, e)
    ensures Next(c, s, e).net == if e.Deliver? then Without(s.net, e.k) else s.net + Added(c, s, e)
  {
    hide Relays, Readies, Parcels, Publishes, ParcelFor, Where.RelayTo, Without;
    assert s.net + [] == s.net;
  }

  /** Only shard `j` itself sends relays of shard `j`, and only when it commits a block. */
  lemma LinkStaysEmpty(c: Config, s: Sys, e: Event, i: int, j: int)
    requires Enabled(c, s, e) && LinkEmpty(s.net, j, i) && e != Commit(j)
    ensures LinkEmpty(Next(c, s, e).net, j, i)
  {
    NetAfter(c, s, e);
    AddedNoRelay(c, s, e, i, j);
    hide LinkEmpty, Next, Added;
    if e.Deliver? {
      LinkWithout(s.net, e.k, j, i);
    } else {
      LinkMore(s.net, Added(c, s, e), j, i);
    }
  }

  lemma StallStep(c: Config, s: Sys, e: Event, i: int, j: int, m: nat, was: nat)
    requires Inv(c, s) && Enabled(c, s, e) && Stalls(s, i, j, m, was) && e != Commit(j)
    ensures Stalls(Next(c, s, e), i, j, m, was)
  {
    hide Inv;
    LinkStaysEmpty(c, s, e, i, j);
    match e
    case InjectTxs(_, _) =>
    case PublishRound(delta) =>
    case Deliver(k) => StallDeliver(c, s, k, i, j, m, was);
    case Propose(_, _) =>
    case Commit(x) =>
    case Announce(x) =>
    case Pass(x) => if x == i { StallPass(c, s, i, j, m, was); }
    case ProposeRound(_, _) =>
    case CommitRound(x) => StallCommitRound(c, s, x, i, j, m, was);
  }

  lemma StallDeliver(c: Config, s: Sys, k: nat, i: int, j: int, m: nat, was: nat)
    requires Enabled(c, s, Deliver(k)) && Stalls(s, i, j, m, was) && LinkEmpty(Next(c, s, Deliver(k)).net, j, i)
    ensures Stalls(Next(c, s, Deliver(k)), i, j, m, was)
  {
    var msg := s.net[k];
    assert !(msg.Relay? && msg.from == j && msg.to == i);
    ReceiveKeeps(c, s.leaders[msg.to], msg);
    hide Receive, Without, LinkEmpty;
  }

  lemma ReceiveKeeps(c: Config, l: Leader, m: Msg)
    ensures var l' := Receive(c, l, m);
      && l'.round == l.round && l'.sequenceID == l.sequenceID && l'.phase == l.phase
      && l'.seqIDMap == if m.Relay? then l.seqIDMap[m.from := m.seqId] else l.seqIDMap
  {
  }

  /** The second barrier of shard `i` does not open. */
  lemma StallPass(c: Config, s: Sys, i: int, j: int, m: nat, was: nat)
    requires Inv(c, s) && Enabled(c, s, Pass(i)) && Stalls(s, i, j, m, was)
    ensures s.leaders[i].round == was
  {
    BarrierAgrees(c, s, i, j);
    assert LeaderOk(R(c, s), i, s.leaders[i]);
  }

  lemma StallCommitRound(c: Config, s: Sys, x: int, i: int, j: int, m: nat, was: nat)
    requires Inv(c, s) && Enabled(c, s, CommitRound(x)) && Stalls(s, i, j, m, was)
    requires LinkEmpty(Next(c, s, CommitRound(x)).net, j, i)
    ensures Stalls(Next(c, s, CommitRound(x)), i, j, m, was)
  {
    var r := R(c, s);
    assert LeaderOk(r, x, s.leaders[x]) && LeaderOk(r, i, s.leaders[i]);
    if x == j {
      assert PairOk(r, j, s.leaders[j], i, s.leaders[i]);
    }
  }

  lemma {:induction false} StallRun(c: Config, s: Sys, es: seq<Event>, t: Sys, i: int, j: int, m: nat, was: nat)
    requires Inv(c, s) && Stalls(s, i, j, m, was) && Run(c, s, es, t, true)
    requires forall k :: 0 <= k < |es| ==> es[k] != Commit(j)
    ensures Stalls(t, i, j, m, was)
    decreases |es|
  {
    hide Inv, Stalls, Enabled, Next;
    if es != [] {
      StepInv(c, s, es[0]);
      StallStep(c, s, es[0], i, j, m, was);
      StallRun(c, Next(c, s, es[0]), es[1..], t, i, j, m, was);
    }
  }

  /** A shard that passes a barrier having heard from shard `j` completes at most the current round until
      `j` commits another block: a shard without work between two rounds stops all later rounds. */
  lemma IdleShardStopsRounds(c: Config, before: seq<Event>, s: Sys, es: seq<Event>, t: Sys, i: int, j: int)
    requires c.Valid() && Run(c, Init(c), before, s, true)
    requires 0 <= i < |s.leaders| && 0 <= j < |s.leaders| && i != j
    requires s.leaders[i].phase.Waiting? && BarrierOpen(s.leaders[i], c.shards) && Heard(c, s.leaders[i], i)
    requires j in s.leaders[i].seqIDMap
    requires Run(c, s, es, t, true) && forall k :: 0 <= k < |es| ==> es[k] != Commit(j)
    ensures |t.leaders| == |s.leaders| && t.leaders[i].round <= s.leaders[i].round + 1
  {
    hide Inv, Run, Heard, BarrierOpen;
    InitInv(c);
    RunInv(c, Init(c), before, s);
    StallStart(c, s, i, j);
    StallRun(c, s, es, t, i, j, s.leaders[i].seqIDMap[j], s.leaders[i].round);
    RunInv(c, s, es, t);
    SameSize(c, s);
    SameSize(c, t);
  }

  lemma StallStart(c: Config, s: Sys, i: int, j: int)
    requires Inv(c, s) && 0 <= i < |s.leaders| && 0 <= j < |s.leaders| && i != j
    requires s.leaders[i].phase.Waiting? && BarrierOpen(s.leaders[i], c.shards) && Heard(c, s.leaders[i], i)
    requires j in s.leaders[i].seqIDMap
    ensures Stalls(s, i, j, s.leaders[i].seqIDMap[j], s.leaders[i].round)
  {
    BarrierAgrees(c, s, i, j);
    BarrierExact(c, s, i);
    assert LeaderOk(R(c, s), i, s.leaders[i]);
  }
}
