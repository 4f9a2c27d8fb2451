/** Every event of the re-sharding system keeps the invariant. */
module ReshardingSteps {
  import opened Placement
  import opened Transfers
  import opened LeaderSpec
  import opened ReshardingSystem
  import opened ReshardingInvariant

  // ---------------------------------------------------------------- frames

  /** The parts of a leader that other leaders and messages in flight depend on. */
  predicate SameView(l: Leader, l': Leader) {
    && l.trie == l'.trie && l.sequenceID == l'.sequenceID && l.seqIDMap == l'.seqIDMap
    && |l.modifiedMap| == |l'.modifiedMap| && l.round == l'.round && l.parcels == l'.parcels
    && l.partitionReady == l'.partitionReady && l.readySeq == l'.readySeq
    && InRound(l) == InRound(l') && l.phase.Waiting? == l'.phase.Waiting?
  }

  lemma MsgView(r: Round, ls: seq<Leader>, i: nat, l': Leader, m: Msg)
    requires i < |ls| && SameView(ls[i], l') && MsgOk(r, ls, m)
    ensures MsgOk(r, ls[i := l'], m)
  {
  }

  lemma MsgsView(r: Round, ls: seq<Leader>, i: nat, l': Leader, net: seq<Msg>)
    requires i < |ls| && SameView(ls[i], l') && MsgsOk(r, ls, net)
    ensures MsgsOk(r, ls[i := l'], net)
  {
    forall k | 0 <= k < |net| ensures MsgOk(r, ls[i := l'], net[k]) {
      MsgView(r, ls, i, l', net[k]);
    }
  }

  lemma PairsView(r: Round, ls: seq<Leader>, i: nat, l': Leader)
    requires i < |ls| && SameView(ls[i], l') && PairsOk(r, ls)
    ensures PairsOk(r, ls[i := l'])
  {
    var ls' := ls[i := l'];
    forall x, y | 0 <= x < |ls'| && 0 <= y < |ls'| && x != y ensures PairOk(r, x, ls'[x], y, ls'[y]) {
      assert PairOk(r, x, ls[x], y, ls[y]);
    }
  }

  lemma UnheardView(ls: seq<Leader>, i: nat, l': Leader, net: seq<Msg>)
    requires i < |ls| && SameView(ls[i], l') && UnheardOk(ls, net)
    ensures UnheardOk(ls[i := l'], net)
  {
    var ls' := ls[i := l'];
    forall x, y | 0 <= x < |ls'| && 0 <= y < |ls'| && x != y ensures Unheard(ls', net, x, y) {
      assert Unheard(ls, net, x, y);
    }
  }

  lemma LeadersUpdate(r: Round, ls: seq<Leader>, i: nat, l': Leader)
    requires i < |ls| && LeadersOk(r, ls) && LeaderOk(r, i, l')
    ensures LeadersOk(r, ls[i := l'])
  {
  }

  lemma PendingUpdate(r: Round, ls: seq<Leader>, i: nat, l': Leader, net: seq<Msg>)
    requires i < |ls| && PendingOk(r, ls, net) && |ls[i].modifiedMap| <= |l'.modifiedMap|
    requires |l'.modifiedMap| < r.epoch ==> |ls[i].modifiedMap| < r.epoch
    ensures PendingOk(r, ls[i := l'], net)
  {
  }

  // ---------------------------------------------------------------- taking a message out

  lemma WithoutMembers(net: seq<Msg>, k: nat)
    requires k < |net|
    ensures forall x :: 0 <= x < |Without(net, k)| ==> Without(net, k)[x] == net[if x < k then x else x + 1]
  {
  }

  lemma OrderedWithout(epoch: nat, net: seq<Msg>, k: nat)
    requires k < |net| && Ordered(epoch, net)
    ensures Ordered(epoch, Without(net, k))
  {
    var rest := Without(net, k);
    forall p, q | 0 <= p < q < |rest| ensures OrderOk(epoch, rest[p], rest[q]) {
      var p', q' := if p < k then p else p + 1, if q < k then q else q + 1;
      assert rest[p] == net[p'] && rest[q] == net[q'] && p' < q';
    }
  }

  /** How the other messages stand to the one taken out: sent before it in another channel, or after. */
  predicate Beside(epoch: nat, m: Msg, x: Msg) {
    (OrderOk(epoch, x, m) && !SameChannel(x, m)) || OrderOk(epoch, m, x)
  }

  lemma RestBeside(epoch: nat, net: seq<Msg>, k: nat)
    requires k < |net| && Ordered(epoch, net) && FirstInChannel(net, k)
    ensures forall x :: 0 <= x < |Without(net, k)| ==> Beside(epoch, net[k], Without(net, k)[x])
  {
    WithoutMembers(net, k);
    forall x | 0 <= x < |Without(net, k)| ensures Beside(epoch, net[k], Without(net, k)[x]) {
      if x < k {
        assert OrderOk(epoch, net[x], net[k]);
      } else {
        assert OrderOk(epoch, net[k], net[x + 1]);
      }
    }
  }

  lemma MsgsWithout(r: Round, ls: seq<Leader>, net: seq<Msg>, k: nat)
    requires k < |net| && MsgsOk(r, ls, net)
    ensures MsgsOk(r, ls, Without(net, k))
  {
    WithoutMembers(net, k);
  }

  /** Taking out anything but a relay leaves every link as it is. */
  lemma UnheardWithout(ls: seq<Leader>, net: seq<Msg>, k: nat)
    requires k < |net| && !net[k].Relay? && UnheardOk(ls, net)
    ensures UnheardOk(ls, Without(net, k))
  {
    var rest := Without(net, k);
    forall x, y | 0 <= x < |ls| && 0 <= y < |ls| && x != y ensures Unheard(ls, rest, x, y) {
      assert Unheard(ls, net, x, y);
      if LinkEmpty(rest, y, x) {
        forall z | 0 <= z < |net| ensures !(net[z].Relay? && net[z].from == y && net[z].to == x) {
          if z != k {
            assert net[z] == rest[if z < k then z else z - 1];
          }
        }
        assert LinkEmpty(net, y, x);
      }
    }
  }

  lemma PendingWithout(r: Round, ls: seq<Leader>, net: seq<Msg>, k: nat)
    requires k < |net| && PendingOk(r, ls, net)
    requires net[k].Publish? && 0 <= net[k].to < |ls| ==> |ls[net[k].to].modifiedMap| >= r.epoch
    ensures PendingOk(r, ls, Without(net, k))
  {
    var rest := Without(net, k);
    forall i | 0 <= i < |ls| && |ls[i].modifiedMap| < r.epoch ensures exists z :: 0 <= z < |rest| && rest[z] == Publish(i, r.delta) {
      var z :| 0 <= z < |net| && net[z] == Publish(i, r.delta);
      assert z != k;
      assert rest[if z < k then z else z - 1] == Publish(i, r.delta);
    }
  }

  // ---------------------------------------------------------------- adding messages

  /** No new message is a relay, or they only fill links. */
  lemma UnheardMore(ls: seq<Leader>, net: seq<Msg>, more: seq<Msg>)
    requires UnheardOk(ls, net)
    ensures UnheardOk(ls, net + more)
  {
    forall x, y | 0 <= x < |ls| && 0 <= y < |ls| && x != y ensures Unheard(ls, net + more, x, y) {
      assert Unheard(ls, net, x, y);
      if LinkEmpty(net + more, y, x) {
        forall z | 0 <= z < |net| ensures !(net[z].Relay? && net[z].from == y && net[z].to == x) {
          assert (net + more)[z] == net[z];
        }
        assert LinkEmpty(net, y, x);
      }
    }
  }

  lemma PendingMore(r: Round, ls: seq<Leader>, net: seq<Msg>, more: seq<Msg>)
    requires PendingOk(r, ls, net)
    ensures PendingOk(r, ls, net + more)
  {
    forall i | 0 <= i < |ls| && |ls[i].modifiedMap| < r.epoch ensures exists z :: 0 <= z < |net + more| && (net + more)[z] == Publish(i, r.delta) {
      var z :| 0 <= z < |net| && net[z] == Publish(i, r.delta);
      assert (net + more)[z] == Publish(i, r.delta);
    }
  }

  lemma OrderedMore(epoch: nat, net: seq<Msg>, more: seq<Msg>)
    requires Ordered(epoch, net) && Ordered(epoch, more)
    requires forall p, q :: 0 <= p < |net| && 0 <= q < |more| ==> OrderOk(epoch, net[p], more[q])
    ensures Ordered(epoch, net + more)
  {
    var all := net + more;
    forall p, q | 0 <= p < q < |all| ensures OrderOk(epoch, all[p], all[q]) {
      if q < |net| {
        assert OrderOk(epoch, net[p], net[q]);
      } else if p < |net| {
        assert OrderOk(epoch, net[p], more[q - |net|]);
      } else {
        assert OrderOk(epoch, more[p - |net|], more[q - |net|]);
      }
    }
  }

  lemma MsgsMore(r: Round, ls: seq<Leader>, net: seq<Msg>, more: seq<Msg>)
    requires MsgsOk(r, ls, net) && MsgsOk(r, ls, more)
    ensures MsgsOk(r, ls, net + more)
  {
  }

  // ---------------------------------------------------------------- injection and packing

  lemma StepInject(c: Config, s: Sys, i: int, txs: seq<Tx>)
    requires Inv(c, s) && Enabled(c, s, InjectTxs(i, txs))
    ensures Inv(c, Next(c, s, InjectTxs(i, txs)))
  {
    var r, m := R(c, s), Inject(i, txs, s.epoch);
    var s' := Next(c, s, InjectTxs(i, txs));
    assert R(c, s') == r;
    assert MsgOk(r, s.leaders, m);
    MsgsMore(r, s.leaders, s.net, [m]);
    UnheardMore(s.leaders, s.net, [m]);
    PendingMore(r, s.leaders, s.net, [m]);
    forall p | 0 <= p < |s.net| ensures OrderOk(s.epoch, s.net[p], m) {
      assert MsgOk(r, s.leaders, s.net[p]);
    }
    OrderedMore(s.epoch, s.net, [m]);
  }

  /** The parts of the invariant that a change of one leader's private parts keeps. */
  lemma PrivateChange(c: Config, s: Sys, i: nat, l': Leader, s': Sys)
    requires Inv(c, s) && i < c.shards && SameView(s.leaders[i], l')
    requires LeaderOk(R(c, s), i, l')
    requires s' == s.(leaders := s.leaders[i := l'])
    ensures Inv(c, s')
  {
    var r := R(c, s);
    assert R(c, s') == r;
    LeadersUpdate(r, s.leaders, i, l');
    PairsView(r, s.leaders, i, l');
    MsgsView(r, s.leaders, i, l', s.net);
    UnheardView(s.leaders, i, l', s.net);
    PendingUpdate(r, s.leaders, i, l', s.net);
  }

  lemma StepPropose(c: Config, s: Sys, i: int, blockSize: nat)
    requires Inv(c, s) && Enabled(c, s, Propose(i, blockSize))
    ensures Inv(c, Next(c, s, Propose(i, blockSize)))
  {
    var r, l := R(c, s), s.leaders[i];
    var l' := ProposeBlock(l, H(c, s, i), blockSize);
    assert LeaderOk(r, i, l);
    assert TransfersOk(r, i, l') by {
      var n := Min(blockSize, |l.pool|);
      assert l.pool == l.pool[..n] + l.pool[n..];
      assert At(i, l, r.addr2Shard) == At(i, l', r.addr2Shard);
      forall tx | tx in l'.phase.body ensures r.Known(tx) && r.Sees(l', Key(tx)) == i {
        assert PoolRoute(r, i, l, tx);
      }
      forall tx | tx in l'.pool ensures PoolRoute(r, i, l', tx) {
        assert PoolRoute(r, i, l, tx);
      }
    }
    PrivateChange(c, s, i, l', Next(c, s, Propose(i, blockSize)));
  }

  // ---------------------------------------------------------------- deliveries

  /** Everything about delivery that concerns the network alone. */
  lemma TakeOut(c: Config, s: Sys, k: nat)
    requires Inv(c, s) && k < |s.net| && FirstInChannel(s.net, k)
    ensures MsgsOk(R(c, s), s.leaders, Without(s.net, k)) && Ordered(s.epoch, Without(s.net, k))
    ensures forall x :: 0 <= x < |Without(s.net, k)| ==> Beside(s.epoch, s.net[k], Without(s.net, k)[x])
  {
    MsgsWithout(R(c, s), s.leaders, s.net, k);
    OrderedWithout(s.epoch, s.net, k);
    RestBeside(s.epoch, s.net, k);
  }

  /** A shard with the round's delta still on its way does not get an injection routed after it. */
  lemma InjectInTime(c: Config, s: Sys, k: nat)
    requires Inv(c, s) && k < |s.net| && FirstInChannel(s.net, k) && s.net[k].Inject?
    ensures var i := s.net[k].to;
      0 <= i < |s.leaders| && (s.net[k].epoch == s.epoch ==> |s.leaders[i].modifiedMap| == s.epoch)
  {
    var r, i := R(c, s), s.net[k].to;
    assert MsgOk(r, s.leaders, s.net[k]);
    assert LeaderOk(r, i, s.leaders[i]);
    if |s.leaders[i].modifiedMap| < s.epoch {
      var z :| 0 <= z < |s.net| && s.net[z] == Publish(i, r.delta);
      assert SameChannel(s.net[z], s.net[k]);
      assert k < z;
      assert OrderOk(s.epoch, s.net[k], s.net[z]);
    }
  }

  lemma DeliverInject(c: Config, s: Sys, k: nat)
    requires Inv(c, s) && Enabled(c, s, Deliver(k)) && s.net[k].Inject?
    ensures Inv(c, Next(c, s, Deliver(k)))
  {
    var r, m := R(c, s), s.net[k];
    var i, l := m.to, s.leaders[m.to];
    var l' := HandleInject(l, m.txs);
    assert MsgOk(r, s.leaders, m) && LeaderOk(r, i, l);
    InjectInTime(c, s, k);
    assert TransfersOk(r, i, l') by {
      assert At(i, l, r.addr2Shard) == At(i, l', r.addr2Shard);
      forall tx | tx in l'.pool ensures PoolRoute(r, i, l', tx) {
        if tx in l.pool {
          assert PoolRoute(r, i, l, tx);
        } else {
          assert InjectedRoute(r, i, m.epoch, tx);
        }
      }
    }
    TakeOut(c, s, k);
    UnheardWithout(s.leaders, s.net, k);
    PendingWithout(r, s.leaders, s.net, k);
    PrivateChange(c, s.(net := Without(s.net, k)), i, l', Next(c, s, Deliver(k)));
  }

  /** A delivery keeps the invariant once its three ingredients are there. */
  lemma Delivered(c: Config, s: Sys, k: nat, l': Leader)
    requires Inv(c, s) && Enabled(c, s, Deliver(k)) && l' == Receive(c, s.leaders[s.net[k].to], s.net[k])
    requires LeaderOk(R(c, s), s.net[k].to, l')
    requires MsgsOk(R(c, s), s.leaders[s.net[k].to := l'], Without(s.net, k))
    requires PairsOk(R(c, s), s.leaders[s.net[k].to := l'])
    requires UnheardOk(s.leaders[s.net[k].to := l'], Without(s.net, k))
    ensures Inv(c, Next(c, s, Deliver(k)))
  {
    hide MsgOk, PairOk, OrderOk;
    var r, i, l := R(c, s), s.net[k].to, s.leaders[s.net[k].to];
    assert R(c, Next(c, s, Deliver(k))) == r;
    OrderedWithout(s.epoch, s.net, k);
    LeadersUpdate(r, s.leaders, i, l');
    assert LeaderOk(r, i, l);
    PendingUpdate(r, s.leaders, i, l', s.net);
    PendingWithout(r, s.leaders[i := l'], s.net, k);
  }

  lemma TransfersSame(r: Round, i: int, l: Leader, l': Leader)
    requires TransfersOk(r, i, l)
    requires l'.pool == l.pool && l'.phase == l.phase && l'.trie == l.trie && l'.pmap == l.pmap && l'.round == l.round
    requires l.partitionOn ==> l'.partitionOn
    ensures TransfersOk(r, i, l')
  {
    assert At(i, l, r.addr2Shard) == At(i, l', r.addr2Shard);
    forall tx | tx in l'.pool ensures PoolRoute(r, i, l', tx) {
      assert PoolRoute(r, i, l, tx);
    }
  }

  /** Links only matter through the heard relays and the committed blocks. */
  lemma UnheardPrivate(ls: seq<Leader>, i: nat, l': Leader, net: seq<Msg>)
    requires i < |ls| && UnheardOk(ls, net)
    requires l'.seqIDMap == ls[i].seqIDMap && l'.sequenceID - l'.round == ls[i].sequenceID - ls[i].round
    ensures UnheardOk(ls[i := l'], net)
  {
    var ls' := ls[i := l'];
    forall x, y | 0 <= x < |ls'| && 0 <= y < |ls'| && x != y ensures Unheard(ls', net, x, y) {
      assert Unheard(ls, net, x, y);
    }
  }

  lemma DeliverPublish(c: Config, s: Sys, k: nat)
    requires Inv(c, s) && Enabled(c, s, Deliver(k)) && s.net[k].Publish?
    ensures Inv(c, Next(c, s, Deliver(k)))
  {
    hide MsgOk, PairOk, LeaderOk, OrderOk;
    var r, m, ls := R(c, s), s.net[k], s.leaders;
    var l' := Receive(c, ls[m.to], m);
    var ls' := ls[m.to := l'];
    TakeOut(c, s, k);
    DeliverPublishLeader(r, c, ls, m);
    forall x | 0 <= x < |Without(s.net, k)| ensures MsgOk(r, ls', Without(s.net, k)[x]) {
      DeliverPublishMsg(r, c, ls, m, Without(s.net, k)[x]);
    }
    forall x, y | 0 <= x < |ls'| && 0 <= y < |ls'| && x != y ensures PairOk(r, x, ls'[x], y, ls'[y]) {
      DeliverPublishPair(r, c, ls, m, x, y);
    }
    UnheardWithout(ls, s.net, k);
    UnheardPrivate(ls, m.to, l', Without(s.net, k));
    Delivered(c, s, k, l');
  }

  lemma DeliverPublishLeader(r: Round, c: Config, ls: seq<Leader>, m: Msg)
    requires m.Publish? && MsgOk(r, ls, m) && 0 <= m.to < |ls| == r.shards == c.shards
    requires LeadersOk(r, ls)
    ensures LeaderOk(r, m.to, Receive(c, ls[m.to], m))
  {
    var i, l, l' := m.to, ls[m.to], Receive(c, ls[m.to], m);
    TransfersSame(r, i, l, l');
  }

  lemma DeliverPublishMsg(r: Round, c: Config, ls: seq<Leader>, m: Msg, x: Msg)
    requires m.Publish? && MsgOk(r, ls, m) && MsgOk(r, ls, x) && Beside(r.epoch, m, x)
    ensures MsgOk(r, ls[m.to := Receive(c, ls[m.to], m)], x)
  {
  }

  lemma DeliverPublishPair(r: Round, c: Config, ls: seq<Leader>, m: Msg, x: nat, y: nat)
    requires m.Publish? && MsgOk(r, ls, m) && x < |ls| && y < |ls| && x != y && PairOk(r, x, ls[x], y, ls[y])
    requires LeaderOk(r, m.to, ls[m.to])
    ensures var ls' := ls[m.to := Receive(c, ls[m.to], m)]; PairOk(r, x, ls'[x], y, ls'[y])
  {
  }

  lemma DeliverReady(c: Config, s: Sys, k: nat)
    requires Inv(c, s) && Enabled(c, s, Deliver(k)) && s.net[k].Ready?
    ensures Inv(c, Next(c, s, Deliver(k)))
  {
    hide MsgOk, PairOk, LeaderOk, OrderOk;
    var r, m, ls := R(c, s), s.net[k], s.leaders;
    var l' := Receive(c, ls[m.to], m);
    var ls' := ls[m.to := l'];
    TakeOut(c, s, k);
    DeliverReadyLeader(r, c, ls, m);
    forall x | 0 <= x < |Without(s.net, k)| ensures MsgOk(r, ls', Without(s.net, k)[x]) {
      DeliverReadyMsg(r, c, ls, m, Without(s.net, k)[x]);
    }
    forall x, y | 0 <= x < |ls'| && 0 <= y < |ls'| && x != y ensures PairOk(r, x, ls'[x], y, ls'[y]) {
      DeliverReadyPair(r, c, ls, m, x, y);
    }
    UnheardWithout(ls, s.net, k);
    UnheardPrivate(ls, m.to, l', Without(s.net, k));
    Delivered(c, s, k, l');
  }

  lemma DeliverReadyLeader(r: Round, c: Config, ls: seq<Leader>, m: Msg)
    requires m.Ready? && MsgOk(r, ls, m) && 0 <= m.to < |ls| == r.shards == c.shards
    requires LeadersOk(r, ls)
    ensures LeaderOk(r, m.to, Receive(c, ls[m.to], m))
  {
    var i, l, l' := m.to, ls[m.to], Receive(c, ls[m.to], m);
    TransfersSame(r, i, l, l');
  }

  lemma DeliverReadyMsg(r: Round, c: Config, ls: seq<Leader>, m: Msg, x: Msg)
    requires m.Ready? && MsgOk(r, ls, m) && MsgOk(r, ls, x) && Beside(r.epoch, m, x)
    ensures MsgOk(r, ls[m.to := Receive(c, ls[m.to], m)], x)
  {
  }

  lemma DeliverReadyPair(r: Round, c: Config, ls: seq<Leader>, m: Msg, x: nat, y: nat)
    requires m.Ready? && MsgOk(r, ls, m) && x < |ls| && y < |ls| && x != y && PairOk(r, x, ls[x], y, ls[y])
    requires LeaderOk(r, m.to, ls[m.to])
    ensures var ls' := ls[m.to := Receive(c, ls[m.to], m)]; PairOk(r, x, ls'[x], y, ls'[y])
  {
  }

  lemma DeliverParcel(c: Config, s: Sys, k: nat)
    requires Inv(c, s) && Enabled(c, s, Deliver(k)) && s.net[k].Accounts?
    ensures Inv(c, Next(c, s, Deliver(k)))
  {
    hide MsgOk, PairOk, LeaderOk, OrderOk;
    var r, m, ls := R(c, s), s.net[k], s.leaders;
    var l' := Receive(c, ls[m.to], m);
    var ls' := ls[m.to := l'];
    TakeOut(c, s, k);
    DeliverParcelLeader(r, c, ls, m);
    forall x | 0 <= x < |Without(s.net, k)| ensures MsgOk(r, ls', Without(s.net, k)[x]) {
      DeliverParcelMsg(r, c, ls, m, Without(s.net, k)[x]);
    }
    forall x, y | 0 <= x < |ls'| && 0 <= y < |ls'| && x != y ensures PairOk(r, x, ls'[x], y, ls'[y]) {
      DeliverParcelPair(r, c, ls, m, x, y);
    }
    UnheardWithout(ls, s.net, k);
    UnheardPrivate(ls, m.to, l', Without(s.net, k));
    Delivered(c, s, k, l');
  }

  lemma DeliverParcelLeader(r: Round, c: Config, ls: seq<Leader>, m: Msg)
    requires m.Accounts? && MsgOk(r, ls, m) && 0 <= m.to < |ls| == r.shards == c.shards
    requires LeadersOk(r, ls)
    ensures LeaderOk(r, m.to, Receive(c, ls[m.to], m))
  {
    var i, l, l' := m.to, ls[m.to], Receive(c, ls[m.to], m);
    TransfersSame(r, i, l, l');
    assert l'.parcels.Keys == l.parcels.Keys + {m.from};
    FullButMe(c.shards, i, l'.parcels.Keys);
  }

  lemma DeliverParcelMsg(r: Round, c: Config, ls: seq<Leader>, m: Msg, x: Msg)
    requires m.Accounts? && MsgOk(r, ls, m) && MsgOk(r, ls, x) && Beside(r.epoch, m, x)
    ensures MsgOk(r, ls[m.to := Receive(c, ls[m.to], m)], x)
  {
  }

  lemma DeliverParcelPair(r: Round, c: Config, ls: seq<Leader>, m: Msg, x: nat, y: nat)
    requires m.Accounts? && MsgOk(r, ls, m) && x < |ls| && y < |ls| && x != y && PairOk(r, x, ls[x], y, ls[y])
    requires LeaderOk(r, m.to, ls[m.to])
    ensures var ls' := ls[m.to := Receive(c, ls[m.to], m)]; PairOk(r, x, ls'[x], y, ls'[y])
  {
  }

  lemma DeliverRelay(c: Config, s: Sys, k: nat)
    requires Inv(c, s) && Enabled(c, s, Deliver(k)) && s.net[k].Relay?
    ensures Inv(c, Next(c, s, Deliver(k)))
  {
    hide MsgOk, PairOk, LeaderOk, OrderOk;
    var r, m, ls := R(c, s), s.net[k], s.leaders;
    var l' := Receive(c, ls[m.to], m);
    var ls' := ls[m.to := l'];
    TakeOut(c, s, k);
    DeliverRelayLeader(r, c, ls, m);
    forall x | 0 <= x < |Without(s.net, k)| ensures MsgOk(r, ls', Without(s.net, k)[x]) {
      DeliverRelayMsg(r, c, ls, m, Without(s.net, k)[x]);
    }
    forall x, y | 0 <= x < |ls'| && 0 <= y < |ls'| && x != y ensures PairOk(r, x, ls'[x], y, ls'[y]) {
      DeliverRelayPair(r, c, ls, m, x, y);
    }
    UnheardDelivered(ls, s.net, k, l');
    Delivered(c, s, k, l');
  }

  lemma DeliverRelayLeader(r: Round, c: Config, ls: seq<Leader>, m: Msg)
    requires m.Relay? && MsgOk(r, ls, m) && 0 <= m.to < |ls| == r.shards == c.shards
    requires LeadersOk(r, ls)
    ensures LeaderOk(r, m.to, Receive(c, ls[m.to], m))
  {
    var i, l, l' := m.to, ls[m.to], Receive(c, ls[m.to], m);
    assert At(i, l, r.addr2Shard) == At(i, l', r.addr2Shard);
    forall tx | tx in l'.pool ensures PoolRoute(r, i, l', tx) {
      if tx in l.pool {
        assert PoolRoute(r, i, l, tx);
      } else {
        assert RelayedRoute(r, i, l, tx);
      }
    }
  }

  lemma DeliverRelayMsg(r: Round, c: Config, ls: seq<Leader>, m: Msg, x: Msg)
    requires m.Relay? && MsgOk(r, ls, m) && MsgOk(r, ls, x) && Beside(r.epoch, m, x)
    ensures MsgOk(r, ls[m.to := Receive(c, ls[m.to], m)], x)
  {
  }

  lemma DeliverRelayPair(r: Round, c: Config, ls: seq<Leader>, m: Msg, x: nat, y: nat)
    requires m.Relay? && MsgOk(r, ls, m) && x < |ls| && y < |ls| && x != y && PairOk(r, x, ls[x], y, ls[y])
    requires LeaderOk(r, m.to, ls[m.to])
    ensures var ls' := ls[m.to := Receive(c, ls[m.to], m)]; PairOk(r, x, ls'[x], y, ls'[y])
  {
  }

  lemma UnheardDelivered(ls: seq<Leader>, net: seq<Msg>, k: nat, l': Leader)
    requires k < |net| && net[k].Relay? && 0 <= net[k].to < |ls| && UnheardOk(ls, net)
    requires l'.seqIDMap == ls[net[k].to].seqIDMap[net[k].from := net[k].seqId]
    requires l'.sequenceID == ls[net[k].to].sequenceID && l'.round == ls[net[k].to].round
    ensures UnheardOk(ls[net[k].to := l'], Without(net, k))
  {
    var ls', rest := ls[net[k].to := l'], Without(net, k);
    forall x, y | 0 <= x < |ls| && 0 <= y < |ls| && x != y ensures Unheard(ls', rest, x, y) {
      assert Unheard(ls, net, x, y);
      if LinkEmpty(rest, y, x) && y !in ls'[x].seqIDMap {
        forall z | 0 <= z < |net| ensures !(net[z].Relay? && net[z].from == y && net[z].to == x) {
          if z != k {
            assert net[z] == rest[if z < k then z else z - 1];
          }
        }
        assert LinkEmpty(net, y, x);
      }
    }
  }

  // ---------------------------------------------------------------- announcing readiness

  lemma {:induction false} ReadiesAre(me: int, seqId: nat, n: nat)
    ensures forall k :: 0 <= k < |Readies(me, seqId, n)| ==>
              var m := Readies(me, seqId, n)[k]; m == Ready(me, m.to, seqId) && 0 <= m.to < n && m.to != me
    ensures forall p, q :: 0 <= p < q < |Readies(me, seqId, n)| ==>
              Readies(me, seqId, n)[p].to < Readies(me, seqId, n)[q].to
  {
    if n > 0 {
      ReadiesAre(me, seqId, n - 1);
    }
  }

  /** Assembling the invariant when one leader changes and messages are added. */
  lemma Sends(c: Config, s: Sys, i: nat, l': Leader, more: seq<Msg>, s': Sys)
    requires Inv(c, s) && i < c.shards
    requires R(c, s') == R(c, s) && s'.leaders == s.leaders[i := l'] && s'.net == s.net + more
    requires LeaderOk(R(c, s), i, l') && |l'.modifiedMap| == |s.leaders[i].modifiedMap|
    requires PairsOk(R(c, s), s.leaders[i := l'])
    requires MsgsOk(R(c, s), s.leaders[i := l'], s.net) && MsgsOk(R(c, s), s.leaders[i := l'], more)
    requires Ordered(s.epoch, more)
    requires forall p, q :: 0 <= p < |s.net| && 0 <= q < |more| ==> OrderOk(s.epoch, s.net[p], more[q])
    requires UnheardOk(s.leaders[i := l'], s.net + more)
    ensures Inv(c, s')
  {
    hide MsgOk, PairOk, OrderOk, Unheard;
    var r := R(c, s);
    LeadersUpdate(r, s.leaders, i, l');
    OrderedMore(s.epoch, s.net, more);
    MsgsMore(r, s.leaders[i := l'], s.net, more);
    PendingUpdate(r, s.leaders, i, l', s.net);
    PendingMore(r, s.leaders[i := l'], s.net, more);
  }

  lemma StepAnnounce(c: Config, s: Sys, i: int)
    requires Inv(c, s) && Enabled(c, s, Announce(i))
    ensures Inv(c, Next(c, s, Announce(i)))
  {
    hide MsgOk, PairOk, OrderOk, LeaderOk;
    var r, ls, l := R(c, s), s.leaders, s.leaders[i];
    var l' := AnnounceReady(l, i);
    var ls', more := ls[i := l'], Readies(i, l.sequenceID, |ls|);
    AnnounceLeader(r, i, ls);
    ReadiesAre(i, l.sequenceID, |ls|);
    forall x, y | 0 <= x < |ls'| && 0 <= y < |ls'| && x != y ensures PairOk(r, x, ls'[x], y, ls'[y]) {
      AnnouncePair(r, ls, i, x, y);
    }
    forall k | 0 <= k < |s.net| ensures MsgOk(r, ls', s.net[k]) {
      AnnounceKeeps(r, ls, i, s.net[k]);
    }
    forall k | 0 <= k < |more| ensures MsgOk(r, ls', more[k]) {
      AnnounceNew(r, ls, i, more[k].to);
    }
    forall p, q | 0 <= p < |s.net| && 0 <= q < |more| ensures OrderOk(s.epoch, s.net[p], more[q]) {
      AnnounceOrder(r, ls, i, s.net[p], more[q]);
    }
    forall p, q | 0 <= p < q < |more| ensures OrderOk(s.epoch, more[p], more[q]) {
      ReadyOrder(s.epoch, more[p], more[q]);
    }
    UnheardPrivate(ls, i, l', s.net);
    UnheardMore(ls', s.net, more);
    Sends(c, s, i, l', more, Next(c, s, Announce(i)));
  }

  lemma AnnounceLeader(r: Round, i: int, ls: seq<Leader>)
    requires 0 <= i < |ls| == r.shards && LeadersOk(r, ls) && ls[i].phase.Idle? && ls[i].partitionOn
    ensures LeaderOk(r, i, AnnounceReady(ls[i], i))
  {
    var l, l' := ls[i], AnnounceReady(ls[i], i);
    assert LeaderOk(r, i, l);
    forall tx | tx in l'.pool ensures PoolRoute(r, i, l', tx) {
      assert PoolRoute(r, i, l, tx);
    }
  }

  lemma AnnouncePair(r: Round, ls: seq<Leader>, i: int, x: nat, y: nat)
    requires 0 <= i < |ls| == r.shards && LeadersOk(r, ls) && ls[i].phase.Idle? && ls[i].partitionOn
    requires x < |ls| && y < |ls| && x != y && PairOk(r, x, ls[x], y, ls[y])
    ensures var ls' := ls[i := AnnounceReady(ls[i], i)]; PairOk(r, x, ls'[x], y, ls'[y])
  {
    assert LeaderOk(r, i, ls[i]);
  }

  lemma AnnounceKeeps(r: Round, ls: seq<Leader>, i: int, m: Msg)
    requires 0 <= i < |ls| == r.shards && LeadersOk(r, ls) && ls[i].phase.Idle? && ls[i].partitionOn
    requires MsgOk(r, ls, m)
    ensures MsgOk(r, ls[i := AnnounceReady(ls[i], i)], m)
  {
    assert LeaderOk(r, i, ls[i]);
  }

  lemma AnnounceNew(r: Round, ls: seq<Leader>, i: int, j: int)
    requires 0 <= i < |ls| == r.shards && LeadersOk(r, ls) && ls[i].phase.Idle? && ls[i].partitionOn
    requires 0 <= j < |ls| && j != i && PairsOk(r, ls)
    ensures MsgOk(r, ls[i := AnnounceReady(ls[i], i)], Ready(i, j, ls[i].sequenceID))
  {
    assert LeaderOk(r, i, ls[i]) && PairOk(r, j, ls[j], i, ls[i]) && PairOk(r, i, ls[i], j, ls[j]);
  }

  lemma AnnounceOrder(r: Round, ls: seq<Leader>, i: int, m: Msg, n: Msg)
    requires 0 <= i < |ls| && ls[i].phase.Idle? && MsgOk(r, ls, m) && n.Ready? && n.from == i
    ensures OrderOk(r.epoch, m, n)
  {
  }

  lemma ReadyOrder(epoch: nat, m: Msg, n: Msg)
    requires m.Ready? && n.Ready? && m.to != n.to
    ensures OrderOk(epoch, m, n)
  {
  }

  // ---------------------------------------------------------------- passing the barrier

  lemma {:induction false} ParcelsAre(l: Leader, h: Where, n: nat)
    ensures forall k :: 0 <= k < |Parcels(l, h, n)| ==>
              var m := Parcels(l, h, n)[k]; m == Accounts(h.me, m.to, ParcelFor(l, h, m.to)) && 0 <= m.to < n && m.to != h.me
    ensures forall p, q :: 0 <= p < q < |Parcels(l, h, n)| ==> Parcels(l, h, n)[p].to < Parcels(l, h, n)[q].to
  {
    if n > 0 {
      ParcelsAre(l, h, n - 1);
    }
  }

  lemma StepPass(c: Config, s: Sys, i: int)
    requires Inv(c, s) && Enabled(c, s, Pass(i)) && Heard(c, s.leaders[i], i)
    ensures Inv(c, Next(c, s, Pass(i)))
  {
    hide MsgOk, PairOk, OrderOk, LeaderOk, BarrierOpen;
    var r, ls, l, h := R(c, s), s.leaders, s.leaders[i], H(c, s, i);
    var l' := SendParcels(l, h, |ls|);
    var ls', more := ls[i := l'], Parcels(l, h, |ls|);
    BarrierExact(c, s, i);
    PassReady(c, s, i);
    PassLeader(r, i, ls);
    ParcelsAre(l, h, |ls|);
    forall x, y | 0 <= x < |ls'| && 0 <= y < |ls'| && x != y ensures PairOk(r, x, ls'[x], y, ls'[y]) {
      PassPair(r, ls, i, x, y);
    }
    forall k | 0 <= k < |s.net| ensures MsgOk(r, ls', s.net[k]) {
      PassKeeps(r, ls, i, s.net, k);
    }
    forall k | 0 <= k < |more| ensures MsgOk(r, ls', more[k]) {
      PassNew(r, ls, i, more[k].to);
    }
    forall p, q | 0 <= p < |s.net| && 0 <= q < |more| ensures OrderOk(s.epoch, s.net[p], more[q]) {
      PassOrder(r, ls, i, s.net[p], more[q]);
    }
    forall p, q | 0 <= p < q < |more| ensures OrderOk(s.epoch, more[p], more[q]) {
      ParcelOrder(s.epoch, more[p], more[q]);
    }
    UnheardPrivate(ls, i, l', s.net);
    UnheardMore(ls', s.net, more);
    Sends(c, s, i, l', more, Next(c, s, Pass(i)));
  }

  lemma PassReady(c: Config, s: Sys, i: int)
    requires Inv(c, s) && Enabled(c, s, Pass(i))
    ensures AllShards(s.leaders[i].partitionReady, c.shards)
  {
    assert LeaderOk(R(c, s), i, s.leaders[i]);
    FullSet(c.shards, s.leaders[i].partitionReady);
  }

  function Passed(r: Round, ls: seq<Leader>, i: nat): Leader
    requires i < |ls|
  {
    SendParcels(ls[i], At(i, ls[i], r.addr2Shard), |ls|)
  }

  /** After the split every transfer left has its key here under the new map. */
  lemma PassLeader(r: Round, i: int, ls: seq<Leader>)
    requires 0 <= i < |ls| == r.shards && r.Valid() && LeadersOk(r, ls) && ls[i].phase.Waiting?
    requires AllShards(ls[i].partitionReady, r.shards)
    ensures LeaderOk(r, i, Passed(r, ls, i))
  {
    var l, l', h := ls[i], Passed(r, ls, i), At(i, ls[i], r.addr2Shard);
    assert LeaderOk(r, i, l);
    assert LastDelta(l) == r.delta;
    SplitRoutes(h, r.delta, r.shards, 0, l.pool);
    forall tx | tx in l'.pool ensures PoolRoute(r, i, l', tx) {
      assert PoolRoute(r, i, l, tx);
    }
  }

  lemma PassPair(r: Round, ls: seq<Leader>, i: int, x: nat, y: nat)
    requires 0 <= i < |ls| == r.shards && LeadersOk(r, ls) && ls[i].phase.Waiting?
    requires x < |ls| && y < |ls| && x != y && PairOk(r, x, ls[x], y, ls[y])
    ensures var ls' := ls[i := Passed(r, ls, i)]; PairOk(r, x, ls'[x], y, ls'[y])
  {
    assert LeaderOk(r, i, ls[i]);
  }

  /** Relays are routed by the old map until their receiver passes, and by then none is left. */
  lemma PassKeeps(r: Round, ls: seq<Leader>, i: int, net: seq<Msg>, k: nat)
    requires 0 <= i < |ls| == r.shards && LeadersOk(r, ls) && ls[i].phase.Waiting?
    requires k < |net| && MsgOk(r, ls, net[k])
    requires forall j :: 0 <= j < r.shards && j != i ==> LinkEmpty(net, j, i)
    ensures MsgOk(r, ls[i := Passed(r, ls, i)], net[k])
  {
    var m := net[k];
    if m.Relay? {
      assert m.to == i ==> LinkEmpty(net, m.from, i);
    }
  }

  lemma PassNew(r: Round, ls: seq<Leader>, i: int, j: int)
    requires 0 <= i < |ls| == r.shards && r.Valid() && LeadersOk(r, ls) && PairsOk(r, ls) && ls[i].phase.Waiting?
    requires 0 <= j < |ls| && j != i
    ensures MsgOk(r, ls[i := Passed(r, ls, i)], Accounts(i, j, ParcelFor(ls[i], At(i, ls[i], r.addr2Shard), j)))
  {
    var l, h := ls[i], At(i, ls[i], r.addr2Shard);
    assert LeaderOk(r, i, l) && PairOk(r, j, ls[j], i, l) && LeaderOk(r, j, ls[j]);
    assert LastDelta(l) == r.delta;
    PassParcel(r, i, l, j);
  }

  lemma PassParcel(r: Round, i: int, l: Leader, j: int)
    requires r.Valid() && LeaderOk(r, i, l) && l.phase.Waiting? && j != i
    ensures ParcelOk(r, i, l.trie, j, ParcelFor(l, At(i, l, r.addr2Shard), j))
  {
    var h := At(i, l, r.addr2Shard);
    assert LastDelta(l) == r.delta;
    SplitRoutes(h, r.delta, 0, j, l.pool);
    forall tx | tx in h.Sent(r.delta, j, l.pool) ensures r.Known(tx) && Key(tx) in r.delta && r.delta[Key(tx)] == j {
      assert PoolRoute(r, i, l, tx);
    }
  }

  lemma PassOrder(r: Round, ls: seq<Leader>, i: int, m: Msg, n: Msg)
    requires 0 <= i < |ls| && ls[i].phase.Waiting? && MsgOk(r, ls, m) && n.Accounts? && n.from == i
    requires LeaderOk(r, i, ls[i])
    ensures OrderOk(r.epoch, m, n)
  {
  }

  lemma ParcelOrder(epoch: nat, m: Msg, n: Msg)
    requires m.Accounts? && n.Accounts? && m.to != n.to
    ensures OrderOk(epoch, m, n)
  {
  }

  // ---------------------------------------------------------------- proposing the partition

  lemma {:induction false} CollectedIs(parcels: map<int, Parcel>, order: seq<int>)
    ensures forall tx :: tx in Collected(parcels, order) <==>
              exists j :: j in order && j in parcels && tx in parcels[j].txs
  {
    if order != [] {
      var init, last := order[..|order| - 1], order[|order| - 1];
      CollectedIs(parcels, init);
      assert forall j :: j in order <==> j in init || j == last;
    }
  }

  /** Accounts of different parcels are disjoint. */
  ghost predicate DisjointParcels(parcels: map<int, Parcel>) {
    forall j, k, a :: j in parcels && k in parcels && j != k && a in parcels[j].accounts ==> a !in parcels[k].accounts
  }

  lemma {:induction false} CollectedAccountsAre(parcels: map<int, Parcel>, order: seq<int>)
    requires DisjointParcels(parcels)
    ensures forall a :: a in CollectedAccounts(parcels, order) <==>
              exists j :: j in order && j in parcels && a in parcels[j].accounts
    ensures forall j, a :: j in order && j in parcels && a in parcels[j].accounts ==>
              a in CollectedAccounts(parcels, order) && CollectedAccounts(parcels, order)[a] == parcels[j].accounts[a]
  {
    if order != [] {
      var init, last := order[..|order| - 1], order[|order| - 1];
      CollectedAccountsAre(parcels, init);
      assert forall j :: j in order <==> j in init || j == last;
    }
  }

  lemma StepProposeRound(c: Config, s: Sys, i: int, order: seq<int>)
    requires Inv(c, s) && Enabled(c, s, ProposeRound(i, order))
    ensures Inv(c, Next(c, s, ProposeRound(i, order)))
  {
    var r, l := R(c, s), s.leaders[i];
    var l' := ProposePartition(l, order);
    assert LeaderOk(r, i, l);
    RoundTransfers(c, s, i, order);
    RoundAccounts(c, s, i, order);
    PrivateChange(c, s, i, l', Next(c, s, ProposeRound(i, order)));
  }

  lemma RoundTransfers(c: Config, s: Sys, i: int, order: seq<int>)
    requires Inv(c, s) && Enabled(c, s, ProposeRound(i, order))
    ensures TransfersOk(R(c, s), i, ProposePartition(s.leaders[i], order))
  {
    var r, l := R(c, s), s.leaders[i];
    var l' := ProposePartition(l, order);
    assert LeaderOk(r, i, l);
    CollectedIs(l.parcels, order);
    forall tx | tx in l'.pool ensures PoolRoute(r, i, l', tx) {
      if tx in l.pool {
        assert PoolRoute(r, i, l, tx);
      } else {
        var j :| j in order && j in l.parcels && tx in l.parcels[j].txs;
        assert PairOk(r, i, l, j, s.leaders[j]);
      }
    }
  }

  lemma RoundAccounts(c: Config, s: Sys, i: int, order: seq<int>)
    requires Inv(c, s) && Enabled(c, s, ProposeRound(i, order))
    ensures CountersOk(R(c, s), i, ProposePartition(s.leaders[i], order))
    ensures RoundOk(R(c, s), i, ProposePartition(s.leaders[i], order))
  {
    var r, l := R(c, s), s.leaders[i];
    assert LeaderOk(r, i, l);
    assert DisjointParcels(l.parcels) by {
      forall j, k, a | j in l.parcels && k in l.parcels && j != k && a in l.parcels[j].accounts
        ensures a !in l.parcels[k].accounts
      {
        assert PairOk(r, i, l, j, s.leaders[j]) && PairOk(r, i, l, k, s.leaders[k]);
      }
    }
    CollectedAccountsAre(l.parcels, order);
    assert Gathered(l.parcels, CollectedAccounts(l.parcels, order));
  }

  // ---------------------------------------------------------------- committing a block

  lemma {:induction false} RelaysAre(h: Where, body: seq<Tx>, q: nat, n: nat)
    ensures forall k :: 0 <= k < |Relays(h, body, q, n)| ==>
              var m := Relays(h, body, q, n)[k]; m == Relay(h.me, m.to, q, h.RelayTo(m.to, body)) && 0 <= m.to < n && m.to != h.me
    ensures forall x, y :: 0 <= x < y < |Relays(h, body, q, n)| ==> Relays(h, body, q, n)[x].to < Relays(h, body, q, n)[y].to
    decreases n
  {
    hide Where.RelayTo;
    if n > 0 {
      RelaysAre(h, body, q, n - 1);
    }
  }

  /** A committed block sends something, if only an empty list, to every other shard. */
  lemma {:induction false} RelaysFill(h: Where, body: seq<Tx>, q: nat, n: nat, j: int)
    requires 0 <= j < n && j != h.me
    ensures !LinkEmpty(Relays(h, body, q, n), h.me, j)
    decreases n
  {
    hide Where.RelayTo;
    var init, all := Relays(h, body, q, n - 1), Relays(h, body, q, n);
    if j == n - 1 {
      assert all[|init|] == Relay(h.me, j, q, h.RelayTo(j, body));
    } else {
      RelaysFill(h, body, q, n - 1, j);
      var k :| 0 <= k < |init| && init[k].Relay? && init[k].from == h.me && init[k].to == j;
      assert all[k] == init[k];
    }
  }

  lemma StepCommit(c: Config, s: Sys, i: int)
    requires Inv(c, s) && Enabled(c, s, Commit(i))
    ensures Inv(c, Next(c, s, Commit(i)))
  {
    hide MsgOk, PairOk, OrderOk, LeaderOk;
    var r, ls, l, h := R(c, s), s.leaders, s.leaders[i], H(c, s, i);
    var l' := CommitBlock(l);
    var ls', more := ls[i := l'], Relays(h, l.phase.body, l.sequenceID, |ls|);
    CommitLeader(r, i, ls);
    RelaysAre(h, l.phase.body, l.sequenceID, |ls|);
    forall x, y | 0 <= x < |ls'| && 0 <= y < |ls'| && x != y ensures PairOk(r, x, ls'[x], y, ls'[y]) {
      CommitPair(r, ls, i, x, y);
    }
    forall k | 0 <= k < |s.net| ensures MsgOk(r, ls', s.net[k]) {
      CommitKeeps(r, ls, i, s.net[k]);
    }
    forall k | 0 <= k < |more| ensures MsgOk(r, ls', more[k]) {
      CommitNew(r, ls, i, more[k].to);
    }
    forall p, q | 0 <= p < |s.net| && 0 <= q < |more| ensures OrderOk(s.epoch, s.net[p], more[q]) {
      CommitOrder(r, ls, i, s.net[p], more[q]);
    }
    forall p, q | 0 <= p < q < |more| ensures OrderOk(s.epoch, more[p], more[q]) {
      RelayOrder(s.epoch, more[p], more[q]);
    }
    forall j | 0 <= j < |ls| && j != i ensures !LinkEmpty(more, i, j) {
      RelaysFill(h, l.phase.body, l.sequenceID, |ls|, j);
    }
    UnheardCommitted(ls, i, l', s.net, more);
    Sends(c, s, i, l', more, Next(c, s, Commit(i)));
  }

  lemma CommitLeader(r: Round, i: int, ls: seq<Leader>)
    requires 0 <= i < |ls| == r.shards && LeadersOk(r, ls) && ls[i].phase.Proposed?
    ensures LeaderOk(r, i, CommitBlock(ls[i]))
  {
    var l, l' := ls[i], CommitBlock(ls[i]);
    assert LeaderOk(r, i, l);
    forall tx | tx in l'.pool ensures PoolRoute(r, i, l', tx) {
      assert PoolRoute(r, i, l, tx);
    }
  }

  /** A block writes no account that is on its way to another shard. */
  lemma CommitTrie(r: Round, i: int, l: Leader, j: int, p: Parcel)
    requires LeaderOk(r, i, l) && l.phase.Proposed? && r.Valid() && j != i
    requires r.Handed(l) && ParcelOk(r, i, l.trie, j, p)
    ensures ParcelOk(r, i, l.phase.root, j, p)
  {
    var h := At(i, l, r.addr2Shard);
    ApplyLocal(h, l.trie, l.phase.body);
    forall a | a in p.accounts ensures Balance(l.phase.root, a) == Balance(l.trie, a) {
      assert r.New(a) == j && !h.Here(a);
    }
  }

  lemma CommitPair(r: Round, ls: seq<Leader>, i: int, x: nat, y: nat)
    requires 0 <= i < |ls| == r.shards && r.Valid() && LeadersOk(r, ls) && ls[i].phase.Proposed?
    requires x < |ls| && y < |ls| && x != y && PairOk(r, x, ls[x], y, ls[y])
    ensures var ls' := ls[i := CommitBlock(ls[i])]; PairOk(r, x, ls'[x], y, ls'[y])
  {
    assert LeaderOk(r, i, ls[i]);
    if y == i && i in ls[x].parcels {
      CommitTrie(r, i, ls[i], x, ls[x].parcels[i]);
    }
  }

  lemma CommitKeeps(r: Round, ls: seq<Leader>, i: int, m: Msg)
    requires 0 <= i < |ls| == r.shards && r.Valid() && LeadersOk(r, ls) && ls[i].phase.Proposed?
    requires MsgOk(r, ls, m)
    ensures MsgOk(r, ls[i := CommitBlock(ls[i])], m)
  {
    assert LeaderOk(r, i, ls[i]);
    if m.Accounts? && m.from == i {
      CommitTrie(r, i, ls[i], m.to, m.parcel);
    }
  }

  /** Nobody splits its pool while this shard still commits blocks under the old map. */
  lemma NobodyHanded(r: Round, ls: seq<Leader>, i: int, j: int)
    requires 0 <= i < |ls| == r.shards && LeadersOk(r, ls) && PairsOk(r, ls)
    requires 0 <= j < |ls| && j != i && !InRound(ls[i]) && !r.Done(ls[i])
    ensures !r.Handed(ls[j])
  {
    assert LeaderOk(r, j, ls[j]) && PairOk(r, j, ls[j], i, ls[i]) && PairOk(r, i, ls[i], j, ls[j]);
  }

  lemma CommitNew(r: Round, ls: seq<Leader>, i: int, j: int)
    requires 0 <= i < |ls| == r.shards && r.Valid() && LeadersOk(r, ls) && PairsOk(r, ls) && ls[i].phase.Proposed?
    requires 0 <= j < |ls| && j != i
    ensures MsgOk(r, ls[i := CommitBlock(ls[i])],
                  Relay(i, j, ls[i].sequenceID, At(i, ls[i], r.addr2Shard).RelayTo(j, ls[i].phase.body)))
  {
    var l, h := ls[i], At(i, ls[i], r.addr2Shard);
    assert LeaderOk(r, i, l) && PairOk(r, j, ls[j], i, l);
    if !r.Done(l) {
      NobodyHanded(r, ls, i, j);
    }
    RelayContents(h, j, l.phase.body);
    forall tx | tx in h.RelayTo(j, l.phase.body) ensures RelayedRoute(r, j, ls[j], tx) {
      var o :| o in l.phase.body && tx == o.(relayed := true);
      assert r.Known(o);
    }
  }

  lemma CommitOrder(r: Round, ls: seq<Leader>, i: int, m: Msg, n: Msg)
    requires 0 <= i < |ls| && MsgOk(r, ls, m) && n.Relay? && n.from == i && n.seqId == ls[i].sequenceID
    ensures OrderOk(r.epoch, m, n)
  {
  }

  lemma RelayOrder(epoch: nat, m: Msg, n: Msg)
    requires m.Relay? && n.Relay? && m.to != n.to
    ensures OrderOk(epoch, m, n)
  {
  }

  lemma UnheardCommitted(ls: seq<Leader>, i: nat, l': Leader, net: seq<Msg>, more: seq<Msg>)
    requires i < |ls| && UnheardOk(ls, net) && l'.seqIDMap == ls[i].seqIDMap
    requires forall j :: 0 <= j < |ls| && j != i ==> !LinkEmpty(more, i, j)
    ensures UnheardOk(ls[i := l'], net + more)
  {
    UnheardMore(ls, net, more);
    var ls' := ls[i := l'];
    forall x, y | 0 <= x < |ls'| && 0 <= y < |ls'| && x != y ensures Unheard(ls', net + more, x, y) {
      assert Unheard(ls, net + more, x, y);
      if y == i {
        assert !LinkEmpty(more, i, x);
        var k :| 0 <= k < |more| && more[k].Relay? && more[k].from == i && more[k].to == x;
        assert (net + more)[|net| + k] == more[k];
      }
    }
  }

  // ---------------------------------------------------------------- committing a partition

  lemma StepCommitRound(c: Config, s: Sys, i: int)
    requires Inv(c, s) && Enabled(c, s, CommitRound(i))
    ensures Inv(c, Next(c, s, CommitRound(i)))
  {
    hide MsgOk, PairOk, OrderOk, LeaderOk;
    var r, ls, l := R(c, s), s.leaders, s.leaders[i];
    var l' := CommitPartition(l, i, c.addr2Shard);
    var ls', s' := ls[i := l'], Next(c, s, CommitRound(i));
    assert R(c, s') == r && s'.net == s.net + [];
    CommitRoundLeader(r, i, ls);
    forall x, y | 0 <= x < |ls'| && 0 <= y < |ls'| && x != y ensures PairOk(r, x, ls'[x], y, ls'[y]) {
      CommitRoundPair(r, ls, i, x, y);
    }
    forall k | 0 <= k < |s.net| ensures MsgOk(r, ls', s.net[k]) {
      CommitRoundKeeps(r, ls, i, s.net[k]);
    }
    UnheardPrivate(ls, i, l', s.net);
    Sends(c, s, i, l', [], s');
  }

  function CommittedRound(r: Round, ls: seq<Leader>, i: nat): Leader
    requires i < |ls| && ls[i].phase.Committing?
  {
    CommitPartition(ls[i], i, r.addr2Shard)
  }

  lemma CommitRoundLeader(r: Round, i: int, ls: seq<Leader>)
    requires 0 <= i < |ls| == r.shards && r.Valid() && LeadersOk(r, ls) && ls[i].phase.Committing?
    ensures LeaderOk(r, i, CommittedRound(r, ls, i))
    ensures |CommittedRound(r, ls, i).modifiedMap| == |ls[i].modifiedMap|
    ensures CommittedRound(r, ls, i).sequenceID - CommittedRound(r, ls, i).round == ls[i].sequenceID - ls[i].round
  {
    var l, l' := ls[i], CommittedRound(r, ls, i);
    assert LeaderOk(r, i, l);
    forall tx | tx in l'.pool ensures PoolRoute(r, i, l', tx) {
      assert PoolRoute(r, i, l, tx);
    }
  }

  /** Adding the received accounts writes no account that is on its way to another shard. */
  lemma CommitRoundTrie(r: Round, i: int, l: Leader, j: int, p: Parcel)
    requires LeaderOk(r, i, l) && l.phase.Committing? && r.Valid() && j != i
    requires ParcelOk(r, i, l.trie, j, p)
    ensures ParcelOk(r, i, CommitPartition(l, i, r.addr2Shard).trie, j, p)
  {
    forall a | a in p.accounts ensures Balance(CommitPartition(l, i, r.addr2Shard).trie, a) == Balance(l.trie, a) {
      assert r.New(a) == j;
    }
  }

  lemma CommitRoundPair(r: Round, ls: seq<Leader>, i: int, x: nat, y: nat)
    requires 0 <= i < |ls| == r.shards && r.Valid() && LeadersOk(r, ls) && PairsOk(r, ls) && ls[i].phase.Committing?
    requires x < |ls| && y < |ls| && x != y
    ensures var ls' := ls[i := CommittedRound(r, ls, i)]; PairOk(r, x, ls'[x], y, ls'[y])
  {
    assert LeaderOk(r, i, ls[i]) && PairOk(r, x, ls[x], y, ls[y]) && PairOk(r, y, ls[y], x, ls[x]);
    if y == i && i in ls[x].parcels {
      CommitRoundTrie(r, i, ls[i], x, ls[x].parcels[i]);
    }
  }

  /** A shard that has collected from `x` had its readiness delivered there. */
  lemma CollectedIsReady(r: Round, ls: seq<Leader>, i: int, x: int)
    requires 0 <= i < |ls| == r.shards && LeadersOk(r, ls) && PairsOk(r, ls) && ls[i].phase.Committing?
    requires 0 <= x < |ls| && x != i
    ensures r.Done(ls[x]) || i in ls[x].partitionReady
  {
    assert LeaderOk(r, i, ls[i]) && LeaderOk(r, x, ls[x]) && PairOk(r, i, ls[i], x, ls[x]);
  }

  lemma CommitRoundKeeps(r: Round, ls: seq<Leader>, i: int, m: Msg)
    requires 0 <= i < |ls| == r.shards && r.Valid() && LeadersOk(r, ls) && PairsOk(r, ls) && ls[i].phase.Committing?
    requires MsgOk(r, ls, m)
    ensures MsgOk(r, ls[i := CommittedRound(r, ls, i)], m)
  {
    assert LeaderOk(r, i, ls[i]);
    match m
    case Relay(j, x, q, txs) =>
    case Ready(j, x, q) =>
      if j == i {
        CollectedIsReady(r, ls, i, x);
      }
    case Accounts(j, x, p) =>
      if j == i {
        CommitRoundTrie(r, i, ls[i], x, p);
      }
    case Inject(x, txs, epoch) =>
    case Publish(x, delta) =>
  }

  // ---------------------------------------------------------------- a new round

  lemma {:induction false} PublishesAre(delta: map<Addr, int>, n: nat)
    ensures |Publishes(delta, n)| == n
    ensures forall k :: 0 <= k < n ==> Publishes(delta, n)[k] == Publish(k, delta)
  {
    if n > 0 {
      PublishesAre(delta, n - 1);
    }
  }

  /** Between rounds all shards agree on where everything is, so the round starts from there. */
  lemma StepPublish(c: Config, s: Sys, delta: map<Addr, int>)
    requires Inv(c, s) && Enabled(c, s, PublishRound(delta))
    ensures Inv(c, Next(c, s, PublishRound(delta)))
  {
    hide LeadersOk, PairsOk, MsgsOk, Ordered, UnheardOk, PendingOk;
    var s' := Next(c, s, PublishRound(delta));
    var r, r', ls, more := R(c, s), R(c, s'), s.leaders, Publishes(delta, |s.leaders|);
    PublishesAre(delta, |ls|);
    PublishLeaders(r, r', ls);
    PublishMsgs(r, r', ls, s.net, more);
    PublishOrdered(r, ls, s.net, more);
    UnheardMore(ls, s.net, more);
    PublishPending(r', ls, s.net, more);
  }

  lemma PublishLeaders(r: Round, r': Round, ls: seq<Leader>)
    requires Follows(r, r') && LeadersOk(r, ls) && PairsOk(r, ls) && forall i :: 0 <= i < |ls| ==> r.Done(ls[i])
    ensures LeadersOk(r', ls) && PairsOk(r', ls)
  {
    hide PairOk, LeaderOk;
    forall i | 0 <= i < |ls| ensures LeaderOk(r', i, ls[i]) {
      PublishLeader(r, r', i, ls[i]);
    }
    forall x, y | 0 <= x < |ls| && 0 <= y < |ls| && x != y ensures PairOk(r', x, ls[x], y, ls[y]) {
      PublishPair(r, r', ls, x, y);
    }
  }

  lemma PublishMsgs(r: Round, r': Round, ls: seq<Leader>, net: seq<Msg>, more: seq<Msg>)
    requires Follows(r, r') && LeadersOk(r, ls) && MsgsOk(r, ls, net) && forall i :: 0 <= i < |ls| ==> r.Done(ls[i])
    requires |more| == |ls| && forall k :: 0 <= k < |ls| ==> more[k] == Publish(k, r'.delta)
    ensures MsgsOk(r', ls, net + more)
  {
    hide MsgOk, LeaderOk;
    forall k | 0 <= k < |net| ensures MsgOk(r', ls, net[k]) {
      PublishKeeps(r, r', ls, net[k]);
    }
    forall k | 0 <= k < |more| ensures MsgOk(r', ls, more[k]) {
      PublishNew(r, r', ls, k);
    }
    MsgsMore(r', ls, net, more);
  }

  lemma PublishOrdered(r: Round, ls: seq<Leader>, net: seq<Msg>, more: seq<Msg>)
    requires LeadersOk(r, ls) && MsgsOk(r, ls, net) && Ordered(r.epoch, net) && forall i :: 0 <= i < |ls| ==> r.Done(ls[i])
    requires forall k :: 0 <= k < |more| ==> more[k].Publish? && more[k].to == k
    ensures Ordered(r.epoch + 1, net + more)
  {
    hide MsgOk, LeaderOk, OrderOk;
    forall p, q | 0 <= p < q < |net| ensures OrderOk(r.epoch + 1, net[p], net[q]) {
      PublishOrder(r, ls, net[p], net[q]);
    }
    forall p, q | 0 <= p < |net| && 0 <= q < |more| ensures OrderOk(r.epoch + 1, net[p], more[q]) {
      PublishOrderNew(r, ls, net[p], more[q]);
    }
    forall p, q | 0 <= p < q < |more| ensures OrderOk(r.epoch + 1, more[p], more[q]) {
      PublishesApart(r.epoch + 1, more[p], more[q]);
    }
    OrderedMore(r.epoch + 1, net, more);
  }

  lemma PublishPending(r': Round, ls: seq<Leader>, net: seq<Msg>, more: seq<Msg>)
    requires |more| == |ls| && forall k :: 0 <= k < |ls| ==> more[k] == Publish(k, r'.delta)
    ensures PendingOk(r', ls, net + more)
  {
    forall i | 0 <= i < |ls| && |ls[i].modifiedMap| < r'.epoch
      ensures exists k :: 0 <= k < |net + more| && (net + more)[k] == Publish(i, r'.delta)
    {
      var k := |net| + i;
      assert 0 <= k < |net + more| && (net + more)[k] == Publish(i, r'.delta);
    }
  }

  /** What `PublishRound` does to the round. */
  ghost predicate Follows(r: Round, r': Round) {
    && r'.shards == r.shards && r'.addr2Shard == r.addr2Shard && r'.accounts == r.accounts
    && r'.epoch == r.epoch + 1 && r'.base == r.next && r'.next == r.next + r'.delta
  }

  lemma PublishLeader(r: Round, r': Round, i: int, l: Leader)
    requires Follows(r, r') && LeaderOk(r, i, l) && r.Done(l)
    ensures LeaderOk(r', i, l)
  {
    forall tx | tx in l.pool ensures PoolRoute(r', i, l, tx) {
      assert PoolRoute(r, i, l, tx);
    }
  }

  lemma PublishPair(r: Round, r': Round, ls: seq<Leader>, x: nat, y: nat)
    requires Follows(r, r') && x < |ls| && y < |ls| && x != y
    requires LeaderOk(r, x, ls[x]) && r.Done(ls[x]) && r.Done(ls[y]) && PairOk(r, x, ls[x], y, ls[y])
    ensures PairOk(r', x, ls[x], y, ls[y])
  {
  }

  lemma PublishKeeps(r: Round, r': Round, ls: seq<Leader>, m: Msg)
    requires Follows(r, r') && LeadersOk(r, ls) && MsgOk(r, ls, m)
    requires forall i :: 0 <= i < |ls| ==> r.Done(ls[i])
    ensures MsgOk(r', ls, m)
  {
    assert 0 <= m.to < |ls| && LeaderOk(r, m.to, ls[m.to]);
    if m.Relay? {
      assert LeaderOk(r, m.to, ls[m.to]);
      forall tx | tx in m.txs ensures RelayedRoute(r', m.to, ls[m.to], tx) {
        assert RelayedRoute(r, m.to, ls[m.to], tx);
      }
    } else if m.Inject? {
      forall tx | tx in m.txs ensures InjectedRoute(r', m.to, m.epoch, tx) {
        assert InjectedRoute(r, m.to, m.epoch, tx);
      }
    }
  }

  lemma PublishNew(r: Round, r': Round, ls: seq<Leader>, i: nat)
    requires Follows(r, r') && i < |ls| && LeaderOk(r, i, ls[i]) && r.Done(ls[i])
    ensures MsgOk(r', ls, Publish(i, r'.delta))
  {
  }

  lemma PublishOrder(r: Round, ls: seq<Leader>, m: Msg, n: Msg)
    requires LeadersOk(r, ls) && MsgOk(r, ls, m) && MsgOk(r, ls, n) && OrderOk(r.epoch, m, n)
    requires forall i :: 0 <= i < |ls| ==> r.Done(ls[i])
    ensures OrderOk(r.epoch + 1, m, n)
  {
    assert 0 <= m.to < |ls| && LeaderOk(r, m.to, ls[m.to]);
    assert 0 <= n.to < |ls| && LeaderOk(r, n.to, ls[n.to]);
  }

  lemma PublishOrderNew(r: Round, ls: seq<Leader>, m: Msg, n: Msg)
    requires LeadersOk(r, ls) && MsgOk(r, ls, m) && n.Publish?
    requires forall i :: 0 <= i < |ls| ==> r.Done(ls[i])
    ensures OrderOk(r.epoch + 1, m, n)
  {
    assert 0 <= m.to < |ls| && LeaderOk(r, m.to, ls[m.to]);
  }

  lemma PublishesApart(epoch: nat, m: Msg, n: Msg)
    requires m.Publish? && n.Publish? && m.to != n.to
    ensures OrderOk(epoch, m, n)
  {
  }

  // ---------------------------------------------------------------- all events

  /** Every event keeps the invariant, if a shard that passes the barrier has heard from the others. */
  lemma StepInv(c: Config, s: Sys, e: Event)
    requires Inv(c, s) && Enabled(c, s, e)
    requires e.Pass? ==> Heard(c, s.leaders[e.shard], e.shard)
    ensures Inv(c, Next(c, s, e))
  {
    hide Inv, Enabled, Next;
    match e
    case InjectTxs(i, txs) => StepInject(c, s, i, txs);
    case PublishRound(delta) => StepPublish(c, s, delta);
    case Deliver(k) => StepDeliver(c, s, k);
    case Propose(i, blockSize) => StepPropose(c, s, i, blockSize);
    case Commit(i) => StepCommit(c, s, i);
    case Announce(i) => StepAnnounce(c, s, i);
    case Pass(i) => StepPass(c, s, i);
    case ProposeRound(i, order) => StepProposeRound(c, s, i, order);
    case CommitRound(i) => StepCommitRound(c, s, i);
  }

  lemma StepDeliver(c: Config, s: Sys, k: nat)
    requires Inv(c, s) && Enabled(c, s, Deliver(k))
    ensures Inv(c, Next(c, s, Deliver(k)))
  {
    assert k < |s.net|;
    hide Inv, Enabled, Next;
    match s.net[k]
    case Relay(_, _, _, _) => DeliverRelay(c, s, k);
    case Ready(_, _, _) => DeliverReady(c, s, k);
    case Accounts(_, _, _) => DeliverParcel(c, s, k);
    case Inject(_, _, _) => DeliverInject(c, s, k);
    case Publish(_, _) => DeliverPublish(c, s, k);
  }
}
