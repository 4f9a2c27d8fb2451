/** What the invariant gives for whole runs: routing, the barrier, and one ledger behind all shards. */
module ReshardingSafety {
  import opened Placement
  import opened Transfers
  import opened LeaderSpec
  import opened ReshardingSystem
  import opened ReshardingInvariant
  import opened ReshardingSteps

  lemma {:induction false} RunInv(c: Config, s: Sys, es: seq<Event>, t: Sys)
    requires Inv(c, s) && Run(c, s, es, t, true)
    ensures Inv(c, t)
    decreases |es|
  {
    if es != [] {
      StepInv(c, s, es[0]);
      RunInv(c, Next(c, s, es[0]), es[1..], t);
    }
  }

  /** In every run in which shards that pass the barrier have heard from the others, no block that is out
      and no collected partition trips the routing panics of the code. */
  lemma RoutingIsSafe(c: Config, es: seq<Event>, t: Sys, i: int)
    requires c.Valid() && Run(c, Init(c), es, t, true) && 0 <= i < |t.leaders|
    ensures t.leaders[i].phase.Proposed? ==> !IncorrectTx(H(c, t, i), t.leaders[i].phase.body)
    ensures forall order :: t.leaders[i].phase.Collecting? && t.leaders[i].collectOver && Reads(order, t.leaders[i].parcels) ==>
              !ErrorTx(RoundDelta(t.leaders[i]), i, Collected(t.leaders[i].parcels, order))
  {
    InitInv(c);
    RunInv(c, Init(c), es, t);
    assert LeaderOk(R(c, t), i, t.leaders[i]);
    forall order | t.leaders[i].phase.Collecting? && Reads(order, t.leaders[i].parcels) {
      CollectionIsSafe(c, t, i, order);
    }
  }

  /** A shard that has committed the supervisor's last round places every address as the supervisor does. */
  lemma UpToDateShardsAgree(c: Config, es: seq<Event>, t: Sys, i: int, a: Addr)
    requires c.Valid() && Run(c, Init(c), es, t, true) && 0 <= i < |t.leaders| && t.leaders[i].round == t.epoch
    ensures H(c, t, i).Of(a) == Lookup(t.modifiedMap, c.addr2Shard, a)
  {
    InitInv(c);
    RunInv(c, Init(c), es, t);
    assert LeaderOk(R(c, t), i, t.leaders[i]);
  }

  /** The slices of deltas are never indexed out of range: a shard in a round has that round's delta, and it
      is both the last one received and the one AccountTransferRound points at. */
  lemma DeltaIsThere(c: Config, es: seq<Event>, t: Sys, i: int)
    requires c.Valid() && Run(c, Init(c), es, t, true) && 0 <= i < |t.leaders| && InRound(t.leaders[i])
    ensures t.leaders[i].round + 1 == |t.leaders[i].modifiedMap|
    ensures LastDelta(t.leaders[i]) == RoundDelta(t.leaders[i]) == t.delta
  {
    InitInv(c);
    RunInv(c, Init(c), es, t);
    assert LeaderOk(R(c, t), i, t.leaders[i]);
  }

  lemma CollectionIsSafe(c: Config, t: Sys, i: int, order: seq<int>)
    requires Inv(c, t) && 0 <= i < c.shards && t.leaders[i].phase.Collecting? && Reads(order, t.leaders[i].parcels)
    ensures !ErrorTx(RoundDelta(t.leaders[i]), i, Collected(t.leaders[i].parcels, order))
  {
    var r, l := R(c, t), t.leaders[i];
    assert LeaderOk(r, i, l);
    CollectedIs(l.parcels, order);
    forall tx | tx in Collected(l.parcels, order) ensures Key(tx) in RoundDelta(l) && RoundDelta(l)[Key(tx)] == i {
      var j :| j in order && j in l.parcels && tx in l.parcels[j].txs;
      assert PairOk(r, i, l, j, t.leaders[j]);
    }
  }

  /** While the barrier is open at shard `i` and `i` has not sent its accounts, no other shard has a block
      or a partition request out, so none commits anything. */
  lemma BarrierHolds(c: Config, es: seq<Event>, t: Sys, i: int, j: int)
    requires c.Valid() && Run(c, Init(c), es, t, true)
    requires 0 <= i < |t.leaders| && 0 <= j < |t.leaders| && i != j
    requires t.leaders[i].phase.Waiting? && BarrierOpen(t.leaders[i], c.shards)
    ensures !Enabled(c, t, Commit(j)) && !Enabled(c, t, CommitRound(j))
    ensures t.leaders[j].round + 1 == t.epoch
  {
    InitInv(c);
    RunInv(c, Init(c), es, t);
    BarrierAgrees(c, t, i, j);
    var r := R(c, t);
    assert LeaderOk(r, i, t.leaders[i]) && LeaderOk(r, j, t.leaders[j]) && PairOk(r, j, t.leaders[j], i, t.leaders[i]);
  }

  /** The barrier is exact in every reachable state. */
  lemma BarrierIsExact(c: Config, es: seq<Event>, t: Sys, i: int)
    requires c.Valid() && Run(c, Init(c), es, t, true)
    requires 0 <= i < |t.leaders| && t.leaders[i].phase.Waiting? && BarrierOpen(t.leaders[i], c.shards)
    ensures Heard(c, t.leaders[i], i) <==> forall j :: 0 <= j < c.shards && j != i ==> LinkEmpty(t.net, j, i)
  {
    InitInv(c);
    RunInv(c, Init(c), es, t);
    BarrierExact(c, t, i);
  }

  // ---------------------------------------------------------------- one ledger

  /** The shard whose trie holds the true balance of an account: its new home once that has committed the
      round, its old home until then. */
  function Home(c: Config, s: Sys, a: Addr): int {
    var dest := Lookup(s.modifiedMap, c.addr2Shard, a);
    if 0 <= dest < |s.leaders| && s.leaders[dest].round == s.epoch then dest else Lookup(s.base, c.addr2Shard, a)
  }

  function HomeBalance(c: Config, s: Sys, a: Addr): int {
    var h := Home(c, s, a);
    if 0 <= h < |s.leaders| then Balance(s.leaders[h].trie, a) else INIT_BALANCE
  }

  /** A single ledger without shards.  `h` only decides which transfers are split in two. */
  function LedgerApply(h: Where, g: Trie, tx: Tx): Trie {
    if !tx.relayed && Balance(g, tx.sender) < tx.value then g else
      var t := if tx.relayed then g else g[tx.sender := Balance(g, tx.sender) - tx.value];
      if h.Crosses(tx) then t else t[tx.recipient := Balance(t, tx.recipient) + tx.value]
  }

  function LedgerApplyAll(h: Where, g: Trie, txs: seq<Tx>): Trie {
    if txs == [] then g else LedgerApply(h, LedgerApplyAll(h, g, txs[..|txs| - 1]), txs[|txs| - 1])
  }

  /** The ledger after an event: committed blocks are applied, nothing else changes it. */
  ghost function LedgerNext(c: Config, s: Sys, g: Trie, e: Event): Trie
    requires Enabled(c, s, e)
  {
    if e.Commit? then LedgerApplyAll(H(c, s, e.shard), g, s.leaders[e.shard].phase.body) else g
  }

  ghost function LedgerAfter(c: Config, s: Sys, g: Trie, es: seq<Event>, t: Sys): Trie
    requires Run(c, s, es, t, true)
    decreases |es|
  {
    if es == [] then g else LedgerAfter(c, Next(c, s, es[0]), LedgerNext(c, s, g, es[0]), es[1..], t)
  }

  ghost predicate Matches(c: Config, s: Sys, g: Trie) {
    forall a :: HomeBalance(c, s, a) == Balance(g, a)
  }

  lemma TransferMatches(h: Where, trie: Trie, g: Trie, tx: Tx)
    requires !h.Misrouted(tx)
    requires forall a :: h.Here(a) ==> Balance(trie, a) == Balance(g, a)
    ensures forall a :: h.Here(a) ==> Balance(h.Apply(trie, tx), a) == Balance(LedgerApply(h, g, tx), a)
    ensures forall a :: !h.Here(a) ==> Balance(LedgerApply(h, g, tx), a) == Balance(g, a)
  {
  }

  /** A shard and the ledger apply a correctly routed block alike, as far as this shard's accounts go, and
      the ledger changes no other account. */
  lemma {:induction false} BlockMatches(h: Where, trie: Trie, g: Trie, txs: seq<Tx>)
    requires forall tx :: tx in txs ==> !h.Misrouted(tx)
    requires forall a :: h.Here(a) ==> Balance(trie, a) == Balance(g, a)
    ensures forall a :: h.Here(a) ==> Balance(h.ApplyAll(trie, txs), a) == Balance(LedgerApplyAll(h, g, txs), a)
    ensures forall a :: !h.Here(a) ==> Balance(LedgerApplyAll(h, g, txs), a) == Balance(g, a)
  {
    if txs != [] {
      var init, tx := txs[..|txs| - 1], txs[|txs| - 1];
      assert tx in txs;
      BlockMatches(h, trie, g, init);
      TransferMatches(h, h.ApplyAll(trie, init), LedgerApplyAll(h, g, init), tx);
    }
  }

  lemma LedgerCommit(c: Config, s: Sys, g: Trie, i: int)
    requires Inv(c, s) && Enabled(c, s, Commit(i)) && Matches(c, s, g)
    ensures Matches(c, Next(c, s, Commit(i)), LedgerNext(c, s, g, Commit(i)))
  {
    var r, l, h, s' := R(c, s), s.leaders[i], H(c, s, i), Next(c, s, Commit(i));
    assert LeaderOk(r, i, l);
    forall a | h.Here(a) ensures Home(c, s, a) == i {
      HomeIsHere(c, s, i, a);
    }
    BlockMatches(h, l.trie, g, l.phase.body);
    ApplyLocal(h, l.trie, l.phase.body);
    forall a ensures HomeBalance(c, s', a) == Balance(LedgerNext(c, s, g, Commit(i)), a) {
      SameHome(c, s, i, a);
      assert HomeBalance(c, s, a) == Balance(g, a);
    }
  }

  /** A shard that can still commit blocks is home to every account it sees as its own. */
  lemma HomeIsHere(c: Config, s: Sys, i: int, a: Addr)
    requires Inv(c, s) && 0 <= i < c.shards && !InRound(s.leaders[i]) && H(c, s, i).Here(a)
    ensures Home(c, s, a) == i
  {
    var r, l := R(c, s), s.leaders[i];
    assert LeaderOk(r, i, l);
    var dest := r.New(a);
    if !r.Done(l) && 0 <= dest < c.shards && dest != i {
      NobodyHanded(r, s.leaders, i, dest);
    }
  }

  /** Committing a block moves no home. */
  lemma SameHome(c: Config, s: Sys, i: int, a: Addr)
    requires Enabled(c, s, Commit(i))
    ensures Home(c, Next(c, s, Commit(i)), a) == Home(c, s, a)
  {
  }

  lemma LedgerCommitRound(c: Config, s: Sys, g: Trie, i: int)
    requires Inv(c, s) && Enabled(c, s, CommitRound(i)) && Matches(c, s, g)
    ensures Matches(c, Next(c, s, CommitRound(i)), g)
  {
    var s' := Next(c, s, CommitRound(i));
    forall a ensures HomeBalance(c, s', a) == Balance(g, a) {
      assert HomeBalance(c, s, a) == Balance(g, a);
      AccountArrives(c, s, i, a);
    }
  }

  /** Committing the partition moves the home of the received accounts and brings their balances along:
      also for accounts no trie ever mentioned, and over a stale copy from an earlier stay. */
  lemma AccountArrives(c: Config, s: Sys, i: int, a: Addr)
    requires Inv(c, s) && Enabled(c, s, CommitRound(i))
    ensures HomeBalance(c, Next(c, s, CommitRound(i)), a) == HomeBalance(c, s, a)
  {
    hide AddAccounts, Inv;
    var r, l, s' := R(c, s), s.leaders[i], Next(c, s, CommitRound(i));
    HomesInRange(c, s, i, a);
    ArrivalFacts(c, s, i, a);
    if r.New(a) == i {
      assert Home(c, s', a) == i && Home(c, s, a) == r.Old(a);
    } else {
      assert Home(c, s', a) == Home(c, s, a);
    }
  }

  /** The trie after the commit, one account at a time. */
  lemma ArrivalFacts(c: Config, s: Sys, i: int, a: Addr)
    requires Inv(c, s) && Enabled(c, s, CommitRound(i))
    ensures s.leaders[i].round + 1 == s.epoch
    ensures 0 <= R(c, s).Old(a) < |s.leaders|
    ensures CommitPartition(s.leaders[i], i, c.addr2Shard).round == s.epoch
    ensures Balance(CommitPartition(s.leaders[i], i, c.addr2Shard).trie, a)
         == if R(c, s).New(a) == i then Balance(s.leaders[R(c, s).Old(a)].trie, a) else Balance(s.leaders[i].trie, a)
  {
    var r, l := R(c, s), s.leaders[i];
    assert LeaderOk(r, i, l);
    HomesInRange(c, s, i, a);
    if r.New(a) == i {
      if r.Old(a) != i {
        ArrivesFrom(r, s.leaders, i, r.Old(a), a);
      } else {
        StaysPut(r, s.leaders, i, a);
      }
    }
  }

  lemma ArrivesFrom(r: Round, ls: seq<Leader>, i: int, j: int, a: Addr)
    requires 0 <= i < |ls| == r.shards && r.Valid() && LeaderOk(r, i, ls[i]) && PairsOk(r, ls) && ls[i].phase.Committing?
    requires 0 <= j < |ls| && j != i && r.New(a) == i && r.Old(a) == j
    ensures a in ls[i].phase.atm.accounts && ls[i].phase.atm.accounts[a] == Balance(ls[j].trie, a)
  {
    assert PairOk(r, i, ls[i], j, ls[j]);
    assert a in r.delta && j in ls[i].parcels;
    assert a in ls[i].parcels[j].accounts;
  }

  lemma StaysPut(r: Round, ls: seq<Leader>, i: int, a: Addr)
    requires 0 <= i < |ls| == r.shards && LeaderOk(r, i, ls[i]) && PairsOk(r, ls) && ls[i].phase.Committing?
    requires r.Old(a) == i
    ensures a !in ls[i].phase.atm.accounts
  {
    forall j | j in ls[i].parcels ensures a !in ls[i].parcels[j].accounts {
      assert PairOk(r, i, ls[i], j, ls[j]);
    }
  }

  /** Old and new homes are shards. */
  lemma HomesInRange(c: Config, s: Sys, i: int, a: Addr)
    requires Inv(c, s)
    ensures 0 <= R(c, s).New(a) < c.shards && 0 <= R(c, s).Old(a) < c.shards
  {
  }

  /** A new round moves no account by itself. */
  lemma LedgerPublish(c: Config, s: Sys, g: Trie, delta: map<Addr, int>)
    requires Inv(c, s) && Enabled(c, s, PublishRound(delta)) && Matches(c, s, g)
    ensures Matches(c, Next(c, s, PublishRound(delta)), g)
  {
    var s' := Next(c, s, PublishRound(delta));
    forall a ensures HomeBalance(c, s', a) == Balance(g, a) {
      HomesInRange(c, s, 0, a);
      assert HomeBalance(c, s, a) == Balance(g, a);
      assert Home(c, s, a) == R(c, s).New(a) == Home(c, s', a);
    }
  }

  /** All other events leave tries and rounds alone. */
  lemma Quiet(c: Config, s: Sys, e: Event)
    requires Enabled(c, s, e) && !e.Commit? && !e.CommitRound? && !e.PublishRound?
    ensures var s' := Next(c, s, e);
      && |s'.leaders| == |s.leaders| && s'.modifiedMap == s.modifiedMap && s'.base == s.base && s'.epoch == s.epoch
      && forall i :: 0 <= i < |s.leaders| ==>
           s'.leaders[i].trie == s.leaders[i].trie && s'.leaders[i].round == s.leaders[i].round
  {
  }

  lemma LedgerStep(c: Config, s: Sys, g: Trie, e: Event)
    requires Inv(c, s) && Enabled(c, s, e) && Matches(c, s, g)
    ensures Matches(c, Next(c, s, e), LedgerNext(c, s, g, e))
  {
    if e.Commit? {
      LedgerCommit(c, s, g, e.shard);
    } else if e.CommitRound? {
      LedgerCommitRound(c, s, g, e.shard);
    } else if e.PublishRound? {
      LedgerPublish(c, s, g, e.delta);
    } else {
      Quiet(c, s, e);
      QuietMatches(c, s, Next(c, s, e), g);
    }
  }

  lemma QuietMatches(c: Config, s: Sys, s': Sys, g: Trie)
    requires |s'.leaders| == |s.leaders| && s'.modifiedMap == s.modifiedMap && s'.base == s.base && s'.epoch == s.epoch
    requires forall i :: 0 <= i < |s.leaders| ==>
               s'.leaders[i].trie == s.leaders[i].trie && s'.leaders[i].round == s.leaders[i].round
    requires Matches(c, s, g)
    ensures Matches(c, s', g)
  {
    forall a ensures HomeBalance(c, s', a) == Balance(g, a) {
      assert HomeBalance(c, s, a) == Balance(g, a);
    }
  }

  /** Refinement: over any run the balances at the accounts' homes are those of one ledger that executes
      the committed blocks and knows nothing of shards, relays or rounds. */
  lemma {:induction false} OneLedger(c: Config, s: Sys, g: Trie, es: seq<Event>, t: Sys)
    requires Inv(c, s) && Matches(c, s, g) && Run(c, s, es, t, true)
    ensures Matches(c, t, LedgerAfter(c, s, g, es, t))
    decreases |es|
  {
    hide Inv, Matches, Enabled, Next, LedgerNext;
    if es != [] {
      StepInv(c, s, es[0]);
      LedgerStep(c, s, g, es[0]);
      OneLedger(c, Next(c, s, es[0]), LedgerNext(c, s, g, es[0]), es[1..], t);
    }
  }

  lemma OneLedgerFromStart(c: Config, es: seq<Event>, t: Sys)
    requires c.Valid() && Run(c, Init(c), es, t, true)
    ensures Matches(c, t, LedgerAfter(c, Init(c), map[], es, t))
  {
    InitInv(c);
    OneLedger(c, Init(c), map[], es, t);
  }

  /** Between rounds the ledger's balance is the one at the account's home. */
  lemma AtNewHome(c: Config, s: Sys, g: Trie, a: Addr)
    requires Inv(c, s) && Matches(c, s, g) && AllDone(s)
    ensures var home := Lookup(s.modifiedMap, c.addr2Shard, a);
      0 <= home < |s.leaders| && Balance(s.leaders[home].trie, a) == Balance(g, a)
  {
    HomesInRange(c, s, 0, a);
    SameSize(c, s);
    hide Inv;
    assert HomeBalance(c, s, a) == Balance(g, a);
  }

  lemma SameSize(c: Config, s: Sys)
    requires Inv(c, s)
    ensures |s.leaders| == c.shards
  {
  }

  /** From one state in which all shards are done to any later one, every account's balance at its new home
      is what it was at its old home after the blocks committed in between: `g` is any ledger that has the
      old balances. */
  lemma CompleteRound(c: Config, before: seq<Event>, s: Sys, g: Trie, es: seq<Event>, t: Sys, a: Addr)
    requires c.Valid() && Run(c, Init(c), before, s, true) && AllDone(s)
    requires forall x :: Balance(g, x) == HomeBalance(c, s, x)
    requires Run(c, s, es, t, true) && AllDone(t)
    ensures var from, to := Lookup(s.modifiedMap, c.addr2Shard, a), Lookup(t.modifiedMap, c.addr2Shard, a);
      && 0 <= from < |s.leaders| && 0 <= to < |t.leaders|
      && Balance(s.leaders[from].trie, a) == Balance(g, a)
      && Balance(t.leaders[to].trie, a) == Balance(LedgerAfter(c, s, g, es, t), a)
  {
    assert Matches(c, s, g);
    hide Inv, Run, Matches, Init, LedgerAfter;
    InitInv(c);
    RunInv(c, Init(c), before, s);
    OneLedger(c, s, g, es, t);
    RunInv(c, s, es, t);
    AtNewHome(c, s, g, a);
    AtNewHome(c, t, LedgerAfter(c, s, g, es, t), a);
  }

  /** Account `a` is at neither end of any transfer in the blocks that a run commits. */
  ghost predicate Untouched(c: Config, s: Sys, es: seq<Event>, t: Sys, a: Addr)
    requires Run(c, s, es, t, true)
    decreases |es|
  {
    es == [] ||
    ((es[0].Commit? ==> forall tx :: tx in s.leaders[es[0].shard].phase.body ==> tx.sender != a && tx.recipient != a)
     && Untouched(c, Next(c, s, es[0]), es[1..], t, a))
  }

  lemma {:induction false} LedgerLocal(h: Where, g: Trie, txs: seq<Tx>, a: Addr)
    requires forall tx :: tx in txs ==> tx.sender != a && tx.recipient != a
    ensures Balance(LedgerApplyAll(h, g, txs), a) == Balance(g, a)
  {
    if txs != [] {
      var init, tx := txs[..|txs| - 1], txs[|txs| - 1];
      assert tx in txs;
      LedgerLocal(h, g, init, a);
    }
  }

  lemma {:induction false} UntouchedBalance(c: Config, s: Sys, g: Trie, es: seq<Event>, t: Sys, a: Addr)
    requires Run(c, s, es, t, true) && Untouched(c, s, es, t, a)
    ensures Balance(LedgerAfter(c, s, g, es, t), a) == Balance(g, a)
    decreases |es|
  {
    if es != [] {
      if es[0].Commit? {
        LedgerLocal(H(c, s, es[0].shard), g, s.leaders[es[0].shard].phase.body, a);
      }
      hide Next, LedgerApplyAll, H;
      UntouchedBalance(c, Next(c, s, es[0]), LedgerNext(c, s, g, es[0]), es[1..], t, a);
    }
  }

  /** So an account that no block in between touches, default accounts included, has at its new home the
      balance it had at its old one. */
  lemma UntouchedAccount(c: Config, before: seq<Event>, s: Sys, es: seq<Event>, t: Sys, a: Addr)
    requires c.Valid() && Run(c, Init(c), before, s, true) && AllDone(s)
    requires Run(c, s, es, t, true) && AllDone(t) && Untouched(c, s, es, t, a)
    ensures var from, to := Lookup(s.modifiedMap, c.addr2Shard, a), Lookup(t.modifiedMap, c.addr2Shard, a);
      0 <= from < |s.leaders| && 0 <= to < |t.leaders| && Balance(t.leaders[to].trie, a) == Balance(s.leaders[from].trie, a)
  {
    OneLedgerFromStart(c, before, s);
    var g := LedgerAfter(c, Init(c), map[], before, s);
    hide Run, LedgerAfter, Untouched, Init, AllDone, Lookup;
    CompleteRound(c, before, s, g, es, t, a);
    UntouchedBalance(c, s, g, es, t, a);
  }
}
