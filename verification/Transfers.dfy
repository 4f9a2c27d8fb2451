/** Where accounts live: chain/blockchain.go:62-76 and supervisor/committee/committee_clpa.go:63-69. */
module Placement {
  type Addr = string

  /** An override if there is one, else the default shard of the address; this is Get_PartitionMap on a
      shard and fetchModifiedMap on the supervisor. */
  function Lookup(overrides: map<Addr, int>, addr2Shard: Addr -> int, a: Addr): int {
    if a in overrides then overrides[a] else addr2Shard(a)
  }
}

/** Account transfers, how a block of them changes a shard's status trie, and how a shard sorts them by
    destination (chain/blockchain.go, core/txpool.go, consensus_shard/pbft_all). */
module Transfers {
  import opened Placement

  const INIT_BALANCE := 100000000000000000000000000000000000000000000

  /** A transfer; `relayed` marks the second half of a cross-shard transfer. */
  datatype Tx = Tx(id: nat, sender: Addr, recipient: Addr, value: int, relayed: bool)

  type Trie = map<Addr, int>

  /** The account that decides which shard must process a transfer. */
  function Key(tx: Tx): Addr {
    if tx.relayed then tx.recipient else tx.sender
  }

  /** A missing account holds the initial balance. */
  function Balance(trie: Trie, a: Addr): int {
    if a in trie then trie[a] else INIT_BALANCE
  }

  /** What a shard knows when it sorts transfers: its id, its overrides, the default placement. */
  datatype Where = Where(me: int, pmap: map<Addr, int>, addr2Shard: Addr -> int) {
    function Of(a: Addr): int {
      Lookup(pmap, addr2Shard, a)
    }

    predicate Here(a: Addr) {
      Of(a) == me
    }

    /** The two "incorrect tx" panics of HandleinCommit. */
    predicate Misrouted(tx: Tx) {
      !Here(Key(tx))
    }

    /** First half of a cross-shard transfer: to be relayed. */
    predicate Crosses(tx: Tx) {
      !tx.relayed && !Here(tx.recipient)
    }

    /** A deduction that the balance check refuses. */
    predicate Refuses(trie: Trie, tx: Tx) {
      !tx.relayed && Here(tx.sender) && Balance(trie, tx.sender) < tx.value
    }

    /** One transfer of GetUpdateStatusTrie. */
    function Apply(trie: Trie, tx: Tx): Trie {
      if Refuses(trie, tx) then trie else
        var t := if !tx.relayed && Here(tx.sender)
                 then trie[tx.sender := Balance(trie, tx.sender) - tx.value] else trie;
        if Here(tx.recipient) then t[tx.recipient := Balance(t, tx.recipient) + tx.value] else t
    }

    function ApplyAll(trie: Trie, txs: seq<Tx>): Trie {
      if txs == [] then trie else Apply(ApplyAll(trie, txs[..|txs| - 1]), txs[|txs| - 1])
    }

    /** The transfers of a block that HandleinCommit relays to shard `k`, marked as relayed. */
    function RelayTo(k: int, txs: seq<Tx>): seq<Tx> {
      if txs == [] then [] else
        var tx := txs[|txs| - 1];
        RelayTo(k, txs[..|txs| - 1]) + if Crosses(tx) && Of(tx.recipient) == k then [tx.(relayed := true)] else []
    }

    /** The transfers of a block that are reported as executed. */
    function Executed(txs: seq<Tx>): seq<Tx> {
      if txs == [] then [] else
        var tx := txs[|txs| - 1];
        Executed(txs[..|txs| - 1]) + if Crosses(tx) then [] else [tx]
    }

    /** Total value of the cross-shard transfers of a block whose deduction is refused; HandleinCommit
        relays them all the same. */
    function Forged(trie: Trie, txs: seq<Tx>): int {
      if txs == [] then 0 else
        var init, tx := txs[..|txs| - 1], txs[|txs| - 1];
        Forged(trie, init) + if Crosses(tx) && Refuses(ApplyAll(trie, init), tx) then tx.value else 0
    }

    /** During re-sharding: the account's new shard is `k` and it lives here now. */
    predicate Leaves(delta: map<Addr, int>, k: int, a: Addr) {
      a in delta && delta[a] == k && k != me && Here(a)
    }

    /** The pool transfers that follow their account to shard `k`. */
    function Sent(delta: map<Addr, int>, k: int, txs: seq<Tx>): seq<Tx> {
      if txs == [] then [] else
        var tx := txs[|txs| - 1];
        Sent(delta, k, txs[..|txs| - 1]) + if Leaves(delta, k, Key(tx)) then [tx] else []
    }

    /** The pool transfers that follow their account to none of the shards below `n`. */
    function Kept(delta: map<Addr, int>, n: nat, txs: seq<Tx>): seq<Tx> {
      if txs == [] then [] else
        var tx := txs[|txs| - 1];
        Kept(delta, n, txs[..|txs| - 1])
        + if Key(tx) in delta && 0 <= delta[Key(tx)] < n && Leaves(delta, delta[Key(tx)], Key(tx)) then [] else [tx]
    }

    /** The accounts that move to shard `k`, with their balances here. */
    function Accounts(delta: map<Addr, int>, k: int, trie: Trie): Trie {
      map a | a in delta && Leaves(delta, k, a) :: Balance(trie, a)
    }
  }

  // ---------------------------------------------------------------- sums over transfers

  /** Sum of a weight over a list of transfers. */
  function Mass(w: Tx -> int, txs: seq<Tx>): int {
    if txs == [] then 0 else Mass(w, txs[..|txs| - 1]) + w(txs[|txs| - 1])
  }

  lemma {:induction false} MassAppend(w: Tx -> int, a: seq<Tx>, b: seq<Tx>)
    ensures Mass(w, a + b) == Mass(w, a) + Mass(w, b)
  {
    if b == [] {
      assert a + b == a;
    } else {
      assert (a + b)[..|a + b| - 1] == a + b[..|b| - 1];
      MassAppend(w, a, b[..|b| - 1]);
    }
  }

  /** Sums of a per-shard quantity over the shards below `n`, except shard `me`. */
  function SumTo(n: nat, me: int, f: int -> int): int {
    if n == 0 then 0 else SumTo(n - 1, me, f) + if n - 1 == me then 0 else f(n - 1)
  }

  // ---------------------------------------------------------------- the pool split

  /** Taking the transfers for shard `k` out of what is left gives the same list as taking them out of
      the whole pool, and leaves what no shard up to `k` takes. */
  lemma {:induction false} SplitStep(h: Where, delta: map<Addr, int>, k: nat, txs: seq<Tx>)
    ensures h.Sent(delta, k, h.Kept(delta, k, txs)) == h.Sent(delta, k, txs)
    ensures Stays(h, delta, k, h.Kept(delta, k, txs)) == h.Kept(delta, k + 1, txs)
  {
    if txs != [] {
      var init, tx := txs[..|txs| - 1], txs[|txs| - 1];
      SplitStep(h, delta, k, init);
      var q := h.Kept(delta, k, init);
      assert (q + [tx])[..|q|] == q;
      assert q + [] == q;
    }
  }

  /** One pass of the two-pointer loop: what does not go to shard `k`. */
  function Stays(h: Where, delta: map<Addr, int>, k: int, txs: seq<Tx>): seq<Tx> {
    if txs == [] then [] else
      var tx := txs[|txs| - 1];
      Stays(h, delta, k, txs[..|txs| - 1]) + if h.Leaves(delta, k, Key(tx)) then [] else [tx]
  }

  lemma {:induction false} KeptNone(h: Where, delta: map<Addr, int>, txs: seq<Tx>)
    ensures h.Kept(delta, 0, txs) == txs
  {
    if txs != [] {
      KeptNone(h, delta, txs[..|txs| - 1]);
    }
  }

  /** All transfers sent to the shards below `n`, as one bag. */
  function SentBag(h: Where, delta: map<Addr, int>, n: nat, txs: seq<Tx>): multiset<Tx> {
    if n == 0 then multiset{} else SentBag(h, delta, n - 1, txs) + multiset(h.Sent(delta, n - 1, txs))
  }

  function Maybe(yes: bool, tx: Tx): seq<Tx> {
    if yes then [tx] else []
  }

  /** One more shard's share moves from the kept transfers to the sent ones. */
  lemma {:induction false} OneCut(h: Where, delta: map<Addr, int>, k: nat, txs: seq<Tx>)
    ensures multiset(h.Kept(delta, k, txs)) == multiset(h.Kept(delta, k + 1, txs)) + multiset(h.Sent(delta, k, txs))
  {
    if txs != [] {
      var init, tx := txs[..|txs| - 1], txs[|txs| - 1];
      OneCut(h, delta, k, init);
      var to := if Key(tx) in delta && h.Leaves(delta, delta[Key(tx)], Key(tx)) then delta[Key(tx)] else -1;
      assert h.Kept(delta, k, txs) == h.Kept(delta, k, init) + Maybe(!(0 <= to < k), tx);
      assert h.Kept(delta, k + 1, txs) == h.Kept(delta, k + 1, init) + Maybe(!(0 <= to < k + 1), tx);
      assert h.Sent(delta, k, txs) == h.Sent(delta, k, init) + Maybe(to == k, tx);
      CutOne(h.Kept(delta, k, init), h.Kept(delta, k + 1, init), h.Sent(delta, k, init), to, k, tx);
    }
  }

  lemma CutOne(a: seq<Tx>, b: seq<Tx>, c: seq<Tx>, to: int, k: nat, tx: Tx)
    requires multiset(a) == multiset(b) + multiset(c)
    ensures multiset(a + Maybe(!(0 <= to < k), tx))
         == multiset(b + Maybe(!(0 <= to < k + 1), tx)) + multiset(c + Maybe(to == k, tx))
  {
  }

  lemma MassMaybe(w: Tx -> int, txs: seq<Tx>, yes: bool, tx: Tx)
    ensures Mass(w, txs + Maybe(yes, tx)) == Mass(w, txs) + if yes then w(tx) else 0
  {
    if yes {
      assert (txs + [tx])[..|txs|] == txs;
    } else {
      assert txs + [] == txs;
    }
  }

  /** The same for any sum over transfers. */
  lemma {:induction false} OneCutMass(h: Where, delta: map<Addr, int>, k: nat, txs: seq<Tx>, w: Tx -> int)
    ensures Mass(w, h.Kept(delta, k, txs)) == Mass(w, h.Kept(delta, k + 1, txs)) + Mass(w, h.Sent(delta, k, txs))
    decreases |txs|
  {
    if txs != [] {
      var init, tx := txs[..|txs| - 1], txs[|txs| - 1];
      OneCutMass(h, delta, k, init, w);
      var to := if Key(tx) in delta && h.Leaves(delta, delta[Key(tx)], Key(tx)) then delta[Key(tx)] else -1;
      hide Mass;
      assert h.Kept(delta, k, txs) == h.Kept(delta, k, init) + Maybe(!(0 <= to < k), tx);
      assert h.Kept(delta, k + 1, txs) == h.Kept(delta, k + 1, init) + Maybe(!(0 <= to < k + 1), tx);
      assert h.Sent(delta, k, txs) == h.Sent(delta, k, init) + Maybe(to == k, tx);
      MassMaybe(w, h.Kept(delta, k, init), !(0 <= to < k), tx);
      MassMaybe(w, h.Kept(delta, k + 1, init), !(0 <= to < k + 1), tx);
      MassMaybe(w, h.Sent(delta, k, init), to == k, tx);
    }
  }

  function SentMass(h: Where, delta: map<Addr, int>, txs: seq<Tx>, w: Tx -> int): int -> int {
    k => Mass(w, h.Sent(delta, k, txs))
  }

  /** The weight of the pool is the weight kept plus the weight sent, shard by shard. */
  lemma {:induction false} SplitMass(h: Where, delta: map<Addr, int>, n: nat, txs: seq<Tx>, w: Tx -> int)
    ensures Mass(w, txs) == Mass(w, h.Kept(delta, n, txs)) + SumTo(n, h.me, SentMass(h, delta, txs, w))
    decreases n
  {
    if n == 0 {
      KeptNone(h, delta, txs);
    } else {
      SplitMass(h, delta, n - 1, txs, w);
      SplitMassStep(h, delta, n - 1, txs, w);
    }
  }

  lemma SplitMassStep(h: Where, delta: map<Addr, int>, k: nat, txs: seq<Tx>, w: Tx -> int)
    ensures Mass(w, h.Kept(delta, k, txs)) + SumTo(k, h.me, SentMass(h, delta, txs, w))
         == Mass(w, h.Kept(delta, k + 1, txs)) + SumTo(k + 1, h.me, SentMass(h, delta, txs, w))
  {
    hide Mass, Where.Kept, Where.Sent, Where.Leaves;
    OneCutMass(h, delta, k, txs, w);
    SentNoneToSelf(h, delta, txs, w);
  }

  lemma {:induction false} SumToSame(n: nat, me: int, f: int -> int, g: int -> int)
    requires forall k :: 0 <= k < n ==> f(k) == g(k)
    ensures SumTo(n, me, f) == SumTo(n, me, g)
  {
    if n > 0 {
      SumToSame(n - 1, me, f, g);
    }
  }

  lemma {:induction false} SentNoneToSelf(h: Where, delta: map<Addr, int>, txs: seq<Tx>, w: Tx -> int)
    ensures h.Sent(delta, h.me, txs) == [] && Mass(w, h.Sent(delta, h.me, txs)) == 0
  {
    if txs != [] {
      SentNoneToSelf(h, delta, txs[..|txs| - 1], w);
    }
  }

  ghost predicate Permuted(h: Where, delta: map<Addr, int>, n: nat, txs: seq<Tx>) {
    multiset(txs) == multiset(h.Kept(delta, n, txs)) + SentBag(h, delta, n, txs)
  }

  lemma SplitNone(h: Where, delta: map<Addr, int>, txs: seq<Tx>)
    ensures Permuted(h, delta, 0, txs)
  {
    KeptNone(h, delta, txs);
  }

  lemma SplitOneMore(h: Where, delta: map<Addr, int>, k: nat, txs: seq<Tx>)
    requires Permuted(h, delta, k, txs)
    ensures Permuted(h, delta, k + 1, txs)
  {
    OneCut(h, delta, k, txs);
  }

  /** The split loses nothing and duplicates nothing: what is kept and what is sent is a permutation of
      the old pool. */
  lemma {:induction false} SplitIsPermutation(h: Where, delta: map<Addr, int>, n: nat, txs: seq<Tx>)
    ensures Permuted(h, delta, n, txs)
    decreases n
  {
    hide *;
    if n == 0 {
      SplitNone(h, delta, txs);
    } else {
      SplitIsPermutation(h, delta, n - 1, txs);
      SplitOneMore(h, delta, n - 1, txs);
    }
  }

  /** The split is order-preserving: it commutes with concatenation. */
  lemma {:induction false} SplitKeepsOrder(h: Where, delta: map<Addr, int>, n: nat, k: int, a: seq<Tx>, b: seq<Tx>)
    ensures h.Sent(delta, k, a + b) == h.Sent(delta, k, a) + h.Sent(delta, k, b)
    ensures h.Kept(delta, n, a + b) == h.Kept(delta, n, a) + h.Kept(delta, n, b)
  {
    if b == [] {
      assert a + b == a;
    } else {
      assert (a + b)[..|a + b| - 1] == a + b[..|b| - 1];
      SplitKeepsOrder(h, delta, n, k, a, b[..|b| - 1]);
    }
  }

  /** Everything sent to shard `k` has its key there under the new map, everything kept has its key where
      the new map and the shard agree. */
  lemma {:induction false} SplitRoutes(h: Where, delta: map<Addr, int>, n: nat, k: int, txs: seq<Tx>)
    ensures forall tx :: tx in h.Sent(delta, k, txs) <==> tx in txs && h.Leaves(delta, k, Key(tx))
    ensures forall tx :: tx in h.Kept(delta, n, txs) <==>
              tx in txs && !(Key(tx) in delta && 0 <= delta[Key(tx)] < n && h.Leaves(delta, delta[Key(tx)], Key(tx)))
  {
    if txs != [] {
      SplitRoutes(h, delta, n, k, txs[..|txs| - 1]);
    }
  }

  // ---------------------------------------------------------------- blocks

  lemma {:induction false} RelayContents(h: Where, k: int, txs: seq<Tx>)
    ensures forall tx :: tx in h.RelayTo(k, txs) ==>
              tx.relayed && h.Of(tx.recipient) == k && k != h.me
              && exists o :: o in txs && tx == o.(relayed := true)
  {
    if txs != [] {
      RelayContents(h, k, txs[..|txs| - 1]);
      var o := txs[|txs| - 1];
      forall tx | tx in h.RelayTo(k, txs)
        ensures tx.relayed && h.Of(tx.recipient) == k && k != h.me && exists o :: o in txs && tx == o.(relayed := true)
      {
        if tx !in h.RelayTo(k, txs[..|txs| - 1]) {
          assert o in txs && tx == o.(relayed := true);
        }
      }
    }
  }

  /** A block writes only accounts that live here. */
  lemma {:induction false} ApplyLocal(h: Where, trie: Trie, txs: seq<Tx>)
    ensures forall a :: !h.Here(a) ==> Balance(h.ApplyAll(trie, txs), a) == Balance(trie, a)
  {
    if txs != [] {
      ApplyLocal(h, trie, txs[..|txs| - 1]);
    }
  }
}
