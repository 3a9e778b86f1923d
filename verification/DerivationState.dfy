/** The caches of L1 and L2 blocks that the derivation reads (src/derive/state.rs). */
module DerivationState {
  import opened Base
  import opened Types

  datatype StateView = StateView(
    l1Info: map<Hash, L1Info>,
    l1Hashes: map<nat, Hash>,
    l2Refs: map<nat, (BlockInfo, Epoch)>,
    safeHead: BlockInfo,
    safeEpoch: Epoch,
    currentEpochNum: nat)
  {
    function L1InfoByHash(hash: Hash): Option<L1Info> {
      if hash in l1Info then Some(l1Info[hash]) else None
    }

    function L1InfoByNumber(num: nat): Option<L1Info> {
      if num in l1Hashes then L1InfoByHash(l1Hashes[num]) else None
    }

    function EpochByNumber(num: nat): Option<Epoch> {
      match L1InfoByNumber(num)
      case Some(info) => Some(EpochOf(info))
      case None => None
    }

    function L2InfoByTimestamp(cfg: Config, timestamp: nat): Option<(BlockInfo, Epoch)>
      requires ValidConfig(cfg)
    {
      var blockNum := SubWrap(timestamp, cfg.genesisTime) / cfg.blocktime + cfg.genesisNumber;
      if blockNum in l2Refs then Some(l2Refs[blockNum]) else None
    }

    /** The safe head moves, and the new head is cached. */
    function WithSafeHead(head: BlockInfo, epoch: Epoch): StateView {
      this.(safeHead := head, safeEpoch := epoch, l2Refs := l2Refs[head.number := (head, epoch)])
    }

    /** A reorg forgets the L1 blocks but keeps the cached L2 blocks. */
    function Purged(head: BlockInfo, epoch: Epoch): StateView {
      this.(currentEpochNum := 0, l1Info := map[], l1Hashes := map[]).WithSafeHead(head, epoch)
    }

    /** L1 blocks below the given number are forgotten. */
    ghost function WithoutL1Below(until: nat): StateView {
      var kept := map n | n in l1Hashes && n >= until :: l1Hashes[n];
      this.(l1Info := l1Info - Dropped(l1Hashes, kept.Keys), l1Hashes := kept)
    }

    ghost function WithoutL2Below(until: nat): StateView {
      this.(l2Refs := map n | n in l2Refs && n >= until :: l2Refs[n])
    }

    /** L1 block numbers below this are pruned. */
    function L1PruneUntil(cfg: Config): nat {
      SubSaturate(safeEpoch.number, cfg.seqWindowSize)
    }

    /** L2 block numbers below this are pruned. The subtraction wraps around for low heads. */
    function L2PruneUntil(cfg: Config): nat
      requires ValidConfig(cfg)
    {
      SubWrap(safeHead.number, cfg.maxSeqDrift / cfg.blocktime)
    }

    function Inserted(info: L1Info): StateView {
      this.(
      currentEpochNum := info.blockInfo.number,
      l1Hashes := l1Hashes[info.blockInfo.number := info.blockInfo.hash],
      l1Info := l1Info[info.blockInfo.hash := info])
    }

    /** A new L1 block is cached, and then both caches are pruned. */
    ghost function WithL1Info(cfg: Config, info: L1Info): StateView
      requires ValidConfig(cfg)
    {
      Inserted(info).WithoutL1Below(L1PruneUntil(cfg)).WithoutL2Below(L2PruneUntil(cfg))
    }
  }

  /** The hashes that only numbers outside kept are responsible for removing. */
  ghost function Dropped(hashes: map<nat, Hash>, kept: set<nat>): set<Hash> {
    set n | n in hashes && n !in kept :: hashes[n]
  }

  lemma DroppedStep(hashes: map<nat, Hash>, kept: set<nat>, n: nat)
    requires n in hashes
    ensures Dropped(hashes, kept - {n}) == Dropped(hashes, kept) + {hashes[n]}
  {
    forall h | h in Dropped(hashes, kept) ensures h in Dropped(hashes, kept - {n}) {
      var m :| m in hashes && m !in kept && hashes[m] == h;
      assert m !in kept - {n};
    }
    assert n !in kept - {n};
  }

  ghost predicate IsLeast(k: nat, keys: set<nat>) {
    k in keys && forall j :: j in keys ==> k <= j
  }

  lemma {:induction false} LeastKeyExists(keys: set<nat>)
    requires keys != {}
    ensures exists k :: IsLeast(k, keys)
  {
    var k :| k in keys;
    var rest := keys - {k};
    if rest == {} {
      assert keys == {k};
      assert IsLeast(k, keys);
    } else {
      LeastKeyExists(rest);
      var m :| IsLeast(m, rest);
      assert keys == rest + {k};
      assert IsLeast(if k <= m then k else m, keys);
    }
  }

  /** The first key of an ordered map. */
  method FirstKey<V>(m: map<nat, V>) returns (k: nat)
    requires m != map[]
    ensures IsLeast(k, m.Keys)
  {
    assert |m| == |m.Keys|;
    LeastKeyExists(m.Keys);
    k :| k in m.Keys && forall j :: j in m.Keys ==> k <= j;
  }

  class State {
    var l1Info: map<Hash, L1Info>
    var l1Hashes: map<nat, Hash>
    var l2Refs: map<nat, (BlockInfo, Epoch)>
    var safeHead: BlockInfo
    var safeEpoch: Epoch
    var currentEpochNum: nat
    const cfg: Config

    function View(): StateView
      reads this
    {
      StateView(l1Info, l1Hashes, l2Refs, safeHead, safeEpoch, currentEpochNum)
    }

    constructor (finalizedHead: BlockInfo, finalizedEpoch: Epoch, refs: map<nat, (BlockInfo, Epoch)>, cfg: Config)
      ensures this.cfg == cfg
      ensures View() == StateView(map[], map[], refs, finalizedHead, finalizedEpoch, 0)
    {
      l1Info, l1Hashes, l2Refs := map[], map[], refs;
      safeHead, safeEpoch, currentEpochNum := finalizedHead, finalizedEpoch, 0;
      this.cfg := cfg;
    }

    method UpdateL1Info(info: L1Info)
      requires ValidConfig(cfg)
      modifies this
      ensures View() == old(View()).WithL1Info(cfg, info)
    {
      currentEpochNum := info.blockInfo.number;
      l1Hashes := l1Hashes[info.blockInfo.number := info.blockInfo.hash];
      l1Info := l1Info[info.blockInfo.hash := info];
      Prune();
    }

    method UpdateSafeHead(head: BlockInfo, epoch: Epoch)
      modifies this
      ensures View() == old(View()).WithSafeHead(head, epoch)
    {
      safeHead := head;
      safeEpoch := epoch;
      l2Refs := l2Refs[safeHead.number := (safeHead, safeEpoch)];
    }

    method Purge(head: BlockInfo, epoch: Epoch)
      modifies this
      ensures View() == old(View()).Purged(head, epoch)
    {
      currentEpochNum := 0;
      l1Info := map[];
      l1Hashes := map[];
      UpdateSafeHead(head, epoch);
    }

    method Prune()
      requires ValidConfig(cfg)
      modifies this
      ensures View() == old(View()).WithoutL1Below(old(View()).L1PruneUntil(cfg)).WithoutL2Below(old(View()).L2PruneUntil(cfg))
    {
      PruneL1(SubSaturate(safeEpoch.number, cfg.seqWindowSize));
      PruneL2(SubWrap(safeHead.number, cfg.maxSeqDrift / cfg.blocktime));
    }

    method PruneL1(until: nat)
      modifies this`l1Info, this`l1Hashes
      ensures l1Hashes == map n | n in old(l1Hashes) && n >= until :: old(l1Hashes)[n]
      ensures l1Info == old(l1Info) - Dropped(old(l1Hashes), l1Hashes.Keys)
    {
      ghost var hashes := l1Hashes;
      while l1Hashes != map[]
        invariant forall n :: n in l1Hashes ==> n in hashes && l1Hashes[n] == hashes[n]
        invariant forall n :: n in hashes && n >= until ==> n in l1Hashes
        invariant l1Info == old(l1Info) - Dropped(hashes, l1Hashes.Keys)
        decreases |l1Hashes|
      {
        var first := FirstKey(l1Hashes);
        if first >= until {
          break;
        }
        RemoveShrinks(l1Hashes, first);
        DroppedStep(hashes, l1Hashes.Keys, first);
        l1Info := l1Info - {l1Hashes[first]};
        l1Hashes := l1Hashes - {first};
      }
      assert l1Hashes == map n | n in hashes && n >= until :: hashes[n];
    }

    method PruneL2(until: nat)
      modifies this`l2Refs
      ensures l2Refs == map n | n in old(l2Refs) && n >= until :: old(l2Refs)[n]
    {
      ghost var refs := l2Refs;
      while l2Refs != map[]
        invariant forall n :: n in l2Refs ==> n in refs && l2Refs[n] == refs[n]
        invariant forall n :: n in refs && n >= until ==> n in l2Refs
        decreases |l2Refs|
      {
        var first := FirstKey(l2Refs);
        if first >= until {
          break;
        }
        RemoveShrinks(l2Refs, first);
        l2Refs := l2Refs - {first};
      }
      assert l2Refs == map n | n in refs && n >= until :: refs[n];
    }
  }

  lemma RemoveShrinks<V>(m: map<nat, V>, k: nat)
    requires k in m
    ensures |m - {k}| < |m|
  {
    assert (m - {k}).Keys == m.Keys - {k};
    assert |m| == |m.Keys|;
  }

  // ------------------------------------------------------------------- the L1 window

  /**
   The cache holds exactly the blocks lo..next of the L1 chain, under their numbers and
   under their hashes.
   */
  ghost predicate Window(s: StateView, l1: seq<L1Info>, lo: nat, next: nat) {
    && next <= |l1|
    && (forall n :: n in s.l1Hashes <==> lo <= n < next)
    && (forall n :: lo <= n < next ==> Cached(s, l1, n))
    && (forall h :: h in s.l1Info ==> HashOfBlock(l1, lo, next, h))
  }

  predicate Cached(s: StateView, l1: seq<L1Info>, n: nat)
    requires n < |l1|
  {
    var hash := l1[n].blockInfo.hash;
    && n in s.l1Hashes && s.l1Hashes[n] == hash
    && hash in s.l1Info && s.l1Info[hash] == l1[n]
  }

  ghost predicate HashOfBlock(l1: seq<L1Info>, lo: nat, next: nat, h: Hash)
    requires next <= |l1|
  {
    exists n :: lo <= n < next && l1[n].blockInfo.hash == h
  }

  /** Within a window the lookup by number answers for exactly the blocks of the window. */
  lemma EpochByNumberExact(s: StateView, l1: seq<L1Info>, lo: nat, next: nat, n: nat)
    requires Window(s, l1, lo, next)
    ensures s.EpochByNumber(n) == if lo <= n < next then Some(EpochOf(l1[n])) else None
  {
    if lo <= n < next {
      assert Cached(s, l1, n);
    }
  }

  /** Where the window starts once block next arrives and the old blocks are pruned. */
  function WindowStart(s: StateView, cfg: Config, lo: nat, next: nat): nat {
    var from := if lo <= next then lo else next;
    if from <= s.L1PruneUntil(cfg) then s.L1PruneUntil(cfg) else from
  }

  /** The next L1 block keeps the window contiguous and moves both its ends. */
  lemma WindowAdvances(s: StateView, cfg: Config, l1: seq<L1Info>, lo: nat, next: nat)
    requires ValidConfig(cfg)
    requires ValidL1(l1) && next < |l1| && Window(s, l1, lo, next)
    ensures Window(s.WithL1Info(cfg, l1[next]), l1, WindowStart(s, cfg, lo, next), next + 1)
  {
    WindowInserts(s, l1, lo, next);
    var inserted := s.Inserted(l1[next]);
    WindowPrunes(inserted, l1, if lo <= next then lo else next, next + 1, s.L1PruneUntil(cfg));
    WindowReadsL1Only(inserted.WithoutL1Below(s.L1PruneUntil(cfg)), s.WithL1Info(cfg, l1[next]), l1,
                      WindowStart(s, cfg, lo, next), next + 1);
  }

  lemma WindowReadsL1Only(s: StateView, s': StateView, l1: seq<L1Info>, lo: nat, next: nat)
    requires s'.l1Info == s.l1Info && s'.l1Hashes == s.l1Hashes
    requires Window(s, l1, lo, next)
    ensures Window(s', l1, lo, next)
  {
    forall n | lo <= n < next ensures Cached(s', l1, n) {
      assert Cached(s, l1, n);
    }
  }

  lemma WindowInserts(s: StateView, l1: seq<L1Info>, lo: nat, next: nat)
    requires ValidL1(l1) && next < |l1| && Window(s, l1, lo, next)
    ensures Window(s.Inserted(l1[next]), l1, if lo <= next then lo else next, next + 1)
  {
    var s' := s.Inserted(l1[next]);
    var from := if lo <= next then lo else next;
    forall n | from <= n < next + 1 ensures Cached(s', l1, n) {
      if n < next {
        assert Cached(s, l1, n);
      }
    }
    forall h | h in s'.l1Info ensures HashOfBlock(l1, from, next + 1, h) {
      if h == l1[next].blockInfo.hash {
        assert from <= next;
      } else {
        assert HashOfBlock(l1, lo, next, h);
      }
    }
  }

  lemma WindowPrunes(s: StateView, l1: seq<L1Info>, lo: nat, next: nat, until: nat)
    requires ValidL1(l1) && Window(s, l1, lo, next)
    ensures Window(s.WithoutL1Below(until), l1, if lo <= until then until else lo, next)
  {
    var s' := s.WithoutL1Below(until);
    var lo' := if lo <= until then until else lo;
    var gone := Dropped(s.l1Hashes, s'.l1Hashes.Keys);
    forall n | lo' <= n < next ensures Cached(s', l1, n) {
      assert Cached(s, l1, n);
      forall m | m in s.l1Hashes && m !in s'.l1Hashes ensures s.l1Hashes[m] != l1[n].blockInfo.hash {
        assert Cached(s, l1, m);
      }
    }
    forall n | lo <= n < next && n < until ensures l1[n].blockInfo.hash in gone {
      assert Cached(s, l1, n);
      assert n in s.l1Hashes && n !in s'.l1Hashes;
    }
    forall h | h in s'.l1Info ensures HashOfBlock(l1, lo', next, h) {
      assert HashOfBlock(l1, lo, next, h);
    }
  }

  /** A longer L1 chain with the same delivered blocks has the same window. */
  lemma WindowExtends(s: StateView, l1: seq<L1Info>, l1': seq<L1Info>, lo: nat, next: nat)
    requires Window(s, l1, lo, next) && next <= |l1'| && l1'[..next] == l1[..next]
    ensures Window(s, l1', lo, next)
  {
    forall n | lo <= n < next ensures Cached(s, l1', n) {
      assert Cached(s, l1, n);
      assert l1'[n] == l1'[..next][n] == l1[..next][n] == l1[n];
    }
    forall h | h in s.l1Info ensures HashOfBlock(l1', lo, next, h) {
      assert HashOfBlock(l1, lo, next, h);
      var n :| lo <= n < next && l1[n].blockInfo.hash == h;
      assert l1'[n] == l1'[..next][n] == l1[..next][n] == l1[n];
    }
  }

  // ---------------------------------------------------------------------- L2 pruning

  /**
   Pruning keeps a cached safe head exactly when the head is at least the lookback above
   zero: below that the subtraction wraps around and every cached L2 block is dropped.
   */
  lemma PruneKeepsSafeHeadIff(s: StateView, cfg: Config, info: L1Info)
    requires ValidConfig(cfg)
    requires s.safeHead.number in s.l2Refs
    requires forall n :: n in s.l2Refs ==> n + cfg.maxSeqDrift < U64_RANGE
    ensures s.safeHead.number in s.WithL1Info(cfg, info).l2Refs
            <==> s.safeHead.number >= cfg.maxSeqDrift / cfg.blocktime
    ensures s.safeHead.number < cfg.maxSeqDrift / cfg.blocktime ==> s.WithL1Info(cfg, info).l2Refs == map[]
  {
    DivisionShrinks(cfg.maxSeqDrift, cfg.blocktime);
  }

  lemma DivisionShrinks(a: nat, d: nat)
    requires d > 0
    ensures a / d <= a
  {
    MulGrows(d, a / d);
  }

  lemma MulGrows(d: nat, q: nat)
    requires d > 0
    ensures d * q >= q
  {
  }
}
