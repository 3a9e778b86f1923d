/**
 Cached L2 blocks above the safe head are never consulted: a reorg leaves them in the cache,
 and the node behaves as if they were not there.
 */
module CacheSafety {
  import opened Base
  import opened Types
  import opened SpanBlocks
  import opened DerivationState
  import opened BatchQueue
  import opened BatchSafety
  import opened Attributes
  import opened NodeModel
  import opened NodeSafety
  import opened NodeTheorems

  /** The caches without the L2 blocks above the safe head. */
  ghost function Trimmed(s: StateView): StateView {
    s.(l2Refs := map k | k in s.l2Refs && k <= s.safeHead.number :: s.l2Refs[k])
  }

  ghost predicate SameRef(s: StateView, s': StateView, k: nat) {
    (k in s.l2Refs <==> k in s'.l2Refs) && (k in s.l2Refs && k in s'.l2Refs ==> s.l2Refs[k] == s'.l2Refs[k])
  }

  /** The same caches, but for L2 blocks above the safe head. */
  ghost predicate Alike(s: StateView, s': StateView) {
    && s' == s.(l2Refs := s'.l2Refs)
    && forall k: nat :: k <= s.safeHead.number ==> SameRef(s, s', k)
  }

  lemma TrimmedAlike(s: StateView)
    ensures Alike(s, Trimmed(s))
  {
  }

  // ------------------------------------------------------------------------- the lookups

  /** A lookup at a scheduled time up to the safe head finds the same. */
  lemma LookupAlike(cfg: Config, s: StateView, s': StateView, block: BlockInfo)
    requires ValidConfig(cfg) && Alike(s, s') && Regular(cfg, s.safeHead)
    requires Regular(cfg, block) && block.timestamp <= s.safeHead.timestamp
    ensures s.L2InfoByTimestamp(cfg, block.timestamp) == s'.L2InfoByTimestamp(cfg, block.timestamp)
  {
    LookupRegular(cfg, s, block);
    LookupRegular(cfg, s', block);
    MultiplesOrdered(block.number - cfg.genesisNumber, s.safeHead.number - cfg.genesisNumber, cfg.blocktime);
    assert SameRef(s, s', block.number);
  }

  /** So does the lookup one block time before block i of a span, up to the block after the safe head. */
  lemma SlotLookupAlike(cfg: Config, s: StateView, s': StateView, b: SpanBatch, i: nat)
    requires ValidConfig(cfg) && ValidSpan(b) && AlignedSpan(cfg, b) && Alike(s, s') && Regular(cfg, s.safeHead)
    requires StartTimestamp(cfg, b) <= NextTimestamp(cfg, s)
    requires i <= b.blockCount && StartTimestamp(cfg, b) + i * cfg.blocktime <= NextTimestamp(cfg, s)
    ensures var t := SubWrap(StartTimestamp(cfg, b) + i * cfg.blocktime, cfg.blocktime);
            s.L2InfoByTimestamp(cfg, t) == s'.L2InfoByTimestamp(cfg, t)
  {
    SpanLooksBelowSafeHead(cfg, s, b, i);
    var t := SubWrap(StartTimestamp(cfg, b) + i * cfg.blocktime, cfg.blocktime);
    var block :| Regular(cfg, block) && block.timestamp == t;
    LookupAlike(cfg, s, s', block);
  }

  lemma HeaderAlike(cfg: Config, s: StateView, s': StateView, b: SpanBatch)
    requires ValidConfig(cfg) && ValidSpan(b) && AlignedSpan(cfg, b) && Alike(s, s') && Regular(cfg, s.safeHead)
    ensures SpanHeaderStatus(cfg, s, b) == SpanHeaderStatus(cfg, s', b)
  {
    if StartTimestamp(cfg, b) <= NextTimestamp(cfg, s) {
      SlotLookupAlike(cfg, s, s', b, 0);
    }
  }

  lemma {:induction false} DriftAlike(cfg: Config, s: StateView, s': StateView, b: SpanBatch, from: nat)
    requires ValidSpan(b) && Alike(s, s') && from <= b.blockCount
    ensures SpanDrift(cfg, s, b, from) == SpanDrift(cfg, s', b, from)
    decreases b.blockCount - from
  {
    if from < b.blockCount {
      assert SpanDriftAt(cfg, s, b, from) == SpanDriftAt(cfg, s', b, from);
      DriftAlike(cfg, s, s', b, from + 1);
    }
  }

  /** A block of an aligned span before the next slot is a whole block time before it. */
  lemma BlockBeforeNext(cfg: Config, s: StateView, b: SpanBatch, i: nat)
    requires ValidConfig(cfg) && ValidSpan(b) && AlignedSpan(cfg, b) && Regular(cfg, s.safeHead)
    requires StartTimestamp(cfg, b) + i * cfg.blocktime < NextTimestamp(cfg, s)
    ensures StartTimestamp(cfg, b) + (i + 1) * cfg.blocktime <= NextTimestamp(cfg, s)
  {
    var k, m := b.relTimestamp / cfg.blocktime, s.safeHead.number - cfg.genesisNumber;
    assert b.relTimestamp == k * cfg.blocktime;
    SlotsAdd(k, i, cfg.blocktime);
    SlotsAdd(k, i + 1, cfg.blocktime);
    StepTimes(cfg.blocktime, m + 1);
    if k + i >= m + 1 {
      MulMonotone(m + 1, k + i, cfg.blocktime);
    }
    MulMonotone(k + i + 1, m + 1, cfg.blocktime);
  }

  lemma OverlapAtAlike(cfg: Config, s: StateView, s': StateView, b: SpanBatch, i: nat)
    requires ValidConfig(cfg) && ValidSpan(b) && AlignedSpan(cfg, b) && Alike(s, s') && Regular(cfg, s.safeHead)
    requires StartTimestamp(cfg, b) <= NextTimestamp(cfg, s) && i < b.blockCount
    ensures SpanOverlapAt(cfg, s, b, i) == SpanOverlapAt(cfg, s', b, i)
  {
    var t := InputAt(cfg, b, i).timestamp;
    if t < NextTimestamp(cfg, s) {
      BlockBeforeNext(cfg, s, b, i);
      SlotLookupAlike(cfg, s, s', b, i + 1);
      StepTimes(cfg.blocktime, i + 1);
      assert SubWrap(StartTimestamp(cfg, b) + (i + 1) * cfg.blocktime, cfg.blocktime) == t;
    }
  }

  lemma {:induction false} OverlapAlike(cfg: Config, s: StateView, s': StateView, b: SpanBatch, from: nat)
    requires ValidConfig(cfg) && ValidSpan(b) && AlignedSpan(cfg, b) && Alike(s, s') && Regular(cfg, s.safeHead)
    requires StartTimestamp(cfg, b) <= NextTimestamp(cfg, s) && from <= b.blockCount
    ensures SpanOverlap(cfg, s, b, from) == SpanOverlap(cfg, s', b, from)
    decreases b.blockCount - from
  {
    if from < b.blockCount {
      OverlapAtAlike(cfg, s, s', b, from);
      OverlapAlike(cfg, s, s', b, from + 1);
    }
  }

  /**
   The status of an aligned span does not depend on cached L2 blocks above the safe head: it
   is the same with any others there, or with none.
   */
  lemma SpanStatusAlike(cfg: Config, s: StateView, s': StateView, b: SpanBatch)
    requires ValidConfig(cfg) && ValidSpan(b) && AlignedSpan(cfg, b) && Alike(s, s') && Regular(cfg, s.safeHead)
    ensures SpanStatus(cfg, s, b) == SpanStatus(cfg, s', b)
  {
    HeaderAlike(cfg, s, s', b);
    DriftAlike(cfg, s, s', b, 0);
    if SpanHeaderStatus(cfg, s, b) == Accept {
      OverlapAlike(cfg, s, s', b, 0);
    }
  }

  // --------------------------------------------------------------------- the queue, a pull

  lemma StatusAlike(cfg: Config, s: StateView, s': StateView, b: Batch)
    requires ValidConfig(cfg) && ValidBatch(b) && Aligned(cfg, b) && Alike(s, s') && Regular(cfg, s.safeHead)
    ensures Status(cfg, s, b) == Status(cfg, s', b)
  {
    if b.Span? && ValidSpan(b.span) {
      SpanStatusAlike(cfg, s, s', b.span);
    }
  }

  lemma {:induction false} ScanAlike(cfg: Config, s: StateView, s': StateView, batches: map<nat, Batch>)
    requires ValidConfig(cfg) && Keyed(cfg, batches) && AllAligned(cfg, batches) && Alike(s, s') && Regular(cfg, s.safeHead)
    ensures Scan(cfg, s, batches) == Scan(cfg, s', batches)
    decreases |batches|
  {
    if batches != map[] {
      var k := FirstBatch(batches);
      RemoveShrinks(batches, k);
      StatusAlike(cfg, s, s', batches[k]);
      if Status(cfg, s, batches[k]) == Drop {
        ScanAlike(cfg, s, s', batches - {k});
      }
    }
  }

  lemma {:induction false} FilterAlike(s: StateView, s': StateView, inputs: seq<BlockInput>)
    requires Alike(s, s')
    ensures FilterInputs(s, inputs) == FilterInputs(s', inputs)
    decreases |inputs|
  {
    if inputs != [] {
      FilterAlike(s, s', inputs[1..]);
    }
  }

  lemma DeriveAlike(cfg: Config, s: StateView, s': StateView, batches: map<nat, Batch>)
    requires ValidConfig(cfg) && Keyed(cfg, batches) && AllAligned(cfg, batches) && Alike(s, s') && Regular(cfg, s.safeHead)
    ensures Derive(cfg, s, batches) == Derive(cfg, s', batches)
  {
    ScanAlike(cfg, s, s', batches);
    ScanKeeps(cfg, s, batches);
    var result := Scan(cfg, s, batches).1;
    if result.Accepted? {
      FilterAlike(s, s', AsInputs(cfg, result.batch));
    }
    assert ForcedInput(cfg, s) == ForcedInput(cfg, s');
  }

  /** A step of the queue is the same, its stored batches, pending blocks and outcome. */
  lemma TryNextAlike(cfg: Config, s: StateView, s': StateView, q: Queue, read: ChannelRead)
    requires ValidConfig(cfg) && Alike(s, s') && Regular(cfg, s.safeHead)
    requires Keyed(cfg, q.batches) && AllAligned(cfg, q.batches) && ValidRead(read) && ReadAligned(cfg, read)
    ensures TryNext(cfg, s, q, read) == TryNext(cfg, s', q, read)
  {
    if q.pending == [] && !read.Undecodable? {
      var batches := if read.Decoded? then Insert(cfg, q.batches, read.batches) else q.batches;
      if read.Decoded? {
        InsertKeeps(cfg, q.batches, read.batches);
      }
      DeriveAlike(cfg, s, s', batches);
    }
  }

  lemma NextAttributesAlike(cfg: Config, s: StateView, s': StateView, p: Pipeline, read: ChannelRead)
    requires ValidConfig(cfg) && Alike(s, s') && Regular(cfg, s.safeHead)
    requires Keyed(cfg, p.queue.batches) && AllAligned(cfg, p.queue.batches) && ValidRead(read) && ReadAligned(cfg, read)
    ensures NextAttributes(cfg, s, p, read) == NextAttributes(cfg, s', p, read)
  {
    TryNextAlike(cfg, s, s', p.queue, read);
  }

  // -------------------------------------------------------------------------------- runs

  /** The same node, but for cached L2 blocks above the safe head. */
  ghost predicate NodesAlike(n: Node, n': Node) {
    n' == n.(state := n'.state) && Alike(n.state, n'.state)
  }

  ghost predicate OutcomesAlike(r: Option<Node>, r': Option<Node>) {
    if r.Some? && r'.Some? then NodesAlike(r.value, r'.value) else r == r'
  }

  lemma HeadAlike(s: StateView, s': StateView, head: BlockInfo, epoch: Epoch)
    requires Alike(s, s') && head.number <= s.safeHead.number + 1
    ensures Alike(s.WithSafeHead(head, epoch), s'.WithSafeHead(head, epoch))
  {
    var t, t' := s.WithSafeHead(head, epoch), s'.WithSafeHead(head, epoch);
    forall k: nat | k <= head.number ensures SameRef(t, t', k) {
      assert k <= s.safeHead.number ==> SameRef(s, s', k);
    }
  }

  lemma L1InfoAlike(cfg: Config, s: StateView, s': StateView, info: L1Info)
    requires ValidConfig(cfg) && Alike(s, s')
    ensures Alike(s.WithL1Info(cfg, info), s'.WithL1Info(cfg, info))
  {
    var t, t' := s.WithL1Info(cfg, info), s'.WithL1Info(cfg, info);
    forall k: nat | k <= t.safeHead.number ensures SameRef(t, t', k) {
      assert SameRef(s, s', k);
    }
  }

  lemma PullAlike(cfg: Config, n: Node, n': Node, read: ChannelRead, hash: Hash)
    requires Inv(cfg, n) && NodesAlike(n, n') && ValidRead(read) && ReadAligned(cfg, read)
    ensures OutcomesAlike(PullStep(cfg, n, read, hash), PullStep(cfg, n', read, hash))
  {
    NextAttributesAlike(cfg, n.state, n'.state, n.pipeline, read);
    var (p, outcome) := NextAttributes(cfg, n.state, n.pipeline, read);
    if outcome.Attrs? && AfterPull(cfg, n, p, outcome, hash).Some? {
      NextAttributesGood(cfg, n, read);
      PullAppends(cfg, n, p, outcome.attributes, hash);
      var head := AfterPull(cfg, n, p, outcome, hash).value.driven.heads;
      HeadAlike(n.state, n'.state, head.safeHead, head.safeEpoch);
    }
  }

  lemma ReorgAlike(cfg: Config, n: Node, n': Node, l1: seq<L1Info>)
    requires Inv(cfg, n) && NodesAlike(n, n')
    ensures NodesAlike(ReorgStep(cfg, n, l1), ReorgStep(cfg, n', l1))
  {
    var h := n.driven.heads;
    ChainNumbers(cfg, n.l1, n.chain, n.base, |n.chain| - 1);
    var s, s' := n.state.(currentEpochNum := 0, l1Info := map[], l1Hashes := map[]), n'.state.(currentEpochNum := 0, l1Info := map[], l1Hashes := map[]);
    forall k: nat | k <= s.safeHead.number ensures SameRef(s, s', k) {
      assert SameRef(n.state, n'.state, k);
    }
    HeadAlike(s, s', h.finalizedHead, h.finalizedEpoch);
  }

  lemma StepAlike(cfg: Config, n: Node, n': Node, e: Event)
    requires Inv(cfg, n) && NodesAlike(n, n') && Fair(cfg, n, e)
    ensures OutcomesAlike(Step(cfg, n, e), Step(cfg, n', e))
  {
    match e
    case NewBlock =>
      if n.nextL1 < |n.l1| {
        L1InfoAlike(cfg, n.state, n'.state, n.l1[n.nextL1]);
      }
    case L1Reorg(l1) => ReorgAlike(cfg, n, n', l1);
    case SyncState => HeadAlike(n.state, n'.state, n.driven.heads.safeHead, n.driven.heads.safeEpoch);
    case Pull(read, hash) => PullAlike(cfg, n, n', read, hash);
    case _ =>
  }

  lemma {:induction false} RunAlike(cfg: Config, n: Node, n': Node, events: seq<Event>)
    requires Inv(cfg, n) && NodesAlike(n, n') && FairRun(cfg, n, events)
    ensures OutcomesAlike(Run(cfg, n, events), Run(cfg, n', events))
    ensures Run(cfg, n, events).Some? ==> Inv(cfg, Run(cfg, n, events).value)
    decreases |events|
  {
    if events != [] {
      hide Inv, NodesAlike, Fair, Step;
      var init, e := events[..|events| - 1], events[|events| - 1];
      RunAlike(cfg, n, n', init);
      if Run(cfg, n, init).Some? {
        var now := Run(cfg, n, init).value;
        StepAlike(cfg, now, Run(cfg, n', init).value, e);
        if Step(cfg, now, e).Some? {
          StepKeeps(cfg, now, e);
        }
      }
    }
  }

  /**
   Take any state that a fair run reaches, and drop every cached L2 block above its safe head.
   Whatever fair events follow, reorgs included, the node goes on exactly as it does with
   them: it stops at the same event or comes to the same heads, chain, queue and requests.
   */
  lemma StaleEntriesNeverMatter(cfg: Config, n: Node, events: seq<Event>, more: seq<Event>)
    requires Init(cfg, n) && FairRun(cfg, n, events) && Run(cfg, n, events).Some?
    requires FairRun(cfg, Run(cfg, n, events).value, more)
    ensures var now := Run(cfg, n, events).value;
            OutcomesAlike(Run(cfg, now, more), Run(cfg, now.(state := Trimmed(now.state)), more))
  {
    hide Inv, Init, FairRun, Run;
    RunKeeps(cfg, n, events);
    var now := Run(cfg, n, events).value;
    TrimmedAlike(now.state);
    RunAlike(cfg, now, now.(state := Trimmed(now.state)), more);
  }
}
