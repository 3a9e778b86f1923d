/**
 When an attempt of the L1 watcher reports a block, and what the watcher remembers of those it
 has read (src/l1/chain_watcher.rs, try_ingest_block).
 */
module WatcherSteps {
  import opened Base
  import opened ConfigScan
  import opened ChainWatcher

  // --------------------------------------------------------------------- when there is a report

  /** L1 finality is asked for while the current block is above what is known to be final. */
  predicate FinalityFails(w: Watcher, a: Answers) { w.finalizedBlock < w.currentBlock && a.finalized.None? }

  /** The head is asked for once the current block is above the last head known. */
  predicate HeadFails(w: Watcher, a: Answers) { w.headBlock < w.currentBlock && a.head.None? }

  function KnownHead(w: Watcher, a: Answers): nat {
    if w.headBlock < w.currentBlock && a.head.Some? then a.head.value else w.headBlock
  }

  /** Every request up to that for the deposits of the current block is answered. */
  predicate DepositsAnswered(w: Watcher, a: Answers) {
    && (w.lastUpdateBlock < w.currentBlock ==> a.configLogs)
    && a.block.Some?
    && (w.currentBlock !in w.deposits ==> a.depositLogs)
  }

  /** Every request that reading the current block takes is answered. */
  predicate BlockAnswered(w: Watcher, a: Answers) { DepositsAnswered(w, a) && a.batcherTransactions }

  /** The attempt comes to read the deposits of the current block, whether or not the rest then fails. */
  predicate DepositsRead(w: Watcher, a: Answers) {
    && !FinalityFails(w, a) && !HeadFails(w, a)
    && w.currentBlock <= KnownHead(w, a)
    && DepositsAnswered(w, a)
  }

  /** The current block is read: nothing before it fails, it is not above the head, and its requests are answered. */
  predicate BlockRead(w: Watcher, a: Answers) {
    && !FinalityFails(w, a) && !HeadFails(w, a)
    && w.currentBlock <= KnownHead(w, a)
    && BlockAnswered(w, a)
  }

  /**
   From any state, an attempt sends the new finalized block exactly when it asks for one and is
   given a higher one. It reports the current block exactly when that is read, and then, and only
   then, moves to the next; a request that fails leaves all that comes after it for the next attempt.
   */
  lemma AttemptReportsIff(c: Chain, w: Watcher, a: Answers)
    ensures var (w', sent) := Ingested(c, w, a);
            && (forall k: nat :: FinalityUpdate(k) in sent <==>
                  w.finalizedBlock < w.currentBlock && a.finalized == Some(k) && w.finalizedBlock < k)
            && (BlockReports(sent) != [] <==> BlockRead(w, a))
            && w'.currentBlock == (if BlockRead(w, a) then w.currentBlock + 1 else w.currentBlock)
            && w'.headBlock == (if FinalityFails(w, a) then w.headBlock else KnownHead(w, a))
            && w'.finalizedBlock
               == (if w.finalizedBlock < w.currentBlock && a.finalized.Some? && w.finalizedBlock < a.finalized.value
                   then a.finalized.value else w.finalizedBlock)
  {
    hide BlockStep, HeadAndBlockStep, FinalityStep, Retained, BlockAnswered, BlockReports, HeadFails, KnownHead;
    FinalityAsked(w, a);
    if FinalityStep(w, a).Some? {
      var (w1, finality) := FinalityStep(w, a).value;
      var reports := HeadAndBlockStep(c, w1, a).1;
      HeadAndBlockReportsIff(c, w1, a);
      BlockReportsConcat(finality, reports);
      KeepsBlockPart(w, w1, a);
      forall k: nat ensures FinalityUpdate(k) in finality + reports <==> FinalityUpdate(k) in finality {
      }
    } else {
      NoReports();
    }
  }

  lemma FinalityAsked(w: Watcher, a: Answers)
    ensures FinalityStep(w, a).None? <==> FinalityFails(w, a)
    ensures FinalityStep(w, a).Some? ==>
              var (w1, sent) := FinalityStep(w, a).value;
              var rises := w.finalizedBlock < w.currentBlock && a.finalized.Some? && w.finalizedBlock < a.finalized.value;
              && sent == (if rises then [FinalityUpdate(a.finalized.value)] else []) && BlockReports(sent) == []
              && w1 == w.(finalizedBlock := w1.finalizedBlock, unfinalizedBlocks := w1.unfinalizedBlocks)
              && w1.finalizedBlock == (if rises then a.finalized.value else w.finalizedBlock)
  {
  }

  /** Finality does not bear on what reading the block takes. */
  lemma KeepsBlockPart(w: Watcher, w1: Watcher, a: Answers)
    requires w1 == w.(finalizedBlock := w1.finalizedBlock, unfinalizedBlocks := w1.unfinalizedBlocks)
    ensures HeadFails(w1, a) == HeadFails(w, a) && KnownHead(w1, a) == KnownHead(w, a)
    ensures BlockAnswered(w1, a) == BlockAnswered(w, a) && DepositsAnswered(w1, a) == DepositsAnswered(w, a)
  {
  }

  lemma HeadAndBlockReportsIff(c: Chain, w: Watcher, a: Answers)
    ensures var (w', reports) := HeadAndBlockStep(c, w, a);
            var isRead := !HeadFails(w, a) && w.currentBlock <= KnownHead(w, a) && BlockAnswered(w, a);
            && (reports != [] <==> isRead) && BlockReports(reports) == reports
            && (forall k: nat :: FinalityUpdate(k) !in reports)
            && w'.currentBlock == (if isRead then w.currentBlock + 1 else w.currentBlock)
            && w'.headBlock == KnownHead(w, a) && w'.finalizedBlock == w.finalizedBlock
  {
    hide BlockStep, BlockReports;
    NoReports();
    if HeadStep(w, a).Some? {
      BlockReportedIff(c, HeadStep(w, a).value, a);
      OneReport(BlockStep(c, HeadStep(w, a).value, a).1);
    }
  }

  lemma BlockReportedIff(c: Chain, w: Watcher, a: Answers)
    ensures var (w', report) := BlockStep(c, w, a);
            && (report.Some? <==> BlockAnswered(w, a))
            && (report.Some? ==> !report.value.FinalityUpdate?)
            && w'.currentBlock == (if BlockAnswered(w, a) then w.currentBlock + 1 else w.currentBlock)
            && w'.headBlock == w.headBlock && w'.finalizedBlock == w.finalizedBlock
  {
    hide ParseUpdate, ScanFrom, Apply;
  }

  // --------------------------------------------------------------------------- the deposit cache

  /**
   Reading the deposits of a block that are not cached caches those of the blocks after it, up to the
   head and at most 1000 ahead, so that none of these needs a query of its own; reading deposits
   that are cached just takes them out. Nothing else changes the cache.
   */
  lemma LookaheadServes(c: Chain, w: Watcher, a: Answers, k: nat)
    ensures k in Ingested(c, w, a).0.deposits <==>
            if DepositsRead(w, a) then
              || (k in w.deposits && k != w.currentBlock)
              || (w.currentBlock !in w.deposits && w.currentBlock < k <= KnownHead(w, a) && k <= w.currentBlock + 1000)
            else k in w.deposits
  {
    hide BlockStep, Retained, ParseUpdate, ScanFrom, Apply, DepositsAt;
    FinalityAsked(w, a);
    if FinalityStep(w, a).Some? {
      var w1 := FinalityStep(w, a).value.0;
      KeepsBlockPart(w, w1, a);
      if HeadStep(w1, a).Some? {
        BlockTakesDeposits(c, HeadStep(w1, a).value, a, k);
      }
    }
  }

  lemma BlockTakesDeposits(c: Chain, w: Watcher, a: Answers, k: nat)
    ensures k in BlockStep(c, w, a).0.deposits <==>
            if DepositsAnswered(w, a) then
              || (k in w.deposits && k != w.currentBlock)
              || (w.currentBlock !in w.deposits && w.currentBlock < k <= w.headBlock && k <= w.currentBlock + 1000)
            else k in w.deposits
  {
    hide ConfigUpdated, DepositsAt, DepositsTaken;
    UpdatedConfigOnly(c, w, a.tip);
    TakenDeposits(c, ConfigUpdated(c, w, a.tip), k);
  }

  lemma TakenDeposits(c: Chain, w: Watcher, k: nat)
    ensures k in DepositsTaken(c, w, w.currentBlock) <==>
            || (k in w.deposits && k != w.currentBlock)
            || (w.currentBlock !in w.deposits && w.currentBlock < k <= w.headBlock && k <= w.currentBlock + 1000)
  {
    var ahead := map j | w.currentBlock < j <= Min(w.headBlock, w.currentBlock + LOOKAHEAD) :: DepositsAt(c.depositLogs, j);
    assert LOOKAHEAD == 1000;
    assert k in ahead <==> w.currentBlock < k <= Min(w.headBlock, w.currentBlock + LOOKAHEAD);
  }

  // ------------------------------------------------------------------------ remembered blocks

  predicate FinalityRose(w: Watcher, a: Answers) {
    w.finalizedBlock < w.currentBlock && a.finalized.Some? && w.finalizedBlock < a.finalized.value
  }

  lemma {:induction false} RetainedExact(blocks: seq<BlockInfo>, finalized: nat)
    ensures forall b :: b in ChainWatcher.Retained(blocks, finalized) <==> b in blocks && b.number > finalized
    decreases |blocks|
  {
    if blocks != [] {
      var init, last := blocks[..|blocks| - 1], blocks[|blocks| - 1];
      RetainedExact(init, finalized);
      assert forall b :: b in blocks <==> b in init || b == last;
    }
  }

  /** The header that the providers give for the current block. */
  function HeaderRead(a: Answers): BlockInfo
    requires a.block.Some?
  {
    var (block, parentHash) := a.block.value;
    BlockInfo(block.hash, block.number, parentHash, block.timestamp)
  }

  /**
   What is remembered after an attempt: of what was, all, or what is above finality when that rose;
   and the block that was read, unless finality is above it already.
   */
  lemma RememberedAfter(c: Chain, w: Watcher, a: Answers, b: BlockInfo)
    ensures var w' := Ingested(c, w, a).0;
            b in w'.unfinalizedBlocks <==>
            || (b in w.unfinalizedBlocks && (FinalityRose(w, a) ==> b.number > a.finalized.value))
            || (BlockRead(w, a) && b == HeaderRead(a) && b.number >= w'.finalizedBlock)
  {
    hide BlockStep, Retained, BlockAnswered, HeadFails, KnownHead;
    FinalityAsked(w, a);
    if FinalityStep(w, a).Some? {
      var w1 := FinalityStep(w, a).value.0;
      KeepsBlockPart(w, w1, a);
      FinalityForgets(w, a, b);
      HeadAndBlockRemembers(c, w1, a, b);
    }
  }

  lemma FinalityForgets(w: Watcher, a: Answers, b: BlockInfo)
    requires FinalityStep(w, a).Some?
    ensures b in FinalityStep(w, a).value.0.unfinalizedBlocks <==>
            b in w.unfinalizedBlocks && (FinalityRose(w, a) ==> b.number > a.finalized.value)
  {
    if a.finalized.Some? {
      RetainedExact(w.unfinalizedBlocks, a.finalized.value);
    }
  }

  lemma HeadAndBlockRemembers(c: Chain, w: Watcher, a: Answers, b: BlockInfo)
    ensures var w' := HeadAndBlockStep(c, w, a).0;
            && w'.finalizedBlock == w.finalizedBlock
            && (b in w'.unfinalizedBlocks <==>
            || b in w.unfinalizedBlocks
            || (&& !HeadFails(w, a) && w.currentBlock <= KnownHead(w, a) && BlockAnswered(w, a)
                && b == HeaderRead(a) && b.number >= w.finalizedBlock))
  {
    hide BlockStep, BlockAnswered;
    if HeadStep(w, a).Some? {
      BlockRemembers(c, HeadStep(w, a).value, a, b);
      BlockReportedIff(c, HeadStep(w, a).value, a);
      KeepsAnswered(w, HeadStep(w, a).value, a);
    }
  }

  lemma KeepsAnswered(w: Watcher, w1: Watcher, a: Answers)
    requires w1 == w.(headBlock := w1.headBlock)
    ensures BlockAnswered(w1, a) == BlockAnswered(w, a)
  {
  }

  lemma BlockRemembers(c: Chain, w: Watcher, a: Answers, b: BlockInfo)
    ensures b in BlockStep(c, w, a).0.unfinalizedBlocks <==>
            || b in w.unfinalizedBlocks
            || (BlockAnswered(w, a) && b == HeaderRead(a) && b.number >= w.finalizedBlock)
  {
    hide ParseUpdate, ScanFrom, Apply, DepositsAt;
  }

  /** The headers of the blocks that a run has read, in the order in which it read them. */
  ghost function HeadersRead(c: Chain, answers: seq<Answers>): seq<BlockInfo> {
    if answers == [] then []
    else
      var init, a := answers[..|answers| - 1], answers[|answers| - 1];
      HeadersRead(c, init) + if BlockRead(ChainWatcher.Run(c, init).0, a) then [HeaderRead(a)] else []
  }

  /** Header k is that of block start + k, and the blocks remembered are headers that were read. */
  ghost predicate Remembers(c: Chain, w: Watcher, headers: seq<BlockInfo>) {
    && w.currentBlock == c.start + |headers|
    && (forall k :: 0 <= k < |headers| ==> headers[k].number == c.start + k)
    && (forall b :: b in w.unfinalizedBlocks ==> b in headers && b.number >= w.finalizedBlock)
    && (forall k :: 0 <= k < |headers| && headers[k].number > w.finalizedBlock ==> headers[k] in w.unfinalizedBlocks)
  }

  lemma AttemptRemembers(c: Chain, w: Watcher, a: Answers, headers: seq<BlockInfo>)
    requires Remembers(c, w, headers) && Consistent(w, a)
    ensures Remembers(c, Ingested(c, w, a).0, headers + if BlockRead(w, a) then [HeaderRead(a)] else [])
  {
    hide Ingested, KnownHead, HeadFails, FinalityFails;
    var w' := Ingested(c, w, a).0;
    AttemptReportsIff(c, w, a);
    var more := if BlockRead(w, a) then [HeaderRead(a)] else [];
    var all := headers + more;
    forall b ensures b in w'.unfinalizedBlocks ==> b in all && b.number >= w'.finalizedBlock {
      RememberedAfter(c, w, a, b);
    }
    forall k | 0 <= k < |all| && all[k].number > w'.finalizedBlock ensures all[k] in w'.unfinalizedBlocks {
      RememberedAfter(c, w, a, all[k]);
      assert k < |headers| ==> all[k] == headers[k];
    }
  }

  /**
   After any run the watcher remembers every block it has read that is above the finalized block,
   and none that it has not read or that is below it.
   */
  lemma {:induction false} RunRemembers(c: Chain, answers: seq<Answers>)
    requires ConsistentRun(c, answers)
    ensures Remembers(c, ChainWatcher.Run(c, answers).0, HeadersRead(c, answers))
    decreases |answers|
  {
    hide Ingested, BlockRead, Consistent;
    if answers != [] {
      var init, a := answers[..|answers| - 1], answers[|answers| - 1];
      RunRemembers(c, init);
      AttemptRemembers(c, ChainWatcher.Run(c, init).0, a, HeadersRead(c, init));
    }
  }

  /** The watcher with which the block is read is the one after finality and the head have been asked for. */
  lemma ReadsFrom(c: Chain, w: Watcher, a: Answers)
    requires BlockRead(w, a)
    ensures BeforeBlock(w, a).Some?
    ensures var w2 := BeforeBlock(w, a).value;
            && BlockStep(c, w2, a).1.Some?
            && w2.currentBlock == w.currentBlock
            && w2.finalizedBlock == Ingested(c, w, a).0.finalizedBlock
            && forall b :: b in w2.unfinalizedBlocks <==>
                 b in w.unfinalizedBlocks && (FinalityRose(w, a) ==> b.number > a.finalized.value)
  {
    hide Ingested, BlockStep, Retained;
    AttemptReportsIff(c, w, a);
    FinalityAsked(w, a);
    var w1 := FinalityStep(w, a).value.0;
    KeepsBlockPart(w, w1, a);
    KeepsAnswered(w1, HeadStep(w1, a).value, a);
    BlockReportedIff(c, HeadStep(w1, a).value, a);
    forall b ensures b in w1.unfinalizedBlocks <==>
                       b in w.unfinalizedBlocks && (FinalityRose(w, a) ==> b.number > a.finalized.value) {
      FinalityForgets(w, a, b);
    }
  }

  /**
   After any run, a block that is read is compared with the last that was: above finality, a reorg is
   reported exactly when its parent hash is not that block's hash. The first block read and blocks
   below finality are never taken for a reorg.
   */
  lemma ReorgAgainstLastRead(c: Chain, answers: seq<Answers>, a: Answers)
    requires ConsistentRun(c, answers)
    requires Consistent(ChainWatcher.Run(c, answers).0, a) && BlockRead(ChainWatcher.Run(c, answers).0, a)
    ensures var w, headers := ChainWatcher.Run(c, answers).0, HeadersRead(c, answers);
            var (w', sent) := Ingested(c, w, a);
            && (headers != [] && headers[|headers| - 1].number > w'.finalizedBlock ==>
                  (Reorg in sent <==> headers[|headers| - 1].hash != a.block.value.1))
            && (headers == [] || w.currentBlock < w'.finalizedBlock ==> Reorg !in sent)
  {
    hide ChainWatcher.Run, Ingested, BlockStep, BeforeBlock, BlockRead, Consistent, FinalityRose;
    var w, headers := ChainWatcher.Run(c, answers).0, HeadersRead(c, answers);
    RunRemembers(c, answers);
    RunReorgIff(c, answers, a);
    ReadsFrom(c, w, a);
    var w2 := BeforeBlock(w, a).value;
    BlockIsRead(c, w2, a);
    forall b | b in w2.unfinalizedBlocks && b.number + 1 == w2.currentBlock ensures b == headers[|headers| - 1] {
      var k :| 0 <= k < |headers| && headers[k] == b;
      assert headers[k].number == c.start + k;
    }
    if headers != [] && headers[|headers| - 1].number > w2.finalizedBlock {
      LastIsKept(c, w, a, w2, headers);
    }
  }

  /** The last header read, above finality before and after it is asked for, is still remembered. */
  lemma LastIsKept(c: Chain, w: Watcher, a: Answers, w2: Watcher, headers: seq<BlockInfo>)
    requires Remembers(c, w, headers) && headers != [] && headers[|headers| - 1].number > w2.finalizedBlock
    requires w2.finalizedBlock == Ingested(c, w, a).0.finalizedBlock
    requires forall b :: b in w2.unfinalizedBlocks <==>
               b in w.unfinalizedBlocks && (FinalityRose(w, a) ==> b.number > a.finalized.value)
    ensures headers[|headers| - 1] in w2.unfinalizedBlocks
  {
    hide Ingested;
    AttemptReportsIff(c, w, a);
  }
}
