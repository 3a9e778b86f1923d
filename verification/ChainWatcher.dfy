/**
 The L1 watcher (src/l1/chain_watcher.rs): it reads deposits and configuration updates up to
 1000 blocks ahead, retries blocks that fail, and reports reorgs. What it reports is compared
 with reading L1 one block at a time.
 */
module ChainWatcher {
  import opened Base
  import opened Types
  import opened ConfigScan

  /** The logs of L1 in the order of the chain, and where the watcher starts on it. */
  datatype Chain = Chain(configLogs: seq<ConfigLog>, depositLogs: seq<UserDeposited>, initial: SystemConfig, start: nat)

  datatype BlockUpdate = NewBlock(info: L1Info) | FinalityUpdate(number: nat) | Reorg

  /** The watcher's fields. */
  datatype Watcher = Watcher(
    currentBlock: nat,
    headBlock: nat,
    finalizedBlock: nat,
    unfinalizedBlocks: seq<BlockInfo>,
    deposits: map<nat, seq<UserDeposited>>,
    systemConfig: SystemConfig,
    lastUpdateBlock: nat,
    nextConfig: Option<SystemConfig>)

  /** What the providers answer while a block is ingested; None or false where a request fails. */
  datatype Answers = Answers(
    finalized: Option<nat>,
    head: Option<nat>,
    tip: nat,
    configLogs: bool,
    block: Option<(L1BlockInfo, Hash)>,
    depositLogs: bool,
    batcherTransactions: bool)

  function Initial(c: Chain): Watcher { Watcher(c.start, 0, 0, [], map[], c.initial, c.start, None) }

  ghost function SystemConfigAt(c: Chain, n: nat): SystemConfig { ConfigAt(c.configLogs, c.initial, c.start, n) }

  // ---------------------------------------------------------------------------- deposits

  /** The deposits of L1 block n in log order. */
  function DepositsAt(logs: seq<UserDeposited>, n: nat): seq<UserDeposited> {
    if logs == [] then []
    else DepositsAt(logs[..|logs| - 1], n) + if logs[|logs| - 1].l1BlockNum == n then [logs[|logs| - 1]] else []
  }

  function DepositLogs(logs: seq<UserDeposited>, from: nat, to: nat, tip: nat): seq<UserDeposited> {
    if logs == [] then []
    else
      var n := logs[|logs| - 1].l1BlockNum;
      DepositLogs(logs[..|logs| - 1], from, to, tip) + if from <= n <= to && n <= tip then [logs[|logs| - 1]] else []
  }

  /** A log query loses no deposit of a block that is in its range and mined. */
  lemma {:induction false} QueryKeepsBlock(logs: seq<UserDeposited>, from: nat, to: nat, tip: nat, n: nat)
    requires from <= n <= to && n <= tip
    ensures DepositsAt(DepositLogs(logs, from, to, tip), n) == DepositsAt(logs, n)
    decreases |logs|
  {
    if logs != [] {
      QueryKeepsBlock(logs[..|logs| - 1], from, to, tip, n);
      var found := DepositLogs(logs, from, to, tip);
      var m := logs[|logs| - 1].l1BlockNum;
      if from <= m <= to && m <= tip {
        assert found[..|found| - 1] == DepositLogs(logs[..|logs| - 1], from, to, tip);
      } else {
        assert found == DepositLogs(logs[..|logs| - 1], from, to, tip);
      }
    }
  }

  function Min(a: nat, b: nat): nat { if a <= b then a else b }

  /** The cache after the deposits of block n were taken from it. */
  ghost function DepositsTaken(c: Chain, w: Watcher, n: nat): map<nat, seq<UserDeposited>> {
    if n in w.deposits then w.deposits - {n}
    else w.deposits + map k | n < k <= Min(w.headBlock, n + LOOKAHEAD) :: DepositsAt(c.depositLogs, k)
  }

  /** The cache holds the right deposits, of at most 1001 blocks that are still to be ingested. */
  ghost predicate DepositsCached(c: Chain, deposits: map<nat, seq<UserDeposited>>, currentBlock: nat) {
    forall k :: k in deposits ==>
      currentBlock <= k <= currentBlock + LOOKAHEAD && deposits[k] == DepositsAt(c.depositLogs, k)
  }

  lemma TakenKeepsCache(c: Chain, w: Watcher)
    requires DepositsCached(c, w.deposits, w.currentBlock)
    ensures DepositsCached(c, DepositsTaken(c, w, w.currentBlock), w.currentBlock)
    ensures DepositsCached(c, DepositsTaken(c, w, w.currentBlock), w.currentBlock + 1)
  {
  }

  // ---------------------------------------------------------------------- configuration

  function ConfigScanned(c: Chain, w: Watcher, tip: nat): Watcher {
    match ScanFrom(c.configLogs, w.lastUpdateBlock, tip)
    case Some(log) =>
      if ParseUpdate(log).Some?
      then w.(lastUpdateBlock := log.block, nextConfig := Some(Apply(ParseUpdate(log).value, w.systemConfig)))
      else w
    case None => w.(lastUpdateBlock := w.lastUpdateBlock + LOOKAHEAD, nextConfig := None)
  }

  function ConfigUpdated(c: Chain, w: Watcher, tip: nat): Watcher {
    var w := if w.lastUpdateBlock < w.currentBlock then ConfigScanned(c, w, tip) else w;
    if w.lastUpdateBlock == w.currentBlock && w.nextConfig.Some? then w.(systemConfig := w.nextConfig.value) else w
  }

  /** The configuration of block n was the same from block lo up to block hi. */
  ghost predicate Constant(c: Chain, config: SystemConfig, lo: nat, hi: nat) {
    forall m :: c.start <= m && lo <= m <= hi ==> SystemConfigAt(c, m) == config
  }

  /**
   The watcher has applied every update before the current block, and knows the next one:
   none up to the block it has scanned, or the one of that block.
   */
  ghost predicate ConfigKnown(c: Chain, w: Watcher) {
    && c.start <= w.currentBlock <= w.lastUpdateBlock + 1 && c.start <= w.lastUpdateBlock
    && match w.nextConfig
       case None => Constant(c, w.systemConfig, SubSaturate(w.currentBlock, 1), w.lastUpdateBlock)
       case Some(config) =>
         && config == SystemConfigAt(c, w.lastUpdateBlock)
         && if w.lastUpdateBlock < w.currentBlock then w.systemConfig == config
            else || (w.lastUpdateBlock == w.currentBlock && w.systemConfig == config)
                 || (0 < w.lastUpdateBlock && Constant(c, w.systemConfig, SubSaturate(w.currentBlock, 1), w.lastUpdateBlock - 1)
                     && c.start < w.lastUpdateBlock)
  }

  /** A scan from the given block does not miss the next update. */
  ghost predicate ScanSees(c: Chain, last: nat, tip: nat) {
    ScanFrom(c.configLogs, last, tip).Some? || NoUpdate(c.configLogs, last, last + LOOKAHEAD)
  }

  ghost predicate ValidChain(c: Chain) { Sorted(c.configLogs) && OnePerBlock(c.configLogs) }

  lemma ScanKnows(c: Chain, w: Watcher, tip: nat)
    requires ValidChain(c) && ConfigKnown(c, w) && w.lastUpdateBlock < w.currentBlock && ScanSees(c, w.lastUpdateBlock, tip)
    ensures ConfigKnown(c, ConfigScanned(c, w, tip))
    ensures w.currentBlock <= ConfigScanned(c, w, tip).lastUpdateBlock
  {
    var last := w.lastUpdateBlock;
    assert w.systemConfig == SystemConfigAt(c, last);
    match ScanFrom(c.configLogs, last, tip)
    case Some(log) =>
      SoundScan(c.configLogs, c.initial, c.start, last, tip, log);
    case None =>
      forall m | last <= m <= last + LOOKAHEAD ensures SystemConfigAt(c, m) == w.systemConfig {
        EmptyRange(c.configLogs, c.initial, c.start, last, last + LOOKAHEAD, m);
      }
  }

  /** Where the current block has been scanned, its update is applied or there is none. */
  lemma ScannedIsRight(c: Chain, w: Watcher)
    requires ConfigKnown(c, w) && w.currentBlock <= w.lastUpdateBlock
    ensures var w' := if w.lastUpdateBlock == w.currentBlock && w.nextConfig.Some? then w.(systemConfig := w.nextConfig.value) else w;
            && ConfigKnown(c, w')
            && w'.systemConfig == SystemConfigAt(c, w.currentBlock)
            && ConfigKnown(c, w'.(currentBlock := w.currentBlock + 1))
  {
  }

  /**
   Once the configuration has been updated for the current block it is that of a reading of
   every block up to this one.
   */
  lemma UpdateIsRight(c: Chain, w: Watcher, tip: nat)
    requires ValidChain(c) && ConfigKnown(c, w)
    requires w.lastUpdateBlock < w.currentBlock ==> ScanSees(c, w.lastUpdateBlock, tip)
    ensures var w' := ConfigUpdated(c, w, tip);
            && ConfigKnown(c, w')
            && w'.systemConfig == SystemConfigAt(c, w.currentBlock)
            && w.currentBlock <= w'.lastUpdateBlock
            && ConfigKnown(c, w'.(currentBlock := w.currentBlock + 1))
  {
    if w.lastUpdateBlock < w.currentBlock {
      ScanKnows(c, w, tip);
      ScannedIsRight(c, ConfigScanned(c, w, tip));
    } else {
      ScannedIsRight(c, w);
    }
  }

  /** Updating the configuration again, when an attempt is repeated, changes nothing. */
  lemma UpdateAgain(c: Chain, w: Watcher, tip: nat, tip': nat)
    requires w.currentBlock <= w.lastUpdateBlock + 1
    ensures ConfigUpdated(c, ConfigUpdated(c, w, tip), tip') == ConfigUpdated(c, w, tip)
  {
    if w.lastUpdateBlock < w.currentBlock && ScanFrom(c.configLogs, w.lastUpdateBlock, tip).Some? {
      SeenIsAhead(c.configLogs, w.lastUpdateBlock, tip);
    }
  }

  // ---------------------------------------------------------------------------- ingestion

  function Retained(blocks: seq<BlockInfo>, finalized: nat): seq<BlockInfo> {
    if blocks == [] then []
    else Retained(blocks[..|blocks| - 1], finalized)
         + if blocks[|blocks| - 1].number > finalized then [blocks[|blocks| - 1]] else []
  }

  predicate CheckReorg(blocks: seq<BlockInfo>) {
    |blocks| >= 2 && blocks[|blocks| - 1].parentHash != blocks[|blocks| - 2].hash
  }

  /** A new finalized block is reported, and the blocks below it are forgotten. */
  function Finalized(w: Watcher, number: nat): Watcher {
    w.(finalizedBlock := number, unfinalizedBlocks := Retained(w.unfinalizedBlocks, number))
  }

  function HeaderOf(block: (L1BlockInfo, Hash)): BlockInfo {
    BlockInfo(block.0.hash, block.0.number, block.1, block.0.timestamp)
  }

  function WithBlock(w: Watcher, block: (L1BlockInfo, Hash)): Watcher {
    if block.0.number >= w.finalizedBlock
    then w.(unfinalizedBlocks := w.unfinalizedBlocks + [HeaderOf(block)]) else w
  }

  /** The part of an attempt that concerns finality, with what it reports. */
  function FinalityStep(w: Watcher, a: Answers): Option<(Watcher, seq<BlockUpdate>)> {
    if w.currentBlock <= w.finalizedBlock then Some((w, []))
    else
      var number :- a.finalized;
      if w.finalizedBlock < number then Some((Finalized(w, number), [FinalityUpdate(number)])) else Some((w, []))
  }

  function HeadStep(w: Watcher, a: Answers): Option<Watcher> {
    if w.currentBlock <= w.headBlock then Some(w)
    else
      var head :- a.head;
      Some(w.(headBlock := head))
  }

  /** The current block is remembered and reported, and the watcher moves to the next. */
  ghost function Reported(c: Chain, w: Watcher, block: (L1BlockInfo, Hash)): (Watcher, BlockUpdate) {
    var w1 := WithBlock(w, block);
    var report :=
      if CheckReorg(w1.unfinalizedBlocks) then Reorg
      else NewBlock(L1Info(block.0, w.systemConfig, DepositsAt(c.depositLogs, w.currentBlock)));
    (w1.(currentBlock := w.currentBlock + 1), report)
  }

  ghost function WithDepositsTaken(c: Chain, w: Watcher): Watcher {
    w.(deposits := DepositsTaken(c, w, w.currentBlock))
  }

  /** The part of an attempt that reads the current block: the watcher, and the report if it succeeds. */
  ghost function BlockStep(c: Chain, w: Watcher, a: Answers): (Watcher, Option<BlockUpdate>) {
    if w.lastUpdateBlock < w.currentBlock && !a.configLogs then (w, None)
    else
      var w1 := ConfigUpdated(c, w, a.tip);
      if a.block.None? || (w1.currentBlock !in w1.deposits && !a.depositLogs) then (w1, None)
      else
        var w2 := WithDepositsTaken(c, w1);
        if !a.batcherTransactions then (w2, None)
        else
          var (w3, report) := Reported(c, w2, a.block.value);
          (w3, Some(report))
  }

  function OptionToSeq<T>(o: Option<T>): seq<T> { if o.Some? then [o.value] else [] }

  /** The part of an attempt that concerns blocks. */
  ghost function HeadAndBlockStep(c: Chain, w: Watcher, a: Answers): (Watcher, seq<BlockUpdate>) {
    match HeadStep(w, a)
    case None => (w, [])
    case Some(w1) =>
      if w1.headBlock < w1.currentBlock then (w1, [])
      else
        var (w2, report) := BlockStep(c, w1, a);
        (w2, OptionToSeq(report))
  }

  /** One attempt to ingest the current block. */
  ghost function Ingested(c: Chain, w: Watcher, a: Answers): (Watcher, seq<BlockUpdate>) {
    match FinalityStep(w, a)
    case None => (w, [])
    case Some((w1, finality)) =>
      var (w2, reports) := HeadAndBlockStep(c, w1, a);
      (w2, finality + reports)
  }

  /** No request that the attempt makes fails. */
  ghost predicate Succeeds(c: Chain, w: Watcher, a: Answers) {
    && FinalityStep(w, a).Some?
    && var w1 := FinalityStep(w, a).value.0;
    && HeadStep(w1, a).Some?
    && var w2 := HeadStep(w1, a).value;
    w2.currentBlock <= w2.headBlock ==> BlockStep(c, w2, a).1.Some?
  }

  /** The provider is consistent: its tip is not behind a head it gave, and it gives the block asked for. */
  ghost predicate Consistent(w: Watcher, a: Answers) {
    && w.headBlock <= a.tip && (a.head.Some? ==> a.head.value <= a.tip)
    && (a.block.Some? ==> a.block.value.0.number == w.currentBlock)
  }

  /** The scan for updates, if this attempt makes one, does not miss the next. */
  ghost predicate Sees(c: Chain, w: Watcher, a: Answers) {
    w.lastUpdateBlock < w.currentBlock ==> ScanSees(c, w.lastUpdateBlock, a.tip)
  }

  // ---------------------------------------------------------------------------- invariant

  /** The blocks have consecutive numbers, the last of them just below next. */
  ghost predicate Consecutive(blocks: seq<BlockInfo>, next: nat)
    decreases |blocks|
  {
    blocks == [] || (blocks[|blocks| - 1].number + 1 == next && Consecutive(blocks[..|blocks| - 1], next - 1))
  }

  ghost predicate Inv(c: Chain, w: Watcher) {
    && ConfigKnown(c, w)
    && DepositsCached(c, w.deposits, w.currentBlock)
    && Consecutive(w.unfinalizedBlocks, w.currentBlock)
    && (w.unfinalizedBlocks != [] ==> w.finalizedBlock <= w.currentBlock)
  }

  lemma InitialInv(c: Chain)
    ensures Inv(c, Initial(c))
  {
    InitialConfig(c.configLogs, c.initial, c.start, c.start);
    if c.start > 0 {
      InitialConfig(c.configLogs, c.initial, c.start, c.start - 1);
    }
  }

  lemma {:induction false} InitialConfig(logs: seq<ConfigLog>, initial: SystemConfig, start: nat, n: nat)
    requires n <= start
    ensures ConfigAt(logs, initial, start, n) == initial
    decreases |logs|
  {
    if logs != [] {
      InitialConfig(logs[..|logs| - 1], initial, start, n);
    }
  }

  lemma {:induction false} RetainedConsecutive(blocks: seq<BlockInfo>, next: nat, finalized: nat)
    requires Consecutive(blocks, next)
    ensures Consecutive(Retained(blocks, finalized), next)
    ensures next <= finalized + 1 ==> Retained(blocks, finalized) == []
    decreases |blocks|
  {
    if blocks != [] {
      var kept := Retained(blocks, finalized);
      RetainedConsecutive(blocks[..|blocks| - 1], next - 1, finalized);
      if blocks[|blocks| - 1].number > finalized {
        assert kept[..|kept| - 1] == Retained(blocks[..|blocks| - 1], finalized);
      }
    }
  }

  /** The configuration of the current block is known, and no cached deposits are of this block. */
  ghost predicate ReadyToReport(c: Chain, w: Watcher) {
    && ConfigKnown(c, w.(currentBlock := w.currentBlock + 1))
    && w.systemConfig == SystemConfigAt(c, w.currentBlock)
    && DepositsCached(c, w.deposits, w.currentBlock + 1)
  }

  lemma UpdateKeeps(c: Chain, w: Watcher, tip: nat)
    requires ValidChain(c) && Inv(c, w)
    requires w.lastUpdateBlock < w.currentBlock ==> ScanSees(c, w.lastUpdateBlock, tip)
    ensures var w' := ConfigUpdated(c, w, tip);
            && Inv(c, w') && w' == w.(systemConfig := w'.systemConfig, lastUpdateBlock := w'.lastUpdateBlock, nextConfig := w'.nextConfig)
            && w'.systemConfig == SystemConfigAt(c, w.currentBlock)
            && ConfigKnown(c, w'.(currentBlock := w.currentBlock + 1))
  {
    UpdateIsRight(c, w, tip);
  }

  lemma DepositsKeep(c: Chain, w: Watcher)
    requires Inv(c, w)
    requires ConfigKnown(c, w.(currentBlock := w.currentBlock + 1)) && w.systemConfig == SystemConfigAt(c, w.currentBlock)
    ensures Inv(c, WithDepositsTaken(c, w)) && ReadyToReport(c, WithDepositsTaken(c, w))
  {
    TakenKeepsCache(c, w);
  }

  lemma ReportKeeps(c: Chain, w: Watcher, block: (L1BlockInfo, Hash))
    requires Inv(c, w) && ReadyToReport(c, w) && block.0.number == w.currentBlock
    ensures Inv(c, Reported(c, w, block).0) && Right(c, w.currentBlock, Reported(c, w, block).1)
  {
    var blocks := w.unfinalizedBlocks + [HeaderOf(block)];
    assert blocks[..|blocks| - 1] == w.unfinalizedBlocks;
  }

  /** The reports are at most one, it is right, and with it the watcher moves to the next block. */
  ghost predicate StepRight(c: Chain, w: Watcher, w': Watcher, reports: seq<BlockUpdate>) {
    && Inv(c, w')
    && w'.currentBlock == w.currentBlock + |reports| && |reports| <= 1
    && (reports != [] ==> Right(c, w.currentBlock, reports[0]))
  }

  lemma BlockStepKeeps(c: Chain, w: Watcher, a: Answers)
    requires ValidChain(c) && Inv(c, w) && Consistent(w, a) && Sees(c, w, a)
    ensures var (w', report) := BlockStep(c, w, a);
            && StepRight(c, w, w', OptionToSeq(report))
            && (report.Some? ==> !report.value.FinalityUpdate?)
  {
    if w.currentBlock <= w.lastUpdateBlock || a.configLogs {
      UpdateKeeps(c, w, a.tip);
      var w1 := ConfigUpdated(c, w, a.tip);
      DepositsKeep(c, w1);
      if a.block.Some? {
        ReportKeeps(c, WithDepositsTaken(c, w1), a.block.value);
      }
    }
  }

  lemma FinalityKeeps(c: Chain, w: Watcher, a: Answers)
    requires Inv(c, w) && FinalityStep(w, a).Some?
    ensures var (w', sent) := FinalityStep(w, a).value;
            && Inv(c, w') && w' == w.(finalizedBlock := w'.finalizedBlock, unfinalizedBlocks := w'.unfinalizedBlocks)
            && BlockReports(sent) == []
  {
    if a.finalized.Some? {
      RetainedConsecutive(w.unfinalizedBlocks, w.currentBlock, a.finalized.value);
    }
  }

  lemma HeadKeeps(c: Chain, w: Watcher, a: Answers)
    requires Inv(c, w) && Consistent(w, a) && Sees(c, w, a) && HeadStep(w, a).Some?
    ensures var w' := HeadStep(w, a).value;
            && Inv(c, w') && Consistent(w', a) && Sees(c, w', a)
            && w'.currentBlock == w.currentBlock
  {
  }

  lemma HeadAndBlockKeeps(c: Chain, w: Watcher, a: Answers)
    requires ValidChain(c) && Inv(c, w) && Consistent(w, a) && Sees(c, w, a)
    ensures var (w', reports) := HeadAndBlockStep(c, w, a);
            StepRight(c, w, w', reports) && BlockReports(reports) == reports
  {
    match HeadStep(w, a)
    case None =>
    case Some(w1) =>
      HeadKeeps(c, w, a);
      if w1.currentBlock <= w1.headBlock {
        BlockStepKeeps(c, w1, a);
        OneReport(BlockStep(c, w1, a).1);
        SameStart(c, w, w1, BlockStep(c, w1, a).0, OptionToSeq(BlockStep(c, w1, a).1));
      }
  }

  /** What a step reports depends on where it starts only through the block number. */
  lemma SameStart(c: Chain, w: Watcher, w1: Watcher, w': Watcher, reports: seq<BlockUpdate>)
    requires StepRight(c, w1, w', reports) && w1.currentBlock == w.currentBlock
    ensures StepRight(c, w, w', reports)
  {
  }

  lemma OneReport(report: Option<BlockUpdate>)
    requires report.Some? ==> !report.value.FinalityUpdate?
    ensures BlockReports(OptionToSeq(report)) == OptionToSeq(report)
  {
    if report.Some? {
      assert [report.value][..0] == [];
    }
  }

  /** An attempt keeps the invariant, and reports on the current block and moves to the next, or does neither. */
  lemma IngestKeeps(c: Chain, w: Watcher, a: Answers)
    requires ValidChain(c) && Inv(c, w) && Consistent(w, a) && Sees(c, w, a)
    ensures StepRight(c, w, Ingested(c, w, a).0, BlockReports(Ingested(c, w, a).1))
  {
    if FinalityStep(w, a).Some? {
      FinalityKeeps(c, w, a);
      var (w1, finality) := FinalityStep(w, a).value;
      HeadAndBlockKeeps(c, w1, a);
      BlockReportsConcat(finality, HeadAndBlockStep(c, w1, a).1);
    }
  }

  // ---------------------------------------------------------------------------- results

  /** What a reading of L1 one block at a time gives for block n with the given header. */
  ghost function Reading(c: Chain, n: nat, header: L1BlockInfo): L1Info {
    L1Info(header, SystemConfigAt(c, n), DepositsAt(c.depositLogs, n))
  }

  /** The report about block n is right. */
  ghost predicate Right(c: Chain, n: nat, report: BlockUpdate) {
    report.NewBlock? ==> report.info.blockInfo.number == n && report.info == Reading(c, n, report.info.blockInfo)
  }

  /** The reports about blocks, without those about finality. */
  function BlockReports(sent: seq<BlockUpdate>): seq<BlockUpdate> {
    if sent == [] then []
    else BlockReports(sent[..|sent| - 1]) + if sent[|sent| - 1].FinalityUpdate? then [] else [sent[|sent| - 1]]
  }

  /** The watcher after some attempts, and all it has reported. */
  ghost function Run(c: Chain, answers: seq<Answers>): (Watcher, seq<BlockUpdate>) {
    if answers == [] then (Initial(c), [])
    else
      var (w, sent) := Run(c, answers[..|answers| - 1]);
      var (w', more) := Ingested(c, w, answers[|answers| - 1]);
      (w', sent + more)
  }

  ghost predicate ConsistentRun(c: Chain, answers: seq<Answers>)
    decreases |answers|
  {
    answers == [] ||
    var init, a := answers[..|answers| - 1], answers[|answers| - 1];
    ConsistentRun(c, init) && Consistent(Run(c, init).0, a)
  }

  /** No scan of the run misses the next update. */
  ghost predicate SeeingRun(c: Chain, answers: seq<Answers>)
    decreases |answers|
  {
    answers == [] ||
    var init, a := answers[..|answers| - 1], answers[|answers| - 1];
    SeeingRun(c, init) && Sees(c, Run(c, init).0, a)
  }

  lemma {:induction false} BlockReportsConcat(a: seq<BlockUpdate>, b: seq<BlockUpdate>)
    ensures BlockReports(a + b) == BlockReports(a) + BlockReports(b)
    decreases |b|
  {
    if b == [] {
      assert a + b == a;
    } else {
      BlockReportsConcat(a, b[..|b| - 1]);
      assert (a + b)[..|a + b| - 1] == a + b[..|b| - 1];
    }
  }

  /** Report k is right about block start + k, and the next block is the current one. */
  ghost predicate AllRight(c: Chain, w: Watcher, reports: seq<BlockUpdate>) {
    && w.currentBlock == c.start + |reports|
    && forall k :: 0 <= k < |reports| ==> Right(c, c.start + k, reports[k])
  }

  lemma AllRightExtends(c: Chain, w: Watcher, w': Watcher, reports: seq<BlockUpdate>, more: seq<BlockUpdate>)
    requires AllRight(c, w, reports) && StepRight(c, w, w', more)
    ensures AllRight(c, w', reports + more)
  {
  }

  /**
   Over every run, however many attempts fail and are repeated: report k is about the k-th
   block from the start block, and what it says is what a block by block reading gives, its
   configuration the fold of all updates after the start block and its deposits those of the
   block's own logs in order.
   */
  lemma {:induction false} ReportsAreReadings(c: Chain, answers: seq<Answers>)
    requires ValidChain(c) && ConsistentRun(c, answers) && SeeingRun(c, answers)
    ensures var (w, sent) := Run(c, answers);
            Inv(c, w) && AllRight(c, w, BlockReports(sent))
    decreases |answers|
  {
    if answers == [] {
      InitialInv(c);
    } else {
      var init, a := answers[..|answers| - 1], answers[|answers| - 1];
      ReportsAreReadings(c, init);
      var (w, sent) := Run(c, init);
      IngestKeeps(c, w, a);
      var (w', more) := Ingested(c, w, a);
      BlockReportsConcat(sent, more);
      AllRightExtends(c, w, w', BlockReports(sent), BlockReports(more));
    }
  }

  /**
   Over every run, whatever scans for updates miss, the deposit cache holds what the blocks'
   own logs hold, only for blocks still to come, and for at most 1001 of them.
   */
  lemma {:induction false} CacheAlwaysRight(c: Chain, answers: seq<Answers>)
    ensures DepositsCached(c, Run(c, answers).0.deposits, Run(c, answers).0.currentBlock)
    decreases |answers|
  {
    if answers != [] {
      var init, a := answers[..|answers| - 1], answers[|answers| - 1];
      CacheAlwaysRight(c, init);
      var w := Run(c, init).0;
      if FinalityStep(w, a).Some? {
        var w1 := FinalityStep(w, a).value.0;
        if HeadStep(w1, a).Some? {
          BlockStepKeepsCache(c, HeadStep(w1, a).value, a);
        }
      }
    }
  }

  lemma BlockStepKeepsCache(c: Chain, w: Watcher, a: Answers)
    requires DepositsCached(c, w.deposits, w.currentBlock)
    ensures var w' := BlockStep(c, w, a).0; DepositsCached(c, w'.deposits, w'.currentBlock)
  {
    TakenKeepsCache(c, ConfigUpdated(c, w, a.tip));
  }

  /** The finality reports are strictly rising and end at or below the given number. */
  ghost predicate FinalityRises(sent: seq<BlockUpdate>, number: nat)
    decreases |sent|
  {
    sent == [] ||
    match sent[|sent| - 1]
    case FinalityUpdate(last) => 0 < last <= number && FinalityRises(sent[..|sent| - 1], last - 1)
    case _ => FinalityRises(sent[..|sent| - 1], number)
  }

  lemma {:induction false} FinalityRisesTo(sent: seq<BlockUpdate>, number: nat, higher: nat)
    requires FinalityRises(sent, number) && number <= higher
    ensures FinalityRises(sent, higher)
    decreases |sent|
  {
    if sent != [] && !sent[|sent| - 1].FinalityUpdate? {
      FinalityRisesTo(sent[..|sent| - 1], number, higher);
    }
  }

  lemma AppendReport(sent: seq<BlockUpdate>, report: BlockUpdate, before: nat, number: nat)
    requires FinalityRises(sent, before) && before <= number
    requires report.FinalityUpdate? ==> before < report.number == number
    ensures FinalityRises(sent + [report], number)
  {
    assert (sent + [report])[..|sent|] == sent;
    if report.FinalityUpdate? {
      FinalityRisesTo(sent, before, number - 1);
    } else {
      FinalityRisesTo(sent, before, number);
    }
  }

  lemma FinalityAppends(w: Watcher, a: Answers, sent: seq<BlockUpdate>)
    requires FinalityStep(w, a).Some? && FinalityRises(sent, w.finalizedBlock)
    ensures var (w1, finality) := FinalityStep(w, a).value; FinalityRises(sent + finality, w1.finalizedBlock)
  {
    var (w1, finality) := FinalityStep(w, a).value;
    if finality == [] {
      assert sent + finality == sent;
    } else {
      AppendReport(sent, finality[0], w.finalizedBlock, w1.finalizedBlock);
    }
  }

  lemma BlockAppends(c: Chain, w: Watcher, a: Answers, sent: seq<BlockUpdate>)
    requires FinalityRises(sent, w.finalizedBlock)
    ensures var (w1, reports) := HeadAndBlockStep(c, w, a); FinalityRises(sent + reports, w1.finalizedBlock)
  {
    hide HeadAndBlockStep;
    ReportsKeepFinality(c, w, a);
    var reports := HeadAndBlockStep(c, w, a).1;
    if reports == [] {
      assert sent + reports == sent;
    } else {
      AppendReport(sent, reports[0], w.finalizedBlock, w.finalizedBlock);
    }
  }

  /** An attempt appends at most a higher finality and then at most one report. */
  lemma AttemptRises(c: Chain, w: Watcher, a: Answers, sent: seq<BlockUpdate>)
    requires FinalityRises(sent, w.finalizedBlock)
    ensures FinalityRises(sent + Ingested(c, w, a).1, Ingested(c, w, a).0.finalizedBlock)
  {
    hide FinalityStep, HeadAndBlockStep, FinalityRises;
    if FinalityStep(w, a).None? {
      assert sent + [] == sent;
    } else {
      var (w1, finality) := FinalityStep(w, a).value;
      FinalityAppends(w, a, sent);
      BlockAppends(c, w1, a, sent + finality);
      var reports := HeadAndBlockStep(c, w1, a).1;
      assert sent + (finality + reports) == sent + finality + reports;
    }
  }

  /** Over every run, whatever the providers answer, the finality the watcher reports never retreats. */
  lemma {:induction false} FinalityNeverRetreats(c: Chain, answers: seq<Answers>)
    ensures FinalityRises(Run(c, answers).1, Run(c, answers).0.finalizedBlock)
    decreases |answers|
  {
    if answers != [] {
      var init, a := answers[..|answers| - 1], answers[|answers| - 1];
      FinalityNeverRetreats(c, init);
      AttemptRises(c, Run(c, init).0, a, Run(c, init).1);
    }
  }

  lemma ReportsKeepFinality(c: Chain, w: Watcher, a: Answers)
    ensures var (w', reports) := HeadAndBlockStep(c, w, a);
            w'.finalizedBlock == w.finalizedBlock && |reports| <= 1 && (reports != [] ==> !reports[0].FinalityUpdate?)
  {
    if HeadStep(w, a).Some? {
      BlockStepFinality(c, HeadStep(w, a).value, a);
    }
  }

  lemma BlockStepFinality(c: Chain, w: Watcher, a: Answers)
    ensures var (w', report) := BlockStep(c, w, a);
            w'.finalizedBlock == w.finalizedBlock && (report.Some? ==> !report.value.FinalityUpdate?)
  {
  }

  /** What holds whatever scans miss: the remembered blocks are those before the current one. */
  ghost predicate InOrder(w: Watcher) {
    && Consecutive(w.unfinalizedBlocks, w.currentBlock)
    && (w.unfinalizedBlocks != [] ==> w.finalizedBlock <= w.currentBlock)
    && w.currentBlock <= w.lastUpdateBlock + 1
  }

  /**
   A reorg is reported exactly when the block before is remembered, the block is not below
   the finalized one, and it does not extend the block before.
   */
  lemma ReorgReportedIff(c: Chain, w: Watcher, a: Answers)
    requires InOrder(w) && Consistent(w, a) && BlockStep(c, w, a).1.Some?
    ensures BlockStep(c, w, a).1.value.Reorg? <==>
              && w.finalizedBlock <= w.currentBlock
              && exists b :: b in w.unfinalizedBlocks && b.number + 1 == w.currentBlock && b.hash != a.block.value.1
  {
    var blocks := w.unfinalizedBlocks;
    if blocks != [] {
      var last := blocks[|blocks| - 1];
      assert (blocks + [HeaderOf(a.block.value)])[|blocks| - 1] == last;
      assert last in blocks;
      forall b | b in blocks && b.number + 1 == w.currentBlock ensures b == last {
        var i :| 0 <= i < |blocks| && blocks[i] == b;
        NumberAt(blocks, w.currentBlock, i);
      }
    }
  }

  lemma {:induction false} NumberAt(blocks: seq<BlockInfo>, next: nat, i: nat)
    requires Consecutive(blocks, next) && i < |blocks|
    ensures blocks[i].number + |blocks| == next + i
    decreases |blocks|
  {
    if i < |blocks| - 1 {
      NumberAt(blocks[..|blocks| - 1], next - 1, i);
    }
  }

  lemma ReportedInOrder(c: Chain, w: Watcher, block: (L1BlockInfo, Hash))
    requires InOrder(w) && block.0.number == w.currentBlock <= w.lastUpdateBlock
    ensures InOrder(Reported(c, w, block).0)
  {
    var blocks := w.unfinalizedBlocks + [HeaderOf(block)];
    assert blocks[..|blocks| - 1] == w.unfinalizedBlocks;
  }

  lemma UpdatedInOrder(c: Chain, w: Watcher, tip: nat)
    requires InOrder(w)
    ensures InOrder(ConfigUpdated(c, w, tip)) && w.currentBlock <= ConfigUpdated(c, w, tip).lastUpdateBlock
  {
    if ScanFrom(c.configLogs, w.lastUpdateBlock, tip).Some? {
      SeenIsAhead(c.configLogs, w.lastUpdateBlock, tip);
    }
  }

  lemma BlockStepInOrder(c: Chain, w: Watcher, a: Answers)
    requires InOrder(w) && Consistent(w, a)
    ensures InOrder(BlockStep(c, w, a).0)
  {
    hide ConfigUpdated, Reported, DepositsTaken, InOrder;
    UpdatedInOrder(c, w, a.tip);
    var w1 := ConfigUpdated(c, w, a.tip);
    UpdatedConfigOnly(c, w, a.tip);
    TakenInOrder(c, w1);
    if a.block.Some? {
      ReportedInOrder(c, WithDepositsTaken(c, w1), a.block.value);
    }
  }

  lemma UpdatedConfigOnly(c: Chain, w: Watcher, tip: nat)
    ensures var w' := ConfigUpdated(c, w, tip);
            w' == w.(systemConfig := w'.systemConfig, lastUpdateBlock := w'.lastUpdateBlock, nextConfig := w'.nextConfig)
  {
  }

  lemma TakenInOrder(c: Chain, w: Watcher)
    requires InOrder(w)
    ensures InOrder(WithDepositsTaken(c, w))
  {
  }

  /** The watcher with which an attempt reads the current block, if it comes to that. */
  function BeforeBlock(w: Watcher, a: Answers): Option<Watcher> {
    var (w1, _) :- FinalityStep(w, a);
    var w2 :- HeadStep(w1, a);
    if w2.headBlock < w2.currentBlock then None else Some(w2)
  }

  lemma BeforeBlockInOrder(w: Watcher, a: Answers)
    requires InOrder(w) && Consistent(w, a) && BeforeBlock(w, a).Some?
    ensures InOrder(BeforeBlock(w, a).value) && Consistent(BeforeBlock(w, a).value, a)
  {
    if a.finalized.Some? {
      RetainedConsecutive(w.unfinalizedBlocks, w.currentBlock, a.finalized.value);
    }
  }

  /** Of what an attempt sends, the first part is about finality and the rest about the block. */
  lemma IngestSends(c: Chain, w: Watcher, a: Answers)
    ensures Reorg in Ingested(c, w, a).1 <==>
            BeforeBlock(w, a).Some? && BlockStep(c, BeforeBlock(w, a).value, a).1 == Some(Reorg)
  {
    hide BlockStep, Retained;
  }

  lemma IngestInOrder(c: Chain, w: Watcher, a: Answers)
    requires InOrder(w) && Consistent(w, a)
    ensures InOrder(Ingested(c, w, a).0)
  {
    hide BlockStep;
    if a.finalized.Some? {
      RetainedConsecutive(w.unfinalizedBlocks, w.currentBlock, a.finalized.value);
    }
    if BeforeBlock(w, a).Some? {
      BeforeBlockInOrder(w, a);
      BlockStepInOrder(c, BeforeBlock(w, a).value, a);
    }
  }

  lemma {:induction false} RunInOrder(c: Chain, answers: seq<Answers>)
    requires ConsistentRun(c, answers)
    ensures InOrder(Run(c, answers).0)
    decreases |answers|
  {
    hide Ingested, InOrder, Consistent;
    if answers == [] {
      InitialInOrder(c);
    } else {
      var init, a := answers[..|answers| - 1], answers[|answers| - 1];
      RunInOrder(c, init);
      IngestInOrder(c, Run(c, init).0, a);
    }
  }

  lemma InitialInOrder(c: Chain)
    ensures InOrder(Initial(c))
  {
  }

  /** The block of the attempt does not extend the block before it, which is remembered. */
  ghost predicate BreaksChain(w: Watcher, a: Answers) {
    && a.block.Some? && w.finalizedBlock <= w.currentBlock
    && exists b :: b in w.unfinalizedBlocks && b.number + 1 == w.currentBlock && b.hash != a.block.value.1
  }

  /**
   After any run, whatever its scans missed, an attempt reports a reorg exactly when it comes to
   read a block that does not extend the remembered block before it.
   */
  lemma RunReorgIff(c: Chain, answers: seq<Answers>, a: Answers)
    requires ConsistentRun(c, answers) && Consistent(Run(c, answers).0, a)
    ensures var w := Run(c, answers).0;
            Reorg in Ingested(c, w, a).1 <==>
              && BeforeBlock(w, a).Some?
              && BlockStep(c, BeforeBlock(w, a).value, a).1.Some? && BreaksChain(BeforeBlock(w, a).value, a)
  {
    hide Run, Ingested, BlockStep, BeforeBlock;
    var w := Run(c, answers).0;
    RunInOrder(c, answers);
    IngestSends(c, w, a);
    if BeforeBlock(w, a).Some? {
      BeforeBlockInOrder(w, a);
      var w2 := BeforeBlock(w, a).value;
      if BlockStep(c, w2, a).1.Some? {
        ReorgReportedIff(c, w2, a);
        BlockIsRead(c, w2, a);
      }
    }
  }

  lemma BlockIsRead(c: Chain, w: Watcher, a: Answers)
    requires BlockStep(c, w, a).1.Some?
    ensures a.block.Some?
  {
  }

  /** After any run a repeated update of the configuration changes nothing. */
  lemma RunUpdatesAgain(c: Chain, answers: seq<Answers>, tip: nat, tip': nat)
    requires ConsistentRun(c, answers)
    ensures var w := Run(c, answers).0;
            ConfigUpdated(c, ConfigUpdated(c, w, tip), tip') == ConfigUpdated(c, w, tip)
  {
    RunInOrder(c, answers);
    UpdateAgain(c, Run(c, answers).0, tip, tip');
  }

  // ------------------------------------------------------------------- what a scan misses

  /** Attempts one after the other, from any watcher. */
  ghost function Continued(c: Chain, w: Watcher, answers: seq<Answers>): (Watcher, seq<BlockUpdate>) {
    if answers == [] then (w, [])
    else
      var (w', sent) := Continued(c, w, answers[..|answers| - 1]);
      var (w'', more) := Ingested(c, w', answers[|answers| - 1]);
      (w'', sent + more)
  }

  /** After a scan that finds nothing, the configuration stays as it is until the blocks scanned are past. */
  lemma {:induction false} BlindUntil(c: Chain, w: Watcher, answers: seq<Answers>)
    requires w.nextConfig.None?
    requires answers == [] || Continued(c, w, answers[..|answers| - 1]).0.currentBlock <= w.lastUpdateBlock
    ensures var (w', sent) := Continued(c, w, answers);
            && w.currentBlock <= w'.currentBlock
            && w'.systemConfig == w.systemConfig && w'.nextConfig.None? && w'.lastUpdateBlock == w.lastUpdateBlock
            && forall r :: r in sent && r.NewBlock? ==> r.info.systemConfig == w.systemConfig
    decreases |answers|
  {
    if answers != [] {
      var init, a := answers[..|answers| - 1], answers[|answers| - 1];
      var w' := Continued(c, w, init).0;
      if init != [] {
        CurrentGrows(c, Continued(c, w, init[..|init| - 1]).0, init[|init| - 1]);
      }
      CurrentGrows(c, w', a);
      BlindUntil(c, w, init);
      BlindStep(c, w', a);
    }
  }

  lemma CurrentGrows(c: Chain, w: Watcher, a: Answers)
    ensures w.currentBlock <= Ingested(c, w, a).0.currentBlock <= w.currentBlock + 1
  {
    if FinalityStep(w, a).Some? {
      var w1 := FinalityStep(w, a).value.0;
      if HeadStep(w1, a).Some? {
        BlockStepGrows(c, HeadStep(w1, a).value, a);
      }
    }
  }

  lemma BlockStepGrows(c: Chain, w: Watcher, a: Answers)
    ensures w.currentBlock <= BlockStep(c, w, a).0.currentBlock <= w.currentBlock + 1
  {
  }

  lemma BlindStep(c: Chain, w: Watcher, a: Answers)
    requires w.nextConfig.None? && w.currentBlock <= w.lastUpdateBlock
    ensures var (w', sent) := Ingested(c, w, a);
            && w'.systemConfig == w.systemConfig && w'.nextConfig.None? && w'.lastUpdateBlock == w.lastUpdateBlock
            && forall r :: r in sent && r.NewBlock? ==> r.info.systemConfig == w.systemConfig
  {
  }

  /** Each update of the blocks after lo, up to hi, sets what is set already. */
  ghost predicate NoEffect(c: Chain, config: SystemConfig, lo: nat, hi: nat) {
    forall log :: log in c.configLogs && UpdateIn(log, lo, hi) ==> Apply(ParseUpdate(log).value, config) == config
  }

  /**
   The configuration reported for the blocks of a scan that found nothing is right exactly
   when every update in them sets what is set already: updates mined after the scan are lost.
   */
  lemma BlindWindowRightIff(c: Chain, w: Watcher, tip: nat)
    requires ValidChain(c) && ConfigKnown(c, w) && w.lastUpdateBlock < w.currentBlock
    requires ScanFrom(c.configLogs, w.lastUpdateBlock, tip).None?
    ensures Constant(c, ConfigUpdated(c, w, tip).systemConfig, w.lastUpdateBlock, w.lastUpdateBlock + LOOKAHEAD)
       <==> NoEffect(c, w.systemConfig, w.lastUpdateBlock, w.lastUpdateBlock + LOOKAHEAD)
  {
    var last, hi := w.lastUpdateBlock, w.lastUpdateBlock + LOOKAHEAD;
    assert w.systemConfig == SystemConfigAt(c, last);
    assert ConfigUpdated(c, w, tip).systemConfig == w.systemConfig;
    ConstantRangeIff(c.configLogs, c.initial, c.start, last, hi);
    if Constant(c, w.systemConfig, last, hi) {
      forall m | last <= m <= hi
        ensures ConfigAt(c.configLogs, c.initial, c.start, m) == ConfigAt(c.configLogs, c.initial, c.start, last)
      {
        assert SystemConfigAt(c, m) == w.systemConfig;
      }
    }
    if NoEffect(c, w.systemConfig, last, hi) {
      forall m | c.start <= m && last <= m <= hi ensures SystemConfigAt(c, m) == w.systemConfig {
        assert ConfigAt(c.configLogs, c.initial, c.start, m) == ConfigAt(c.configLogs, c.initial, c.start, last);
      }
    }
  }

  /** Two stretches of attempts one after the other. */
  lemma {:induction false} ContinuedConcat(c: Chain, w: Watcher, a: seq<Answers>, b: seq<Answers>)
    ensures Continued(c, w, a + b).0 == Continued(c, Continued(c, w, a).0, b).0
    ensures Continued(c, w, a + b).1 == Continued(c, w, a).1 + Continued(c, Continued(c, w, a).0, b).1
    decreases |b|
  {
    hide Ingested;
    if b == [] {
      assert a + b == a;
    } else {
      ContinuedConcat(c, w, a, b[..|b| - 1]);
      assert (a + b)[..|a + b| - 1] == a + b[..|b| - 1];
    }
  }

  lemma {:induction false} RunIsContinued(c: Chain, answers: seq<Answers>)
    ensures Run(c, answers) == Continued(c, Initial(c), answers)
    decreases |answers|
  {
    if answers != [] {
      RunIsContinued(c, answers[..|answers| - 1]);
    }
  }

  lemma RunGoesOn(c: Chain, before: seq<Answers>, more: seq<Answers>)
    ensures var (w, sent) := Run(c, before);
            var (w', sent') := Continued(c, w, more);
            Run(c, before + more) == (w', sent + sent')
  {
    RunIsContinued(c, before);
    RunIsContinued(c, before + more);
    ContinuedConcat(c, Initial(c), before, more);
  }

  /** The provider is consistent in each of some attempts. */
  ghost predicate ConsistentFrom(c: Chain, w: Watcher, answers: seq<Answers>)
    decreases |answers|
  {
    answers == [] ||
    var init, a := answers[..|answers| - 1], answers[|answers| - 1];
    ConsistentFrom(c, w, init) && Consistent(Continued(c, w, init).0, a)
  }

  /** A block report is of the block with the given number and has just that block's deposits. */
  ghost predicate Numbered(c: Chain, n: nat, report: BlockUpdate) {
    report.NewBlock? ==> report.info.blockInfo.number == n && report.info.userDeposits == DepositsAt(c.depositLogs, n)
  }

  lemma BlockStepNumbered(c: Chain, w: Watcher, a: Answers)
    requires Consistent(w, a)
    ensures var (w', report) := BlockStep(c, w, a);
            && w'.currentBlock == w.currentBlock + |OptionToSeq(report)|
            && (report.Some? ==> Numbered(c, w.currentBlock, report.value) && !report.value.FinalityUpdate?)
  {
  }

  /** Report k is of block from + k, and the watcher comes to the block after them. */
  ghost predicate AllNumbered(c: Chain, from: nat, w: Watcher, reports: seq<BlockUpdate>) {
    && w.currentBlock == from + |reports|
    && forall k :: 0 <= k < |reports| ==> Numbered(c, from + k, reports[k])
  }

  lemma HeadAndBlockNumbered(c: Chain, w: Watcher, a: Answers)
    requires Consistent(w, a)
    ensures AllNumbered(c, w.currentBlock, HeadAndBlockStep(c, w, a).0, HeadAndBlockStep(c, w, a).1)
    ensures BlockReports(HeadAndBlockStep(c, w, a).1) == HeadAndBlockStep(c, w, a).1
  {
    match HeadStep(w, a)
    case None =>
    case Some(w1) =>
      BlockStepNumbered(c, w1, a);
      OneReport(BlockStep(c, w1, a).1);
  }

  lemma FinalityOnly(w: Watcher, a: Answers)
    requires FinalityStep(w, a).Some?
    ensures BlockReports(FinalityStep(w, a).value.1) == []
    ensures FinalityStep(w, a).value.0.currentBlock == w.currentBlock && FinalityStep(w, a).value.0.headBlock == w.headBlock
  {
  }

  lemma IngestNumbered(c: Chain, w: Watcher, a: Answers)
    requires Consistent(w, a)
    ensures AllNumbered(c, w.currentBlock, Ingested(c, w, a).0, BlockReports(Ingested(c, w, a).1))
  {
    hide FinalityStep, HeadAndBlockStep, DepositsAt, BlockReports;
    if FinalityStep(w, a).None? {
      NoReports();
    } else {
      FinalityOnly(w, a);
      var (w1, finality) := FinalityStep(w, a).value;
      HeadAndBlockNumbered(c, w1, a);
      var reports := HeadAndBlockStep(c, w1, a).1;
      BlockReportsConcat(finality, reports);
      assert [] + reports == reports;
    }
  }

  lemma NoReports()
    ensures BlockReports([]) == []
  {
  }

  lemma NumberedExtends(c: Chain, from: nat, w: Watcher, w': Watcher, reports: seq<BlockUpdate>, more: seq<BlockUpdate>)
    requires AllNumbered(c, from, w, reports) && AllNumbered(c, w.currentBlock, w', more)
    ensures AllNumbered(c, from, w', reports + more)
  {
  }

  /** Whatever scans miss, the reports are of consecutive blocks with their own deposits. */
  lemma {:induction false} ReportsAreNumbered(c: Chain, w: Watcher, answers: seq<Answers>)
    requires ConsistentFrom(c, w, answers)
    ensures AllNumbered(c, w.currentBlock, Continued(c, w, answers).0, BlockReports(Continued(c, w, answers).1))
    decreases |answers|
  {
    if answers != [] {
      var init, a := answers[..|answers| - 1], answers[|answers| - 1];
      ReportsAreNumbered(c, w, init);
      var (w', sent) := Continued(c, w, init);
      IngestNumbered(c, w', a);
      var (w'', more) := Ingested(c, w', a);
      BlockReportsConcat(sent, more);
      NumberedExtends(c, w.currentBlock, w', w'', BlockReports(sent), BlockReports(more));
    }
  }

  /** The attempt reaches the scan for updates, and the scan finds nothing. */
  ghost predicate ScansBlind(c: Chain, w: Watcher, a: Answers) {
    && FinalityStep(w, a).Some?
    && var w1 := FinalityStep(w, a).value.0;
    && HeadStep(w1, a).Some?
    && var w2 := HeadStep(w1, a).value;
    && w2.currentBlock <= w2.headBlock
    && w.lastUpdateBlock < w.currentBlock && a.configLogs
    && ScanFrom(c.configLogs, w.lastUpdateBlock, a.tip).None?
  }

  lemma BlindFirst(c: Chain, w: Watcher, a: Answers)
    requires ScansBlind(c, w, a)
    ensures var (w', sent) := Ingested(c, w, a);
            && w'.systemConfig == w.systemConfig && w'.nextConfig.None?
            && w'.lastUpdateBlock == w.lastUpdateBlock + LOOKAHEAD
            && forall r :: r in sent && r.NewBlock? ==> r.info.systemConfig == w.systemConfig
  {
  }

  /** Only the last of some attempts may move past the given block. */
  ghost predicate EndsAfter(c: Chain, w: Watcher, answers: seq<Answers>, n: nat) {
    && Continued(c, w, answers).0.currentBlock == n + 1
    && (answers != [] ==> Continued(c, w, answers[..|answers| - 1]).0.currentBlock <= n)
  }

  /** The reports of the blocks of a blind scan all carry the configuration from before it. */
  lemma BlindReports(c: Chain, w: Watcher, a: Answers, more: seq<Answers>)
    requires ScansBlind(c, w, a)
    requires EndsAfter(c, Ingested(c, w, a).0, more, w.lastUpdateBlock + LOOKAHEAD)
    ensures forall r :: r in Continued(c, w, [a] + more).1 && r.NewBlock? ==> r.info.systemConfig == w.systemConfig
  {
    BlindFirst(c, w, a);
    var (w', sent) := Ingested(c, w, a);
    BlindUntil(c, w', more);
    assert [a][..0] == [];
    assert Continued(c, w, [a]) == (w', [] + sent);
    assert [] + sent == sent;
    ContinuedConcat(c, w, [a], more);
  }

  lemma {:induction false} ReportsAmongSent(sent: seq<BlockUpdate>)
    ensures forall k :: 0 <= k < |BlockReports(sent)| ==> BlockReports(sent)[k] in sent && !BlockReports(sent)[k].FinalityUpdate?
    decreases |sent|
  {
    if sent != [] {
      ReportsAmongSent(sent[..|sent| - 1]);
    }
  }

  ghost predicate AllReportsRight(c: Chain, from: nat, reports: seq<BlockUpdate>) {
    forall k :: 0 <= k < |reports| ==> Right(c, from + k, reports[k])
  }

  /** The attempt scans blind, and with the others it just reads the blocks it scanned, without a reorg among them. */
  ghost predicate ReadsBlindWindow(c: Chain, w: Watcher, a: Answers, more: seq<Answers>) {
    && ScansBlind(c, w, a) && ConsistentFrom(c, w, [a] + more)
    && EndsAfter(c, Ingested(c, w, a).0, more, w.lastUpdateBlock + LOOKAHEAD)
    && Reorg !in Continued(c, w, [a] + more).1
  }

  /**
   Over runs: when a scan finds nothing, the reports on the 1000 blocks it covers are what a
   block by block reading gives if and only if each update in those blocks sets what is set
   already. The run may fail and repeat attempts in any way; it ends with the last of those
   blocks, and reports no reorg among them, which would restart the watcher.
   */
  lemma BlindWindowReportsIff(c: Chain, before: seq<Answers>, a: Answers, more: seq<Answers>)
    requires ValidChain(c) && ConsistentRun(c, before) && SeeingRun(c, before)
    requires ReadsBlindWindow(c, Run(c, before).0, a, more)
    ensures var w := Run(c, before).0;
            var window := Continued(c, w, [a] + more).1;
            && Run(c, before + ([a] + more)).1 == Run(c, before).1 + window
            && |BlockReports(window)| == LOOKAHEAD
            && (AllReportsRight(c, w.currentBlock, BlockReports(window)) <==>
                NoEffect(c, w.systemConfig, w.lastUpdateBlock, w.lastUpdateBlock + LOOKAHEAD))
  {
    hide Ingested, Continued, Run;
    RunGoesOn(c, before, [a] + more);
    ReportsAreReadings(c, before);
    BlindWindow(c, Run(c, before).0, a, more);
  }

  lemma BlindWindow(c: Chain, w: Watcher, a: Answers, more: seq<Answers>)
    requires ValidChain(c) && ConfigKnown(c, w) && ReadsBlindWindow(c, w, a, more)
    ensures var reports := BlockReports(Continued(c, w, [a] + more).1);
            && |reports| == LOOKAHEAD
            && (AllReportsRight(c, w.currentBlock, reports) <==>
                NoEffect(c, w.systemConfig, w.lastUpdateBlock, w.lastUpdateBlock + LOOKAHEAD))
  {
    hide Ingested, Continued;
    var (w', window) := Continued(c, w, [a] + more);
    ReportsAreNumbered(c, w, [a] + more);
    BlindEnds(c, w, a, more);
    BlindReports(c, w, a, more);
    BlindWindowRightIff(c, w, a.tip);
    BlindKeepsConfig(c, w, a.tip);
    WindowFromReports(c, w.systemConfig, w.lastUpdateBlock, w', window);
  }

  lemma BlindKeepsConfig(c: Chain, w: Watcher, tip: nat)
    requires ConfigKnown(c, w) && w.lastUpdateBlock < w.currentBlock && ScanFrom(c.configLogs, w.lastUpdateBlock, tip).None?
    ensures ConfigUpdated(c, w, tip).systemConfig == w.systemConfig == SystemConfigAt(c, w.lastUpdateBlock)
    ensures w.currentBlock == w.lastUpdateBlock + 1 && c.start <= w.lastUpdateBlock
  {
  }

  lemma WindowFromReports(c: Chain, config: SystemConfig, last: nat, w: Watcher, sent: seq<BlockUpdate>)
    requires c.start <= last && SystemConfigAt(c, last) == config && w.currentBlock == last + LOOKAHEAD + 1
    requires Reorg !in sent && forall r :: r in sent && r.NewBlock? ==> r.info.systemConfig == config
    requires AllNumbered(c, last + 1, w, BlockReports(sent))
    ensures |BlockReports(sent)| == LOOKAHEAD
    ensures AllReportsRight(c, last + 1, BlockReports(sent)) <==> Constant(c, config, last, last + LOOKAHEAD)
  {
    var reports := BlockReports(sent);
    ReportsAmongSent(sent);
    forall k | 0 <= k < |reports| ensures reports[k].NewBlock? && reports[k].info.systemConfig == config {
      assert reports[k] in sent;
    }
    WindowRightIff(c, config, last, w, reports);
  }

  lemma BlindEnds(c: Chain, w: Watcher, a: Answers, more: seq<Answers>)
    ensures Continued(c, w, [a] + more).0 == Continued(c, Ingested(c, w, a).0, more).0
  {
    assert [a][..0] == [];
    ContinuedConcat(c, w, [a], more);
  }

  /** Reports that carry one configuration are right exactly when it is that of every block. */
  lemma WindowRightIff(c: Chain, config: SystemConfig, last: nat, w: Watcher, reports: seq<BlockUpdate>)
    requires c.start <= last && SystemConfigAt(c, last) == config && |reports| == LOOKAHEAD
    requires forall k :: 0 <= k < |reports| ==>
               reports[k].NewBlock? && reports[k].info.systemConfig == config
    requires AllNumbered(c, last + 1, w, reports)
    ensures AllReportsRight(c, last + 1, reports) <==> Constant(c, config, last, last + LOOKAHEAD)
  {
    if AllReportsRight(c, last + 1, reports) {
      forall m | c.start <= m && last <= m <= last + LOOKAHEAD ensures SystemConfigAt(c, m) == config {
        if m > last {
          assert Right(c, last + 1 + (m - last - 1), reports[m - last - 1]);
        }
      }
    }
    if Constant(c, config, last, last + LOOKAHEAD) {
      forall k | 0 <= k < |reports| ensures Right(c, last + 1 + k, reports[k]) {
        assert SystemConfigAt(c, last + 1 + k) == config;
      }
    }
  }

  lemma BlockStepMovesOn(c: Chain, w: Watcher, a: Answers)
    ensures BlockStep(c, w, a).0.lastUpdateBlock >= w.lastUpdateBlock
  {
    if ScanFrom(c.configLogs, w.lastUpdateBlock, a.tip).Some? {
      SeenIsAhead(c.configLogs, w.lastUpdateBlock, a.tip);
    }
  }

  lemma AttemptMovesOn(c: Chain, w: Watcher, a: Answers)
    ensures Ingested(c, w, a).0.lastUpdateBlock >= w.lastUpdateBlock
  {
    if FinalityStep(w, a).Some? {
      var w1 := FinalityStep(w, a).value.0;
      if HeadStep(w1, a).Some? {
        BlockStepMovesOn(c, HeadStep(w1, a).value, a);
      }
    }
  }

  /** No scan goes back: the blocks covered once are never scanned again. */
  lemma {:induction false} ScansMoveOn(c: Chain, w: Watcher, answers: seq<Answers>)
    ensures Continued(c, w, answers).0.lastUpdateBlock >= w.lastUpdateBlock
    decreases |answers|
  {
    if answers != [] {
      ScansMoveOn(c, w, answers[..|answers| - 1]);
      AttemptMovesOn(c, Continued(c, w, answers[..|answers| - 1]).0, answers[|answers| - 1]);
    }
  }

  // ------------------------------------------------------------------ an update that is lost

  const SOME_HASH: Hash := Hash([], [])

  /** The providers answer for block n while it is the tip. */
  function AtTip(n: nat): Answers {
    Answers(Some(0), Some(n), n, true, Some((L1BlockInfo(n, SOME_HASH, 0, 0, SOME_HASH), SOME_HASH)), true, true)
  }

  /** A chain whose block 2 changes the batch sender. */
  function SenderChanges(): Chain {
    Chain([ConfigLog(2, [0, 0, 0], seq(96, _ => 1))], [], SystemConfig([], 30_000_000, 0, 0, []), 0)
  }

  /** A watcher at the tip that has read all blocks before, each of them its own tip at the time. */
  ghost predicate Following(c: Chain, w: Watcher, n: nat) {
    && w.currentBlock == n && (n > 0 ==> w.headBlock < n) && w.headBlock <= n && w.finalizedBlock == 0
    && w.deposits == map[] && c.depositLogs == []
    && (forall i :: 0 <= i < |w.unfinalizedBlocks| ==> w.unfinalizedBlocks[i].hash == SOME_HASH)
    && w.nextConfig.None?
  }

  /** An attempt at the tip succeeds, and reports the block with the configuration held so far. */
  lemma AttemptAtTip(c: Chain, w: Watcher, n: nat)
    requires Following(c, w, n) && (w.lastUpdateBlock < n ==> ScanFrom(c.configLogs, w.lastUpdateBlock, n).None?)
    ensures var (w', sent) := Ingested(c, w, AtTip(n));
            && Following(c, w', n + 1) && w'.systemConfig == w.systemConfig
            && w'.lastUpdateBlock == (if w.lastUpdateBlock < n then w.lastUpdateBlock + LOOKAHEAD else w.lastUpdateBlock)
            && sent == [NewBlock(L1Info(AtTip(n).block.value.0, w.systemConfig, []))]
            && Consistent(w, AtTip(n))
  {
    var w2 := w.(headBlock := n);
    assert FinalityStep(w, AtTip(n)) == Some((w, []));
    assert HeadStep(w, AtTip(n)) == Some(w2);
    BlockStepAtTip(c, w2, n);
  }

  lemma BlockStepAtTip(c: Chain, w: Watcher, n: nat)
    requires Following(c, w.(headBlock := if n == 0 then 0 else n - 1), n) && w.headBlock == n
    requires w.lastUpdateBlock < n ==> ScanFrom(c.configLogs, w.lastUpdateBlock, n).None?
    ensures var (w', report) := BlockStep(c, w, AtTip(n));
            && Following(c, w', n + 1) && w'.systemConfig == w.systemConfig
            && w'.lastUpdateBlock == (if w.lastUpdateBlock < n then w.lastUpdateBlock + LOOKAHEAD else w.lastUpdateBlock)
            && report == Some(NewBlock(L1Info(AtTip(n).block.value.0, w.systemConfig, [])))
  {
    var w1 := ConfigUpdated(c, w, n);
    assert w1 == w.(lastUpdateBlock := if w.lastUpdateBlock < n then w.lastUpdateBlock + LOOKAHEAD else w.lastUpdateBlock);
    assert DepositsTaken(c, w1, n) == map[];
    assert WithDepositsTaken(c, w1) == w1;
    var blocks := w.unfinalizedBlocks + [HeaderOf(AtTip(n).block.value)];
    assert !CheckReorg(blocks) by {
      if |blocks| >= 2 {
        assert blocks[|blocks| - 2] == w.unfinalizedBlocks[|blocks| - 2];
      }
    }
  }

  /** A run of attempts that each are at the tip, so far without an update seen. */
  ghost predicate FollowedTo(c: Chain, answers: seq<Answers>, n: nat, last: nat, sent: seq<BlockUpdate>) {
    && ConsistentRun(c, answers)
    && var (w, s) := Run(c, answers);
    Following(c, w, n) && w.systemConfig == c.initial && w.lastUpdateBlock == last && s == sent
  }

  lemma FollowOn(c: Chain, answers: seq<Answers>, n: nat, last: nat, sent: seq<BlockUpdate>)
    requires FollowedTo(c, answers, n, last, sent) && (last < n ==> ScanFrom(c.configLogs, last, n).None?)
    ensures FollowedTo(c, answers + [AtTip(n)], n + 1, if last < n then last + LOOKAHEAD else last,
                       sent + [TipReport(c, n)])
  {
    AttemptAtTip(c, Run(c, answers).0, n);
    RunSnoc(c, answers, AtTip(n));
  }

  /** Report n, if the attempts are each at the tip and no update has been seen. */
  function TipReport(c: Chain, n: nat): BlockUpdate { NewBlock(L1Info(AtTip(n).block.value.0, c.initial, [])) }

  lemma TwoAttempts(c: Chain)
    requires c.start == 0 && c.depositLogs == [] && ScanFrom(c.configLogs, 0, 1).None?
    ensures FollowedTo(c, [AtTip(0), AtTip(1)], 2, LOOKAHEAD, [TipReport(c, 0), TipReport(c, 1)])
  {
    var a0, a1, r0, r1 := AtTip(0), AtTip(1), TipReport(c, 0), TipReport(c, 1);
    assert FollowedTo(c, [], 0, 0, []);
    hide Ingested, Following, FollowedTo;
    FollowOn(c, [], 0, 0, []);
    assert [] + [a0] == [a0] && [] + [r0] == [r0];
    FollowOn(c, [a0], 1, 0, [r0]);
    assert [a0] + [a1] == [a0, a1] && [r0] + [r1] == [r0, r1];
  }

  /** Three attempts, each at the tip. */
  lemma ThreeAttempts(c: Chain)
    requires c.start == 0 && c.depositLogs == [] && ScanFrom(c.configLogs, 0, 1).None?
    ensures var answers := [AtTip(0), AtTip(1), AtTip(2)];
            && ConsistentRun(c, answers)
            && BlockReports(Run(c, answers).1) == [TipReport(c, 0), TipReport(c, 1), TipReport(c, 2)]
  {
    hide ConsistentRun, Run, BlockReports, Following;
    var a0, a1, a2, r0, r1, r2 := AtTip(0), AtTip(1), AtTip(2), TipReport(c, 0), TipReport(c, 1), TipReport(c, 2);
    TwoAttempts(c);
    FollowOn(c, [a0, a1], 2, LOOKAHEAD, [r0, r1]);
    assert [a0, a1] + [a2] == [a0, a1, a2] && [r0, r1] + [r2] == [r0, r1, r2];
    ThreeReports(r0, r1, r2);
  }

  lemma RunSnoc(c: Chain, answers: seq<Answers>, a: Answers)
    ensures var (w, sent) := Run(c, answers);
            Run(c, answers + [a]) == (Ingested(c, w, a).0, sent + Ingested(c, w, a).1)
    ensures ConsistentRun(c, answers + [a]) <==> ConsistentRun(c, answers) && Consistent(Run(c, answers).0, a)
  {
    assert (answers + [a])[..|answers|] == answers;
  }

  lemma ThreeReports(x: BlockUpdate, y: BlockUpdate, z: BlockUpdate)
    requires !x.FinalityUpdate? && !y.FinalityUpdate? && !z.FinalityUpdate?
    ensures BlockReports([x, y, z]) == [x, y, z]
  {
    assert [x, y, z][..2] == [x, y] && [x, y][..1] == [x] && [x][..0] == [];
    assert BlockReports([x]) == [x];
    assert BlockReports([x, y]) == [x, y];
  }

  /**
   A watcher that follows the tip: it scans at block 1, when block 2 is not yet mined, and
   then reports block 2 without the update that the block itself makes.
   */
  lemma LateUpdateIsLost()
    ensures var c := SenderChanges();
            var answers := [AtTip(0), AtTip(1), AtTip(2)];
            && ValidChain(c) && ConsistentRun(c, answers)
            && var reports := BlockReports(Run(c, answers).1);
            && |reports| == 3 && reports[2].NewBlock? && reports[2].info.blockInfo.number == 2
            && reports[2].info.systemConfig == c.initial && |SystemConfigAt(c, 2).batchSender| == 20
            && !Right(c, 2, reports[2])
  {
    var c := SenderChanges();
    assert GetLogs(c.configLogs, 1, LOOKAHEAD, 1) == [];
    ThreeAttempts(c);
    SenderAfterChange();
  }

  lemma SenderAfterChange()
    ensures |SystemConfigAt(SenderChanges(), 2).batchSender| == 20
  {
    var c := SenderChanges();
    var log := c.configLogs[0];
    assert UpdateIn(log, 0, 2) && |ParseUpdate(log).value.address| == 20;
    ConfigOne(c.configLogs, c.initial, 0, 0, 2, 0);
  }

  // ------------------------------------------------------------------------------- class

  class InnerWatcher {
    var currentBlock: nat
    var headBlock: nat
    var finalizedBlock: nat
    var unfinalizedBlocks: seq<BlockInfo>
    var deposits: map<nat, seq<UserDeposited>>
    var systemConfig: SystemConfig
    var systemConfigUpdate: (nat, Option<SystemConfig>)

    ghost function View(): Watcher
      reads this
    {
      Watcher(currentBlock, headBlock, finalizedBlock, unfinalizedBlocks, deposits, systemConfig,
              systemConfigUpdate.0, systemConfigUpdate.1)
    }

    constructor (ghost c: Chain, l1StartBlock: nat, systemConfig: SystemConfig)
      requires l1StartBlock == c.start && systemConfig == c.initial
      ensures View() == Initial(c)
    {
      currentBlock, headBlock, finalizedBlock := l1StartBlock, 0, 0;
      unfinalizedBlocks, deposits := [], map[];
      this.systemConfig, systemConfigUpdate := systemConfig, (l1StartBlock, None);
    }

    /** The update of the current block is applied; more blocks are scanned when it is not known. */
    method UpdateSystemConfig(c: Chain, a: Answers) returns (ok: bool)
      modifies this`systemConfig, this`systemConfigUpdate
      ensures ok == (old(View()).lastUpdateBlock >= currentBlock || a.configLogs)
      ensures View() == if ok then ConfigUpdated(c, old(View()), a.tip) else old(View())
    {
      var (lastUpdateBlock, _) := systemConfigUpdate;
      if lastUpdateBlock < currentBlock {
        if !a.configLogs {
          return false;
        }
        var toBlock := lastUpdateBlock + LOOKAHEAD;
        var updates := GetLogs(c.configLogs, lastUpdateBlock + 1, toBlock, a.tip);
        var update := if updates == [] then None else ParseUpdate(updates[0]);
        if update.Some? {
          systemConfigUpdate := (updates[0].block, Some(Apply(update.value, systemConfig)));
        } else {
          systemConfigUpdate := (toBlock, None);
        }
        assert View() == ConfigScanned(c, old(View()), a.tip);
      }
      if systemConfigUpdate.0 == currentBlock && systemConfigUpdate.1.Some? {
        systemConfig := systemConfigUpdate.1.value;
      }
      return true;
    }

    /**
     The deposits of a block, from the cache or by reading up to 1001 blocks into it. Taking
     them out of the cache at the end never fails.
     */
    method GetDeposits(c: Chain, blockNum: nat, a: Answers) returns (r: Option<seq<UserDeposited>>)
      requires blockNum <= headBlock <= a.tip
      requires blockNum in deposits ==> deposits[blockNum] == DepositsAt(c.depositLogs, blockNum)
      modifies this`deposits
      ensures r.Some? <==> blockNum in old(deposits) || a.depositLogs
      ensures r.Some? ==> r.value == DepositsAt(c.depositLogs, blockNum) && deposits == old(DepositsTaken(c, View(), blockNum))
      ensures r.None? ==> deposits == old(deposits)
    {
      if blockNum in deposits {
        r := Some(deposits[blockNum]);
        deposits := deposits - {blockNum};
        return;
      }
      if !a.depositLogs {
        return None;
      }
      FillDeposits(c, blockNum, Min(headBlock, blockNum + LOOKAHEAD), a.tip);
      r := Some(deposits[blockNum]);
      deposits := deposits - {blockNum};
      assert deposits == old(DepositsTaken(c, View(), blockNum));
    }

    /** Reads the deposits of a range of blocks into the cache. */
    method FillDeposits(c: Chain, blockNum: nat, endBlock: nat, tip: nat)
      requires blockNum <= endBlock <= tip
      modifies this`deposits
      ensures forall k :: k in deposits <==> k in old(deposits) || blockNum <= k <= endBlock
      ensures forall k :: k in deposits ==>
                deposits[k] == if blockNum <= k <= endBlock then DepositsAt(c.depositLogs, k) else old(deposits)[k]
    {
      hide DepositsAt, DepositLogs;
      var depositLogs := DepositLogs(c.depositLogs, blockNum, endBlock, tip);
      for num := blockNum to endBlock + 1
        modifies this`deposits
        invariant forall k :: k in deposits <==> k in old(deposits) || blockNum <= k < num
        invariant forall k :: blockNum <= k < num ==> deposits[k] == DepositsAt(c.depositLogs, k)
        invariant forall k :: k in deposits && !(blockNum <= k < num) ==> deposits[k] == old(deposits)[k]
      {
        QueryKeepsBlock(c.depositLogs, blockNum, endBlock, tip, num);
        deposits := deposits[num := DepositsAt(depositLogs, num)];
      }
    }

    /** One attempt at the current block, with the updates it sends. */
    method TryIngestBlock(c: Chain, a: Answers) returns (ok: bool, sent: seq<BlockUpdate>)
      requires Consistent(View(), a) && DepositsCached(c, deposits, currentBlock)
      modifies this
      ensures (View(), sent) == Ingested(c, old(View()), a)
      ensures ok <==> old(Succeeds(c, View(), a))
    {
      sent := [];
      if currentBlock > finalizedBlock {
        if a.finalized.None? {
          return false, sent;
        }
        if finalizedBlock < a.finalized.value {
          finalizedBlock := a.finalized.value;
          sent := [FinalityUpdate(finalizedBlock)];
          unfinalizedBlocks := Retained(unfinalizedBlocks, finalizedBlock);
        }
      }
      if currentBlock > headBlock {
        if a.head.None? {
          assert sent + [] == sent;
          return false, sent;
        }
        headBlock := a.head.value;
      }
      assert sent + [] == sent;
      if currentBlock <= headBlock {
        var more;
        ok, more := IngestCurrent(c, a);
        sent := sent + more;
      } else {
        ok := true;
      }
    }

    /** Reads the current block, which is not above the head, and reports it. */
    method IngestCurrent(c: Chain, a: Answers) returns (ok: bool, sent: seq<BlockUpdate>)
      requires Consistent(View(), a) && DepositsCached(c, deposits, currentBlock) && currentBlock <= headBlock
      modifies this
      ensures (View(), sent) == (BlockStep(c, old(View()), a).0, OptionToSeq(BlockStep(c, old(View()), a).1))
      ensures ok <==> BlockStep(c, old(View()), a).1.Some?
    {
      sent := [];
      var known := UpdateSystemConfig(c, a);
      if !known || a.block.None? {
        return false, sent;
      }
      var userDeposits := GetDeposits(c, currentBlock, a);
      if userDeposits.None? || !a.batcherTransactions {
        return false, sent;
      }
      var (blockInfo, parentHash) := a.block.value;
      if blockInfo.number >= finalizedBlock {
        unfinalizedBlocks := unfinalizedBlocks + [BlockInfo(blockInfo.hash, blockInfo.number, parentHash, blockInfo.timestamp)];
      }
      if CheckReorg(unfinalizedBlocks) {
        sent := [Reorg];
      } else {
        sent := [NewBlock(L1Info(blockInfo, systemConfig, userDeposits.value))];
      }
      currentBlock := currentBlock + 1;
      ok := true;
    }
  }
}
