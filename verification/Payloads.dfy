/**
 What a derived block contains (src/derive/stages/attributes.rs): its transactions from first to
 last, and the other fields of the attributes, told from its L1 origin and its batch.
 */
module Payloads {
  import opened Base
  import opened Types
  import opened DerivationState
  import opened BatchQueue
  import opened BatchSafety
  import opened Attributes
  import opened ForkChoice
  import opened ForkChoiceSafety
  import opened NodeModel
  import opened NodeSafety

  // ------------------------------------------------------------------- kinds of transactions

  /** The raw transactions among some transactions, in order. */
  function RawsIn(txs: seq<Transaction>): seq<RawTransaction> {
    if txs == [] then []
    else RawsIn(txs[..|txs| - 1]) + if txs[|txs| - 1].BatchTx? then [txs[|txs| - 1].raw] else []
  }

  function UpgradesIn(txs: seq<Transaction>): seq<nat> {
    if txs == [] then []
    else UpgradesIn(txs[..|txs| - 1]) + if txs[|txs| - 1].UpgradeTx? then [txs[|txs| - 1].index] else []
  }

  /** Where a transaction of a kind belongs in a block. */
  function Rank(tx: Transaction): nat {
    match tx
    case AttributesTx(_) => 0
    case DepositTx(_) => 1
    case UpgradeTx(_) => 2
    case BatchTx(_) => 3
  }

  ghost predicate InOrder(txs: seq<Transaction>) {
    forall i, j :: 0 <= i < j < |txs| ==> Rank(txs[i]) <= Rank(txs[j])
  }

  /** The first transaction, which tells the L2 chain about the block's origin and place in the epoch. */
  ghost predicate Tells(cfg: Config, info: L1Info, timestamp: nat, sequenceNumber: nat, tx: Transaction) {
    && tx.AttributesTx?
    && var a := tx.attributes;
    && a.number == info.blockInfo.number && a.timestamp == info.blockInfo.timestamp
    && a.baseFee == info.blockInfo.baseFee && a.hash == info.blockInfo.hash
    && a.sequenceNumber == sequenceNumber
    && a.batcherHash == seq(12, _ => 0) + info.systemConfig.batchSender
    && a.feeOverhead == info.systemConfig.l1FeeOverhead && a.feeScalar == info.systemConfig.l1FeeScalar
    && (if timestamp < cfg.regolithTime then a.isSystemTx && a.gas == 150_000_000 else !a.isSystemTx && a.gas == 1_000_000)
  }

  /**
   The transactions of a block with the given origin, time and place in its epoch, from a batch
   with the given raw transactions: one that tells about the origin, then the origin's deposits if
   the block opens the epoch, then the six upgrades at Ecotone's time, then the batch's own.
   */
  ghost predicate BlockOf(
    cfg: Config, info: L1Info, timestamp: nat, sequenceNumber: nat, raws: seq<RawTransaction>, txs: seq<Transaction>)
  {
    && txs != [] && Tells(cfg, info, timestamp, sequenceNumber, txs[0])
    && (forall i :: 0 < i < |txs| ==> !txs[i].AttributesTx?)
    && InOrder(txs)
    && DepositsIn(txs) == (if sequenceNumber == 0 then info.userDeposits else [])
    && UpgradesIn(txs) == (if timestamp == cfg.ecotoneTime then [0, 1, 2, 3, 4, 5] else [])
    && RawsIn(txs) == raws
  }

  predicate IsFeeVault(address: Bytes) {
    && |address| == 20 && address[0] == 0x42 && address[19] == 0x11
    && forall i :: 0 < i < 19 ==> address[i] == 0
  }

  /** The attributes of such a block. */
  ghost predicate PayloadOf(cfg: Config, info: L1Info, input: BlockInput, sequenceNumber: nat, a: PayloadAttributes) {
    && BlockOf(cfg, info, input.timestamp, sequenceNumber, input.transactions, a.transactions)
    && a.timestamp == input.timestamp && a.l1InclusionBlock == input.l1InclusionBlock
    && a.epoch == EpochOf(info) && a.seqNumber == sequenceNumber
    && a.prevRandao == info.blockInfo.mixHash && a.gasLimit == info.systemConfig.gasLimit
    && IsFeeVault(a.suggestedFeeRecipient) && a.noTxPool
    && a.withdrawals == if input.timestamp < cfg.canyonTime then None else Some([])
  }

  // --------------------------------------------------------- blocks are determined by this

  /** The transactions of a kind, as they stand in a block. */
  function UpgradeTxs(indexes: seq<nat>): seq<Transaction> {
    seq(|indexes|, i requires 0 <= i < |indexes| => UpgradeTx(indexes[i]))
  }

  lemma {:induction false} NoneOfKinds(txs: seq<Transaction>)
    ensures (forall tx :: tx in txs ==> !tx.DepositTx?) ==> DepositsIn(txs) == []
    ensures (forall tx :: tx in txs ==> !tx.UpgradeTx?) ==> UpgradesIn(txs) == []
    ensures (forall tx :: tx in txs ==> !tx.BatchTx?) ==> RawsIn(txs) == []
    decreases |txs|
  {
    if txs != [] {
      NoneOfKinds(txs[..|txs| - 1]);
    }
  }

  function Parts(first: Transaction, deposits: seq<UserDeposited>, upgrades: seq<nat>, raws: seq<RawTransaction>): seq<Transaction> {
    [first] + DepositTxs(deposits) + UpgradeTxs(upgrades) + BatchTxs(raws)
  }

  /** One more transaction at the end belongs to the last kind there is. */
  lemma PartsSnoc(first: Transaction, deposits: seq<UserDeposited>, upgrades: seq<nat>, raws: seq<RawTransaction>, tx: Transaction)
    ensures tx.BatchTx? ==> Parts(first, deposits, upgrades, raws + [tx.raw]) == Parts(first, deposits, upgrades, raws) + [tx]
    ensures tx.UpgradeTx? && raws == [] ==>
              Parts(first, deposits, upgrades + [tx.index], raws) == Parts(first, deposits, upgrades, raws) + [tx]
    ensures tx.DepositTx? && raws == [] && upgrades == [] ==>
              Parts(first, deposits + [tx.deposit], upgrades, raws) == Parts(first, deposits, upgrades, raws) + [tx]
  {
  }

  /** Ordered transactions are the first and then those of each kind. */
  lemma {:induction false} Recomposed(txs: seq<Transaction>)
    requires txs != [] && txs[0].AttributesTx? && (forall i :: 0 < i < |txs| ==> !txs[i].AttributesTx?) && InOrder(txs)
    ensures txs == Parts(txs[0], DepositsIn(txs), UpgradesIn(txs), RawsIn(txs))
    decreases |txs|
  {
    hide Parts;
    var init, last := txs[..|txs| - 1], txs[|txs| - 1];
    assert txs == init + [last];
    if init == [] {
      NoneOfKinds(txs);
      OnePart(last);
    } else {
      Recomposed(init);
      KindsSnoc(init, last);
      PartsSnoc(txs[0], DepositsIn(init), UpgradesIn(init), RawsIn(init), last);
      LowerKinds(init, last);
    }
  }

  lemma KindsSnoc(init: seq<Transaction>, last: Transaction)
    ensures DepositsIn(init + [last]) == if last.DepositTx? then DepositsIn(init) + [last.deposit] else DepositsIn(init)
    ensures UpgradesIn(init + [last]) == if last.UpgradeTx? then UpgradesIn(init) + [last.index] else UpgradesIn(init)
    ensures RawsIn(init + [last]) == if last.BatchTx? then RawsIn(init) + [last.raw] else RawsIn(init)
  {
    assert (init + [last])[..|init|] == init;
  }

  lemma OnePart(first: Transaction)
    ensures Parts(first, [], [], []) == [first]
  {
  }

  /** Before a transaction there are none of later kinds. */
  lemma LowerKinds(init: seq<Transaction>, last: Transaction)
    requires InOrder(init + [last]) && !last.AttributesTx?
    ensures last.DepositTx? ==> UpgradesIn(init) == []
    ensures !last.BatchTx? ==> RawsIn(init) == []
  {
    forall tx | tx in init ensures Rank(tx) <= Rank(last) {
      var i :| 0 <= i < |init| && init[i] == tx;
      assert (init + [last])[i] == tx && (init + [last])[|init|] == last;
    }
    NoneOfKinds(init);
  }

  /** Nothing is left open: two lists of transactions that fit the same description are equal. */
  lemma BlockIsDetermined(
    cfg: Config, info: L1Info, timestamp: nat, sequenceNumber: nat, raws: seq<RawTransaction>, txs: seq<Transaction>, txs': seq<Transaction>)
    requires BlockOf(cfg, info, timestamp, sequenceNumber, raws, txs)
    requires BlockOf(cfg, info, timestamp, sequenceNumber, raws, txs')
    ensures txs == txs'
  {
    Recomposed(txs);
    Recomposed(txs');
    assert txs[0].attributes == txs'[0].attributes;
  }

  // ------------------------------------------------------------- attributes are described so

  lemma {:induction false} KindsConcat(a: seq<Transaction>, b: seq<Transaction>)
    ensures UpgradesIn(a + b) == UpgradesIn(a) + UpgradesIn(b) && RawsIn(a + b) == RawsIn(a) + RawsIn(b)
    decreases |b|
  {
    if b == [] {
      assert a + b == a;
    } else {
      assert (a + b)[..|a + b| - 1] == a + b[..|b| - 1];
      KindsConcat(a, b[..|b| - 1]);
    }
  }

  lemma {:induction false} RawsInBatchTxs(raws: seq<RawTransaction>)
    ensures RawsIn(BatchTxs(raws)) == raws
    decreases |raws|
  {
    if raws != [] {
      var n := |raws| - 1;
      assert BatchTxs(raws)[..n] == BatchTxs(raws[..n]);
      RawsInBatchTxs(raws[..n]);
    }
  }

  lemma AllUpgrades()
    ensures UpgradesIn(UPGRADE_TRANSACTIONS) == [0, 1, 2, 3, 4, 5]
  {
    var u := UPGRADE_TRANSACTIONS;
    assert u[..5][..4] == u[..4] && u[..4][..3] == u[..3] && u[..3][..2] == u[..2] && u[..2][..1] == u[..1] && u[..1][..0] == [];
    assert UpgradesIn(u[..1]) == [0];
    assert UpgradesIn(u[..2]) == [0, 1];
    assert UpgradesIn(u[..3]) == [0, 1, 2];
    assert UpgradesIn(u[..4]) == [0, 1, 2, 3];
    assert UpgradesIn(u[..5]) == [0, 1, 2, 3, 4];
  }

  lemma TransactionsOfBlock(cfg: Config, s: StateView, input: BlockInput, info: L1Info, sequenceNumber: nat)
    requires s.L1InfoByHash(info.blockInfo.hash) == Some(info)
    ensures BlockOf(cfg, info, input.timestamp, sequenceNumber, input.transactions,
                    AttributesOf(cfg, s, input, EpochOf(info), info, sequenceNumber).transactions)
  {
    hide DepositsIn, UpgradesIn, RawsIn, InOrder, Tells;
    var txs := AttributesOf(cfg, s, input, EpochOf(info), info, sequenceNumber).transactions;
    var first := [AttributesTx(FromBlockInfo(cfg, info, sequenceNumber, input.timestamp))];
    var deposits := if sequenceNumber == 0 then DepositTxs(info.userDeposits) else [];
    var upgrades := if input.timestamp == cfg.ecotoneTime then UPGRADE_TRANSACTIONS else [];
    var rest := BatchTxs(input.transactions);
    assert txs == first + deposits + upgrades + rest;
    DepositsOfBlock(cfg, s, input, EpochOf(info), info, sequenceNumber);
    FourParts(first, deposits, upgrades, rest);
    AllUpgrades();
    NoneOfKinds([]);
    RawsInBatchTxs(input.transactions);
    FirstTells(cfg, info, input.timestamp, sequenceNumber);
  }

  lemma FirstTells(cfg: Config, info: L1Info, timestamp: nat, sequenceNumber: nat)
    ensures Tells(cfg, info, timestamp, sequenceNumber, AttributesTx(FromBlockInfo(cfg, info, sequenceNumber, timestamp)))
  {
    assert BatcherHash(info.systemConfig) == seq(12, _ => 0) + info.systemConfig.batchSender;
  }

  /** A block made of four parts, one of each kind. */
  lemma FourParts(first: seq<Transaction>, deposits: seq<Transaction>, upgrades: seq<Transaction>, rest: seq<Transaction>)
    requires |first| == 1 && first[0].AttributesTx?
    requires forall tx :: tx in deposits ==> tx.DepositTx?
    requires forall tx :: tx in upgrades ==> tx.UpgradeTx?
    requires forall tx :: tx in rest ==> tx.BatchTx?
    ensures var txs := first + deposits + upgrades + rest;
            && txs[0] == first[0] && (forall i :: 0 < i < |txs| ==> !txs[i].AttributesTx?) && InOrder(txs)
            && UpgradesIn(txs) == UpgradesIn(upgrades) && RawsIn(txs) == RawsIn(rest)
  {
    KindsConcat(first + deposits + upgrades, rest);
    KindsConcat(first + deposits, upgrades);
    KindsConcat(first, deposits);
    NoneOfKinds(first);
    NoneOfKinds(deposits);
    NoneOfKinds(upgrades);
    NoneOfKinds(rest);
    PartsInOrder(first, deposits, upgrades, rest);
  }

  lemma PartsInOrder(first: seq<Transaction>, deposits: seq<Transaction>, upgrades: seq<Transaction>, rest: seq<Transaction>)
    requires |first| == 1 && first[0].AttributesTx?
    requires forall tx :: tx in deposits ==> tx.DepositTx?
    requires forall tx :: tx in upgrades ==> tx.UpgradeTx?
    requires forall tx :: tx in rest ==> tx.BatchTx?
    ensures var txs := first + deposits + upgrades + rest;
            && (forall i :: 0 < i < |txs| ==> !txs[i].AttributesTx?) && InOrder(txs)
  {
    var txs := first + deposits + upgrades + rest;
    var d, u := 1 + |deposits|, 1 + |deposits| + |upgrades|;
    forall i | 0 <= i < |txs| ensures Rank(txs[i]) == if i < 1 then 0 else if i < d then 1 else if i < u then 2 else 3 {
      if i < 1 {
        assert txs[i] == first[i];
      } else if i < d {
        assert txs[i] == deposits[i - 1] && deposits[i - 1] in deposits;
      } else if i < u {
        assert txs[i] == upgrades[i - d] && upgrades[i - d] in upgrades;
      } else {
        assert txs[i] == rest[i - u] && rest[i - u] in rest;
      }
    }
  }

  lemma AttributesArePayload(cfg: Config, s: StateView, input: BlockInput, info: L1Info, sequenceNumber: nat)
    requires s.L1InfoByHash(info.blockInfo.hash) == Some(info)
    ensures PayloadOf(cfg, info, input, sequenceNumber, AttributesOf(cfg, s, input, EpochOf(info), info, sequenceNumber))
  {
    hide BlockOf, DeriveTransactions;
    TransactionsOfBlock(cfg, s, input, info, sequenceNumber);
  }

  // ---------------------------------------------------------------------------------- runs

  /** What a pull yields is made of the block that the queue emits and of the L1 block it names. */
  lemma PullYieldsPayload(cfg: Config, n: Node, read: ChannelRead)
    requires Inv(cfg, n) && ValidRead(read) && ReadAligned(cfg, read)
    ensures var (queue, emitted) := TryNext(cfg, n.state, n.pipeline.queue, read);
            var (p, outcome) := NextAttributes(cfg, n.state, n.pipeline, read);
            outcome.Attrs? ==>
              && emitted.Emit? && emitted.input.epoch < |n.l1| && p.queue == queue
              && var info := n.l1[emitted.input.epoch];
              PayloadOf(cfg, info, emitted.input,
                        NextSequence(n.pipeline.sequenceNumber, n.pipeline.epochHash, info.blockInfo.hash), outcome.attributes)
  {
    hide PayloadOf, AttributesOf;
    TryNextSafe(cfg, n.state, n.l1, n.lo, n.nextL1, n.pipeline.queue, read);
    var emitted := TryNext(cfg, n.state, n.pipeline.queue, read).1;
    if emitted.Emit? {
      OriginResolvedIff(cfg, n.state, n.l1, n.lo, n.nextL1, emitted.input);
      if emitted.input.epoch < n.nextL1 {
        var info := n.l1[emitted.input.epoch];
        assert Cached(n.state, n.l1, emitted.input.epoch);
        AttributesArePayload(cfg, n.state, emitted.input, info,
                             NextSequence(n.pipeline.sequenceNumber, n.pipeline.epochHash, info.blockInfo.hash));
      }
    }
  }

  /** So in every state of every fair run, for whatever channel comes next. */
  lemma RunYieldsPayload(cfg: Config, n: Node, events: seq<Event>, read: ChannelRead)
    requires Init(cfg, n) && FairRun(cfg, n, events) && Run(cfg, n, events).Some?
    requires ValidRead(read) && ReadAligned(cfg, read)
    ensures var now := Run(cfg, n, events).value;
            && Keyed(cfg, now.pipeline.queue.batches)
            && var emitted := TryNext(cfg, now.state, now.pipeline.queue, read).1;
            var outcome := NextAttributes(cfg, now.state, now.pipeline, read).1;
            outcome.Attrs? ==>
              && emitted.Emit? && emitted.input.epoch < |now.l1|
              && PayloadOf(cfg, now.l1[emitted.input.epoch], emitted.input, outcome.attributes.seqNumber, outcome.attributes)
  {
    hide TryNext, NextAttributes, FairRun, Run, Init;
    RunKeeps(cfg, n, events);
    PullYieldsPayload(cfg, Run(cfg, n, events).value, read);
  }

  /** A block of the safe chain has the transactions its origin, its time and some batch give it. */
  ghost predicate Composed(cfg: Config, l1: seq<L1Info>, d: Derived) {
    && d.epoch.number < |l1|
    && BlockOf(cfg, l1[d.epoch.number], d.info.timestamp, d.sequenceNumber, RawsIn(d.transactions), d.transactions)
  }

  ghost predicate ChainComposed(cfg: Config, n: Node) {
    forall i :: n.base < i < |n.chain| ==> Composed(cfg, n.l1, n.chain[i])
  }

  /** A pull that derives a block adds it with the transactions of the block that the queue emitted. */
  lemma PullComposes(cfg: Config, n: Node, read: ChannelRead, hash: Hash)
    requires Inv(cfg, n) && Fair(cfg, n, Pull(read, hash)) && PullStep(cfg, n, read, hash).Some?
    ensures var n' := PullStep(cfg, n, read, hash).value;
            || n'.chain == n.chain
            || (&& |n'.chain| == |n.chain| + 1 && n'.chain[..|n.chain|] == n.chain
                && Composed(cfg, n.l1, Last(n'.chain))
                && var emitted := TryNext(cfg, n.state, n.pipeline.queue, read).1;
                emitted.Emit? && RawsIn(Last(n'.chain).transactions) == emitted.input.transactions)
    ensures var n' := PullStep(cfg, n, read, hash).value; n'.base == n.base && n'.l1 == n.l1
  {
    hide NextAttributes, AfterPull, TryNext, GoodAttributes, PayloadOf, Composed, Inv, RawsIn;
    WellDefined(cfg, n);
    var (p, outcome) := NextAttributes(cfg, n.state, n.pipeline, read);
    NextAttributesGood(cfg, n, read);
    PullYieldsPayload(cfg, n, read);
    PullOutcome(cfg, n, p, outcome, hash);
    if outcome.Attrs? {
      var input := TryNext(cfg, n.state, n.pipeline.queue, read).1.input;
      PayloadComposes(cfg, n.l1, input, NextSequence(n.pipeline.sequenceNumber, n.pipeline.epochHash, n.l1[input.epoch].blockInfo.hash),
                      outcome.attributes, Last(AfterPull(cfg, n, p, outcome, hash).value.chain));
    }
  }

  lemma WellDefined(cfg: Config, n: Node)
    requires Inv(cfg, n)
    ensures ValidL1(n.l1) && ValidConfig(cfg) && Keyed(cfg, n.pipeline.queue.batches)
  {
  }

  lemma PayloadComposes(cfg: Config, l1: seq<L1Info>, input: BlockInput, sequenceNumber: nat, a: PayloadAttributes, d: Derived)
    requires ValidL1(l1) && input.epoch < |l1| && PayloadOf(cfg, l1[input.epoch], input, sequenceNumber, a)
    requires d.info.timestamp == a.timestamp && d.epoch == a.epoch
    requires d.sequenceNumber == a.seqNumber && d.transactions == a.transactions
    ensures Composed(cfg, l1, d) && RawsIn(d.transactions) == input.transactions
  {
  }

  lemma PullOutcome(cfg: Config, n: Node, p: Pipeline, outcome: PipelineOutcome, hash: Hash)
    requires Inv(cfg, n) && AfterPull(cfg, n, p, outcome, hash).Some?
    requires outcome.Attrs? ==> GoodAttributes(cfg, n, p, outcome.attributes)
    ensures var n' := AfterPull(cfg, n, p, outcome, hash).value;
            && n'.base == n.base && n'.l1 == n.l1
            && if outcome.Attrs? then
                 var d, a := Last(n'.chain), outcome.attributes;
                 && n'.chain == n.chain + [d] && d.info.timestamp == a.timestamp
                 && d.epoch == a.epoch && d.sequenceNumber == a.seqNumber && d.transactions == a.transactions
               else n'.chain == n.chain
  {
    hide StateOk, QueueOk, UnfinalizedOk, ChainOk, AttributesHandled, HeadsOrdered, RequestsOk;
    if outcome.Attrs? {
      NextSlotIsNext(cfg, n);
      AttributesHandledSafe(n.driven, cfg.blocktime, outcome.attributes, hash);
    }
  }

  /** Blocks stay composed when the L1 blocks they come from stay. */
  lemma ComposedStays(cfg: Config, l1: seq<L1Info>, l1': seq<L1Info>, d: Derived)
    requires Composed(cfg, l1, d) && d.epoch.number < |l1'| && l1'[d.epoch.number] == l1[d.epoch.number]
    ensures Composed(cfg, l1', d)
  {
  }

  lemma ReorgComposed(cfg: Config, n: Node, l1: seq<L1Info>)
    requires Inv(cfg, n) && ChainComposed(cfg, n) && Fair(cfg, n, L1Reorg(l1))
    ensures ChainComposed(cfg, ReorgStep(cfg, n, l1))
  {
    hide Composed;
    var n' := ReorgStep(cfg, n, l1);
    var k := n.driven.heads.finalizedHead.number - n.chain[0].info.number + 1;
    var last := n.driven.heads.finalizedEpoch.number + 1;
    assert n'.chain == n.chain[..k];
    forall i | n.base < i < k ensures Composed(cfg, l1, n'.chain[i]) {
      EpochsOrdered(cfg, n.l1, n.chain, n.base, i, k - 1);
      var e := n.chain[i].epoch.number;
      assert l1[e] == l1[..last][e] == n.l1[..last][e] == n.l1[e];
      ComposedStays(cfg, n.l1, l1, n.chain[i]);
    }
  }

  lemma GrownComposed(cfg: Config, n: Node, n': Node)
    requires Inv(cfg, n) && ChainComposed(cfg, n)
    requires n'.chain == n.chain && n'.base == n.base && |n.l1| <= |n'.l1| && n'.l1[..|n.l1|] == n.l1
    ensures ChainComposed(cfg, n')
  {
    hide Composed;
    forall i | n.base < i < |n.chain| ensures Composed(cfg, n'.l1, n.chain[i]) {
      assert Placed(cfg, n.l1, n.chain[i]);
      assert n'.l1[n.chain[i].epoch.number] == n'.l1[..|n.l1|][n.chain[i].epoch.number];
      ComposedStays(cfg, n.l1, n'.l1, n.chain[i]);
    }
  }

  lemma PullKeepsComposed(cfg: Config, n: Node, read: ChannelRead, hash: Hash)
    requires Inv(cfg, n) && ChainComposed(cfg, n) && Fair(cfg, n, Pull(read, hash)) && Step(cfg, n, Pull(read, hash)).Some?
    ensures ChainComposed(cfg, Step(cfg, n, Pull(read, hash)).value)
  {
    hide Composed, PullStep, Inv, TryNext, RawsIn;
    WellDefined(cfg, n);
    PullComposes(cfg, n, read, hash);
    var n' := PullStep(cfg, n, read, hash).value;
    forall i | n'.base < i < |n'.chain| ensures Composed(cfg, n'.l1, n'.chain[i]) {
      if i < |n.chain| && |n'.chain| > |n.chain| {
        assert n'.chain[i] == n'.chain[..|n.chain|][i];
      }
    }
  }

  lemma StepComposed(cfg: Config, n: Node, e: Event)
    requires Inv(cfg, n) && ChainComposed(cfg, n) && Fair(cfg, n, e) && Step(cfg, n, e).Some?
    ensures ChainComposed(cfg, Step(cfg, n, e).value)
  {
    hide ChainComposed, PullStep;
    match e
    case L1Reorg(l1) => ReorgComposed(cfg, n, l1);
    case Pull(read, hash) => PullKeepsComposed(cfg, n, read, hash);
    case L1Extends(info) =>
      var n' := Step(cfg, n, e).value;
      assert n'.l1[..|n.l1|] == n.l1;
      GrownComposed(cfg, n, n');
    case _ =>
      var n' := Step(cfg, n, e).value;
      assert n'.l1[..|n.l1|] == n.l1;
      GrownComposed(cfg, n, n');
  }

  /**
   In every state of every fair run, reorgs included, each derived block of the safe chain is
   composed as its origin on the present L1 chain, its time and its place in the epoch call for.
   */
  lemma {:induction false} BlocksComposed(cfg: Config, n: Node, events: seq<Event>)
    requires Init(cfg, n) && FairRun(cfg, n, events) && Run(cfg, n, events).Some?
    ensures ChainComposed(cfg, Run(cfg, n, events).value)
    decreases |events|
  {
    hide Inv, Fair, Step, ChainComposed, Init;
    if events == [] {
      StartComposed(cfg, n);
    } else {
      var init := events[..|events| - 1];
      BlocksComposed(cfg, n, init);
      RunKeeps(cfg, n, init);
      StepComposed(cfg, Run(cfg, n, init).value, events[|events| - 1]);
    }
  }

  lemma StartComposed(cfg: Config, n: Node)
    requires Init(cfg, n)
    ensures ChainComposed(cfg, n)
  {
  }
}
