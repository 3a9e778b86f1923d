/** Payload attributes of derived blocks (src/derive/stages/attributes.rs). */
module Attributes {
  import opened Base
  import opened Types
  import opened DerivationState
  import opened BatchQueue

  const FEE_VAULT: Bytes := [0x42, 0, 0, 0, 0, 0, 0, 0, 0, 0, 0, 0, 0, 0, 0, 0, 0, 0, 0, 0x11]

  const UPGRADE_TRANSACTIONS: seq<Transaction> :=
    [UpgradeTx(0), UpgradeTx(1), UpgradeTx(2), UpgradeTx(3), UpgradeTx(4), UpgradeTx(5)]

  /** The stages of the pipeline that keep state: the batch queue and the sequence number. */
  datatype Pipeline = Pipeline(queue: Queue, sequenceNumber: nat, epochHash: Hash)

  datatype PipelineOutcome = Attrs(attributes: PayloadAttributes) | NoAttributes | PipelineAbort

  /** Position of the next block in its epoch: zero when its origin differs from the last. */
  function NextSequence(sequenceNumber: nat, epochHash: Hash, batchEpochHash: Hash): nat {
    if epochHash != batchEpochHash then 0 else sequenceNumber + 1
  }

  function FromBlockInfo(cfg: Config, info: L1Info, sequenceNumber: nat, timestamp: nat): AttributesDeposited {
    var isRegolith := timestamp >= cfg.regolithTime;
    AttributesDeposited(
      info.blockInfo.number, info.blockInfo.timestamp, info.blockInfo.baseFee, info.blockInfo.hash, sequenceNumber,
      BatcherHash(info.systemConfig), info.systemConfig.l1FeeOverhead, info.systemConfig.l1FeeScalar,
      if isRegolith then 1_000_000 else 150_000_000, !isRegolith)
  }

  function DepositTxs(deposits: seq<UserDeposited>): seq<Transaction> {
    seq(|deposits|, i requires 0 <= i < |deposits| => DepositTx(deposits[i]))
  }

  function BatchTxs(raw: seq<RawTransaction>): seq<Transaction> {
    seq(|raw|, i requires 0 <= i < |raw| => BatchTx(raw[i]))
  }

  /** The deposits of the block the stage takes its epoch hash from; none if it is unknown. */
  function UserDeposits(s: StateView, epochHash: Hash): seq<UserDeposited> {
    match s.L1InfoByHash(epochHash)
    case Some(info) => info.userDeposits
    case None => []
  }

  function DeriveTransactions(cfg: Config, s: StateView, input: BlockInput, info: L1Info, sequenceNumber: nat, epochHash: Hash)
    : seq<Transaction>
  {
    [AttributesTx(FromBlockInfo(cfg, info, sequenceNumber, input.timestamp))]
    + (if sequenceNumber == 0 then DepositTxs(UserDeposits(s, epochHash)) else [])
    + (if input.timestamp == cfg.ecotoneTime then UPGRADE_TRANSACTIONS else [])
    + BatchTxs(input.transactions)
  }

  function AttributesOf(cfg: Config, s: StateView, input: BlockInput, epoch: Epoch, info: L1Info, sequenceNumber: nat): PayloadAttributes {
    PayloadAttributes(
      input.timestamp, info.blockInfo.mixHash, FEE_VAULT,
      DeriveTransactions(cfg, s, input, info, sequenceNumber, epoch.hash),
      true, info.systemConfig.gasLimit,
      if input.timestamp >= cfg.canyonTime then Some([]) else None,
      epoch, input.l1InclusionBlock, sequenceNumber)
  }

  /** One pull of the pipeline. An origin that cannot be looked up aborts the process. */
  ghost function NextAttributes(cfg: Config, s: StateView, p: Pipeline, read: ChannelRead): (Pipeline, PipelineOutcome)
    requires ValidConfig(cfg) && Keyed(cfg, p.queue.batches) && ValidRead(read)
  {
    var (queue, outcome) := TryNext(cfg, s, p.queue, read);
    match outcome
    case Idle => (p.(queue := queue), NoAttributes)
    case Abort => (p.(queue := queue), PipelineAbort)
    case Emit(input) =>
      match s.EpochByNumber(input.epoch)
      case None => (p.(queue := queue), PipelineAbort)
      case Some(epoch) =>
        var sequenceNumber := NextSequence(p.sequenceNumber, p.epochHash, epoch.hash);
        var p' := Pipeline(queue, sequenceNumber, epoch.hash);
        match s.L1InfoByHash(epoch.hash)
        case None => (p', PipelineAbort)
        case Some(info) => (p', Attrs(AttributesOf(cfg, s, input, epoch, info, sequenceNumber)))
  }

  /** The deposits among some transactions, in order. */
  function DepositsIn(txs: seq<Transaction>): seq<UserDeposited> {
    if txs == [] then []
    else DepositsIn(txs[..|txs| - 1]) + if txs[|txs| - 1].DepositTx? then [txs[|txs| - 1].deposit] else []
  }

  lemma {:induction false} DepositsInConcat(a: seq<Transaction>, b: seq<Transaction>)
    ensures DepositsIn(a + b) == DepositsIn(a) + DepositsIn(b)
    decreases |b|
  {
    if b == [] {
      assert a + b == a;
    } else {
      assert (a + b)[..|a + b| - 1] == a + b[..|b| - 1];
      DepositsInConcat(a, b[..|b| - 1]);
    }
  }

  lemma {:induction false} DepositsInDepositTxs(deposits: seq<UserDeposited>)
    ensures DepositsIn(DepositTxs(deposits)) == deposits
    decreases |deposits|
  {
    if deposits != [] {
      var n := |deposits| - 1;
      assert DepositTxs(deposits)[..n] == DepositTxs(deposits[..n]);
      DepositsInDepositTxs(deposits[..n]);
    }
  }

  lemma {:induction false} NoDepositsIn(txs: seq<Transaction>)
    requires forall i :: 0 <= i < |txs| ==> !txs[i].DepositTx?
    ensures DepositsIn(txs) == []
    decreases |txs|
  {
    if txs != [] {
      NoDepositsIn(txs[..|txs| - 1]);
    }
  }

  /** A derived block carries its origin's deposits exactly when it is the first of its epoch. */
  lemma DepositsOfBlock(cfg: Config, s: StateView, input: BlockInput, epoch: Epoch, info: L1Info, sequenceNumber: nat)
    ensures DepositsIn(AttributesOf(cfg, s, input, epoch, info, sequenceNumber).transactions)
         == if sequenceNumber == 0 then UserDeposits(s, epoch.hash) else []
  {
    var first := [AttributesTx(FromBlockInfo(cfg, info, sequenceNumber, input.timestamp))];
    var deposits := if sequenceNumber == 0 then DepositTxs(UserDeposits(s, epoch.hash)) else [];
    var upgrades := if input.timestamp == cfg.ecotoneTime then UPGRADE_TRANSACTIONS else [];
    var rest := BatchTxs(input.transactions);
    DepositsInConcat(first + deposits + upgrades, rest);
    DepositsInConcat(first + deposits, upgrades);
    DepositsInConcat(first, deposits);
    DepositsInDepositTxs(UserDeposits(s, epoch.hash));
    NoDepositsIn(first);
    NoDepositsIn(upgrades);
    NoDepositsIn(rest);
  }

  class AttributesStage {
    const batches: Batches
    const state: State
    const cfg: Config
    var sequenceNumber: nat
    var epochHash: Hash

    ghost predicate Valid()
      reads this, batches
    {
      batches.Valid() && batches.state == state && batches.cfg == cfg
    }

    function View(): Pipeline
      reads this, batches
    {
      Pipeline(batches.Contents(), sequenceNumber, epochHash)
    }

    constructor (batches: Batches, sequenceNumber: nat)
      requires batches.Valid()
      ensures Valid() && this.batches == batches && state == batches.state && cfg == batches.cfg
      ensures View() == Pipeline(batches.Contents(), sequenceNumber, state.safeEpoch.hash)
    {
      this.batches, this.state, this.cfg := batches, batches.state, batches.cfg;
      this.sequenceNumber := sequenceNumber;
      epochHash := batches.state.safeEpoch.hash;
    }

    /** Empties the queue and restarts counting at the safe epoch of the state, purged before. */
    method Purge()
      requires Valid()
      modifies this, batches
      ensures Valid() && View() == Pipeline(Queue(map[], []), 0, state.safeEpoch.hash)
    {
      batches.Purge();
      sequenceNumber := 0;
      epochHash := state.safeEpoch.hash;
    }

    method UpdateSequenceNumber(batchEpochHash: Hash)
      modifies this
      ensures sequenceNumber == NextSequence(old(sequenceNumber), old(epochHash), batchEpochHash)
      ensures epochHash == batchEpochHash
    {
      if epochHash != batchEpochHash {
        sequenceNumber := 0;
      } else {
        sequenceNumber := sequenceNumber + 1;
      }
      epochHash := batchEpochHash;
    }

    method Next(read: ChannelRead) returns (outcome: PipelineOutcome)
      requires Valid() && ValidRead(read)
      modifies this, batches
      ensures Valid() && (View(), outcome) == NextAttributes(cfg, state.View(), old(View()), read)
    {
      var next := batches.Next(read);
      match next
      case Idle =>
        return NoAttributes;
      case Abort =>
        return PipelineAbort;
      case Emit(input) =>
        var epoch := state.View().EpochByNumber(input.epoch);
        if epoch == None {
          return PipelineAbort;
        }
        UpdateSequenceNumber(epoch.value.hash);
        var info := state.View().L1InfoByHash(epoch.value.hash);
        if info == None {
          return PipelineAbort;
        }
        return Attrs(AttributesOf(cfg, state.View(), input, epoch.value, info.value, sequenceNumber));
    }
  }
}
