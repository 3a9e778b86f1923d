/** The blocks, batches and transactions that the stages of the node pass on. */
module Types {
  import opened Base

  /** A serialized transaction, as a batch carries it. */
  type RawTransaction = Bytes

  datatype SystemConfig = SystemConfig(
    batchSender: Bytes,
    gasLimit: nat,
    l1FeeOverhead: nat,
    l1FeeScalar: nat,
    unsafeBlockSigner: Bytes)

  /** The batch sender as a 32-byte word. */
  function BatcherHash(config: SystemConfig): Bytes { [0, 0, 0, 0, 0, 0, 0, 0, 0, 0, 0, 0] + config.batchSender }

  /** A deposit event of the L1 deposit contract; content stands for its remaining fields. */
  datatype UserDeposited = UserDeposited(l1BlockNum: nat, logIndex: nat, content: Bytes)

  datatype L1BlockInfo = L1BlockInfo(number: nat, hash: Hash, timestamp: nat, baseFee: nat, mixHash: Hash)

  datatype L1Info = L1Info(blockInfo: L1BlockInfo, systemConfig: SystemConfig, userDeposits: seq<UserDeposited>)

  function EpochOf(info: L1Info): Epoch {
    Epoch(info.blockInfo.number, info.blockInfo.hash, info.blockInfo.timestamp)
  }

  /** The L1 chain as the watcher reports it: block i has number i, hashes are distinct. */
  ghost predicate ValidL1(l1: seq<L1Info>) {
    && (forall i :: 0 <= i < |l1| ==> l1[i].blockInfo.number == i)
    && (forall i, j :: 0 <= i < j < |l1| ==> l1[i].blockInfo.hash != l1[j].blockInfo.hash)
  }

  /** One L2 block to derive, with its L1 origin given by number. */
  datatype BlockInput = BlockInput(timestamp: nat, epoch: nat, transactions: seq<RawTransaction>, l1InclusionBlock: nat)

  datatype SingleBatch = SingleBatch(
    parentHash: Hash,
    epochNum: nat,
    epochHash: Hash,
    timestamp: nat,
    transactions: seq<RawTransaction>,
    l1InclusionBlock: nat)

  datatype SpanBatch = SpanBatch(
    relTimestamp: nat,
    l1OriginNum: nat,
    parentCheck: Bytes,
    l1OriginCheck: Bytes,
    blockCount: nat,
    originBits: seq<bool>,
    blockTxCounts: seq<nat>,
    transactions: seq<RawTransaction>,
    l1InclusionBlock: nat)

  datatype Batch = Single(single: SingleBatch) | Span(span: SpanBatch)

  /** The values the node writes into the first transaction of every L2 block. */
  datatype AttributesDeposited = AttributesDeposited(
    number: nat,
    timestamp: nat,
    baseFee: nat,
    hash: Hash,
    sequenceNumber: nat,
    batcherHash: Bytes,
    feeOverhead: nat,
    feeScalar: nat,
    gas: nat,
    isSystemTx: bool)

  /**
   A transaction of an L2 block. Serialization and hashing are injective, so a transaction
   stands for its serialized form and for its hash.
   */
  datatype Transaction =
    | AttributesTx(attributes: AttributesDeposited)
    | DepositTx(deposit: UserDeposited)
    | UpgradeTx(index: nat)
    | BatchTx(raw: RawTransaction)

  /** What the derivation asks the execution engine to build. */
  datatype PayloadAttributes = PayloadAttributes(
    timestamp: nat,
    prevRandao: Hash,
    suggestedFeeRecipient: Bytes,
    transactions: seq<Transaction>,
    noTxPool: bool,
    gasLimit: nat,
    withdrawals: Option<seq<()>>,
    epoch: Epoch,
    l1InclusionBlock: nat,
    seqNumber: nat)
}
