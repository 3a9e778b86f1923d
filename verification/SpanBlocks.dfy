/** The L2 blocks of a span batch (src/derive/stages/span_batch.rs). */
module SpanBlocks {
  import opened Base
  import opened Types

  function CountTrue(bits: seq<bool>): (n: nat)
    ensures n <= |bits|
  {
    if bits == [] then 0 else CountTrue(bits[..|bits| - 1]) + if bits[|bits| - 1] then 1 else 0
  }

  function Sum(counts: seq<nat>): nat {
    if counts == [] then 0 else Sum(counts[..|counts| - 1]) + counts[|counts| - 1]
  }

  /** What decoding guarantees of a span batch. */
  ghost predicate SizedSpan(b: SpanBatch) {
    b.blockCount == |b.originBits| == |b.blockTxCounts| && Sum(b.blockTxCounts) == |b.transactions|
  }

  /** A span with blocks, of which the first has an L1 origin. */
  ghost predicate ValidSpan(b: SpanBatch) {
    SizedSpan(b) && 0 < b.blockCount && 0 <= StartEpochNum(b)
  }

  /**
   Number of the L1 origin of the block before the span, if the span extends it; one below
   zero, which the source wraps around, for a span that starts with L1 block 0.
   */
  function InitEpochNum(b: SpanBatch): int { b.l1OriginNum - CountTrue(b.originBits) }

  function StartEpochNum(b: SpanBatch): int
    requires 0 < |b.originBits|
  {
    InitEpochNum(b) + if b.originBits[0] then 1 else 0
  }

  function StartTimestamp(cfg: Config, b: SpanBatch): nat { b.relTimestamp + cfg.genesisTime }

  lemma {:induction false} CountTruePrefix(bits: seq<bool>, i: nat, j: nat)
    requires i <= j <= |bits|
    ensures CountTrue(bits[..i]) <= CountTrue(bits[..j]) <= CountTrue(bits[..i]) + (j - i)
    decreases j
  {
    if i < j {
      CountTruePrefix(bits, i, j - 1);
      assert bits[..j][..j - 1] == bits[..j - 1];
    }
  }

  lemma FirstCount(bits: seq<bool>, i: nat)
    requires 0 < i <= |bits|
    ensures CountTrue(bits[..i]) >= if bits[0] then 1 else 0
  {
    CountTruePrefix(bits, 1, i);
    assert bits[..1][..0] == [];
  }

  lemma {:induction false} SumPrefix(counts: seq<nat>, i: nat, j: nat)
    requires i <= j <= |counts|
    ensures Sum(counts[..i]) <= Sum(counts[..j])
    decreases j
  {
    if i < j {
      SumPrefix(counts, i, j - 1);
      assert counts[..j][..j - 1] == counts[..j - 1];
    }
  }

  /** Block i of the span. */
  ghost function InputAt(cfg: Config, b: SpanBatch, i: nat): BlockInput
    requires ValidSpan(b) && i < b.blockCount
  {
    FirstCount(b.originBits, i + 1);
    SumPrefix(b.blockTxCounts, i, i + 1);
    SumPrefix(b.blockTxCounts, i + 1, |b.blockTxCounts|);
    assert b.blockTxCounts[..|b.blockTxCounts|] == b.blockTxCounts;
    BlockInput(
      StartTimestamp(cfg, b) + i * cfg.blocktime,
      InitEpochNum(b) + CountTrue(b.originBits[..i + 1]),
      b.transactions[Sum(b.blockTxCounts[..i])..Sum(b.blockTxCounts[..i + 1])],
      b.l1InclusionBlock)
  }

  ghost function BlockInputs(cfg: Config, b: SpanBatch): (inputs: seq<BlockInput>)
    requires ValidSpan(b)
  {
    seq(b.blockCount, i requires 0 <= i < b.blockCount => InputAt(cfg, b, i))
  }

  /** What the counters of the loop over the blocks are before and after block i. */
  lemma InputStep(cfg: Config, b: SpanBatch, i: nat)
    requires ValidSpan(b) && i < b.blockCount
    ensures CountTrue(b.originBits[..i + 1]) == CountTrue(b.originBits[..i]) + if b.originBits[i] then 1 else 0
    ensures Sum(b.blockTxCounts[..i + 1]) == Sum(b.blockTxCounts[..i]) + b.blockTxCounts[i] <= |b.transactions|
    ensures InitEpochNum(b) + CountTrue(b.originBits[..i + 1]) >= 0
    ensures BlockInputs(cfg, b)[i] == InputAt(cfg, b, i)
  {
    assert b.originBits[..i + 1][..i] == b.originBits[..i];
    assert b.blockTxCounts[..i + 1][..i] == b.blockTxCounts[..i];
    FirstCount(b.originBits, i + 1);
    SumPrefix(b.blockTxCounts, i + 1, |b.blockTxCounts|);
    assert b.blockTxCounts[..|b.blockTxCounts|] == b.blockTxCounts;
  }

  method ComputeBlockInputs(cfg: Config, b: SpanBatch) returns (inputs: seq<BlockInput>)
    requires ValidSpan(b)
    ensures inputs == BlockInputs(cfg, b)
  {
    var epochNum: int := InitEpochNum(b);
    var txIndex := 0;
    inputs := [];
    for i := 0 to b.blockCount
      invariant inputs == BlockInputs(cfg, b)[..i]
      invariant epochNum == InitEpochNum(b) + CountTrue(b.originBits[..i])
      invariant txIndex == Sum(b.blockTxCounts[..i])
    {
      InputStep(cfg, b, i);
      if b.originBits[i] {
        epochNum := epochNum + 1;
      }
      var transactions := b.transactions[txIndex..txIndex + b.blockTxCounts[i]];
      txIndex := txIndex + b.blockTxCounts[i];
      var timestamp := b.relTimestamp + cfg.genesisTime + i * cfg.blocktime;
      inputs := inputs + [BlockInput(timestamp, epochNum, transactions, b.l1InclusionBlock)];
    }
  }

  ghost function AllTransactions(inputs: seq<BlockInput>): seq<RawTransaction> {
    if inputs == [] then [] else AllTransactions(inputs[..|inputs| - 1]) + inputs[|inputs| - 1].transactions
  }

  lemma {:induction false} TransactionsOfPrefix(cfg: Config, b: SpanBatch, i: nat)
    requires ValidSpan(b) && i <= b.blockCount
    ensures Sum(b.blockTxCounts[..i]) <= |b.transactions|
    ensures AllTransactions(BlockInputs(cfg, b)[..i]) == b.transactions[..Sum(b.blockTxCounts[..i])]
  {
    hide CountTrue;
    SumPrefix(b.blockTxCounts, i, |b.blockTxCounts|);
    assert b.blockTxCounts[..|b.blockTxCounts|] == b.blockTxCounts;
    if i > 0 {
      TransactionsOfPrefix(cfg, b, i - 1);
      var inputs := BlockInputs(cfg, b);
      assert inputs[..i][..i - 1] == inputs[..i - 1];
      assert inputs[i - 1] == InputAt(cfg, b, i - 1);
      SumPrefix(b.blockTxCounts, i - 1, i);
    }
  }

  /**
   The blocks of a span partition it: their transactions, in order, are all of the span's;
   timestamps step by the block time; origins step by the origin bits from the start epoch
   to the span's L1 origin.
   */
  lemma BlocksPartitionSpan(cfg: Config, b: SpanBatch)
    requires ValidSpan(b)
    ensures var inputs := BlockInputs(cfg, b);
            && |inputs| == b.blockCount
            && AllTransactions(inputs) == b.transactions
            && inputs[0].timestamp == StartTimestamp(cfg, b)
            && inputs[0].epoch == StartEpochNum(b)
            && inputs[|inputs| - 1].epoch == b.l1OriginNum
            && (forall i :: 0 < i < |inputs| ==>
                  && inputs[i].timestamp == inputs[i - 1].timestamp + cfg.blocktime
                  && inputs[i].epoch == inputs[i - 1].epoch + if b.originBits[i] then 1 else 0)
  {
    var inputs := BlockInputs(cfg, b);
    TransactionsOfPrefix(cfg, b, b.blockCount);
    assert inputs[..b.blockCount] == inputs;
    assert b.blockTxCounts[..b.blockCount] == b.blockTxCounts;
    assert b.originBits[..b.blockCount] == b.originBits;
    assert b.originBits[..1][..0] == [];
    forall i | 0 < i < |inputs|
      ensures inputs[i].timestamp == inputs[i - 1].timestamp + cfg.blocktime
      ensures inputs[i].epoch == inputs[i - 1].epoch + if b.originBits[i] then 1 else 0
    {
      NextInput(cfg, b, i);
    }
  }

  /** Each block gets as many transactions as its count says, and the span's inclusion block. */
  lemma BlockSizes(cfg: Config, b: SpanBatch, i: nat)
    requires ValidSpan(b) && i < b.blockCount
    ensures |InputAt(cfg, b, i).transactions| == b.blockTxCounts[i]
    ensures InputAt(cfg, b, i).l1InclusionBlock == b.l1InclusionBlock
  {
    InputStep(cfg, b, i);
  }

  lemma NextInput(cfg: Config, b: SpanBatch, i: nat)
    requires ValidSpan(b) && 0 < i < b.blockCount
    ensures InputAt(cfg, b, i).timestamp == InputAt(cfg, b, i - 1).timestamp + cfg.blocktime
    ensures InputAt(cfg, b, i).epoch == InputAt(cfg, b, i - 1).epoch + if b.originBits[i] then 1 else 0
  {
    assert b.originBits[..i + 1][..i] == b.originBits[..i];
    StepTimes(cfg.blocktime, i);
  }

  lemma StepTimes(d: nat, i: nat)
    requires i > 0
    ensures i * d == (i - 1) * d + d
  {
  }

  /** Origins never go back within a span and end at the span's L1 origin. */
  lemma EpochsMonotone(cfg: Config, b: SpanBatch, i: nat, j: nat)
    requires ValidSpan(b) && i <= j < b.blockCount
    ensures InputAt(cfg, b, i).epoch <= InputAt(cfg, b, j).epoch <= b.l1OriginNum
    ensures StartEpochNum(b) <= InputAt(cfg, b, i).epoch
  {
    CountTruePrefix(b.originBits, i + 1, j + 1);
    CountTruePrefix(b.originBits, j + 1, b.blockCount);
    CountTruePrefix(b.originBits, 1, i + 1);
    assert b.originBits[..b.blockCount] == b.originBits;
    assert b.originBits[..1][..0] == [];
  }
}
