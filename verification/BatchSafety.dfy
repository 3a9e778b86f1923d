/**
 What every block that the batch queue emits satisfies: it is the next block of the safe
 chain, its L1 origin is known and never goes back, and it is not older than its origin.
 */
module BatchSafety {
  import opened Base
  import opened Types
  import opened SpanBlocks
  import opened DerivationState
  import opened BatchQueue

  /** An L2 block whose timestamp is the one its number calls for. */
  ghost predicate Regular(cfg: Config, head: BlockInfo) {
    && head.number >= cfg.genesisNumber
    && head.timestamp == cfg.genesisTime + (head.number - cfg.genesisNumber) * cfg.blocktime
  }

  /** The derivation's caches describe the L1 chain and the safe head. */
  ghost predicate Anchored(cfg: Config, s: StateView, l1: seq<L1Info>, lo: nat, next: nat) {
    && ValidConfig(cfg) && ValidL1(l1) && Window(s, l1, lo, next)
    && lo <= s.safeEpoch.number < |l1| && s.safeEpoch == EpochOf(l1[s.safeEpoch.number])
    && Regular(cfg, s.safeHead)
    && s.safeEpoch.timestamp <= s.safeHead.timestamp
    && (s.safeHead.number in s.l2Refs ==> s.l2Refs[s.safeHead.number] == (s.safeHead, s.safeEpoch))
  }

  /** L1 blocks below this may become origins: those delivered, and the safe epoch itself. */
  function OriginBound(s: StateView, next: nat): nat {
    if next <= s.safeEpoch.number then s.safeEpoch.number + 1 else next
  }

  /** A block that may come right after a block with the given timestamp and origin. */
  ghost predicate Follows(cfg: Config, l1: seq<L1Info>, next: nat, timestamp: nat, epoch: nat, input: BlockInput)
    requires next <= |l1|
  {
    && input.timestamp == timestamp + cfg.blocktime
    && epoch <= input.epoch < next
    && l1[input.epoch].blockInfo.timestamp <= input.timestamp
  }

  /** Blocks that follow one another, each with its predecessor's origin or the next one. */
  ghost predicate Chained(cfg: Config, l1: seq<L1Info>, next: nat, timestamp: nat, epoch: nat, inputs: seq<BlockInput>)
    requires next <= |l1|
    decreases |inputs|
  {
    inputs == [] || (
      && Follows(cfg, l1, next, timestamp, epoch, inputs[0])
      && inputs[0].epoch <= epoch + 1
      && Chained(cfg, l1, next, inputs[0].timestamp, inputs[0].epoch, inputs[1..]))
  }

  /** New L1 blocks do not disturb the blocks already waiting. */
  lemma {:induction false} ChainedExtends(
    cfg: Config, l1: seq<L1Info>, next: nat, l1': seq<L1Info>, next': nat, timestamp: nat, epoch: nat, inputs: seq<BlockInput>)
    requires next <= |l1| && next <= next' <= |l1'| && l1'[..next] == l1[..next]
    requires Chained(cfg, l1, next, timestamp, epoch, inputs)
    ensures Chained(cfg, l1', next', timestamp, epoch, inputs)
    decreases |inputs|
  {
    if inputs != [] {
      var e := inputs[0].epoch;
      assert l1'[e] == l1'[..next][e] == l1[..next][e] == l1[e];
      ChainedExtends(cfg, l1, next, l1', next', inputs[0].timestamp, e, inputs[1..]);
    }
  }

  // ------------------------------------------------------------------------- spans

  /** A span that starts on a block of the L2 schedule, after genesis. */
  ghost predicate AlignedSpan(cfg: Config, b: SpanBatch)
    requires cfg.blocktime > 0
  {
    b.relTimestamp >= cfg.blocktime && b.relTimestamp % cfg.blocktime == 0
  }

  ghost predicate Aligned(cfg: Config, b: Batch)
    requires cfg.blocktime > 0
  {
    b.Span? ==> AlignedSpan(cfg, b.span)
  }

  ghost predicate AllAligned(cfg: Config, batches: map<nat, Batch>)
    requires cfg.blocktime > 0
  {
    forall t :: t in batches ==> Aligned(cfg, batches[t])
  }

  ghost predicate ReadAligned(cfg: Config, read: ChannelRead)
    requires cfg.blocktime > 0
  {
    read.Decoded? ==> forall i :: 0 <= i < |read.batches| ==> Aligned(cfg, read.batches[i])
  }

  lemma DivOfMultiple(q: nat, d: nat)
    requires d > 0
    ensures q * d / d == q
  {
    var x := q * d;
    assert x == d * (x / d) + x % d;
    if x / d < q {
      MulMonotone(x / d + 1, q, d);
    } else if x / d > q {
      MulMonotone(q + 1, x / d, d);
    }
  }

  lemma MulMonotone(a: nat, b: nat, d: nat)
    requires a <= b
    ensures a * d <= b * d
  {
  }

  /** Looking up the timestamp of a regular block finds the entry under its number. */
  lemma LookupRegular(cfg: Config, s: StateView, head: BlockInfo)
    requires ValidConfig(cfg) && Regular(cfg, head)
    ensures s.L2InfoByTimestamp(cfg, head.timestamp)
         == if head.number in s.l2Refs then Some(s.l2Refs[head.number]) else None
  {
    DivOfMultiple(head.number - cfg.genesisNumber, cfg.blocktime);
  }

  /** How many blocks of a span that may extend the safe chain are at or below the safe head. */
  ghost function Overlap(cfg: Config, s: StateView, b: SpanBatch): (j: nat)
    requires ValidConfig(cfg) && AlignedSpan(cfg, b) && Regular(cfg, s.safeHead)
    requires StartTimestamp(cfg, b) <= NextTimestamp(cfg, s)
    ensures StartTimestamp(cfg, b) + j * cfg.blocktime == NextTimestamp(cfg, s)
  {
    var k, m := b.relTimestamp / cfg.blocktime, s.safeHead.number - cfg.genesisNumber;
    StepTimes(cfg.blocktime, m + 1);
    MultiplesOrdered(k, m + 1, cfg.blocktime);
    m + 1 - k
  }

  lemma MultiplesOrdered(k: nat, m: nat, d: nat)
    requires d > 0 && k * d <= m * d
    ensures k <= m && (m - k) * d == m * d - k * d
  {
    StepTimes(d, m + 1);
    if k > m {
      MulMonotone(m + 1, k, d);
    }
  }

  /** Of inputs in order of time, those after the safe head are a suffix. */
  lemma {:induction false} FilterIsSuffix(s: StateView, inputs: seq<BlockInput>, j: nat)
    requires j <= |inputs|
    requires forall i :: 0 <= i < |inputs| ==> (inputs[i].timestamp > s.safeHead.timestamp <==> i >= j)
    ensures FilterInputs(s, inputs) == inputs[j..]
    decreases |inputs|
  {
    if inputs != [] {
      FilterIsSuffix(s, inputs[1..], if j == 0 then 0 else j - 1);
      if j > 0 {
        assert inputs[1..][j - 1..] == inputs[j..];
      } else {
        assert [inputs[0]] + inputs[1..] == inputs;
      }
    }
  }

  /** Step i of length d is the first to end beyond a gap when i is the gap's quotient. */
  lemma AfterGap(gap: nat, d: nat, i: nat)
    requires d > 0
    ensures i * d + d > gap <==> i >= gap / d
    ensures i == gap / d ==> (i * d == gap <==> gap % d == 0)
  {
    var q := gap / d;
    assert gap == q * d + gap % d;
    if i >= q {
      MulMonotone(q, i, d);
    } else {
      MulMonotone(i + 1, q, d);
      StepTimes(d, i + 1);
    }
  }

  /** Without alignment, the new blocks of a span start at the quotient of its gap. */
  lemma FirstNewBlock(cfg: Config, s: StateView, b: SpanBatch, j: nat)
    requires ValidConfig(cfg) && ValidSpan(b)
    requires StartTimestamp(cfg, b) <= NextTimestamp(cfg, s)
    requires j == (NextTimestamp(cfg, s) - StartTimestamp(cfg, b)) / cfg.blocktime
    ensures FilterInputs(s, BlockInputs(cfg, b)) == if j <= b.blockCount then BlockInputs(cfg, b)[j..] else []
  {
    var inputs := BlockInputs(cfg, b);
    var gap := NextTimestamp(cfg, s) - StartTimestamp(cfg, b);
    forall i | 0 <= i < |inputs| ensures inputs[i].timestamp > s.safeHead.timestamp <==> i >= j {
      AfterGap(gap, cfg.blocktime, i);
    }
    FilterIsSuffix(s, inputs, if j <= |inputs| then j else |inputs|);
  }

  /** The new blocks of a span are those from the overlap on. */
  lemma NewBlocksOfSpan(cfg: Config, s: StateView, b: SpanBatch)
    requires ValidConfig(cfg) && ValidSpan(b) && AlignedSpan(cfg, b) && Regular(cfg, s.safeHead)
    requires StartTimestamp(cfg, b) <= NextTimestamp(cfg, s)
    ensures var j := Overlap(cfg, s, b);
            FilterInputs(s, BlockInputs(cfg, b)) == if j <= b.blockCount then BlockInputs(cfg, b)[j..] else []
  {
    DivOfMultiple(Overlap(cfg, s, b), cfg.blocktime);
    FirstNewBlock(cfg, s, b, Overlap(cfg, s, b));
  }

  /** What acceptance says about one block of a span. */
  lemma AcceptedBlock(cfg: Config, s: StateView, l1: seq<L1Info>, lo: nat, next: nat, b: SpanBatch, i: nat)
    requires ValidConfig(cfg) && ValidSpan(b) && Window(s, l1, lo, next)
    requires SpanStatus(cfg, s, b) == Accept && i < b.blockCount
    ensures var input := InputAt(cfg, b, i);
            && lo <= input.epoch < next && l1[input.epoch].blockInfo.timestamp <= input.timestamp
            && SpanOverlapAt(cfg, s, b, i) == Accept
  {
    SpanDriftIff(cfg, s, b, 0);
    SpanOverlapIff(cfg, s, b, 0);
    assert SpanDriftAt(cfg, s, b, i) == Accept;
    EpochByNumberExact(s, l1, lo, next, InputAt(cfg, b, i).epoch);
  }

  /** From any block of an accepted span on, the rest of the span is chained to it. */
  lemma {:induction false} SpanChained(cfg: Config, s: StateView, l1: seq<L1Info>, lo: nat, next: nat, b: SpanBatch, i: nat)
    requires ValidConfig(cfg) && ValidSpan(b) && Window(s, l1, lo, next)
    requires SpanStatus(cfg, s, b) == Accept && i < b.blockCount
    ensures var inputs := BlockInputs(cfg, b);
            Chained(cfg, l1, next, inputs[i].timestamp, inputs[i].epoch, inputs[i + 1..])
    decreases b.blockCount - i
  {
    var inputs := BlockInputs(cfg, b);
    if i + 1 < b.blockCount {
      SpanChained(cfg, s, l1, lo, next, b, i + 1);
      BlocksPartitionSpan(cfg, b);
      AcceptedBlock(cfg, s, l1, lo, next, b, i + 1);
      assert inputs[i + 1] == InputAt(cfg, b, i + 1);
      assert inputs[i + 1..][1..] == inputs[i + 2..];
    }
  }

  /**
   The first new block of an accepted span follows the safe head. When the span overlaps
   the safe chain its origin is the safe origin or the next one; when it does not, it is
   the origin the span starts with, however far ahead that is.
   */
  lemma SpanFollows(cfg: Config, s: StateView, l1: seq<L1Info>, lo: nat, next: nat, b: SpanBatch)
    requires Anchored(cfg, s, l1, lo, next) && ValidSpan(b) && AlignedSpan(cfg, b)
    requires SpanStatus(cfg, s, b) == Accept && Overlap(cfg, s, b) < b.blockCount
    ensures var j := Overlap(cfg, s, b);
            var input := BlockInputs(cfg, b)[j];
            && Follows(cfg, l1, next, s.safeHead.timestamp, s.safeEpoch.number, input)
            && (j > 0 ==> input.epoch <= s.safeEpoch.number + 1)
            && (j == 0 ==> input.epoch == StartEpochNum(b) && StartTimestamp(cfg, b) == NextTimestamp(cfg, s))
  {
    var j := Overlap(cfg, s, b);
    var inputs := BlockInputs(cfg, b);
    AcceptedBlock(cfg, s, l1, lo, next, b, j);
    BlocksPartitionSpan(cfg, b);
    LookupRegular(cfg, s, s.safeHead);
    if j > 0 {
      AcceptedBlock(cfg, s, l1, lo, next, b, j - 1);
      StepTimes(cfg.blocktime, j);
      assert inputs[j - 1].timestamp == s.safeHead.timestamp;
      assert inputs[j - 1].epoch == s.safeEpoch.number;
    } else {
      assert SubWrap(StartTimestamp(cfg, b), cfg.blocktime) == s.safeHead.timestamp;
    }
  }

  // ------------------------------------------------------------------- the emission theorem

  /** An accepted span that starts right after the safe head with a far L1 origin. */
  ghost predicate JumpingSpan(cfg: Config, s: StateView, b: Batch, epoch: nat)
    requires ValidConfig(cfg)
  {
    && b.Span? && ValidSpan(b.span)
    && SpanStatus(cfg, s, b.span) == Accept
    && StartTimestamp(cfg, b.span) == NextTimestamp(cfg, s)
    && StartEpochNum(b.span) == epoch
  }

  /** What is known of a step of the queue that leaves the given queue and outcome. */
  ghost predicate SafeStep(cfg: Config, s: StateView, l1: seq<L1Info>, next: nat, q: Queue, outcome: Outcome)
    requires ValidConfig(cfg) && next <= |l1| && s.safeEpoch.number < |l1|
  {
    && Keyed(cfg, q.batches) && AllAligned(cfg, q.batches)
    && match outcome
       case Emit(input) =>
         && Follows(cfg, l1, OriginBound(s, next), s.safeHead.timestamp, s.safeEpoch.number, input)
         && Chained(cfg, l1, next, input.timestamp, input.epoch, q.pending)
       case _ => q.pending == []
  }

  lemma AcceptedEmission(cfg: Config, s: StateView, l1: seq<L1Info>, lo: nat, next: nat, b: Batch)
    requires Anchored(cfg, s, l1, lo, next) && ValidBatch(b) && Aligned(cfg, b) && Status(cfg, s, b) == Accept
    ensures var inputs := FilterInputs(s, AsInputs(cfg, b));
            inputs != [] ==>
              && Follows(cfg, l1, OriginBound(s, next), s.safeHead.timestamp, s.safeEpoch.number, inputs[0])
              && Chained(cfg, l1, next, inputs[0].timestamp, inputs[0].epoch, inputs[1..])
              && (inputs[0].epoch > s.safeEpoch.number + 1 ==> JumpingSpan(cfg, s, b, inputs[0].epoch))
  {
    match b
    case Single(single) =>
      SingleAcceptIff(cfg, s, single);
      EpochByNumberExact(s, l1, lo, next, s.safeEpoch.number + 1);
      FilterIsSuffix(s, [SingleInput(single)], 0);
    case Span(span) =>
      NewBlocksOfSpan(cfg, s, span);
      var j := Overlap(cfg, s, span);
      if j < span.blockCount {
        SpanFollows(cfg, s, l1, lo, next, span);
        SpanChained(cfg, s, l1, lo, next, span, j);
        assert BlockInputs(cfg, span)[j..][1..] == BlockInputs(cfg, span)[j + 1..];
      }
  }

  lemma ForcedEmission(cfg: Config, s: StateView, l1: seq<L1Info>, lo: nat, next: nat)
    requires Anchored(cfg, s, l1, lo, next)
    ensures ForcedInput(cfg, s).Some? ==>
              && Follows(cfg, l1, OriginBound(s, next), s.safeHead.timestamp, s.safeEpoch.number, ForcedInput(cfg, s).value)
              && ForcedInput(cfg, s).value.epoch <= s.safeEpoch.number + 1
              && ForcedInput(cfg, s).value.transactions == []
  {
    EpochByNumberExact(s, l1, lo, next, s.safeEpoch.number + 1);
  }

  /**
   A forced empty block takes nothing from the batcher: once one is due, no single batch that
   is included in the current L1 block or later can still be accepted or wait to be.
   */
  lemma ForcedOnlyWhenExpired(cfg: Config, s: StateView, l1: seq<L1Info>, lo: nat, next: nat, b: SingleBatch)
    requires Anchored(cfg, s, l1, lo, next)
    requires ForcedInput(cfg, s).Some? && b.l1InclusionBlock >= s.currentEpochNum
    ensures SingleStatus(cfg, s, b) in {Drop, Future}
  {
    EpochByNumberExact(s, l1, lo, next, s.safeEpoch.number + 1);
  }

  lemma DeriveSafe(cfg: Config, s: StateView, l1: seq<L1Info>, lo: nat, next: nat, batches: map<nat, Batch>)
    requires Anchored(cfg, s, l1, lo, next) && Keyed(cfg, batches) && AllAligned(cfg, batches)
    ensures var (q, outcome) := Derive(cfg, s, batches);
            && SafeStep(cfg, s, l1, next, q, outcome)
            && (outcome.Emit? && outcome.input.epoch > s.safeEpoch.number + 1 ==>
                  exists t :: t in batches && JumpingSpan(cfg, s, batches[t], outcome.input.epoch))
  {
    ScanKeeps(cfg, s, batches);
    ForcedEmission(cfg, s, l1, lo, next);
    var (rest, result) := Scan(cfg, s, batches);
    if result.Accepted? {
      var b := result.batch;
      assert batches[Timestamp(cfg, b)] == b;
      AcceptedEmission(cfg, s, l1, lo, next, b);
    }
  }

  /**
   Whatever channel arrives, a block that the queue emits (pending, from a single batch,
   from a span or forced empty) is exactly one block time after the safe head, its L1
   origin is not before the safe epoch, and it is not older than its origin. The blocks
   left pending are chained to it.
   */
  lemma TryNextSafe(cfg: Config, s: StateView, l1: seq<L1Info>, lo: nat, next: nat, q: Queue, read: ChannelRead)
    requires Anchored(cfg, s, l1, lo, next)
    requires Keyed(cfg, q.batches) && AllAligned(cfg, q.batches)
    requires ValidRead(read) && ReadAligned(cfg, read)
    requires Chained(cfg, l1, next, s.safeHead.timestamp, s.safeEpoch.number, q.pending)
    ensures var (q', outcome) := TryNext(cfg, s, q, read);
            SafeStep(cfg, s, l1, next, q', outcome)
  {
    if q.pending == [] && !read.Undecodable? {
      var batches := if read.Decoded? then Insert(cfg, q.batches, read.batches) else q.batches;
      if read.Decoded? {
        InsertKeeps(cfg, q.batches, read.batches);
      }
      DeriveSafe(cfg, s, l1, lo, next, batches);
    }
  }

  /**
   An emitted origin skips an L1 block only when a span that does not overlap the safe
   chain is accepted with a start epoch more than one above the safe epoch.
   */
  lemma EpochJumpsOnlyBySpan(cfg: Config, s: StateView, l1: seq<L1Info>, lo: nat, next: nat, q: Queue, read: ChannelRead)
    requires Anchored(cfg, s, l1, lo, next)
    requires Keyed(cfg, q.batches) && AllAligned(cfg, q.batches)
    requires ValidRead(read) && ReadAligned(cfg, read)
    requires Chained(cfg, l1, next, s.safeHead.timestamp, s.safeEpoch.number, q.pending)
    ensures var outcome := TryNext(cfg, s, q, read).1;
            outcome.Emit? && outcome.input.epoch > s.safeEpoch.number + 1 ==>
              && q.pending == []
              && exists b :: JumpingSpan(cfg, s, b, outcome.input.epoch)
                          && (b in q.batches.Values || (read.Decoded? && b in read.batches))
  {
    if q.pending == [] && !read.Undecodable? {
      var batches := if read.Decoded? then Insert(cfg, q.batches, read.batches) else q.batches;
      if read.Decoded? {
        InsertKeeps(cfg, q.batches, read.batches);
      }
      DeriveSafe(cfg, s, l1, lo, next, batches);
      var outcome := TryNext(cfg, s, q, read).1;
      if outcome.Emit? && outcome.input.epoch > s.safeEpoch.number + 1 {
        var t :| t in batches && JumpingSpan(cfg, s, batches[t], outcome.input.epoch);
        assert batches[t] in q.batches.Values || (read.Decoded? && batches[t] in read.batches);
      }
    }
  }

  /**
   The origin of an emitted block can be resolved exactly when its L1 block has been
   delivered; once the safe epoch's own block has been, that is always the case.
   */
  lemma OriginResolvedIff(cfg: Config, s: StateView, l1: seq<L1Info>, lo: nat, next: nat, input: BlockInput)
    requires Anchored(cfg, s, l1, lo, next)
    requires Follows(cfg, l1, OriginBound(s, next), s.safeHead.timestamp, s.safeEpoch.number, input)
    ensures s.EpochByNumber(input.epoch) == if input.epoch < next then Some(EpochOf(l1[input.epoch])) else None
    ensures s.safeEpoch.number < next ==> input.epoch < next
  {
    EpochByNumberExact(s, l1, lo, next, input.epoch);
  }

  /**
   Alignment is what makes spans step exactly: the first new block of a span that reaches
   back to the safe head is one block time after it if and only if the span starts a whole
   number of block times before that.
   */
  lemma SpanStepsIffAligned(cfg: Config, s: StateView, b: SpanBatch)
    requires ValidConfig(cfg) && ValidSpan(b)
    requires StartTimestamp(cfg, b) <= NextTimestamp(cfg, s)
    requires FilterInputs(s, BlockInputs(cfg, b)) != []
    ensures FilterInputs(s, BlockInputs(cfg, b))[0].timestamp == NextTimestamp(cfg, s)
            <==> (NextTimestamp(cfg, s) - StartTimestamp(cfg, b)) % cfg.blocktime == 0
  {
    var gap := NextTimestamp(cfg, s) - StartTimestamp(cfg, b);
    var j := gap / cfg.blocktime;
    FirstNewBlock(cfg, s, b, j);
    AfterGap(gap, cfg.blocktime, j);
    assert FilterInputs(s, BlockInputs(cfg, b))[0] == InputAt(cfg, b, j);
  }
}
