/** Validity of batches and the queue that turns them into blocks (src/derive/stages/batches.rs). */
module BatchQueue {
  import opened Base
  import opened Types
  import opened SpanBlocks
  import opened DerivationState

  /**
   Crash stands for a panic, which ends the process: a span without blocks has no first origin
   bit, and a forgotten L1 block cannot be looked up.
   */
  datatype BatchStatus = Drop | Accept | Undecided | Future | Crash

  /** A batch as decoding gives it. */
  ghost predicate ValidBatch(b: Batch) { b.Span? ==> SizedSpan(b.span) }

  ghost predicate HasBlocks(b: Batch) { b.Span? ==> ValidSpan(b.span) }

  predicate EmptySpan(b: Batch) { b.Span? && b.span.blockCount == 0 }

  function Timestamp(cfg: Config, b: Batch): nat {
    match b
    case Single(single) => single.timestamp
    case Span(span) => StartTimestamp(cfg, span)
  }

  ghost function AsInputs(cfg: Config, b: Batch): seq<BlockInput>
    requires HasBlocks(b)
  {
    match b
    case Single(single) => [SingleInput(single)]
    case Span(span) => BlockInputs(cfg, span)
  }

  function SingleInput(b: SingleBatch): BlockInput {
    BlockInput(b.timestamp, b.epochNum, b.transactions, b.l1InclusionBlock)
  }

  // -------------------------------------------------------------------- single batches

  const DEPOSIT_TX_TYPE: Byte := 0x7E

  predicate HasInvalidTransactions(txs: seq<RawTransaction>) {
    exists i :: 0 <= i < |txs| && (txs[i] == [] || txs[i][0] == DEPOSIT_TX_TYPE)
  }

  function NextTimestamp(cfg: Config, s: StateView): nat { s.safeHead.timestamp + cfg.blocktime }

  function SingleStatus(cfg: Config, s: StateView, b: SingleBatch): BatchStatus {
    var epoch := s.safeEpoch;
    var nextEpoch := s.EpochByNumber(epoch.number + 1);
    if b.timestamp > NextTimestamp(cfg, s) then Future
    else if b.timestamp < NextTimestamp(cfg, s) then Drop
    else if b.parentHash != s.safeHead.hash then Drop
    else if b.epochNum + cfg.seqWindowSize < b.l1InclusionBlock then Drop
    else if b.epochNum != epoch.number && b.epochNum != epoch.number + 1 then Drop
    else
      match (if b.epochNum == epoch.number then Some(epoch) else nextEpoch)
      case None => Undecided
      case Some(origin) =>
        if b.epochHash != origin.hash then Drop
        else if b.timestamp < origin.timestamp then Drop
        else
          var drift := SingleDrift(cfg, b, epoch, nextEpoch, origin);
          if drift != Accept then drift
          else if HasInvalidTransactions(b.transactions) then Drop
          else Accept
  }

  /** The sequencer-drift rule for a single batch. */
  function SingleDrift(cfg: Config, b: SingleBatch, epoch: Epoch, nextEpoch: Option<Epoch>, origin: Epoch): BatchStatus {
    if b.timestamp <= origin.timestamp + cfg.maxSeqDrift then Accept
    else if b.transactions != [] then Drop
    else if epoch.number != b.epochNum then Accept
    else
      match nextEpoch
      case None => Undecided
      case Some(next) => if b.timestamp >= next.timestamp then Drop else Accept
  }

  // ---------------------------------------------------------------------- span batches

  /** The sequencer-drift rule for block i of a span. */
  ghost function SpanDriftAt(cfg: Config, s: StateView, b: SpanBatch, i: nat): BatchStatus
    requires ValidSpan(b) && i < b.blockCount
  {
    var input := InputAt(cfg, b, i);
    match s.EpochByNumber(input.epoch)
    case None => Crash
    case Some(epoch) =>
      if input.timestamp < epoch.timestamp then Drop
      else if input.timestamp <= epoch.timestamp + cfg.maxSeqDrift then Accept
      else if input.transactions != [] then Drop
      else if b.originBits[i] then Accept
      else
        match s.EpochByNumber(input.epoch + 1)
        case None => Undecided
        case Some(next) => if input.timestamp >= next.timestamp then Drop else Accept
  }

  /** A block of the span that the safe chain already has must have the same L1 origin. */
  ghost function SpanOverlapAt(cfg: Config, s: StateView, b: SpanBatch, i: nat): BatchStatus
    requires ValidConfig(cfg) && ValidSpan(b) && i < b.blockCount
  {
    var input := InputAt(cfg, b, i);
    if input.timestamp >= NextTimestamp(cfg, s) then Accept
    else
      match s.L2InfoByTimestamp(cfg, input.timestamp)
      case None => Drop
      case Some(known) => if input.epoch != known.1.number then Drop else Accept
  }

  /** The first objection to the blocks from..blockCount, or Accept. */
  ghost function SpanDrift(cfg: Config, s: StateView, b: SpanBatch, from: nat): BatchStatus
    requires ValidSpan(b) && from <= b.blockCount
    decreases b.blockCount - from
  {
    if from == b.blockCount then Accept
    else if SpanDriftAt(cfg, s, b, from) != Accept then SpanDriftAt(cfg, s, b, from)
    else SpanDrift(cfg, s, b, from + 1)
  }

  ghost function SpanOverlap(cfg: Config, s: StateView, b: SpanBatch, from: nat): BatchStatus
    requires ValidConfig(cfg) && ValidSpan(b) && from <= b.blockCount
    decreases b.blockCount - from
  {
    if from == b.blockCount then Accept
    else if SpanOverlapAt(cfg, s, b, from) != Accept then SpanOverlapAt(cfg, s, b, from)
    else SpanOverlap(cfg, s, b, from + 1)
  }

  function EndTimestamp(cfg: Config, b: SpanBatch): nat { StartTimestamp(cfg, b) + b.blockCount * cfg.blocktime }

  /** The cached block before the span's first block. */
  function PrevBlock(cfg: Config, s: StateView, b: SpanBatch): Option<(BlockInfo, Epoch)>
    requires ValidConfig(cfg)
  {
    s.L2InfoByTimestamp(cfg, SubWrap(StartTimestamp(cfg, b), cfg.blocktime))
  }

  /**
   The checks made before the blocks of the span are looked at, for a span that starts in the
   given epoch; Accept if none objects.
   */
  function HeaderStatus(cfg: Config, s: StateView, b: SpanBatch, start: nat): BatchStatus
    requires ValidConfig(cfg)
  {
    if EndTimestamp(cfg, b) < NextTimestamp(cfg, s) then Drop
    else if StartTimestamp(cfg, b) > NextTimestamp(cfg, s) then Future
    else
      match (if start == s.safeEpoch.number + 1 then s.EpochByNumber(s.safeEpoch.number + 1) else Some(s.safeEpoch))
      case None => Undecided
      case Some(origin) =>
        if origin.timestamp < cfg.deltaTime then Drop
        else
          match PrevBlock(cfg, s, b)
          case None => Drop
          case Some(prev) =>
            if prev.0.hash.first20 != b.parentCheck then Drop
            else if start + cfg.seqWindowSize < b.l1InclusionBlock then Drop
            else if start > prev.0.number + 1 then Drop
            else
              match s.EpochByNumber(b.l1OriginNum)
              case None => Drop
              case Some(l1Origin) =>
                if b.l1OriginCheck != l1Origin.hash.first20 then Drop
                else if start < prev.1.number then Drop
                else Accept
  }

  function SpanHeaderStatus(cfg: Config, s: StateView, b: SpanBatch): BatchStatus
    requires ValidConfig(cfg) && 0 < |b.originBits| && 0 <= StartEpochNum(b)
  {
    HeaderStatus(cfg, s, b, StartEpochNum(b))
  }

  /** The start epoch of a span with more origin bits than L1 blocks, which wraps around. */
  function WrappedStart(b: SpanBatch): int
    requires 0 < |b.originBits|
  {
    StartEpochNum(b) + U64_RANGE
  }

  /** The status of such a span: its start epoch is beyond every block, so that it is never accepted. */
  function WrappedStatus(cfg: Config, s: StateView, b: SpanBatch): BatchStatus {
    if EndTimestamp(cfg, b) < NextTimestamp(cfg, s) then Drop
    else if StartTimestamp(cfg, b) > NextTimestamp(cfg, s) then Future
    else Drop
  }

  /** It is what the checks of the header give as long as block numbers stay below the wrapped epoch. */
  lemma WrappedIsDropped(cfg: Config, s: StateView, b: SpanBatch)
    requires ValidConfig(cfg) && 0 < |b.originBits| && StartEpochNum(b) < 0 && s.safeEpoch.number + 1 < WrappedStart(b)
    requires forall k :: k in s.l2Refs ==> s.l2Refs[k].0.number + 1 < WrappedStart(b)
    ensures HeaderStatus(cfg, s, b, WrappedStart(b)) == WrappedStatus(cfg, s, b)
  {
  }

  ghost function SpanStatus(cfg: Config, s: StateView, b: SpanBatch): BatchStatus
    requires ValidConfig(cfg) && ValidSpan(b)
  {
    if SpanHeaderStatus(cfg, s, b) != Accept then SpanHeaderStatus(cfg, s, b)
    else if SpanDrift(cfg, s, b, 0) != Accept then SpanDrift(cfg, s, b, 0)
    else SpanOverlap(cfg, s, b, 0)
  }

  ghost function Status(cfg: Config, s: StateView, b: Batch): BatchStatus
    requires ValidConfig(cfg) && ValidBatch(b)
  {
    match b
    case Single(single) => SingleStatus(cfg, s, single)
    case Span(span) =>
      if span.blockCount == 0 then Crash
      else if StartEpochNum(span) < 0 then WrappedStatus(cfg, s, span)
      else SpanStatus(cfg, s, span)
  }

  // ------------------------------------------------------------------------- the queue

  datatype Queue = Queue(batches: map<nat, Batch>, pending: seq<BlockInput>)

  /** Every stored batch is well formed and stored under its own timestamp. */
  ghost predicate Keyed(cfg: Config, batches: map<nat, Batch>) {
    forall t :: t in batches ==> ValidBatch(batches[t]) && Timestamp(cfg, batches[t]) == t
  }

  /** What the channel stage hands over: nothing, a channel that does not decode, or its batches. */
  datatype ChannelRead = NoChannel | Undecodable | Decoded(batches: seq<Batch>)

  ghost predicate ValidRead(read: ChannelRead) {
    read.Decoded? ==> forall i :: 0 <= i < |read.batches| ==> ValidBatch(read.batches[i])
  }

  /** Emit a block to derive, have nothing to derive, or abort the process. */
  datatype Outcome = Emit(input: BlockInput) | Idle | Abort

  datatype ScanResult = Accepted(batch: Batch) | NoBatch | ScanAbort

  function Insert(cfg: Config, batches: map<nat, Batch>, new_: seq<Batch>): map<nat, Batch> {
    if new_ == [] then batches
    else
      var last := new_[|new_| - 1];
      Insert(cfg, batches, new_[..|new_| - 1])[Timestamp(cfg, last) := last]
  }

  ghost function FirstBatch(batches: map<nat, Batch>): (k: nat)
    requires batches != map[]
    ensures IsLeast(k, batches.Keys)
  {
    assert |batches| == |batches.Keys|;
    LeastKeyExists(batches.Keys);
    var k :| IsLeast(k, batches.Keys); k
  }

  /** Drops invalid batches from the front until one is accepted or the scan must wait. */
  ghost function Scan(cfg: Config, s: StateView, batches: map<nat, Batch>): (map<nat, Batch>, ScanResult)
    requires ValidConfig(cfg) && Keyed(cfg, batches)
    decreases |batches|
  {
    if batches == map[] then (batches, NoBatch)
    else
      var k := FirstBatch(batches);
      RemoveShrinks(batches, k);
      match Status(cfg, s, batches[k])
      case Accept => (batches - {k}, Accepted(batches[k]))
      case Drop => Scan(cfg, s, batches - {k})
      case Crash => (batches, ScanAbort)
      case _ => (batches, NoBatch)
  }

  /** An empty block, once the sequencing window of its origin has passed. */
  function ForcedInput(cfg: Config, s: StateView): Option<BlockInput> {
    match s.EpochByNumber(s.safeEpoch.number + 1)
    case None => None
    case Some(nextEpoch) =>
      if s.currentEpochNum <= s.safeEpoch.number + cfg.seqWindowSize then None
      else if NextTimestamp(cfg, s) < nextEpoch.timestamp then
        Some(BlockInput(NextTimestamp(cfg, s), s.safeEpoch.number, [], s.currentEpochNum))
      else if s.currentEpochNum > nextEpoch.number + cfg.seqWindowSize then
        Some(BlockInput(NextTimestamp(cfg, s), nextEpoch.number, [], s.currentEpochNum))
      else None
  }

  /** The inputs that are newer than the safe head. */
  function FilterInputs(s: StateView, inputs: seq<BlockInput>): seq<BlockInput> {
    if inputs == [] then []
    else (if inputs[0].timestamp > s.safeHead.timestamp then [inputs[0]] else []) + FilterInputs(s, inputs[1..])
  }

  ghost function TryNext(cfg: Config, s: StateView, q: Queue, read: ChannelRead): (Queue, Outcome)
    requires ValidConfig(cfg) && Keyed(cfg, q.batches) && ValidRead(read)
  {
    if q.pending != [] then (q.(pending := q.pending[1..]), Emit(q.pending[0]))
    else if read.Undecodable? then (q, Idle)
    else
      var batches := if read.Decoded? then Insert(cfg, q.batches, read.batches) else q.batches;
      if read.Decoded? then InsertKeeps(cfg, q.batches, read.batches); Derive(cfg, s, batches)
      else Derive(cfg, s, batches)
  }

  /** One scan of the stored batches, with nothing pending. */
  ghost function Derive(cfg: Config, s: StateView, batches: map<nat, Batch>): (Queue, Outcome)
    requires ValidConfig(cfg) && Keyed(cfg, batches)
  {
    var (rest, result) := Scan(cfg, s, batches);
    ScanKeeps(cfg, s, batches);
    match result
    case ScanAbort => (Queue(rest, []), Abort)
    case NoBatch =>
      (match ForcedInput(cfg, s)
       case Some(input) => (Queue(rest, []), Emit(input))
       case None => (Queue(rest, []), Idle))
    case Accepted(batch) =>
      var inputs := FilterInputs(s, AsInputs(cfg, batch));
      if inputs == [] then (Queue(rest, []), Idle) else (Queue(rest, inputs[1..]), Emit(inputs[0]))
  }

  lemma {:induction false} InsertKeeps(cfg: Config, batches: map<nat, Batch>, new_: seq<Batch>)
    requires Keyed(cfg, batches) && forall i :: 0 <= i < |new_| ==> ValidBatch(new_[i])
    ensures Keyed(cfg, Insert(cfg, batches, new_))
    ensures forall t :: t in Insert(cfg, batches, new_) ==>
              (t in batches && batches[t] == Insert(cfg, batches, new_)[t]) || Insert(cfg, batches, new_)[t] in new_
  {
    if new_ != [] {
      InsertKeeps(cfg, batches, new_[..|new_| - 1]);
    }
  }

  /** A batch of the list is the last with its timestamp. */
  ghost predicate IsLastAt(cfg: Config, new_: seq<Batch>, t: nat, i: nat)
    requires i < |new_|
  {
    Timestamp(cfg, new_[i]) == t && forall j :: i < j < |new_| ==> Timestamp(cfg, new_[j]) != t
  }

  /** What is stored under a timestamp that no arriving batch has stays. */
  lemma {:induction false} InsertLeaves(cfg: Config, batches: map<nat, Batch>, new_: seq<Batch>, t: nat)
    requires forall i :: 0 <= i < |new_| ==> Timestamp(cfg, new_[i]) != t
    ensures t in Insert(cfg, batches, new_) <==> t in batches
    ensures t in batches ==> Insert(cfg, batches, new_)[t] == batches[t]
    decreases |new_|
  {
    hide Timestamp;
    if new_ != [] {
      InsertLeaves(cfg, batches, new_[..|new_| - 1], t);
    }
  }

  /** Arriving batches are all stored; of those with one timestamp the last, which also replaces a stored one. */
  lemma {:induction false} InsertsLast(cfg: Config, batches: map<nat, Batch>, new_: seq<Batch>, t: nat, i: nat)
    requires i < |new_| && IsLastAt(cfg, new_, t, i)
    ensures t in Insert(cfg, batches, new_) && Insert(cfg, batches, new_)[t] == new_[i]
    decreases |new_|
  {
    hide Timestamp;
    if i < |new_| - 1 {
      assert Timestamp(cfg, new_[|new_| - 1]) != t;
      InsertsLast(cfg, batches, new_[..|new_| - 1], t, i);
    }
  }

  /**
   A scan removes only batches from the front, and only ones that no longer count: the
   accepted one is valid, and everything dropped before it is invalid for good.
   */
  lemma {:induction false} ScanKeeps(cfg: Config, s: StateView, batches: map<nat, Batch>)
    requires ValidConfig(cfg) && Keyed(cfg, batches)
    ensures var (rest, result) := Scan(cfg, s, batches);
            && Keyed(cfg, rest)
            && (forall t :: t in rest ==> t in batches && rest[t] == batches[t])
            && (result.Accepted? ==>
                  && ValidBatch(result.batch) && HasBlocks(result.batch) && Status(cfg, s, result.batch) == Accept
                  && Timestamp(cfg, result.batch) in batches
                  && batches[Timestamp(cfg, result.batch)] == result.batch
                  && (forall t :: t in rest ==> t > Timestamp(cfg, result.batch)))
            && (forall t :: t in batches && t !in rest ==>
                  || Status(cfg, s, batches[t]) == Drop
                  || result == Accepted(batches[t]))
            && (result.ScanAbort? ==> rest != map[] && Status(cfg, s, rest[FirstBatch(rest)]) == Crash)
            && (result.NoBatch? && rest != map[] ==> Status(cfg, s, rest[FirstBatch(rest)]) in {Undecided, Future})
    decreases |batches|
  {
    if batches != map[] {
      var k := FirstBatch(batches);
      RemoveShrinks(batches, k);
      if Status(cfg, s, batches[k]) == Drop {
        ScanKeeps(cfg, s, batches - {k});
      }
    }
  }

  /** The first batch that is not dropped has the given status. */
  ghost predicate FirstKept(cfg: Config, s: StateView, batches: map<nat, Batch>, t: nat, status: BatchStatus)
    requires ValidConfig(cfg) && Keyed(cfg, batches)
  {
    && t in batches && Status(cfg, s, batches[t]) == status
    && forall u :: u in batches && u < t ==> Status(cfg, s, batches[u]) == Drop
  }

  lemma FirstKeptRest(cfg: Config, s: StateView, batches: map<nat, Batch>, k: nat, t: nat)
    requires ValidConfig(cfg) && Keyed(cfg, batches)
    requires IsLeast(k, batches.Keys) && Status(cfg, s, batches[k]) == Drop
    ensures FirstKept(cfg, s, batches - {k}, t, Crash) <==> FirstKept(cfg, s, batches, t, Crash)
  {
    hide Status;
    var rest := batches - {k};
    forall u | u in batches && u != k ensures u in rest && rest[u] == batches[u] {
    }
  }

  /** A scan aborts exactly when the first batch it does not drop asks for a forgotten origin. */
  lemma {:induction false} ScanAbortsIff(cfg: Config, s: StateView, batches: map<nat, Batch>)
    requires ValidConfig(cfg) && Keyed(cfg, batches)
    ensures Scan(cfg, s, batches).1.ScanAbort? <==> exists t :: FirstKept(cfg, s, batches, t, Crash)
    decreases |batches|
  {
    hide Status;
    if batches != map[] {
      var k := FirstBatch(batches);
      RemoveShrinks(batches, k);
      if Status(cfg, s, batches[k]) == Drop {
        var rest := batches - {k};
        ScanAbortsIff(cfg, s, rest);
        forall t ensures FirstKept(cfg, s, rest, t, Crash) <==> FirstKept(cfg, s, batches, t, Crash) {
          FirstKeptRest(cfg, s, batches, k, t);
        }
      } else if Status(cfg, s, batches[k]) == Crash {
        assert FirstKept(cfg, s, batches, k, Crash);
      }
    }
  }

  // -------------------------------------------------------- what the statuses stand for

  lemma {:induction false} SpanDriftIff(cfg: Config, s: StateView, b: SpanBatch, from: nat)
    requires ValidSpan(b) && from <= b.blockCount
    ensures SpanDrift(cfg, s, b, from) != Future
    ensures SpanDrift(cfg, s, b, from) == Accept <==>
            forall i :: from <= i < b.blockCount ==> SpanDriftAt(cfg, s, b, i) == Accept
    decreases b.blockCount - from
  {
    if from < b.blockCount {
      SpanDriftIff(cfg, s, b, from + 1);
    }
  }

  lemma {:induction false} SpanOverlapIff(cfg: Config, s: StateView, b: SpanBatch, from: nat)
    requires ValidConfig(cfg) && ValidSpan(b) && from <= b.blockCount
    ensures SpanOverlap(cfg, s, b, from) in {Accept, Drop}
    ensures SpanOverlap(cfg, s, b, from) == Accept <==>
            forall i :: from <= i < b.blockCount ==> SpanOverlapAt(cfg, s, b, i) == Accept
    decreases b.blockCount - from
  {
    if from < b.blockCount {
      SpanOverlapIff(cfg, s, b, from + 1);
    }
  }

  lemma SingleFutureIff(cfg: Config, s: StateView, b: SingleBatch)
    ensures SingleStatus(cfg, s, b) == Future <==> b.timestamp > NextTimestamp(cfg, s)
  {
  }

  lemma SpanHeaderFutureIff(cfg: Config, s: StateView, b: SpanBatch)
    requires ValidConfig(cfg) && ValidSpan(b)
    ensures SpanHeaderStatus(cfg, s, b) == Future <==> StartTimestamp(cfg, b) > NextTimestamp(cfg, s)
  {
  }

  /** A batch with blocks is left for later exactly when it starts after the next block of the safe chain. */
  lemma FutureIff(cfg: Config, s: StateView, b: Batch)
    requires ValidConfig(cfg) && ValidBatch(b)
    ensures Status(cfg, s, b) == Future <==> Timestamp(cfg, b) > NextTimestamp(cfg, s) && !EmptySpan(b)
  {
    match b
    case Single(single) =>
      SingleFutureIff(cfg, s, single);
    case Span(span) =>
      if ValidSpan(span) {
        SpanHeaderFutureIff(cfg, s, span);
        SpanDriftIff(cfg, s, span, 0);
        SpanOverlapIff(cfg, s, span, 0);
      }
  }

  /**
   Stopping the scan at a first batch that lies in the future loses nothing: every batch
   left in the queue lies in the future too, or is a span without blocks, so none of them
   would be accepted.
   */
  lemma ScanIsComplete(cfg: Config, s: StateView, batches: map<nat, Batch>)
    requires ValidConfig(cfg) && Keyed(cfg, batches)
    ensures Keyed(cfg, Scan(cfg, s, batches).0)
    ensures var (rest, result) := Scan(cfg, s, batches);
            result.NoBatch? && rest != map[] && Status(cfg, s, rest[FirstBatch(rest)]) == Future ==>
              forall t :: t in rest ==>
                Timestamp(cfg, rest[t]) > NextTimestamp(cfg, s)
                && Status(cfg, s, rest[t]) == if EmptySpan(rest[t]) then Crash else Future
  {
    ScanKeeps(cfg, s, batches);
    var rest := Scan(cfg, s, batches).0;
    if rest != map[] && Status(cfg, s, rest[FirstBatch(rest)]) == Future {
      FutureIff(cfg, s, rest[FirstBatch(rest)]);
      forall t | t in rest
        ensures Timestamp(cfg, rest[t]) > NextTimestamp(cfg, s)
        ensures Status(cfg, s, rest[t]) == if EmptySpan(rest[t]) then Crash else Future
      {
        FutureIff(cfg, s, rest[t]);
      }
    }
  }

  /** The drift rule stated once: a late block must be empty, and move on once it can. */
  predicate DriftAllowed(cfg: Config, timestamp: nat, empty: bool, origin: Epoch, stays: bool, next: Option<Epoch>) {
    && origin.timestamp <= timestamp
    && (timestamp > origin.timestamp + cfg.maxSeqDrift ==>
          empty && (stays ==> next.Some? && timestamp < next.value.timestamp))
  }

  /** Exactly which single batches extend the safe chain. */
  lemma SingleAcceptIff(cfg: Config, s: StateView, b: SingleBatch)
    ensures SingleStatus(cfg, s, b) == Accept <==>
            && b.timestamp == NextTimestamp(cfg, s)
            && b.parentHash == s.safeHead.hash
            && b.l1InclusionBlock <= b.epochNum + cfg.seqWindowSize
            && s.safeEpoch.number <= b.epochNum <= s.safeEpoch.number + 1
            && (forall i :: 0 <= i < |b.transactions| ==> b.transactions[i] != [] && b.transactions[i][0] != 0x7E)
            && var origin := if b.epochNum == s.safeEpoch.number then Some(s.safeEpoch)
                             else s.EpochByNumber(s.safeEpoch.number + 1);
            && origin.Some?
            && b.epochHash == origin.value.hash
            && DriftAllowed(cfg, b.timestamp, b.transactions == [], origin.value, b.epochNum == s.safeEpoch.number,
                            s.EpochByNumber(s.safeEpoch.number + 1))
  {
  }

  /** A single batch of the next block that passes the checks before its origin is looked up. */
  predicate SingleReady(cfg: Config, s: StateView, b: SingleBatch) {
    && b.timestamp == NextTimestamp(cfg, s)
    && b.parentHash == s.safeHead.hash
    && b.l1InclusionBlock <= b.epochNum + cfg.seqWindowSize
  }

  /**
   Exactly which single batches wait for the next L1 block: those with its number as origin, and
   those that are late and empty, stay in the safe epoch and need that block to be told valid.
   */
  lemma SingleUndecidedIff(cfg: Config, s: StateView, b: SingleBatch)
    ensures SingleStatus(cfg, s, b) == Undecided <==>
            && SingleReady(cfg, s, b) && s.EpochByNumber(s.safeEpoch.number + 1).None?
            && (|| b.epochNum == s.safeEpoch.number + 1
                || (&& b.epochNum == s.safeEpoch.number && b.epochHash == s.safeEpoch.hash && b.transactions == []
                    && s.safeEpoch.timestamp + cfg.maxSeqDrift < b.timestamp))
  {
  }

  /** What is neither accepted nor left for later is dropped: a single batch never ends the process. */
  lemma SingleElseDropped(cfg: Config, s: StateView, b: SingleBatch)
    ensures SingleStatus(cfg, s, b) in {Accept, Future, Undecided, Drop}
  {
  }

  /** Block i of a span cannot be told valid yet: it is late and empty, stays in its epoch, and the next one is unknown. */
  ghost predicate BlockOpen(cfg: Config, s: StateView, b: SpanBatch, i: nat)
    requires ValidSpan(b) && i < b.blockCount
  {
    var input := InputAt(cfg, b, i);
    var origin := s.EpochByNumber(input.epoch);
    && origin.Some?
    && input.timestamp > origin.value.timestamp + cfg.maxSeqDrift
    && input.transactions == [] && !b.originBits[i] && s.EpochByNumber(input.epoch + 1).None?
  }

  /** Block i of a span keeps the drift rule as far as L1 is known. */
  ghost predicate BlockInTime(cfg: Config, s: StateView, b: SpanBatch, i: nat)
    requires ValidSpan(b) && i < b.blockCount
  {
    var input := InputAt(cfg, b, i);
    var origin := s.EpochByNumber(input.epoch);
    && origin.Some?
    && DriftAllowed(cfg, input.timestamp, input.transactions == [], origin.value, !b.originBits[i], s.EpochByNumber(input.epoch + 1))
  }

  lemma {:induction false} DriftUndecidedIff(cfg: Config, s: StateView, b: SpanBatch, from: nat)
    requires ValidSpan(b) && from <= b.blockCount
    ensures SpanDrift(cfg, s, b, from) == Undecided <==>
            exists i :: from <= i < b.blockCount && BlockOpen(cfg, s, b, i)
                     && forall j :: from <= j < i ==> BlockInTime(cfg, s, b, j)
    decreases b.blockCount - from
  {
    hide InputAt;
    if from < b.blockCount {
      DriftUndecidedIff(cfg, s, b, from + 1);
      assert SpanDriftAt(cfg, s, b, from) == Undecided <==> BlockOpen(cfg, s, b, from);
      assert SpanDriftAt(cfg, s, b, from) == Accept <==> BlockInTime(cfg, s, b, from);
      hide SpanDriftAt, BlockOpen, BlockInTime;
      if SpanDrift(cfg, s, b, from + 1) == Undecided && BlockInTime(cfg, s, b, from) {
        var i :| from + 1 <= i < b.blockCount && BlockOpen(cfg, s, b, i)
              && forall j :: from + 1 <= j < i ==> BlockInTime(cfg, s, b, j);
        assert forall j :: from <= j < i ==> BlockInTime(cfg, s, b, j);
      }
    }
  }

  /** Exactly which spans wait for a later L1 block. */
  lemma SpanUndecidedIff(cfg: Config, s: StateView, b: SpanBatch)
    requires ValidConfig(cfg) && ValidSpan(b)
    ensures SpanStatus(cfg, s, b) == Undecided <==>
            || (&& StartTimestamp(cfg, b) <= NextTimestamp(cfg, s) <= StartTimestamp(cfg, b) + b.blockCount * cfg.blocktime
                && StartEpochNum(b) == s.safeEpoch.number + 1 && s.EpochByNumber(s.safeEpoch.number + 1).None?)
            || (&& SpanHeaderStatus(cfg, s, b) == Accept
                && exists i :: 0 <= i < b.blockCount && BlockOpen(cfg, s, b, i)
                            && forall j :: 0 <= j < i ==> BlockInTime(cfg, s, b, j))
  {
    hide BlockOpen, BlockInTime, SpanDrift, SpanOverlap;
    SpanOverlapIff(cfg, s, b, 0);
    DriftUndecidedIff(cfg, s, b, 0);
  }

  /** Block i of a span keeps the drift rule, and agrees with the safe chain where that has the block. */
  ghost predicate BlockAllowed(cfg: Config, s: StateView, b: SpanBatch, i: nat)
    requires ValidConfig(cfg) && ValidSpan(b) && i < b.blockCount
  {
    var input := InputAt(cfg, b, i);
    var origin := s.EpochByNumber(input.epoch);
    && origin.Some?
    && DriftAllowed(cfg, input.timestamp, input.transactions == [], origin.value, !b.originBits[i], s.EpochByNumber(input.epoch + 1))
    && (input.timestamp < NextTimestamp(cfg, s) ==>
          var known := s.L2InfoByTimestamp(cfg, input.timestamp);
          known.Some? && known.value.1.number == input.epoch)
  }

  lemma BlockAllowedIff(cfg: Config, s: StateView, b: SpanBatch, i: nat)
    requires ValidConfig(cfg) && ValidSpan(b) && i < b.blockCount
    ensures BlockAllowed(cfg, s, b, i) <==> SpanDriftAt(cfg, s, b, i) == Accept && SpanOverlapAt(cfg, s, b, i) == Accept
  {
  }

  /** Exactly which span batches extend or overlap the safe chain. */
  lemma SpanAcceptIff(cfg: Config, s: StateView, b: SpanBatch)
    requires ValidConfig(cfg) && ValidSpan(b)
    ensures SpanStatus(cfg, s, b) == Accept <==>
            && StartTimestamp(cfg, b) <= NextTimestamp(cfg, s) <= StartTimestamp(cfg, b) + b.blockCount * cfg.blocktime
            && (StartEpochNum(b) != s.safeEpoch.number + 1 ==> cfg.deltaTime <= s.safeEpoch.timestamp)
            && (StartEpochNum(b) == s.safeEpoch.number + 1 ==>
                  var origin := s.EpochByNumber(s.safeEpoch.number + 1); origin.Some? && cfg.deltaTime <= origin.value.timestamp)
            && var prev := PrevBlock(cfg, s, b);
            && prev.Some? && prev.value.0.hash.first20 == b.parentCheck
            && prev.value.1.number <= StartEpochNum(b) <= prev.value.0.number + 1
            && b.l1InclusionBlock <= StartEpochNum(b) + cfg.seqWindowSize
            && var last := s.EpochByNumber(b.l1OriginNum);
            && last.Some? && last.value.hash.first20 == b.l1OriginCheck
            && forall i :: 0 <= i < b.blockCount ==> BlockAllowed(cfg, s, b, i)
  {
    SpanDriftIff(cfg, s, b, 0);
    SpanOverlapIff(cfg, s, b, 0);
    forall i | 0 <= i < b.blockCount
      ensures BlockAllowed(cfg, s, b, i) <==> SpanDriftAt(cfg, s, b, i) == Accept && SpanOverlapAt(cfg, s, b, i) == Accept
    {
      BlockAllowedIff(cfg, s, b, i);
    }
  }

  /** With its first origin cached, every origin of a span can be looked up. */
  lemma OriginsCached(cfg: Config, s: StateView, b: SpanBatch, l1: seq<L1Info>, lo: nat, next: nat)
    requires ValidConfig(cfg) && ValidSpan(b) && Window(s, l1, lo, next)
    requires SpanHeaderStatus(cfg, s, b) == Accept && lo <= StartEpochNum(b)
    ensures SpanDrift(cfg, s, b, 0) != Crash
  {
    EpochByNumberExact(s, l1, lo, next, b.l1OriginNum);
    forall i | 0 <= i < b.blockCount ensures SpanDriftAt(cfg, s, b, i) != Crash {
      EpochsMonotone(cfg, b, i, i);
      EpochByNumberExact(s, l1, lo, next, InputAt(cfg, b, i).epoch);
    }
    NoCrash(cfg, s, b, 0);
  }

  lemma OriginForgotten(cfg: Config, s: StateView, b: SpanBatch, l1: seq<L1Info>, lo: nat, next: nat)
    requires ValidConfig(cfg) && ValidSpan(b) && Window(s, l1, lo, next) && StartEpochNum(b) < lo
    ensures SpanDrift(cfg, s, b, 0) == Crash
  {
    BlocksPartitionSpan(cfg, b);
    assert BlockInputs(cfg, b)[0] == InputAt(cfg, b, 0);
    EpochByNumberExact(s, l1, lo, next, StartEpochNum(b));
  }

  /** The lookup of a forgotten origin fails only where the first block of the span starts. */
  lemma LookupCrashIff(cfg: Config, s: StateView, b: SpanBatch, l1: seq<L1Info>, lo: nat, next: nat)
    requires ValidConfig(cfg) && ValidSpan(b) && Window(s, l1, lo, next)
    ensures SpanStatus(cfg, s, b) == Crash <==>
            SpanHeaderStatus(cfg, s, b) == Accept && StartEpochNum(b) < lo
  {
    SpanOverlapIff(cfg, s, b, 0);
    if SpanHeaderStatus(cfg, s, b) == Accept {
      if StartEpochNum(b) < lo {
        OriginForgotten(cfg, s, b, l1, lo, next);
      } else {
        OriginsCached(cfg, s, b, l1, lo, next);
      }
    }
  }

  /**
   Whatever batch decoding gives, its status panics exactly for a span without blocks, and for
   one that passes the checks of its header but starts before the cached L1 blocks.
   */
  lemma CrashIff(cfg: Config, s: StateView, b: Batch, l1: seq<L1Info>, lo: nat, next: nat)
    requires ValidConfig(cfg) && ValidBatch(b) && Window(s, l1, lo, next)
    ensures Status(cfg, s, b) == Crash <==>
            || EmptySpan(b)
            || (b.Span? && ValidSpan(b.span) && SpanHeaderStatus(cfg, s, b.span) == Accept && StartEpochNum(b.span) < lo)
  {
    if b.Span? && ValidSpan(b.span) {
      LookupCrashIff(cfg, s, b.span, l1, lo, next);
    }
  }

  lemma {:induction false} NoCrash(cfg: Config, s: StateView, b: SpanBatch, from: nat)
    requires ValidSpan(b) && from <= b.blockCount
    requires forall i :: from <= i < b.blockCount ==> SpanDriftAt(cfg, s, b, i) != Crash
    ensures SpanDrift(cfg, s, b, from) != Crash
    decreases b.blockCount - from
  {
    if from < b.blockCount {
      NoCrash(cfg, s, b, from + 1);
    }
  }

  // ------------------------------------------------------------------------- the stage

  class Batches {
    var batches: map<nat, Batch>
    var pendingInputs: seq<BlockInput>
    const state: State
    const cfg: Config

    function Contents(): Queue
      reads this
    {
      Queue(batches, pendingInputs)
    }

    ghost predicate Valid()
      reads this
    {
      ValidConfig(cfg) && Keyed(cfg, batches)
    }

    constructor (state: State, cfg: Config)
      requires ValidConfig(cfg)
      ensures this.state == state && this.cfg == cfg && Valid() && Contents() == Queue(map[], [])
    {
      batches, pendingInputs := map[], [];
      this.state, this.cfg := state, cfg;
    }

    method Purge()
      requires Valid()
      modifies this
      ensures Valid() && Contents() == Queue(map[], [])
    {
      batches := map[];
      pendingInputs := [];
    }

    method CheckDrift(b: SpanBatch, inputs: seq<BlockInput>) returns (status: BatchStatus)
      requires ValidConfig(cfg) && ValidSpan(b) && inputs == BlockInputs(cfg, b)
      ensures status == SpanDrift(cfg, state.View(), b, 0)
    {
      for i := 0 to |inputs|
        invariant SpanDrift(cfg, state.View(), b, 0) == SpanDrift(cfg, state.View(), b, i)
      {
        var input := inputs[i];
        var known := state.View().EpochByNumber(input.epoch);
        if known == None {
          return Crash;
        }
        var inputEpoch := known.value;
        var nextEpoch := state.View().EpochByNumber(input.epoch + 1);
        if input.timestamp < inputEpoch.timestamp {
          return Drop;
        }
        if input.timestamp > inputEpoch.timestamp + cfg.maxSeqDrift {
          if input.transactions == [] {
            if !b.originBits[i] {
              if nextEpoch == None {
                return Undecided;
              }
              if input.timestamp >= nextEpoch.value.timestamp {
                return Drop;
              }
            }
          } else {
            return Drop;
          }
        }
      }
      return Accept;
    }

    method CheckOverlap(b: SpanBatch, inputs: seq<BlockInput>) returns (status: BatchStatus)
      requires ValidConfig(cfg) && ValidSpan(b) && inputs == BlockInputs(cfg, b)
      ensures status == SpanOverlap(cfg, state.View(), b, 0)
    {
      for i := 0 to |inputs|
        invariant SpanOverlap(cfg, state.View(), b, 0) == SpanOverlap(cfg, state.View(), b, i)
      {
        var input := inputs[i];
        if input.timestamp < NextTimestamp(cfg, state.View()) {
          var known := state.View().L2InfoByTimestamp(cfg, input.timestamp);
          if known == None || input.epoch != known.value.1.number {
            return Drop;
          }
        }
      }
      return Accept;
    }

    method GetStatus(b: Batch) returns (status: BatchStatus)
      requires ValidConfig(cfg) && ValidBatch(b)
      ensures status == Status(cfg, state.View(), b)
    {
      match b
      case Single(single) =>
        status := SingleStatus(cfg, state.View(), single);
      case Span(span) =>
        if span.originBits == [] {
          return Crash;
        }
        var start := StartEpochNum(span);
        if start < 0 {
          return WrappedStatus(cfg, state.View(), span);
        }
        status := HeaderStatus(cfg, state.View(), span, start);
        if status == Accept {
          var inputs := ComputeBlockInputs(cfg, span);
          status := CheckDrift(span, inputs);
          if status == Accept {
            status := CheckOverlap(span, inputs);
          }
        }
    }

    method InsertBatches(new_: seq<Batch>)
      requires Valid() && forall i :: 0 <= i < |new_| ==> ValidBatch(new_[i])
      modifies this`batches
      ensures Valid() && batches == Insert(cfg, old(batches), new_)
    {
      for i := 0 to |new_|
        invariant batches == Insert(cfg, old(batches), new_[..i])
      {
        assert new_[..i + 1][..i] == new_[..i];
        batches := batches[Timestamp(cfg, new_[i]) := new_[i]];
      }
      assert new_[..|new_|] == new_;
      InsertKeeps(cfg, old(batches), new_);
    }

    /** Drops batches from the front of the queue until one is accepted or must wait. */
    method ScanBatches() returns (result: ScanResult)
      requires Valid()
      modifies this`batches
      ensures Valid() && (batches, result) == Scan(cfg, state.View(), old(batches))
    {
      while batches != map[]
        invariant Valid()
        invariant Scan(cfg, state.View(), batches) == Scan(cfg, state.View(), old(batches))
        decreases |batches|
      {
        var key := FirstKey(batches);
        assert key == FirstBatch(batches);
        var batch := batches[key];
        var timestamp := Timestamp(cfg, batch);
        var status := GetStatus(batch);
        RemoveShrinks(batches, timestamp);
        match status {
          case Accept =>
            batches := batches - {timestamp};
            return Accepted(batch);
          case Drop =>
            batches := batches - {timestamp};
          case Crash =>
            return ScanAbort;
          case _ =>
            return NoBatch;
        }
      }
      return NoBatch;
    }

    method Next(read: ChannelRead) returns (outcome: Outcome)
      requires Valid() && ValidRead(read)
      modifies this
      ensures Valid() && (Contents(), outcome) == TryNext(cfg, state.View(), old(Contents()), read)
    {
      if pendingInputs != [] {
        outcome := Emit(pendingInputs[0]);
        pendingInputs := pendingInputs[1..];
        return;
      }
      if read.Undecodable? {
        return Idle;
      }
      if read.Decoded? {
        InsertBatches(read.batches);
      }
      var derived := ScanBatches();
      match derived
      case ScanAbort =>
        return Abort;
      case Accepted(batch) =>
        ScanKeeps(cfg, state.View(), if read.Decoded? then Insert(cfg, old(batches), read.batches) else old(batches));
        var inputs;
        match batch {
          case Single(single) => inputs := [SingleInput(single)];
          case Span(span) => inputs := ComputeBlockInputs(cfg, span);
        }
        inputs := FilterInputs(state.View(), inputs);
        if inputs == [] {
          return Idle;
        }
        pendingInputs := inputs[1..];
        return Emit(inputs[0]);
      case NoBatch =>
        var forced := ForcedInput(cfg, state.View());
        return if forced.Some? then Emit(forced.value) else Idle;
    }
  }
}
