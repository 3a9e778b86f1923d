/**
 What one step of the batch queue does, in every case (src/derive/stages/batches.rs, try_next):
 which batch decides, which blocks come out, and when an empty block is forced.
 */
module QueueSteps {
  import opened Base
  import opened Types
  import opened SpanBlocks
  import opened DerivationState
  import opened BatchQueue
  import opened BatchSafety
  import opened NodeModel
  import opened NodeSafety
  import opened NodeTheorems

  // ------------------------------------------------------------------------------ the scan

  function StoredAfter(batches: map<nat, Batch>, t: nat): map<nat, Batch> {
    map k | k in batches && k > t :: batches[k]
  }

  function StoredFrom(batches: map<nat, Batch>, t: nat): map<nat, Batch> {
    map k | k in batches && k >= t :: batches[k]
  }

  /** The first batch that is not dropped decides: it is taken if accepted, and else left with all after it. */
  lemma {:induction false} ScanStopsAt(cfg: Config, s: StateView, batches: map<nat, Batch>, t: nat, status: BatchStatus)
    requires ValidConfig(cfg) && Keyed(cfg, batches) && FirstKept(cfg, s, batches, t, status) && status != Drop
    ensures Scan(cfg, s, batches) ==
            match status
            case Accept => (StoredAfter(batches, t), Accepted(batches[t]))
            case Crash => (StoredFrom(batches, t), ScanAbort)
            case _ => (StoredFrom(batches, t), NoBatch)
    decreases |batches|
  {
    hide Status;
    var k := FirstBatch(batches);
    RemoveShrinks(batches, k);
    var rest := batches - {k};
    if k == t {
      assert rest == StoredAfter(batches, t) && batches == StoredFrom(batches, t);
    } else {
      forall u | u in rest && u < t ensures Status(cfg, s, rest[u]) == Drop {
        assert batches[u] == rest[u];
      }
      ScanStopsAt(cfg, s, rest, t, status);
      assert StoredAfter(rest, t) == StoredAfter(batches, t) && StoredFrom(rest, t) == StoredFrom(batches, t);
    }
  }

  lemma {:induction false} ScanDropsAll(cfg: Config, s: StateView, batches: map<nat, Batch>)
    requires ValidConfig(cfg) && Keyed(cfg, batches) && forall t :: t in batches ==> Status(cfg, s, batches[t]) == Drop
    ensures Scan(cfg, s, batches) == (map[], NoBatch)
    decreases |batches|
  {
    hide Status;
    if batches != map[] {
      var k := FirstBatch(batches);
      RemoveShrinks(batches, k);
      var rest := batches - {k};
      forall t | t in rest ensures Status(cfg, s, rest[t]) == Drop {
        assert batches[t] == rest[t];
      }
      ScanDropsAll(cfg, s, rest);
    }
  }

  // -------------------------------------------------------------------- what comes out of a batch

  /** The blocks of the list that are newer than the safe head, which are at its end. */
  ghost predicate NewOf(s: StateView, all: seq<BlockInput>, inputs: seq<BlockInput>) {
    exists j :: 0 <= j <= |all| && inputs == all[j..]
             && forall i :: 0 <= i < |all| ==> (all[i].timestamp > s.safeHead.timestamp <==> i >= j)
  }

  /** What an accepted batch yields: its one block, or the blocks of the span after the safe head. */
  ghost predicate Yields(cfg: Config, s: StateView, b: Batch, inputs: seq<BlockInput>)
    requires HasBlocks(b)
  {
    match b
    case Single(single) =>
      inputs == [BlockInput(NextTimestamp(cfg, s), single.epochNum, single.transactions, single.l1InclusionBlock)]
    case Span(span) => NewOf(s, BlockInputs(cfg, span), inputs)
  }

  lemma InputTime(cfg: Config, b: SpanBatch, i: nat)
    requires ValidSpan(b) && i < b.blockCount
    ensures |BlockInputs(cfg, b)| == b.blockCount
    ensures BlockInputs(cfg, b)[i].timestamp == StartTimestamp(cfg, b) + i * cfg.blocktime
  {
  }

  /** How many blocks of the span are at or below the safe head. */
  function OldBlocks(cfg: Config, s: StateView, b: SpanBatch): nat
    requires ValidConfig(cfg) && StartTimestamp(cfg, b) <= NextTimestamp(cfg, s)
  {
    (NextTimestamp(cfg, s) - StartTimestamp(cfg, b)) / cfg.blocktime
  }

  lemma NewFrom(cfg: Config, s: StateView, b: SpanBatch, i: nat)
    requires ValidConfig(cfg) && ValidSpan(b) && StartTimestamp(cfg, b) <= NextTimestamp(cfg, s) && i < b.blockCount
    ensures |BlockInputs(cfg, b)| == b.blockCount
    ensures BlockInputs(cfg, b)[i].timestamp > s.safeHead.timestamp <==> i >= OldBlocks(cfg, s, b)
  {
    InputTime(cfg, b, i);
    hide InputAt, BlockInputs;
    AfterGap(NextTimestamp(cfg, s) - StartTimestamp(cfg, b), cfg.blocktime, i);
  }

  /** The blocks of a span are in order of time, so that the new ones are at the end. */
  lemma SpanNewOf(cfg: Config, s: StateView, b: SpanBatch)
    requires ValidConfig(cfg) && ValidSpan(b) && StartTimestamp(cfg, b) <= NextTimestamp(cfg, s)
    ensures NewOf(s, BlockInputs(cfg, b), FilterInputs(s, BlockInputs(cfg, b)))
  {
    hide InputAt, OldBlocks, FilterInputs;
    var inputs, j := BlockInputs(cfg, b), OldBlocks(cfg, s, b);
    forall i | 0 <= i < |inputs| ensures inputs[i].timestamp > s.safeHead.timestamp <==> i >= j {
      NewFrom(cfg, s, b, i);
    }
    var k := if j <= |inputs| then j else |inputs|;
    FilterIsSuffix(s, inputs, k);
    assert inputs[k..] == FilterInputs(s, inputs);
  }

  lemma AcceptedYields(cfg: Config, s: StateView, b: Batch)
    requires ValidConfig(cfg) && ValidBatch(b) && Status(cfg, s, b) == Accept
    ensures Yields(cfg, s, b, FilterInputs(s, AsInputs(cfg, b)))
  {
    match b
    case Single(single) =>
      SingleAcceptIff(cfg, s, single);
      FilterIsSuffix(s, [SingleInput(single)], 0);
    case Span(span) =>
      SpanAcceptIff(cfg, s, span);
      SpanNewOf(cfg, s, span);
  }

  // ------------------------------------------------------------------------------ the step

  /** The queue is to look at batches: nothing is pending, and the channel, if any, decodes. */
  predicate Looks(n: Node, read: ChannelRead) { n.pipeline.queue.pending == [] && !read.Undecodable? }

  /** The first batch that is not dropped is accepted: its new blocks come out, the first of them now. */
  lemma AcceptedStep(cfg: Config, n: Node, read: ChannelRead, t: nat)
    requires Inv(cfg, n) && ValidRead(read) && Looks(n, read) && Keyed(cfg, Candidates(cfg, n, read))
    requires FirstKept(cfg, n.state, Candidates(cfg, n, read), t, Accept)
    ensures var (q, outcome) := TryNext(cfg, n.state, n.pipeline.queue, read);
            var batches := Candidates(cfg, n, read);
            && q.batches == StoredAfter(batches, t)
            && (match outcome
                case Emit(input) => Yields(cfg, n.state, batches[t], [input] + q.pending)
                case Idle => q.pending == [] && Yields(cfg, n.state, batches[t], [])
                case Abort => false)
  {
    hide Inv, Status, Yields, Scan, FilterInputs, AsInputs;
    var batches := Candidates(cfg, n, read);
    ConfigIsValid(cfg, n);
    ScanStopsAt(cfg, n.state, batches, t, Accept);
    ScanKeeps(cfg, n.state, batches);
    AcceptedYields(cfg, n.state, batches[t]);
    var inputs := FilterInputs(n.state, AsInputs(cfg, batches[t]));
    if inputs != [] {
      assert [inputs[0]] + inputs[1..] == inputs;
    }
  }

  lemma ConfigIsValid(cfg: Config, n: Node)
    requires Inv(cfg, n)
    ensures ValidConfig(cfg) && Keyed(cfg, n.pipeline.queue.batches)
  {
  }

  /** Every batch the pull looks at is dropped, or the first that is not must wait. */
  ghost predicate MustWait(cfg: Config, n: Node, read: ChannelRead)
    requires ValidConfig(cfg) && Keyed(cfg, Candidates(cfg, n, read))
  {
    var batches := Candidates(cfg, n, read);
    || (forall t :: t in batches ==> Status(cfg, n.state, batches[t]) == Drop)
    || (exists t :: FirstKept(cfg, n.state, batches, t, Undecided) || FirstKept(cfg, n.state, batches, t, Future))
  }

  /**
   An empty block with the given origin is due. The L1 block after the safe epoch has been
   delivered, and more than a sequencing window after the origin: the safe epoch for a slot
   before that block's time, and else that block.
   */
  ghost predicate EmptyDue(cfg: Config, n: Node, origin: nat) {
    var e, slot := n.state.safeEpoch.number, n.state.safeHead.timestamp + cfg.blocktime;
    && e + 1 < n.nextL1 <= |n.l1|
    && origin == (if slot < n.l1[e + 1].blockInfo.timestamp then e else e + 1)
    && origin + cfg.seqWindowSize < n.nextL1 - 1
  }

  /**
   When no batch decides, an empty block comes out exactly when one is due, for the next slot, with
   the origin that is due, and attributed to the last L1 block delivered.
   */
  lemma ForcedIff(cfg: Config, n: Node, read: ChannelRead)
    requires Inv(cfg, n) && ValidRead(read) && Looks(n, read)
    requires Keyed(cfg, Candidates(cfg, n, read)) && MustWait(cfg, n, read)
    ensures var (q, outcome) := TryNext(cfg, n.state, n.pipeline.queue, read);
            && q.pending == []
            && (outcome == Idle <==> forall origin :: !EmptyDue(cfg, n, origin))
            && forall input :: outcome == Emit(input) <==>
                 exists origin :: EmptyDue(cfg, n, origin)
                               && input == BlockInput(n.state.safeHead.timestamp + cfg.blocktime, origin, [], n.nextL1 - 1)
  {
    ConfigIsValid(cfg, n);
    WaitingScan(cfg, n, read);
    ForcedIsDue(cfg, n);
    hide Inv, Status, Scan, MustWait, EmptyDue, Keyed, ForcedInput;
    assert TryNext(cfg, n.state, n.pipeline.queue, read) == Derive(cfg, n.state, Candidates(cfg, n, read));
  }

  lemma WaitingScan(cfg: Config, n: Node, read: ChannelRead)
    requires ValidConfig(cfg) && Keyed(cfg, Candidates(cfg, n, read)) && MustWait(cfg, n, read)
    ensures Scan(cfg, n.state, Candidates(cfg, n, read)).1 == NoBatch
  {
    hide Status, Scan;
    var batches := Candidates(cfg, n, read);
    if forall t :: t in batches ==> Status(cfg, n.state, batches[t]) == Drop {
      ScanDropsAll(cfg, n.state, batches);
    } else {
      var t :| FirstKept(cfg, n.state, batches, t, Undecided) || FirstKept(cfg, n.state, batches, t, Future);
      ScanStopsAt(cfg, n.state, batches, t, if FirstKept(cfg, n.state, batches, t, Undecided) then Undecided else Future);
    }
  }

  lemma ForcedIsDue(cfg: Config, n: Node)
    requires Inv(cfg, n)
    ensures match ForcedInput(cfg, n.state)
            case None => forall origin :: !EmptyDue(cfg, n, origin)
            case Some(input) =>
              && EmptyDue(cfg, n, input.epoch)
              && input == BlockInput(n.state.safeHead.timestamp + cfg.blocktime, input.epoch, [], n.nextL1 - 1)
    ensures forall o, o' :: EmptyDue(cfg, n, o) && EmptyDue(cfg, n, o') ==> o == o'
  {
    hide QueueOk, HeadsOk, UnfinalizedOk, ChainOk, RefsAgree;
    EpochByNumberExact(n.state, n.l1, n.lo, n.nextL1, n.state.safeEpoch.number + 1);
  }

  /** So in every state of every fair run. */
  lemma RunForcedIff(cfg: Config, n: Node, events: seq<Event>, read: ChannelRead)
    requires Init(cfg, n) && FairRun(cfg, n, events) && Run(cfg, n, events).Some? && ValidRead(read)
    ensures var now := Run(cfg, n, events).value;
            && Keyed(cfg, now.pipeline.queue.batches) && Keyed(cfg, Candidates(cfg, now, read))
            && (Looks(now, read) && MustWait(cfg, now, read) ==>
                  forall input :: TryNext(cfg, now.state, now.pipeline.queue, read).1 == Emit(input) <==>
                    exists origin :: EmptyDue(cfg, now, origin)
                                  && input == BlockInput(now.state.safeHead.timestamp + cfg.blocktime, origin, [], now.nextL1 - 1))
  {
    hide Inv, MustWait, EmptyDue, Keyed, TryNext, Run, FairRun, Init, ValidRead, Candidates;
    RunKeeps(cfg, n, events);
    var now := Run(cfg, n, events).value;
    CandidatesKeyed(cfg, now, read);
    ConfigIsValid(cfg, now);
    if Looks(now, read) && MustWait(cfg, now, read) {
      ForcedIff(cfg, now, read);
    }
  }

  /** A channel that does not decode is the end of its pull, and the next pull finds the queue as it was. */
  lemma UndecodableLosesNothing(cfg: Config, s: StateView, q: Queue, read: ChannelRead)
    requires ValidConfig(cfg) && Keyed(cfg, q.batches) && ValidRead(read) && q.pending == []
    ensures var (q', outcome) := TryNext(cfg, s, q, Undecodable);
            && outcome == Idle && Keyed(cfg, q'.batches)
            && TryNext(cfg, s, q', read) == TryNext(cfg, s, q, read)
  {
  }

  // --------------------------------------------------------------------------- pending blocks

  /** The queue after some pulls, each in some state of the caches and with some channel, and what they emitted. */
  ghost function Pulls(cfg: Config, q: Queue, steps: seq<(StateView, ChannelRead)>): (Queue, seq<Outcome>)
    requires ValidConfig(cfg) && Keyed(cfg, q.batches) && forall i :: 0 <= i < |steps| ==> ValidRead(steps[i].1)
    decreases |steps|
  {
    if steps == [] || q.pending == [] then (q, [])
    else
      var (q', outcome) := TryNext(cfg, steps[0].0, q, steps[0].1);
      PendingStep(cfg, steps[0].0, q, steps[0].1);
      var (end, outcomes) := Pulls(cfg, q', steps[1..]);
      (end, [outcome] + outcomes)
  }

  /** With blocks pending a pull emits the first of them, whatever channel is there to read. */
  lemma PendingStep(cfg: Config, s: StateView, q: Queue, read: ChannelRead)
    requires ValidConfig(cfg) && Keyed(cfg, q.batches) && ValidRead(read) && q.pending != []
    ensures TryNext(cfg, s, q, read) == (Queue(q.batches, q.pending[1..]), Emit(q.pending[0]))
  {
  }

  /** So the pending blocks come out one by one and in order, before anything else is looked at. */
  lemma {:induction false} PendingDrains(cfg: Config, q: Queue, steps: seq<(StateView, ChannelRead)>)
    requires ValidConfig(cfg) && Keyed(cfg, q.batches) && forall i :: 0 <= i < |steps| ==> ValidRead(steps[i].1)
    requires |steps| == |q.pending|
    ensures var (end, outcomes) := Pulls(cfg, q, steps);
            && end == Queue(q.batches, [])
            && |outcomes| == |q.pending| && forall i :: 0 <= i < |q.pending| ==> outcomes[i] == Emit(q.pending[i])
    decreases |steps|
  {
    hide Keyed, ValidRead, TryNext;
    if q.pending != [] {
      PendingStep(cfg, steps[0].0, q, steps[0].1);
      PendingDrains(cfg, Queue(q.batches, q.pending[1..]), steps[1..]);
    }
  }
}
