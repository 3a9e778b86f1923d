/** The driver, which owns the stages and the engine driver and steps them (src/driver/mod.rs). */
module Driver {
  import opened Base
  import opened Types
  import opened DerivationState
  import opened BatchQueue
  import opened BatchSafety
  import opened Attributes
  import opened BlockTree
  import opened ForkChoice
  import opened NodeModel
  import opened NodeSafety
  import opened AbortSafety

  datatype BlockUpdate = NewL1Block(info: L1Info) | ReorgDetected | Finality(number: nat)

  /** What the L1 watcher may send: of new blocks, the next one. */
  ghost predicate ValidUpdate(n: Node, update: Option<BlockUpdate>) {
    update.Some? && update.value.NewL1Block? ==> n.nextL1 < |n.l1| && update.value.info == n.l1[n.nextL1]
  }

  /** The event that an update is, if there is one; after a reorg L1 is the given chain. */
  ghost function UpdateEvents(update: Option<BlockUpdate>, newL1: seq<L1Info>): seq<Event> {
    match update
    case None => []
    case Some(NewL1Block(_)) => [NewBlock]
    case Some(ReorgDetected) => [L1Reorg(newL1)]
    case Some(Finality(number)) => [FinalityUpdate(number)]
  }

  ghost function Updated(cfg: Config, n: Node, update: Option<BlockUpdate>, newL1: seq<L1Info>): Node
    requires ValidConfig(cfg) && ValidUpdate(n, update)
  {
    match update
    case None => n
    case Some(NewL1Block(_)) => NewBlockStep(cfg, n)
    case Some(ReorgDetected) => ReorgStep(cfg, n, newL1)
    case Some(Finality(number)) => n.(finalizedL1 := number)
  }

  lemma UpdateIsRun(cfg: Config, n: Node, update: Option<BlockUpdate>, newL1: seq<L1Info>)
    requires ValidConfig(cfg) && ValidUpdate(n, update)
    ensures Run(cfg, n, UpdateEvents(update, newL1)) == Some(Updated(cfg, n, update, newL1))
    ensures FairRun(cfg, n, UpdateEvents(update, newL1))
            <==> (update == Some(ReorgDetected) ==> Fair(cfg, n, L1Reorg(newL1)))
  {
    if update.Some? {
      var e := UpdateEvents(update, newL1)[0];
      RunAppend(cfg, n, [], e);
      assert [] + [e] == UpdateEvents(update, newL1);
    }
  }

  /** What one pull of the pipeline reads, and the hash of the block the engine may build. */
  datatype PullInput = PullInput(read: ChannelRead, hash: Hash)

  function PullEvents(inputs: seq<PullInput>): seq<Event> {
    seq(|inputs|, i requires 0 <= i < |inputs| => Pull(inputs[i].read, inputs[i].hash))
  }

  ghost predicate ValidInputs(inputs: seq<PullInput>) {
    forall i :: 0 <= i < |inputs| ==> ValidRead(inputs[i].read)
  }

  lemma {:induction false} PullIsStep(cfg: Config, n: Node, read: ChannelRead, hash: Hash)
    requires ValidConfig(cfg) && ValidRead(read) && Keyed(cfg, n.pipeline.queue.batches)
    ensures Step(cfg, n, Pull(read, hash)) == PullStep(cfg, n, read, hash)
  {
  }

  /** The pull yields attributes, so that the loop goes on with another. */
  ghost predicate PullYields(cfg: Config, n: Node, input: PullInput)
    requires ValidConfig(cfg) && ValidRead(input.read)
  {
    Keyed(cfg, n.pipeline.queue.batches) && NextAttributes(cfg, n.state, n.pipeline, input.read).1.Attrs?
  }

  /**
   What the loop over the pipeline does with the inputs: the state it ends in, None when a pull
   ends the run, and the number of inputs it uses. It pulls again as long as a pull yields
   attributes, and stops with the first that yields none.
   */
  ghost function Drained(cfg: Config, n: Node, inputs: seq<PullInput>): (Option<Node>, nat)
    requires ValidConfig(cfg) && ValidInputs(inputs)
    decreases |inputs|
  {
    if inputs == [] then (Some(n), 0)
    else
      match Step(cfg, n, Pull(inputs[0].read, inputs[0].hash))
      case None => (None, 1)
      case Some(next) =>
        if !PullYields(cfg, n, inputs[0]) then (Some(next), 1)
        else
          var (end, used) := Drained(cfg, next, inputs[1..]);
          (end, used + 1)
  }

  /** The same outcome, after some more inputs. */
  ghost function Onward(outcome: (Option<Node>, nat), used: nat): (Option<Node>, nat) { (outcome.0, outcome.1 + used) }

  /** The loop makes a run of pulls. */
  lemma {:induction false} DrainedIsRun(cfg: Config, n: Node, inputs: seq<PullInput>)
    requires ValidConfig(cfg) && ValidInputs(inputs)
    ensures var (end, used) := Drained(cfg, n, inputs);
            used <= |inputs| && Run(cfg, n, PullEvents(inputs[..used])) == end
    decreases |inputs|
  {
    hide Step, FairRun, PullYields;
    if inputs != [] {
      var e := Pull(inputs[0].read, inputs[0].hash);
      var used := Drained(cfg, n, inputs).1;
      RunAppend(cfg, n, [], e);
      assert [] + [e] == [e];
      if Step(cfg, n, e).Some? && PullYields(cfg, n, inputs[0]) {
        var next := Step(cfg, n, e).value;
        DrainedIsRun(cfg, next, inputs[1..]);
        RunConcat(cfg, n, [e], PullEvents(inputs[1..][..used - 1]));
        assert [e] + PullEvents(inputs[1..][..used - 1]) == PullEvents(inputs[..used]);
      } else {
        assert PullEvents(inputs[..1]) == [e];
      }
    }
  }

  lemma DrainedUsesOne(cfg: Config, n: Node, inputs: seq<PullInput>)
    requires ValidConfig(cfg) && ValidInputs(inputs) && inputs != []
    ensures 1 <= Drained(cfg, n, inputs).1
  {
    hide Step, PullYields;
  }

  /**
   The loop goes on exactly as long as pulls yield attributes: every pull but the last yields some,
   and the last, if inputs are left, ends the run or yields none.
   */
  lemma {:induction false} DrainsUntilIdle(cfg: Config, n: Node, inputs: seq<PullInput>, k: nat)
    requires ValidConfig(cfg) && ValidInputs(inputs) && k < Drained(cfg, n, inputs).1
    ensures var (end, used) := Drained(cfg, n, inputs);
            && used <= |inputs|
            && Run(cfg, n, PullEvents(inputs[..k])).Some?
            && var now := Run(cfg, n, PullEvents(inputs[..k])).value;
            && (k + 1 < used ==> PullYields(cfg, now, inputs[k]))
            && (k + 1 == used < |inputs| ==> end.None? || !PullYields(cfg, now, inputs[k]))
    decreases |inputs|
  {
    hide Step, Run, FairRun, PullYields;
    DrainedIsRun(cfg, n, inputs);
    var e := Pull(inputs[0].read, inputs[0].hash);
    if k == 0 {
      assert PullEvents(inputs[..0]) == [];
      RunNothing(cfg, n);
      DrainsFirst(cfg, n, inputs);
    } else {
      var next := Step(cfg, n, e).value;
      DrainsUntilIdle(cfg, next, inputs[1..], k - 1);
      RunOne(cfg, n, e, PullEvents(inputs[1..][..k - 1]));
      assert [e] + PullEvents(inputs[1..][..k - 1]) == PullEvents(inputs[..k]);
    }
  }

  lemma RunNothing(cfg: Config, n: Node)
    requires ValidConfig(cfg)
    ensures Run(cfg, n, []) == Some(n)
  {
  }

  lemma RunOne(cfg: Config, n: Node, e: Event, more: seq<Event>)
    requires ValidConfig(cfg) && Step(cfg, n, e).Some?
    ensures Run(cfg, n, [e] + more) == Run(cfg, Step(cfg, n, e).value, more)
  {
    hide Step, FairRun;
    RunAppend(cfg, n, [], e);
    assert [] + [e] == [e];
    RunConcat(cfg, n, [e], more);
  }

  lemma DrainsFirst(cfg: Config, n: Node, inputs: seq<PullInput>)
    requires ValidConfig(cfg) && ValidInputs(inputs) && inputs != []
    ensures var (end, used) := Drained(cfg, n, inputs);
            && (1 < used ==> PullYields(cfg, n, inputs[0]))
            && (1 == used < |inputs| ==> end.None? || !PullYields(cfg, n, inputs[0]))
  {
    hide Step, PullYields;
    var e := Pull(inputs[0].read, inputs[0].hash);
    if 1 < |inputs| && Step(cfg, n, e).Some? {
      DrainedUsesOne(cfg, Step(cfg, n, e).value, inputs[1..]);
    }
  }

  method RetainBlocks(blocks: seq<L2Block>, synced: nat) returns (kept: seq<L2Block>)
    ensures kept == Retained(blocks, synced)
  {
    kept := [];
    for i := 0 to |blocks|
      invariant kept + Retained(blocks[i..], synced) == Retained(blocks, synced)
    {
      var block := blocks[i];
      assert blocks[i..][1..] == blocks[i + 1..];
      if block.info.number > synced && block.info.number - synced < 1024 {
        kept := kept + [block];
      }
    }
    assert blocks[|blocks|..] == [];
  }

  method FindPayload(blocks: seq<L2Block>, parent: Hash) returns (found: Option<L2Block>)
    ensures found == FindChild(blocks, parent)
  {
    for i := 0 to |blocks|
      invariant FindChild(blocks, parent) == FindChild(blocks[i..], parent)
    {
      assert blocks[i..][1..] == blocks[i + 1..];
      if blocks[i].info.parentHash == parent {
        return Some(blocks[i]);
      }
    }
    return None;
  }

  class Driver {
    const cfg: Config
    const state: State
    const pipeline: AttributesStage
    const engineDriver: EngineDriver
    var unfinalizedBlocks: seq<Unfinalized>
    var finalizedL1BlockNumber: nat
    var futureUnsafeBlocks: seq<L2Block>
    ghost var l1: seq<L1Info>
    ghost var nextL1: nat
    ghost var lo: nat
    ghost var chain: seq<Derived>
    ghost var base: nat

    ghost predicate Valid()
      reads this, pipeline, pipeline.batches
    {
      && ValidConfig(cfg) && pipeline.Valid()
      && pipeline.state == state && pipeline.cfg == cfg && state.cfg == cfg && engineDriver.blocktime == cfg.blocktime
    }

    ghost function View(): Node
      reads this, state, pipeline, pipeline.batches, engineDriver
    {
      Node(l1, nextL1, lo, state.View(), pipeline.View(), engineDriver.View(),
                unfinalizedBlocks, finalizedL1BlockNumber, futureUnsafeBlocks, chain, base)
    }

    constructor (state: State, pipeline: AttributesStage, engineDriver: EngineDriver, ghost start: Node)
      requires ValidConfig(state.cfg) && pipeline.Valid() && pipeline.state == state && pipeline.cfg == state.cfg
      requires engineDriver.blocktime == state.cfg.blocktime
      ensures Valid() && this.state == state && this.pipeline == pipeline && this.engineDriver == engineDriver
      ensures View() == start.(state := state.View(), pipeline := pipeline.View(), driven := engineDriver.View(),
                        unfinalized := [], finalizedL1 := 0, futureUnsafe := [])
    {
      this.cfg, this.state, this.pipeline, this.engineDriver := state.cfg, state, pipeline, engineDriver;
      unfinalizedBlocks, finalizedL1BlockNumber, futureUnsafeBlocks := [], 0, [];
      l1, nextL1, lo, chain, base := start.l1, start.nextL1, start.lo, start.chain, start.base;
    }

    method HandleNextBlockUpdate(update: Option<BlockUpdate>, ghost newL1: seq<L1Info>)
      requires Valid() && ValidUpdate(View(), update)
      modifies this, state, pipeline, pipeline.batches, engineDriver
      ensures Valid() && View() == Updated(cfg, old(View()), update, newL1)
    {
      match update
      case None =>
      case Some(NewL1Block(info)) =>
        lo := WindowStart(state.View(), cfg, lo, nextL1);
        state.UpdateL1Info(info);
        nextL1 := nextL1 + 1;
      case Some(ReorgDetected) =>
        unfinalizedBlocks := [];
        var start := L1StartBlock(engineDriver.finalizedEpoch.number, cfg.channelTimeout);
        l1, nextL1, lo := newL1, start, start;
        chain := ChainUpTo(chain, engineDriver.finalizedHead.number);
        state.Purge(engineDriver.finalizedHead, engineDriver.finalizedEpoch);
        pipeline.Purge();
        engineDriver.Reorg();
      case Some(Finality(number)) =>
        finalizedL1BlockNumber := number;
    }

    method UpdateStateHead()
      requires Valid()
      modifies state
      ensures Valid() && View() == SyncStep(old(View()))
    {
      state.UpdateSafeHead(engineDriver.safeHead, engineDriver.safeEpoch);
    }

    /** One turn of the loop over the pipeline; more says whether it goes on. */
    method PullOnce(input: PullInput) returns (ok: bool, more: bool)
      requires Valid() && ValidRead(input.read)
      modifies this, state, pipeline, pipeline.batches, engineDriver
      ensures Valid()
      ensures ok <==> PullStep(cfg, old(View()), input.read, input.hash).Some?
      ensures ok ==> View() == PullStep(cfg, old(View()), input.read, input.hash).value
      ensures ok ==> (more <==> NextAttributes(cfg, old(View()).state, old(View()).pipeline, input.read).1.Attrs?)
    {
      ghost var before := View();
      var outcome := pipeline.Next(input.read);
      match outcome
      case NoAttributes =>
        return true, false;
      case PipelineAbort =>
        return false, false;
      case Attrs(attributes) =>
        ok := engineDriver.HandleAttributes(attributes, input.hash);
        if !ok {
          return false, false;
        }
        var newSafeHead := engineDriver.safeHead;
        var newSafeEpoch := engineDriver.safeEpoch;
        state.UpdateSafeHead(newSafeHead, newSafeEpoch);
        unfinalizedBlocks := unfinalizedBlocks
        + [Unfinalized(newSafeHead, newSafeEpoch, attributes.l1InclusionBlock, attributes.seqNumber)];
        chain := chain
        + [Derived(newSafeHead, newSafeEpoch, attributes.l1InclusionBlock, attributes.seqNumber,
                   BlockTransactions(engineDriver.engine, newSafeHead.hash))];
        assert View() == Advanced(before, pipeline.View(), attributes, engineDriver.View());
        more := true;
    }

    /**
     Takes the next update from L1, then pulls until a pull yields nothing, the run ends, or
     the given inputs are used up.
     */
    method AdvanceSafeHead(update: Option<BlockUpdate>, ghost newL1: seq<L1Info>, inputs: seq<PullInput>)
      returns (ok: bool, used: nat)
      requires Valid() && ValidUpdate(View(), update) && ValidInputs(inputs)
      modifies this, state, pipeline, pipeline.batches, engineDriver
      ensures Valid()
      ensures var (end, count) := Drained(cfg, SyncStep(Updated(cfg, old(View()), update, newL1)), inputs);
              used == count && ok == end.Some? && (ok ==> end == Some(View()))
    {
      hide NextAttributes, PullStep, Step, Updated;
      HandleNextBlockUpdate(update, newL1);
      UpdateStateHead();
      ghost var synced := View();
      used, ok := 0, true;
      var more := true;
      while more && used < |inputs|
        invariant Valid() && used <= |inputs| && ok
        invariant more ==> Drained(cfg, synced, inputs) == Onward(Drained(cfg, View(), inputs[used..]), used)
        invariant !more ==> Drained(cfg, synced, inputs) == (Some(View()), used)
        decreases |inputs| - used
      {
        ghost var now := View();
        PullIsStep(cfg, now, inputs[used].read, inputs[used].hash);
        assert inputs[used..][1..] == inputs[used + 1..];
        ok, more := PullOnce(inputs[used]);
        used := used + 1;
        if !ok {
          return;
        }
      }
    }

    method AdvanceUnsafeHead(arrivals: seq<L2Block>, answer: GossipAnswer)
      requires Valid()
      modifies this`futureUnsafeBlocks, engineDriver
      ensures Valid() && View() == UnsafeStep(old(View()), arrivals, answer)
    {
      futureUnsafeBlocks := futureUnsafeBlocks + arrivals;
      futureUnsafeBlocks := RetainBlocks(futureUnsafeBlocks, engineDriver.unsafeHead.number);
      var next := FindPayload(futureUnsafeBlocks, engineDriver.unsafeHead.hash);
      if next.Some? {
        engineDriver.HandleUnsafePayload(next.value, answer);
      }
    }

    method UpdateFinalized()
      requires Valid()
      modifies this`unfinalizedBlocks, engineDriver
      ensures Valid() && View() == FinalizeStep(old(View()))
    {
      var newFinalized: Option<Unfinalized> := None;
      var retained := [];
      for i := 0 to |unfinalizedBlocks|
        invariant newFinalized == LastFinal(unfinalizedBlocks[..i], finalizedL1BlockNumber)
        invariant retained == StillUnfinalized(unfinalizedBlocks[..i], finalizedL1BlockNumber)
      {
        var u := unfinalizedBlocks[i];
        assert unfinalizedBlocks[..i + 1][..i] == unfinalizedBlocks[..i];
        if u.inclusion <= finalizedL1BlockNumber && u.seqNumber == 0 {
          newFinalized := Some(u);
        }
        if u.inclusion > finalizedL1BlockNumber {
          retained := retained + [u];
        }
      }
      assert unfinalizedBlocks[..|unfinalizedBlocks|] == unfinalizedBlocks;
      if newFinalized.Some? {
        engineDriver.UpdateFinalized(newFinalized.value.head, newFinalized.value.epoch);
      }
      unfinalizedBlocks := retained;
    }

    /** One round of the driver's loop. */
    method Advance(
      update: Option<BlockUpdate>, ghost newL1: seq<L1Info>, inputs: seq<PullInput>, arrivals: seq<L2Block>, answer: GossipAnswer)
      returns (ok: bool, used: nat)
      requires Valid() && ValidUpdate(View(), update) && ValidInputs(inputs)
      modifies this, state, pipeline, pipeline.batches, engineDriver
      ensures Valid()
      ensures var (end, count) := Drained(cfg, SyncStep(Updated(cfg, old(View()), update, newL1)), inputs);
              && used == count && ok == end.Some?
              && (ok ==> View() == FinalizeStep(UnsafeStep(end.value, arrivals, answer)))
    {
      hide Updated;
      ok, used := AdvanceSafeHead(update, newL1, inputs);
      if !ok {
        return;
      }
      AdvanceUnsafeHead(arrivals, answer);
      UpdateFinalized();
    }
  }

  // ------------------------------------------------------------------------ rounds are runs

  /** The events of such a round. */
  ghost function RoundEvents(
    update: Option<BlockUpdate>, newL1: seq<L1Info>, inputs: seq<PullInput>, arrivals: seq<L2Block>, answer: GossipAnswer)
    : seq<Event>
  {
    RoundStart(update, newL1) + PullEvents(inputs) + RoundEnd(arrivals, answer)
  }

  ghost function RoundStart(update: Option<BlockUpdate>, newL1: seq<L1Info>): seq<Event> {
    UpdateEvents(update, newL1) + [SyncState]
  }

  ghost function RoundEnd(arrivals: seq<L2Block>, answer: GossipAnswer): seq<Event> {
    [AdvanceUnsafe(arrivals, answer), Event.UpdateFinalized]
  }

  lemma StartIsRun(cfg: Config, n: Node, update: Option<BlockUpdate>, newL1: seq<L1Info>)
    requires ValidConfig(cfg) && ValidUpdate(n, update)
    ensures Run(cfg, n, RoundStart(update, newL1)) == Some(SyncStep(Updated(cfg, n, update, newL1)))
    ensures FairRun(cfg, n, RoundStart(update, newL1))
            <==> (update == Some(ReorgDetected) ==> Fair(cfg, n, L1Reorg(newL1)))
  {
    hide Updated, UpdateEvents, Run, FairRun;
    UpdateIsRun(cfg, n, update, newL1);
    RunAppend(cfg, n, UpdateEvents(update, newL1), SyncState);
  }

  lemma EndIsRun(cfg: Config, n: Node, arrivals: seq<L2Block>, answer: GossipAnswer)
    requires ValidConfig(cfg)
    ensures Run(cfg, n, RoundEnd(arrivals, answer)) == Some(FinalizeStep(UnsafeStep(n, arrivals, answer)))
    ensures FairRun(cfg, n, RoundEnd(arrivals, answer)) <==> !answer.ForkchoiceRejected?
  {
    hide UnsafeStep, FinalizeStep;
    var unsafe := AdvanceUnsafe(arrivals, answer);
    RunAppend(cfg, n, [], unsafe);
    RunAppend(cfg, n, [unsafe], Event.UpdateFinalized);
    assert [] + [unsafe] == [unsafe];
    assert [unsafe] + [Event.UpdateFinalized] == RoundEnd(arrivals, answer);
  }

  /**
   A round is a run of the state machine over the inputs that the loop uses; it fails exactly
   when that run ends in a pull.
   */
  lemma {:induction false} RoundIsRun(
    cfg: Config, n: Node, update: Option<BlockUpdate>, newL1: seq<L1Info>, inputs: seq<PullInput>, arrivals: seq<L2Block>, answer: GossipAnswer)
    requires ValidConfig(cfg) && ValidUpdate(n, update) && ValidInputs(inputs)
    ensures var (end, used) := Drained(cfg, SyncStep(Updated(cfg, n, update, newL1)), inputs);
            && used <= |inputs|
            && Run(cfg, n, RoundStart(update, newL1) + PullEvents(inputs[..used])) == end
            && Run(cfg, n, RoundEvents(update, newL1, inputs[..used], arrivals, answer))
               == (match end case None => None case Some(now) => Some(FinalizeStep(UnsafeStep(now, arrivals, answer))))
  {
    hide Updated, Drained, Run, FairRun, RoundStart, RoundEnd, UnsafeStep, FinalizeStep;
    var synced := SyncStep(Updated(cfg, n, update, newL1));
    var (end, used) := Drained(cfg, synced, inputs);
    DrainedIsRun(cfg, synced, inputs);
    var start, pulls := RoundStart(update, newL1), PullEvents(inputs[..used]);
    StartIsRun(cfg, n, update, newL1);
    RunConcat(cfg, n, start, pulls);
    RunConcat(cfg, n, start + pulls, RoundEnd(arrivals, answer));
    if end.Some? {
      EndIsRun(cfg, end.value, arrivals, answer);
    }
  }

  /** All inputs are aligned, and none names an L1 block that is not delivered. */
  ghost predicate FairInputs(cfg: Config, n: Node, inputs: seq<PullInput>)
    requires ValidConfig(cfg) && ValidInputs(inputs)
  {
    forall i :: 0 <= i < |inputs| ==> ReadAligned(cfg, inputs[i].read) && ReadDelivered(n, inputs[i].read)
  }

  lemma FairInputsStay(cfg: Config, n: Node, n': Node, inputs: seq<PullInput>)
    requires ValidConfig(cfg) && ValidInputs(inputs) && FairInputs(cfg, n, inputs) && inputs != []
    requires forall b :: NamesUndelivered(n', b) ==> NamesUndelivered(n, b)
    ensures ValidInputs(inputs[1..]) && FairInputs(cfg, n', inputs[1..])
  {
    hide NamesUndelivered;
    forall i | 0 <= i < |inputs| - 1
      ensures ReadAligned(cfg, inputs[1..][i].read) && ReadDelivered(n', inputs[1..][i].read)
    {
      assert ReadAligned(cfg, inputs[i + 1].read) && ReadDelivered(n, inputs[i + 1].read);
    }
  }

  /** What the loop does on fair inputs is fair, and keeps the invariant. */
  lemma {:induction false} DrainedIsFair(cfg: Config, n: Node, inputs: seq<PullInput>)
    requires ValidConfig(cfg) && Inv(cfg, n) && ValidInputs(inputs) && FairInputs(cfg, n, inputs)
    ensures var (end, used) := Drained(cfg, n, inputs);
            used <= |inputs| && FairRun(cfg, n, PullEvents(inputs[..used])) && (end.Some? ==> Inv(cfg, end.value))
    decreases |inputs|
  {
    hide Inv, NextAttributes, PullStep, ReadDelivered, ReadAligned, NamesUndelivered, PullYields;
    if inputs != [] {
      var e := Pull(inputs[0].read, inputs[0].hash);
      var used := Drained(cfg, n, inputs).1;
      RunAppend(cfg, n, [], e);
      assert [] + [e] == [e];
      if Step(cfg, n, e).Some? {
        StepKeeps(cfg, n, e);
        var next := Step(cfg, n, e).value;
        PullStepKept(cfg, n, inputs[0]);
        if PullYields(cfg, n, inputs[0]) {
          FairInputsStay(cfg, n, next, inputs);
          DrainedIsFair(cfg, next, inputs[1..]);
          RunConcat(cfg, n, [e], PullEvents(inputs[1..][..used - 1]));
          assert [e] + PullEvents(inputs[1..][..used - 1]) == PullEvents(inputs[..used]);
        }
      }
      assert PullEvents(inputs[..1]) == [e];
    }
  }

  lemma PullStepKept(cfg: Config, n: Node, input: PullInput)
    requires ValidConfig(cfg) && Inv(cfg, n) && Fair(cfg, n, Pull(input.read, input.hash)) && Step(cfg, n, Pull(input.read, input.hash)).Some?
    ensures var n' := Step(cfg, n, Pull(input.read, input.hash)).value;
            forall b :: NamesUndelivered(n', b) ==> NamesUndelivered(n, b)
  {
    hide NextAttributes, PullStep, NamesUndelivered;
    PullKeepsDelivered(cfg, n, input.read, input.hash);
  }

  /**
   A round that starts in a state of a fair run, with aligned inputs, a reorg above the finalized
   epoch if any, and no refused forkchoice, is a fair run again: the invariant and all results
   about fair runs hold of what any number of such rounds do.
   */
  lemma {:induction false} RoundIsFair(
    cfg: Config, n: Node, update: Option<BlockUpdate>, newL1: seq<L1Info>, inputs: seq<PullInput>, arrivals: seq<L2Block>, answer: GossipAnswer)
    requires ValidConfig(cfg) && Inv(cfg, n) && ValidUpdate(n, update) && ValidInputs(inputs)
    requires update == Some(ReorgDetected) ==> Fair(cfg, n, L1Reorg(newL1))
    requires FairInputs(cfg, SyncStep(Updated(cfg, n, update, newL1)), inputs) && !answer.ForkchoiceRejected?
    ensures var used := Drained(cfg, SyncStep(Updated(cfg, n, update, newL1)), inputs).1;
            used <= |inputs| && FairRun(cfg, n, RoundEvents(update, newL1, inputs[..used], arrivals, answer))
  {
    hide Inv, Updated, Drained, Run, FairRun, RoundStart, RoundEnd, UnsafeStep, FinalizeStep, FairInputs, Fair;
    var synced := SyncStep(Updated(cfg, n, update, newL1));
    var (end, used) := Drained(cfg, synced, inputs);
    StartKeeps(cfg, n, update, newL1);
    DrainedIsRun(cfg, synced, inputs);
    DrainedIsFair(cfg, synced, inputs);
    var start, pulls := RoundStart(update, newL1), PullEvents(inputs[..used]);
    StartIsRun(cfg, n, update, newL1);
    RunConcat(cfg, n, start, pulls);
    RunConcat(cfg, n, start + pulls, RoundEnd(arrivals, answer));
    if end.Some? {
      EndIsRun(cfg, end.value, arrivals, answer);
    }
  }

  lemma StartKeeps(cfg: Config, n: Node, update: Option<BlockUpdate>, newL1: seq<L1Info>)
    requires ValidConfig(cfg) && Inv(cfg, n) && ValidUpdate(n, update)
    requires update == Some(ReorgDetected) ==> Fair(cfg, n, L1Reorg(newL1))
    ensures Inv(cfg, SyncStep(Updated(cfg, n, update, newL1)))
  {
    hide Inv, NewBlockStep, ReorgStep, SyncStep;
    if update.Some? {
      StepKeeps(cfg, n, UpdateEvents(update, newL1)[0]);
    }
    StepKeeps(cfg, Updated(cfg, n, update, newL1), SyncState);
  }
}
