/** When a pull of the pipeline ends the process, once its channel is decoded, and that it does so in no other way. */
module AbortSafety {
  import opened Base
  import opened Types
  import opened SpanBlocks
  import opened DerivationState
  import opened BatchQueue
  import opened BatchSafety
  import opened Attributes
  import opened ForkChoice
  import opened ForkChoiceSafety
  import opened NodeModel
  import opened NodeSafety
  import opened NodeTheorems

  /** A span that passes the checks of its header but starts before the cached L1 blocks. */
  ghost predicate AsksForgotten(cfg: Config, n: Node, b: Batch)
    requires ValidConfig(cfg)
  {
    b.Span? && ValidSpan(b.span) && SpanHeaderStatus(cfg, n.state, b.span) == Accept && StartEpochNum(b.span) < n.lo
  }

  /** A batch whose status panics. */
  ghost predicate Panics(cfg: Config, n: Node, b: Batch)
    requires ValidConfig(cfg)
  {
    EmptySpan(b) || AsksForgotten(cfg, n, b)
  }

  ghost predicate FirstPanics(cfg: Config, n: Node, batches: map<nat, Batch>, t: nat)
    requires ValidConfig(cfg) && Keyed(cfg, batches)
  {
    && t in batches && Panics(cfg, n, batches[t])
    && forall u :: u in batches && u < t ==> Status(cfg, n.state, batches[u]) == Drop
  }

  /** Nothing is pending, and of the batches the pull looks at the first that is not dropped panics. */
  ghost predicate ScanPanics(cfg: Config, n: Node, read: ChannelRead)
    requires ValidConfig(cfg) && Keyed(cfg, Candidates(cfg, n, read))
  {
    && n.pipeline.queue.pending == [] && !read.Undecodable?
    && exists t :: FirstPanics(cfg, n, Candidates(cfg, n, read), t)
  }

  lemma PanicsIff(cfg: Config, n: Node, b: Batch)
    requires Inv(cfg, n) && ValidBatch(b)
    ensures Status(cfg, n.state, b) == Crash <==> Panics(cfg, n, b)
  {
    CrashIff(cfg, n.state, b, n.l1, n.lo, n.nextL1);
  }

  lemma QueueAbortsIff(cfg: Config, n: Node, read: ChannelRead)
    requires Inv(cfg, n) && ValidRead(read) && Keyed(cfg, Candidates(cfg, n, read))
    ensures TryNext(cfg, n.state, n.pipeline.queue, read).1 == Abort <==> ScanPanics(cfg, n, read)
  {
    var batches := Candidates(cfg, n, read);
    assert ValidConfig(cfg) && Keyed(cfg, n.pipeline.queue.batches);
    hide Inv, Status, Panics;
    ScanAbortsIff(cfg, n.state, batches);
    forall t | t in batches ensures Status(cfg, n.state, batches[t]) == Crash <==> Panics(cfg, n, batches[t]) {
      PanicsIff(cfg, n, batches[t]);
    }
    forall t: nat ensures FirstKept(cfg, n.state, batches, t, Crash) <==> FirstPanics(cfg, n, batches, t) {
    }
  }

  // ----------------------------------------------------------- origins that are delivered

  /** No stored single batch names the safe epoch's L1 block before that is delivered. */
  ghost predicate NamesDelivered(n: Node) {
    forall t :: t in n.pipeline.queue.batches ==> !NamesUndelivered(n, n.pipeline.queue.batches[t])
  }

  lemma {:induction false} InsertFrom(cfg: Config, batches: map<nat, Batch>, new_: seq<Batch>)
    ensures forall t :: t in Insert(cfg, batches, new_) ==>
              (t in batches && batches[t] == Insert(cfg, batches, new_)[t]) || Insert(cfg, batches, new_)[t] in new_
  {
    if new_ != [] {
      InsertFrom(cfg, batches, new_[..|new_| - 1]);
    }
  }

  /** What a pull looks at names only delivered blocks, too. */
  lemma CandidatesDelivered(cfg: Config, n: Node, read: ChannelRead)
    requires NamesDelivered(n) && ReadDelivered(n, read)
    ensures forall t :: t in Candidates(cfg, n, read) ==> !NamesUndelivered(n, Candidates(cfg, n, read)[t])
  {
    if read.Decoded? {
      InsertFrom(cfg, n.pipeline.queue.batches, read.batches);
    }
  }

  lemma {:induction false} FilterFrom(s: StateView, inputs: seq<BlockInput>)
    ensures forall input :: input in FilterInputs(s, inputs) ==> input in inputs
    decreases |inputs|
  {
    if inputs != [] {
      FilterFrom(s, inputs[1..]);
    }
  }

  /** The blocks of an accepted batch have origins that are cached, unless it names the safe epoch too early. */
  lemma AcceptedOrigins(cfg: Config, s: StateView, l1: seq<L1Info>, lo: nat, next: nat, b: Batch)
    requires ValidConfig(cfg) && ValidBatch(b) && Window(s, l1, lo, next) && lo <= s.safeEpoch.number
    requires Status(cfg, s, b) == Accept
    requires next <= s.safeEpoch.number && b.Single? ==> b.single.epochHash != s.safeEpoch.hash
    ensures forall input :: input in AsInputs(cfg, b) ==> lo <= input.epoch < next
  {
    match b
    case Single(single) =>
      SingleAcceptIff(cfg, s, single);
      EpochByNumberExact(s, l1, lo, next, s.safeEpoch.number + 1);
    case Span(span) =>
      forall i | 0 <= i < span.blockCount ensures lo <= BlockInputs(cfg, span)[i].epoch < next {
        AcceptedBlock(cfg, s, l1, lo, next, span, i);
      }
  }

  /** Whatever is emitted has an origin that can be looked up. */
  lemma DeriveResolves(cfg: Config, n: Node, batches: map<nat, Batch>)
    requires Inv(cfg, n) && Keyed(cfg, batches) && forall t :: t in batches ==> !NamesUndelivered(n, batches[t])
    ensures var outcome := Derive(cfg, n.state, batches).1;
            outcome.Emit? ==> n.lo <= outcome.input.epoch < n.nextL1
  {
    var s := n.state;
    ScanKeeps(cfg, s, batches);
    EpochByNumberExact(s, n.l1, n.lo, n.nextL1, s.safeEpoch.number + 1);
    var result := Scan(cfg, s, batches).1;
    if result.Accepted? {
      assert !NamesUndelivered(n, batches[Timestamp(cfg, result.batch)]);
      AcceptedOrigins(cfg, s, n.l1, n.lo, n.nextL1, result.batch);
      FilterFrom(s, AsInputs(cfg, result.batch));
    }
  }

  lemma EmitsDelivered(cfg: Config, n: Node, read: ChannelRead)
    requires Inv(cfg, n) && ValidRead(read) && NamesDelivered(n) && ReadDelivered(n, read)
    ensures var outcome := TryNext(cfg, n.state, n.pipeline.queue, read).1;
            outcome.Emit? ==> n.lo <= outcome.input.epoch < n.nextL1
  {
    CandidatesKeyed(cfg, n, read);
    CandidatesDelivered(cfg, n, read);
    if n.pipeline.queue.pending == [] && !read.Undecodable? {
      DeriveResolves(cfg, n, Candidates(cfg, n, read));
    }
  }

  // ------------------------------------------------------------------------ when a pull aborts

  /**
   A pull whose channel is decoded ends the process exactly when the first stored or arriving
   batch that is not dropped is a span without blocks, or a span that passes the checks of its
   header but starts before the cached L1 blocks.
   */
  lemma PullAbortsIff(cfg: Config, n: Node, read: ChannelRead)
    requires Inv(cfg, n) && ValidRead(read) && NamesDelivered(n) && ReadDelivered(n, read)
    ensures Keyed(cfg, Candidates(cfg, n, read))
    ensures NextAttributes(cfg, n.state, n.pipeline, read).1 == PipelineAbort <==> ScanPanics(cfg, n, read)
  {
    CandidatesKeyed(cfg, n, read);
    QueueAbortsIff(cfg, n, read);
    EmitsDelivered(cfg, n, read);
    var outcome := TryNext(cfg, n.state, n.pipeline.queue, read).1;
    if outcome.Emit? {
      EpochByNumberExact(n.state, n.l1, n.lo, n.nextL1, outcome.input.epoch);
      WindowResolvesHash(n.state, n.l1, n.lo, n.nextL1, outcome.input.epoch);
    }
  }

  /** A scan only takes batches away. */
  lemma RestOfCandidates(cfg: Config, n: Node, read: ChannelRead)
    requires ValidConfig(cfg) && ValidRead(read)
    requires Keyed(cfg, n.pipeline.queue.batches) && Keyed(cfg, Candidates(cfg, n, read))
    ensures var batches := TryNext(cfg, n.state, n.pipeline.queue, read).0.batches;
            forall t :: t in batches ==>
              || (t in n.pipeline.queue.batches && batches[t] == n.pipeline.queue.batches[t])
              || (t in Candidates(cfg, n, read) && batches[t] == Candidates(cfg, n, read)[t])
  {
    hide Status, ForcedInput, AsInputs, Insert;
    ScanKeeps(cfg, n.state, Candidates(cfg, n, read));
  }

  lemma QueueKeepsNames(cfg: Config, n: Node, read: ChannelRead)
    requires ValidConfig(cfg) && ValidRead(read)
    requires Keyed(cfg, n.pipeline.queue.batches) && Keyed(cfg, Candidates(cfg, n, read))
    requires NamesDelivered(n) && ReadDelivered(n, read)
    ensures var batches := NextAttributes(cfg, n.state, n.pipeline, read).0.queue.batches;
            forall t :: t in batches ==> !NamesUndelivered(n, batches[t])
  {
    hide TryNext, Candidates, Insert;
    CandidatesDelivered(cfg, n, read);
    RestOfCandidates(cfg, n, read);
  }

  /** Once a block was derived, its origin is the safe epoch and delivered. */
  lemma AdvancedNames(n: Node, p: Pipeline, a: PayloadAttributes, driven: Driven)
    requires SafeAdvanced(n.driven, driven, a) && a.epoch.number < n.nextL1
    ensures forall b :: !NamesUndelivered(Advanced(n, p, a, driven), b)
  {
  }

  lemma AfterPullKeepsNames(cfg: Config, n: Node, p: Pipeline, outcome: PipelineOutcome, hash: Hash)
    requires Inv(cfg, n) && AfterPull(cfg, n, p, outcome, hash).Some?
    requires outcome.Attrs? ==> GoodAttributes(cfg, n, p, outcome.attributes)
    ensures var n' := AfterPull(cfg, n, p, outcome, hash).value;
            n'.pipeline == p && forall b :: NamesUndelivered(n', b) ==> NamesUndelivered(n, b)
  {
    hide StateOk, QueueOk, ChainOk, UnfinalizedOk, AttributesHandled, SafeAdvanced;
    if outcome.Attrs? {
      NextSlotIsNext(cfg, n);
      AttributesHandledSafe(n.driven, cfg.blocktime, outcome.attributes, hash);
      AdvancedNames(n, p, outcome.attributes, AttributesHandled(n.driven, cfg.blocktime, outcome.attributes, hash).value);
    }
  }

  /** A pull leaves no L1 block to name too early that was not so before. */
  lemma PullKeepsDelivered(cfg: Config, n: Node, read: ChannelRead, hash: Hash)
    requires Inv(cfg, n) && ValidRead(read) && ReadAligned(cfg, read) && PullStep(cfg, n, read, hash).Some?
    ensures var n' := PullStep(cfg, n, read, hash).value;
            && n'.pipeline == NextAttributes(cfg, n.state, n.pipeline, read).0
            && forall b :: NamesUndelivered(n', b) ==> NamesUndelivered(n, b)
  {
    hide NextAttributes, AfterPull, NamesUndelivered, GoodAttributes;
    var (p, outcome) := NextAttributes(cfg, n.state, n.pipeline, read);
    NextAttributesGood(cfg, n, read);
    AfterPullKeepsNames(cfg, n, p, outcome, hash);
  }

  lemma PullKeepsNames(cfg: Config, n: Node, read: ChannelRead, hash: Hash)
    requires Inv(cfg, n) && Fair(cfg, n, Pull(read, hash)) && NamesDelivered(n)
    requires PullStep(cfg, n, read, hash).Some?
    ensures NamesDelivered(PullStep(cfg, n, read, hash).value)
  {
    hide NextAttributes, PullStep, NamesUndelivered;
    CandidatesKeyed(cfg, n, read);
    QueueKeepsNames(cfg, n, read);
    PullKeepsDelivered(cfg, n, read, hash);
  }

  lemma StepKeepsNames(cfg: Config, n: Node, e: Event)
    requires Inv(cfg, n) && Fair(cfg, n, e) && NamesDelivered(n) && Step(cfg, n, e).Some?
    ensures NamesDelivered(Step(cfg, n, e).value)
  {
    if e.Pull? {
      PullKeepsNames(cfg, n, e.read, e.hash);
    }
  }

  lemma {:induction false} RunKeepsNames(cfg: Config, n: Node, events: seq<Event>)
    requires Init(cfg, n) && FairRun(cfg, n, events) && Run(cfg, n, events).Some?
    ensures NamesDelivered(Run(cfg, n, events).value)
    decreases |events|
  {
    if events != [] {
      hide Inv, Fair, Step, NamesDelivered;
      var init := events[..|events| - 1];
      RunKeepsNames(cfg, n, init);
      RunKeeps(cfg, n, init);
      StepKeepsNames(cfg, Run(cfg, n, init).value, events[|events| - 1]);
    } else {
      InitNames(cfg, n);
    }
  }

  lemma InitNames(cfg: Config, n: Node)
    requires Init(cfg, n)
    ensures NamesDelivered(n)
  {
  }

  /** So in every state of every fair run, for whatever batches come next, aligned or not. */
  lemma RunAbortsIff(cfg: Config, n: Node, events: seq<Event>, read: ChannelRead)
    requires Init(cfg, n) && FairRun(cfg, n, events) && Run(cfg, n, events).Some?
    requires ValidRead(read) && ReadDelivered(Run(cfg, n, events).value, read)
    ensures var now := Run(cfg, n, events).value;
            && Keyed(cfg, Candidates(cfg, now, read)) && Keyed(cfg, now.pipeline.queue.batches)
            && (NextAttributes(cfg, now.state, now.pipeline, read).1 == PipelineAbort <==> ScanPanics(cfg, now, read))
  {
    RunKeeps(cfg, n, events);
    RunKeepsNames(cfg, n, events);
    PullAbortsIff(cfg, Run(cfg, n, events).value, read);
  }
}
