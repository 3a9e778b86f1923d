/** Sequence numbers and deposits of the derived chain, over whole runs with reorgs. */
module Sequencing {
  import opened Base
  import opened Types
  import opened SpanBlocks
  import opened DerivationState
  import opened BatchQueue
  import opened BatchSafety
  import opened Attributes
  import opened NodeModel
  import opened NodeSafety
  import opened NodeTheorems

  // --------------------------------------------------------------------- sequence numbers

  /** Position of block i in its epoch, counted on the chain from the block at base on. */
  function Position(chain: seq<Derived>, base: nat, i: nat): nat
    requires base <= i < |chain|
  {
    if i == base then chain[base].sequenceNumber
    else if chain[i].epoch.hash == chain[i - 1].epoch.hash then Position(chain, base, i - 1) + 1
    else 0
  }

  lemma {:induction false} PositionOfPrefix(chain: seq<Derived>, chain': seq<Derived>, base: nat, i: nat)
    requires base <= i < |chain| && i < |chain'| && chain'[..i + 1] == chain[..i + 1]
    ensures Position(chain', base, i) == Position(chain, base, i)
  {
    assert chain'[i] == chain'[..i + 1][i] == chain[..i + 1][i] == chain[i];
    if i > base {
      assert chain'[..i] == chain'[..i + 1][..i] == chain[..i + 1][..i] == chain[..i];
      assert chain'[i - 1] == chain'[..i][i - 1] == chain[..i][i - 1] == chain[i - 1];
      PositionOfPrefix(chain, chain', base, i - 1);
    }
  }

  ghost predicate Recorded(chain: seq<Derived>, base: nat) {
    forall i :: base <= i < |chain| ==> chain[i].sequenceNumber == Position(chain, base, i)
  }

  /** The pipeline counts right: it knows the safe head's epoch and position in it. */
  ghost predicate SequenceOk(n: Node)
    requires n.base < |n.chain|
  {
    && n.pipeline.epochHash == Last(n.chain).epoch.hash
    && n.pipeline.sequenceNumber == Position(n.chain, n.base, |n.chain| - 1)
    && Recorded(n.chain, n.base)
  }

  /** Only first blocks of epochs are finalized, apart from the block the node started at. */
  ghost predicate FinalizedFirst(n: Node)
    requires n.chain != [] && OnChain(n.chain, n.driven.heads.finalizedHead.number)
  {
    var f := n.driven.heads.finalizedHead.number;
    f - n.chain[0].info.number == n.base || At(n.chain, f).sequenceNumber == 0
  }

  lemma RecordedPrefix(chain: seq<Derived>, base: nat, k: nat)
    requires base < k <= |chain| && Recorded(chain, base)
    ensures Recorded(chain[..k], base) && Position(chain[..k], base, k - 1) == chain[k - 1].sequenceNumber
  {
    forall i | base <= i < k ensures chain[..k][i].sequenceNumber == Position(chain[..k], base, i) {
      assert chain[..k][..i + 1] == chain[..i + 1];
      PositionOfPrefix(chain, chain[..k], base, i);
    }
  }

  lemma RecordedGrows(chain: seq<Derived>, base: nat, d: Derived)
    requires base < |chain| && Recorded(chain, base)
    requires d.sequenceNumber == NextSequence(Last(chain).sequenceNumber, Last(chain).epoch.hash, d.epoch.hash)
    ensures Recorded(chain + [d], base) && Position(chain + [d], base, |chain|) == d.sequenceNumber
  {
    var chain' := chain + [d];
    forall i | base <= i < |chain| ensures chain'[i].sequenceNumber == Position(chain', base, i) {
      assert chain'[..i + 1] == chain[..i + 1];
      PositionOfPrefix(chain, chain', base, i);
    }
  }

  lemma PullSequence(cfg: Config, n: Node, p: Pipeline, outcome: PipelineOutcome, hash: Hash)
    requires Inv(cfg, n) && SequenceOk(n) && AfterPull(cfg, n, p, outcome, hash).Some?
    requires outcome.Attrs? ==> GoodAttributes(cfg, n, p, outcome.attributes)
    requires outcome.NoAttributes? ==> p.sequenceNumber == n.pipeline.sequenceNumber && p.epochHash == n.pipeline.epochHash
    ensures var n' := AfterPull(cfg, n, p, outcome, hash).value;
            && n'.base == n.base < |n'.chain| && SequenceOk(n')
            && n'.chain[n.base] == n.chain[n.base]
  {
    if outcome.Attrs? {
      PullAppends(cfg, n, p, outcome.attributes, hash);
      PulledSequence(n, p, outcome.attributes, AfterPull(cfg, n, p, outcome, hash).value);
    }
  }

  lemma PulledSequence(n: Node, p: Pipeline, a: PayloadAttributes, n': Node)
    requires n.base < |n.chain| && SequenceOk(n) && Pulled(n, p, a, n')
    requires a.seqNumber == NextSequence(n.pipeline.sequenceNumber, n.pipeline.epochHash, a.epoch.hash)
    requires p.sequenceNumber == a.seqNumber && p.epochHash == a.epoch.hash
    ensures n'.base < |n'.chain| && SequenceOk(n') && n'.chain[n.base] == n.chain[n.base]
  {
    RecordedGrows(n.chain, n.base, Last(n'.chain));
  }

  lemma ReorgPositions(cfg: Config, n: Node, l1: seq<L1Info>)
    requires Inv(cfg, n) && SequenceOk(n) && Fair(cfg, n, L1Reorg(l1))
    ensures var n' := ReorgStep(cfg, n, l1);
            && n'.base < |n'.chain| && Recorded(n'.chain, n'.base)
            && Position(n'.chain, n'.base, |n'.chain| - 1) == At(n.chain, n.driven.heads.finalizedHead.number).sequenceNumber
            && Last(n'.chain) == At(n.chain, n.driven.heads.finalizedHead.number)
  {
    var k := n.driven.heads.finalizedHead.number - n.chain[0].info.number + 1;
    assert ReorgStep(cfg, n, l1).chain == n.chain[..k];
    RecordedPrefix(n.chain, n.base, k);
  }

  /**
   A reorg restarts the count at zero. That is right exactly when the finalized head, which
   becomes the safe head, is the first block of its epoch.
   */
  lemma ReorgCountsRightIff(cfg: Config, n: Node, l1: seq<L1Info>)
    requires Inv(cfg, n) && SequenceOk(n) && Fair(cfg, n, L1Reorg(l1))
    ensures n.base < |ReorgStep(cfg, n, l1).chain|
    ensures SequenceOk(ReorgStep(cfg, n, l1)) <==> At(n.chain, n.driven.heads.finalizedHead.number).sequenceNumber == 0
  {
    ReorgPositions(cfg, n, l1);
  }

  /** Steps other than a pull, a reorg and finalization leave chain and pipeline alone. */
  lemma QuietStep(cfg: Config, n: Node, e: Event)
    requires Inv(cfg, n) && Fair(cfg, n, e) && Step(cfg, n, e).Some?
    requires !e.Pull? && !e.L1Reorg? && !e.UpdateFinalized?
    ensures var n' := Step(cfg, n, e).value;
            && n'.chain == n.chain && n'.base == n.base && n'.pipeline == n.pipeline
            && n'.driven.heads.finalizedHead == n.driven.heads.finalizedHead
            && (n'.l1 == n.l1 || exists info :: n'.l1 == n.l1 + [info])
  {
  }

  lemma StepSequence(cfg: Config, n: Node, e: Event)
    requires Inv(cfg, n) && Fair(cfg, n, e) && Step(cfg, n, e).Some?
    requires SequenceOk(n) && FinalizedFirst(n) && n.chain[n.base].sequenceNumber == 0
    ensures var n' := Step(cfg, n, e).value;
            && Inv(cfg, n') && SequenceOk(n') && FinalizedFirst(n') && n'.chain[n'.base].sequenceNumber == 0
  {
    hide NextAttributes, AfterPull, SequenceOk, FinalizedFirst, ChainOk, StateOk, QueueOk, UnfinalizedOk;
    StepKeeps(cfg, n, e);
    if e.L1Reorg? {
      ReorgPositions(cfg, n, e.l1);
      ReorgSequence(cfg, n, e.l1);
    } else if e.Pull? {
      NextAttributesGood(cfg, n, e.read);
      var (p, outcome) := NextAttributes(cfg, n.state, n.pipeline, e.read);
      PullSequence(cfg, n, p, outcome, e.hash);
      PullFinalizedFirst(cfg, n, p, outcome, e.hash);
    } else if e.UpdateFinalized? {
      FinalizeFirst(cfg, n);
      FinalizeSequence(n);
    } else {
      QuietStep(cfg, n, e);
      QuietSequence(n, Step(cfg, n, e).value);
    }
  }

  lemma FinalizeSequence(n: Node)
    requires n.base < |n.chain| && SequenceOk(n)
    ensures var n' := FinalizeStep(n); n'.chain == n.chain && n'.base == n.base && SequenceOk(n')
  {
  }

  lemma QuietSequence(n: Node, n': Node)
    requires n.base < |n.chain| && SequenceOk(n)
    requires OnChain(n.chain, n.driven.heads.finalizedHead.number) && FinalizedFirst(n)
    requires n'.chain == n.chain && n'.base == n.base && n'.pipeline == n.pipeline
    requires n'.driven.heads.finalizedHead == n.driven.heads.finalizedHead
    ensures SequenceOk(n') && FinalizedFirst(n')
  {
    hide Position, Recorded;
  }

  lemma ReorgSequence(cfg: Config, n: Node, l1: seq<L1Info>)
    requires Inv(cfg, n) && Fair(cfg, n, L1Reorg(l1)) && Inv(cfg, ReorgStep(cfg, n, l1))
    requires SequenceOk(n) && FinalizedFirst(n) && n.chain[n.base].sequenceNumber == 0
    ensures var n' := ReorgStep(cfg, n, l1);
            SequenceOk(n') && FinalizedFirst(n') && n'.chain[n'.base].sequenceNumber == 0
  {
    ReorgCountsRightIff(cfg, n, l1);
    ReorgStart(cfg, n, l1);
  }

  lemma ReorgStart(cfg: Config, n: Node, l1: seq<L1Info>)
    requires Inv(cfg, n) && Inv(cfg, ReorgStep(cfg, n, l1)) && FinalizedFirst(n)
    ensures var n' := ReorgStep(cfg, n, l1);
            n'.base == n.base && n'.chain[n.base] == n.chain[n.base] && FinalizedFirst(n')
  {
    var k := n.driven.heads.finalizedHead.number - n.chain[0].info.number + 1;
    assert ReorgStep(cfg, n, l1).chain == n.chain[..k];
  }

  lemma FinalizeFirst(cfg: Config, n: Node)
    requires Inv(cfg, n) && FinalizedFirst(n) && Inv(cfg, FinalizeStep(n))
    ensures FinalizedFirst(FinalizeStep(n))
  {
    LastFinalFinds(n.unfinalized, n.finalizedL1);
    var found := LastFinal(n.unfinalized, n.finalizedL1);
    if found.Some? {
      assert EntryOk(n.chain, n.base, found.value);
    }
  }

  lemma PullFinalizedFirst(cfg: Config, n: Node, p: Pipeline, outcome: PipelineOutcome, hash: Hash)
    requires Inv(cfg, n) && FinalizedFirst(n) && AfterPull(cfg, n, p, outcome, hash).Some?
    requires outcome.Attrs? ==> GoodAttributes(cfg, n, p, outcome.attributes)
    requires Inv(cfg, AfterPull(cfg, n, p, outcome, hash).value)
    ensures FinalizedFirst(AfterPull(cfg, n, p, outcome, hash).value)
  {
    if outcome.Attrs? {
      PullAppends(cfg, n, p, outcome.attributes, hash);
      PulledFinalizedFirst(n, p, outcome.attributes, AfterPull(cfg, n, p, outcome, hash).value);
    }
  }

  lemma PulledFinalizedFirst(n: Node, p: Pipeline, a: PayloadAttributes, n': Node)
    requires Pulled(n, p, a, n') && OnChain(n.chain, n.driven.heads.finalizedHead.number) && FinalizedFirst(n)
    ensures OnChain(n'.chain, n'.driven.heads.finalizedHead.number) && FinalizedFirst(n')
  {
    assert n'.chain[0] == n.chain[0];
  }

  /** From the first block of an epoch on, the count is right in every state of every fair run. */
  lemma {:induction false} SequenceRight(cfg: Config, n: Node, events: seq<Event>)
    requires Init(cfg, n) && n.chain[n.base].sequenceNumber == 0
    requires FairRun(cfg, n, events) && Run(cfg, n, events).Some?
    ensures var n' := Run(cfg, n, events).value;
            && Inv(cfg, n') && SequenceOk(n') && FinalizedFirst(n') && n'.chain[n'.base].sequenceNumber == 0
    decreases |events|
  {
    if events == [] {
      InitInv(cfg, n);
    } else {
      SequenceRight(cfg, n, events[..|events| - 1]);
      StepSequence(cfg, Run(cfg, n, events[..|events| - 1]).value, events[|events| - 1]);
    }
  }

  /**
   Sequence numbers are right in all fair runs exactly when the node starts at the first
   block of an epoch: otherwise a reorg before anything is finalized already breaks them.
   */
  lemma SequenceRightIff(cfg: Config, n: Node)
    requires Init(cfg, n)
    ensures (forall events ::
               FairRun(cfg, n, events) && Run(cfg, n, events).Some? ==>
                 var n' := Run(cfg, n, events).value; n'.base < |n'.chain| && SequenceOk(n'))
            <==> n.chain[n.base].sequenceNumber == 0
  {
    if n.chain[n.base].sequenceNumber == 0 {
      forall events | FairRun(cfg, n, events) && Run(cfg, n, events).Some?
        ensures var n' := Run(cfg, n, events).value; n'.base < |n'.chain| && SequenceOk(n')
      {
        SequenceRight(cfg, n, events);
      }
    } else {
      InitInv(cfg, n);
      var reorg := [L1Reorg(n.l1)];
      assert reorg[..0] == [];
      assert Placed(cfg, n.l1, Last(n.chain));
      assert Fair(cfg, n, reorg[0]);
      ReorgCountsRightIff(cfg, n, n.l1);
      assert Run(cfg, n, reorg) == Some(ReorgStep(cfg, n, n.l1));
      assert FairRun(cfg, n, reorg[..0]);
      assert FairRun(cfg, n, reorg);
    }
  }

  // ----------------------------------------------------------------------------- deposits

  /** The user deposits in the blocks after base up to block i, in order. */
  function ChainDeposits(chain: seq<Derived>, base: nat, i: nat): seq<UserDeposited>
    requires base <= i < |chain|
  {
    if i == base then [] else ChainDeposits(chain, base, i - 1) + DepositsIn(chain[i].transactions)
  }

  /** The deposits of one L1 block. */
  function DepositsAt(l1: seq<L1Info>, number: int): seq<UserDeposited> {
    if 0 <= number < |l1| then l1[number].userDeposits else []
  }

  /** The deposits of the L1 blocks after from up to to, in order. */
  function L1Deposits(l1: seq<L1Info>, from: nat, to: int): seq<UserDeposited>
    decreases to
  {
    if to <= from then [] else L1Deposits(l1, from, to - 1) + DepositsAt(l1, to)
  }

  /** Block i opens its epoch and then carries its deposits, or carries none. */
  ghost predicate Carries(l1: seq<L1Info>, chain: seq<Derived>, i: nat)
    requires 0 < i < |chain|
  {
    DepositsIn(chain[i].transactions)
    == if chain[i].epoch.hash != chain[i - 1].epoch.hash then DepositsAt(l1, chain[i].epoch.number) else []
  }

  ghost predicate DepositsPlaced(l1: seq<L1Info>, chain: seq<Derived>, base: nat) {
    forall i :: base < i < |chain| ==> Carries(l1, chain, i)
  }

  /** The pipeline knows the safe head's epoch, and so far deposits are where they belong. */
  ghost predicate DepositsOk(cfg: Config, n: Node) {
    && Inv(cfg, n)
    && n.pipeline.epochHash == Last(n.chain).epoch.hash
    && DepositsPlaced(n.l1, n.chain, n.base)
  }

  /** Deposits stay placed on a part of the chain when the L1 blocks it comes from stay. */
  lemma PlacedOnPrefix(l1: seq<L1Info>, l1': seq<L1Info>, chain: seq<Derived>, base: nat, k: nat, last: nat)
    requires DepositsPlaced(l1, chain, base) && k <= |chain|
    requires last <= |l1| && last <= |l1'| && l1'[..last] == l1[..last]
    requires forall i :: 0 <= i < k ==> chain[i].epoch.number < last
    ensures DepositsPlaced(l1', chain[..k], base)
  {
    forall i | base < i < k ensures Carries(l1', chain[..k], i) {
      assert Carries(l1, chain, i);
      var e := chain[i].epoch.number;
      assert l1'[e] == l1'[..last][e] == l1[..last][e] == l1[e];
    }
  }

  lemma PlacedGrows(l1: seq<L1Info>, chain: seq<Derived>, base: nat, d: Derived)
    requires DepositsPlaced(l1, chain, base) && chain != []
    requires DepositsIn(d.transactions)
          == if d.epoch.hash != Last(chain).epoch.hash then DepositsAt(l1, d.epoch.number) else []
    ensures DepositsPlaced(l1, chain + [d], base)
  {
    var chain' := chain + [d];
    forall i | base < i < |chain'| ensures Carries(l1, chain', i) {
      if i < |chain| {
        assert Carries(l1, chain, i);
      }
    }
  }

  lemma PullDeposits(cfg: Config, n: Node, p: Pipeline, outcome: PipelineOutcome, hash: Hash)
    requires DepositsOk(cfg, n) && AfterPull(cfg, n, p, outcome, hash).Some?
    requires outcome.Attrs? ==> GoodAttributes(cfg, n, p, outcome.attributes)
    requires outcome.NoAttributes? ==> p.epochHash == n.pipeline.epochHash
    requires Inv(cfg, AfterPull(cfg, n, p, outcome, hash).value)
    ensures DepositsOk(cfg, AfterPull(cfg, n, p, outcome, hash).value)
  {
    if outcome.Attrs? {
      PullAppends(cfg, n, p, outcome.attributes, hash);
      PulledDeposits(n, p, outcome.attributes, AfterPull(cfg, n, p, outcome, hash).value);
    }
  }

  lemma PulledDeposits(n: Node, p: Pipeline, a: PayloadAttributes, n': Node)
    requires Pulled(n, p, a, n') && DepositsPlaced(n.l1, n.chain, n.base)
    requires n.pipeline.epochHash == Last(n.chain).epoch.hash && p.epochHash == a.epoch.hash
    requires a.seqNumber == NextSequence(n.pipeline.sequenceNumber, n.pipeline.epochHash, a.epoch.hash)
    requires DepositsIn(a.transactions) == if a.seqNumber == 0 then DepositsAt(n.l1, a.epoch.number) else []
    ensures n'.pipeline.epochHash == Last(n'.chain).epoch.hash && DepositsPlaced(n'.l1, n'.chain, n'.base)
  {
    PlacedGrows(n.l1, n.chain, n.base, Last(n'.chain));
  }

  lemma ReorgDeposits(cfg: Config, n: Node, l1: seq<L1Info>)
    requires DepositsOk(cfg, n) && Fair(cfg, n, L1Reorg(l1)) && Inv(cfg, ReorgStep(cfg, n, l1))
    ensures DepositsOk(cfg, ReorgStep(cfg, n, l1))
  {
    var k := n.driven.heads.finalizedHead.number - n.chain[0].info.number + 1;
    assert ReorgStep(cfg, n, l1).chain == n.chain[..k];
    forall i | 0 <= i < k ensures n.chain[i].epoch.number <= n.driven.heads.finalizedEpoch.number {
      EpochsOrdered(cfg, n.l1, n.chain, n.base, i, k - 1);
    }
    PlacedOnPrefix(n.l1, l1, n.chain, n.base, k, n.driven.heads.finalizedEpoch.number + 1);
  }

  lemma QuietDeposits(cfg: Config, n: Node, n': Node)
    requires DepositsOk(cfg, n) && Inv(cfg, n')
    requires n'.chain == n.chain && n'.base == n.base && n'.pipeline.epochHash == n.pipeline.epochHash
    requires n'.l1 == n.l1 || exists info :: n'.l1 == n.l1 + [info]
    ensures DepositsOk(cfg, n')
  {
    forall i | 0 <= i < |n.chain| ensures n.chain[i].epoch.number < |n.l1| {
      assert Placed(cfg, n.l1, n.chain[i]);
    }
    assert n'.l1[..|n.l1|] == n.l1[..|n.l1|];
    PlacedOnPrefix(n.l1, n'.l1, n.chain, n.base, |n.chain|, |n.l1|);
    assert n.chain[..|n.chain|] == n.chain;
  }

  lemma StepDeposits(cfg: Config, n: Node, e: Event)
    requires DepositsOk(cfg, n) && Fair(cfg, n, e) && Step(cfg, n, e).Some?
    ensures DepositsOk(cfg, Step(cfg, n, e).value)
  {
    StepKeeps(cfg, n, e);
    if e.L1Reorg? {
      ReorgDeposits(cfg, n, e.l1);
    } else if e.Pull? {
      NextAttributesGood(cfg, n, e.read);
      var (p, outcome) := NextAttributes(cfg, n.state, n.pipeline, e.read);
      PullDeposits(cfg, n, p, outcome, e.hash);
    } else if e.UpdateFinalized? {
      QuietDeposits(cfg, n, FinalizeStep(n));
    } else {
      QuietStep(cfg, n, e);
      QuietDeposits(cfg, n, Step(cfg, n, e).value);
    }
  }

  lemma {:induction false} DepositsAlwaysPlaced(cfg: Config, n: Node, events: seq<Event>)
    requires Init(cfg, n) && FairRun(cfg, n, events) && Run(cfg, n, events).Some?
    ensures DepositsOk(cfg, Run(cfg, n, events).value)
    decreases |events|
  {
    if events == [] {
      InitInv(cfg, n);
    } else {
      DepositsAlwaysPlaced(cfg, n, events[..|events| - 1]);
      StepDeposits(cfg, Run(cfg, n, events[..|events| - 1]).value, events[|events| - 1]);
    }
  }

  lemma {:induction false} L1DepositsSplit(l1: seq<L1Info>, a: nat, b: nat, c: nat)
    requires a <= b <= c
    ensures L1Deposits(l1, a, c) == L1Deposits(l1, a, b) + L1Deposits(l1, b, c)
    decreases c
  {
    if b < c {
      L1DepositsSplit(l1, a, b, c - 1);
    }
  }

  /** The deposits of the L1 blocks that the chain passed over to come to block k. */
  function SkippedBefore(l1: seq<L1Info>, chain: seq<Derived>, k: nat): seq<UserDeposited>
    requires 0 < k < |chain|
  {
    L1Deposits(l1, chain[k - 1].epoch.number, chain[k].epoch.number - 1)
  }

  /** No L1 block that the chain skipped as an origin carries a deposit. */
  ghost predicate NothingSkipped(l1: seq<L1Info>, chain: seq<Derived>, base: nat, i: nat)
    requires i < |chain|
  {
    forall k :: base < k <= i ==> SkippedBefore(l1, chain, k) == []
  }

  /** What lies between the origins of blocks k - 1 and k, as skipped and carried deposits. */
  ghost predicate Accounted(l1: seq<L1Info>, chain: seq<Derived>, k: nat)
    requires 0 < k < |chain|
  {
    && chain[k - 1].epoch.number <= chain[k].epoch.number
    && L1Deposits(l1, chain[k - 1].epoch.number, chain[k].epoch.number)
       == SkippedBefore(l1, chain, k) + DepositsIn(chain[k].transactions)
  }

  /** The deposits between two blocks' origins are those skipped and those the block carries. */
  lemma StepOfDeposits(cfg: Config, n: Node, i: nat)
    requires DepositsOk(cfg, n) && n.base < i < |n.chain|
    ensures Accounted(n.l1, n.chain, i)
  {
    hide QueueOk, HeadsOk, UnfinalizedOk, DepositsIn, Window, RefsAgree, CurrentEpochOk;
    assert Succeeds(n.chain[i - 1], n.chain[i]) && Carries(n.l1, n.chain, i);
    assert Placed(cfg, n.l1, n.chain[i - 1]) && Placed(cfg, n.l1, n.chain[i]);
    var b, c := n.chain[i - 1].epoch.number, n.chain[i].epoch.number;
    if b < c {
      assert n.l1[b].blockInfo.hash != n.l1[c].blockInfo.hash;
    }
  }

  lemma {:induction false} DepositsUpTo(l1: seq<L1Info>, chain: seq<Derived>, base: nat, i: nat)
    requires base <= i < |chain| && forall k :: base < k <= i ==> Accounted(l1, chain, k)
    ensures chain[base].epoch.number <= chain[i].epoch.number
    ensures var derived := ChainDeposits(chain, base, i);
            var all := L1Deposits(l1, chain[base].epoch.number, chain[i].epoch.number);
            && |derived| <= |all|
            && (|derived| == |all| ==> NothingSkipped(l1, chain, base, i))
            && (NothingSkipped(l1, chain, base, i) ==> derived == all)
  {
    if i > base {
      DepositsUpTo(l1, chain, base, i - 1);
      assert Accounted(l1, chain, i);
      L1DepositsSplit(l1, chain[base].epoch.number, chain[i - 1].epoch.number, chain[i].epoch.number);
      SkippedSplit(l1, chain, base, i);
    }
  }

  lemma SkippedSplit(l1: seq<L1Info>, chain: seq<Derived>, base: nat, i: nat)
    requires base < i < |chain|
    ensures NothingSkipped(l1, chain, base, i)
            <==> NothingSkipped(l1, chain, base, i - 1) && |SkippedBefore(l1, chain, i)| == 0
  {
  }

  /**
   The deposits in the derived blocks, read in order, are exactly the deposits of all L1 blocks
   after the starting epoch up to the safe epoch, each once.
   */
  ghost predicate Conserved(n: Node)
    requires n.base < |n.chain|
  {
    ChainDeposits(n.chain, n.base, |n.chain| - 1)
    == L1Deposits(n.l1, n.chain[n.base].epoch.number, n.driven.heads.safeEpoch.number)
  }

  lemma ConservedIff(cfg: Config, n: Node)
    requires DepositsOk(cfg, n)
    ensures n.base < |n.chain| && (Conserved(n) <==> NothingSkipped(n.l1, n.chain, n.base, |n.chain| - 1))
  {
    forall k | n.base < k < |n.chain| ensures Accounted(n.l1, n.chain, k) {
      StepOfDeposits(cfg, n, k);
    }
    DepositsUpTo(n.l1, n.chain, n.base, |n.chain| - 1);
  }

  /**
   Conservation of deposits. In every state of every fair run, reorgs included, they are
   conserved if and only if no L1 block that the chain skipped carries one.
   */
  lemma DepositsConservedIff(cfg: Config, n: Node, events: seq<Event>)
    requires Init(cfg, n) && FairRun(cfg, n, events) && Run(cfg, n, events).Some?
    ensures var now := Run(cfg, n, events).value;
            && now.base < |now.chain|
            && (Conserved(now) <==> NothingSkipped(now.l1, now.chain, now.base, |now.chain| - 1))
  {
    DepositsAlwaysPlaced(cfg, n, events);
    ConservedIff(cfg, Run(cfg, n, events).value);
  }

  /** When origins step by zero or one, nothing is skipped. */
  lemma SmallStepsSkipNothing(l1: seq<L1Info>, chain: seq<Derived>, base: nat, i: nat)
    requires i < |chain|
    requires forall k :: base < k <= i ==> chain[k].epoch.number <= chain[k - 1].epoch.number + 1
    ensures NothingSkipped(l1, chain, base, i)
  {
  }

  // ---------------------------------------------------- conservation from what pulls look at

  /** The span would open an epoch more than one above the safe epoch. */
  ghost predicate Jumps(cfg: Config, s: StateView, b: Batch)
    requires ValidConfig(cfg)
  {
    && b.Span? && ValidSpan(b.span) && StartEpochNum(b.span) > s.safeEpoch.number + 1
    && JumpingSpan(cfg, s, b, StartEpochNum(b.span))
  }

  /** No batch that the pull looks at would be accepted right after the safe head with a far start epoch. */
  ghost predicate NoJump(cfg: Config, n: Node, e: Event)
    requires ValidConfig(cfg)
  {
    e.Pull? ==> var batches := Candidates(cfg, n, e.read); forall t :: t in batches ==> !Jumps(cfg, n.state, batches[t])
  }

  ghost predicate NoJumpRun(cfg: Config, n: Node, events: seq<Event>)
    requires ValidConfig(cfg)
    decreases |events|
  {
    events == [] ||
    var init, e := events[..|events| - 1], events[|events| - 1];
    && NoJumpRun(cfg, n, init)
    && match Run(cfg, n, init)
       case None => true
       case Some(before) => NoJump(cfg, before, e)
  }

  ghost predicate SmallSteps(chain: seq<Derived>, base: nat) {
    forall k :: base < k < |chain| ==> chain[k].epoch.number <= chain[k - 1].epoch.number + 1
  }

  lemma PullStepsSmall(cfg: Config, n: Node, read: ChannelRead)
    requires Inv(cfg, n) && ValidRead(read) && ReadAligned(cfg, read) && NoJump(cfg, n, Pull(read, n.pipeline.epochHash))
    ensures var outcome := NextAttributes(cfg, n.state, n.pipeline, read).1;
            outcome.Attrs? ==> outcome.attributes.epoch.number <= n.state.safeEpoch.number + 1
  {
    NextAttributesGood(cfg, n, read);
    EmitsSmall(cfg, n, read);
    var emitted := TryNext(cfg, n.state, n.pipeline.queue, read).1;
    TryNextSafe(cfg, n.state, n.l1, n.lo, n.nextL1, n.pipeline.queue, read);
    if emitted.Emit? {
      OriginResolvedIff(cfg, n.state, n.l1, n.lo, n.nextL1, emitted.input);
    }
  }

  lemma EmitsSmall(cfg: Config, n: Node, read: ChannelRead)
    requires Inv(cfg, n) && ValidRead(read) && ReadAligned(cfg, read) && NoJump(cfg, n, Pull(read, n.pipeline.epochHash))
    ensures var outcome := TryNext(cfg, n.state, n.pipeline.queue, read).1;
            outcome.Emit? ==> outcome.input.epoch <= n.state.safeEpoch.number + 1
  {
    if n.pipeline.queue.pending == [] && !read.Undecodable? {
      var batches := Candidates(cfg, n, read);
      if read.Decoded? {
        InsertKeeps(cfg, n.pipeline.queue.batches, read.batches);
      }
      DeriveSafe(cfg, n.state, n.l1, n.lo, n.nextL1, batches);
      assert TryNext(cfg, n.state, n.pipeline.queue, read) == Derive(cfg, n.state, batches);
    }
  }

  lemma AfterPullSmall(cfg: Config, n: Node, read: ChannelRead, hash: Hash)
    requires Inv(cfg, n) && ValidRead(read) && ReadAligned(cfg, read) && NoJump(cfg, n, Pull(read, hash))
    requires PullStep(cfg, n, read, hash).Some? && SmallSteps(n.chain, n.base)
    ensures var n' := PullStep(cfg, n, read, hash).value; SmallSteps(n'.chain, n'.base)
  {
    NextAttributesGood(cfg, n, read);
    PullStepsSmall(cfg, n, read);
    var (p, outcome) := NextAttributes(cfg, n.state, n.pipeline, read);
    if outcome.Attrs? {
      PullAppends(cfg, n, p, outcome.attributes, hash);
      assert n.state.safeEpoch == Last(n.chain).epoch;
      hide Inv, NextAttributes, GoodAttributes, NoJump;
      PulledSmall(n, p, outcome.attributes, AfterPull(cfg, n, p, outcome, hash).value);
    }
  }

  lemma PulledSmall(n: Node, p: Pipeline, a: PayloadAttributes, n': Node)
    requires Pulled(n, p, a, n') && SmallSteps(n.chain, n.base) && a.epoch.number <= Last(n.chain).epoch.number + 1
    ensures SmallSteps(n'.chain, n'.base)
  {
  }

  lemma ReorgSmall(cfg: Config, n: Node, l1: seq<L1Info>)
    requires SmallSteps(n.chain, n.base)
    ensures SmallSteps(ReorgStep(cfg, n, l1).chain, ReorgStep(cfg, n, l1).base)
  {
    assert forall i :: 0 <= i < |ReorgStep(cfg, n, l1).chain| ==> ReorgStep(cfg, n, l1).chain[i] == n.chain[i];
  }

  lemma StepStepsSmall(cfg: Config, n: Node, e: Event)
    requires Inv(cfg, n) && Fair(cfg, n, e) && Step(cfg, n, e).Some? && NoJump(cfg, n, e)
    requires SmallSteps(n.chain, n.base)
    ensures var n' := Step(cfg, n, e).value; SmallSteps(n'.chain, n'.base)
  {
    if e.Pull? {
      hide PullStep, NoJump, SmallSteps;
      AfterPullSmall(cfg, n, e.read, e.hash);
    } else if e.L1Reorg? {
      ReorgSmall(cfg, n, e.l1);
    } else if e.UpdateFinalized? {
      assert FinalizeStep(n).chain == n.chain;
    } else {
      QuietStep(cfg, n, e);
    }
  }

  lemma {:induction false} RunStepsSmall(cfg: Config, n: Node, events: seq<Event>)
    requires Init(cfg, n) && FairRun(cfg, n, events) && NoJumpRun(cfg, n, events) && Run(cfg, n, events).Some?
    ensures var now := Run(cfg, n, events).value; SmallSteps(now.chain, now.base)
    decreases |events|
  {
    if events != [] {
      hide Inv, Fair, Step, NoJump, SmallSteps;
      var init := events[..|events| - 1];
      RunStepsSmall(cfg, n, init);
      RunKeeps(cfg, n, init);
      StepStepsSmall(cfg, Run(cfg, n, init).value, events[|events| - 1]);
    }
  }

  /**
   Conservation of deposits from the batches alone: in every fair run in which no pull looks at
   an acceptable span that starts more than one above the safe epoch, origins step by at most
   one and the derived deposits are those of all L1 blocks up to the safe epoch, reorgs included.
   */
  lemma DepositsConserved(cfg: Config, n: Node, events: seq<Event>)
    requires Init(cfg, n) && FairRun(cfg, n, events) && NoJumpRun(cfg, n, events) && Run(cfg, n, events).Some?
    ensures var now := Run(cfg, n, events).value;
            now.base < |now.chain| && SmallSteps(now.chain, now.base) && Conserved(now)
  {
    RunStepsSmall(cfg, n, events);
    DepositsAlwaysPlaced(cfg, n, events);
    SmallStepsConserve(cfg, Run(cfg, n, events).value);
  }

  lemma SmallStepsConserve(cfg: Config, n: Node)
    requires DepositsOk(cfg, n) && SmallSteps(n.chain, n.base)
    ensures n.base < |n.chain| && Conserved(n)
  {
    ConservedIff(cfg, n);
    SmallSkipNothing(n);
  }

  lemma SmallSkipNothing(n: Node)
    requires n.base < |n.chain| && SmallSteps(n.chain, n.base)
    ensures NothingSkipped(n.l1, n.chain, n.base, |n.chain| - 1)
  {
    SmallStepsSkipNothing(n.l1, n.chain, n.base, |n.chain| - 1);
  }
}
