/** Progress of the finalized head (src/driver/mod.rs, update_finalized). */
module Finality {
  import opened Base
  import opened Types
  import opened Attributes
  import opened NodeModel
  import opened NodeSafety

  /** Later blocks of the derived chain are included in L1 no earlier. */
  ghost predicate InclusionSorted(chain: seq<Derived>, base: nat) {
    forall i, j :: base < i <= j < |chain| ==> chain[i].inclusion <= chain[j].inclusion
  }

  /** A fair run in which inclusion is ordered at every state and L1 finality never retreats. */
  ghost predicate OrderedRun(cfg: Config, n: Node, events: seq<Event>)
    requires ValidConfig(cfg)
  {
    match Run(cfg, n, events)
    case None => true
    case Some(now) =>
      && InclusionSorted(now.chain, now.base)
      && (events != [] ==>
            var last := events[|events| - 1];
            && OrderedRun(cfg, n, events[..|events| - 1])
            && (last.FinalityUpdate? ==>
                  match Run(cfg, n, events[..|events| - 1])
                  case None => true
                  case Some(before) => before.finalizedL1 <= last.number))
  }

  /** Everything still waiting is above the finalized head, whose data is all final on L1. */
  ghost predicate FinalityOk(n: Node)
    requires n.chain != []
  {
    var f := n.driven.heads.finalizedHead.number;
    && (forall u :: u in n.unfinalized ==> u.head.number > f)
    && (forall i :: n.base < i < |n.chain| && n.chain[i].info.number <= f ==> n.chain[i].inclusion <= n.finalizedL1)
  }

  lemma FinalizeProgress(cfg: Config, n: Node)
    requires Inv(cfg, n) && FinalityOk(n) && InclusionSorted(n.chain, n.base)
    ensures FinalityOk(FinalizeStep(n))
    ensures FinalizeStep(n).driven.heads.finalizedHead.number >= n.driven.heads.finalizedHead.number
  {
    var n' := FinalizeStep(n);
    StillUnfinalizedKeeps(n.unfinalized, n.finalizedL1);
    LastFinalFinds(n.unfinalized, n.finalizedL1);
    var found := LastFinal(n.unfinalized, n.finalizedL1);
    if found.Some? {
      var u := found.value;
      var f := u.head.number - n.chain[0].info.number;
      assert EntryOk(n.chain, n.base, u);
      forall v | v in n'.unfinalized ensures v.head.number > u.head.number {
        assert EntryOk(n.chain, n.base, v);
        var k := v.head.number - n.chain[0].info.number;
        assert n.chain[k].inclusion > n.finalizedL1 >= n.chain[f].inclusion;
      }
      forall i | n.base < i < |n.chain| && n.chain[i].info.number <= u.head.number
        ensures n.chain[i].inclusion <= n.finalizedL1
      {
        ChainNumbers(cfg, n.l1, n.chain, n.base, i);
        assert n.chain[i].inclusion <= n.chain[f].inclusion;
      }
    }
  }

  lemma PullProgress(cfg: Config, n: Node, p: Pipeline, outcome: PipelineOutcome, hash: Hash)
    requires Inv(cfg, n) && FinalityOk(n) && AfterPull(cfg, n, p, outcome, hash).Some?
    requires outcome.Attrs? ==> GoodAttributes(cfg, n, p, outcome.attributes)
    ensures var n' := AfterPull(cfg, n, p, outcome, hash).value;
            && n'.chain != [] && FinalityOk(n')
            && n'.driven.heads.finalizedHead == n.driven.heads.finalizedHead
  {
    if outcome.Attrs? {
      PullAppends(cfg, n, p, outcome.attributes, hash);
      ChainNumbers(cfg, n.l1, n.chain, n.base, |n.chain| - 1);
      PulledProgress(n, p, outcome.attributes, AfterPull(cfg, n, p, outcome, hash).value);
    }
  }

  lemma PulledProgress(n: Node, p: Pipeline, a: PayloadAttributes, n': Node)
    requires Pulled(n, p, a, n') && FinalityOk(n)
    requires n.driven.heads.finalizedHead.number <= Last(n.chain).info.number
    ensures FinalityOk(n')
  {
    forall i | n'.base < i < |n'.chain| && n'.chain[i].info.number <= n.driven.heads.finalizedHead.number
      ensures n'.chain[i].inclusion <= n'.finalizedL1
    {
      assert i < |n.chain| && n'.chain[i] == n.chain[i];
    }
  }

  lemma ReorgProgress(cfg: Config, n: Node, l1: seq<L1Info>)
    requires Inv(cfg, n) && FinalityOk(n)
    ensures var n' := ReorgStep(cfg, n, l1);
            n'.chain != [] && FinalityOk(n') && n'.driven.heads.finalizedHead == n.driven.heads.finalizedHead
  {
    var n' := ReorgStep(cfg, n, l1);
    assert forall i :: 0 <= i < |n'.chain| ==> n'.chain[i] == n.chain[i];
  }

  lemma StepProgress(cfg: Config, n: Node, e: Event)
    requires Inv(cfg, n) && FinalityOk(n) && InclusionSorted(n.chain, n.base)
    requires Fair(cfg, n, e) && Step(cfg, n, e).Some?
    requires e.FinalityUpdate? ==> n.finalizedL1 <= e.number
    ensures var n' := Step(cfg, n, e).value;
            && n'.chain != [] && FinalityOk(n')
            && n'.driven.heads.finalizedHead.number >= n.driven.heads.finalizedHead.number
  {
    hide NextAttributes, AfterPull, InclusionSorted, StateOk, QueueOk, UnfinalizedOk;
    match e
    case L1Reorg(l1) =>
      ReorgProgress(cfg, n, l1);
    case Pull(read, hash) =>
      NextAttributesGood(cfg, n, read);
      var (p, outcome) := NextAttributes(cfg, n.state, n.pipeline, read);
      PullProgress(cfg, n, p, outcome, hash);
    case UpdateFinalized =>
      FinalizeProgress(cfg, n);
    case _ =>
  }

  /**
   When derived blocks are included in L1 in order and L1 finality never retreats, every
   derived block at or below the finalized head has its data in finalized L1 blocks, and
   the finalized head never moves back, reorgs included.
   */
  lemma {:induction false} FinalityProgresses(cfg: Config, n: Node, events: seq<Event>)
    requires Init(cfg, n) && FairRun(cfg, n, events) && OrderedRun(cfg, n, events) && Run(cfg, n, events).Some?
    ensures var n' := Run(cfg, n, events).value;
            && Inv(cfg, n') && FinalityOk(n')
            && n'.driven.heads.finalizedHead.number >= n.driven.heads.finalizedHead.number
    ensures events != [] ==>
              && Run(cfg, n, events[..|events| - 1]).Some?
              && Run(cfg, n, events).value.driven.heads.finalizedHead.number
                 >= Run(cfg, n, events[..|events| - 1]).value.driven.heads.finalizedHead.number
    decreases |events|
  {
    RunKeeps(cfg, n, events);
    if events == [] {
      ChainNumbers(cfg, n.l1, n.chain, n.base, n.base);
    } else {
      var init := events[..|events| - 1];
      FinalityProgresses(cfg, n, init);
      StepProgress(cfg, Run(cfg, n, init).value, events[|events| - 1]);
    }
  }
}
