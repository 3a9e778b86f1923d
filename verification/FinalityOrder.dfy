/**
 When the finalized head moves back, and when it does not: the exact condition on the blocks
 that wait for L1 finality (src/driver/mod.rs, update_finalized).
 */
module FinalityOrder {
  import opened Base
  import opened Types
  import opened BatchQueue
  import opened BatchSafety
  import opened Attributes
  import opened NodeModel
  import opened NodeSafety
  import opened Finality

  /** From when on a block may be finalized, with L1 final up to floor already. */
  function Level(u: Unfinalized, floor: nat): nat { if u.inclusion <= floor then floor else u.inclusion }

  /** The later block v may be finalized strictly before the earlier block u. */
  predicate Overtakes(u: Unfinalized, v: Unfinalized, floor: nat) {
    u.seqNumber == 0 && v.seqNumber == 0 && u.head.number < v.head.number && Level(v, floor) < u.inclusion
  }

  /** A block after v that becomes final after v, but no later than u. */
  predicate Shields(u: Unfinalized, v: Unfinalized, w: Unfinalized, floor: nat) {
    w.seqNumber == 0 && v.head.number < w.head.number && Level(v, floor) < w.inclusion <= u.inclusion
  }

  /** Wherever a later block overtakes an earlier one, a third keeps finality from going back to it. */
  ghost predicate Recoverable(us: seq<Unfinalized>, floor: nat) {
    forall u, v :: u in us && v in us && Overtakes(u, v, floor) ==> exists w :: w in us && Shields(u, v, w, floor)
  }

  /** A block at or above number f that may be finalized when u may. */
  predicate Covers(u: Unfinalized, w: Unfinalized, f: nat, floor: nat) {
    w.seqNumber == 0 && f <= w.head.number && w.inclusion <= Level(u, floor)
  }

  /** No waiting block below number f can be the last one that may be finalized. */
  ghost predicate Covered(us: seq<Unfinalized>, f: nat, floor: nat) {
    forall u :: u in us && u.seqNumber == 0 && u.head.number < f ==> exists w :: w in us && Covers(u, w, f, floor)
  }

  ghost predicate Steady(us: seq<Unfinalized>, f: nat, floor: nat) { Covered(us, f, floor) && Recoverable(us, floor) }

  /** The finalized number after finalizing what is final at L1 block t. */
  function FinalizedAt(us: seq<Unfinalized>, f: nat, t: nat): nat {
    match LastFinal(us, t)
    case None => f
    case Some(u) => u.head.number
  }

  // ----------------------------------------------------------------------- one finalization

  /** What is finalized is the highest waiting block that may be. */
  lemma LastFinalIsHighest(us: seq<Unfinalized>, t: nat)
    requires Increasing(us)
    ensures match LastFinal(us, t)
            case None => forall u :: u in us ==> !CanFinalize(u, t)
            case Some(x) => x in us && CanFinalize(x, t) && forall u :: u in us && CanFinalize(u, t) ==> u.head.number <= x.head.number
  {
    LastFinalFinds(us, t);
    match LastFinal(us, t)
    case None =>
    case Some(x) =>
      var i :| 0 <= i < |us| && us[i] == x && forall j :: i < j < |us| ==> !CanFinalize(us[j], t);
      forall u | u in us && CanFinalize(u, t) ensures u.head.number <= x.head.number {
        var k :| 0 <= k < |us| && us[k] == u;
        assert k <= i;
      }
  }

  lemma DifferentNumbers(us: seq<Unfinalized>, u: Unfinalized, v: Unfinalized)
    requires Increasing(us) && u in us && v in us && u != v
    ensures u.head.number != v.head.number
  {
    var i :| 0 <= i < |us| && us[i] == u;
    var j :| 0 <= j < |us| && us[j] == v;
    assert i < j || j < i;
  }

  /** Under the condition the finalized number does not go down, at whatever block L1 is final. */
  lemma SteadyRises(us: seq<Unfinalized>, f: nat, floor: nat, t: nat)
    requires Increasing(us) && Covered(us, f, floor) && floor <= t
    ensures FinalizedAt(us, f, t) >= f
  {
    LastFinalIsHighest(us, t);
    match LastFinal(us, t)
    case None =>
    case Some(x) =>
      if w :| w in us && Covers(x, w, f, floor) {
        assert CanFinalize(w, t);
      }
  }

  /** The condition holds of what is left, so that it also rises the next time. */
  lemma SteadyStays(us: seq<Unfinalized>, f: nat, floor: nat, t: nat)
    requires Increasing(us) && Steady(us, f, floor) && floor <= t
    ensures Increasing(StillUnfinalized(us, t)) && Steady(StillUnfinalized(us, t), FinalizedAt(us, f, t), floor)
  {
    var rest, f' := StillUnfinalized(us, t), FinalizedAt(us, f, t);
    StillUnfinalizedKeeps(us, t);
    LastFinalIsHighest(us, t);
    forall u, v | u in rest && v in rest && Overtakes(u, v, floor) ensures exists w :: w in rest && Shields(u, v, w, floor) {
      var w :| w in us && Shields(u, v, w, floor);
      assert w in rest;
    }
    forall u | u in rest && u.seqNumber == 0 && u.head.number < f' ensures exists w :: w in rest && Covers(u, w, f', floor) {
      RestCovered(us, f, floor, t, u);
    }
  }

  lemma RestCovered(us: seq<Unfinalized>, f: nat, floor: nat, t: nat, u: Unfinalized)
    requires Increasing(us) && Steady(us, f, floor) && floor <= t
    requires u in us && u.inclusion > t && u.seqNumber == 0 && u.head.number < FinalizedAt(us, f, t)
    ensures exists w :: w in StillUnfinalized(us, t) && Covers(u, w, FinalizedAt(us, f, t), floor)
  {
    StillUnfinalizedKeeps(us, t);
    LastFinalIsHighest(us, t);
    match LastFinal(us, t)
    case None =>
      var w :| w in us && Covers(u, w, f, floor);
      assert !CanFinalize(w, t);
      assert w in StillUnfinalized(us, t) && Covers(u, w, FinalizedAt(us, f, t), floor);
    case Some(x) =>
      assert Overtakes(u, x, floor);
      var w :| w in us && Shields(u, x, w, floor);
      assert !CanFinalize(w, t);
      assert w in StillUnfinalized(us, t) && Covers(u, w, FinalizedAt(us, f, t), floor);
  }

  /** A block that nothing covers is finalized by itself, below what is finalized already. */
  lemma UncoveredFalls(us: seq<Unfinalized>, f: nat, floor: nat) returns (t: nat)
    requires Increasing(us) && !Covered(us, f, floor)
    ensures floor <= t && FinalizedAt(us, f, t) < f
  {
    var u :| u in us && u.seqNumber == 0 && u.head.number < f && !exists w :: w in us && Covers(u, w, f, floor);
    t := Level(u, floor);
    LastFinalIsHighest(us, t);
    assert CanFinalize(u, t);
    var x := LastFinal(us, t).value;
    assert f <= x.head.number ==> Covers(u, x, f, floor);
  }

  /** A block overtaken without a shield is finalized after the one that overtook it. */
  lemma UnshieldedFalls(us: seq<Unfinalized>, f: nat, floor: nat) returns (t: nat, t': nat)
    requires Increasing(us) && !Recoverable(us, floor)
    ensures floor <= t <= t'
    ensures FinalizedAt(StillUnfinalized(us, t), FinalizedAt(us, f, t), t') < FinalizedAt(us, f, t)
  {
    var u, v :| u in us && v in us && Overtakes(u, v, floor) && !exists w :: w in us && Shields(u, v, w, floor);
    t, t' := Level(v, floor), u.inclusion;
    var rest := StillUnfinalized(us, t);
    LastFinalIsHighest(us, t);
    StillUnfinalizedKeeps(us, t);
    LastFinalIsHighest(rest, t');
    assert CanFinalize(v, t) && u in rest && CanFinalize(u, t');
    var y := LastFinal(rest, t').value;
    assert v.head.number < y.head.number ==> Shields(u, v, y, floor);
    DifferentNumbers(us, v, y);
  }

  // ------------------------------------------------------------------------ finality events

  function FinalizedNumber(n: Node): nat { n.driven.heads.finalizedHead.number }

  /** L1 finality goes on rising and the driver finalizes, in any order; nothing else happens. */
  ghost predicate FinalityEvents(cfg: Config, n: Node, events: seq<Event>)
    requires ValidConfig(cfg)
    decreases |events|
  {
    events == [] ||
    var init, e := events[..|events| - 1], events[|events| - 1];
    && FinalityEvents(cfg, n, init)
    && match Run(cfg, n, init)
       case None => false
       case Some(before) => e == UpdateFinalized || (e.FinalityUpdate? && before.finalizedL1 <= e.number)
  }

  /** At no event of the run the finalized number goes down. */
  ghost predicate NeverBack(cfg: Config, n: Node, events: seq<Event>)
    requires ValidConfig(cfg)
    decreases |events|
  {
    events == [] ||
    var init := events[..|events| - 1];
    && NeverBack(cfg, n, init)
    && match (Run(cfg, n, init), Run(cfg, n, events))
       case (Some(before), Some(after)) => FinalizedNumber(before) <= FinalizedNumber(after)
       case _ => true
  }

  lemma FinalizeStepIs(n: Node)
    ensures FinalizedNumber(FinalizeStep(n)) == FinalizedAt(n.unfinalized, FinalizedNumber(n), n.finalizedL1)
    ensures FinalizeStep(n).unfinalized == StillUnfinalized(n.unfinalized, n.finalizedL1)
    ensures FinalizeStep(n).finalizedL1 == n.finalizedL1
  {
  }

  ghost predicate SteadyNode(n: Node, floor: nat) {
    floor <= n.finalizedL1 && Increasing(n.unfinalized) && Steady(n.unfinalized, FinalizedNumber(n), floor)
  }

  lemma {:induction false} SteadyNeverBack(cfg: Config, n: Node, events: seq<Event>, floor: nat)
    requires ValidConfig(cfg) && SteadyNode(n, floor) && FinalityEvents(cfg, n, events)
    ensures NeverBack(cfg, n, events)
    ensures Run(cfg, n, events).Some? && SteadyNode(Run(cfg, n, events).value, floor)
    decreases |events|
  {
    if events != [] {
      var init, e := events[..|events| - 1], events[|events| - 1];
      SteadyNeverBack(cfg, n, init, floor);
      var before := Run(cfg, n, init).value;
      if e.UpdateFinalized? {
        FinalizeStepIs(before);
        SteadyRises(before.unfinalized, FinalizedNumber(before), floor, before.finalizedL1);
        SteadyStays(before.unfinalized, FinalizedNumber(before), floor, before.finalizedL1);
      }
    }
  }

  /** The node after L1 is final up to t and the driver has finalized. */
  function FinalizedUpTo(n: Node, t: nat): Node { FinalizeStep(n.(finalizedL1 := t)) }

  /** Two rounds of L1 finality and finalization, the second not below the first. */
  lemma TwoRounds(cfg: Config, n: Node, t: nat, t': nat)
    requires ValidConfig(cfg) && n.finalizedL1 <= t <= t'
    ensures var once := [FinalityUpdate(t), UpdateFinalized];
            var twice := once + [FinalityUpdate(t'), UpdateFinalized];
            && FinalityEvents(cfg, n, once) && FinalityEvents(cfg, n, twice)
            && (NeverBack(cfg, n, twice) ==>
                  FinalizedNumber(n) <= FinalizedNumber(FinalizedUpTo(n, t)) <= FinalizedNumber(FinalizedUpTo(FinalizedUpTo(n, t), t')))
  {
    hide FinalizeStep;
    var e1, e2, e3 := FinalityUpdate(t), UpdateFinalized, FinalityUpdate(t');
    var n1 := n.(finalizedL1 := t);
    var n2 := FinalizedUpTo(n, t);
    FinalizeStepIs(n1);
    assert [] + [e1] == [e1] && [e1] + [e2] == [e1, e2] && [e1, e2] + [e3] == [e1, e2, e3];
    assert [e1, e2] + [e3, e2] == [e1, e2, e3] + [e2];
    Extend(cfg, n, [], e1);
    Extend(cfg, n, [e1], e2);
    Extend(cfg, n, [e1, e2], e3);
    Extend(cfg, n, [e1, e2, e3], e2);
  }

  lemma Extend(cfg: Config, n: Node, events: seq<Event>, e: Event)
    requires ValidConfig(cfg) && Run(cfg, n, events).Some?
    ensures var before := Run(cfg, n, events).value;
            && Run(cfg, n, events + [e]) == Step(cfg, before, e)
            && (FinalityEvents(cfg, n, events + [e]) <==>
                  FinalityEvents(cfg, n, events) && (e == UpdateFinalized || (e.FinalityUpdate? && before.finalizedL1 <= e.number)))
            && (NeverBack(cfg, n, events + [e]) ==> NeverBack(cfg, n, events))
            && (NeverBack(cfg, n, events + [e]) && Step(cfg, before, e).Some? ==>
                  FinalizedNumber(before) <= FinalizedNumber(Step(cfg, before, e).value))
  {
    hide Step;
    assert (events + [e])[..|events|] == events;
  }

  /**
   The finalized head never moves back, however L1 finality goes on rising and whenever the
   driver finalizes, if and only if of the waiting first blocks of epochs none below the
   finalized head is left uncovered and none that a later one overtakes is left unshielded.
   */
  lemma NeverBackIff(cfg: Config, n: Node)
    requires Inv(cfg, n)
    ensures (forall events :: FinalityEvents(cfg, n, events) ==> NeverBack(cfg, n, events))
            <==> Steady(n.unfinalized, FinalizedNumber(n), n.finalizedL1)
  {
    var us, f, floor := n.unfinalized, FinalizedNumber(n), n.finalizedL1;
    if Steady(us, f, floor) {
      forall events | FinalityEvents(cfg, n, events) ensures NeverBack(cfg, n, events) {
        SteadyNeverBack(cfg, n, events, floor);
      }
    } else {
      hide NeverBack, FinalityEvents, Steady, Covered, Recoverable;
      var events := MovesBack(cfg, n);
    }
  }

  lemma MovesBack(cfg: Config, n: Node) returns (events: seq<Event>)
    requires ValidConfig(cfg) && Increasing(n.unfinalized) && !Steady(n.unfinalized, FinalizedNumber(n), n.finalizedL1)
    ensures FinalityEvents(cfg, n, events) && !NeverBack(cfg, n, events)
  {
    hide NeverBack, FinalityEvents, FinalizeStep;
    var us, f, floor := n.unfinalized, FinalizedNumber(n), n.finalizedL1;
    var t, t';
    if !Covered(us, f, floor) {
      t := UncoveredFalls(us, f, floor);
      t' := t;
    } else {
      t, t' := UnshieldedFalls(us, f, floor);
    }
    FinalizeStepIs(n.(finalizedL1 := t));
    FinalizeStepIs(FinalizedUpTo(n, t).(finalizedL1 := t'));
    TwoRounds(cfg, n, t, t');
    events := [FinalityUpdate(t), UpdateFinalized] + [FinalityUpdate(t'), UpdateFinalized];
  }

  // ------------------------------------------------------------------------------ whole runs

  /** In every state of the run no waiting block is left unshielded, and L1 finality never retreats. */
  ghost predicate RecoverableRun(cfg: Config, n: Node, events: seq<Event>)
    requires ValidConfig(cfg)
    decreases |events|
  {
    match Run(cfg, n, events)
    case None => true
    case Some(now) =>
      && Recoverable(now.unfinalized, now.finalizedL1)
      && (events != [] ==>
            var init, e := events[..|events| - 1], events[|events| - 1];
            && RecoverableRun(cfg, n, init)
            && match Run(cfg, n, init)
               case None => true
               case Some(before) => e.FinalityUpdate? ==> before.finalizedL1 <= e.number)
  }

  lemma CoveredHigher(us: seq<Unfinalized>, f: nat, floor: nat, floor': nat)
    requires Covered(us, f, floor) && floor <= floor'
    ensures Covered(us, f, floor')
  {
    forall u | u in us && u.seqNumber == 0 && u.head.number < f ensures exists w :: w in us && Covers(u, w, f, floor') {
      var w :| w in us && Covers(u, w, f, floor);
      assert Covers(u, w, f, floor');
    }
  }

  lemma CoveredGrows(us: seq<Unfinalized>, u: Unfinalized, f: nat, floor: nat)
    requires Covered(us, f, floor) && f <= u.head.number
    ensures Covered(us + [u], f, floor)
  {
    forall v | v in us + [u] && v.seqNumber == 0 && v.head.number < f ensures exists w :: w in us + [u] && Covers(v, w, f, floor) {
      assert v in us;
      var w :| w in us && Covers(v, w, f, floor);
      assert w in us + [u];
    }
  }

  lemma PullCovered(cfg: Config, n: Node, read: ChannelRead, hash: Hash)
    requires Inv(cfg, n) && ValidRead(read) && ReadAligned(cfg, read) && PullStep(cfg, n, read, hash).Some?
    requires Covered(n.unfinalized, FinalizedNumber(n), n.finalizedL1)
    ensures var n' := PullStep(cfg, n, read, hash).value;
            && FinalizedNumber(n') == FinalizedNumber(n) && n'.finalizedL1 == n.finalizedL1
            && Covered(n'.unfinalized, FinalizedNumber(n'), n'.finalizedL1)
  {
    NextAttributesGood(cfg, n, read);
    var (p, outcome) := NextAttributes(cfg, n.state, n.pipeline, read);
    if outcome.Attrs? {
      PullAppends(cfg, n, p, outcome.attributes, hash);
      ChainNumbers(cfg, n.l1, n.chain, n.base, |n.chain| - 1);
      var n' := PullStep(cfg, n, read, hash).value;
      CoveredGrows(n.unfinalized, n'.unfinalized[|n.unfinalized|], FinalizedNumber(n), n.finalizedL1);
    }
  }

  lemma StepCovered(cfg: Config, n: Node, e: Event)
    requires Inv(cfg, n) && Fair(cfg, n, e) && Step(cfg, n, e).Some?
    requires Covered(n.unfinalized, FinalizedNumber(n), n.finalizedL1) && Recoverable(n.unfinalized, n.finalizedL1)
    requires e.FinalityUpdate? ==> n.finalizedL1 <= e.number
    ensures var n' := Step(cfg, n, e).value;
            && FinalizedNumber(n) <= FinalizedNumber(n')
            && Covered(n'.unfinalized, FinalizedNumber(n'), n'.finalizedL1)
  {
    hide Covered, Recoverable;
    match e
    case Pull(read, hash) => PullCovered(cfg, n, read, hash);
    case FinalityUpdate(number) => CoveredHigher(n.unfinalized, FinalizedNumber(n), n.finalizedL1, number);
    case UpdateFinalized =>
      FinalizeStepIs(n);
      SteadyRises(n.unfinalized, FinalizedNumber(n), n.finalizedL1, n.finalizedL1);
      SteadyStays(n.unfinalized, FinalizedNumber(n), n.finalizedL1, n.finalizedL1);
    case L1Reorg(l1) => NothingCovered(FinalizedNumber(n), n.finalizedL1);
    case _ =>
  }

  lemma NothingCovered(f: nat, floor: nat)
    ensures Covered([], f, floor)
  {
  }

  /**
   In every fair run in which L1 finality never retreats and overtaken blocks are always
   shielded, the finalized head never moves back, reorgs included.
   */
  lemma {:induction false} FinalizedNeverBack(cfg: Config, n: Node, events: seq<Event>)
    requires Init(cfg, n) && FairRun(cfg, n, events) && RecoverableRun(cfg, n, events) && Run(cfg, n, events).Some?
    ensures NeverBack(cfg, n, events)
    ensures var now := Run(cfg, n, events).value;
            Inv(cfg, now) && Covered(now.unfinalized, FinalizedNumber(now), now.finalizedL1)
    decreases |events|
  {
    RunKeeps(cfg, n, events);
    if events == [] {
      NothingCovered(FinalizedNumber(n), n.finalizedL1);
    } else {
      hide Inv, Init, Fair, Step, Covered, Recoverable;
      var init, e := events[..|events| - 1], events[|events| - 1];
      FinalizedNeverBack(cfg, n, init);
      StepCovered(cfg, Run(cfg, n, init).value, e);
    }
  }

  /** Inclusion in order is one way to leave no block overtaken. */
  lemma SortedIsRecoverable(cfg: Config, n: Node)
    requires Inv(cfg, n) && InclusionSorted(n.chain, n.base)
    ensures Recoverable(n.unfinalized, n.finalizedL1)
  {
    forall u, v | u in n.unfinalized && v in n.unfinalized && u.head.number < v.head.number ensures u.inclusion <= v.inclusion {
      assert EntryOk(n.chain, n.base, u) && EntryOk(n.chain, n.base, v);
      var i, j := u.head.number - n.chain[0].info.number, v.head.number - n.chain[0].info.number;
      assert n.chain[i].inclusion <= n.chain[j].inclusion;
    }
  }

  // -------------------------------------------------------------------- how far finality comes

  function EntryOf(d: Derived): Unfinalized { Unfinalized(d.info, d.epoch, d.inclusion, d.sequenceNumber) }

  /** Every block above the finalized head that opens its epoch waits for L1 finality. */
  ghost predicate AllWait(n: Node) {
    forall i :: n.base < i < |n.chain| && n.chain[i].sequenceNumber == 0 && FinalizedNumber(n) < n.chain[i].info.number ==>
      EntryOf(n.chain[i]) in n.unfinalized
  }

  /** No block that opens its epoch and whose data is final on L1 is above the finalized head. */
  ghost predicate Reached(n: Node) {
    forall i :: n.base < i < |n.chain| && n.chain[i].sequenceNumber == 0 && n.chain[i].inclusion <= n.finalizedL1 ==>
      n.chain[i].info.number <= FinalizedNumber(n)
  }

  /** Block i of the chain opens its epoch, has its data in final L1 blocks, and is the finalized head. */
  ghost predicate IsFinalized(n: Node, i: nat) {
    && n.base < i < |n.chain| && n.chain[i].sequenceNumber == 0 && n.chain[i].inclusion <= n.finalizedL1
    && n.driven.heads.finalizedHead == n.chain[i].info && n.driven.heads.finalizedEpoch == n.chain[i].epoch
  }

  lemma FinalizeReaches(cfg: Config, n: Node)
    requires Inv(cfg, n) && AllWait(n) && FinalizedNumber(n) <= FinalizedNumber(FinalizeStep(n))
    ensures var n' := FinalizeStep(n);
            && AllWait(n') && Reached(n')
            && (n'.driven.heads == n.driven.heads || exists i :: IsFinalized(n', i))
            && forall u :: u in n'.unfinalized ==> u.inclusion > n'.finalizedL1
  {
    ListsAgree(cfg, n);
    hide Inv;
    StillUnfinalizedKeeps(n.unfinalized, n.finalizedL1);
    WaitersReach(n);
    LastIsFinalized(n);
  }

  /** Every waiting block is a block of the chain, and the list is in the order of the chain. */
  ghost predicate ListOk(n: Node) {
    && n.chain != [] && Increasing(n.unfinalized)
    && forall u :: u in n.unfinalized ==> EntryOk(n.chain, n.base, u)
  }

  lemma ListsAgree(cfg: Config, n: Node)
    requires Inv(cfg, n)
    ensures ListOk(n)
  {
  }

  lemma WaitersReach(n: Node)
    requires ListOk(n) && AllWait(n) && FinalizedNumber(n) <= FinalizedNumber(FinalizeStep(n))
    ensures AllWait(FinalizeStep(n)) && Reached(FinalizeStep(n))
  {
    var n', us, t := FinalizeStep(n), n.unfinalized, n.finalizedL1;
    LastFinalIsHighest(us, t);
    StillUnfinalizedKeeps(us, t);
    FinalizeStepIs(n);
    hide EntryOk, StillUnfinalized, LastFinal;
    forall i | n.base < i < |n.chain| && n.chain[i].sequenceNumber == 0 && FinalizedNumber(n') < n.chain[i].info.number
      ensures EntryOf(n.chain[i]) in n'.unfinalized && n.chain[i].inclusion > t
    {
      var u := EntryOf(n.chain[i]);
      assert u in us;
      assert !CanFinalize(u, t);
    }
  }

  lemma LastIsFinalized(n: Node)
    requires ListOk(n)
    ensures var n' := FinalizeStep(n); n'.driven.heads == n.driven.heads || exists i :: IsFinalized(n', i)
  {
    LastFinalIsHighest(n.unfinalized, n.finalizedL1);
    match LastFinal(n.unfinalized, n.finalizedL1)
    case None =>
    case Some(u) =>
      assert EntryOk(n.chain, n.base, u);
      assert IsFinalized(FinalizeStep(n), u.head.number - n.chain[0].info.number);
  }

  lemma PullWaits(cfg: Config, n: Node, read: ChannelRead, hash: Hash)
    requires Inv(cfg, n) && ValidRead(read) && ReadAligned(cfg, read) && PullStep(cfg, n, read, hash).Some? && AllWait(n)
    ensures AllWait(PullStep(cfg, n, read, hash).value)
  {
    hide NextAttributes, GoodAttributes;
    NextAttributesGood(cfg, n, read);
    var (p, outcome) := NextAttributes(cfg, n.state, n.pipeline, read);
    if outcome.Attrs? {
      PullAppends(cfg, n, p, outcome.attributes, hash);
      PulledWaits(n, p, outcome.attributes, PullStep(cfg, n, read, hash).value);
    }
  }

  lemma PulledWaits(n: Node, p: Pipeline, a: PayloadAttributes, n': Node)
    requires Pulled(n, p, a, n') && AllWait(n)
    ensures AllWait(n')
  {
    forall i | n'.base < i < |n'.chain| && n'.chain[i].sequenceNumber == 0 && FinalizedNumber(n') < n'.chain[i].info.number
      ensures EntryOf(n'.chain[i]) in n'.unfinalized
    {
      if i < |n.chain| {
        assert n'.chain[i] == n.chain[i];
        assert EntryOf(n.chain[i]) in n.unfinalized;
      } else {
        assert n'.unfinalized[|n.unfinalized|] == EntryOf(n'.chain[i]);
      }
    }
  }

  lemma ReorgWaits(cfg: Config, n: Node, l1: seq<L1Info>)
    requires Inv(cfg, n)
    ensures AllWait(ReorgStep(cfg, n, l1))
  {
    hide StateOk, QueueOk, UnfinalizedOk;
    var n' := ReorgStep(cfg, n, l1);
    forall i | 0 <= i < |n'.chain| ensures n'.chain[i].info.number <= FinalizedNumber(n') {
      ChainNumbers(cfg, n.l1, n.chain, n.base, i);
    }
  }

  lemma StepWaits(cfg: Config, n: Node, e: Event)
    requires Inv(cfg, n) && Fair(cfg, n, e) && Step(cfg, n, e).Some? && AllWait(n)
    requires FinalizedNumber(n) <= FinalizedNumber(Step(cfg, n, e).value)
    ensures AllWait(Step(cfg, n, e).value)
  {
    hide Inv, PullStep, ReorgStep, FinalizeStep;
    match e
    case Pull(read, hash) => PullWaits(cfg, n, read, hash);
    case L1Reorg(l1) => ReorgWaits(cfg, n, l1);
    case UpdateFinalized => FinalizeReaches(cfg, n);
    case _ =>
  }

  lemma {:induction false} RunWaits(cfg: Config, n: Node, events: seq<Event>)
    requires Init(cfg, n) && FairRun(cfg, n, events) && NeverBack(cfg, n, events) && Run(cfg, n, events).Some?
    ensures AllWait(Run(cfg, n, events).value)
    decreases |events|
  {
    hide Fair, Step, Inv;
    if events != [] {
      hide Init;
      var init := events[..|events| - 1];
      RunKeeps(cfg, n, init);
      RunWaits(cfg, n, init);
      StepWaits(cfg, Run(cfg, n, init).value, events[|events| - 1]);
    }
  }

  /**
   How far finality comes. In a fair run in which the finalized head never moves back, it is after
   each finalization the last block of the safe chain that opens its epoch and whose data is in
   final L1 blocks, or stays where it was if that is further; and nothing whose data is final
   waits any longer.
   */
  lemma FinalizedReaches(cfg: Config, n: Node, events: seq<Event>)
    requires Init(cfg, n) && FairRun(cfg, n, events + [UpdateFinalized]) && NeverBack(cfg, n, events + [UpdateFinalized])
    requires Run(cfg, n, events).Some?
    ensures Run(cfg, n, events + [UpdateFinalized]).Some?
    ensures var before, now := Run(cfg, n, events).value, Run(cfg, n, events + [UpdateFinalized]).value;
            && Reached(now)
            && (now.driven.heads == before.driven.heads || exists i :: IsFinalized(now, i))
            && forall u :: u in now.unfinalized ==> u.inclusion > now.finalizedL1
  {
    hide Inv, Reached, IsFinalized, FinalizeStep;
    assert (events + [UpdateFinalized])[..|events|] == events;
    RunKeeps(cfg, n, events);
    RunWaits(cfg, n, events);
    FinalizeReaches(cfg, Run(cfg, n, events).value);
  }
}
