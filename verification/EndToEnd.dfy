/**
 From the logs of L1 to the derived chain: the watcher's reports are the L1 blocks that the node
 is delivered, so that what is derived can be told from the deposit logs alone.
 */
module EndToEnd {
  import opened Base
  import opened Types
  import opened NodeModel
  import opened NodeSafety
  import opened Sequencing
  import W = ChainWatcher

  /** The deposit logs are in the order of the chain. */
  ghost predicate InChainOrder(logs: seq<UserDeposited>) {
    forall i, j :: 0 <= i < j < |logs| ==> logs[i].l1BlockNum <= logs[j].l1BlockNum
  }

  /** The deposit logs of the blocks after lo, up to hi. */
  function LogsBetween(logs: seq<UserDeposited>, lo: nat, hi: nat): seq<UserDeposited> {
    if logs == [] then []
    else
      var log := logs[|logs| - 1];
      LogsBetween(logs[..|logs| - 1], lo, hi) + if lo < log.l1BlockNum <= hi then [log] else []
  }

  /** An L1 block that some run of the watcher reported, on a chain with the same deposits in that block. */
  ghost predicate Watched(logs: seq<UserDeposited>, info: L1Info) {
    exists c, answers ::
      && W.ConsistentRun(c, answers) && W.NewBlock(info) in W.BlockReports(W.Run(c, answers).1)
      && W.DepositsAt(c.depositLogs, info.blockInfo.number) == W.DepositsAt(logs, info.blockInfo.number)
  }

  /** A reported block has just its own deposits, whatever the scans of the run missed. */
  lemma WatchedDeposits(logs: seq<UserDeposited>, info: L1Info)
    requires Watched(logs, info)
    ensures info.userDeposits == W.DepositsAt(logs, info.blockInfo.number)
  {
    hide W.Run, W.Continued, W.BlockReports, W.ConsistentRun, W.ConsistentFrom, W.DepositsAt;
    var c, answers :|
      && W.ConsistentRun(c, answers) && W.NewBlock(info) in W.BlockReports(W.Run(c, answers).1)
      && W.DepositsAt(c.depositLogs, info.blockInfo.number) == W.DepositsAt(logs, info.blockInfo.number);
    W.RunIsContinued(c, answers);
    RunIsConsistent(c, answers);
    W.ReportsAreNumbered(c, W.Initial(c), answers);
    var reports := W.BlockReports(W.Run(c, answers).1);
    var k :| 0 <= k < |reports| && reports[k] == W.NewBlock(info);
    assert W.Numbered(c, c.start + k, reports[k]);
  }

  lemma {:induction false} RunIsConsistent(c: W.Chain, answers: seq<W.Answers>)
    requires W.ConsistentRun(c, answers)
    ensures W.ConsistentFrom(c, W.Initial(c), answers)
    decreases |answers|
  {
    if answers != [] {
      var init := answers[..|answers| - 1];
      RunIsConsistent(c, init);
      W.RunIsContinued(c, init);
    }
  }

  // -------------------------------------------------------------------- logs, block by block

  lemma {:induction false} NoLogsBelow(logs: seq<UserDeposited>, n: nat)
    requires forall i :: 0 <= i < |logs| ==> logs[i].l1BlockNum < n
    ensures W.DepositsAt(logs, n) == []
    decreases |logs|
  {
    if logs != [] {
      NoLogsBelow(logs[..|logs| - 1], n);
    }
  }

  /** In chain order, the logs of a range are those of the blocks before its last, and then that block's. */
  lemma {:induction false} LastBlockSplits(logs: seq<UserDeposited>, lo: nat, hi: nat)
    requires InChainOrder(logs) && lo < hi
    ensures LogsBetween(logs, lo, hi) == LogsBetween(logs, lo, hi - 1) + W.DepositsAt(logs, hi)
    decreases |logs|
  {
    if logs != [] {
      var init, last := logs[..|logs| - 1], logs[|logs| - 1];
      LastBlockSplits(init, lo, hi);
      if last.l1BlockNum < hi {
        NoLogsBelow(init, hi);
      }
    }
  }

  lemma {:induction false} EmptyRange(logs: seq<UserDeposited>, lo: nat, hi: nat)
    requires hi <= lo
    ensures LogsBetween(logs, lo, hi) == []
    decreases |logs|
  {
    if logs != [] {
      EmptyRange(logs[..|logs| - 1], lo, hi);
    }
  }

  /** What the blocks of L1 carry are the logs of the range. */
  lemma {:induction false} BlocksCarryLogs(logs: seq<UserDeposited>, l1: seq<L1Info>, lo: nat, hi: nat)
    requires InChainOrder(logs) && ValidL1(l1) && hi < |l1|
    requires forall i :: lo < i <= hi ==> Watched(logs, l1[i])
    ensures L1Deposits(l1, lo, hi) == LogsBetween(logs, lo, hi)
    decreases hi
  {
    hide Watched, LogsBetween, W.DepositsAt;
    if hi <= lo {
      EmptyRange(logs, lo, hi);
    } else {
      BlocksCarryLogs(logs, l1, lo, hi - 1);
      WatchedDeposits(logs, l1[hi]);
      LastBlockSplits(logs, lo, hi);
    }
  }

  // ---------------------------------------------------------------------------- the theorem

  /** The L1 blocks after the starting epoch, up to the safe epoch, are reports of the watcher. */
  ghost predicate OriginsWatched(n: Node, logs: seq<UserDeposited>) {
    n.base < |n.chain| ==>
      forall i :: n.chain[n.base].epoch.number < i <= n.driven.heads.safeEpoch.number && i < |n.l1| ==> Watched(logs, n.l1[i])
  }

  /**
   From L1 logs to L2 blocks. When the L1 blocks that serve as origins are reports of the watcher,
   over any runs and restarts of it, and no pull meets a span that would skip an L1 block, the deposits
   in the derived blocks, in order, are the deposit logs of L1 after the starting epoch and up
   to the safe epoch, each once, whatever failed and was repeated on the way.
   */
  lemma DerivedDepositsAreLogs(cfg: Config, n: Node, events: seq<Event>, logs: seq<UserDeposited>)
    requires Init(cfg, n) && FairRun(cfg, n, events) && NoJumpRun(cfg, n, events) && Run(cfg, n, events).Some?
    requires InChainOrder(logs) && OriginsWatched(Run(cfg, n, events).value, logs)
    ensures var now := Run(cfg, n, events).value;
            && now.base < |now.chain|
            && ChainDeposits(now.chain, now.base, |now.chain| - 1)
               == LogsBetween(logs, now.chain[now.base].epoch.number, now.driven.heads.safeEpoch.number)
  {
    DepositsConserved(cfg, n, events);
    RunKeeps(cfg, n, events);
    var now := Run(cfg, n, events).value;
    KnownL1(cfg, now);
    hide Inv, Run, FairRun, NoJumpRun, Init, Watched;
    BlocksCarryLogs(logs, now.l1, now.chain[now.base].epoch.number, now.driven.heads.safeEpoch.number);
  }

  lemma KnownL1(cfg: Config, n: Node)
    requires Inv(cfg, n)
    ensures ValidL1(n.l1) && n.driven.heads.safeEpoch.number < |n.l1|
  {
  }
}
