/**
 System configuration updates (src/l1/config_updates.rs) and the watcher's scan for them
 1000 L1 blocks ahead (src/l1/chain_watcher.rs), against a reading of L1 block by block.
 */
module ConfigScan {
  import opened Base
  import opened Types
  import opened Wire

  const LOOKAHEAD: nat := 1000

  /** An event of the system config contract; topics are 256-bit words. */
  datatype ConfigLog = ConfigLog(block: nat, topics: seq<nat>, data: Bytes)

  datatype ConfigUpdate =
    | BatchSender(address: Bytes)
    | Fees(overhead: nat, scalar: nat)
    | Gas(gas: nat)
    | UnsafeBlockSigner(address: Bytes)

  function Slice(data: Bytes, lo: nat, hi: nat): Option<Bytes>
    requires lo <= hi
  {
    if hi <= |data| then Some(data[lo..hi]) else None
  }

  /** Only the low 64 bits of the version and type topics are looked at. */
  function ParseUpdate(log: ConfigLog): Option<ConfigUpdate> {
    if |log.topics| < 3 || log.topics[1] % U64_RANGE != 0 then None
    else match log.topics[2] % U64_RANGE
      case 0 => var address :- Slice(log.data, 76, 96); Some(BatchSender(address))
      case 1 =>
        var overhead :- Slice(log.data, 64, 96);
        var scalar :- Slice(log.data, 96, 128);
        Some(Fees(FromBigEndian(overhead), FromBigEndian(scalar)))
      case 2 => var gas :- Slice(log.data, 64, 96); Some(Gas(FromBigEndian(gas)))
      case 3 => var address :- Slice(log.data, 76, 96); Some(UnsafeBlockSigner(address))
      case _ => None
  }

  function Apply(update: ConfigUpdate, config: SystemConfig): SystemConfig {
    match update
    case BatchSender(address) => config.(batchSender := address)
    case Fees(overhead, scalar) => config.(l1FeeOverhead := overhead, l1FeeScalar := scalar)
    case Gas(gas) => config.(gasLimit := gas)
    case UnsafeBlockSigner(address) => config.(unsafeBlockSigner := address)
  }

  ghost predicate Sorted(logs: seq<ConfigLog>) {
    forall i, j :: 0 <= i <= j < |logs| ==> logs[i].block <= logs[j].block
  }

  /** The log is an update of a block after lo, up to hi. */
  predicate UpdateIn(log: ConfigLog, lo: nat, hi: nat) { lo < log.block <= hi && ParseUpdate(log).Some? }

  // ------------------------------------------------------------------ the simple reading

  /** The configuration after L1 block n: every update after the start block is applied in turn. */
  function ConfigAt(logs: seq<ConfigLog>, initial: SystemConfig, start: nat, n: nat): SystemConfig {
    if logs == [] then initial
    else
      var log := logs[|logs| - 1];
      var before := ConfigAt(logs[..|logs| - 1], initial, start, n);
      if UpdateIn(log, start, n) then Apply(ParseUpdate(log).value, before) else before
  }

  /** Blocks without updates keep the configuration. */
  lemma {:induction false} ConfigSame(logs: seq<ConfigLog>, initial: SystemConfig, start: nat, m: nat, n: nat)
    requires start <= m <= n && forall log :: log in logs ==> !UpdateIn(log, m, n)
    ensures ConfigAt(logs, initial, start, m) == ConfigAt(logs, initial, start, n)
    decreases |logs|
  {
    if logs != [] {
      ConfigSame(logs[..|logs| - 1], initial, start, m, n);
      assert !UpdateIn(logs[|logs| - 1], m, n);
    }
  }

  /** A block range with one update applies it. */
  lemma {:induction false} ConfigOne(logs: seq<ConfigLog>, initial: SystemConfig, start: nat, m: nat, n: nat, i: nat)
    requires Sorted(logs) && start <= m <= n && i < |logs| && UpdateIn(logs[i], m, n)
    requires forall j :: 0 <= j < |logs| && j != i ==> !UpdateIn(logs[j], m, n)
    ensures ConfigAt(logs, initial, start, n) == Apply(ParseUpdate(logs[i]).value, ConfigAt(logs, initial, start, m))
    decreases |logs|
  {
    var init, last := logs[..|logs| - 1], logs[|logs| - 1];
    if i == |logs| - 1 {
      forall log | log in init ensures !UpdateIn(log, m, n) {
        var j :| 0 <= j < |init| && init[j] == log;
        assert logs[j] == log;
      }
      ConfigSame(init, initial, start, m, n);
    } else {
      ConfigOne(init, initial, start, m, n, i);
      assert logs[i].block <= last.block;
      assert !UpdateIn(last, m, n);
    }
  }

  // ------------------------------------------------------------------------------- scans

  predicate Seen(log: ConfigLog, from: nat, to: nat, tip: nat) { from <= log.block <= to && log.block <= tip }

  /** What the provider answers while its tip is as given: it has no logs beyond. */
  function GetLogs(logs: seq<ConfigLog>, from: nat, to: nat, tip: nat): (found: seq<ConfigLog>)
    ensures forall log :: log in found <==> log in logs && Seen(log, from, to, tip)
  {
    if logs == [] then []
    else
      var log := logs[|logs| - 1];
      GetLogs(logs[..|logs| - 1], from, to, tip) + if Seen(log, from, to, tip) then [log] else []
  }

  /** The first log after block last that the scan sees, if it is an update. */
  function ScanFrom(logs: seq<ConfigLog>, last: nat, tip: nat): Option<ConfigLog> {
    var found := GetLogs(logs, last + 1, last + LOOKAHEAD, tip);
    if found != [] && ParseUpdate(found[0]).Some? then Some(found[0]) else None
  }

  lemma SeenIsAhead(logs: seq<ConfigLog>, last: nat, tip: nat)
    requires ScanFrom(logs, last, tip).Some?
    ensures var log := ScanFrom(logs, last, tip).value;
            ParseUpdate(log).Some? && last < log.block <= last + LOOKAHEAD && log.block <= tip
  {
    var found := GetLogs(logs, last + 1, last + LOOKAHEAD, tip);
    assert found[0] in found;
  }

  /** The first update of the blocks after lo, up to hi, wherever the tip is. */
  ghost predicate IsFirstUpdate(logs: seq<ConfigLog>, lo: nat, hi: nat, i: nat)
    requires i < |logs|
  {
    UpdateIn(logs[i], lo, hi) && forall j :: 0 <= j < i ==> !UpdateIn(logs[j], lo, hi)
  }

  ghost predicate NoUpdate(logs: seq<ConfigLog>, lo: nat, hi: nat) {
    forall log :: log in logs ==> !UpdateIn(log, lo, hi)
  }

  /** What a simple search of the whole range would find. */
  ghost predicate FindsFirst(logs: seq<ConfigLog>, lo: nat, hi: nat, found: Option<ConfigLog>) {
    match found
    case None => NoUpdate(logs, lo, hi)
    case Some(log) => exists i :: 0 <= i < |logs| && logs[i] == log && IsFirstUpdate(logs, lo, hi, i)
  }

  /** The logs found are in the order of the chain: the first is at some index i, none before it was seen. */
  lemma {:induction false} GetLogsFirst(logs: seq<ConfigLog>, from: nat, to: nat, tip: nat) returns (i: nat)
    requires GetLogs(logs, from, to, tip) != []
    ensures i < |logs| && logs[i] == GetLogs(logs, from, to, tip)[0] && Seen(logs[i], from, to, tip)
    ensures forall j :: 0 <= j < i ==> !Seen(logs[j], from, to, tip)
    decreases |logs|
  {
    var init := logs[..|logs| - 1];
    if GetLogs(init, from, to, tip) == [] {
      i := |logs| - 1;
      forall j | 0 <= j < i ensures !Seen(logs[j], from, to, tip) {
        assert init[j] in init && init[j] !in GetLogs(init, from, to, tip);
      }
    } else {
      i := GetLogsFirst(init, from, to, tip);
      assert forall j :: 0 <= j < i ==> logs[j] == init[j];
    }
  }

  /** The first log of the blocks after lo, up to hi, in chain order. */
  ghost predicate IsFirstLog(logs: seq<ConfigLog>, lo: nat, hi: nat, i: nat)
    requires i < |logs|
  {
    lo < logs[i].block <= hi && forall j :: 0 <= j < i ==> !(lo < logs[j].block <= hi)
  }

  /** The scan sees an update exactly when the first log of its range is one and is mined. */
  lemma ScanSeesIff(logs: seq<ConfigLog>, last: nat, tip: nat)
    requires Sorted(logs)
    ensures ScanFrom(logs, last, tip).Some? <==>
            exists i :: 0 <= i < |logs| && IsFirstLog(logs, last, last + LOOKAHEAD, i)
                     && ParseUpdate(logs[i]).Some? && logs[i].block <= tip
  {
    var from, to := last + 1, last + LOOKAHEAD;
    var found := GetLogs(logs, from, to, tip);
    if found != [] {
      var i := GetLogsFirst(logs, from, to, tip);
      forall j | 0 <= j < i ensures !(last < logs[j].block <= to) {
        assert logs[j].block <= logs[i].block && !Seen(logs[j], from, to, tip);
      }
      assert IsFirstLog(logs, last, to, i);
      forall k | 0 <= k < |logs| && IsFirstLog(logs, last, to, k) ensures k == i {
      }
    } else {
      forall i | 0 <= i < |logs| && IsFirstLog(logs, last, to, i) ensures logs[i].block > tip {
        assert logs[i] in logs && logs[i] !in found;
      }
    }
  }

  /**
   The scan finds what a search of all 1000 blocks would find exactly when there is no update
   in those blocks, or the first log in them is an update and is already mined. It misses
   updates that are mined later, and those behind a log that is not an update.
   */
  lemma ScanFindsFirstIff(logs: seq<ConfigLog>, last: nat, tip: nat)
    requires Sorted(logs)
    ensures FindsFirst(logs, last, last + LOOKAHEAD, ScanFrom(logs, last, tip))
       <==> || (forall i :: 0 <= i < |logs| && last < logs[i].block <= last + LOOKAHEAD ==> ParseUpdate(logs[i]).None?)
            || (exists i :: 0 <= i < |logs| && IsFirstLog(logs, last, last + LOOKAHEAD, i)
                         && ParseUpdate(logs[i]).Some? && logs[i].block <= tip)
  {
    ScanSeesIff(logs, last, tip);
    if ScanFrom(logs, last, tip).Some? {
      FoundIsFirst(logs, last, tip);
    } else {
      forall i | 0 <= i < |logs| ensures UpdateIn(logs[i], last, last + LOOKAHEAD) ==> !NoUpdate(logs, last, last + LOOKAHEAD) {
        assert logs[i] in logs;
      }
    }
  }

  lemma FoundIsFirst(logs: seq<ConfigLog>, last: nat, tip: nat)
    requires Sorted(logs) && ScanFrom(logs, last, tip).Some?
    ensures FindsFirst(logs, last, last + LOOKAHEAD, ScanFrom(logs, last, tip))
  {
    var i := GetLogsFirst(logs, last + 1, last + LOOKAHEAD, tip);
    forall j | 0 <= j < i ensures !UpdateIn(logs[j], last, last + LOOKAHEAD) {
      assert logs[j].block <= logs[i].block <= tip && !Seen(logs[j], last + 1, last + LOOKAHEAD, tip);
    }
    assert IsFirstUpdate(logs, last, last + LOOKAHEAD, i);
  }

  /** No block has two updates. */
  ghost predicate OnePerBlock(logs: seq<ConfigLog>) {
    forall i, j :: 0 <= i < j < |logs| && ParseUpdate(logs[i]).Some? && ParseUpdate(logs[j]).Some? ==> logs[i].block != logs[j].block
  }

  /** A sound scan that finds an update has the configuration of its block, and none changes before. */
  lemma SoundScan(logs: seq<ConfigLog>, initial: SystemConfig, start: nat, last: nat, tip: nat, log: ConfigLog)
    requires Sorted(logs) && OnePerBlock(logs) && start <= last && ScanFrom(logs, last, tip) == Some(log)
    ensures last < log.block <= last + LOOKAHEAD && log.block <= tip && ParseUpdate(log).Some?
    ensures ConfigAt(logs, initial, start, log.block) == Apply(ParseUpdate(log).value, ConfigAt(logs, initial, start, last))
    ensures forall m :: last <= m < log.block ==> ConfigAt(logs, initial, start, m) == ConfigAt(logs, initial, start, last)
  {
    SeenIsAhead(logs, last, tip);
    FoundIsFirst(logs, last, tip);
    var i :| 0 <= i < |logs| && logs[i] == log && IsFirstUpdate(logs, last, last + LOOKAHEAD, i);
    forall j | 0 <= j < |logs| && j != i ensures !UpdateIn(logs[j], last, log.block) {
      if j < i {
        assert !UpdateIn(logs[j], last, last + LOOKAHEAD);
      } else {
        assert logs[i].block <= logs[j].block;
      }
    }
    ConfigOne(logs, initial, start, last, log.block, i);
    forall m | last <= m < log.block ensures ConfigAt(logs, initial, start, m) == ConfigAt(logs, initial, start, last) {
      forall other | other in logs ensures !UpdateIn(other, last, m) {
        var j :| 0 <= j < |logs| && logs[j] == other;
        assert j != i ==> !UpdateIn(logs[j], last, log.block);
      }
      ConfigSame(logs, initial, start, last, m);
    }
  }

  /** A range without updates has one configuration. */
  lemma EmptyRange(logs: seq<ConfigLog>, initial: SystemConfig, start: nat, last: nat, hi: nat, m: nat)
    requires start <= last <= m <= hi && NoUpdate(logs, last, hi)
    ensures ConfigAt(logs, initial, start, m) == ConfigAt(logs, initial, start, last)
  {
    forall log | log in logs ensures !UpdateIn(log, last, m) {
      assert !UpdateIn(log, last, hi);
    }
    ConfigSame(logs, initial, start, last, m);
  }

  /**
   The configuration of block last is right for the blocks of a range exactly when each update
   in the range sets what is set already.
   */
  lemma {:induction false} ConstantRangeIff(logs: seq<ConfigLog>, initial: SystemConfig, start: nat, last: nat, hi: nat)
    requires Sorted(logs) && OnePerBlock(logs) && start <= last <= hi
    ensures (forall m :: last <= m <= hi ==> ConfigAt(logs, initial, start, m) == ConfigAt(logs, initial, start, last))
       <==> (forall log :: log in logs && UpdateIn(log, last, hi) ==>
               Apply(ParseUpdate(log).value, ConfigAt(logs, initial, start, last)) == ConfigAt(logs, initial, start, last))
    decreases hi - last
  {
    var config := ConfigAt(logs, initial, start, last);
    if last < hi {
      ConstantRangeIff(logs, initial, start, last, hi - 1);
      if i :| 0 <= i < |logs| && UpdateIn(logs[i], hi - 1, hi) {
        ConfigOne(logs, initial, start, hi - 1, hi, i);
        assert logs[i] in logs && UpdateIn(logs[i], last, hi);
        forall log | log in logs && UpdateIn(log, last, hi) ensures UpdateIn(log, last, hi - 1) || log == logs[i] {
          if log.block == hi {
            var j :| 0 <= j < |logs| && logs[j] == log;
          }
        }
      } else {
        forall log | log in logs ensures !UpdateIn(log, hi - 1, hi) {
          var j :| 0 <= j < |logs| && logs[j] == log;
        }
        ConfigSame(logs, initial, start, hi - 1, hi);
        forall log | log in logs && UpdateIn(log, last, hi) ensures UpdateIn(log, last, hi - 1) {
          assert !UpdateIn(log, hi - 1, hi);
        }
      }
    } else {
      forall log | log in logs ensures !UpdateIn(log, last, hi) {
      }
    }
  }
}
