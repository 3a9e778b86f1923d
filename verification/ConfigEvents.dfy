/**
 The events of the system config contract (src/l1/config_updates.rs): how they are laid out, when
 one is an update, and what each field of the configuration is after any number of them.
 */
module ConfigEvents {
  import opened Base
  import opened Types
  import opened Wire
  import opened ConfigScan

  // ---------------------------------------------------------------------- the events' layout

  const BATCHER: nat := 0
  const FEE_SCALARS: nat := 1
  const GAS_LIMIT: nat := 2
  const SIGNER: nat := 3

  function Word(n: nat): Bytes { ToBigEndian(n, 32) }

  /** An address as a word, on its last 20 bytes. */
  function AddressWord(address: Bytes): Bytes { seq(12, _ => 0) + address }

  function Kind(update: ConfigUpdate): nat {
    match update
    case BatchSender(_) => BATCHER
    case Fees(_, _) => FEE_SCALARS
    case Gas(_) => GAS_LIMIT
    case UnsafeBlockSigner(_) => SIGNER
  }

  function Payload(update: ConfigUpdate): Bytes {
    match update
    case BatchSender(address) => AddressWord(address)
    case Fees(overhead, scalar) => Word(overhead) + Word(scalar)
    case Gas(gas) => Word(gas)
    case UnsafeBlockSigner(address) => AddressWord(address)
  }

  /**
   The log of an update: topics for the event, its version and its kind, and as data one dynamic
   byte string, that is its offset, its length and its words.
   */
  function EventLog(block: nat, event: nat, update: ConfigUpdate): ConfigLog {
    ConfigLog(block, [event, 0, Kind(update)], Word(32) + Word(|Payload(update)|) + Payload(update))
  }

  /** Addresses have 20 bytes, and words 32. */
  ghost predicate Printable(update: ConfigUpdate) {
    match update
    case BatchSender(address) => |address| == 20
    case Fees(overhead, scalar) => overhead < Pow256(32) && scalar < Pow256(32)
    case Gas(gas) => gas < Pow256(32)
    case UnsafeBlockSigner(address) => |address| == 20
  }

  lemma SliceBehind(prefix: Bytes, payload: Bytes, lo: nat, hi: nat)
    requires lo <= hi <= |payload|
    ensures (prefix + payload)[|prefix| + lo..|prefix| + hi] == payload[lo..hi]
  {
  }

  /** Every update is read back from its log, with each word as the field it stands for. */
  lemma UpdateRoundTrip(block: nat, event: nat, update: ConfigUpdate)
    requires Printable(update)
    ensures ParseUpdate(EventLog(block, event, update)) == Some(update)
  {
    hide ToBigEndian, FromBigEndian, Pow256;
    var payload := Payload(update);
    var prefix := Word(32) + Word(|payload|);
    assert |prefix| == 64;
    match update
    case BatchSender(address) =>
      SliceBehind(prefix, payload, 12, 32);
      assert payload[12..32] == address;
    case UnsafeBlockSigner(address) =>
      SliceBehind(prefix, payload, 12, 32);
      assert payload[12..32] == address;
    case Gas(gas) =>
      SliceBehind(prefix, payload, 0, 32);
      assert payload[0..32] == Word(gas);
      BigEndianRoundTrip(gas, 32);
    case Fees(overhead, scalar) =>
      SliceBehind(prefix, payload, 0, 32);
      SliceBehind(prefix, payload, 32, 64);
      assert payload[0..32] == Word(overhead) && payload[32..64] == Word(scalar);
      BigEndianRoundTrip(overhead, 32);
      BigEndianRoundTrip(scalar, 32);
  }

  // --------------------------------------------------------------------- when a log is an update

  /** A log that is an update of a kind: low version and type words as they should be, and enough data. */
  predicate IsUpdate(log: ConfigLog, kind: nat) {
    && |log.topics| >= 3 && log.topics[1] % U64_RANGE == 0 && log.topics[2] % U64_RANGE == kind <= SIGNER
    && |log.data| >= if kind == FEE_SCALARS then 128 else 96
  }

  /** Exactly which logs are updates, whatever else they hold, and what they say. */
  lemma ParsesIff(log: ConfigLog)
    ensures ParseUpdate(log).Some? <==> exists kind :: IsUpdate(log, kind)
    ensures IsUpdate(log, BATCHER) ==> ParseUpdate(log) == Some(BatchSender(log.data[76..96]))
    ensures IsUpdate(log, FEE_SCALARS) ==>
              ParseUpdate(log) == Some(Fees(FromBigEndian(log.data[64..96]), FromBigEndian(log.data[96..128])))
    ensures IsUpdate(log, GAS_LIMIT) ==> ParseUpdate(log) == Some(Gas(FromBigEndian(log.data[64..96])))
    ensures IsUpdate(log, SIGNER) ==> ParseUpdate(log) == Some(UnsafeBlockSigner(log.data[76..96]))
  {
    hide FromBigEndian;
    if |log.topics| >= 3 {
      var kind := log.topics[2] % U64_RANGE;
      assert ParseUpdate(log).Some? ==> IsUpdate(log, kind);
    }
  }

  // ----------------------------------------------------------------- the configuration, by fields

  /** Log i is the last update of its kind after the start block, up to block n. */
  ghost predicate IsLastOf(logs: seq<ConfigLog>, start: nat, n: nat, kind: nat, i: nat)
    requires i < |logs|
  {
    && start < logs[i].block <= n && IsUpdate(logs[i], kind)
    && forall j :: i < j < |logs| && start < logs[j].block <= n ==> !IsUpdate(logs[j], kind)
  }

  ghost predicate NoneOf(logs: seq<ConfigLog>, start: nat, n: nat, kind: nat) {
    forall i :: 0 <= i < |logs| && start < logs[i].block <= n ==> !IsUpdate(logs[i], kind)
  }

  /** The fields that updates of a kind set. */
  function Fields(config: SystemConfig, kind: nat): (Bytes, nat, nat) {
    if kind == BATCHER then (config.batchSender, 0, 0)
    else if kind == FEE_SCALARS then ([], config.l1FeeOverhead, config.l1FeeScalar)
    else if kind == GAS_LIMIT then ([], config.gasLimit, 0)
    else (config.unsafeBlockSigner, 0, 0)
  }

  /** What a log says about them. */
  function Said(log: ConfigLog, kind: nat): (Bytes, nat, nat)
    requires IsUpdate(log, kind)
  {
    if kind == FEE_SCALARS then ([], FromBigEndian(log.data[64..96]), FromBigEndian(log.data[96..128]))
    else if kind == GAS_LIMIT then ([], FromBigEndian(log.data[64..96]), 0)
    else (log.data[76..96], 0, 0)
  }

  /** An update sets the fields of its kind and no others. */
  lemma AppliesSaid(log: ConfigLog, config: SystemConfig, kind: nat)
    requires ParseUpdate(log).Some? && kind <= SIGNER
    ensures Fields(Apply(ParseUpdate(log).value, config), kind)
         == if IsUpdate(log, kind) then Said(log, kind) else Fields(config, kind)
  {
    ParsesIff(log);
    var k :| IsUpdate(log, k);
    assert k == BATCHER || k == FEE_SCALARS || k == GAS_LIMIT || k == SIGNER;
  }

  /** One more log sets the fields of a kind exactly when it is such an update and in the range. */
  lemma FieldsStep(logs: seq<ConfigLog>, initial: SystemConfig, start: nat, n: nat, kind: nat)
    requires logs != [] && kind <= SIGNER
    ensures var log := logs[|logs| - 1];
            Fields(ConfigAt(logs, initial, start, n), kind)
            == if start < log.block <= n && IsUpdate(log, kind) then Said(log, kind)
               else Fields(ConfigAt(logs[..|logs| - 1], initial, start, n), kind)
  {
    hide Fields, Said, IsUpdate, ParseUpdate, Apply;
    var log := logs[|logs| - 1];
    ParsesIff(log);
    if ParseUpdate(log).Some? {
      AppliesSaid(log, ConfigAt(logs[..|logs| - 1], initial, start, n), kind);
    }
  }

  lemma {:induction false} FieldsUntouched(logs: seq<ConfigLog>, initial: SystemConfig, start: nat, n: nat, kind: nat)
    requires kind <= SIGNER && NoneOf(logs, start, n, kind)
    ensures Fields(ConfigAt(logs, initial, start, n), kind) == Fields(initial, kind)
    decreases |logs|
  {
    if logs != [] {
      FieldsStep(logs, initial, start, n, kind);
      hide ConfigAt, Fields, IsUpdate;
      FieldsUntouched(logs[..|logs| - 1], initial, start, n, kind);
    }
  }

  lemma {:induction false} FieldsLast(logs: seq<ConfigLog>, initial: SystemConfig, start: nat, n: nat, kind: nat, i: nat)
    requires kind <= SIGNER && i < |logs| && IsLastOf(logs, start, n, kind, i)
    ensures Fields(ConfigAt(logs, initial, start, n), kind) == Said(logs[i], kind)
    decreases |logs|
  {
    hide ConfigAt, Fields, IsUpdate, Said;
    FieldsStep(logs, initial, start, n, kind);
    if i < |logs| - 1 {
      FieldsLast(logs[..|logs| - 1], initial, start, n, kind, i);
    }
  }

  lemma FieldsAt(logs: seq<ConfigLog>, initial: SystemConfig, start: nat, n: nat, kind: nat)
    requires kind <= SIGNER
    ensures NoneOf(logs, start, n, kind) ==> Fields(ConfigAt(logs, initial, start, n), kind) == Fields(initial, kind)
    ensures forall i :: 0 <= i < |logs| && IsLastOf(logs, start, n, kind, i) ==>
              Fields(ConfigAt(logs, initial, start, n), kind) == Said(logs[i], kind)
  {
    hide ConfigAt, Fields, NoneOf, Said, IsUpdate;
    if NoneOf(logs, start, n, kind) {
      FieldsUntouched(logs, initial, start, n, kind);
    }
    forall i | 0 <= i < |logs| && IsLastOf(logs, start, n, kind, i)
      ensures Fields(ConfigAt(logs, initial, start, n), kind) == Said(logs[i], kind)
    {
      FieldsLast(logs, initial, start, n, kind, i);
    }
  }

  /**
   The configuration at L1 block n, field by field: what the last update of the field's kind after
   the start block says in its words, or the initial value if there is none.
   */
  lemma ConfigByFields(logs: seq<ConfigLog>, initial: SystemConfig, start: nat, n: nat)
    ensures var config := ConfigAt(logs, initial, start, n);
            && (NoneOf(logs, start, n, BATCHER) ==> config.batchSender == initial.batchSender)
            && (NoneOf(logs, start, n, FEE_SCALARS) ==>
                  config.l1FeeOverhead == initial.l1FeeOverhead && config.l1FeeScalar == initial.l1FeeScalar)
            && (NoneOf(logs, start, n, GAS_LIMIT) ==> config.gasLimit == initial.gasLimit)
            && (NoneOf(logs, start, n, SIGNER) ==> config.unsafeBlockSigner == initial.unsafeBlockSigner)
    ensures var config := ConfigAt(logs, initial, start, n);
            forall i :: 0 <= i < |logs| ==>
              var data := logs[i].data;
              && (IsLastOf(logs, start, n, BATCHER, i) ==> config.batchSender == data[76..96])
              && (IsLastOf(logs, start, n, FEE_SCALARS, i) ==>
                    config.l1FeeOverhead == FromBigEndian(data[64..96]) && config.l1FeeScalar == FromBigEndian(data[96..128]))
              && (IsLastOf(logs, start, n, GAS_LIMIT, i) ==> config.gasLimit == FromBigEndian(data[64..96]))
              && (IsLastOf(logs, start, n, SIGNER, i) ==> config.unsafeBlockSigner == data[76..96])
  {
    hide FromBigEndian, ConfigAt, NoneOf;
    FieldsAt(logs, initial, start, n, BATCHER);
    FieldsAt(logs, initial, start, n, FEE_SCALARS);
    FieldsAt(logs, initial, start, n, GAS_LIMIT);
    FieldsAt(logs, initial, start, n, SIGNER);
  }
}
