/**
 The calldata of the first transaction of an L2 block: its encoder
 (src/derive/stages/attributes.rs), the decoder of src/common/attributes_deposited.rs, and the
 slices from which the L1 watcher recovers the configuration (src/l1/chain_watcher.rs).
 */
module L1Attributes {
  import opened Base
  import opened Types
  import opened Wire
  import opened Attributes

  const SELECTOR: Bytes := [0x01, 0x5d, 0x8e, 0xb9]

  const BEDROCK_LENGTH: nat := 4 + 32 * 8

  /** The calldata as decoded; the fields of later forks are not present in this format. */
  datatype AttributesDepositedCall = AttributesDepositedCall(
    number: nat,
    timestamp: nat,
    basefee: nat,
    hash: Hash,
    sequenceNumber: nat,
    batcherHash: Bytes,
    feeOverhead: nat,
    feeScalar: nat)

  datatype CalldataError = InvalidLength | InvalidSelector

  function HashBytes(hash: Hash): Bytes { hash.first20 + hash.last12 }

  function HashOf(bytes: Bytes): Hash
    requires |bytes| == 32
  {
    Hash(bytes[..20], bytes[20..])
  }

  /** The eight words, in the order of the calldata. */
  function Words(a: AttributesDeposited): seq<Bytes> {
    [ToBigEndian(a.number, 32), ToBigEndian(a.timestamp, 32), ToBigEndian(a.baseFee, 32), HashBytes(a.hash),
     ToBigEndian(a.sequenceNumber, 32), a.batcherHash, ToBigEndian(a.feeOverhead, 32), ToBigEndian(a.feeScalar, 32)]
  }

  function Concat(parts: seq<Bytes>): Bytes {
    if parts == [] then [] else Concat(parts[..|parts| - 1]) + parts[|parts| - 1]
  }

  function Encode(a: AttributesDeposited): Bytes { SELECTOR + Concat(Words(a)) }

  /** Every number fits its type and every word has its 32 bytes. */
  ghost predicate WellTyped(a: AttributesDeposited) {
    && a.number < U64_RANGE && a.timestamp < U64_RANGE && a.sequenceNumber < U64_RANGE
    && a.baseFee < Pow256(32) && a.feeOverhead < Pow256(32) && a.feeScalar < Pow256(32)
    && |a.hash.first20| == 20 && |a.hash.last12| == 12 && |a.batcherHash| == 32
  }

  /** A word read as a number and cut down to 64 bits, which panics if it does not fit. */
  predicate FitsU64(word: Bytes) { FromBigEndian(word) < U64_RANGE }

  /** None stands for the panic of the conversion to 64 bits. */
  function TryFromBedrock(calldata: Bytes): Option<Result<AttributesDepositedCall, CalldataError>> {
    if |calldata| != BEDROCK_LENGTH then Some(Err(InvalidLength))
    else if calldata[..4] != SELECTOR then Some(Err(InvalidSelector))
    else if !FitsU64(calldata[4..36]) || !FitsU64(calldata[36..68]) || !FitsU64(calldata[132..164]) then None
    else
      Some(Ok(AttributesDepositedCall(
        FromBigEndian(calldata[4..36]), FromBigEndian(calldata[36..68]), FromBigEndian(calldata[68..100]),
        HashOf(calldata[100..132]), FromBigEndian(calldata[132..164]), calldata[164..196],
        FromBigEndian(calldata[196..228]), FromBigEndian(calldata[228..260]))))
  }

  /** The decoder steps a cursor over the calldata. */
  method DecodeBedrock(calldata: Bytes) returns (r: Option<Result<AttributesDepositedCall, CalldataError>>)
    ensures r == TryFromBedrock(calldata)
  {
    if |calldata| != BEDROCK_LENGTH {
      return Some(Err(InvalidLength));
    }
    var cursor := 0;
    if calldata[cursor..cursor + 4] != SELECTOR {
      return Some(Err(InvalidSelector));
    }
    cursor := cursor + 4;
    if !FitsU64(calldata[cursor..cursor + 32]) {
      return None;
    }
    var number := FromBigEndian(calldata[cursor..cursor + 32]);
    cursor := cursor + 32;
    if !FitsU64(calldata[cursor..cursor + 32]) {
      return None;
    }
    var timestamp := FromBigEndian(calldata[cursor..cursor + 32]);
    cursor := cursor + 32;
    var basefee := FromBigEndian(calldata[cursor..cursor + 32]);
    cursor := cursor + 32;
    var hash := HashOf(calldata[cursor..cursor + 32]);
    cursor := cursor + 32;
    if !FitsU64(calldata[cursor..cursor + 32]) {
      return None;
    }
    var sequenceNumber := FromBigEndian(calldata[cursor..cursor + 32]);
    cursor := cursor + 32;
    var batcherHash := calldata[cursor..cursor + 32];
    cursor := cursor + 32;
    var feeOverhead := FromBigEndian(calldata[cursor..cursor + 32]);
    cursor := cursor + 32;
    var feeScalar := FromBigEndian(calldata[cursor..cursor + 32]);
    r := Some(Ok(AttributesDepositedCall(number, timestamp, basefee, hash, sequenceNumber, batcherHash, feeOverhead, feeScalar)));
  }

  /** Word k of some 32-byte words is where the decoder looks for it. */
  lemma {:induction false} WordAt(words: seq<Bytes>, k: nat)
    requires k < |words| && forall w :: w in words ==> |w| == 32
    ensures |Concat(words)| == 32 * |words| && Concat(words)[32 * k..32 * k + 32] == words[k]
    decreases |words|
  {
    var init, last := words[..|words| - 1], words[|words| - 1];
    ConcatLength(init);
    if k < |init| {
      WordAt(init, k);
      assert (Concat(init) + last)[32 * k..32 * k + 32] == Concat(init)[32 * k..32 * k + 32];
    }
  }

  lemma {:induction false} ConcatLength(words: seq<Bytes>)
    requires forall w :: w in words ==> |w| == 32
    ensures |Concat(words)| == 32 * |words|
    decreases |words|
  {
    if words != [] {
      ConcatLength(words[..|words| - 1]);
    }
  }

  lemma EncodedWord(a: AttributesDeposited, k: nat)
    requires WellTyped(a) && k < 8
    ensures |Encode(a)| == BEDROCK_LENGTH && Encode(a)[..4] == SELECTOR
    ensures Encode(a)[4 + 32 * k..36 + 32 * k] == Words(a)[k]
  {
    WordAt(Words(a), k);
    var words := Concat(Words(a));
    assert (SELECTOR + words)[4 + 32 * k..36 + 32 * k] == words[32 * k..32 * k + 32];
  }

  lemma U64Word(n: nat)
    requires n < U64_RANGE
    ensures n < Pow256(32) && FitsU64(ToBigEndian(n, 32)) && FromBigEndian(ToBigEndian(n, 32)) == n
  {
    assert Pow256(8) == U64_RANGE by {
      assert Pow256(4) == 0x1_0000_0000;
      assert Pow256(6) == 0x1_0000_0000_0000;
    }
    Pow256Grows(8, 32);
    BigEndianRoundTrip(n, 32);
  }

  lemma {:induction false} Pow256Grows(j: nat, k: nat)
    requires j <= k
    ensures Pow256(j) <= Pow256(k)
  {
    if j < k {
      Pow256Grows(j, k - 1);
    }
  }

  /** What is decoded of some attributes. */
  function CallOf(a: AttributesDeposited): AttributesDepositedCall {
    AttributesDepositedCall(a.number, a.timestamp, a.baseFee, a.hash, a.sequenceNumber, a.batcherHash, a.feeOverhead, a.feeScalar)
  }

  lemma EncodedU64s(a: AttributesDeposited)
    requires WellTyped(a)
    ensures var data := Encode(a);
            && |data| == BEDROCK_LENGTH && data[..4] == SELECTOR
            && FitsU64(data[4..36]) && FromBigEndian(data[4..36]) == a.number
            && FitsU64(data[36..68]) && FromBigEndian(data[36..68]) == a.timestamp
            && FitsU64(data[132..164]) && FromBigEndian(data[132..164]) == a.sequenceNumber
  {
    EncodedWord(a, 0);
    EncodedWord(a, 1);
    EncodedWord(a, 4);
    U64Word(a.number);
    U64Word(a.timestamp);
    U64Word(a.sequenceNumber);
  }

  lemma EncodedFees(a: AttributesDeposited)
    requires WellTyped(a)
    ensures var data := Encode(a);
            && |data| == BEDROCK_LENGTH
            && FromBigEndian(data[68..100]) == a.baseFee
            && FromBigEndian(data[196..228]) == a.feeOverhead
            && FromBigEndian(data[228..260]) == a.feeScalar
  {
    hide Encode, ToBigEndian, FromBigEndian;
    EncodedWord(a, 2);
    EncodedWord(a, 6);
    EncodedWord(a, 7);
    BigEndianRoundTrip(a.baseFee, 32);
    BigEndianRoundTrip(a.feeOverhead, 32);
    BigEndianRoundTrip(a.feeScalar, 32);
  }

  lemma EncodedHashes(a: AttributesDeposited)
    requires WellTyped(a)
    ensures |Encode(a)| == BEDROCK_LENGTH && HashOf(Encode(a)[100..132]) == a.hash && Encode(a)[164..196] == a.batcherHash
  {
    EncodedWord(a, 3);
    EncodedWord(a, 5);
    assert HashBytes(a.hash)[..20] == a.hash.first20 && HashBytes(a.hash)[20..] == a.hash.last12;
  }

  /** Decoding undoes the encoding of all attributes. */
  lemma AttributesRoundTrip(a: AttributesDeposited)
    requires WellTyped(a)
    ensures TryFromBedrock(Encode(a)) == Some(Ok(CallOf(a)))
  {
    EncodedU64s(a);
    EncodedFees(a);
    EncodedHashes(a);
  }

  /** The 32-byte words of some bytes, from byte 4 on. */
  function WordsIn(data: Bytes, count: nat): seq<Bytes>
    requires 4 + 32 * count <= |data|
  {
    seq(count, k requires 0 <= k < count => data[4 + 32 * k..36 + 32 * k])
  }

  lemma {:induction false} WordsJoin(data: Bytes, count: nat)
    requires 4 + 32 * count <= |data|
    ensures Concat(WordsIn(data, count)) == data[4..4 + 32 * count]
  {
    if count > 0 {
      WordsJoin(data, count - 1);
      assert WordsIn(data, count)[..count - 1] == WordsIn(data, count - 1);
    }
  }

  /** The attributes that calldata of the right length stands for. */
  function AttributesIn(data: Bytes): AttributesDeposited
    requires |data| == BEDROCK_LENGTH
  {
    AttributesDeposited(
      FromBigEndian(data[4..36]), FromBigEndian(data[36..68]), FromBigEndian(data[68..100]), HashOf(data[100..132]),
      FromBigEndian(data[132..164]), data[164..196], FromBigEndian(data[196..228]), FromBigEndian(data[228..260]), 0, false)
  }

  lemma WordsOfAttributes(data: Bytes)
    requires |data| == BEDROCK_LENGTH
    ensures Words(AttributesIn(data)) == WordsIn(data, 8)
  {
    hide ToBigEndian, FromBigEndian;
    NumberRoundTrip(data[4..36]);
    NumberRoundTrip(data[36..68]);
    NumberRoundTrip(data[68..100]);
    NumberRoundTrip(data[132..164]);
    NumberRoundTrip(data[196..228]);
    NumberRoundTrip(data[228..260]);
    assert HashBytes(HashOf(data[100..132])) == data[100..132];
  }

  lemma AttributesTyped(data: Bytes)
    requires |data| == BEDROCK_LENGTH && FitsU64(data[4..36]) && FitsU64(data[36..68]) && FitsU64(data[132..164])
    ensures WellTyped(AttributesIn(data))
  {
    hide ToBigEndian, FromBigEndian, Pow256;
    NumberRoundTrip(data[68..100]);
    NumberRoundTrip(data[196..228]);
    NumberRoundTrip(data[228..260]);
  }

  /**
   Calldata is decoded if and only if it is the encoding of some attributes. It is of the wrong
   length exactly when it has not 260 bytes, and else has the wrong selector exactly when it does
   not start with that of the call; what remains is a number beyond 64 bits, which panics.
   */
  lemma DecodedIffEncoded(data: Bytes)
    ensures var r := TryFromBedrock(data);
            && (r.Some? && r.value.Ok? <==> exists a :: WellTyped(a) && Encode(a) == data)
            && (r == Some(Err(InvalidLength)) <==> |data| != 260)
            && (r == Some(Err(InvalidSelector)) <==> |data| == 260 && data[..4] != [0x01, 0x5d, 0x8e, 0xb9])
  {
    var r := TryFromBedrock(data);
    if a :| WellTyped(a) && Encode(a) == data {
      AttributesRoundTrip(a);
    }
    if r.Some? && r.value.Ok? {
      hide Encode, TryFromBedrock, FitsU64, WellTyped;
      DecodedIsEncoded(data);
    }
  }

  lemma DecodedIsEncoded(data: Bytes)
    requires var r := TryFromBedrock(data); r.Some? && r.value.Ok?
    ensures exists a :: WellTyped(a) && Encode(a) == data
  {
    hide FromBigEndian, ToBigEndian, WellTyped, Words, Concat;
    var a := AttributesIn(data);
    AttributesTyped(data);
    WordsOfAttributes(data);
    WordsJoin(data, 8);
    assert data == data[..4] + data[4..260];
    assert Encode(a) == data;
  }

  /**
   The configuration that the watcher starts with after a restart, from the first transaction
   of an L2 block and the block's gas limit. None stands for the panic on short calldata.
   */
  function RecoveredConfig(input: Bytes, gasLimit: nat, unsafeBlockSigner: Bytes): Option<SystemConfig> {
    if |input| < 260 then None
    else Some(SystemConfig(input[176..196], gasLimit, FromBigEndian(input[196..228]), FromBigEndian(input[228..260]), unsafeBlockSigner))
  }

  ghost predicate ValidConfigValues(config: SystemConfig) {
    |config.batchSender| == 20 && config.l1FeeOverhead < Pow256(32) && config.l1FeeScalar < Pow256(32)
  }

  /**
   A restarted watcher recovers the configuration that the derivation of the parent block was
   given, its block signer excepted: that is taken from the static configuration.
   */
  lemma RestartRecoversConfig(cfg: Config, info: L1Info, sequenceNumber: nat, timestamp: nat, signer: Bytes)
    requires WellTyped(FromBlockInfo(cfg, info, sequenceNumber, timestamp)) && ValidConfigValues(info.systemConfig)
    ensures RecoveredConfig(Encode(FromBlockInfo(cfg, info, sequenceNumber, timestamp)), info.systemConfig.gasLimit, signer)
         == Some(info.systemConfig.(unsafeBlockSigner := signer))
  {
    var a := FromBlockInfo(cfg, info, sequenceNumber, timestamp);
    var input := Encode(a);
    EncodedFees(a);
    EncodedHashes(a);
    assert input[176..196] == input[164..196][12..];
    assert BatcherHash(info.systemConfig)[12..] == info.systemConfig.batchSender;
  }
}
