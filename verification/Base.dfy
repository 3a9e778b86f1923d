/** Values shared by every stage of the node. */
module Base {

  datatype Option<+T> = None | Some(value: T) {
    predicate IsFailure() { None? }

    function PropagateFailure<U>(): Option<U>
      requires None?
    {
      None
    }

    function Extract(): T
      requires Some?
    {
      value
    }
  }

  datatype Result<+T, +E> = Ok(value: T) | Err(error: E)

  type Byte = bv8

  /** The byte that stands for a small number. */
  function ToByte(n: nat): Byte
    requires n < 256
  {
    n as Byte
  }

  lemma ByteRoundTrip(b: Byte)
    ensures 0 <= b as nat < 256 && ToByte(b as nat) == b
  {
  }

  lemma BinaryDigits(n: nat)
    requires n < 256
    ensures n == n % 2 + 2 * (n / 2 % 2) + 4 * (n / 4 % 2) + 8 * (n / 8 % 2)
                 + 16 * (n / 16 % 2) + 32 * (n / 32 % 2) + 64 * (n / 64 % 2) + 128 * (n / 128 % 2)
  {
    assert n / 64 == 2 * (n / 128) + n / 64 % 2;
    assert n / 32 == 2 * (n / 64) + n / 32 % 2;
    assert n / 16 == 2 * (n / 32) + n / 16 % 2;
    assert n / 8 == 2 * (n / 16) + n / 8 % 2;
    assert n / 4 == 2 * (n / 8) + n / 4 % 2;
    assert n / 2 == 2 * (n / 4) + n / 2 % 2;
  }

  lemma NatRoundTrip(n: nat)
    requires n < 256
    ensures ToByte(n) as nat == n
  {
    BinaryDigits(n);
  }

  type Bytes = seq<Byte>

  const U64_RANGE: nat := 0x1_0000_0000_0000_0000

  /** A 32-byte block hash, cut where span batches cut it: they check its first 20 bytes. */
  datatype Hash = Hash(first20: Bytes, last12: Bytes)

  /** Header fields of an L2 block. */
  datatype BlockInfo = BlockInfo(hash: Hash, number: nat, parentHash: Hash, timestamp: nat)

  /** The L1 block an L2 block takes its origin from. */
  datatype Epoch = Epoch(number: nat, hash: Hash, timestamp: nat)

  /** The parameters of the rollup that the derivation reads. */
  datatype Config = Config(
    blocktime: nat,
    seqWindowSize: nat,
    maxSeqDrift: nat,
    channelTimeout: nat,
    maxChannelSize: nat,
    deltaTime: nat,
    canyonTime: nat,
    regolithTime: nat,
    ecotoneTime: nat,
    genesisNumber: nat,
    genesisTime: nat)

  ghost predicate ValidConfig(cfg: Config) {
    && 0 < cfg.blocktime <= U64_RANGE
    && cfg.maxSeqDrift <= U64_RANGE
    && cfg.genesisTime <= U64_RANGE
  }

  /** Subtraction of unsigned 64-bit integers, which wraps around below zero. */
  function SubWrap(a: nat, b: nat): nat
    requires b <= U64_RANGE
  {
    if b <= a then a - b else a + U64_RANGE - b
  }

  /** Subtraction of unsigned integers that stops at zero. */
  function SubSaturate(a: nat, b: nat): nat {
    if b <= a then a - b else 0
  }
}
