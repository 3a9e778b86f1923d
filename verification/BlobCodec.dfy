/**
 Blob decoding (src/l1/blob_encoding.rs), against the encoder of the section
 "Blob Encoding" of the OP Stack Ecotone derivation specification.

 A blob is 4096 field elements of 32 bytes. Four consecutive field elements make a round
 of 128 bytes that carries 127 bytes: 31 whole bytes per element, and three more bytes
 spread over the low six bits of the four leading bytes.
 */
module BlobCodec {
  import opened Base

  const BLOB_SIZE: nat := 131072
  const ROUNDS: nat := 1024
  const MAX_BLOB_DATA_SIZE: nat := (4 * 31 + 3) * ROUNDS - 4
  const VERSION_OFFSET: nat := 1
  const ENCODING_VERSION: Byte := 0

  type Blob = b: Bytes | |b| == BLOB_SIZE witness seq(BLOB_SIZE, _ => 0)

  datatype BlobError =
    | InvalidVersion
    | InvalidLength
    | InvalidFieldElement
    | ExtraneousOutput
    | ExtraneousInput

  // ---------------------------------------------------------------- six-bit repacking

  function ByteX(e0: Byte, e1: Byte): Byte { (e0 & 0x3F) | ((e1 & 0x30) << 2) }

  function ByteY(e1: Byte, e3: Byte): Byte { (e1 & 0x0F) | ((e3 & 0x0F) << 4) }

  function ByteZ(e2: Byte, e3: Byte): Byte { (e2 & 0x3F) | ((e3 & 0x30) << 2) }

  /** The leading byte of field element k of a round that carries x, y and z. */
  function Chunk(k: nat, x: Byte, y: Byte, z: Byte): Byte
    requires k < 4
  {
    match k
    case 0 => x & 0x3F
    case 1 => (y & 0x0F) | ((x & 0xC0) >> 2)
    case 2 => z & 0x3F
    case 3 => ((z & 0xC0) >> 2) | ((y & 0xF0) >> 4)
  }

  predicate TopBitsClear(b: Byte) { b & 0xC0 == 0 }

  /** 24 bits survive being spread over four six-bit chunks, and the chunks are valid. */
  lemma UnpackPack(x: Byte, y: Byte, z: Byte)
    ensures ByteX(Chunk(0, x, y, z), Chunk(1, x, y, z)) == x
    ensures ByteY(Chunk(1, x, y, z), Chunk(3, x, y, z)) == y
    ensures ByteZ(Chunk(2, x, y, z), Chunk(3, x, y, z)) == z
    ensures forall k :: 0 <= k < 4 ==> TopBitsClear(Chunk(k, x, y, z))
  {
    forall k | 0 <= k < 4 ensures TopBitsClear(Chunk(k, x, y, z)) {
      if k == 0 {} else if k == 1 {} else if k == 2 {} else {}
    }
  }

  /** Four six-bit chunks survive being gathered into three bytes. */
  lemma PackUnpack(e0: Byte, e1: Byte, e2: Byte, e3: Byte)
    requires TopBitsClear(e1) && TopBitsClear(e2) && TopBitsClear(e3)
    ensures var x, y, z := ByteX(e0, e1), ByteY(e1, e3), ByteZ(e2, e3);
            && Chunk(0, x, y, z) == e0 & 0x3F && Chunk(1, x, y, z) == e1
            && Chunk(2, x, y, z) == e2 && Chunk(3, x, y, z) == e3
  {
  }

  // ------------------------------------------------------------------- specification

  function DeclaredLength(blob: Blob): nat {
    blob[2] as nat * 65536 + blob[3] as nat * 256 + blob[4] as nat
  }

  /** How many rounds a payload of the given length takes; at least one. */
  function RoundsFor(len: nat): (r: nat)
    ensures r >= 1 && 123 + 127 * (r - 1) >= len
    ensures r > 1 ==> 123 + 127 * (r - 2) < len
    ensures len <= MAX_BLOB_DATA_SIZE ==> r <= ROUNDS
  {
    if len <= 123 then 1 else 1 + (len - 123 + 126) / 127
  }

  /** The 130048 bytes that the rounds of a blob carry: 127 a round. */
  type Carried = s: Bytes | |s| == 127 * ROUNDS witness seq(127 * ROUNDS, _ => 0)

  function CarriedByte(blob: Blob, q: nat): Byte
    requires q < 127 * ROUNDS
  {
    var r, k, j := q / 127, q % 127 / 32, q % 127 % 32;
    if j < 31 then blob[128 * r + 32 * k + 1 + j]
    else if k == 0 then ByteX(blob[128 * r], blob[128 * r + 32])
    else if k == 1 then ByteY(blob[128 * r + 32], blob[128 * r + 96])
    else ByteZ(blob[128 * r + 64], blob[128 * r + 96])
  }

  function Unpack(blob: Blob): Carried {
    seq(127 * ROUNDS, q requires 0 <= q < 127 * ROUNDS => CarriedByte(blob, q))
  }

  /** The leading byte of field element i. */
  function FieldByte(blob: Blob, i: nat): Byte
    requires i < 4 * ROUNDS
  {
    blob[32 * i]
  }

  ghost predicate FieldsValid(blob: Blob, from: nat, to: nat)
    requires to <= 4 * ROUNDS
  {
    forall i :: from <= i < to ==> TopBitsClear(FieldByte(blob, i))
  }

  /** All the leading bytes of the first rounds, except the very first, which is not checked. */
  ghost predicate FieldElementsValid(blob: Blob, rounds: nat)
    requires rounds <= ROUNDS
  {
    FieldsValid(blob, 1, 4 * rounds)
  }

  /** Bytes from..to are all zero. */
  ghost predicate Zero(s: Bytes, from: nat, to: nat)
    requires to <= |s|
  {
    forall i :: from <= i < to ==> s[i] == 0
  }

  /** What decoding a blob gives: the payload, or the first check that fails. */
  ghost function Decoded(blob: Blob): Result<Bytes, BlobError> {
    var len := DeclaredLength(blob);
    if blob[VERSION_OFFSET] != ENCODING_VERSION then Err(InvalidVersion)
    else if len > MAX_BLOB_DATA_SIZE then Err(InvalidLength)
    else
      var rounds := RoundsFor(len);
      if !FieldElementsValid(blob, rounds) then Err(InvalidFieldElement)
      else if !Zero(Unpack(blob), 4 + len, 127 * rounds) then Err(ExtraneousOutput)
      else if !Zero(blob, 128 * rounds, BLOB_SIZE) then Err(ExtraneousInput)
      else Ok(Unpack(blob)[4..4 + len])
  }

  // ------------------------------------------------------------------------- encoder

  function PackedByte(s: Carried, i: nat): Byte
    requires i < BLOB_SIZE
  {
    var r, k, j := i / 128, i % 128 / 32, i % 32;
    if j > 0 then s[127 * r + 32 * k + j - 1]
    else Chunk(k, s[127 * r + 31], s[127 * r + 63], s[127 * r + 95])
  }

  function Pack(s: Carried): Blob {
    seq(BLOB_SIZE, i requires 0 <= i < BLOB_SIZE => PackedByte(s, i))
  }

  function Header(len: nat): Bytes
    requires len <= MAX_BLOB_DATA_SIZE
  {
    [ENCODING_VERSION, ToByte(len / 65536), ToByte(len / 256 % 256), ToByte(len % 256)]
  }

  /** A header, then the data, then zeros. */
  function Padded(header: Bytes, data: Bytes): Carried
    requires |header| == 4 && |data| <= MAX_BLOB_DATA_SIZE
  {
    header + data + seq(MAX_BLOB_DATA_SIZE - |data|, _ => 0)
  }

  /** The blob that the specification's encoder makes of some data. */
  function Encode(data: Bytes): Blob
    requires |data| <= MAX_BLOB_DATA_SIZE
  {
    Pack(Padded(Header(|data|), data))
  }

  /** Decoding ignores the top two bits of the very first byte of a blob. */
  function MaskFirst(blob: Blob): Blob { blob[0 := blob[0] & 0x3F] }

  // --------------------------------------------------- packing and unpacking are inverse

  /** Byte 0 of field element k of round r, in a packed blob. */
  lemma LeadingByte(s: Carried, r: nat, k: nat)
    requires r < ROUNDS && k < 4
    ensures Pack(s)[128 * r + 32 * k] == Chunk(k, s[127 * r + 31], s[127 * r + 63], s[127 * r + 95])
  {
    var i := 128 * r + 32 * k;
    assert i / 128 == r && i % 128 / 32 == k && i % 32 == 0;
  }

  /** Byte j + 1 of field element k of round r, in a packed blob. */
  lemma BodyByte(s: Carried, r: nat, k: nat, j: nat)
    requires r < ROUNDS && k < 4 && j < 31
    ensures Pack(s)[128 * r + 32 * k + 1 + j] == s[127 * r + 32 * k + j]
  {
    var i := 128 * r + 32 * k + 1 + j;
    assert i / 128 == r && i % 128 / 32 == k && i % 32 == j + 1;
  }

  lemma GatheredOfPack(s: Carried, r: nat)
    requires r < ROUNDS
    ensures var b := Pack(s);
            && ByteX(b[128 * r], b[128 * r + 32]) == s[127 * r + 31]
            && ByteY(b[128 * r + 32], b[128 * r + 96]) == s[127 * r + 63]
            && ByteZ(b[128 * r + 64], b[128 * r + 96]) == s[127 * r + 95]
  {
    LeadingByte(s, r, 0);
    LeadingByte(s, r, 1);
    LeadingByte(s, r, 2);
    LeadingByte(s, r, 3);
    UnpackPack(s[127 * r + 31], s[127 * r + 63], s[127 * r + 95]);
  }

  lemma UnpackOfPack(s: Carried)
    ensures Unpack(Pack(s)) == s
  {
    forall q | 0 <= q < 127 * ROUNDS ensures Unpack(Pack(s))[q] == s[q] {
      UnpackOfPackAt(s, q / 127, q % 127 / 32, q % 127 % 32);
    }
  }

  lemma UnpackOfPackAt(s: Carried, r: nat, k: nat, j: nat)
    requires r < ROUNDS && k < 4 && j < 32 && 32 * k + j < 127
    ensures Unpack(Pack(s))[127 * r + 32 * k + j] == s[127 * r + 32 * k + j]
  {
    if j < 31 {
      BodyByte(s, r, k, j);
      UnpackBody(Pack(s), r, k, j);
    } else {
      GatheredRoundTrip(s, r);
      if k == 0 {
        assert 127 * r + 32 * k + j == 127 * r + 31;
      } else if k == 1 {
        assert 127 * r + 32 * k + j == 127 * r + 63;
      } else {
        assert k == 2 && 127 * r + 32 * k + j == 127 * r + 95;
      }
    }
  }

  lemma GatheredRoundTrip(s: Carried, r: nat)
    requires r < ROUNDS
    ensures Unpack(Pack(s))[127 * r + 31] == s[127 * r + 31]
    ensures Unpack(Pack(s))[127 * r + 63] == s[127 * r + 63]
    ensures Unpack(Pack(s))[127 * r + 95] == s[127 * r + 95]
  {
    GatheredBytes(Pack(s), r);
    GatheredOfPack(s, r);
  }

  lemma UnpackBody(blob: Blob, r: nat, k: nat, j: nat)
    requires r < ROUNDS && k < 4 && j < 31
    ensures Unpack(blob)[127 * r + 32 * k + j] == blob[128 * r + 32 * k + 1 + j]
  {
    var q := 127 * r + 32 * k + j;
    assert q / 127 == r && q % 127 / 32 == k && q % 127 % 32 == j;
  }

  /** The three repacked bytes of round r. */
  lemma GatheredBytes(blob: Blob, r: nat)
    requires r < ROUNDS
    ensures var s := Unpack(blob);
            && s[127 * r + 31] == ByteX(blob[128 * r], blob[128 * r + 32])
            && s[127 * r + 63] == ByteY(blob[128 * r + 32], blob[128 * r + 96])
            && s[127 * r + 95] == ByteZ(blob[128 * r + 64], blob[128 * r + 96])
  {
  }

  lemma PackOfUnpack(blob: Blob)
    requires FieldElementsValid(blob, ROUNDS)
    ensures Pack(Unpack(blob)) == MaskFirst(blob)
  {
    var packed, masked := Pack(Unpack(blob)), MaskFirst(blob);
    forall i | 0 <= i < BLOB_SIZE ensures packed[i] == masked[i] {
      Position(i);
      PackOfUnpackAt(blob, i / 128, i % 128 / 32, i % 32);
    }
  }

  /** Round, field element and offset of a byte of a blob. */
  lemma Position(i: nat)
    requires i < BLOB_SIZE
    ensures i / 128 < ROUNDS && i % 128 / 32 < 4 && i == 128 * (i / 128) + 32 * (i % 128 / 32) + i % 32
  {
    assert i == 128 * (i / 128) + i % 128;
    assert i % 128 == 32 * (i % 128 / 32) + i % 128 % 32;
    assert i % 128 % 32 == i % 32;
  }

  lemma PackOfUnpackAt(blob: Blob, r: nat, k: nat, j: nat)
    requires FieldElementsValid(blob, ROUNDS) && r < ROUNDS && k < 4 && j < 32
    ensures Pack(Unpack(blob))[128 * r + 32 * k + j] == MaskFirst(blob)[128 * r + 32 * k + j]
  {
    if j > 0 {
      BodyByte(Unpack(blob), r, k, j - 1);
      UnpackBody(blob, r, k, j - 1);
    } else {
      LeadingByte(Unpack(blob), r, k);
      GatheredBytes(blob, r);
      Regathered(blob, r, k);
    }
  }

  /** Spreading the gathered bytes of round r gives back its leading bytes. */
  lemma Regathered(blob: Blob, r: nat, k: nat)
    requires FieldElementsValid(blob, ROUNDS) && r < ROUNDS && k < 4
    ensures Chunk(k, ByteX(blob[128 * r], blob[128 * r + 32]), ByteY(blob[128 * r + 32], blob[128 * r + 96]),
                  ByteZ(blob[128 * r + 64], blob[128 * r + 96])) == MaskFirst(blob)[128 * r + 32 * k]
  {
    LeadingValid(blob, r, 1);
    LeadingValid(blob, r, 2);
    LeadingValid(blob, r, 3);
    if r > 0 {
      LeadingValid(blob, r, 0);
    }
    PackUnpack(blob[128 * r], blob[128 * r + 32], blob[128 * r + 64], blob[128 * r + 96]);
    ClearMask(blob[128 * r]);
  }

  lemma LeadingValid(blob: Blob, r: nat, k: nat)
    requires FieldElementsValid(blob, ROUNDS) && r < ROUNDS && k < 4 && 0 < r + k
    ensures TopBitsClear(blob[128 * r + 32 * k])
  {
    assert FieldByte(blob, 4 * r + k) == blob[128 * r + 32 * k];
  }

  lemma ClearMask(b: Byte)
    ensures TopBitsClear(b) ==> b & 0x3F == b
    ensures (b & 0x3F) & 0x3F == b & 0x3F
    ensures b == (b & 0xC0) | (b & 0x3F)
  {
  }

  lemma UnpackMasked(blob: Blob)
    ensures Unpack(MaskFirst(blob)) == Unpack(blob)
  {
    ClearMask(blob[0]);
    forall q | 0 <= q < 127 * ROUNDS ensures CarriedByte(MaskFirst(blob), q) == CarriedByte(blob, q) {
    }
  }

  // ---------------------------------------------------------------------- the header

  lemma LengthDigits(n: nat, a: nat, b: nat, c: nat)
    requires a < 256 && b < 256 && c < 256
    ensures n == a * 65536 + b * 256 + c <==>
            n < 0x100_0000 && n / 65536 == a && n / 256 % 256 == b && n % 256 == c
  {
    assert n == 256 * (n / 256) + n % 256;
    assert n / 256 == 256 * (n / 256 / 256) + n / 256 % 256;
    assert n / 256 / 256 == n / 65536;
    if n == a * 65536 + b * 256 + c {
      assert n / 256 == a * 256 + b;
    }
  }

  /** The four header bytes and the version and declared length determine each other. */
  lemma HeaderBytes(blob: Blob, len: nat)
    requires len <= MAX_BLOB_DATA_SIZE
    ensures blob[VERSION_OFFSET] == ENCODING_VERSION && DeclaredLength(blob) == len <==> blob[1..5] == Header(len)
  {
    var a, b, c := blob[2], blob[3], blob[4];
    ByteRoundTrip(a);
    ByteRoundTrip(b);
    ByteRoundTrip(c);
    NatRoundTrip(len / 65536);
    NatRoundTrip(len / 256 % 256);
    NatRoundTrip(len % 256);
    LengthDigits(len, a as nat, b as nat, c as nat);
    assert blob[1..5] == [blob[1], a, b, c];
  }

  // ------------------------------------------------------------------------ theorems

  lemma UnpackStart(blob: Blob)
    ensures Unpack(blob)[..4] == blob[1..5]
  {
    forall q | 0 <= q < 4 ensures Unpack(blob)[q] == blob[1 + q] {
      assert q / 127 == 0 && q % 127 / 32 == 0 && q % 127 % 32 == q;
    }
  }

  lemma ZeroRounds(blob: Blob, rounds: nat)
    requires 1 <= rounds <= ROUNDS
    requires FieldElementsValid(blob, rounds) && Zero(blob, 128 * rounds, BLOB_SIZE)
    ensures FieldElementsValid(blob, ROUNDS) && Zero(Unpack(blob), 127 * rounds, 127 * ROUNDS)
  {
    assert TopBitsClear(0);
    assert ByteX(0, 0) == ByteY(0, 0) == ByteZ(0, 0) == 0;
    forall q | 127 * rounds <= q < 127 * ROUNDS ensures CarriedByte(blob, q) == 0 {
      assert q / 127 >= rounds;
    }
  }

  lemma PackOfZero(s: Carried, rounds: nat)
    requires Zero(s, 127 * rounds, 127 * ROUNDS)
    ensures Zero(Pack(s), 128 * rounds, BLOB_SIZE)
  {
    forall i | 128 * rounds <= i < BLOB_SIZE ensures PackedByte(s, i) == 0 {
      var r := i / 128;
      assert r >= rounds;
      ZeroChunk(i % 128 / 32);
    }
  }

  lemma ZeroChunk(k: nat)
    requires k < 4
    ensures Chunk(k, 0, 0, 0) == 0
  {
  }

  /** Every accepted blob is, up to the two ignored bits, the encoding of its payload. */
  lemma AcceptedIsEncoding(blob: Blob, data: Bytes)
    requires Decoded(blob) == Ok(data)
    ensures |data| <= MAX_BLOB_DATA_SIZE && MaskFirst(blob) == Encode(data)
  {
    AcceptedCarries(blob, data);
    PackOfUnpack(blob);
  }

  /** An accepted blob carries the padded header and payload, and nothing else. */
  lemma AcceptedCarries(blob: Blob, data: Bytes)
    requires Decoded(blob) == Ok(data)
    ensures |data| <= MAX_BLOB_DATA_SIZE && FieldElementsValid(blob, ROUNDS)
    ensures Unpack(blob) == Padded(Header(|data|), data)
  {
    AcceptedZeros(blob, data);
    UnpackStart(blob);
    HeaderBytes(blob, |data|);
    PaddedParts(Unpack(blob), Header(|data|), data);
  }

  /** The checks that an accepted blob has passed, on what it carries. */
  lemma AcceptedZeros(blob: Blob, data: Bytes)
    requires Decoded(blob) == Ok(data)
    ensures |data| == DeclaredLength(blob) <= MAX_BLOB_DATA_SIZE && blob[VERSION_OFFSET] == ENCODING_VERSION
    ensures FieldElementsValid(blob, ROUNDS)
    ensures Unpack(blob)[4..4 + |data|] == data && Zero(Unpack(blob), 4 + |data|, 127 * ROUNDS)
  {
    var rounds := RoundsFor(DeclaredLength(blob));
    ZeroRounds(blob, rounds);
    ZeroJoin(Unpack(blob), 4 + DeclaredLength(blob), 127 * rounds, 127 * ROUNDS);
  }

  lemma ZeroJoin(s: Bytes, a: nat, b: nat, c: nat)
    requires c <= |s| && b <= c && Zero(s, a, b) && Zero(s, b, c)
    ensures Zero(s, a, c)
  {
  }

  lemma PaddedParts(s: Carried, header: Bytes, data: Bytes)
    requires |header| == 4 && |data| <= MAX_BLOB_DATA_SIZE
    ensures s == Padded(header, data) <==>
            s[..4] == header && s[4..4 + |data|] == data && Zero(s, 4 + |data|, |s|)
  {
    var p := Padded(header, data);
    assert p[..4] == header && p[4..4 + |data|] == data && Zero(p, 4 + |data|, |p|);
    if s[..4] == header && s[4..4 + |data|] == data && Zero(s, 4 + |data|, |s|) {
      forall i | 0 <= i < |s| ensures s[i] == p[i] {
        if i < 4 {
          assert s[i] == s[..4][i];
        } else if i < 4 + |data| {
          assert s[i] == s[4..4 + |data|][i - 4];
        }
      }
    }
  }

  /** The encoding of some data is accepted and decodes to it, whatever the ignored bits. */
  lemma EncodingIsAccepted(blob: Blob, data: Bytes)
    requires |data| <= MAX_BLOB_DATA_SIZE && MaskFirst(blob) == Encode(data)
    ensures Decoded(blob) == Ok(data)
  {
    var s := Padded(Header(|data|), data);
    UnpackMasked(blob);
    UnpackOfPack(s);
    PaddedParts(s, Header(|data|), data);
    UnpackStart(blob);
    HeaderBytes(blob, |data|);
    PackedFieldsValid(s);
    PackOfZero(s, RoundsFor(|data|));
    MaskKeeps(blob, RoundsFor(|data|));
  }

  /** Masking the first byte changes neither check on the blob's bytes. */
  lemma MaskKeeps(blob: Blob, rounds: nat)
    requires 1 <= rounds <= ROUNDS
    ensures FieldElementsValid(MaskFirst(blob), rounds) <==> FieldElementsValid(blob, rounds)
    ensures Zero(MaskFirst(blob), 128 * rounds, BLOB_SIZE) <==> Zero(blob, 128 * rounds, BLOB_SIZE)
  {
    assert forall i :: 1 <= i < 4 * ROUNDS ==> FieldByte(MaskFirst(blob), i) == FieldByte(blob, i);
    assert forall i :: 1 <= i < BLOB_SIZE ==> MaskFirst(blob)[i] == blob[i];
  }

  lemma PackedFieldsValid(s: Carried)
    ensures FieldElementsValid(Pack(s), ROUNDS)
  {
    forall i | 1 <= i < 4 * ROUNDS ensures TopBitsClear(FieldByte(Pack(s), i)) {
      var r, k := i / 4, i % 4;
      LeadingByte(s, r, k);
      UnpackPack(s[127 * r + 31], s[127 * r + 63], s[127 * r + 95]);
    }
  }

  /**
   Decoding is the exact inverse of encoding: a blob is accepted with payload data exactly
   when it is the encoding of data with any value in the top two bits of its first byte.
   */
  lemma DecodedIffEncoded(blob: Blob, data: Bytes)
    ensures Decoded(blob) == Ok(data) <==> |data| <= MAX_BLOB_DATA_SIZE && MaskFirst(blob) == Encode(data)
  {
    if Decoded(blob) == Ok(data) {
      AcceptedIsEncoding(blob, data);
    }
    if |data| <= MAX_BLOB_DATA_SIZE && MaskFirst(blob) == Encode(data) {
      EncodingIsAccepted(blob, data);
    }
  }

  lemma RoundTrip(data: Bytes)
    requires |data| <= MAX_BLOB_DATA_SIZE
    ensures Decoded(Encode(data)) == Ok(data)
  {
    var s := Padded(Header(|data|), data);
    LeadingByte(s, 0, 0);
    ClearMask(s[31]);
    assert MaskFirst(Encode(data)) == Encode(data);
    DecodedIffEncoded(Encode(data), data);
  }

  /**
   Two blobs that decode to the same data are equal byte for byte exactly when the ignored
   bits agree; in particular when both have the top two bits of the first byte clear.
   */
  lemma Canonical(blob0: Blob, blob1: Blob)
    requires Decoded(blob0).Ok? && Decoded(blob0) == Decoded(blob1)
    ensures blob0 == blob1 <==> blob0[0] & 0xC0 == blob1[0] & 0xC0
  {
    AcceptedIsEncoding(blob0, Decoded(blob0).value);
    AcceptedIsEncoding(blob1, Decoded(blob0).value);
    assert MaskFirst(blob0)[0] == MaskFirst(blob1)[0];
    if blob0[0] & 0xC0 == blob1[0] & 0xC0 {
      ClearMask(blob0[0]);
      ClearMask(blob1[0]);
      forall i | 0 <= i < BLOB_SIZE ensures blob0[i] == blob1[i] {
        assert MaskFirst(blob0)[i] == MaskFirst(blob1)[i];
      }
    }
  }

  // ----------------------------------------------------------------- decoding in place

  /**
   The output buffer once n rounds and k field elements of the next round are read: whole
   bytes are in place, and the gaps of the unfinished round are still zero.
   */
  ghost predicate Filled(output: Bytes, blob: Blob, n: nat, k: nat) {
    && |output| == MAX_BLOB_DATA_SIZE
    && forall p {:trigger output[p]} :: 0 <= p < MAX_BLOB_DATA_SIZE ==>
         output[p] == if InPlace(p + 4, n, k) then Unpack(blob)[p + 4] else 0
  }

  /** Carried byte q is written by n rounds and k field elements. */
  predicate InPlace(q: nat, n: nat, k: nat) {
    q < 127 * n || (q < 127 * n + 32 * k && (q - 127 * n) % 32 != 31)
  }

  /** The cursors after n rounds and k field elements: 123 and 128 after the first round. */
  function OutputPos(n: nat, k: nat): int { 127 * n + 32 * k - 4 }

  function InputPos(n: nat, k: nat): nat { 128 * n + 32 * k }

  method DecodeFieldElement(outputPos: nat, inputPos: nat, blob: Blob, output: array<Byte>, ghost n: nat, ghost k: nat)
    returns (r: Result<Byte, BlobError>, outputPos': nat, inputPos': nat)
    requires n < ROUNDS && k < 4 && outputPos == OutputPos(n, k) && inputPos == InputPos(n, k)
    requires Filled(output[..], blob, n, k)
    modifies output
    ensures r == if TopBitsClear(blob[inputPos]) then Ok(blob[inputPos]) else Err(InvalidFieldElement)
    ensures r.Ok? ==> Filled(output[..], blob, n, k + 1)
    ensures r.Ok? ==> outputPos' == outputPos + 32 && inputPos' == inputPos + 32
  {
    var result := blob[inputPos];
    if !TopBitsClear(result) {
      return Err(InvalidFieldElement), outputPos, inputPos;
    }
    forall p | outputPos <= p < outputPos + 31 {
      output[p] := blob[inputPos + 1 + (p - outputPos)];
    }
    forall p | outputPos <= p < outputPos + 31 ensures output[..][p] == Unpack(blob)[p + 4] {
      UnpackBody(blob, n, k, p - outputPos);
    }
    FieldFills(old(output[..]), output[..], blob, n, k);
    return Ok(result), outputPos + 32, inputPos + 32;
  }

  lemma FieldFills(before: Bytes, after: Bytes, blob: Blob, n: nat, k: nat)
    requires n < ROUNDS && k < 4 && OutputPos(n, k) >= 0
    requires Filled(before, blob, n, k) && |after| == |before|
    requires forall p :: 0 <= p < |after| && !(OutputPos(n, k) <= p < OutputPos(n, k) + 31) ==> after[p] == before[p]
    requires forall p :: OutputPos(n, k) <= p < OutputPos(n, k) + 31 ==> after[p] == Unpack(blob)[p + 4]
    ensures Filled(after, blob, n, k + 1)
  {
    forall p | 0 <= p < MAX_BLOB_DATA_SIZE
      ensures after[p] == if InPlace(p + 4, n, k + 1) then Unpack(blob)[p + 4] else 0
    {
      if OutputPos(n, k) <= p < OutputPos(n, k) + 31 {
        assert (p + 4 - 127 * n) % 32 == p - OutputPos(n, k);
      } else {
        assert after[p] == before[p];
        assert InPlace(p + 4, n, k + 1) == InPlace(p + 4, n, k);
      }
    }
  }

  method ReassembleBytes(outputPos: nat, encoded: array<Byte>, output: array<Byte>, ghost blob: Blob, ghost n: nat)
    returns (outputPos': nat)
    requires n < ROUNDS && outputPos == OutputPos(n, 4) && encoded != output && encoded.Length == 4
    requires encoded[..] == [blob[128 * n], blob[128 * n + 32], blob[128 * n + 64], blob[128 * n + 96]]
    requires Filled(output[..], blob, n, 4)
    modifies output
    ensures Filled(output[..], blob, n + 1, 0)
    ensures outputPos' == OutputPos(n + 1, 0)
  {
    outputPos' := outputPos - 1;
    assert encoded[0] == encoded[..][0] && encoded[1] == encoded[..][1];
    assert encoded[2] == encoded[..][2] && encoded[3] == encoded[..][3];
    var x := ByteX(encoded[0], encoded[1]);
    var y := ByteY(encoded[1], encoded[3]);
    var z := ByteZ(encoded[2], encoded[3]);
    output[outputPos' - 32] := z;
    output[outputPos' - 32 * 2] := y;
    output[outputPos' - 32 * 3] := x;
    GatheredBytes(blob, n);
    RoundFills(old(output[..]), output[..], blob, n);
  }

  lemma RoundFills(before: Bytes, after: Bytes, blob: Blob, n: nat)
    requires n < ROUNDS && Filled(before, blob, n, 4) && |after| == |before|
    requires forall p :: 0 <= p < |after| && p + 4 != 127 * n + 31 && p + 4 != 127 * n + 63 && p + 4 != 127 * n + 95
               ==> after[p] == before[p]
    requires after[127 * n + 27] == Unpack(blob)[127 * n + 31]
    requires after[127 * n + 59] == Unpack(blob)[127 * n + 63]
    requires after[127 * n + 91] == Unpack(blob)[127 * n + 95]
    ensures Filled(after, blob, n + 1, 0)
  {
    forall p | 0 <= p < MAX_BLOB_DATA_SIZE
      ensures after[p] == if InPlace(p + 4, n + 1, 0) then Unpack(blob)[p + 4] else 0
    {
      if p + 4 == 127 * n + 31 || p + 4 == 127 * n + 63 || p + 4 == 127 * n + 95 {
      } else {
        assert after[p] == before[p];
        assert InPlace(p + 4, n + 1, 0) == InPlace(p + 4, n, 4);
      }
    }
  }

  /** Reads field elements first..4 of round n into encoded and gathers the round. */
  method DecodeRound(outputPos: nat, inputPos: nat, blob: Blob, encoded: array<Byte>, output: array<Byte>, first: nat, ghost n: nat)
    returns (ok: bool, outputPos': nat, inputPos': nat)
    requires n < ROUNDS && first == (if n == 0 then 1 else 0) && encoded != output && encoded.Length == 4
    requires outputPos == OutputPos(n, first) && inputPos == InputPos(n, first)
    requires Filled(output[..], blob, n, first)
    requires first == 1 ==> encoded[0] == blob[0]
    modifies output, encoded
    ensures ok <==> FieldsValid(blob, 4 * n + first, 4 * n + 4)
    ensures ok ==> Filled(output[..], blob, n + 1, 0)
    ensures ok ==> outputPos' == OutputPos(n + 1, 0) && inputPos' == InputPos(n + 1, 0)
  {
    outputPos', inputPos' := outputPos, inputPos;
    forall i | 0 <= i < first ensures encoded[i] == FieldByte(blob, 4 * n + i) {
      assert i == 0 && n == 0;
    }
    for k := first to 4
      invariant outputPos' == OutputPos(n, k) && inputPos' == InputPos(n, k)
      invariant Filled(output[..], blob, n, k)
      invariant forall i :: 0 <= i < k ==> encoded[i] == FieldByte(blob, 4 * n + i)
      invariant FieldsValid(blob, 4 * n + first, 4 * n + k)
    {
      var byte;
      assert FieldByte(blob, 4 * n + k) == blob[inputPos'];
      byte, outputPos', inputPos' := DecodeFieldElement(outputPos', inputPos', blob, output, n, k);
      if byte.Err? {
        return false, outputPos', inputPos';
      }
      encoded[k] := byte.value;
    }
    assert encoded[..] == [encoded[0], encoded[1], encoded[2], encoded[3]];
    outputPos' := ReassembleBytes(outputPos', encoded, output, blob, n);
    ok := true;
  }

  /** Reads as many rounds as the declared length takes. */
  method DecodeRounds(blob: Blob, outputLen: nat, output: array<Byte>) returns (ok: bool, inputPos: nat)
    requires outputLen <= MAX_BLOB_DATA_SIZE && Filled(output[..], blob, 0, 1)
    modifies output
    ensures ok <==> FieldElementsValid(blob, RoundsFor(outputLen))
    ensures ok ==> Filled(output[..], blob, RoundsFor(outputLen), 0) && inputPos == 128 * RoundsFor(outputLen)
  {
    var outputPos := 28;
    inputPos := 32;
    var encoded := new Byte[4](_ => 0);
    encoded[0] := blob[0];
    ok, outputPos, inputPos := DecodeRound(outputPos, inputPos, blob, encoded, output, 1, 0);
    if !ok {
      return;
    }
    ghost var n := 1;
    for i := 1 to ROUNDS
      invariant n <= RoundsFor(outputLen) && n <= i
      invariant outputPos == OutputPos(n, 0) && inputPos == InputPos(n, 0)
      invariant Filled(output[..], blob, n, 0) && FieldElementsValid(blob, n)
      invariant n == i || outputPos >= outputLen
    {
      if outputPos >= outputLen {
        break;
      }
      ok, outputPos, inputPos := DecodeRound(outputPos, inputPos, blob, encoded, output, 0, n);
      if !ok {
        return;
      }
      n := n + 1;
    }
    ok := true;
  }

  method AllZero(s: Bytes, from: nat) returns (ok: bool)
    requires from <= |s|
    ensures ok <==> Zero(s, from, |s|)
  {
    for i := from to |s|
      invariant Zero(s, from, i)
    {
      if s[i] != 0 {
        return false;
      }
    }
    return true;
  }

  method DecodeBlobData(blob: Blob) returns (r: Result<Bytes, BlobError>)
    ensures r == Decoded(blob)
  {
    var output := new Byte[MAX_BLOB_DATA_SIZE](_ => 0);
    if blob[VERSION_OFFSET] != ENCODING_VERSION {
      return Err(InvalidVersion);
    }
    var outputLen := DeclaredLength(blob);
    if outputLen > MAX_BLOB_DATA_SIZE {
      return Err(InvalidLength);
    }
    forall j | 0 <= j < 27 {
      output[j] := blob[5 + j];
    }
    HeaderFills(output[..], blob);
    var ok, inputPos := DecodeRounds(blob, outputLen, output);
    if !ok {
      return Err(InvalidFieldElement);
    }
    TailAgrees(output[..], blob, outputLen, RoundsFor(outputLen));
    ok := AllZero(output[..], outputLen);
    if !ok {
      return Err(ExtraneousOutput);
    }
    ok := AllZero(blob, inputPos);
    if !ok {
      return Err(ExtraneousInput);
    }
    return Ok(output[..outputLen]);
  }

  lemma HeaderFills(output: Bytes, blob: Blob)
    requires |output| == MAX_BLOB_DATA_SIZE
    requires forall p :: 0 <= p < MAX_BLOB_DATA_SIZE ==> output[p] == if p < 27 then blob[5 + p] else 0
    ensures Filled(output, blob, 0, 1)
  {
    forall p | 0 <= p < MAX_BLOB_DATA_SIZE
      ensures output[p] == if InPlace(p + 4, 0, 1) then Unpack(blob)[p + 4] else 0
    {
      if p < 27 {
        UnpackBody(blob, 0, 0, p + 4);
      }
    }
  }

  /** Beyond the rounds read the buffer is zero, so scanning it all checks the same bytes. */
  lemma TailAgrees(output: Bytes, blob: Blob, len: nat, rounds: nat)
    requires len <= MAX_BLOB_DATA_SIZE && rounds == RoundsFor(len) && Filled(output, blob, rounds, 0)
    ensures Zero(output, len, MAX_BLOB_DATA_SIZE) <==> Zero(Unpack(blob), 4 + len, 127 * rounds)
    ensures output[..len] == Unpack(blob)[4..4 + len]
    ensures 4 + len <= 127 * rounds
  {
    assert forall p :: 0 <= p < 127 * rounds - 4 ==> output[p] == Unpack(blob)[p + 4];
    if Zero(output, len, MAX_BLOB_DATA_SIZE) {
      forall q | 4 + len <= q < 127 * rounds ensures Unpack(blob)[q] == 0 {
        assert output[q - 4] == Unpack(blob)[q];
      }
    }
  }
}
