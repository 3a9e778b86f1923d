/** The primitive encodings of span batches: bit lists, numbers and lists of items. */
module Wire {
  import opened Base

  /** Splits data after length bytes; None where the source's slicing panics. */
  function TakeData(data: Bytes, length: nat): Option<(Bytes, Bytes)> {
    if length <= |data| then Some((data[..length], data[length..])) else None
  }

  // ----------------------------------------------------------------------------- bits

  function BitOf(b: Byte, i: nat): bool
    requires i < 8
  {
    (b >> i) & 1 == 1
  }

  /** The byte with the given bits, lowest first. */
  function PackBits(b0: bool, b1: bool, b2: bool, b3: bool, b4: bool, b5: bool, b6: bool, b7: bool): Byte {
    (if b0 then 1 else 0) | (if b1 then 2 else 0) | (if b2 then 4 else 0) | (if b3 then 8 else 0)
    | (if b4 then 16 else 0) | (if b5 then 32 else 0) | (if b6 then 64 else 0) | (if b7 then 128 else 0)
  }

  lemma BitOfPackBits(b0: bool, b1: bool, b2: bool, b3: bool, b4: bool, b5: bool, b6: bool, b7: bool)
    ensures var b := PackBits(b0, b1, b2, b3, b4, b5, b6, b7);
            && BitOf(b, 0) == b0 && BitOf(b, 1) == b1 && BitOf(b, 2) == b2 && BitOf(b, 3) == b3
            && BitOf(b, 4) == b4 && BitOf(b, 5) == b5 && BitOf(b, 6) == b6 && BitOf(b, 7) == b7
  {
  }

  function BytesFor(bits: nat): nat { (bits + 7) / 8 }

  /** The list is one big-endian number of which bit k is element k. */
  function BitlistOf(bytes: Bytes, len: nat): seq<bool>
    requires |bytes| == BytesFor(len)
  {
    seq(len, k requires 0 <= k < len => BitOf(bytes[|bytes| - 1 - k / 8], k % 8))
  }

  function DecodeBitlist(data: Bytes, len: nat): Option<(seq<bool>, Bytes)> {
    var (bytes, rest) :- TakeData(data, BytesFor(len));
    Some((BitlistOf(bytes, len), rest))
  }

  /** Element k of the list, or false beyond its end. */
  function BitAt(bits: seq<bool>, k: nat): bool { k < |bits| && bits[k] }

  function EncodeBitlist(bits: seq<bool>): Bytes {
    var n := BytesFor(|bits|);
    seq(n, m requires 0 <= m < n =>
      var k := 8 * (n - 1 - m);
      PackBits(BitAt(bits, k), BitAt(bits, k + 1), BitAt(bits, k + 2), BitAt(bits, k + 3),
               BitAt(bits, k + 4), BitAt(bits, k + 5), BitAt(bits, k + 6), BitAt(bits, k + 7)))
  }

  lemma BitlistAt(bits: seq<bool>, m: nat, i: nat)
    requires 8 * m + i < |bits| && i < 8
    ensures var bytes := EncodeBitlist(bits);
            BitOf(bytes[|bytes| - 1 - m], i) == bits[8 * m + i]
  {
    var k := 8 * m;
    BitOfPackBits(BitAt(bits, k), BitAt(bits, k + 1), BitAt(bits, k + 2), BitAt(bits, k + 3),
                  BitAt(bits, k + 4), BitAt(bits, k + 5), BitAt(bits, k + 6), BitAt(bits, k + 7));
    assert i == 0 || i == 1 || i == 2 || i == 3 || i == 4 || i == 5 || i == 6 || i == 7;
  }

  /** Every bit list survives encoding, whatever follows it. */
  lemma BitlistRoundTrip(bits: seq<bool>, rest: Bytes)
    ensures DecodeBitlist(EncodeBitlist(bits) + rest, |bits|) == Some((bits, rest))
  {
    var bytes := EncodeBitlist(bits);
    assert (bytes + rest)[..|bytes|] == bytes && (bytes + rest)[|bytes|..] == rest;
    forall k | 0 <= k < |bits| ensures BitlistOf(bytes, |bits|)[k] == bits[k] {
      BitlistAt(bits, k / 8, k % 8);
    }
    assert BitlistOf(bytes, |bits|) == bits;
  }

  /** A bit list takes the fewest bytes that hold it, and is read whenever there are as many. */
  lemma BitlistBytes(bits: seq<bool>, data: Bytes, len: nat)
    ensures |bits| <= 8 * |EncodeBitlist(bits)| < |bits| + 8
    ensures DecodeBitlist(data, len).Some? <==> len <= 8 * |data|
    ensures DecodeBitlist(data, len).Some? ==>
              var used := |data| - |DecodeBitlist(data, len).value.1|;
              len <= 8 * used < len + 8 && DecodeBitlist(data, len).value.1 == data[used..]
  {
    var n := BytesFor(len);
    assert len <= 8 * n < len + 8;
  }

  method ReadBitlist(data: Bytes, len: nat) returns (r: Option<(seq<bool>, Bytes)>)
    ensures r == DecodeBitlist(data, len)
  {
    var lenUp := (len + 7) / 8;
    if lenUp > |data| {
      return None;
    }
    var bytes, rest := data[..lenUp], data[lenUp..];
    var bitlist := [];
    for m := 0 to lenUp
      invariant |bitlist| == 8 * m
      invariant forall k :: 0 <= k < |bitlist| ==> bitlist[k] == BitOf(bytes[lenUp - 1 - k / 8], k % 8)
    {
      var byte := bytes[lenUp - 1 - m];
      for i := 0 to 8
        invariant |bitlist| == 8 * m + i
        invariant forall k :: 0 <= k < |bitlist| ==> bitlist[k] == BitOf(bytes[lenUp - 1 - k / 8], k % 8)
      {
        assert (8 * m + i) / 8 == m && (8 * m + i) % 8 == i;
        bitlist := bitlist + [(byte >> i) & 1 == 1];
      }
    }
    bitlist := bitlist[..len];
    assert bitlist == BitlistOf(bytes, len);
    return Some((bitlist, rest));
  }

  // -------------------------------------------------------------------------- numbers

  /** Little-endian groups of seven bits, each but the last marked with the high bit. */
  function EncodeUvarint(n: nat): Bytes {
    if n < 128 then [ToByte(n)] else [ToByte(128 + n % 128)] + EncodeUvarint(n / 128)
  }

  function DecodeUvarint(data: Bytes): (r: Option<(nat, Bytes)>)
    ensures r.Some? ==> |r.value.1| < |data|
  {
    if data == [] then None
    else if data[0] as nat < 128 then Some((data[0] as nat, data[1..]))
    else
      var (high, rest) :- DecodeUvarint(data[1..]);
      Some((high * 128 + (data[0] as nat - 128), rest))
  }

  lemma {:induction false} UvarintRoundTrip(n: nat, rest: Bytes)
    ensures DecodeUvarint(EncodeUvarint(n) + rest) == Some((n, rest))
  {
    if n < 128 {
      NatRoundTrip(n);
      assert (EncodeUvarint(n) + rest)[1..] == rest;
    } else {
      var first := ToByte(128 + n % 128);
      NatRoundTrip(128 + n % 128);
      UvarintRoundTrip(n / 128, rest);
      assert EncodeUvarint(n) + rest == [first] + (EncodeUvarint(n / 128) + rest);
      assert ([first] + (EncodeUvarint(n / 128) + rest))[1..] == EncodeUvarint(n / 128) + rest;
    }
  }

  function Pow256(k: nat): nat { if k == 0 then 1 else 256 * Pow256(k - 1) }

  function FromBigEndian(bytes: Bytes): nat {
    if bytes == [] then 0 else FromBigEndian(bytes[..|bytes| - 1]) * 256 + bytes[|bytes| - 1] as nat
  }

  /** The number on k bytes, highest byte first. */
  function ToBigEndian(n: nat, k: nat): (bytes: Bytes)
    ensures |bytes| == k
  {
    if k == 0 then [] else ToBigEndian(n / 256, k - 1) + [ToByte(n % 256)]
  }

  lemma {:induction false} BigEndianRoundTrip(n: nat, k: nat)
    requires n < Pow256(k)
    ensures FromBigEndian(ToBigEndian(n, k)) == n
  {
    if k > 0 {
      NatRoundTrip(n % 256);
      assert n / 256 < Pow256(k - 1);
      BigEndianRoundTrip(n / 256, k - 1);
      assert ToBigEndian(n, k)[..k - 1] == ToBigEndian(n / 256, k - 1);
    }
  }

  /** Bytes of a fixed width are the form of just one number. */
  lemma {:induction false} NumberRoundTrip(bytes: Bytes)
    ensures FromBigEndian(bytes) < Pow256(|bytes|) && ToBigEndian(FromBigEndian(bytes), |bytes|) == bytes
    decreases |bytes|
  {
    if bytes != [] {
      var init, last := bytes[..|bytes| - 1], bytes[|bytes| - 1];
      NumberRoundTrip(init);
      ByteRoundTrip(last);
      assert FromBigEndian(bytes) / 256 == FromBigEndian(init) && FromBigEndian(bytes) % 256 == last as nat;
      assert bytes == init + [last];
    }
  }

  // ---------------------------------------------------------------------------- lists

  /** Decodes count items one after the other. */
  function DecodeMany<T>(item: Bytes -> Option<(T, Bytes)>, data: Bytes, count: nat): (r: Option<(seq<T>, Bytes)>)
    ensures r.Some? ==> |r.value.0| == count
  {
    if count == 0 then Some(([], data))
    else
      var (items, rest) :- DecodeMany(item, data, count - 1);
      var (next, rest') :- item(rest);
      Some((items + [next], rest'))
  }

  function EncodeMany<T>(encode: T -> Bytes, items: seq<T>): Bytes {
    if items == [] then [] else EncodeMany(encode, items[..|items| - 1]) + encode(items[|items| - 1])
  }

  /** Decoding undoes encoding, for one item of a set. */
  ghost predicate Inverse<T(!new)>(encode: T -> Bytes, item: Bytes -> Option<(T, Bytes)>, x: T) {
    forall rest: Bytes :: item(encode(x) + rest) == Some((x, rest))
  }

  lemma {:induction false} ManyRoundTrip<T(!new)>(encode: T -> Bytes, item: Bytes -> Option<(T, Bytes)>, items: seq<T>, rest: Bytes)
    requires forall x :: x in items ==> Inverse(encode, item, x)
    ensures DecodeMany(item, EncodeMany(encode, items) + rest, |items|) == Some((items, rest))
    decreases |items|
  {
    if items == [] {
      assert EncodeMany(encode, items) + rest == rest;
    } else {
      var init, last := items[..|items| - 1], items[|items| - 1];
      var data := EncodeMany(encode, items) + rest;
      ManyRoundTrip(encode, item, init, encode(last) + rest);
      assert data == EncodeMany(encode, init) + (encode(last) + rest);
      assert DecodeMany(item, data, |init|) == Some((init, encode(last) + rest));
      assert Inverse(encode, item, last);
      assert items == init + [last];
    }
  }

  /** The loop of every list decoder: items are taken from the front of what is left. */
  method ReadMany<T>(item: Bytes -> Option<(T, Bytes)>, data: Bytes, count: nat) returns (r: Option<(seq<T>, Bytes)>)
    ensures r == DecodeMany(item, data, count)
  {
    var list, dataRef := [], data;
    for i := 0 to count
      invariant DecodeMany(item, data, i) == Some((list, dataRef))
    {
      var next := item(dataRef);
      if next.None? {
        FailsOn(item, data, i + 1, count);
        return None;
      }
      list := list + [next.value.0];
      dataRef := next.value.1;
    }
    return Some((list, dataRef));
  }

  lemma {:induction false} FailsOn<T>(item: Bytes -> Option<(T, Bytes)>, data: Bytes, i: nat, count: nat)
    requires i <= count && DecodeMany(item, data, i).None?
    ensures DecodeMany(item, data, count).None?
  {
    if i < count {
      FailsOn(item, data, i, count - 1);
    }
  }
}
