/**
 The wire form of span batches (src/derive/stages/span_batch.rs), against the columnar
 encoder of the section "Span batch format" of the OP Stack Delta specification.
 */
module SpanCodec {
  import opened Base
  import opened Types
  import opened SpanBlocks
  import opened Wire

  datatype AccessEntry = AccessEntry(address: Bytes, keys: seq<Bytes>)

  /** An item of an RLP list, before it is printed. */
  datatype Item = Number(n: nat) | Data(bytes: Bytes) | AccessList(entries: seq<AccessEntry>)

  /**
   An RLP codec. An item is printed by itself, and a list from its items. Parsing gives the
   printed items of the list in front and the length it takes; what kind an item is meant to
   be is for the reader to know, since different kinds may print alike.
   */
  datatype Rlp = Rlp(
    item: Item -> Bytes,
    list: seq<Bytes> -> Bytes,
    parse: Bytes -> Option<(seq<Bytes>, nat)>,
    number: Bytes -> Option<nat>,
    data: Bytes -> Option<Bytes>,
    accessList: Bytes -> Option<seq<AccessEntry>>)
  {
    function Items(items: seq<Item>): seq<Bytes> { seq(|items|, i requires 0 <= i < |items| => item(items[i])) }

    function Print(items: seq<Item>): Bytes { list(Items(items)) }
  }

  /** Items that transactions may have: 256-bit numbers, data, and lists of 20-byte addresses with 32-byte keys. */
  ghost predicate ValidItem(item: Item) {
    match item
    case Number(n) => n < Pow256(32)
    case Data(_) => true
    case AccessList(entries) => forall e :: e in entries ==> |e.address| == 20 && forall k :: k in e.keys ==> |k| == 32
  }

  /** RLP writes lengths in at most eight bytes. */
  ghost predicate Fits(rlp: Rlp, items: seq<Item>) {
    && (forall i :: 0 <= i < |items| ==> ValidItem(items[i]) && |rlp.item(items[i])| < U64_RANGE)
    && |rlp.Print(items)| < U64_RANGE
  }

  /**
   What RLP promises: parsing undoes printing whatever follows, each kind is read back from
   its own print, and lists start with a byte from 0xC0 on.
   */
  ghost predicate Lawful(rlp: Rlp) {
    && (forall items, rest :: Fits(rlp, items) ==>
          rlp.parse(rlp.Print(items) + rest) == Some((rlp.Items(items), |rlp.Print(items)|)))
    && (forall items :: Fits(rlp, items) ==> rlp.Print(items) != [] && rlp.Print(items)[0] >= 0xC0)
    && (forall n: nat :: n < Pow256(32) ==> rlp.number(rlp.item(Number(n))) == Some(n))
    && (forall bytes :: |rlp.item(Data(bytes))| < U64_RANGE ==> rlp.data(rlp.item(Data(bytes))) == Some(bytes))
    && (forall entries :: ValidItem(AccessList(entries)) && |rlp.item(AccessList(entries))| < U64_RANGE ==>
          rlp.accessList(rlp.item(AccessList(entries))) == Some(entries))
  }

  /** The part of a transaction that has a column of its own by type. */
  datatype TxData =
    | Legacy(value: nat, gasPrice: nat, data: Bytes)
    | Type1(value: nat, gasPrice: nat, data: Bytes, accessList: seq<AccessEntry>)
    | Type2(value: nat, maxFee: nat, maxPriorityFee: nat, data: Bytes, accessList: seq<AccessEntry>)

  /** A transaction as signed; v is the signature's v, or its parity for typed transactions. */
  datatype SpanTx = SpanTx(body: TxData, nonce: nat, gasLimit: nat, to: Option<Bytes>, v: nat, r: nat, s: nat)

  ghost predicate ValidTx(rlp: Rlp, chainId: nat, tx: SpanTx) {
    && Fits(rlp, BodyItems(tx.body))
    && (tx.to.Some? ==> |tx.to.value| == 20)
    && tx.r < Pow256(32) && tx.s < Pow256(32)
    && if tx.body.Legacy? then tx.v in {27, 28, chainId * 2 + 35, chainId * 2 + 36} else tx.v in {0, 1}
  }

  function Address(to: Option<Bytes>): Item { Data(if to.Some? then to.value else []) }

  /** The serialized transaction: a list, after a type byte unless it is a legacy one. */
  function Serialized(rlp: Rlp, chainId: nat, body: TxData, nonce: nat, gasLimit: nat, to: Option<Bytes>, v: nat, r: nat, s: nat)
    : RawTransaction
  {
    match body
    case Legacy(value, gasPrice, data) =>
      rlp.Print([Number(nonce), Number(gasPrice), Number(gasLimit), Address(to), Number(value), Data(data),
                  Number(v), Number(r), Number(s)])
    case Type1(value, gasPrice, data, accessList) =>
      [1] + rlp.Print([Number(chainId), Number(nonce), Number(gasPrice), Number(gasLimit), Address(to), Number(value),
                        Data(data), AccessList(accessList), Number(v), Number(r), Number(s)])
    case Type2(value, maxFee, maxPriorityFee, data, accessList) =>
      [2] + rlp.Print([Number(chainId), Number(nonce), Number(maxPriorityFee), Number(maxFee), Number(gasLimit),
                        Address(to), Number(value), Data(data), AccessList(accessList), Number(v), Number(r), Number(s)])
  }

  function RawOf(rlp: Rlp, chainId: nat, tx: SpanTx): RawTransaction {
    Serialized(rlp, chainId, tx.body, tx.nonce, tx.gasLimit, tx.to, tx.v, tx.r, tx.s)
  }

  // ---------------------------------------------------------------------- column items

  function BodyItems(body: TxData): seq<Item> {
    match body
    case Legacy(value, gasPrice, data) => [Number(value), Number(gasPrice), Data(data)]
    case Type1(value, gasPrice, data, accessList) => [Number(value), Number(gasPrice), Data(data), AccessList(accessList)]
    case Type2(value, maxFee, maxPriorityFee, data, accessList) =>
      [Number(value), Number(maxPriorityFee), Number(maxFee), Data(data), AccessList(accessList)]
  }

  function EncodeTxData(rlp: Rlp, body: TxData): Bytes {
    match body
    case Legacy(_, _, _) => rlp.Print(BodyItems(body))
    case Type1(_, _, _, _) => [1] + rlp.Print(BodyItems(body))
    case Type2(_, _, _, _, _) => [2] + rlp.Print(BodyItems(body))
  }

  /** The type byte decides how many items the list must have, and which. */
  function DecodeTxData(rlp: Rlp, data: Bytes): Option<(TxData, Bytes)> {
    if data == [] then None
    else if data[0] == 1 then
      var (items, total) :- rlp.parse(data[1..]);
      if |items| < 4 || |data| < total + 1 then None
      else
        var value :- rlp.number(items[0]);
        var gasPrice :- rlp.number(items[1]);
        var input :- rlp.data(items[2]);
        var accessList :- rlp.accessList(items[3]);
        Some((Type1(value, gasPrice, input, accessList), data[total + 1..]))
    else if data[0] == 2 then
      var (items, total) :- rlp.parse(data[1..]);
      if |items| < 5 || |data| < total + 1 then None
      else
        var value :- rlp.number(items[0]);
        var maxPriorityFee :- rlp.number(items[1]);
        var maxFee :- rlp.number(items[2]);
        var input :- rlp.data(items[3]);
        var accessList :- rlp.accessList(items[4]);
        Some((Type2(value, maxFee, maxPriorityFee, input, accessList), data[total + 1..]))
    else
      var (items, total) :- rlp.parse(data);
      if |items| < 3 || |data| < total then None
      else
        var value :- rlp.number(items[0]);
        var gasPrice :- rlp.number(items[1]);
        var input :- rlp.data(items[2]);
        Some((Legacy(value, gasPrice, input), data[total..]))
  }

  function TxDataEncoder(rlp: Rlp): TxData -> Bytes { (body: TxData) => EncodeTxData(rlp, body) }

  function TxDataDecoder(rlp: Rlp): Bytes -> Option<(TxData, Bytes)> { (data: Bytes) => DecodeTxData(rlp, data) }

  function EncodeSignature(sig: (nat, nat)): Bytes { ToBigEndian(sig.0, 32) + ToBigEndian(sig.1, 32) }

  function DecodeSignature(data: Bytes): Option<((nat, nat), Bytes)> {
    var (r, d) :- TakeData(data, 32);
    var (s, d) :- TakeData(d, 32);
    Some(((FromBigEndian(r), FromBigEndian(s)), d))
  }

  function EncodeAddress(address: Bytes): Bytes { address }

  function DecodeAddress(data: Bytes): Option<(Bytes, Bytes)> { TakeData(data, 20) }

  lemma TakeConcat(a: Bytes, b: Bytes)
    ensures TakeData(a + b, |a|) == Some((a, b))
  {
    assert (a + b)[..|a|] == a && (a + b)[|a|..] == b;
  }

  lemma TxDataInverse(rlp: Rlp, body: TxData)
    requires Lawful(rlp) && Fits(rlp, BodyItems(body))
    ensures Inverse(TxDataEncoder(rlp), TxDataDecoder(rlp), body)
  {
    forall rest: Bytes ensures TxDataDecoder(rlp)(TxDataEncoder(rlp)(body) + rest) == Some((body, rest)) {
      TxDataRoundTrip(rlp, body, rest);
    }
  }

  lemma TxDataRoundTrip(rlp: Rlp, body: TxData, rest: Bytes)
    requires Lawful(rlp) && Fits(rlp, BodyItems(body))
    ensures DecodeTxData(rlp, EncodeTxData(rlp, body) + rest) == Some((body, rest))
  {
    var items := BodyItems(body);
    var printed := rlp.Print(items);
    TakeConcat(printed, rest);
    if !body.Legacy? {
      var encoded := EncodeTxData(rlp, body);
      TakeConcat(encoded, rest);
      assert (encoded + rest)[1..] == printed + rest;
    }
    ReadsBack(rlp, body);
  }

  /** Each printed item of a body is read back as what it was. */
  lemma ReadsBack(rlp: Rlp, body: TxData)
    requires Lawful(rlp) && Fits(rlp, BodyItems(body))
    ensures forall i :: 0 <= i < |BodyItems(body)| ==>
              match BodyItems(body)[i]
              case Number(n) => rlp.number(rlp.Items(BodyItems(body))[i]) == Some(n)
              case Data(bytes) => rlp.data(rlp.Items(BodyItems(body))[i]) == Some(bytes)
              case AccessList(entries) => rlp.accessList(rlp.Items(BodyItems(body))[i]) == Some(entries)
  {
    ReadsItems(rlp, BodyItems(body));
  }

  /** The type byte of a body; legacy transactions have none. */
  function TypeByte(body: TxData): Bytes {
    match body
    case Legacy(_, _, _) => []
    case Type1(_, _, _, _) => [1]
    case Type2(_, _, _, _, _) => [2]
  }

  /**
   A list with more items than its type needs is read as well, from its first ones, and what follows
   the list is left; a list with fewer is not read at all.
   */
  lemma TxDataNeedsItems(rlp: Rlp, body: TxData, items: seq<Item>, rest: Bytes)
    requires Lawful(rlp) && Fits(rlp, items)
    ensures var decoded := DecodeTxData(rlp, TypeByte(body) + (rlp.Print(items) + rest));
            && (BodyItems(body) <= items ==> decoded == Some((body, rest)))
            && (|items| < |BodyItems(body)| ==> decoded == None)
  {
    hide Lawful, Fits;
    var data := TypeByte(body) + (rlp.Print(items) + rest);
    ParsesPrinted(rlp, items, rest);
    TakeConcat(rlp.Print(items), rest);
    TakeConcat(TypeByte(body), rlp.Print(items) + rest);
    TakeConcat(TypeByte(body) + rlp.Print(items), rest);
    assert TypeByte(body) + rlp.Print(items) + rest == data;
    assert body.Legacy? ==> data == rlp.Print(items) + rest;
    ReadsItems(rlp, items);
  }

  lemma ParsesPrinted(rlp: Rlp, items: seq<Item>, rest: Bytes)
    requires Lawful(rlp) && Fits(rlp, items)
    ensures rlp.parse(rlp.Print(items) + rest) == Some((rlp.Items(items), |rlp.Print(items)|))
    ensures rlp.Print(items) != [] && rlp.Print(items)[0] >= 0xC0
  {
  }

  lemma ReadsItems(rlp: Rlp, items: seq<Item>)
    requires Lawful(rlp) && Fits(rlp, items)
    ensures forall i :: 0 <= i < |items| ==>
              match items[i]
              case Number(n) => rlp.number(rlp.Items(items)[i]) == Some(n)
              case Data(bytes) => rlp.data(rlp.Items(items)[i]) == Some(bytes)
              case AccessList(entries) => rlp.accessList(rlp.Items(items)[i]) == Some(entries)
  {
    forall i | 0 <= i < |items|
      ensures match items[i]
              case Number(n) => rlp.number(rlp.Items(items)[i]) == Some(n)
              case Data(bytes) => rlp.data(rlp.Items(items)[i]) == Some(bytes)
              case AccessList(entries) => rlp.accessList(rlp.Items(items)[i]) == Some(entries)
    {
      assert ValidItem(items[i]) && |rlp.item(items[i])| < U64_RANGE;
    }
  }

  lemma SignatureInverse(sig: (nat, nat))
    requires sig.0 < Pow256(32) && sig.1 < Pow256(32)
    ensures Inverse(EncodeSignature, DecodeSignature, sig)
  {
    forall rest: Bytes ensures DecodeSignature(EncodeSignature(sig) + rest) == Some((sig, rest)) {
      var r, s := ToBigEndian(sig.0, 32), ToBigEndian(sig.1, 32);
      assert r + s + rest == r + (s + rest);
      TakeConcat(r, s + rest);
      TakeConcat(s, rest);
      BigEndianRoundTrip(sig.0, 32);
      BigEndianRoundTrip(sig.1, 32);
    }
  }

  lemma AddressInverse(address: Bytes)
    requires |address| == 20
    ensures Inverse(EncodeAddress, DecodeAddress, address)
  {
    forall rest: Bytes ensures DecodeAddress(EncodeAddress(address) + rest) == Some((address, rest)) {
      TakeConcat(address, rest);
    }
  }

  lemma UvarintInverse(n: nat)
    ensures Inverse(EncodeUvarint, DecodeUvarint, n)
  {
    forall rest: Bytes ensures DecodeUvarint(EncodeUvarint(n) + rest) == Some((n, rest)) {
      UvarintRoundTrip(n, rest);
    }
  }

  // -------------------------------------------------------------------------- columns

  datatype Columns = Columns(
    creation: seq<bool>,
    parity: seq<bool>,
    signatures: seq<(nat, nat)>,
    tos: seq<Bytes>,
    bodies: seq<TxData>,
    nonces: seq<nat>,
    gasLimits: seq<nat>,
    protected: seq<bool>)

  function CountFalse(bits: seq<bool>): nat { |bits| - CountTrue(bits) }

  function CountLegacy(bodies: seq<TxData>): (n: nat)
    ensures n <= |bodies|
  {
    if bodies == [] then 0 else CountLegacy(bodies[..|bodies| - 1]) + if bodies[|bodies| - 1].Legacy? then 1 else 0
  }

  /** Columns of count rows: the addresses and protected bits are only those needed. */
  predicate Sized(c: Columns, count: nat) {
    && |c.creation| == |c.parity| == |c.signatures| == |c.bodies| == |c.nonces| == |c.gasLimits| == count
    && |c.tos| == CountFalse(c.creation)
    && |c.protected| == CountLegacy(c.bodies)
  }

  /** The columns one after the other, followed by rest. */
  function EncodeColumns(rlp: Rlp, c: Columns, rest: Bytes): Bytes {
    EncodeBitlist(c.creation)
    + (EncodeBitlist(c.parity)
       + (EncodeMany(EncodeSignature, c.signatures)
          + (EncodeMany(EncodeAddress, c.tos)
             + (EncodeMany(TxDataEncoder(rlp), c.bodies)
                + (EncodeMany(EncodeUvarint, c.nonces)
                   + (EncodeMany(EncodeUvarint, c.gasLimits)
                      + (EncodeBitlist(c.protected) + rest)))))))
  }

  function DecodeColumns(rlp: Rlp, data: Bytes, count: nat): (r: Option<(Columns, Bytes)>)
    ensures r.Some? ==> Sized(r.value.0, count)
  {
    var (creation, d) :- DecodeBitlist(data, count);
    var (parity, d) :- DecodeBitlist(d, count);
    var (signatures, d) :- DecodeMany(DecodeSignature, d, count);
    var (tos, d) :- DecodeMany(DecodeAddress, d, CountFalse(creation));
    var (bodies, d) :- DecodeMany(TxDataDecoder(rlp), d, count);
    var (nonces, d) :- DecodeMany(DecodeUvarint, d, count);
    var (gasLimits, d) :- DecodeMany(DecodeUvarint, d, count);
    var (protected, d) :- DecodeBitlist(d, CountLegacy(bodies));
    Some((Columns(creation, parity, signatures, tos, bodies, nonces, gasLimits, protected), d))
  }

  lemma {:induction false} CountLegacyPrefix(bodies: seq<TxData>, i: nat, j: nat)
    requires i <= j <= |bodies|
    ensures CountLegacy(bodies[..i]) <= CountLegacy(bodies[..j]) <= CountLegacy(bodies[..i]) + (j - i)
    decreases j
  {
    if i < j {
      CountLegacyPrefix(bodies, i, j - 1);
      assert bodies[..j][..j - 1] == bodies[..j - 1];
    }
  }

  lemma CreationStep(creation: seq<bool>, i: nat)
    requires i < |creation|
    ensures CountFalse(creation[..i + 1]) == CountFalse(creation[..i]) + if creation[i] then 0 else 1
    ensures CountFalse(creation[..i + 1]) <= CountFalse(creation)
  {
    assert creation[..i + 1][..i] == creation[..i];
    CountTruePrefix(creation, i + 1, |creation|);
    assert creation[..|creation|] == creation;
  }

  lemma LegacyStep(bodies: seq<TxData>, i: nat)
    requires i < |bodies|
    ensures CountLegacy(bodies[..i + 1]) == CountLegacy(bodies[..i]) + if bodies[i].Legacy? then 1 else 0
    ensures CountLegacy(bodies[..i + 1]) <= CountLegacy(bodies)
  {
    assert bodies[..i + 1][..i] == bodies[..i];
    CountLegacyPrefix(bodies, i + 1, |bodies|);
    assert bodies[..|bodies|] == bodies;
  }

  /** Row i needs its address and protected bit at the counts of such rows before it. */
  lemma RowInBounds(c: Columns, count: nat, i: nat)
    requires Sized(c, count) && i < count
    ensures CountFalse(c.creation[..i + 1]) == CountFalse(c.creation[..i]) + if c.creation[i] then 0 else 1
    ensures CountLegacy(c.bodies[..i + 1]) == CountLegacy(c.bodies[..i]) + if c.bodies[i].Legacy? then 1 else 0
    ensures CountFalse(c.creation[..i + 1]) <= |c.tos| && CountLegacy(c.bodies[..i + 1]) <= |c.protected|
  {
    CreationStep(c.creation, i);
    LegacyStep(c.bodies, i);
  }

  /** The signature's v, from parity and, for legacy transactions, the protected bit. */
  function SignatureV(chainId: nat, legacy: bool, protected: bool, parity: bool): nat {
    (if !legacy then 0 else if protected then chainId * 2 + 35 else 27) + if parity then 1 else 0
  }

  /** The transaction that row i of the columns stands for. */
  function RowAt(rlp: Rlp, chainId: nat, c: Columns, count: nat, i: nat): RawTransaction
    requires Sized(c, count) && i < count
  {
    RowInBounds(c, count, i);
    var body := c.bodies[i];
    var to := if c.creation[i] then None else Some(c.tos[CountFalse(c.creation[..i])]);
    var protected := body.Legacy? && c.protected[CountLegacy(c.bodies[..i])];
    Serialized(rlp, chainId, body, c.nonces[i], c.gasLimits[i], to,
               SignatureV(chainId, body.Legacy?, protected, c.parity[i]), c.signatures[i].0, c.signatures[i].1)
  }

  function Rows(rlp: Rlp, chainId: nat, c: Columns, count: nat): seq<RawTransaction>
    requires Sized(c, count)
  {
    seq(count, i requires 0 <= i < count => RowAt(rlp, chainId, c, count, i))
  }

  function DecodeTransactions(rlp: Rlp, chainId: nat, data: Bytes, count: nat): (r: Option<(seq<RawTransaction>, Bytes)>)
    ensures r.Some? ==> |r.value.0| == count
  {
    var (c, rest) :- DecodeColumns(rlp, data, count);
    Some((Rows(rlp, chainId, c, count), rest))
  }

  // --------------------------------------------------------------- columns of transactions

  function IsProtected(tx: SpanTx): bool { tx.v != 27 && tx.v != 28 }

  function Parity(chainId: nat, tx: SpanTx): bool {
    tx.v == if !tx.body.Legacy? then 1 else if IsProtected(tx) then chainId * 2 + 36 else 28
  }

  function TosOf(txs: seq<SpanTx>): seq<Bytes> {
    if txs == [] then []
    else TosOf(txs[..|txs| - 1]) + if txs[|txs| - 1].to.Some? then [txs[|txs| - 1].to.value] else []
  }

  function ProtectedOf(txs: seq<SpanTx>): seq<bool> {
    if txs == [] then []
    else ProtectedOf(txs[..|txs| - 1]) + if txs[|txs| - 1].body.Legacy? then [IsProtected(txs[|txs| - 1])] else []
  }

  function CreationOf(txs: seq<SpanTx>): seq<bool> { seq(|txs|, i requires 0 <= i < |txs| => txs[i].to.None?) }

  function BodiesOf(txs: seq<SpanTx>): seq<TxData> { seq(|txs|, i requires 0 <= i < |txs| => txs[i].body) }

  /** The columns that the specification's encoder makes of some transactions. */
  function ColumnsOf(chainId: nat, txs: seq<SpanTx>): Columns {
    Columns(
      CreationOf(txs),
      seq(|txs|, i requires 0 <= i < |txs| => Parity(chainId, txs[i])),
      seq(|txs|, i requires 0 <= i < |txs| => (txs[i].r, txs[i].s)),
      TosOf(txs),
      BodiesOf(txs),
      seq(|txs|, i requires 0 <= i < |txs| => txs[i].nonce),
      seq(|txs|, i requires 0 <= i < |txs| => txs[i].gasLimit),
      ProtectedOf(txs))
  }

  /** The sparse columns have an entry for just the rows that need one, in order. */
  lemma {:induction false} SparseColumns(txs: seq<SpanTx>, i: nat)
    requires i <= |txs|
    ensures |TosOf(txs[..i])| == CountFalse(CreationOf(txs)[..i]) && |ProtectedOf(txs[..i])| == CountLegacy(BodiesOf(txs)[..i])
    ensures TosOf(txs[..i]) <= TosOf(txs) && ProtectedOf(txs[..i]) <= ProtectedOf(txs)
    decreases |txs|, i
  {
    if i > 0 {
      assert txs[..i][..i - 1] == txs[..i - 1];
      assert CreationOf(txs)[..i][..i - 1] == CreationOf(txs)[..i - 1];
      assert BodiesOf(txs)[..i][..i - 1] == BodiesOf(txs)[..i - 1];
      SparseColumns(txs, i - 1);
    }
    if i == |txs| {
      assert txs[..i] == txs;
    } else {
      var init := txs[..|txs| - 1];
      assert init[..i] == txs[..i];
      SparseColumns(init, i);
    }
  }

  lemma ColumnsSized(chainId: nat, txs: seq<SpanTx>)
    ensures Sized(ColumnsOf(chainId, txs), |txs|)
  {
    SparseColumns(txs, |txs|);
    assert txs[..|txs|] == txs && CreationOf(txs)[..|txs|] == CreationOf(txs) && BodiesOf(txs)[..|txs|] == BodiesOf(txs);
  }

  /** A row that needs an address finds its own, at the count of such rows before it. */
  lemma RowAddress(chainId: nat, txs: seq<SpanTx>, i: nat)
    requires i < |txs| && Sized(ColumnsOf(chainId, txs), |txs|)
    ensures var k := CountFalse(CreationOf(txs)[..i]);
            txs[i].to.Some? ==> k < |TosOf(txs)| && TosOf(txs)[k] == txs[i].to.value
  {
    SparseColumns(txs, i);
    SparseColumns(txs, i + 1);
    assert txs[..i + 1][..i] == txs[..i];
    if txs[i].to.Some? {
      assert TosOf(txs)[|TosOf(txs[..i])|] == TosOf(txs[..i + 1])[|TosOf(txs[..i])|];
    }
  }

  lemma RowProtected(chainId: nat, txs: seq<SpanTx>, i: nat)
    requires i < |txs| && Sized(ColumnsOf(chainId, txs), |txs|)
    ensures var k := CountLegacy(BodiesOf(txs)[..i]);
            txs[i].body.Legacy? ==> k < |ProtectedOf(txs)| && ProtectedOf(txs)[k] == IsProtected(txs[i])
  {
    SparseColumns(txs, i);
    SparseColumns(txs, i + 1);
    assert txs[..i + 1][..i] == txs[..i];
    if txs[i].body.Legacy? {
      assert ProtectedOf(txs)[|ProtectedOf(txs[..i])|] == ProtectedOf(txs[..i + 1])[|ProtectedOf(txs[..i])|];
    }
  }

  /** The parity and the protected bit are enough to give back v. */
  lemma VFromBits(rlp: Rlp, chainId: nat, tx: SpanTx)
    requires ValidTx(rlp, chainId, tx)
    ensures SignatureV(chainId, tx.body.Legacy?, tx.body.Legacy? && IsProtected(tx), Parity(chainId, tx)) == tx.v
  {
  }

  /** Each row of the columns is the transaction it came from, v included. */
  lemma RowIsTransaction(rlp: Rlp, chainId: nat, txs: seq<SpanTx>, i: nat)
    requires i < |txs| && ValidTx(rlp, chainId, txs[i]) && Sized(ColumnsOf(chainId, txs), |txs|)
    ensures RowAt(rlp, chainId, ColumnsOf(chainId, txs), |txs|, i) == RawOf(rlp, chainId, txs[i])
  {
    RowAddress(chainId, txs, i);
    RowProtected(chainId, txs, i);
    VFromBits(rlp, chainId, txs[i]);
  }

  lemma {:induction false} TosValid(rlp: Rlp, txs: seq<SpanTx>, chainId: nat)
    requires forall i :: 0 <= i < |txs| ==> ValidTx(rlp, chainId, txs[i])
    ensures forall a :: a in TosOf(txs) ==> |a| == 20
    decreases |txs|
  {
    if txs != [] {
      TosValid(rlp, txs[..|txs| - 1], chainId);
    }
  }

  lemma SignatureColumn(signatures: seq<(nat, nat)>, rest: Bytes)
    requires forall x :: x in signatures ==> x.0 < Pow256(32) && x.1 < Pow256(32)
    ensures DecodeMany(DecodeSignature, EncodeMany(EncodeSignature, signatures) + rest, |signatures|) == Some((signatures, rest))
  {
    forall x | x in signatures ensures Inverse(EncodeSignature, DecodeSignature, x) {
      SignatureInverse(x);
    }
    ManyRoundTrip(EncodeSignature, DecodeSignature, signatures, rest);
  }

  lemma AddressColumn(tos: seq<Bytes>, rest: Bytes)
    requires forall a :: a in tos ==> |a| == 20
    ensures DecodeMany(DecodeAddress, EncodeMany(EncodeAddress, tos) + rest, |tos|) == Some((tos, rest))
  {
    forall a | a in tos ensures Inverse(EncodeAddress, DecodeAddress, a) {
      AddressInverse(a);
    }
    ManyRoundTrip(EncodeAddress, DecodeAddress, tos, rest);
  }

  lemma BodyColumn(rlp: Rlp, bodies: seq<TxData>, rest: Bytes)
    requires Lawful(rlp) && forall b :: b in bodies ==> Fits(rlp, BodyItems(b))
    ensures DecodeMany(TxDataDecoder(rlp), EncodeMany(TxDataEncoder(rlp), bodies) + rest, |bodies|) == Some((bodies, rest))
  {
    forall b | b in bodies ensures Inverse(TxDataEncoder(rlp), TxDataDecoder(rlp), b) {
      TxDataInverse(rlp, b);
    }
    ManyRoundTrip(TxDataEncoder(rlp), TxDataDecoder(rlp), bodies, rest);
  }

  lemma UvarintColumn(numbers: seq<nat>, rest: Bytes)
    ensures DecodeMany(DecodeUvarint, EncodeMany(EncodeUvarint, numbers) + rest, |numbers|) == Some((numbers, rest))
  {
    forall n | n in numbers ensures Inverse(EncodeUvarint, DecodeUvarint, n) {
      UvarintInverse(n);
    }
    ManyRoundTrip(EncodeUvarint, DecodeUvarint, numbers, rest);
  }

  /** Decoding goes column by column. */
  lemma DecodeColumnsSteps(
    rlp: Rlp, count: nat, c: Columns, d1: Bytes, d2: Bytes, d3: Bytes, d4: Bytes, d5: Bytes, d6: Bytes, d7: Bytes, d8: Bytes, rest: Bytes)
    requires DecodeBitlist(d1, count) == Some((c.creation, d2))
    requires DecodeBitlist(d2, count) == Some((c.parity, d3))
    requires DecodeMany(DecodeSignature, d3, count) == Some((c.signatures, d4))
    requires DecodeMany(DecodeAddress, d4, CountFalse(c.creation)) == Some((c.tos, d5))
    requires DecodeMany(TxDataDecoder(rlp), d5, count) == Some((c.bodies, d6))
    requires DecodeMany(DecodeUvarint, d6, count) == Some((c.nonces, d7))
    requires DecodeMany(DecodeUvarint, d7, count) == Some((c.gasLimits, d8))
    requires DecodeBitlist(d8, CountLegacy(c.bodies)) == Some((c.protected, rest))
    ensures DecodeColumns(rlp, d1, count) == Some((c, rest))
  {
  }

  lemma ColumnsRoundTrip(rlp: Rlp, c: Columns, count: nat, rest: Bytes)
    requires Lawful(rlp) && Sized(c, count)
    requires forall x :: x in c.signatures ==> x.0 < Pow256(32) && x.1 < Pow256(32)
    requires forall a :: a in c.tos ==> |a| == 20
    requires forall b :: b in c.bodies ==> Fits(rlp, BodyItems(b))
    ensures DecodeColumns(rlp, EncodeColumns(rlp, c, rest), count) == Some((c, rest))
  {
    var d8 := EncodeBitlist(c.protected) + rest;
    var d7 := EncodeMany(EncodeUvarint, c.gasLimits) + d8;
    var d6 := EncodeMany(EncodeUvarint, c.nonces) + d7;
    var d5 := EncodeMany(TxDataEncoder(rlp), c.bodies) + d6;
    var d4 := EncodeMany(EncodeAddress, c.tos) + d5;
    var d3 := EncodeMany(EncodeSignature, c.signatures) + d4;
    var d2 := EncodeBitlist(c.parity) + d3;
    BitlistRoundTrip(c.creation, d2);
    BitlistRoundTrip(c.parity, d3);
    SignatureColumn(c.signatures, d4);
    AddressColumn(c.tos, d5);
    BodyColumn(rlp, c.bodies, d6);
    UvarintColumn(c.nonces, d7);
    UvarintColumn(c.gasLimits, d8);
    BitlistRoundTrip(c.protected, rest);
    DecodeColumnsSteps(rlp, count, c, EncodeColumns(rlp, c, rest), d2, d3, d4, d5, d6, d7, d8, rest);
  }

  lemma RowsAreTransactions(rlp: Rlp, chainId: nat, txs: seq<SpanTx>)
    requires forall i :: 0 <= i < |txs| ==> ValidTx(rlp, chainId, txs[i])
    requires Sized(ColumnsOf(chainId, txs), |txs|)
    ensures Rows(rlp, chainId, ColumnsOf(chainId, txs), |txs|) == RawTransactions(rlp, chainId, txs)
  {
    forall i | 0 <= i < |txs|
      ensures RowAt(rlp, chainId, ColumnsOf(chainId, txs), |txs|, i) == RawOf(rlp, chainId, txs[i])
    {
      RowIsTransaction(rlp, chainId, txs, i);
    }
  }

  function RawTransactions(rlp: Rlp, chainId: nat, txs: seq<SpanTx>): seq<RawTransaction> {
    seq(|txs|, i requires 0 <= i < |txs| => RawOf(rlp, chainId, txs[i]))
  }

  lemma ColumnsValid(rlp: Rlp, chainId: nat, txs: seq<SpanTx>)
    requires forall i :: 0 <= i < |txs| ==> ValidTx(rlp, chainId, txs[i])
    ensures var c := ColumnsOf(chainId, txs);
            && Sized(c, |txs|)
            && (forall x :: x in c.signatures ==> x.0 < Pow256(32) && x.1 < Pow256(32))
            && (forall a :: a in c.tos ==> |a| == 20)
            && (forall b :: b in c.bodies ==> Fits(rlp, BodyItems(b)))
  {
    ColumnsSized(chainId, txs);
    TosValid(rlp, txs, chainId);
  }

  /**
   Decoding span transactions undoes the columnar encoding of any list of legacy, type-1 and
   type-2 transactions: every transaction comes back serialized exactly as it was signed.
   */
  lemma TransactionsRoundTrip(rlp: Rlp, chainId: nat, txs: seq<SpanTx>, rest: Bytes)
    requires Lawful(rlp) && forall i :: 0 <= i < |txs| ==> ValidTx(rlp, chainId, txs[i])
    ensures DecodeTransactions(rlp, chainId, EncodeColumns(rlp, ColumnsOf(chainId, txs), rest), |txs|)
         == Some((RawTransactions(rlp, chainId, txs), rest))
  {
    ColumnsValid(rlp, chainId, txs);
    ColumnsRoundTrip(rlp, ColumnsOf(chainId, txs), |txs|, rest);
    RowsAreTransactions(rlp, chainId, txs);
  }

  // --------------------------------------------------------------------------- whole spans

  ghost function DecodeSpan(rlp: Rlp, chainId: nat, data: Bytes, l1InclusionBlock: nat): Option<SpanBatch> {
    var (relTimestamp, d) :- DecodeUvarint(data);
    var (l1OriginNum, d) :- DecodeUvarint(d);
    var (parentCheck, d) :- TakeData(d, 20);
    var (l1OriginCheck, d) :- TakeData(d, 20);
    var (blockCount, d) :- DecodeUvarint(d);
    var (originBits, d) :- DecodeBitlist(d, blockCount);
    var (blockTxCounts, d) :- DecodeMany(DecodeUvarint, d, blockCount);
    var (transactions, _) :- DecodeTransactions(rlp, chainId, d, Sum(blockTxCounts));
    Some(SpanBatch(relTimestamp, l1OriginNum, parentCheck, l1OriginCheck, blockCount, originBits, blockTxCounts,
                   transactions, l1InclusionBlock))
  }

  /** Whatever bytes a span batch is decoded from, its lists have the sizes its counts announce. */
  lemma DecodedSpanIsSized(rlp: Rlp, chainId: nat, data: Bytes, l1InclusionBlock: nat)
    ensures var r := DecodeSpan(rlp, chainId, data, l1InclusionBlock);
            r.Some? ==>
              && SizedSpan(r.value)
              && |r.value.parentCheck| == |r.value.l1OriginCheck| == 20
  {
  }

  /** The specification's encoding of a span batch whose transactions are txs, followed by rest. */
  function EncodeSpan(rlp: Rlp, chainId: nat, b: SpanBatch, txs: seq<SpanTx>, rest: Bytes): Bytes {
    EncodeUvarint(b.relTimestamp)
    + (EncodeUvarint(b.l1OriginNum)
       + (b.parentCheck
          + (b.l1OriginCheck
             + (EncodeUvarint(b.blockCount)
                + (EncodeBitlist(b.originBits)
                   + (EncodeMany(EncodeUvarint, b.blockTxCounts)
                      + EncodeColumns(rlp, ColumnsOf(chainId, txs), rest)))))))
  }

  /** Every span batch survives encoding, whatever follows it. */
  lemma SpanRoundTrip(rlp: Rlp, chainId: nat, b: SpanBatch, txs: seq<SpanTx>, rest: Bytes)
    requires Lawful(rlp) && forall i :: 0 <= i < |txs| ==> ValidTx(rlp, chainId, txs[i])
    requires |b.originBits| == |b.blockTxCounts| == b.blockCount && Sum(b.blockTxCounts) == |txs|
    requires |b.parentCheck| == |b.l1OriginCheck| == 20
    requires b.transactions == RawTransactions(rlp, chainId, txs)
    ensures DecodeSpan(rlp, chainId, EncodeSpan(rlp, chainId, b, txs, rest), b.l1InclusionBlock) == Some(b)
  {
    var d7 := EncodeColumns(rlp, ColumnsOf(chainId, txs), rest);
    var d6 := EncodeMany(EncodeUvarint, b.blockTxCounts) + d7;
    var d5 := EncodeBitlist(b.originBits) + d6;
    var d4 := EncodeUvarint(b.blockCount) + d5;
    var d3 := b.l1OriginCheck + d4;
    var d2 := b.parentCheck + d3;
    var d1 := EncodeUvarint(b.l1OriginNum) + d2;
    UvarintRoundTrip(b.relTimestamp, d1);
    UvarintRoundTrip(b.l1OriginNum, d2);
    TakeConcat(b.parentCheck, d3);
    TakeConcat(b.l1OriginCheck, d4);
    UvarintRoundTrip(b.blockCount, d5);
    BitlistRoundTrip(b.originBits, d6);
    UvarintColumn(b.blockTxCounts, d7);
    TransactionsRoundTrip(rlp, chainId, txs, rest);
    DecodeSpanSteps(rlp, chainId, b, EncodeSpan(rlp, chainId, b, txs, rest), d1, d2, d3, d4, d5, d6, d7, rest);
  }

  /** Nothing keeps a batcher from sending a span without blocks: it decodes. */
  lemma EmptySpanDecodes(rlp: Rlp, chainId: nat, b: SpanBatch)
    requires Lawful(rlp) && b.blockCount == 0 && SizedSpan(b) && |b.parentCheck| == |b.l1OriginCheck| == 20
    ensures DecodeSpan(rlp, chainId, EncodeSpan(rlp, chainId, b, [], []), b.l1InclusionBlock) == Some(b)
  {
    assert b.blockTxCounts == [] && b.transactions == [];
    SpanRoundTrip(rlp, chainId, b, [], []);
  }

  /** Decoding goes field by field. */
  lemma DecodeSpanSteps(
    rlp: Rlp, chainId: nat, b: SpanBatch, d0: Bytes, d1: Bytes, d2: Bytes, d3: Bytes, d4: Bytes, d5: Bytes, d6: Bytes, d7: Bytes, d8: Bytes)
    requires DecodeUvarint(d0) == Some((b.relTimestamp, d1)) && DecodeUvarint(d1) == Some((b.l1OriginNum, d2))
    requires TakeData(d2, 20) == Some((b.parentCheck, d3)) && TakeData(d3, 20) == Some((b.l1OriginCheck, d4))
    requires DecodeUvarint(d4) == Some((b.blockCount, d5)) && DecodeBitlist(d5, b.blockCount) == Some((b.originBits, d6))
    requires DecodeMany(DecodeUvarint, d6, b.blockCount) == Some((b.blockTxCounts, d7))
    requires DecodeTransactions(rlp, chainId, d7, Sum(b.blockTxCounts)) == Some((b.transactions, d8))
    ensures DecodeSpan(rlp, chainId, d0, b.l1InclusionBlock) == Some(b)
  {
  }

  // ------------------------------------------------------------------------- the decoder

  /** Reads the columns, each with the loop of its kind. */
  method ReadColumns(rlp: Rlp, data: Bytes, count: nat) returns (result: Option<(Columns, Bytes)>)
    ensures result == DecodeColumns(rlp, data, count)
  {
    var creationRead :- ReadBitlist(data, count);
    var creation, d1 := creationRead.0, creationRead.1;
    var parityRead :- ReadBitlist(d1, count);
    var parity, d2 := parityRead.0, parityRead.1;
    var signaturesRead :- ReadMany(DecodeSignature, d2, count);
    var signatures, d3 := signaturesRead.0, signaturesRead.1;
    var tosCount := 0;
    for i := 0 to count
      invariant tosCount == CountFalse(creation[..i])
    {
      assert creation[..i + 1][..i] == creation[..i];
      tosCount := tosCount + if !creation[i] then 1 else 0;
    }
    assert creation[..count] == creation;
    var tosRead :- ReadMany(DecodeAddress, d3, tosCount);
    var tos, d4 := tosRead.0, tosRead.1;
    var bodiesRead :- ReadMany(TxDataDecoder(rlp), d4, count);
    var bodies, d5 := bodiesRead.0, bodiesRead.1;
    var noncesRead :- ReadMany(DecodeUvarint, d5, count);
    var nonces, d6 := noncesRead.0, noncesRead.1;
    var gasLimitsRead :- ReadMany(DecodeUvarint, d6, count);
    var gasLimits, d7 := gasLimitsRead.0, gasLimitsRead.1;
    var protectedRead :- ReadBitlist(d7, CountLegacy(bodies));
    var protected, d8 := protectedRead.0, protectedRead.1;
    result := Some((Columns(creation, parity, signatures, tos, bodies, nonces, gasLimits, protected), d8));
  }

  /** Serializes one row; tosI and legacyI are its places in the sparse columns. */
  method BuildRow(rlp: Rlp, chainId: nat, c: Columns, count: nat, i: nat, tosI: nat, legacyI: nat) returns (raw: RawTransaction)
    requires Sized(c, count) && i < count
    requires tosI == CountFalse(c.creation[..i]) && legacyI == CountLegacy(c.bodies[..i])
    ensures raw == RowAt(rlp, chainId, c, count, i)
  {
    RowInBounds(c, count, i);
    var to := Address(if c.creation[i] then None else Some(c.tos[tosI]));
    var parity := if c.parity[i] then 1 else 0;
    match c.bodies[i] {
      case Legacy(value, gasPrice, data) =>
        var v := if c.protected[legacyI] then chainId * 2 + 35 + parity else 27 + parity;
        raw := rlp.Print([Number(c.nonces[i]), Number(gasPrice), Number(c.gasLimits[i]), to, Number(value), Data(data),
                           Number(v), Number(c.signatures[i].0), Number(c.signatures[i].1)]);
      case Type1(value, gasPrice, data, accessList) =>
        raw := [1] + rlp.Print([Number(chainId), Number(c.nonces[i]), Number(gasPrice), Number(c.gasLimits[i]), to,
                                 Number(value), Data(data), AccessList(accessList), Number(parity),
                                 Number(c.signatures[i].0), Number(c.signatures[i].1)]);
      case Type2(value, maxFee, maxPriorityFee, data, accessList) =>
        raw := [2] + rlp.Print([Number(chainId), Number(c.nonces[i]), Number(maxPriorityFee), Number(maxFee),
                                 Number(c.gasLimits[i]), to, Number(value), Data(data), AccessList(accessList),
                                 Number(parity), Number(c.signatures[i].0), Number(c.signatures[i].1)]);
    }
  }

  /** Puts the rows together; tosI and legacyI run over the sparse columns. */
  method BuildRows(rlp: Rlp, chainId: nat, c: Columns, count: nat) returns (txs: seq<RawTransaction>)
    requires Sized(c, count)
    ensures txs == Rows(rlp, chainId, c, count)
  {
    txs := [];
    var legacyI, tosI := 0, 0;
    for i := 0 to count
      invariant txs == Rows(rlp, chainId, c, count)[..i]
      invariant tosI == CountFalse(c.creation[..i]) && legacyI == CountLegacy(c.bodies[..i])
    {
      var raw := BuildRow(rlp, chainId, c, count, i, tosI, legacyI);
      RowInBounds(c, count, i);
      assert Rows(rlp, chainId, c, count)[i] == raw;
      txs := txs + [raw];
      tosI := tosI + if c.creation[i] then 0 else 1;
      legacyI := legacyI + if c.bodies[i].Legacy? then 1 else 0;
    }
  }

  method ReadSpan(rlp: Rlp, chainId: nat, data: Bytes, l1InclusionBlock: nat) returns (result: Option<SpanBatch>)
    ensures result == DecodeSpan(rlp, chainId, data, l1InclusionBlock)
  {
    var relTimestampRead :- DecodeUvarint(data);
    var relTimestamp, d1 := relTimestampRead.0, relTimestampRead.1;
    var l1OriginNumRead :- DecodeUvarint(d1);
    var l1OriginNum, d2 := l1OriginNumRead.0, l1OriginNumRead.1;
    var parentCheckRead :- TakeData(d2, 20);
    var parentCheck, d3 := parentCheckRead.0, parentCheckRead.1;
    var l1OriginCheckRead :- TakeData(d3, 20);
    var l1OriginCheck, d4 := l1OriginCheckRead.0, l1OriginCheckRead.1;
    var blockCountRead :- DecodeUvarint(d4);
    var blockCount, d5 := blockCountRead.0, blockCountRead.1;
    var originBitsRead :- ReadBitlist(d5, blockCount);
    var originBits, d6 := originBitsRead.0, originBitsRead.1;
    var blockTxCountsRead :- ReadMany(DecodeUvarint, d6, blockCount);
    var blockTxCounts, d7 := blockTxCountsRead.0, blockTxCountsRead.1;
    var totalTxs := Sum(blockTxCounts);
    var cRead :- ReadColumns(rlp, d7, totalTxs);
    var c := cRead.0;
    var transactions := BuildRows(rlp, chainId, c, totalTxs);
    result := Some(SpanBatch(relTimestamp, l1OriginNum, parentCheck, l1OriginCheck, blockCount, originBits, blockTxCounts,
                             transactions, l1InclusionBlock));
  }
}
