/**
 Signed transactions as execution clients read them: legacy ones, and those of types 1 and 2 of
 EIP-2930 and EIP-1559. What the span decoder rebuilds reads as the transactions that were signed.
 */
module SignedTx {
  import opened Base
  import opened Types
  import opened SpanCodec
  import opened RlpCodec

  /** A transaction, with the chain it is for if it says so in a field of its own. */
  datatype Signed = Signed(chainId: Option<nat>, tx: SpanTx)

  function ReadTo(rlp: Rlp, item: Bytes): Option<Option<Bytes>> {
    var address :- rlp.data(item);
    Some(if address == [] then None else Some(address))
  }

  /** nonce, gas price, gas limit, to, value, data, v, r, s. */
  function ReadLegacy(rlp: Rlp, items: seq<Bytes>): Option<Signed>
    requires |items| == 9
  {
    var nonce :- rlp.number(items[0]);
    var gasPrice :- rlp.number(items[1]);
    var gasLimit :- rlp.number(items[2]);
    var to :- ReadTo(rlp, items[3]);
    var value :- rlp.number(items[4]);
    var data :- rlp.data(items[5]);
    var v :- rlp.number(items[6]);
    var r :- rlp.number(items[7]);
    var s :- rlp.number(items[8]);
    Some(Signed(None, SpanTx(Legacy(value, gasPrice, data), nonce, gasLimit, to, v, r, s)))
  }

  /** chain id, nonce, gas price, gas limit, to, value, data, access list, parity, r, s. */
  function ReadType1(rlp: Rlp, items: seq<Bytes>): Option<Signed>
    requires |items| == 11
  {
    var chainId :- rlp.number(items[0]);
    var nonce :- rlp.number(items[1]);
    var gasPrice :- rlp.number(items[2]);
    var gasLimit :- rlp.number(items[3]);
    var to :- ReadTo(rlp, items[4]);
    var value :- rlp.number(items[5]);
    var data :- rlp.data(items[6]);
    var accessList :- rlp.accessList(items[7]);
    var v :- rlp.number(items[8]);
    var r :- rlp.number(items[9]);
    var s :- rlp.number(items[10]);
    Some(Signed(Some(chainId), SpanTx(Type1(value, gasPrice, data, accessList), nonce, gasLimit, to, v, r, s)))
  }

  /** chain id, nonce, priority fee, fee, gas limit, to, value, data, access list, parity, r, s. */
  function ReadType2(rlp: Rlp, items: seq<Bytes>): Option<Signed>
    requires |items| == 12
  {
    var chainId :- rlp.number(items[0]);
    var nonce :- rlp.number(items[1]);
    var maxPriorityFee :- rlp.number(items[2]);
    var maxFee :- rlp.number(items[3]);
    var gasLimit :- rlp.number(items[4]);
    var to :- ReadTo(rlp, items[5]);
    var value :- rlp.number(items[6]);
    var data :- rlp.data(items[7]);
    var accessList :- rlp.accessList(items[8]);
    var v :- rlp.number(items[9]);
    var r :- rlp.number(items[10]);
    var s :- rlp.number(items[11]);
    Some(Signed(Some(chainId), SpanTx(Type2(value, maxFee, maxPriorityFee, data, accessList), nonce, gasLimit, to, v, r, s)))
  }

  function ReadSigned(rlp: Rlp, raw: RawTransaction): Option<Signed> {
    if raw == [] then None
    else if raw[0] == 1 then
      var (items, _) :- rlp.parse(raw[1..]);
      if |items| == 11 then ReadType1(rlp, items) else None
    else if raw[0] == 2 then
      var (items, _) :- rlp.parse(raw[1..]);
      if |items| == 12 then ReadType2(rlp, items) else None
    else
      var (items, _) :- rlp.parse(raw);
      if |items| == 9 then ReadLegacy(rlp, items) else None
  }

  /** The items of a signed transaction. */
  function SignedItems(chainId: nat, tx: SpanTx): seq<Item> {
    match tx.body
    case Legacy(value, gasPrice, data) =>
      [Number(tx.nonce), Number(gasPrice), Number(tx.gasLimit), Address(tx.to), Number(value), Data(data),
       Number(tx.v), Number(tx.r), Number(tx.s)]
    case Type1(value, gasPrice, data, accessList) =>
      [Number(chainId), Number(tx.nonce), Number(gasPrice), Number(tx.gasLimit), Address(tx.to), Number(value),
       Data(data), AccessList(accessList), Number(tx.v), Number(tx.r), Number(tx.s)]
    case Type2(value, maxFee, maxPriorityFee, data, accessList) =>
      [Number(chainId), Number(tx.nonce), Number(maxPriorityFee), Number(maxFee), Number(tx.gasLimit),
       Address(tx.to), Number(value), Data(data), AccessList(accessList), Number(tx.v), Number(tx.r), Number(tx.s)]
  }

  ghost predicate ReadsItem(rlp: Rlp, item: Item) {
    match item
    case Number(n) => rlp.number(rlp.item(item)) == Some(n)
    case Data(bytes) => rlp.data(rlp.item(item)) == Some(bytes)
    case AccessList(entries) => rlp.accessList(rlp.item(item)) == Some(entries)
  }

  lemma FittingReads(rlp: Rlp, items: seq<Item>)
    requires Lawful(rlp) && Fits(rlp, items)
    ensures forall i :: 0 <= i < |items| ==> ReadsItem(rlp, items[i])
    ensures rlp.parse(rlp.Print(items)) == Some((rlp.Items(items), |rlp.Print(items)|))
    ensures rlp.Print(items) != [] && rlp.Print(items)[0] >= 0xC0
  {
    forall i | 0 <= i < |items| ensures ReadsItem(rlp, items[i]) {
      assert ValidItem(items[i]) && |rlp.item(items[i])| < U64_RANGE;
    }
    assert rlp.Print(items) + [] == rlp.Print(items);
  }

  lemma LegacyReads(rlp: Rlp, chainId: nat, tx: SpanTx)
    requires tx.body.Legacy? && (tx.to.Some? ==> tx.to.value != [])
    requires forall i :: 0 <= i < |SignedItems(chainId, tx)| ==> ReadsItem(rlp, SignedItems(chainId, tx)[i])
    ensures ReadLegacy(rlp, rlp.Items(SignedItems(chainId, tx))) == Some(Signed(None, tx))
  {
    var items := SignedItems(chainId, tx);
    assert ReadsItem(rlp, items[0]) && ReadsItem(rlp, items[1]) && ReadsItem(rlp, items[2]) && ReadsItem(rlp, items[3])
        && ReadsItem(rlp, items[4]) && ReadsItem(rlp, items[5]) && ReadsItem(rlp, items[6]) && ReadsItem(rlp, items[7])
        && ReadsItem(rlp, items[8]);
  }

  lemma Type1Reads(rlp: Rlp, chainId: nat, tx: SpanTx)
    requires tx.body.Type1? && (tx.to.Some? ==> tx.to.value != [])
    requires forall i :: 0 <= i < |SignedItems(chainId, tx)| ==> ReadsItem(rlp, SignedItems(chainId, tx)[i])
    ensures ReadType1(rlp, rlp.Items(SignedItems(chainId, tx))) == Some(Signed(Some(chainId), tx))
  {
    var items := SignedItems(chainId, tx);
    assert ReadsItem(rlp, items[0]) && ReadsItem(rlp, items[1]) && ReadsItem(rlp, items[2]) && ReadsItem(rlp, items[3])
        && ReadsItem(rlp, items[4]) && ReadsItem(rlp, items[5]) && ReadsItem(rlp, items[6]) && ReadsItem(rlp, items[7])
        && ReadsItem(rlp, items[8]) && ReadsItem(rlp, items[9]) && ReadsItem(rlp, items[10]);
  }

  lemma Type2Reads(rlp: Rlp, chainId: nat, tx: SpanTx)
    requires tx.body.Type2? && (tx.to.Some? ==> tx.to.value != [])
    requires forall i :: 0 <= i < |SignedItems(chainId, tx)| ==> ReadsItem(rlp, SignedItems(chainId, tx)[i])
    ensures ReadType2(rlp, rlp.Items(SignedItems(chainId, tx))) == Some(Signed(Some(chainId), tx))
  {
    var items := SignedItems(chainId, tx);
    assert ReadsItem(rlp, items[0]) && ReadsItem(rlp, items[1]) && ReadsItem(rlp, items[2]) && ReadsItem(rlp, items[3])
        && ReadsItem(rlp, items[4]) && ReadsItem(rlp, items[5]) && ReadsItem(rlp, items[6]) && ReadsItem(rlp, items[7])
        && ReadsItem(rlp, items[8]) && ReadsItem(rlp, items[9]) && ReadsItem(rlp, items[10]) && ReadsItem(rlp, items[11]);
  }

  /** The serialized transaction is the list of its items, after its type. */
  lemma RawIsPrinted(rlp: Rlp, chainId: nat, tx: SpanTx)
    ensures RawOf(rlp, chainId, tx)
         == (match tx.body
             case Legacy(_, _, _) => []
             case Type1(_, _, _, _) => [1]
             case Type2(_, _, _, _, _) => [2]) + rlp.Print(SignedItems(chainId, tx))
  {
    assert [] + rlp.Print(SignedItems(chainId, tx)) == rlp.Print(SignedItems(chainId, tx));
  }

  /** A rebuilt transaction reads as the one that was signed, every field in its place. */
  lemma ReadsBackSigned(rlp: Rlp, chainId: nat, tx: SpanTx)
    requires Lawful(rlp) && Fits(rlp, SignedItems(chainId, tx)) && (tx.to.Some? ==> |tx.to.value| == 20)
    ensures ReadSigned(rlp, RawOf(rlp, chainId, tx)) == Some(Signed(if tx.body.Legacy? then None else Some(chainId), tx))
  {
    var items := SignedItems(chainId, tx);
    FittingReads(rlp, items);
    RawIsPrinted(rlp, chainId, tx);
    hide Lawful, Fits, SignedItems, ReadsItem, RawOf, ReadLegacy, ReadType1, ReadType2;
    match tx.body
    case Legacy(_, _, _) =>
      LegacyReads(rlp, chainId, tx);
      LegacyItems(chainId, tx);
    case Type1(_, _, _, _) =>
      assert RawOf(rlp, chainId, tx)[1..] == rlp.Print(items);
      Type1Reads(rlp, chainId, tx);
      LegacyItems(chainId, tx);
    case Type2(_, _, _, _, _) =>
      assert RawOf(rlp, chainId, tx)[1..] == rlp.Print(items);
      Type2Reads(rlp, chainId, tx);
      LegacyItems(chainId, tx);
  }

  lemma LegacyItems(chainId: nat, tx: SpanTx)
    ensures |SignedItems(chainId, tx)| == match tx.body case Legacy(_, _, _) => 9 case Type1(_, _, _, _) => 11 case Type2(_, _, _, _, _) => 12
  {
  }

  /**
   With RLP: whatever transactions a batcher puts into a span, the decoder hands on ones that read,
   one by one and field by field, as those that were signed.
   */
  lemma DecodedReadAsSigned(chainId: nat, txs: seq<SpanTx>, rest: Bytes)
    requires forall i :: 0 <= i < |txs| ==>
               ValidTx(Codec(), chainId, txs[i]) && Fits(Codec(), SignedItems(chainId, txs[i]))
    ensures var r := DecodeTransactions(Codec(), chainId, EncodeColumns(Codec(), ColumnsOf(chainId, txs), rest), |txs|);
            && r.Some? && |r.value.0| == |txs|
            && forall i :: 0 <= i < |txs| ==>
                 ReadSigned(Codec(), r.value.0[i]) == Some(Signed(if txs[i].body.Legacy? then None else Some(chainId), txs[i]))
  {
    hide DecodeTransactions, EncodeColumns, ColumnsOf, ReadSigned, RawOf, Lawful, Codec, SignedItems, Fits;
    RlpIsLawful();
    TransactionsRoundTrip(Codec(), chainId, txs, rest);
    forall i | 0 <= i < |txs|
      ensures ReadSigned(Codec(), RawOf(Codec(), chainId, txs[i]))
           == Some(Signed(if txs[i].body.Legacy? then None else Some(chainId), txs[i]))
    {
      ReadsBackSigned(Codec(), chainId, txs[i]);
    }
  }
}
