/**
 RLP, the serialization of appendix B of the Ethereum yellow paper, for the items of span
 transactions. It meets what `SpanCodec` asks of a codec.
 */
module RlpCodec {
  import opened Base
  import opened Types
  import SpanBlocks
  import opened Wire
  import opened SpanCodec

  // --------------------------------------------------------------------------- headers

  /** A number in big-endian form without leading zeros. */
  function Minimal(n: nat): Bytes {
    if n == 0 then [] else Minimal(n / 256) + [ToByte(n % 256)]
  }

  lemma {:induction false} MinimalRoundTrip(n: nat)
    ensures FromBigEndian(Minimal(n)) == n
  {
    if n > 0 {
      MinimalRoundTrip(n / 256);
      NatRoundTrip(n % 256);
      assert Minimal(n)[..|Minimal(n)| - 1] == Minimal(n / 256);
    }
  }

  lemma {:induction false} MinimalLength(n: nat, k: nat)
    requires n < Pow256(k)
    ensures |Minimal(n)| <= k && (n > 0 ==> Minimal(n) != [])
  {
    if n > 0 {
      MinimalLength(n / 256, k - 1);
    }
  }

  lemma LengthsFit(n: nat)
    requires n < U64_RANGE
    ensures |Minimal(n)| <= 8
  {
    assert Pow256(8) == U64_RANGE by {
      assert Pow256(4) == 256 * 256 * 256 * 256;
      assert Pow256(8) == 256 * (256 * (256 * (256 * Pow256(4))));
    }
    MinimalLength(n, 8);
  }

  const STRING: nat := 0x80
  const LIST: nat := 0xC0

  /** What precedes a payload: its length, on the first byte if it is short. */
  function Header(base: nat, length: nat): Bytes {
    if length < 56 then [ToByte((base + length) % 256)]
    else [ToByte((base + 55 + |Minimal(length)|) % 256)] + Minimal(length)
  }

  /** Whether a list is in front, and the lengths of its header and payload. */
  function ReadHeader(data: Bytes): Option<(bool, nat, nat)> {
    if data == [] then None
    else
      var first := data[0] as nat;
      if first < STRING then Some((false, 0, 1))
      else
        var base := if first < LIST then STRING else LIST;
        if first < base + 56 then Some((base == LIST, 1, first - base))
        else
          var (length, _) :- TakeData(data[1..], first - base - 55);
          Some((base == LIST, 1 + |length|, FromBigEndian(length)))
  }

  lemma ReadsShort(base: nat, length: nat, rest: Bytes)
    requires base in {STRING, LIST} && length < 56
    ensures ReadHeader(Header(base, length) + rest) == Some((base == LIST, 1, length))
    ensures Header(base, length)[0] as nat >= base
  {
    NatRoundTrip(base + length);
  }

  lemma ReadsLong(base: nat, length: nat, rest: Bytes)
    requires base in {STRING, LIST} && 56 <= length && 0 < |Minimal(length)| <= 8
    ensures ReadHeader(Header(base, length) + rest) == Some((base == LIST, |Header(base, length)|, length))
    ensures Header(base, length)[0] as nat >= base
  {
    hide Minimal, FromBigEndian;
    var bytes := Minimal(length);
    NatRoundTrip(base + 55 + |bytes|);
    var data := Header(base, length) + rest;
    assert data[0] as nat == base + 55 + |bytes| && data[1..] == bytes + rest;
    hide Header;
    TakeConcat(bytes, rest);
    MinimalRoundTrip(length);
  }

  lemma ReadsHeader(base: nat, length: nat, rest: Bytes)
    requires base in {STRING, LIST} && length < U64_RANGE
    ensures ReadHeader(Header(base, length) + rest) == Some((base == LIST, |Header(base, length)|, length))
    ensures Header(base, length)[0] as nat >= base
  {
    if length < 56 {
      ReadsShort(base, length, rest);
    } else {
      LengthsFit(length);
      ReadsLong(base, length, rest);
    }
  }

  // ------------------------------------------------------------------------ strings, lists

  function Text(bytes: Bytes): Bytes {
    if |bytes| == 1 && bytes[0] as nat < STRING then bytes else Header(STRING, |bytes|) + bytes
  }

  function Concat(items: seq<Bytes>): Bytes {
    if items == [] then [] else items[0] + Concat(items[1..])
  }

  function List(items: seq<Bytes>): Bytes { Header(LIST, |Concat(items)|) + Concat(items) }

  function TakeItem(data: Bytes): Option<(Bytes, Bytes)> {
    var (_, header, payload) :- ReadHeader(data);
    TakeData(data, header + payload)
  }

  /** What a string holds. */
  function Content(item: Bytes): Option<Bytes> {
    var (isList, header, payload) :- ReadHeader(item);
    if isList || |item| != header + payload then None else Some(item[header..])
  }

  /** The items one after the other. */
  function Split(data: Bytes): Option<seq<Bytes>>
    decreases |data|
  {
    if data == [] then Some([])
    else
      var (item, rest) :- TakeItem(data);
      if item == [] then None
      else
        var items :- Split(rest);
        Some([item] + items)
  }

  /** The items of the list in front, and the length it takes. */
  function Parse(data: Bytes): Option<(seq<Bytes>, nat)> {
    var (isList, header, payload) :- ReadHeader(data);
    if !isList || |data| < header + payload then None
    else
      var items :- Split(data[header..header + payload]);
      Some((items, header + payload))
  }

  /** The item tells where it ends. */
  ghost predicate Framed(item: Bytes) {
    item != [] && forall rest: Bytes :: TakeItem(item + rest) == Some((item, rest))
  }

  lemma TextFramed(bytes: Bytes)
    requires |Text(bytes)| < U64_RANGE
    ensures Framed(Text(bytes)) && Content(Text(bytes)) == Some(bytes)
  {
    var item := Text(bytes);
    forall rest: Bytes ensures TakeItem(item + rest) == Some((item, rest)) {
      TextReads(bytes, rest);
      TakeConcat(item, rest);
    }
    TextReads(bytes, []);
    assert item + [] == item;
  }

  lemma TextReads(bytes: Bytes, rest: Bytes)
    requires |Text(bytes)| < U64_RANGE
    ensures Text(bytes) != []
    ensures var header := |Text(bytes)| - |bytes|;
            ReadHeader(Text(bytes) + rest) == Some((false, header, |bytes|)) && Text(bytes)[header..] == bytes
  {
    if !(|bytes| == 1 && bytes[0] as nat < STRING) {
      ReadsHeader(STRING, |bytes|, bytes + rest);
      assert Text(bytes) + rest == Header(STRING, |bytes|) + (bytes + rest);
    }
  }

  lemma ListReads(items: seq<Bytes>, rest: Bytes)
    requires |List(items)| < U64_RANGE
    ensures List(items) != [] && List(items)[0] >= 0xC0
    ensures var header := |List(items)| - |Concat(items)|;
            && ReadHeader(List(items) + rest) == Some((true, header, |Concat(items)|))
            && (List(items) + rest)[header..|List(items)|] == Concat(items)
  {
    ReadsHeader(LIST, |Concat(items)|, Concat(items) + rest);
    assert List(items) + rest == Header(LIST, |Concat(items)|) + (Concat(items) + rest);
  }

  lemma ListFramed(items: seq<Bytes>)
    requires |List(items)| < U64_RANGE
    ensures Framed(List(items))
  {
    var list := List(items);
    ListReads(items, []);
    forall rest: Bytes ensures TakeItem(list + rest) == Some((list, rest)) {
      ListReads(items, rest);
      TakeConcat(list, rest);
    }
  }

  lemma {:induction false} SplitConcat(items: seq<Bytes>)
    requires forall i :: 0 <= i < |items| ==> Framed(items[i])
    ensures Split(Concat(items)) == Some(items)
  {
    if items != [] {
      SplitConcat(items[1..]);
      assert Framed(items[0]);
      assert TakeItem(items[0] + Concat(items[1..])) == Some((items[0], Concat(items[1..])));
      assert [items[0]] + items[1..] == items;
    }
  }

  /** Parsing undoes printing, whatever follows. */
  lemma ParseList(items: seq<Bytes>, rest: Bytes)
    requires |List(items)| < U64_RANGE && forall i :: 0 <= i < |items| ==> Framed(items[i])
    ensures Parse(List(items) + rest) == Some((items, |List(items)|))
  {
    hide ReadHeader, Split, Concat, List, Framed;
    ListReads(items, rest);
    SplitConcat(items);
  }

  /** An item is no longer than the list it is in. */
  lemma {:induction false} ItemInList(items: seq<Bytes>, i: nat)
    requires i < |items|
    ensures |items[i]| <= |Concat(items)| < |List(items)|
    decreases |items|
  {
    if i > 0 {
      ItemInList(items[1..], i - 1);
    }
  }

  // ------------------------------------------------------------------------ access lists

  function Texts(strings: seq<Bytes>): seq<Bytes> {
    seq(|strings|, i requires 0 <= i < |strings| => Text(strings[i]))
  }

  function PrintEntry(e: AccessEntry): Bytes { List([Text(e.address), List(Texts(e.keys))]) }

  function PrintEntries(entries: seq<AccessEntry>): seq<Bytes> {
    seq(|entries|, i requires 0 <= i < |entries| => PrintEntry(entries[i]))
  }

  function ReadAll<T>(read: Bytes -> Option<T>, items: seq<Bytes>): Option<seq<T>> {
    if items == [] then Some([])
    else
      var first :- read(items[0]);
      var others :- ReadAll(read, items[1..]);
      Some([first] + others)
  }

  lemma {:induction false} ReadsAll<T>(read: Bytes -> Option<T>, items: seq<Bytes>, values: seq<T>)
    requires |items| == |values| && forall i :: 0 <= i < |items| ==> read(items[i]) == Some(values[i])
    ensures ReadAll(read, items) == Some(values)
  {
    if items != [] {
      assert read(items[0]) == Some(values[0]);
      forall i | 0 <= i < |items| - 1 ensures read(items[1..][i]) == Some(values[1..][i]) {
        assert read(items[i + 1]) == Some(values[i + 1]);
      }
      ReadsAll(read, items[1..], values[1..]);
      assert [values[0]] + values[1..] == values;
    }
  }

  function ReadStrings(item: Bytes): Option<seq<Bytes>> {
    var (items, _) :- Parse(item);
    ReadAll(Content, items)
  }

  function ReadEntry(item: Bytes): Option<AccessEntry> {
    var (items, _) :- Parse(item);
    if |items| != 2 then None
    else
      var address :- Content(items[0]);
      var keys :- ReadStrings(items[1]);
      Some(AccessEntry(address, keys))
  }

  function ReadEntries(item: Bytes): Option<seq<AccessEntry>> {
    var (items, _) :- Parse(item);
    ReadAll(ReadEntry, items)
  }

  lemma StringsRoundTrip(strings: seq<Bytes>)
    requires |List(Texts(strings))| < U64_RANGE
    ensures ReadStrings(List(Texts(strings))) == Some(strings)
  {
    var items := Texts(strings);
    forall i | 0 <= i < |items| ensures Framed(items[i]) && Content(items[i]) == Some(strings[i]) {
      ItemInList(items, i);
      TextFramed(strings[i]);
    }
    ParseList(items, []);
    assert List(items) + [] == List(items);
    ReadsAll(Content, items, strings);
  }

  lemma EntryRoundTrip(e: AccessEntry)
    requires |PrintEntry(e)| < U64_RANGE
    ensures Framed(PrintEntry(e)) && ReadEntry(PrintEntry(e)) == Some(e)
  {
    var items := [Text(e.address), List(Texts(e.keys))];
    ItemInList(items, 0);
    ItemInList(items, 1);
    TextFramed(e.address);
    ListFramed(Texts(e.keys));
    StringsRoundTrip(e.keys);
    ListFramed(items);
    ParseList(items, []);
    assert List(items) + [] == List(items);
  }

  lemma EntriesRoundTrip(entries: seq<AccessEntry>)
    requires |List(PrintEntries(entries))| < U64_RANGE
    ensures ReadEntries(List(PrintEntries(entries))) == Some(entries)
  {
    var items := PrintEntries(entries);
    forall i | 0 <= i < |items| ensures Framed(items[i]) && ReadEntry(items[i]) == Some(entries[i]) {
      ItemInList(items, i);
      EntryRoundTrip(entries[i]);
    }
    ParseList(items, []);
    assert List(items) + [] == List(items);
    ReadsAll(ReadEntry, items, entries);
  }

  // --------------------------------------------------------------------------- the codec

  function PrintItem(item: Item): Bytes {
    match item
    case Number(n) => Text(Minimal(n))
    case Data(bytes) => Text(bytes)
    case AccessList(entries) => List(PrintEntries(entries))
  }

  function ReadNumber(item: Bytes): Option<nat> {
    var bytes :- Content(item);
    Some(FromBigEndian(bytes))
  }

  function Codec(): Rlp { Rlp(PrintItem, List, Parse, ReadNumber, Content, ReadEntries) }

  lemma ItemFramed(item: Item)
    requires |PrintItem(item)| < U64_RANGE
    ensures Framed(PrintItem(item))
  {
    match item
    case Number(n) => TextFramed(Minimal(n));
    case Data(bytes) => TextFramed(bytes);
    case AccessList(entries) => ListFramed(PrintEntries(entries));
  }

  lemma NumberRoundTrip(n: nat)
    requires n < Pow256(32)
    ensures ReadNumber(PrintItem(Number(n))) == Some(n)
  {
    MinimalLength(n, 32);
    TextFramed(Minimal(n));
    MinimalRoundTrip(n);
  }

  /** RLP is a codec as the span encoding needs it. */
  lemma RlpIsLawful()
    ensures Lawful(Codec())
  {
    var rlp := Codec();
    forall items, rest | Fits(rlp, items)
      ensures rlp.parse(rlp.Print(items) + rest) == Some((rlp.Items(items), |rlp.Print(items)|))
    {
      PrintParses(items, rest);
    }
    forall items | Fits(rlp, items) ensures rlp.Print(items) != [] && rlp.Print(items)[0] >= 0xC0 {
      ListReads(rlp.Items(items), []);
    }
    forall n: nat | n < Pow256(32) ensures rlp.number(rlp.item(Number(n))) == Some(n) {
      NumberRoundTrip(n);
    }
    forall bytes | |rlp.item(Data(bytes))| < U64_RANGE ensures rlp.data(rlp.item(Data(bytes))) == Some(bytes) {
      TextFramed(bytes);
    }
    forall entries | ValidItem(AccessList(entries)) && |rlp.item(AccessList(entries))| < U64_RANGE
      ensures rlp.accessList(rlp.item(AccessList(entries))) == Some(entries)
    {
      EntriesRoundTrip(entries);
    }
  }

  lemma PrintParses(items: seq<Item>, rest: Bytes)
    requires Fits(Codec(), items)
    ensures Parse(Codec().Print(items) + rest) == Some((Codec().Items(items), |Codec().Print(items)|))
  {
    var printed := Codec().Items(items);
    forall i | 0 <= i < |printed| ensures Framed(printed[i]) {
      ItemFramed(items[i]);
    }
    ParseList(printed, rest);
  }

  /** With RLP itself, every span batch of signed transactions survives encoding, whatever follows it. */
  lemma SpansSurvive(chainId: nat, b: SpanBatch, txs: seq<SpanTx>, rest: Bytes)
    requires forall i :: 0 <= i < |txs| ==> ValidTx(Codec(), chainId, txs[i])
    requires |b.originBits| == |b.blockTxCounts| == b.blockCount && SpanBlocks.Sum(b.blockTxCounts) == |txs|
    requires |b.parentCheck| == |b.l1OriginCheck| == 20
    requires b.transactions == RawTransactions(Codec(), chainId, txs)
    ensures DecodeSpan(Codec(), chainId, EncodeSpan(Codec(), chainId, b, txs, rest), b.l1InclusionBlock) == Some(b)
  {
    RlpIsLawful();
    SpanRoundTrip(Codec(), chainId, b, txs, rest);
  }
}
