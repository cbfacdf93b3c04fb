/** How items travel over the bus: the provider writes them as a stream of typed elements, the client
    reads them back one element at a time.

    Reading what was written gives the same items and leaves whatever follows untouched. */
module Marshal {

  newtype int32 = x: int | -0x8000_0000 <= x < 0x8000_0000
  newtype int64 = x: int | -0x8000_0000_0000_0000 <= x < 0x8000_0000_0000_0000

  datatype Value = Text(text: string) | Number(number: int64)

  datatype Property = Property(key: string, value: Value)

  /** A provider's item; `metadata` are its properties in the order in which its map is walked. */
  datatype Item = Item(
    itemId: string, parentIds: seq<string>, name: string, etag: string, kind: int32, metadata: seq<Property>)

  datatype Kind = File | Folder | Root

  /** A client's item. */
  datatype ItemMetadata = ItemMetadata(
    itemId: string, parentIds: seq<string>, name: string, etag: string, kind: Kind, metadata: map<string, Value>)

  /** The number of kinds: the end marker of the source's enumeration. */
  const KINDS: int32 := 3

  predicate IsKind(n: int32) {
    0 <= n < KINDS
  }

  function KindOf(n: int32): Kind
    requires IsKind(n)
  {
    if n == 0 then File else if n == 1 then Folder else Root
  }

  datatype Token =
    | BeginStruct | EndStruct
    | BeginArray | EndArray
    | BeginMap | EndMap
    | BeginEntry | EndEntry
    | Str(text: string)
    | Int32(number: int32)
    | Variant(value: Value)

  // ----- writing -----

  function EncodeStrings(ids: seq<string>): seq<Token> {
    if ids == [] then [] else [Str(ids[0])] + EncodeStrings(ids[1..])
  }

  function EncodeProperties(ps: seq<Property>): seq<Token> {
    if ps == [] then []
    else [BeginEntry, Str(ps[0].key), Variant(ps[0].value), EndEntry] + EncodeProperties(ps[1..])
  }

  function EncodeItem(item: Item): seq<Token> {
    [BeginStruct, Str(item.itemId), BeginArray]
    + (EncodeStrings(item.parentIds)
       + ([EndArray, Str(item.name), Str(item.etag), Int32(item.kind), BeginMap]
          + (EncodeProperties(item.metadata) + [EndMap, EndStruct])))
  }

  function EncodeItems(items: seq<Item>): seq<Token> {
    if items == [] then [] else EncodeItem(items[0]) + EncodeItems(items[1..])
  }

  function EncodeList(items: seq<Item>): seq<Token> {
    [BeginArray] + (EncodeItems(items) + [EndArray])
  }

  lemma Regroup<T>(a: seq<T>, b: seq<T>, c: seq<T>)
    ensures (a + b) + c == a + (b + c)
  {
  }

  /** The stream being written. */
  class Writer {
    var tokens: seq<Token>

    constructor ()
      ensures tokens == []
    {
      tokens := [];
    }

    method PutStrings(ids: seq<string>)
      modifies this
      ensures tokens == old(tokens) + EncodeStrings(ids)
    {
      for i := 0 to |ids|
        invariant tokens + EncodeStrings(ids[i..]) == old(tokens) + EncodeStrings(ids)
      {
        Regroup(tokens, [Str(ids[i])], EncodeStrings(ids[i + 1..]));
        tokens := tokens + [Str(ids[i])];
      }
      assert ids[|ids|..] == [] && EncodeStrings([]) == [];
    }

    method PutProperties(ps: seq<Property>)
      modifies this
      ensures tokens == old(tokens) + EncodeProperties(ps)
    {
      for i := 0 to |ps|
        invariant tokens + EncodeProperties(ps[i..]) == old(tokens) + EncodeProperties(ps)
      {
        var p := ps[i];
        Regroup(tokens, [BeginEntry, Str(p.key), Variant(p.value), EndEntry], EncodeProperties(ps[i + 1..]));
        tokens := tokens + [BeginEntry, Str(p.key), Variant(p.value), EndEntry];
      }
      assert ps[|ps|..] == [] && EncodeProperties([]) == [];
    }

    method PutItem(item: Item)
      modifies this
      ensures tokens == old(tokens) + EncodeItem(item)
    {
      tokens := tokens + [BeginStruct, Str(item.itemId), BeginArray];
      PutStrings(item.parentIds);
      tokens := tokens + [EndArray, Str(item.name), Str(item.etag), Int32(item.kind), BeginMap];
      PutProperties(item.metadata);
      tokens := tokens + [EndMap, EndStruct];
    }

    method PutList(items: seq<Item>)
      modifies this
      ensures tokens == old(tokens) + EncodeList(items)
    {
      tokens := tokens + [BeginArray];
      label list:
      for i := 0 to |items|
        invariant tokens + EncodeItems(items[i..]) == old@list(tokens) + EncodeItems(items)
      {
        Regroup(tokens, EncodeItem(items[i]), EncodeItems(items[i + 1..]));
        PutItem(items[i]);
      }
      assert items[|items|..] == [] && EncodeItems([]) == [];
      assert tokens == old@list(tokens) + EncodeItems(items);
      tokens := tokens + [EndArray];
    }
  }

  // ----- reading -----

  /** What reading gives, and what is left of the stream. `BadKind`: the item has a kind that does not
      exist. `IllTyped`: the stream does not have the elements announced for it. */
  datatype Decoded<T> = Ok(value: T, rest: seq<Token>) | BadKind(rest: seq<Token>) | IllTyped

  function StringsFrom(read: seq<string>, ts: seq<Token>): (d: Decoded<seq<string>>)
    ensures d.Ok? ==> |d.rest| < |ts|
    ensures !d.BadKind?
    decreases |ts|
  {
    if ts == [] then IllTyped
    else if ts[0] == EndArray then Ok(read, ts[1..])
    else if ts[0].Str? then StringsFrom(read + [ts[0].text], ts[1..])
    else IllTyped
  }

  predicate StartsWithEntry(ts: seq<Token>) {
    |ts| >= 4 && ts[0] == BeginEntry && ts[1].Str? && ts[2].Variant? && ts[3] == EndEntry
  }

  function PropertiesFrom(read: map<string, Value>, ts: seq<Token>): (d: Decoded<map<string, Value>>)
    ensures d.Ok? ==> |d.rest| < |ts|
    ensures !d.BadKind?
    decreases |ts|
  {
    if ts == [] then IllTyped
    else if ts[0] == EndMap then Ok(read, ts[1..])
    else if StartsWithEntry(ts) then PropertiesFrom(read[ts[1].text := ts[2].value], ts[4..])
    else IllTyped
  }

  function DecodeProperties(md: ItemMetadata, ts: seq<Token>): (d: Decoded<ItemMetadata>)
    ensures d.Ok? ==> |d.rest| < |ts|
    ensures !d.BadKind?
  {
    match PropertiesFrom(map[], ts)
    case Ok(properties, t) =>
      if t != [] && t[0] == EndStruct then Ok(md.(metadata := properties), t[1..]) else IllTyped
    case _ => IllTyped
  }

  function DecodeFields(itemId: string, ids: seq<string>, ts: seq<Token>): (d: Decoded<ItemMetadata>)
    ensures d.Ok? ==> |d.rest| < |ts|
  {
    if |ts| >= 4 && ts[0].Str? && ts[1].Str? && ts[2].Int32? && ts[3] == BeginMap then
      if !IsKind(ts[2].number) then BadKind(ts[3..])
      else DecodeProperties(ItemMetadata(itemId, ids, ts[0].text, ts[1].text, KindOf(ts[2].number), map[]), ts[4..])
    else IllTyped
  }

  function DecodeItem(ts: seq<Token>): (d: Decoded<ItemMetadata>)
    ensures d.Ok? ==> |d.rest| < |ts|
  {
    if |ts| >= 3 && ts[0] == BeginStruct && ts[1].Str? && ts[2] == BeginArray then
      match StringsFrom([], ts[3..])
      case Ok(ids, t) => DecodeFields(ts[1].text, ids, t)
      case _ => IllTyped
    else IllTyped
  }

  /** Reading gives up at the first item of a kind that does not exist. */
  function ItemsFrom(read: seq<ItemMetadata>, ts: seq<Token>): Decoded<seq<ItemMetadata>>
    decreases |ts|
  {
    if ts == [] then IllTyped
    else if ts[0] == EndArray then Ok(read, ts[1..])
    else
      match DecodeItem(ts)
      case Ok(md, t) => ItemsFrom(read + [md], t)
      case BadKind(t) => BadKind(t)
      case IllTyped => IllTyped
  }

  function DecodeList(ts: seq<Token>): Decoded<seq<ItemMetadata>> {
    if ts != [] && ts[0] == BeginArray then ItemsFrom([], ts[1..]) else IllTyped
  }

  /** The stream being read. The bus hands over only streams that have the announced elements. */
  class Reader {
    const tokens: seq<Token>
    var pos: nat

    constructor (tokens: seq<Token>)
      ensures this.tokens == tokens && pos == 0
    {
      this.tokens, pos := tokens, 0;
    }

    function Rest(): seq<Token>
      requires pos <= |tokens|
      reads this
    {
      tokens[pos..]
    }

    method Take() returns (t: Token)
      requires pos < |tokens|
      modifies this
      ensures pos == old(pos) + 1
      ensures t == old(Rest())[0] && Rest() == old(Rest())[1..]
    {
      t := tokens[pos];
      pos := pos + 1;
    }

    method GetStrings() returns (ids: seq<string>)
      requires pos <= |tokens|
      requires |Rest()| > 0 && Rest()[0] == BeginArray && StringsFrom([], Rest()[1..]).Ok?
      modifies this
      ensures pos <= |tokens|
      ensures Ok(ids, Rest()) == StringsFrom([], old(Rest())[1..])
    {
      var t := Take();
      ids := [];
      while tokens[pos] != EndArray
        invariant pos < |tokens|
        invariant StringsFrom(ids, Rest()) == StringsFrom([], old(Rest())[1..])
        decreases |tokens| - pos
      {
        t := Take();
        ids := ids + [t.text];
      }
      t := Take();
    }

    method GetProperties() returns (properties: map<string, Value>)
      requires pos <= |tokens|
      requires |Rest()| > 0 && Rest()[0] == BeginMap && PropertiesFrom(map[], Rest()[1..]).Ok?
      modifies this
      ensures pos <= |tokens|
      ensures Ok(properties, Rest()) == PropertiesFrom(map[], old(Rest())[1..])
    {
      var t := Take();
      properties := map[];
      while tokens[pos] != EndMap
        invariant pos < |tokens|
        invariant PropertiesFrom(properties, Rest()) == PropertiesFrom(map[], old(Rest())[1..])
        decreases |tokens| - pos
      {
        ghost var before := Rest();
        t := Take();
        var key := Take();
        var value := Take();
        t := Take();
        assert Rest() == before[4..];
        properties := properties[key.text := value.value];
      }
      t := Take();
    }

    method GetItem() returns (ok: bool, md: ItemMetadata)
      requires pos <= |tokens| && !DecodeItem(Rest()).IllTyped?
      modifies this
      ensures pos <= |tokens|
      ensures DecodeItem(old(Rest())) == if ok then Ok(md, Rest()) else BadKind(Rest())
    {
      md := ItemMetadata("", [], "", "", File, map[]);
      var t := Take();
      t := Take();
      md := md.(itemId := t.text);
      var ids := GetStrings();
      md := md.(parentIds := ids);
      ghost var fields := Rest();
      var name := Take();
      var etag := Take();
      var kind := Take();
      assert Rest() == fields[3..];
      md := md.(name := name.text, etag := etag.text);
      if !IsKind(kind.number) {
        return false, md;
      }
      md := md.(kind := KindOf(kind.number));
      assert Rest()[1..] == fields[4..];
      var properties := GetProperties();
      md := md.(metadata := properties);
      t := Take();
      ok := true;
    }

    method GetList() returns (ok: bool, items: seq<ItemMetadata>)
      requires pos <= |tokens| && !DecodeList(Rest()).IllTyped?
      modifies this
      ensures pos <= |tokens|
      ensures ok ==> DecodeList(old(Rest())) == Ok(items, Rest())
      ensures !ok ==> DecodeList(old(Rest())) == BadKind(Rest())
    {
      items := [];
      var t := Take();
      while tokens[pos] != EndArray
        invariant pos < |tokens|
        invariant ItemsFrom(items, Rest()) == DecodeList(old(Rest()))
        decreases |tokens| - pos
      {
        var md;
        ok, md := GetItem();
        if !ok {
          return;
        }
        items := items + [md];
      }
      t := Take();
      ok := true;
    }
  }

  // ----- round trips -----

  /** The properties of an item as a map; a map's keys are walked once each. */
  function MapOf(read: map<string, Value>, ps: seq<Property>): map<string, Value>
    decreases |ps|
  {
    if ps == [] then read else MapOf(read[ps[0].key := ps[0].value], ps[1..])
  }

  predicate DistinctKeys(ps: seq<Property>) {
    forall i, j :: 0 <= i < j < |ps| ==> ps[i].key != ps[j].key
  }

  /** The client's item for a provider's. */
  function Described(item: Item): ItemMetadata
    requires IsKind(item.kind)
  {
    ItemMetadata(item.itemId, item.parentIds, item.name, item.etag, KindOf(item.kind), MapOf(map[], item.metadata))
  }

  predicate HasKey(ps: seq<Property>, k: string) {
    exists i :: 0 <= i < |ps| && ps[i].key == k
  }

  lemma {:induction false} MapHasKey(read: map<string, Value>, ps: seq<Property>, k: string)
    ensures k in MapOf(read, ps) <==> k in read || HasKey(ps, k)
    ensures k in read && !HasKey(ps, k) ==> MapOf(read, ps)[k] == read[k]
    decreases |ps|
  {
    if ps != [] {
      MapHasKey(read[ps[0].key := ps[0].value], ps[1..], k);
      if HasKey(ps[1..], k) {
        var i :| 0 <= i < |ps| - 1 && ps[1..][i].key == k;
        assert ps[i + 1].key == k;
      }
      assert HasKey(ps, k) ==> ps[0].key == k || HasKey(ps[1..], k) by {
        if HasKey(ps, k) && ps[0].key != k {
          var i :| 0 <= i < |ps| && ps[i].key == k;
          assert ps[1..][i - 1].key == k;
        }
      }
    }
  }

  lemma {:induction false} MapHasValue(read: map<string, Value>, ps: seq<Property>, i: nat)
    requires DistinctKeys(ps) && i < |ps|
    ensures ps[i].key in MapOf(read, ps) && MapOf(read, ps)[ps[i].key] == ps[i].value
    decreases |ps|
  {
    var next := read[ps[0].key := ps[0].value];
    if i == 0 {
      MapHasKey(next, ps[1..], ps[0].key);
    } else {
      MapHasValue(next, ps[1..], i - 1);
    }
  }

  /** A map's keys are distinct, so the client's map has exactly the provider's properties. */
  lemma DescribedHasProperties(item: Item)
    requires IsKind(item.kind) && DistinctKeys(item.metadata)
    ensures forall k :: k in Described(item).metadata <==> HasKey(item.metadata, k)
    ensures forall i :: 0 <= i < |item.metadata| ==>
              var p := item.metadata[i];
              p.key in Described(item).metadata && Described(item).metadata[p.key] == p.value
  {
    forall k ensures k in Described(item).metadata <==> HasKey(item.metadata, k) {
      MapHasKey(map[], item.metadata, k);
    }
    forall i | 0 <= i < |item.metadata|
      ensures item.metadata[i].key in Described(item).metadata
      ensures Described(item).metadata[item.metadata[i].key] == item.metadata[i].value
    {
      MapHasValue(map[], item.metadata, i);
    }
  }

  lemma {:induction false} StringsRoundTrip(read: seq<string>, ids: seq<string>, rest: seq<Token>)
    ensures StringsFrom(read, EncodeStrings(ids) + ([EndArray] + rest)) == Ok(read + ids, rest)
    decreases |ids|
  {
    var ts := EncodeStrings(ids) + ([EndArray] + rest);
    if ids == [] {
      assert ts[1..] == rest && read + ids == read;
    } else {
      assert ts[1..] == EncodeStrings(ids[1..]) + ([EndArray] + rest);
      StringsRoundTrip(read + [ids[0]], ids[1..], rest);
      assert (read + [ids[0]]) + ids[1..] == read + ids;
    }
  }

  lemma {:induction false} PropertiesRoundTrip(read: map<string, Value>, ps: seq<Property>, rest: seq<Token>)
    ensures PropertiesFrom(read, EncodeProperties(ps) + ([EndMap] + rest)) == Ok(MapOf(read, ps), rest)
    decreases |ps|
  {
    var ts := EncodeProperties(ps) + ([EndMap] + rest);
    if ps == [] {
      assert ts[0] == EndMap && ts[1..] == rest;
    } else {
      assert ts[0] == BeginEntry && ts[1] == Str(ps[0].key) && ts[2] == Variant(ps[0].value) && ts[3] == EndEntry;
      assert ts[4..] == EncodeProperties(ps[1..]) + ([EndMap] + rest);
      PropertiesRoundTrip(read[ps[0].key := ps[0].value], ps[1..], rest);
    }
  }

  /** The end of an item's encoding, from its name on, followed by `rest`. */
  function Tail(item: Item, rest: seq<Token>): seq<Token> {
    [Str(item.name), Str(item.etag), Int32(item.kind), BeginMap]
    + (EncodeProperties(item.metadata) + ([EndMap] + ([EndStruct] + rest)))
  }

  lemma Shape(item: Item, rest: seq<Token>)
    ensures EncodeItem(item) + rest
         == [BeginStruct, Str(item.itemId), BeginArray]
            + (EncodeStrings(item.parentIds) + ([EndArray] + Tail(item, rest)))
  {
  }

  lemma TailRoundTrip(item: Item, rest: seq<Token>)
    ensures DecodeFields(item.itemId, item.parentIds, Tail(item, rest))
         == if IsKind(item.kind) then Ok(Described(item), rest) else BadKind(Tail(item, rest)[3..])
  {
    assert Tail(item, rest)[4..] == EncodeProperties(item.metadata) + ([EndMap] + ([EndStruct] + rest));
    PropertiesRoundTrip(map[], item.metadata, [EndStruct] + rest);
    assert ([EndStruct] + rest)[1..] == rest;
  }

  /** Reading a written item consumes exactly what was written and gives the item back, if and only if
      its kind exists. */
  lemma ItemRoundTrip(item: Item, rest: seq<Token>)
    ensures DecodeItem(EncodeItem(item) + rest)
         == if IsKind(item.kind) then Ok(Described(item), rest) else BadKind(Tail(item, rest)[3..])
  {
    var ts := EncodeItem(item) + rest;
    Shape(item, rest);
    assert |ts| >= 3 && ts[0] == BeginStruct && ts[1] == Str(item.itemId) && ts[2] == BeginArray;
    assert ts[3..] == EncodeStrings(item.parentIds) + ([EndArray] + Tail(item, rest));
    StringsRoundTrip([], item.parentIds, Tail(item, rest));
    assert [] + item.parentIds == item.parentIds;
    TailRoundTrip(item, rest);
  }

  predicate AllKinds(items: seq<Item>) {
    forall i :: 0 <= i < |items| ==> IsKind(items[i].kind)
  }

  function DescribedAll(items: seq<Item>): seq<ItemMetadata>
    requires AllKinds(items)
  {
    seq(|items|, i requires 0 <= i < |items| => Described(items[i]))
  }

  /** One item more on the stream. */
  lemma FirstItem(read: seq<ItemMetadata>, item: Item, more: seq<Token>)
    ensures var d := ItemsFrom(read, EncodeItem(item) + more);
            if IsKind(item.kind) then d == ItemsFrom(read + [Described(item)], more) else d.BadKind?
  {
    var ts := EncodeItem(item) + more;
    ItemRoundTrip(item, more);
    assert ts[0] == BeginStruct;
  }

  lemma {:induction false} ItemsRoundTrip(read: seq<ItemMetadata>, items: seq<Item>, rest: seq<Token>)
    ensures var d := ItemsFrom(read, EncodeItems(items) + ([EndArray] + rest));
            if AllKinds(items) then d == Ok(read + DescribedAll(items), rest) else d.BadKind?
    decreases |items|
  {
    if items == [] {
      assert (EncodeItems(items) + ([EndArray] + rest))[1..] == rest;
      assert read + DescribedAll(items) == read;
    } else {
      var more := EncodeItems(items[1..]) + ([EndArray] + rest);
      Regroup(EncodeItem(items[0]), EncodeItems(items[1..]), [EndArray] + rest);
      FirstItem(read, items[0], more);
      if IsKind(items[0].kind) {
        AllKindsOfRest(items);
        ItemsRoundTrip(read + [Described(items[0])], items[1..], rest);
        if AllKinds(items) {
          DescribedAllOfRest(read, items);
        }
      }
    }
  }

  lemma AllKindsOfRest(items: seq<Item>)
    requires items != [] && IsKind(items[0].kind)
    ensures AllKinds(items) <==> AllKinds(items[1..])
  {
    if AllKinds(items[1..]) {
      assert forall i :: 1 <= i < |items| ==> items[i] == items[1..][i - 1];
    }
  }

  lemma DescribedAllOfRest(read: seq<ItemMetadata>, items: seq<Item>)
    requires items != [] && AllKinds(items)
    ensures (read + [Described(items[0])]) + DescribedAll(items[1..]) == read + DescribedAll(items)
  {
  }

  /** The round trip of the protocol: any list of items comes back as it was, with what follows it on
      the stream left untouched, if and only if all kinds exist. */
  lemma ListRoundTrip(items: seq<Item>, rest: seq<Token>)
    ensures var d := DecodeList(EncodeList(items) + rest);
            if AllKinds(items)
            then d == Ok(DescribedAll(items), rest)
            else d.BadKind?
  {
    var ts := EncodeList(items) + rest;
    assert ts[1..] == EncodeItems(items) + ([EndArray] + rest);
    ItemsRoundTrip([], items, rest);
    assert AllKinds(items) ==> [] + DescribedAll(items) == DescribedAll(items);
  }

  /** What the client has after the round trip, field by field. */
  lemma ListArrives(items: seq<Item>, rest: seq<Token>, i: nat)
    requires i < |items| && AllKinds(items) && forall k :: 0 <= k < |items| ==> DistinctKeys(items[k].metadata)
    ensures DecodeList(EncodeList(items) + rest).Ok? && |DecodeList(EncodeList(items) + rest).value| == |items|
    ensures var got, sent := DecodeList(EncodeList(items) + rest).value[i], items[i];
            && got.itemId == sent.itemId && got.parentIds == sent.parentIds
            && got.name == sent.name && got.etag == sent.etag
            && (got.kind == File <==> sent.kind == 0)
            && (got.kind == Folder <==> sent.kind == 1)
            && (got.kind == Root <==> sent.kind == 2)
            && (forall k :: k in got.metadata <==> HasKey(sent.metadata, k))
            && (forall p :: p in sent.metadata ==> p.key in got.metadata && got.metadata[p.key] == p.value)
  {
    ListRoundTrip(items, rest);
    DescribedHasProperties(items[i]);
    forall p | p in items[i].metadata
      ensures p.key in Described(items[i]).metadata && Described(items[i]).metadata[p.key] == p.value
    {
      var k :| 0 <= k < |items[i].metadata| && items[i].metadata[k] == p;
    }
  }

  // ----- the order on the wire -----

  lemma {:induction false} StringsOnWire(ids: seq<string>)
    ensures |EncodeStrings(ids)| == |ids|
    ensures forall k :: 0 <= k < |ids| ==> EncodeStrings(ids)[k] == Str(ids[k])
  {
    if ids != [] {
      StringsOnWire(ids[1..]);
    }
  }

  lemma {:induction false} PropertiesOnWire(ps: seq<Property>, k: nat)
    requires k < |ps|
    ensures |EncodeProperties(ps)| == 4 * |ps|
    ensures EncodeProperties(ps)[4 * k..4 * k + 4] == [BeginEntry, Str(ps[k].key), Variant(ps[k].value), EndEntry]
    decreases |ps|
  {
    if |ps| > 1 {
      PropertiesOnWire(ps[1..], if k == 0 then 0 else k - 1);
    }
    if k == 0 {
      assert EncodeProperties(ps)[0..4] == [BeginEntry, Str(ps[0].key), Variant(ps[0].value), EndEntry];
    } else {
      var rest := EncodeProperties(ps[1..]);
      assert EncodeProperties(ps)[4 * k..4 * k + 4] == rest[4 * (k - 1)..4 * (k - 1) + 4];
    }
  }

  lemma PropertiesLength(ps: seq<Property>)
    ensures |EncodeProperties(ps)| == 4 * |ps|
  {
    if ps != [] {
      PropertiesOnWire(ps, 0);
    }
  }

  /** An item on the wire: its id, its parents' ids, its name, its ETag, its kind, and its properties. */
  lemma ItemOnWire(item: Item)
    ensures var e, n, m := EncodeItem(item), |item.parentIds|, |item.metadata|;
            && |e| == 10 + n + 4 * m
            && e[..3] == [BeginStruct, Str(item.itemId), BeginArray]
            && (forall k :: 0 <= k < n ==> e[3 + k] == Str(item.parentIds[k]))
            && e[3 + n..8 + n] == [EndArray, Str(item.name), Str(item.etag), Int32(item.kind), BeginMap]
            && e[8 + n..8 + n + 4 * m] == EncodeProperties(item.metadata)
            && e[8 + n + 4 * m..] == [EndMap, EndStruct]
  {
    StringsOnWire(item.parentIds);
    PropertiesLength(item.metadata);
  }

  /** Writing and then reading, as the two programs do it. */
  method SendAndReceive(items: seq<Item>) returns (ok: bool, received: seq<ItemMetadata>)
    ensures ok <==> AllKinds(items)
    ensures ok ==> received == DescribedAll(items)
  {
    var w := new Writer();
    w.PutList(items);
    var r := new Reader(w.tokens);
    ListRoundTrip(items, []);
    assert w.tokens == EncodeList(items) + [];
    ok, received := r.GetList();
  }
}
