/** Exactly which messages are written and which bytes are read, said of the format and not of the
    code: what may be in a message, and what bytes mean. */
module MessageExact {
  import opened Wrappers
  import opened Bytes
  import opened MessageWire

  // ----- writing ---------------------------------------------------------------------------

  // An item that can be sent: encodable text, a dict, bytes, a bytearray or a tensor.
  predicate Writable<T>(c: Codec<T>, item: Item<T>) {
    match item
    case Text(t) => c.encode(t).Some?
    case Value(j) => j.JObj?
    case Raw(_) => true
    case RawArray(_) => true
    case Tensor(_) => true
    case Unpacked(_) => false
  }

  ghost predicate AllWritable<T>(c: Codec<T>, items: seq<Item<T>>) {
    forall i :: 0 <= i < |items| ==> Writable(c, items[i])
  }

  lemma BodyIff<T>(c: Codec<T>, item: Item<T>)
    ensures Body(c, item).Ok? <==> Writable(c, item)
    ensures Body(c, item).Err? ==> Body(c, item).error == if item.Text? then Unencodable else UnknownItem
  {
  }

  lemma LayoutIff<T>(c: Codec<T>, items: seq<Item<T>>)
    ensures LayoutOf(c, items).Ok? <==> AllWritable(c, items)
  {
    LaidOutIff(c, items);
    forall i | 0 <= i < |items|
      ensures Body(c, items[i]).Ok? <==> Writable(c, items[i])
    {
      BodyIff(c, items[i]);
    }
  }

  // The metadata of a message, which for a list holds the block table of its layout.
  function MetaOf<T>(c: Codec<T>, m: Message<T>): Option<Json> {
    match m
    case Whole(b) => Some(WholeMeta("bytes", |b|))
    case WholeArray(b) => Some(WholeMeta("bytearray", |b|))
    case List(items) =>
      var l := LayoutOf(c, items);
      if l.Ok? then Some(ListMeta(|items|, l.value.blocks)) else None
    case Other(_) => None
  }

  // A message can be sent: bytes, a bytearray, or a list whose items all can.
  ghost predicate Sendable<T>(c: Codec<T>, m: Message<T>) {
    match m
    case Whole(_) => true
    case WholeArray(_) => true
    case List(items) => AllWritable(c, items)
    case Other(_) => false
  }

  // A message is written if and only if it can be sent and its metadata is shorter than 2^32 bytes.
  lemma WrittenIff<T>(c: Codec<T>, m: Message<T>)
    ensures MetaOf(c, m).Some? <==> Sendable(c, m)
    ensures Serialized(c, m).Ok? <==> Sendable(c, m) && |c.dumps(MetaOf(c, m).value)| < U32_LIMIT
    ensures Sendable(c, m) && |c.dumps(MetaOf(c, m).value)| >= U32_LIMIT ==> Serialized(c, m) == Err(TooLong)
    ensures m.Other? ==> Serialized(c, m) == Err(UnknownItem)
  {
    if m.List? { LayoutIff(c, m.items); }
  }

  // A list that cannot be sent fails with the error of its first bad item: text that cannot be
  // encoded, or something unknown.
  lemma FirstBadItem<T>(c: Codec<T>, items: seq<Item<T>>, i: nat)
    requires i < |items| && !Writable(c, items[i]) && AllWritable(c, items[..i])
    ensures Serialized(c, List(items)) == Err(if items[i].Text? then Unencodable else UnknownItem)
  {
    LayoutIff(c, items[..i]);
    BodyIff(c, items[i]);
    assert items[..i + 1][..i] == items[..i];
    FirstFailureDecides(c, items, i + 1);
  }

  // The name of an item's type in the format.
  function NameOf<T>(item: Item<T>): string {
    match item
    case Text(_) => "str"
    case Value(_) => "dict"
    case Raw(_) => "bytes"
    case RawArray(_) => "bytearray"
    case Tensor(_) => "tensor"
    case Unpacked(_) => "msgpack"
  }

  // A block says a type, a size and an offset, and nothing else.
  predicate Says(j: Json, name: string, size: nat, offset: nat) {
    j == JObj(map["type" := JStr(name), "size" := JNum(size), "offset" := JNum(offset)])
  }

  // The metadata of bytes names their type and one raw block over all of them; that of a list says
  // "list", the number of items, and a block for each, which says where its bytes are.
  lemma MetaSays<T>(c: Codec<T>, m: Message<T>)
    requires Sendable(c, m)
    ensures MetaOf(c, m).Some? && MetaOf(c, m).value.JObj?
    ensures var fields := MetaOf(c, m).value.fields;
            match m
            case Whole(b) => WholeSays(fields, "bytes", |b|)
            case WholeArray(b) => WholeSays(fields, "bytearray", |b|)
            case List(items) => ListSays(c, fields, items)
            case Other(_) => true
  {
    if m.List? { ListTable(c, m.items); }
  }

  lemma ListTable<T>(c: Codec<T>, items: seq<Item<T>>)
    requires AllWritable(c, items)
    ensures LayoutOf(c, items).Ok? && TableSays(c, LayoutOf(c, items).value.blocks, items)
  {
    LayoutIff(c, items);
    LayoutLength(c, items);
    var blocks := LayoutOf(c, items).value.blocks;
    forall i | 0 <= i < |items|
      ensures BlockSays(c, blocks[i], items[i])
    {
      BlocksTile(c, items, i);
      assert Says(blocks[i], NameOf(items[i]), |Body(c, items[i]).value|, Start(c, items, i));
    }
  }

  ghost predicate BlockSays<T>(c: Codec<T>, j: Json, item: Item<T>) {
    Body(c, item).Ok? && exists start :: Says(j, NameOf(item), |Body(c, item).value|, start)
  }

  ghost predicate TableSays<T>(c: Codec<T>, blocks: seq<Json>, items: seq<Item<T>>) {
    |blocks| == |items| && forall i :: 0 <= i < |items| ==> BlockSays(c, blocks[i], items[i])
  }

  predicate WholeSays(fields: map<string, Json>, name: string, size: nat) {
    && fields.Keys == {"type", "blocks"} && fields["type"] == JStr(name)
    && fields["blocks"].JArr? && |fields["blocks"].items| == 1 && Says(fields["blocks"].items[0], "raw", size, 0)
  }

  ghost predicate ListSays<T>(c: Codec<T>, fields: map<string, Json>, items: seq<Item<T>>) {
    && fields.Keys == {"type", "length", "blocks"} && fields["type"] == JStr("list")
    && fields["length"] == JNum(|items|) && fields["blocks"].JArr? && TableSays(c, fields["blocks"].items, items)
  }

  // ----- reading ---------------------------------------------------------------------------

  // The text of the metadata and the data area, as they stand in the bytes.
  ghost predicate Frames(data: seq<Byte>, text: seq<Byte>, area: seq<Byte>) {
    |text| < U32_LIMIT && data == PackU32(|text|) + text + area
  }

  // The bytes of an item, by the type its block names.
  ghost predicate BytesMean<T>(c: Codec<T>, kind: Json, body: seq<Byte>, item: Item<T>) {
    match item
    case Text(t) => kind == JStr("str") && c.decode(body) == Some(t)
    case Value(j) => kind == JStr("dict") && c.loads(body) == Some(j)
    case Raw(b) => kind == JStr("bytes") && body == b
    case RawArray(b) => kind == JStr("bytearray") && body == b
    case Tensor(t) => kind == JStr("tensor") && c.load(body) == Some(t)
    case Unpacked(v) => kind == JStr("msgpack") && c.unpack(body) == Some(v)
  }

  // A block is a dict with a type and two numbers that give a range inside the data area, and the
  // bytes there are the item's.
  ghost predicate BlockMeans<T>(c: Codec<T>, j: Json, area: seq<Byte>, item: Item<T>) {
    && j.JObj? && "type" in j.fields && "size" in j.fields && "offset" in j.fields
    && var size, offset := c.toInt(j.fields["size"]), c.toInt(j.fields["offset"]);
       && size.Some? && offset.Some? && size.value >= 0 && offset.value >= 0 && offset.value + size.value <= |area|
       && BytesMean(c, j.fields["type"], area[offset.value..offset.value + size.value], item)
  }

  ghost predicate TableMeans<T>(c: Codec<T>, blocks: seq<Json>, area: seq<Byte>, items: seq<Item<T>>) {
    |items| == |blocks| && forall i :: 0 <= i < |blocks| ==> BlockMeans(c, blocks[i], area, items[i])
  }

  ghost predicate MetaMeans<T>(c: Codec<T>, meta: Json, area: seq<Byte>, m: Message<T>) {
    && meta.JObj? && "type" in meta.fields
    && var kind := meta.fields["type"];
       match m
       case Whole(b) => kind == JStr("bytes") && b == area
       case WholeArray(b) => kind == JStr("bytearray") && b == area
       case List(items) =>
         && kind == JStr("list") && "blocks" in meta.fields && meta.fields["blocks"].JArr?
         && TableMeans(c, meta.fields["blocks"].items, area, items)
       case Other(v) => kind == JStr("msgpack") && c.unpack(area) == Some(v)
  }

  lemma BodyMeans<T>(c: Codec<T>, kind: Json, body: seq<Byte>, item: Item<T>)
    ensures ReadBody(c, kind, body) == Ok(item) <==> BytesMean(c, kind, body, item)
    ensures ReadBody(c, kind, body).Err? ==> ReadBody(c, kind, body).error == Malformed
  {
  }

  lemma BlockIff<T>(c: Codec<T>, j: Json, area: seq<Byte>, item: Item<T>)
    ensures ReadBlock(c, j, area) == Ok(item) <==> BlockMeans(c, j, area, item)
    ensures ReadBlock(c, j, area).Err? ==> ReadBlock(c, j, area).error == Malformed
  {
    var r := RangeOf(c, j);
    if r.Some? && InArea(r.value, |area|) {
      BodyMeans(c, r.value.kind, area[r.value.offset..r.value.offset + r.value.size], item);
    }
  }

  lemma TableStep<T>(c: Codec<T>, blocks: seq<Json>, j: Json, area: seq<Byte>, items: seq<Item<T>>, item: Item<T>)
    ensures TableMeans(c, blocks + [j], area, items + [item]) <==>
            TableMeans(c, blocks, area, items) && BlockMeans(c, j, area, item)
  {
    var bs, all := blocks + [j], items + [item];
    if |items| == |blocks| {
      assert bs[|blocks|] == j && all[|blocks|] == item;
      assert forall i :: 0 <= i < |blocks| ==> bs[i] == blocks[i] && all[i] == items[i];
    }
  }

  lemma {:induction false} TableIff<T>(c: Codec<T>, blocks: seq<Json>, area: seq<Byte>, items: seq<Item<T>>)
    ensures ReadBlocks(c, blocks, area) == Ok(items) <==> TableMeans(c, blocks, area, items)
    ensures ReadBlocks(c, blocks, area).Err? ==> ReadBlocks(c, blocks, area).error == Malformed
  {
    if blocks != [] {
      var before, j := blocks[..|blocks| - 1], blocks[|blocks| - 1];
      assert blocks == before + [j];
      if items == [] {
        TableIff(c, before, area, items);
        LastIsRead(c, before, j, area);
      } else {
        var first, item := items[..|items| - 1], items[|items| - 1];
        assert items == first + [item];
        TableIff(c, before, area, first);
        LastIsRead(c, before, j, area);
        BlockIff(c, j, area, item);
        TableStep(c, before, j, area, first, item);
      }
    }
  }

  lemma LastIsRead<T>(c: Codec<T>, before: seq<Json>, j: Json, area: seq<Byte>)
    ensures var all, some, last := ReadBlocks(c, before + [j], area), ReadBlocks(c, before, area), ReadBlock(c, j, area);
            all == if some.Err? then some else if last.Err? then Err(last.error) else Ok(some.value + [last.value])
    ensures ReadBlock(c, j, area).Err? ==> ReadBlock(c, j, area).error == Malformed
  {
    assert (before + [j])[..|before|] == before;
    if ReadBlock(c, j, area).Ok? { BlockIff(c, j, area, ReadBlock(c, j, area).value); }
  }

  lemma MetaIff<T>(c: Codec<T>, meta: Json, area: seq<Byte>, m: Message<T>)
    ensures ReadMessage(c, meta, area) == Ok(m) <==> MetaMeans(c, meta, area, m)
    ensures ReadMessage(c, meta, area).Err? ==> ReadMessage(c, meta, area).error == Malformed
  {
    var blocks := Field(meta, "blocks");
    if blocks.Some? && blocks.value.JArr? {
      TableIff(c, blocks.value.items, area, if m.List? then m.items else []);
    }
  }

  // The length field is what packing gives, so bytes have at most one frame.
  lemma FrameIff(data: seq<Byte>, text: seq<Byte>, area: seq<Byte>)
    ensures Frames(data, text, area) <==>
            |data| >= 4 && |data| >= 4 + UnpackU32(data[..4])
            && text == data[4..4 + UnpackU32(data[..4])] && area == data[4 + UnpackU32(data[..4])..]
  {
    if Frames(data, text, area) {
      UnpackPacked(|text|);
      assert data[..4] == PackU32(|text|);
    } else if |data| >= 4 && |data| >= 4 + UnpackU32(data[..4]) {
      var n := UnpackU32(data[..4]);
      PackUnpacked(data[..4]);
      assert data == data[..4] + data[4..4 + n] + data[4 + n..];
    }
  }

  // What arbitrary bytes mean.
  ghost predicate Means<T>(c: Codec<T>, data: seq<Byte>, m: Message<T>) {
    exists text, area :: Frames(data, text, area) && c.loads(text).Some? && MetaMeans(c, c.loads(text).value, area, m)
  }

  // On arbitrary bytes: a message is read if and only if the bytes mean it, and whatever means
  // nothing is an error value, never something else.
  lemma ReadIff<T>(c: Codec<T>, data: seq<Byte>, m: Message<T>)
    ensures Deserialized(c, data) == Ok(m) <==> Means(c, data, m)
    ensures Deserialized(c, data).Err? ==> Deserialized(c, data) == Err(Malformed)
  {
    if |data| >= 4 && |data| >= 4 + UnpackU32(data[..4]) {
      var n := UnpackU32(data[..4]);
      FrameIff(data, data[4..4 + n], data[4 + n..]);
      var meta := c.loads(data[4..4 + n]);
      if meta.Some? { MetaIff(c, meta.value, data[4 + n..], m); }
    }
    if Means(c, data, m) {
      var text, area :| Frames(data, text, area) && c.loads(text).Some? && MetaMeans(c, c.loads(text).value, area, m);
      FrameIff(data, text, area);
    }
  }
}
