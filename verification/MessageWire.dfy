/** The message wire format: a length field, metadata as JSON, and the data blocks one
    after another.  The text, JSON, tensor and msgpack codecs are parameters. */
module MessageWire {
  import opened Wrappers
  import opened Bytes

  // A double as its 64 bits, NaN excluded: infinity is the largest magnitude.
  type Double = bits: nat | bits < 0x1_0000_0000_0000_0000 && bits % 0x8000_0000_0000_0000 <= 0x7FF0_0000_0000_0000

  datatype Json =
    | JNull
    | JBool(b: bool)
    | JNum(n: int)
    | JFloat(x: Double)
    | JStr(s: string)
    | JArr(items: seq<Json>)
    | JObj(fields: map<string, Json>)

  // An item of a list message.  A value is written only if it is a dict; a dict block reads
  // back as whatever its JSON holds.  Unpacked values come out of msgpack and are never written.
  datatype Item<T> =
    | Text(t: string)
    | Value(j: Json)
    | Raw(b: seq<Byte>)
    | RawArray(b: seq<Byte>)
    | Tensor(tensor: T)
    | Unpacked(v: T)

  datatype Message<T> =
    | Whole(b: seq<Byte>)
    | WholeArray(b: seq<Byte>)
    | List(items: seq<Item<T>>)
    | Other(v: T)

  // UnknownItem and Malformed are the two API errors; the other two are raised.
  datatype Error = UnknownItem | Unencodable | TooLong | Malformed

  datatype Result<+R> = Ok(value: R) | Err(error: Error)

  // UTF-8, JSON text, Python's int() on a JSON value, torch.save and load, msgpack.
  datatype Codec<!T> = Codec(
    encode: string -> Option<seq<Byte>>, decode: seq<Byte> -> Option<string>,
    dumps: Json -> seq<Byte>, loads: seq<Byte> -> Option<Json>,
    toInt: Json -> Option<int>,
    save: T -> seq<Byte>, load: seq<Byte> -> Option<T>,
    unpack: seq<Byte> -> Option<T>)

  ghost predicate Lawful<T(!new)>(c: Codec<T>) {
    && (forall t :: c.encode(t).Some? ==> c.decode(c.encode(t).value) == Some(t))
    && (forall j :: c.loads(c.dumps(j)) == Some(j))
    && (forall n :: c.toInt(JNum(n)) == Some(n))
    && (forall t :: c.load(c.save(t)) == Some(t))
  }

  // ----- writing -----------------------------------------------------------------------

  function Kind<T>(item: Item<T>): string {
    match item
    case Text(_) => "str"
    case Value(_) => "dict"
    case Raw(_) => "bytes"
    case RawArray(_) => "bytearray"
    case Tensor(_) => "tensor"
    case Unpacked(_) => "msgpack"
  }

  // The bytes of one item, or the error.
  function Body<T>(c: Codec<T>, item: Item<T>): Result<seq<Byte>> {
    match item
    case Text(t) => if c.encode(t).Some? then Ok(c.encode(t).value) else Err(Unencodable)
    case Value(j) => if j.JObj? then Ok(c.dumps(j)) else Err(UnknownItem)
    case Raw(b) => Ok(b)
    case RawArray(b) => Ok(b)
    case Tensor(t) => Ok(c.save(t))
    case Unpacked(_) => Err(UnknownItem)
  }

  datatype Entry = Entry(kind: string, size: nat, offset: nat)

  function EntryJson(e: Entry): Json {
    JObj(map["type" := JStr(e.kind), "size" := JNum(e.size), "offset" := JNum(e.offset)])
  }

  // The block table and the data area of a list.
  datatype Layout = Layout(blocks: seq<Json>, data: seq<Byte>)

  function LayoutOf<T>(c: Codec<T>, items: seq<Item<T>>): Result<Layout> {
    if items == [] then Ok(Layout([], []))
    else
      var before := LayoutOf(c, items[..|items| - 1]);
      if before.Err? then before else Added(c, before.value, items[|items| - 1])
  }

  function Added<T>(c: Codec<T>, l: Layout, item: Item<T>): Result<Layout> {
    var body := Body(c, item);
    if body.Err? then Err(body.error)
    else Ok(Layout(l.blocks + [EntryJson(Entry(Kind(item), |body.value|, |l.data|))], l.data + body.value))
  }

  function WholeMeta(kind: string, size: nat): Json {
    JObj(map["type" := JStr(kind), "blocks" := JArr([EntryJson(Entry("raw", size, 0))])])
  }

  function ListMeta(length: nat, blocks: seq<Json>): Json {
    JObj(map["type" := JStr("list"), "length" := JNum(length), "blocks" := JArr(blocks)])
  }

  // The length field, the metadata, the data.
  function Framed(meta: seq<Byte>, data: seq<Byte>): Result<seq<Byte>> {
    if |meta| < U32_LIMIT then Ok(PackU32(|meta|) + meta + data) else Err(TooLong)
  }

  function Serialized<T>(c: Codec<T>, m: Message<T>): Result<seq<Byte>> {
    match m
    case Whole(b) => Framed(c.dumps(WholeMeta("bytes", |b|)), b)
    case WholeArray(b) => Framed(c.dumps(WholeMeta("bytearray", |b|)), b)
    case List(items) =>
      var l := LayoutOf(c, items);
      if l.Err? then Err(l.error) else Framed(c.dumps(ListMeta(|items|, l.value.blocks)), l.value.data)
    case Other(_) => Err(UnknownItem)
  }

  // serialize_message: the loop over the items, which keeps a running offset.
  method SerializeItems<T>(c: Codec<T>, items: seq<Item<T>>) returns (r: Result<Layout>)
    ensures r == LayoutOf(c, items)
  {
    var blocks: seq<Json>, data: seq<Byte>, offset := [], [], 0;
    for i := 0 to |items|
      invariant LayoutOf(c, items[..i]) == Ok(Layout(blocks, data)) && offset == |data|
    {
      assert items[..i + 1][..i] == items[..i];
      var body := Body(c, items[i]);
      if body.Err? {
        FirstFailureDecides(c, items, i + 1);
        return Err(body.error);
      }
      blocks := blocks + [EntryJson(Entry(Kind(items[i]), |body.value|, offset))];
      data := data + body.value;
      offset := offset + |body.value|;
    }
    assert items[..|items|] == items;
    r := Ok(Layout(blocks, data));
  }

  lemma {:induction false} FirstFailureDecides<T>(c: Codec<T>, items: seq<Item<T>>, n: nat)
    requires n <= |items| && LayoutOf(c, items[..n]).Err?
    ensures LayoutOf(c, items) == LayoutOf(c, items[..n])
    decreases |items|
  {
    if n == |items| {
      assert items[..n] == items;
    } else {
      assert items[..|items| - 1][..n] == items[..n];
      FirstFailureDecides(c, items[..|items| - 1], n);
    }
  }

  // ----- reading -----------------------------------------------------------------------

  function Field(j: Json, name: string): Option<Json> {
    if j.JObj? && name in j.fields then Some(j.fields[name]) else None
  }

  function IntField<T>(c: Codec<T>, j: Json, name: string): Option<int> {
    var f := Field(j, name);
    if f.Some? then c.toInt(f.value) else None
  }

  datatype Range = Range(kind: Json, size: int, offset: int)

  // The three fields of a block; none if it is not a dict or a field is missing or bad.
  function RangeOf<T>(c: Codec<T>, j: Json): Option<Range> {
    var kind, size, offset := Field(j, "type"), IntField(c, j, "size"), IntField(c, j, "offset");
    if kind.Some? && size.Some? && offset.Some? then Some(Range(kind.value, size.value, offset.value)) else None
  }

  predicate InArea(r: Range, length: nat) { r.size >= 0 && r.offset >= 0 && r.offset + r.size <= length }

  function FromOption<R>(o: Option<R>): Result<R> { if o.Some? then Ok(o.value) else Err(Malformed) }

  function Map<Q, R>(q: Result<Q>, f: Q -> R): Result<R> { if q.Ok? then Ok(f(q.value)) else Err(q.error) }

  function ReadBody<T>(c: Codec<T>, kind: Json, body: seq<Byte>): Result<Item<T>> {
    if kind == JStr("str") then Map(FromOption(c.decode(body)), t => Text(t))
    else if kind == JStr("dict") then Map(FromOption(c.loads(body)), j => Value(j))
    else if kind == JStr("bytes") then Ok(Raw(body))
    else if kind == JStr("bytearray") then Ok(RawArray(body))
    else if kind == JStr("tensor") then Map(FromOption(c.load(body)), t => Tensor(t))
    else if kind == JStr("msgpack") then Map(FromOption(c.unpack(body)), v => Unpacked(v))
    else Err(Malformed)
  }

  // One block, read out of the data area.
  function ReadBlock<T>(c: Codec<T>, j: Json, area: seq<Byte>): Result<Item<T>> {
    var r := RangeOf(c, j);
    if r.None? || !InArea(r.value, |area|) then Err(Malformed)
    else ReadBody(c, r.value.kind, area[r.value.offset..r.value.offset + r.value.size])
  }

  function ReadBlocks<T>(c: Codec<T>, blocks: seq<Json>, area: seq<Byte>): Result<seq<Item<T>>> {
    if blocks == [] then Ok([])
    else
      var before := ReadBlocks(c, blocks[..|blocks| - 1], area);
      if before.Err? then before
      else
        var last := ReadBlock(c, blocks[|blocks| - 1], area);
        if last.Err? then Err(last.error) else Ok(before.value + [last.value])
  }

  function ReadMessage<T>(c: Codec<T>, meta: Json, area: seq<Byte>): Result<Message<T>> {
    var kind := Field(meta, "type");
    if kind == Some(JStr("bytes")) then Ok(Whole(area))
    else if kind == Some(JStr("bytearray")) then Ok(WholeArray(area))
    else if kind == Some(JStr("list")) then
      var blocks := Field(meta, "blocks");
      if blocks.None? || !blocks.value.JArr? then Err(Malformed)
      else
        var items := ReadBlocks(c, blocks.value.items, area);
        if items.Err? then Err(items.error) else Ok(List(items.value))
    else if kind == Some(JStr("msgpack")) then Map(FromOption(c.unpack(area)), v => Other(v))
    else Err(Malformed)
  }

  function Deserialized<T>(c: Codec<T>, data: seq<Byte>): Result<Message<T>> {
    if |data| < 4 then Err(Malformed)
    else
      var n := UnpackU32(data[..4]);
      if |data| < 4 + n then Err(Malformed)
      else
        var meta := c.loads(data[4..4 + n]);
        if meta.None? then Err(Malformed) else ReadMessage(c, meta.value, data[4 + n..])
  }

  // deserialize_message: the loop over the block table.
  method DeserializeBlocks<T>(c: Codec<T>, blocks: seq<Json>, area: seq<Byte>) returns (r: Result<seq<Item<T>>>)
    ensures r == ReadBlocks(c, blocks, area)
  {
    var items: seq<Item<T>> := [];
    for i := 0 to |blocks|
      invariant ReadBlocks(c, blocks[..i], area) == Ok(items)
    {
      assert blocks[..i + 1][..i] == blocks[..i];
      var item := ReadBlock(c, blocks[i], area);
      if item.Err? {
        FirstBadBlockDecides(c, blocks, i + 1, area);
        return Err(item.error);
      }
      items := items + [item.value];
    }
    assert blocks[..|blocks|] == blocks;
    r := Ok(items);
  }

  lemma {:induction false} FirstBadBlockDecides<T>(c: Codec<T>, blocks: seq<Json>, n: nat, area: seq<Byte>)
    requires n <= |blocks| && ReadBlocks(c, blocks[..n], area).Err?
    ensures ReadBlocks(c, blocks, area) == ReadBlocks(c, blocks[..n], area)
    decreases |blocks|
  {
    if n == |blocks| {
      assert blocks[..n] == blocks;
    } else {
      assert blocks[..|blocks| - 1][..n] == blocks[..n];
      FirstBadBlockDecides(c, blocks[..|blocks| - 1], n, area);
    }
  }

  // ----- theorems ----------------------------------------------------------------------

  lemma EntryReads<T(!new)>(c: Codec<T>, e: Entry)
    requires Lawful(c)
    ensures RangeOf(c, EntryJson(e)) == Some(Range(JStr(e.kind), e.size, e.offset))
  {
    var j := EntryJson(e);
    assert j.fields.Keys == {"type", "size", "offset"};
    assert "type" != "size" && "type" != "offset" && "size" != "offset";
  }

  lemma BodyReads<T(!new)>(c: Codec<T>, item: Item<T>)
    requires Lawful(c) && Body(c, item).Ok?
    ensures ReadBody(c, JStr(Kind(item)), Body(c, item).value) == Ok(item)
  {
  }

  // The item's bytes stand at that place in the area.
  predicate StandsAt<T>(c: Codec<T>, item: Item<T>, area: seq<Byte>, start: nat) {
    && Body(c, item).Ok? && start + |Body(c, item).value| <= |area|
    && area[start..start + |Body(c, item).value|] == Body(c, item).value
  }

  lemma BlockReads<T(!new)>(c: Codec<T>, item: Item<T>, area: seq<Byte>, start: nat)
    requires Lawful(c) && StandsAt(c, item, area, start)
    ensures ReadBlock(c, EntryJson(Entry(Kind(item), |Body(c, item).value|, start)), area) == Ok(item)
  {
    EntryReads(c, Entry(Kind(item), |Body(c, item).value|, start));
    BodyReads(c, item);
  }

  lemma ReadOneMore<T>(c: Codec<T>, blocks: seq<Json>, b: Json, area: seq<Byte>)
    requires ReadBlocks(c, blocks, area).Ok? && ReadBlock(c, b, area).Ok?
    ensures ReadBlocks(c, blocks + [b], area) == Ok(ReadBlocks(c, blocks, area).value + [ReadBlock(c, b, area).value])
  {
    assert (blocks + [b])[..|blocks|] == blocks;
  }

  lemma SliceBehind(before: seq<Byte>, body: seq<Byte>, area: seq<Byte>)
    requires before + body <= area
    ensures before <= area && |before| + |body| <= |area| && area[|before|..|before| + |body|] == body
  {
  }

  lemma ItemReadsBack<T(!new)>(c: Codec<T>, items: seq<Item<T>>, l: Layout, l0: Layout, area: seq<Byte>)
    requires Lawful(c) && items != [] && StandsAt(c, items[|items| - 1], area, |l0.data|)
    requires l == Added(c, l0, items[|items| - 1]).value
    requires ReadBlocks(c, l0.blocks, area) == Ok(items[..|items| - 1])
    ensures ReadBlocks(c, l.blocks, area) == Ok(items)
  {
    var last := items[|items| - 1];
    BlockReads(c, last, area, |l0.data|);
    ReadOneMore(c, l0.blocks, EntryJson(Entry(Kind(last), |Body(c, last).value|, |l0.data|)), area);
    assert items == items[..|items| - 1] + [last];
  }

  // The layout of the items before the last, and the area it fits into.
  lemma Before<T>(c: Codec<T>, items: seq<Item<T>>, l: Layout, area: seq<Byte>) returns (l0: Layout)
    requires items != [] && LayoutOf(c, items) == Ok(l) && l.data <= area
    ensures LayoutOf(c, items[..|items| - 1]) == Ok(l0) && l0.data <= area
    ensures var last := items[|items| - 1];
            StandsAt(c, last, area, |l0.data|) && l == Added(c, l0, last).value
  {
    l0 := LayoutOf(c, items[..|items| - 1]).value;
    SliceBehind(l0.data, Body(c, items[|items| - 1]).value, area);
  }

  lemma {:induction false} ItemsReadBack<T(!new)>(c: Codec<T>, items: seq<Item<T>>, l: Layout, area: seq<Byte>)
    requires Lawful(c) && LayoutOf(c, items) == Ok(l) && l.data <= area
    ensures ReadBlocks(c, l.blocks, area) == Ok(items)
    decreases |items|, 1
  {
    if items != [] { LastReadsBack(c, items, l, area); }
  }

  lemma LastReadsBack<T(!new)>(c: Codec<T>, items: seq<Item<T>>, l: Layout, area: seq<Byte>)
    requires Lawful(c) && LayoutOf(c, items) == Ok(l) && l.data <= area && items != []
    ensures ReadBlocks(c, l.blocks, area) == Ok(items)
    decreases |items|, 0
  {
    var l0 := Before(c, items, l, area);
    ItemsReadBack(c, items[..|items| - 1], l0, area);
    ItemReadsBack(c, items, l, l0, area);
  }

  lemma FrameReads<T(!new)>(c: Codec<T>, meta: Json, area: seq<Byte>)
    requires Lawful(c) && |c.dumps(meta)| < U32_LIMIT
    ensures Deserialized(c, Framed(c.dumps(meta), area).value) == ReadMessage(c, meta, area)
  {
    var text := c.dumps(meta);
    var data := PackU32(|text|) + text + area;
    UnpackPacked(|text|);
    assert data[..4] == PackU32(|text|) && data[4..4 + |text|] == text && data[4 + |text|..] == area;
  }

  lemma WholeMetaReads<T>(c: Codec<T>, size: nat, area: seq<Byte>)
    ensures ReadMessage(c, WholeMeta("bytes", size), area) == Ok(Whole(area))
    ensures ReadMessage(c, WholeMeta("bytearray", size), area) == Ok(WholeArray(area))
  {
    assert "type" != "blocks";
    assert Field(WholeMeta("bytes", size), "type") == Some(JStr("bytes"));
    assert Field(WholeMeta("bytearray", size), "type") == Some(JStr("bytearray"));
  }

  lemma ListMetaReads(length: nat, blocks: seq<Json>)
    ensures Field(ListMeta(length, blocks), "type") == Some(JStr("list"))
    ensures Field(ListMeta(length, blocks), "blocks") == Some(JArr(blocks))
  {
    assert "type" != "blocks" && "type" != "length" && "length" != "blocks";
  }

  // Whatever is written reads back as the same message: same kind, same items, same order.
  lemma RoundTrip<T(!new)>(c: Codec<T>, m: Message<T>)
    requires Lawful(c) && Serialized(c, m).Ok?
    ensures Deserialized(c, Serialized(c, m).value) == Ok(m)
  {
    match m
    case Whole(b) => FrameReads(c, WholeMeta("bytes", |b|), b); WholeMetaReads(c, |b|, b);
    case WholeArray(b) => FrameReads(c, WholeMeta("bytearray", |b|), b); WholeMetaReads(c, |b|, b);
    case List(items) => ListRoundTrip(c, items);
  }

  lemma ListReads<T>(c: Codec<T>, length: nat, blocks: seq<Json>, area: seq<Byte>, items: seq<Item<T>>)
    requires ReadBlocks(c, blocks, area) == Ok(items)
    ensures ReadMessage(c, ListMeta(length, blocks), area) == Ok(List(items))
  {
    ListMetaReads(length, blocks);
  }

  lemma ListRoundTrip<T(!new)>(c: Codec<T>, items: seq<Item<T>>)
    requires Lawful(c) && Serialized(c, List(items)).Ok?
    ensures Deserialized(c, Serialized(c, List(items)).value) == Ok(List(items))
  {
    var l := LayoutOf(c, items).value;
    FrameReads(c, ListMeta(|items|, l.blocks), l.data);
    ItemsReadBack(c, items, l, l.data);
    ListReads(c, |items|, l.blocks, l.data, items);
  }

  // A list is laid out exactly when every item has bytes of its own.
  lemma {:induction false} LaidOutIff<T>(c: Codec<T>, items: seq<Item<T>>)
    ensures LayoutOf(c, items).Ok? <==> forall i :: 0 <= i < |items| ==> Body(c, items[i]).Ok?
  {
    if items != [] { LaidOutIff(c, items[..|items| - 1]); }
  }

  // The first byte of item i in the data area.
  function Start<T>(c: Codec<T>, items: seq<Item<T>>, i: nat): nat
    requires i <= |items| && forall k :: 0 <= k < i ==> Body(c, items[k]).Ok?
  {
    if i == 0 then 0 else Start(c, items, i - 1) + |Body(c, items[i - 1]).value|
  }

  predicate EntryAt<T>(c: Codec<T>, l: Layout, item: Item<T>, i: nat, start: nat) {
    && Body(c, item).Ok?
    && start + |Body(c, item).value| <= |l.data|
    && i < |l.blocks|
    && l.blocks[i] == EntryJson(Entry(Kind(item), |Body(c, item).value|, start))
    && l.data[start..start + |Body(c, item).value|] == Body(c, item).value
  }

  lemma {:induction false} StartOfPrefix<T>(c: Codec<T>, items: seq<Item<T>>, n: nat, i: nat)
    requires i <= n <= |items| && forall k :: 0 <= k < n ==> Body(c, items[k]).Ok?
    ensures Start(c, items[..n], i) == Start(c, items, i)
  {
    if i > 0 { StartOfPrefix(c, items, n, i - 1); }
  }

  lemma {:induction false} LayoutLength<T>(c: Codec<T>, items: seq<Item<T>>)
    requires LayoutOf(c, items).Ok?
    ensures forall k :: 0 <= k < |items| ==> Body(c, items[k]).Ok?
    ensures |LayoutOf(c, items).value.blocks| == |items|
    ensures |LayoutOf(c, items).value.data| == Start(c, items, |items|)
  {
    LaidOutIff(c, items);
    if items != [] {
      LayoutLength(c, items[..|items| - 1]);
      StartOfPrefix(c, items, |items| - 1, |items| - 1);
    }
  }

  lemma LastAt<T>(c: Codec<T>, l: Layout, item: Item<T>)
    requires Body(c, item).Ok?
    ensures EntryAt(c, Added(c, l, item).value, item, |l.blocks|, |l.data|)
  {
  }

  lemma StillAt<T>(c: Codec<T>, l: Layout, added: Item<T>, item: Item<T>, i: nat, start: nat)
    requires EntryAt(c, l, item, i, start) && Body(c, added).Ok?
    ensures EntryAt(c, Added(c, l, added).value, item, i, start)
  {
    var data, n := Added(c, l, added).value.data, |Body(c, item).value|;
    assert data[start..start + n] == l.data[start..start + n];
  }

  // The blocks tile the data area: block i describes item i, starts where block i - 1 ends,
  // and the last one ends where the data ends.
  lemma {:induction false} BlocksTile<T>(c: Codec<T>, items: seq<Item<T>>, i: nat)
    requires LayoutOf(c, items).Ok? && i < |items|
    ensures forall k :: 0 <= k < |items| ==> Body(c, items[k]).Ok?
    ensures |LayoutOf(c, items).value.blocks| == |items|
    ensures |LayoutOf(c, items).value.data| == Start(c, items, |items|)
    ensures EntryAt(c, LayoutOf(c, items).value, items[i], i, Start(c, items, i))
  {
    LayoutLength(c, items);
    var n := |items| - 1;
    var l := LayoutOf(c, items[..n]).value;
    StartOfPrefix(c, items, n, i);
    LayoutLength(c, items[..n]);
    if i < n {
      BlocksTile(c, items[..n], i);
      StillAt(c, l, items[n], items[i], i, Start(c, items, i));
    } else {
      LastAt(c, l, items[n]);
    }
  }

  ghost predicate AllRead<T>(c: Codec<T>, blocks: seq<Json>, area: seq<Byte>) {
    forall i :: 0 <= i < |blocks| ==> ReadBlock(c, blocks[i], area).Ok?
  }

  lemma AllReadStep<T>(c: Codec<T>, before: seq<Json>, b: Json, area: seq<Byte>)
    ensures AllRead(c, before + [b], area) <==> AllRead(c, before, area) && ReadBlock(c, b, area).Ok?
  {
    var all := before + [b];
    assert all[|before|] == b && forall i :: 0 <= i < |before| ==> all[i] == before[i];
  }

  lemma ReadStep<T>(c: Codec<T>, before: seq<Json>, b: Json, area: seq<Byte>)
    ensures ReadBlocks(c, before + [b], area).Ok? <==> ReadBlocks(c, before, area).Ok? && ReadBlock(c, b, area).Ok?
  {
    assert (before + [b])[..|before|] == before;
  }

  // On any block table and any bytes, the reader succeeds exactly when every block does.
  lemma {:induction false} ReadsIff<T>(c: Codec<T>, blocks: seq<Json>, area: seq<Byte>)
    ensures ReadBlocks(c, blocks, area).Ok? <==> AllRead(c, blocks, area)
  {
    if blocks != [] {
      var before, b := blocks[..|blocks| - 1], blocks[|blocks| - 1];
      assert blocks == before + [b];
      ReadsIff(c, before, area);
      ReadStep(c, before, b, area);
      AllReadStep(c, before, b, area);
    }
  }

  lemma ReadBefore<T>(c: Codec<T>, blocks: seq<Json>, area: seq<Byte>, items: seq<Item<T>>) returns (before: seq<Item<T>>)
    requires blocks != [] && ReadBlocks(c, blocks, area) == Ok(items)
    ensures ReadBlocks(c, blocks[..|blocks| - 1], area) == Ok(before)
    ensures var last := ReadBlock(c, blocks[|blocks| - 1], area); last.Ok? && items == before + [last.value]
  {
    before := ReadBlocks(c, blocks[..|blocks| - 1], area).value;
  }

  lemma BlockInside<T>(c: Codec<T>, b: Json, area: seq<Byte>)
    requires ReadBlock(c, b, area).Ok?
    ensures RangeOf(c, b).Some? && InArea(RangeOf(c, b).value, |area|)
  {
  }

  lemma {:induction false} ReadLength<T>(c: Codec<T>, blocks: seq<Json>, area: seq<Byte>, items: seq<Item<T>>)
    requires ReadBlocks(c, blocks, area) == Ok(items)
    ensures |items| == |blocks|
  {
    if blocks != [] {
      var before := ReadBefore(c, blocks, area, items);
      ReadLength(c, blocks[..|blocks| - 1], area, before);
    }
  }

  // Then item i comes out of block i, whose range lies inside the data area.
  lemma {:induction false} ReadsInside<T>(c: Codec<T>, blocks: seq<Json>, area: seq<Byte>, items: seq<Item<T>>, i: nat)
    requires ReadBlocks(c, blocks, area) == Ok(items) && i < |blocks|
    ensures |items| == |blocks| && ReadBlock(c, blocks[i], area) == Ok(items[i])
    ensures RangeOf(c, blocks[i]).Some? && InArea(RangeOf(c, blocks[i]).value, |area|)
  {
    ReadLength(c, blocks, area, items);
    var before := ReadBefore(c, blocks, area, items);
    if i < |blocks| - 1 { ReadsInside(c, blocks[..|blocks| - 1], area, before, i); }
    BlockInside(c, blocks[i], area);
  }
}
