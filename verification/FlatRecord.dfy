/** The flat record format of stored values, and the search for the payload entry in it. */
module FlatRecord {
  import opened Wrappers
  import opened Bytes

  const BYTES_TYPE: Byte := 5

  datatype Found =
    | Range(offset: nat, size: nat)
    | NoCount | TruncatedKeyLength | TruncatedKey | BadKey | TruncatedHeader | TruncatedValue
    | WrongType | WrongLength | Missing

  datatype Step = Stop(found: Found) | Next(pos: nat)

  // UTF-8 decoding; none if it raises.
  type Decode = seq<Byte> -> Option<string>

  // ----- the search --------------------------------------------------------------------

  // The loop body: the entry at pos answers, or the search goes on behind it.
  function StepAt(decode: Decode, view: seq<Byte>, pos: nat, expected: int): (s: Step)
    ensures s.Next? ==> s.pos <= |view|
    ensures s.Stop? && s.found.Range? ==> s.found.offset + s.found.size <= |view| && s.found.size == expected
  {
    if pos + 4 > |view| then Stop(TruncatedKeyLength)
    else
      var kind := pos + 4 + UnpackU32(view[pos..pos + 4]);
      if kind > |view| then Stop(TruncatedKey)
      else
        var key := decode(view[pos + 4..kind]);
        if key.None? then Stop(BadKey)
        else if kind + 5 > |view| then Stop(TruncatedHeader)
        else
          var size := UnpackU32(view[kind + 1..kind + 5]);
          if kind + 5 + size > |view| then Stop(TruncatedValue)
          else StepOver(key.value, view[kind], kind + 5, size, expected)
  }

  function StepOver(key: string, kind: Byte, start: nat, size: nat, expected: int): Step {
    if key != "payload" then Next(start + size)
    else if kind != BYTES_TYPE then Stop(WrongType)
    else if size != expected then Stop(WrongLength)
    else Stop(Range(start, size))
  }

  function Steps(decode: Decode, view: seq<Byte>, expected: int): nat -> Step {
    (pos: nat) => StepAt(decode, view, pos, expected)
  }

  function Walk(step: nat -> Step, pos: nat, count: nat): Found
    decreases count
  {
    if count == 0 then Missing
    else
      match step(pos)
      case Stop(found) => found
      case Next(next) => Walk(step, next, count - 1)
  }

  // _flat_dict_payload_range: every read and the returned range stay inside the buffer.
  method PayloadRange(decode: Decode, view: seq<Byte>, expected: int) returns (r: Found)
    ensures |view| < 4 ==> r == NoCount
    ensures |view| >= 4 ==> r == Walk(Steps(decode, view, expected), 4, UnpackU32(view[..4]))
    ensures r.Range? ==> r.offset + r.size <= |view| && r.size == expected
  {
    if |view| < 4 { return NoCount; }
    var count := UnpackU32(view[..4]);
    var pos: nat := 4;
    for i := 0 to count
      invariant pos <= |view|
      invariant Walk(Steps(decode, view, expected), 4, count) == Walk(Steps(decode, view, expected), pos, count - i)
    {
      var s := StepAt(decode, view, pos, expected);
      if s.Stop? { return s.found; }
      pos := s.pos;
    }
    r := Missing;
  }

  // ----- the format --------------------------------------------------------------------

  datatype Entry = Entry(key: seq<Byte>, kind: Byte, value: seq<Byte>)

  predicate Fits(e: Entry) { |e.key| < U32_LIMIT && |e.value| < U32_LIMIT }

  function Size(e: Entry): nat { 9 + |e.key| + |e.value| }

  function Encoded(e: Entry): (b: seq<Byte>)
    requires Fits(e)
    ensures |b| == Size(e)
  {
    PackU32(|e.key|) + e.key + [e.kind] + PackU32(|e.value|) + e.value
  }

  // The entries of a record; its first four bytes hold their number.
  function EncodedAll(es: seq<Entry>): seq<Byte>
    requires forall i :: 0 <= i < |es| ==> Fits(es[i])
  {
    if es == [] then [] else Encoded(es[0]) + EncodedAll(es[1..])
  }

  predicate IsPayload(decode: Decode, e: Entry) { decode(e.key) == Some("payload") }

  // The meaning of the search on a list of entries: the first payload entry decides, unless a
  // key before it does not decode.
  datatype Meaning = Payload(index: nat) | Fails(error: Found)

  function MeaningOf(decode: Decode, es: seq<Entry>, expected: int): (m: Meaning)
    ensures m.Payload? ==> m.index < |es| && IsPayload(decode, es[m.index]) && |es[m.index].value| == expected
  {
    if es == [] then Fails(Missing)
    else if decode(es[0].key).None? then Fails(BadKey)
    else if !IsPayload(decode, es[0]) then
      var m := MeaningOf(decode, es[1..], expected);
      if m.Payload? then Payload(m.index + 1) else m
    else if es[0].kind != BYTES_TYPE then Fails(WrongType)
    else if |es[0].value| != expected then Fails(WrongLength)
    else Payload(0)
  }

  // ----- walking over entries ----------------------------------------------------------

  // The step that an entry at pos calls for.
  function StepOf(decode: Decode, pos: nat, e: Entry, expected: int): Step {
    if decode(e.key).None? then Stop(BadKey)
    else StepOver(decode(e.key).value, e.kind, pos + 9 + |e.key|, |e.value|, expected)
  }

  // A relation that says which entry lies at which place.
  type Lies = (nat, Entry) -> bool

  ghost predicate Obeys(step: nat -> Step, lies: Lies, decode: Decode, expected: int) {
    forall pos: nat, e :: lies(pos, e) ==> step(pos) == StepOf(decode, pos, e, expected)
  }

  ghost predicate Honest(step: nat -> Step, lies: Lies) {
    forall pos: nat :: step(pos).Next? || step(pos).found.Range? ==> exists e :: lies(pos, e)
  }

  ghost predicate Chain(lies: Lies, pos: nat, es: seq<Entry>)
    decreases |es|
  {
    es != [] ==> lies(pos, es[0]) && Chain(lies, pos + Size(es[0]), es[1..])
  }

  // The byte at which entry i starts.
  function Place(es: seq<Entry>, i: nat): nat
    requires i <= |es|
  {
    if i == 0 then 0 else Size(es[0]) + Place(es[1..], i - 1)
  }

  function ResultOf(pos: nat, es: seq<Entry>, m: Meaning): Found
    requires m.Payload? ==> m.index < |es|
  {
    match m
    case Fails(error) => error
    case Payload(i) => Range(pos + Place(es, i) + 9 + |es[i].key|, |es[i].value|)
  }

  lemma {:induction false} WalkFinds(step: nat -> Step, lies: Lies, decode: Decode, pos: nat, es: seq<Entry>, expected: int)
    requires Obeys(step, lies, decode, expected) && Chain(lies, pos, es)
    ensures Walk(step, pos, |es|) == ResultOf(pos, es, MeaningOf(decode, es, expected))
    decreases |es|
  {
    if es != [] {
      assert lies(pos, es[0]);
      WalkFinds(step, lies, decode, pos + Size(es[0]), es[1..], expected);
    }
  }

  lemma {:induction false} WalkedOver(step: nat -> Step, lies: Lies, decode: Decode, pos: nat, count: nat, expected: int)
    returns (es: seq<Entry>)
    requires Obeys(step, lies, decode, expected) && Honest(step, lies)
    requires Walk(step, pos, count).Range?
    ensures 0 < |es| <= count && Chain(lies, pos, es)
    ensures MeaningOf(decode, es, expected) == Payload(|es| - 1)
    decreases count
  {
    var e :| lies(pos, e);
    assert step(pos) == StepOf(decode, pos, e, expected);
    if IsPayload(decode, e) {
      es := [e];
    } else {
      var more := WalkedOver(step, lies, decode, pos + Size(e), count - 1, expected);
      es := [e] + more;
      MeaningBehind(decode, e, more, expected);
    }
  }

  lemma MeaningBehind(decode: Decode, e: Entry, more: seq<Entry>, expected: int)
    requires decode(e.key).Some? && !IsPayload(decode, e) && MeaningOf(decode, more, expected).Payload?
    ensures ([e] + more)[1..] == more
    ensures MeaningOf(decode, [e] + more, expected) == Payload(MeaningOf(decode, more, expected).index + 1)
  {
    assert ([e] + more)[1..] == more;
  }

  // ----- the bytes of an entry ---------------------------------------------------------

  predicate Spells(view: seq<Byte>, pos: nat, e: Entry) {
    Fits(e) && pos + Size(e) <= |view| && view[pos..pos + Size(e)] == Encoded(e)
  }

  function Spelling(view: seq<Byte>): Lies { (pos: nat, e) => Spells(view, pos, e) }

  lemma SliceOfSlice(view: seq<Byte>, pos: nat, n: nat, a: nat, b: nat)
    requires a <= b <= n && pos + n <= |view|
    ensures view[pos..pos + n][a..b] == view[pos + a..pos + b]
  {
    var inner := view[pos..pos + n][a..b];
    assert forall i :: 0 <= i < |inner| ==> inner[i] == view[pos + a + i];
  }

  lemma PartsOfEncoded(e: Entry)
    requires Fits(e)
    ensures Encoded(e)[0..4] == PackU32(|e.key|) && Encoded(e)[4..4 + |e.key|] == e.key
    ensures Encoded(e)[4 + |e.key|] == e.kind
    ensures Encoded(e)[5 + |e.key|..9 + |e.key|] == PackU32(|e.value|) && Encoded(e)[9 + |e.key|..Size(e)] == e.value
  {
  }

  lemma PartsOfSpelled(view: seq<Byte>, pos: nat, e: Entry)
    requires Spells(view, pos, e)
    ensures var kind := pos + 4 + |e.key|;
            && view[pos..pos + 4] == PackU32(|e.key|) && view[pos + 4..kind] == e.key
            && view[kind] == e.kind && view[kind + 1..kind + 5] == PackU32(|e.value|)
            && view[kind + 5..kind + 5 + |e.value|] == e.value
  {
    var n, k := Size(e), |e.key|;
    PartsOfEncoded(e);
    SliceOfSlice(view, pos, n, 0, 4);
    SliceOfSlice(view, pos, n, 4, 4 + k);
    SliceOfSlice(view, pos, n, 5 + k, 9 + k);
    SliceOfSlice(view, pos, n, 9 + k, n);
    assert view[pos..pos + n][4 + k] == view[pos + 4 + k];
  }

  lemma StepAtSpelled(decode: Decode, view: seq<Byte>, pos: nat, e: Entry, expected: int)
    requires Spells(view, pos, e)
    ensures StepAt(decode, view, pos, expected) == StepOf(decode, pos, e, expected)
  {
    PartsOfSpelled(view, pos, e);
    UnpackPacked(|e.key|);
    UnpackPacked(|e.value|);
  }

  lemma EntryAt(decode: Decode, view: seq<Byte>, pos: nat, expected: int) returns (e: Entry)
    requires var s := StepAt(decode, view, pos, expected); s.Next? || s.found.Range?
    ensures Spells(view, pos, e)
  {
    var kind := pos + 4 + UnpackU32(view[pos..pos + 4]);
    var end := kind + 5 + UnpackU32(view[kind + 1..kind + 5]);
    e := Entry(view[pos + 4..kind], view[kind], view[kind + 5..end]);
    PackUnpacked(view[pos..pos + 4]);
    PackUnpacked(view[kind + 1..kind + 5]);
    Glued(view, pos, kind, end);
  }

  lemma Glued(view: seq<Byte>, pos: nat, kind: nat, end: nat)
    requires pos + 4 <= kind && kind + 5 <= end <= |view|
    ensures view[pos..end] ==
              view[pos..pos + 4] + view[pos + 4..kind] + [view[kind]] + view[kind + 1..kind + 5] + view[kind + 5..end]
  {
  }

  lemma SearchAgrees(decode: Decode, view: seq<Byte>, expected: int)
    ensures Obeys(Steps(decode, view, expected), Spelling(view), decode, expected)
    ensures Honest(Steps(decode, view, expected), Spelling(view))
  {
    var step, lies := Steps(decode, view, expected), Spelling(view);
    forall pos: nat, e | lies(pos, e) ensures step(pos) == StepOf(decode, pos, e, expected) {
      StepAtSpelled(decode, view, pos, e, expected);
    }
    forall pos: nat | step(pos).Next? || step(pos).found.Range? ensures exists e :: lies(pos, e) {
      var e := EntryAt(decode, view, pos, expected);
      assert lies(pos, e);
    }
  }

  lemma {:induction false} EncodedIsChain(view: seq<Byte>, pos: nat, es: seq<Entry>)
    requires forall i :: 0 <= i < |es| ==> Fits(es[i])
    requires pos + |EncodedAll(es)| <= |view| && view[pos..pos + |EncodedAll(es)|] == EncodedAll(es)
    ensures Chain(Spelling(view), pos, es)
    decreases |es|
  {
    if es != [] {
      var n, all := Size(es[0]), EncodedAll(es);
      assert all[0..n] == Encoded(es[0]) && all[n..|all|] == EncodedAll(es[1..]);
      SliceOfSlice(view, pos, |all|, 0, n);
      SliceOfSlice(view, pos, |all|, n, |all|);
      EncodedIsChain(view, pos + n, es[1..]);
    }
  }

  lemma {:induction false} ChainAt(view: seq<Byte>, pos: nat, es: seq<Entry>, i: nat)
    requires i < |es| && Chain(Spelling(view), pos, es)
    ensures Spells(view, pos + Place(es, i), es[i])
    decreases |es|
  {
    if i > 0 { ChainAt(view, pos + Size(es[0]), es[1..], i - 1); }
  }

  // ----- theorems ----------------------------------------------------------------------

  lemma HeaderAndRest(header: seq<Byte>, all: seq<Byte>, view: seq<Byte>)
    requires |header| == 4 && header + all <= view
    ensures 4 + |all| <= |view| && view[..4] == header && view[4..4 + |all|] == all
  {
  }

  // A record of these entries, with any bytes behind it.
  predicate IsRecord(view: seq<Byte>, es: seq<Entry>) {
    && |es| < U32_LIMIT && (forall i :: 0 <= i < |es| ==> Fits(es[i]))
    && PackU32(|es|) + EncodedAll(es) <= view
  }

  lemma RecordIsChain(view: seq<Byte>, es: seq<Entry>)
    requires IsRecord(view, es)
    ensures |view| >= 4 && UnpackU32(view[..4]) == |es| && Chain(Spelling(view), 4, es)
  {
    HeaderAndRest(PackU32(|es|), EncodedAll(es), view);
    UnpackPacked(|es|);
    EncodedIsChain(view, 4, es);
  }

  lemma ValueAt(view: seq<Byte>, es: seq<Entry>, i: nat)
    requires i < |es| && Chain(Spelling(view), 4, es)
    ensures var start := 4 + Place(es, i) + 9 + |es[i].key|;
            start + |es[i].value| <= |view| && view[start..start + |es[i].value|] == es[i].value
  {
    ChainAt(view, 4, es, i);
    PartsOfSpelled(view, 4 + Place(es, i), es[i]);
  }

  // On a written record the search finds exactly what the entries mean: the range of the value
  // of the first payload entry, or the error.
  lemma SearchFinds(decode: Decode, view: seq<Byte>, es: seq<Entry>, expected: int)
    requires IsRecord(view, es)
    ensures |view| >= 4
    ensures Walk(Steps(decode, view, expected), 4, UnpackU32(view[..4])) == ResultOf(4, es, MeaningOf(decode, es, expected))
  {
    RecordIsChain(view, es);
    SearchAgrees(decode, view, expected);
    WalkFinds(Steps(decode, view, expected), Spelling(view), decode, 4, es, expected);
  }

  // The bytes in that range are the value.
  lemma RangeHoldsValue(decode: Decode, view: seq<Byte>, es: seq<Entry>, expected: int)
    requires IsRecord(view, es) && MeaningOf(decode, es, expected).Payload?
    ensures var i := MeaningOf(decode, es, expected).index;
            var r := ResultOf(4, es, Payload(i));
            r.offset + r.size <= |view| && view[r.offset..r.offset + r.size] == es[i].value && r.size == expected
  {
    RecordIsChain(view, es);
    ValueAt(view, es, MeaningOf(decode, es, expected).index);
  }

  // On any bytes, a range comes back only if the buffer really starts with entries, at most as
  // many as it announces, of which the last is the first payload entry and holds that range.
  lemma FoundWasWritten(decode: Decode, view: seq<Byte>, expected: int) returns (es: seq<Entry>)
    requires |view| >= 4 && Walk(Steps(decode, view, expected), 4, UnpackU32(view[..4])).Range?
    ensures 0 < |es| <= UnpackU32(view[..4])
    ensures forall i :: 0 <= i < |es| ==> Spells(view, 4 + Place(es, i), es[i])
    ensures MeaningOf(decode, es, expected) == Payload(|es| - 1)
  {
    SearchAgrees(decode, view, expected);
    es := WalkedOver(Steps(decode, view, expected), Spelling(view), decode, 4, UnpackU32(view[..4]), expected);
    forall i | 0 <= i < |es| ensures Spells(view, 4 + Place(es, i), es[i]) {
      ChainAt(view, 4, es, i);
    }
  }
}
