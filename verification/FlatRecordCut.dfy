/** A flat record that ends too early: the search tells in which part of which entry. */
module FlatRecordCut {
  import opened Wrappers
  import opened Bytes
  import opened FlatRecord

  // What a record that ends d bytes into an entry answers there.
  function CutError(decode: Decode, e: Entry, d: nat): Found {
    if d < 4 then TruncatedKeyLength
    else if d < 4 + |e.key| then TruncatedKey
    else if decode(e.key).None? then BadKey
    else if d < 9 + |e.key| then TruncatedHeader
    else TruncatedValue
  }

  // Entries the search walks over.
  ghost predicate AllPass(decode: Decode, es: seq<Entry>) {
    forall i :: 0 <= i < |es| ==> decode(es[i].key).Some? && !IsPayload(decode, es[i])
  }

  lemma {:induction false} WalkPast(step: nat -> Step, lies: Lies, decode: Decode, pos: nat, es: seq<Entry>, count: nat,
                                    expected: int)
    requires Obeys(step, lies, decode, expected) && Chain(lies, pos, es) && AllPass(decode, es) && |es| <= count
    ensures Walk(step, pos, count) == Walk(step, pos + Place(es, |es|), count - |es|)
    decreases |es|
  {
    if es != [] {
      assert lies(pos, es[0]) && step(pos) == StepOf(decode, pos, es[0], expected);
      assert forall i :: 0 <= i < |es| - 1 ==> es[1..][i] == es[i + 1];
      WalkPast(step, lies, decode, pos + Size(es[0]), es[1..], count - 1, expected);
    }
  }

  lemma {:induction false} PlaceIsLength(es: seq<Entry>)
    requires forall i :: 0 <= i < |es| ==> Fits(es[i])
    ensures Place(es, |es|) == |EncodedAll(es)|
  {
    if es != [] { PlaceIsLength(es[1..]); }
  }

  // The parts of an entry that are there before the cut.
  lemma PartsOfCut(view: seq<Byte>, pos: nat, e: Entry, d: nat)
    requires Fits(e) && d < Size(e) && |view| == pos + d && view[pos..] == Encoded(e)[..d]
    ensures d >= 4 ==> view[pos..pos + 4] == PackU32(|e.key|)
    ensures d >= 4 + |e.key| ==> view[pos + 4..pos + 4 + |e.key|] == e.key
    ensures d >= 9 + |e.key| ==> view[pos + 5 + |e.key|..pos + 9 + |e.key|] == PackU32(|e.value|)
  {
    var k := |e.key|;
    PartsOfEncoded(e);
    if d >= 4 { CutSlice(view, pos, Encoded(e), d, 0, 4); }
    if d >= 4 + k { CutSlice(view, pos, Encoded(e), d, 4, 4 + k); }
    if d >= 9 + k { CutSlice(view, pos, Encoded(e), d, 5 + k, 9 + k); }
  }

  lemma CutSlice(view: seq<Byte>, pos: nat, all: seq<Byte>, d: nat, a: nat, b: nat)
    requires d <= |all| && |view| == pos + d && view[pos..] == all[..d] && a <= b <= d
    ensures view[pos + a..pos + b] == all[a..b]
  {
    var x, y := view[pos + a..pos + b], all[a..b];
    forall i | 0 <= i < b - a
      ensures x[i] == y[i]
    {
      assert view[pos..][a + i] == all[..d][a + i];
    }
    assert x == y;
  }

  lemma StepAtCut(decode: Decode, view: seq<Byte>, pos: nat, e: Entry, d: nat, expected: int)
    requires Fits(e) && d < Size(e) && |view| == pos + d && view[pos..] == Encoded(e)[..d]
    ensures StepAt(decode, view, pos, expected) == Stop(CutError(decode, e, d))
  {
    PartsOfCut(view, pos, e, d);
    UnpackPacked(|e.key|);
    UnpackPacked(|e.value|);
  }

  // A record that announces more entries than it holds and ends d bytes into one of them, with none
  // before it that decides: the search answers in which part of the entry the end is.
  lemma CutShort(decode: Decode, count: nat, es: seq<Entry>, e: Entry, d: nat, expected: int)
    requires |es| < count < U32_LIMIT && AllPass(decode, es)
    requires (forall i :: 0 <= i < |es| ==> Fits(es[i])) && Fits(e) && d < Size(e)
    ensures var view := PackU32(count) + EncodedAll(es) + Encoded(e)[..d];
            && |view| >= 4 && UnpackU32(view[..4]) == count
            && Walk(Steps(decode, view, expected), 4, count) == CutError(decode, e, d)
  {
    var view := PackU32(count) + EncodedAll(es) + Encoded(e)[..d];
    Assembled(PackU32(count), EncodedAll(es), Encoded(e)[..d], view);
    UnpackPacked(count);
    WalkToCut(decode, view, count, es, e, d, expected);
  }

  lemma Assembled(head: seq<Byte>, all: seq<Byte>, part: seq<Byte>, view: seq<Byte>)
    requires |head| == 4 && view == head + all + part
    ensures |view| == 4 + |all| + |part| && view[..4] == head && view[4..4 + |all|] == all && view[4 + |all|..] == part
  {
  }

  lemma WalkToCut(decode: Decode, view: seq<Byte>, count: nat, es: seq<Entry>, e: Entry, d: nat, expected: int)
    requires |es| < count && AllPass(decode, es) && (forall i :: 0 <= i < |es| ==> Fits(es[i])) && Fits(e) && d < Size(e)
    requires |view| == 4 + |EncodedAll(es)| + d
    requires view[4..4 + |EncodedAll(es)|] == EncodedAll(es) && view[4 + |EncodedAll(es)|..] == Encoded(e)[..d]
    ensures Walk(Steps(decode, view, expected), 4, count) == CutError(decode, e, d)
  {
    EncodedIsChain(view, 4, es);
    SearchAgrees(decode, view, expected);
    PlaceIsLength(es);
    WalkPast(Steps(decode, view, expected), Spelling(view), decode, 4, es, count, expected);
    StepAtCut(decode, view, 4 + |EncodedAll(es)|, e, d, expected);
  }
}
