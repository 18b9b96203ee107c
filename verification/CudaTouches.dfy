/** Which runtime objects a section needs: it is a misuse exactly if one of them is not live. */
module CudaTouches {
  import opened CudaQueue
  import opened CudaSections
  import opened CudaPipeline

  ghost predicate AllLive(r: Runtime, hs: set<Handle>) { hs <= r.live.Keys }

  // Completing the front waits for its end event and reads both.
  lemma FrontTouches<T>(r: Runtime, st: ThreadState<T>)
    requires FrontOk(st)
    ensures var s := st.slots[st.pending[0]];
            Front(r, st).rt.misused <==> r.misused || !AllLive(r, {Event(s.doneEvent), Event(s.startEvent)})
  {
  }

  // A poll also asks for the event of the front that is not ready.
  lemma PollTouches<T>(r: Runtime, st: ThreadState<T>)
    requires FrontOk(st)
    ensures var s := st.slots[st.pending[0]];
            Polled(r, st, 0).rt.misused <==> r.misused || !AllLive(r, {Event(s.doneEvent)})
  {
  }

  // A copy needs its staging buffer, the start event and the stream; the device buffer once the start
  // is recorded, and the end event once the copy is under way.
  function Needed<T>(s: Slot<T>, io: SubmitIo): set<Handle> {
    {Host(s.host), Event(s.startEvent), Stream(s.stream)}
    + (if io.recordStart then {Device(s.device)} else {})
    + (if io.recordStart && io.copy then {Event(s.doneEvent)} else {})
  }

  lemma CopyTouches<T>(r: Runtime, s: Slot<T>, io: SubmitIo)
    ensures Copied(r, s, io).misused <==> r.misused || !AllLive(r, Needed(s, io))
    ensures Alike(r, Copied(r, s, io))
  {
  }

  // Larger buffers need the ones they replace, to release them, and nothing else.
  lemma GrowTouches<T>(r: Runtime, s: Slot<T>, o: Owner, size: nat, io: SubmitIo)
    requires SlotOk(s) && CudaPipeline.Below(r.live, r.next) && s.host < r.next && s.device < r.next
    ensures Grow(r, s, o, size, io).rt.misused <==>
            r.misused || (!Roomy(s, size) && io.hostAlloc && io.deviceAlloc && !AllLive(r, Buffers(s)))
  {
    var host := Alloc(r, Host(r.next), o);
    var both := Alloc(host, Device(host.next), o);
    assert forall h :: h in Buffers(s) ==> (h in both.live <==> h in r.live);
    FreeTwo(both, s.device, Device(s.device), s.host, Host(s.host));
  }

  lemma FreeTwo(r: Runtime, m: nat, g: Handle, n: nat, h: Handle)
    requires g != h
    ensures FreeIf(FreeIf(r, m, g), n, h).misused <==> r.misused || (m != 0 && g !in r.live) || (n != 0 && h !in r.live)
  {
  }

  // Releasing a slot needs every object of it.
  lemma ReleaseTouches<T>(r: Runtime, s: Slot<T>)
    requires SlotOk(s)
    ensures FreeSlot(r, s).misused <==> r.misused || !AllLive(r, Handles(s))
    ensures FreeSlot(r, s).live == r.live - Handles(s)
  {
    SlotFreed(r, s);
    FreeTwo(r, s.device, Device(s.device), s.host, Host(s.host));
    var b := FreeIf(FreeIf(r, s.device, Device(s.device)), s.host, Host(s.host));
    BuffersFreed(r, s);
    FreeThree(b, Event(s.doneEvent), Event(s.startEvent), Stream(s.stream));
    assert forall h :: h in {Event(s.doneEvent), Event(s.startEvent), Stream(s.stream)} ==> (h in b.live <==> h in r.live);
  }

  lemma FreeThree(r: Runtime, f: Handle, g: Handle, h: Handle)
    requires f != g && g != h && f != h
    ensures Free(Free(Free(r, f), g), h).misused <==> r.misused || !AllLive(r, {f, g, h})
  {
  }
}
