/** The critical sections of the copy pipeline as functions on the runtime's live objects and on
    one thread's state. */
module CudaSections {
  import opened Wrappers
  import opened CudaQueue

  datatype Handle = Host(n: nat) | Device(n: nat) | Event(n: nat) | Stream(n: nat)

  datatype Owner = Owner(thread: nat, slot: nat)

  function Handles<T>(s: Slot<T>): set<Handle> {
    {Stream(s.stream), Event(s.startEvent), Event(s.doneEvent)}
    + (if s.host == 0 then {} else {Host(s.host)})
    + (if s.device == 0 then {} else {Device(s.device)})
  }

  // Which of the calls a submission makes succeed.
  datatype SubmitIo = SubmitIo(hostAlloc: bool, deviceAlloc: bool, recordStart: bool, copy: bool, recordDone: bool)

  // A slot as it is created, its objects numbered from k on.
  function FreshSlot<T>(k: nat): Slot<T> { Slot(k, k + 1, k + 2, 0, 0, 0, 0, None) }

  function WithFresh(live: map<Handle, Owner>, k: nat, o: Owner): map<Handle, Owner> {
    live[Stream(k) := o][Event(k + 1) := o][Event(k + 2) := o]
  }

  function WithBuffers<T>(slot: Slot<T>, host: nat, device: nat, size: nat): Slot<T> {
    slot.(host := host, hostCapacity := size, device := device, deviceCapacity := size)
  }

  // `misused` is history: some call was given an object that was not live.
  datatype Runtime = Runtime(live: map<Handle, Owner>, next: nat, misused: bool)

  datatype Call<T> = SubmitCall(size: nat, token: T, io: SubmitIo) | PollCall(ready: nat) | DrainCall

  // ----- runtime calls ---------------------------------------------------------------------

  function Use(r: Runtime, h: Handle): Runtime { r.(misused := r.misused || h !in r.live) }

  function Free(r: Runtime, h: Handle): Runtime { Use(r, h).(live := r.live - {h}) }

  function FreeIf(r: Runtime, n: nat, h: Handle): Runtime { if n == 0 then r else Free(r, h) }

  function Alloc(r: Runtime, h: Handle, o: Owner): Runtime { r.(live := r.live[h := o], next := r.next + 1) }

  function FreeSlot<T>(r: Runtime, s: Slot<T>): Runtime {
    var buffers := FreeIf(FreeIf(r, s.device, Device(s.device)), s.host, Host(s.host));
    Free(Free(Free(buffers, Event(s.doneEvent)), Event(s.startEvent)), Stream(s.stream))
  }

  // Last slot first.
  function FreeSlots<T>(r: Runtime, slots: seq<Slot<T>>): Runtime
    decreases |slots|
  {
    if slots == [] then r else FreeSlots(FreeSlot(r, slots[|slots| - 1]), slots[..|slots| - 1])
  }

  // ----- the sections under a state's lock -------------------------------------------------------

  datatype Section<T> = Section(rt: Runtime, st: ThreadState<T>)

  predicate FrontOk<T>(st: ThreadState<T>) { st.pending != [] && st.pending[0] < |st.slots| }

  // _complete_front, waiting or ready
  function Front<T>(r: Runtime, st: ThreadState<T>): Section<T>
    requires FrontOk(st)
  {
    var s := st.slots[st.pending[0]];
    Section(Use(Use(r, Event(s.doneEvent)), Event(s.startEvent)), Popped(st))
  }

  function Drained<T>(r: Runtime, st: ThreadState<T>): Section<T>
    decreases |st.pending|
  {
    if !FrontOk(st) then Section(r, st) else var f := Front(r, st); Drained(f.rt, f.st)
  }

  function Polled<T>(r: Runtime, st: ThreadState<T>, ready: nat): Section<T>
    decreases |st.pending|
  {
    if !FrontOk(st) then Section(r, st)
    else if ready == 0 then Section(Use(r, Event(st.slots[st.pending[0]].doneEvent)), st)
    else var f := Front(r, st); Polled(f.rt, f.st, ready - 1)
  }

  function FreeIndex<T>(st: ThreadState<T>, i: nat): nat
    decreases |st.slots| - i
  {
    if i < |st.slots| && st.slots[i].pending.Some? then FreeIndex(st, i + 1) else i
  }

  datatype Growth<T> = Growth(rt: Runtime, slot: Slot<T>, ok: bool)

  predicate Roomy<T>(s: Slot<T>, size: nat) { s.hostCapacity >= size && s.deviceCapacity >= size }

  // _ensure_slot_capacity
  function Grow<T>(r: Runtime, s: Slot<T>, o: Owner, size: nat, io: SubmitIo): Growth<T> {
    if Roomy(s, size) then Growth(r, s, true)
    else if !io.hostAlloc then Growth(r, s, false)
    else
      var host := Alloc(r, Host(r.next), o);
      if !io.deviceAlloc then Growth(Free(host, Host(r.next)), s, false)
      else
        var both := Alloc(host, Device(host.next), o);
        Growth(FreeIf(FreeIf(both, s.device, Device(s.device)), s.host, Host(s.host)),
               WithBuffers(s, r.next, host.next, size), true)
  }

  // Staging, the two event records and the copy; what fails is followed by waiting for the stream.
  function Copied<T>(r: Runtime, s: Slot<T>, io: SubmitIo): Runtime {
    var staged := Use(r, Host(s.host));
    var started := Use(Use(staged, Event(s.startEvent)), Stream(s.stream));
    if !io.recordStart then Use(started, Stream(s.stream))
    else
      var copied := Use(Use(Use(started, Device(s.device)), Host(s.host)), Stream(s.stream));
      if !io.copy then Use(copied, Stream(s.stream))
      else Use(Use(copied, Event(s.doneEvent)), Stream(s.stream))
  }

  // submit_from_host, under the state's lock
  function Submitted<T>(r: Runtime, st: ThreadState<T>, t: nat, depth: nat, c: Call<T>): Section<T>
    requires c.SubmitCall?
  {
    var a := if |st.pending| >= depth && FrontOk(st) then Front(r, st) else Section(r, st);
    var i := FreeIndex(a.st, 0);
    if i >= |a.st.slots| then a else SubmittedAt(a.rt, a.st, Owner(t, i), c)
  }

  function SubmittedAt<T>(r: Runtime, st: ThreadState<T>, o: Owner, c: Call<T>): Section<T>
    requires c.SubmitCall? && o.slot < |st.slots|
  {
    var g := Grow(r, st.slots[o.slot], o, c.size, c.io);
    if !g.ok then Section(Use(g.rt, Stream(st.slots[o.slot].stream)), st)
    else
      var grown := st.(slots := st.slots[o.slot := g.slot]);
      var done := c.io.recordStart && c.io.copy && c.io.recordDone;
      Section(Copied(g.rt, g.slot, c.io), if done then Pushed(grown, o.slot, c.token) else grown)
  }

  function Worked<T>(r: Runtime, st: ThreadState<T>, t: nat, depth: nat, c: Call<T>): Section<T> {
    match c
    case SubmitCall(_, _, _) => Submitted(r, st, t, depth, c)
    case PollCall(ready) => Polled(r, st, ready)
    case DrainCall => Drained(r, st)
  }

  // ----- a new state -----------------------------------------------------------------------------------

  datatype Setup<T> = Setup(slots: seq<Slot<T>>, live: map<Handle, Owner>)

  // n more slots, each with a new stream and two new events.
  function SetUp<T>(x: Setup<T>, t: nat, k: nat, n: nat): Setup<T>
    decreases n
  {
    if n == 0 then x
    else SetUp(Setup(x.slots + [FreshSlot(k)], WithFresh(x.live, k, Owner(t, |x.slots|))), t, k + 3, n - 1)
  }
}
