/** The host-to-device copy pipeline: per-thread slots, each with a stream, two
    events and a pair of buffers that grows on demand.  Whether a CUDA call
    succeeds is a parameter of the method that makes it; calls that release
    something are taken to succeed. */
module CudaPipeline {
  import opened Wrappers
  import opened CudaQueue
  import opened CudaSections

  // Both buffers of a slot exist or neither does, and they have one capacity.
  ghost predicate SlotOk<T>(s: Slot<T>) {
    && s.startEvent != s.doneEvent
    && s.hostCapacity == s.deviceCapacity
    && (s.host == 0 <==> s.hostCapacity == 0) && (s.device == 0 <==> s.deviceCapacity == 0)
  }

  ghost predicate Has<T>(states: map<nat, ThreadState<T>>, o: Owner) {
    o.thread in states && o.slot < |states[o.thread].slots|
  }

  ghost function SlotOf<T>(states: map<nat, ThreadState<T>>, o: Owner): Slot<T>
    requires Has(states, o)
  {
    states[o.thread].slots[o.slot]
  }

  ghost predicate Owns<T>(live: map<Handle, Owner>, o: Owner, s: Slot<T>) {
    forall h :: h in Handles(s) ==> h in live && live[h] == o
  }

  // The live runtime objects are exactly those of the slots, each of one slot.
  ghost predicate Owned<T>(states: map<nat, ThreadState<T>>, live: map<Handle, Owner>) {
    && (forall h :: h in live ==> Has(states, live[h]) && h in Handles(SlotOf(states, live[h])))
    && (forall o :: Has(states, o) ==> Owns(live, o, SlotOf(states, o)))
  }

  // Replacing one slot, and releasing and creating objects accordingly.
  ghost predicate Swaps<T>(live: map<Handle, Owner>, o: Owner, s: Slot<T>, live': map<Handle, Owner>) {
    && (forall h :: h in live && live[h] != o ==> h in live' && live'[h] == live[h])
    && (forall h :: h in live' ==> (h in Handles(s) && live'[h] == o) || (h in live && live'[h] == live[h] != o))
    && Owns(live', o, s)
  }

  function Replaced<T>(states: map<nat, ThreadState<T>>, o: Owner, s: Slot<T>): map<nat, ThreadState<T>>
    requires o.thread in states && o.slot < |states[o.thread].slots|
  {
    var st := states[o.thread];
    states[o.thread := st.(slots := st.slots[o.slot := s])]
  }

  lemma OthersStay<T>(states: map<nat, ThreadState<T>>, o: Owner, s: Slot<T>, p: Owner)
    requires Has(states, o)
    ensures Has(Replaced(states, o, s), p) <==> Has(states, p)
    ensures Has(states, p) ==> SlotOf(Replaced(states, o, s), p) == if p == o then s else SlotOf(states, p)
  {
  }

  lemma SlotReplaced<T>(states: map<nat, ThreadState<T>>, live: map<Handle, Owner>, o: Owner, s: Slot<T>,
                        live': map<Handle, Owner>)
    requires Owned(states, live) && Has(states, o) && Swaps(live, o, s, live')
    ensures Owned(Replaced(states, o, s), live')
  {
    var states' := Replaced(states, o, s);
    forall p | Has(states', p)
      ensures Owns(live', p, SlotOf(states', p))
    {
      OthersStay(states, o, s, p);
      if p != o { assert Owns(live, p, SlotOf(states, p)); }
    }
    forall h | h in live'
      ensures Has(states', live'[h]) && h in Handles(SlotOf(states', live'[h]))
    {
      OthersStay(states, o, s, live'[h]);
    }
  }

  lemma SameHandles<T>(states: map<nat, ThreadState<T>>, t: nat, st: ThreadState<T>, p: Owner)
    requires t in states && |st.slots| == |states[t].slots|
    requires forall i :: 0 <= i < |st.slots| ==> Handles(st.slots[i]) == Handles(states[t].slots[i])
    ensures Has(states[t := st], p) <==> Has(states, p)
    ensures Has(states, p) ==> Handles(SlotOf(states[t := st], p)) == Handles(SlotOf(states, p))
  {
  }

  // Changing only what is pending changes nothing about ownership.
  lemma QueueChanged<T>(states: map<nat, ThreadState<T>>, live: map<Handle, Owner>, t: nat, st: ThreadState<T>)
    requires Owned(states, live) && t in states && |st.slots| == |states[t].slots|
    requires forall i :: 0 <= i < |st.slots| ==> Handles(st.slots[i]) == Handles(states[t].slots[i])
    ensures Owned(states[t := st], live)
  {
    var states' := states[t := st];
    forall p | Has(states', p)
      ensures Owns(live, p, SlotOf(states', p))
    {
      SameHandles(states, t, st, p);
      assert Owns(live, p, SlotOf(states, p));
    }
    forall h | h in live
      ensures Has(states', live[h]) && h in Handles(SlotOf(states', live[h]))
    {
      SameHandles(states, t, st, live[h]);
    }
  }

  // A thread with the given slots, none of them in use.
  function Built<T>(states: map<nat, ThreadState<T>>, t: nat, slots: seq<Slot<T>>): map<nat, ThreadState<T>> {
    states[t := ThreadState(slots, [])]
  }

  // A thread's state under construction, or being taken down, slot by slot.
  lemma NoSlotsYet<T>(states: map<nat, ThreadState<T>>, live: map<Handle, Owner>, t: nat)
    requires t !in states
    ensures Owned(states, live) <==> Owned(states[t := ThreadState([], [])], live)
  {
    var states' := states[t := ThreadState([], [])];
    assert forall o :: Has(states', o) <==> Has(states, o);
    assert forall o :: Has(states, o) ==> SlotOf(states', o) == SlotOf(states, o);
  }

  lemma SlotAdded<T>(states: map<nat, ThreadState<T>>, live: map<Handle, Owner>, t: nat, slots: seq<Slot<T>>, s: Slot<T>,
                     live': map<Handle, Owner>)
    requires Owned(Built(states, t, slots), live)
    requires Adds(live, live', Owner(t, |slots|), s)
    ensures Owned(Built(states, t, slots + [s]), live')
  {
    var before, after := states[t := ThreadState(slots, [])], states[t := ThreadState(slots + [s], [])];
    var o := Owner(t, |slots|);
    forall p | Has(after, p)
      ensures Owns(live', p, SlotOf(after, p))
    {
      if p != o { assert Has(before, p) && SlotOf(after, p) == SlotOf(before, p) && Owns(live, p, SlotOf(before, p)); }
    }
    forall h | h in live'
      ensures Has(after, live'[h]) && h in Handles(SlotOf(after, live'[h]))
    {
      assert h in live ==> Has(before, live[h]) && SlotOf(after, live[h]) == SlotOf(before, live[h]);
    }
  }

  lemma WithoutLast<T>(states: map<nat, ThreadState<T>>, t: nat, slots: seq<Slot<T>>, p: Owner)
    requires slots != []
    ensures var before, after := Built(states, t, slots), Built(states, t, slots[..|slots| - 1]);
            && (Has(after, p) <==> Has(before, p) && p != Owner(t, |slots| - 1))
            && (Has(after, p) ==> SlotOf(after, p) == SlotOf(before, p))
  {
  }

  lemma SlotRemoved<T>(states: map<nat, ThreadState<T>>, live: map<Handle, Owner>, t: nat, slots: seq<Slot<T>>)
    requires slots != [] && Owned(Built(states, t, slots), live)
    ensures Owned(Built(states, t, slots[..|slots| - 1]), live - Handles(slots[|slots| - 1]))
  {
    var n := |slots| - 1;
    var before, after := Built(states, t, slots), Built(states, t, slots[..n]);
    var live' := live - Handles(slots[n]);
    var o := Owner(t, n);
    assert Has(before, o) && SlotOf(before, o) == slots[n] && Owns(live, o, slots[n]);
    assert forall h :: h in live' <==> h in live && live[h] != o;
    forall p | Has(after, p)
      ensures Owns(live', p, SlotOf(after, p))
    {
      WithoutLast(states, t, slots, p);
      assert Owns(live, p, SlotOf(before, p));
    }
    forall h | h in live'
      ensures Has(after, live'[h]) && h in Handles(SlotOf(after, live'[h]))
    {
      WithoutLast(states, t, slots, live[h]);
    }
  }

  // ----- the pipeline --------------------------------------------------------------

  ghost predicate StateOk<T>(st: ThreadState<T>, depth: nat) {
    && |st.slots| == depth && QueueOk(st)
    && (forall i :: 0 <= i < depth ==> SlotOk(st.slots[i]))
  }

  ghost predicate PipelineOk<T>(states: map<nat, ThreadState<T>>, live: map<Handle, Owner>, next: nat, depth: nat) {
    && depth > 0 && Owned(states, live) && Below(live, next)
    && (forall t :: t in states ==> StateOk(states[t], depth))
  }

  datatype Found = Ready | AlreadyClosed | SetupFailed

  // Accepted with the tokens completed on the way, refused before anything was done,
  // or failed: a token completed on the way is then lost.
  datatype Submission<T> = Accepted(completed: seq<T>) | Refused | Failed

  class Pipeline<T(!new)> {
    const depth: nat
    var states: map<nat, ThreadState<T>>  // a thread's state, until close has released it
    var closed: bool
    var next: nat                     // the next handle number the runtime gives out
    ghost var live: map<Handle, Owner>  // the runtime's live objects

    ghost predicate Valid()
      reads this
    {
      PipelineOk(states, live, next, depth)
    }

    // The tokens a thread has in flight, oldest first.
    ghost function Queue(t: nat): seq<T>
      requires Valid()
      reads this
    {
      if t in states then Contents(states[t]) else []
    }

    // The runtime as the section functions see it.
    ghost function Rt(): Runtime
      reads this
    {
      Runtime(live, next, false)
    }

    constructor (depth: nat)
      requires depth > 0
      ensures Valid() && this.depth == depth && states == map[] && live == map[] && !closed
    {
      this.depth := depth;
      states, closed, next, live := map[], false, 1, map[];
    }

    // A release call: what it releases must be live.
    method Release(h: Handle)
      requires h in live
      modifies this`live
      ensures live == old(live) - {h}
    {
      live := live - {h};
    }

    // The stream and events of a new slot.  `fails` numbers the creation call, if any, that
    // fails; what was created before it is released again.
    method NewSlot(fails: Option<nat>, ghost o: Owner) returns (s: Option<Slot<T>>)
      requires Below(live, next)
      modifies this`live, this`next
      ensures next >= old(next) && Below(live, next)
      ensures s.None? <==> fails.Some? && fails.value < 3
      ensures s.None? ==> live == old(live)
      ensures s.Some? ==> SlotOk(s.value) && s.value.pending.None? && Adds(old(live), live, o, s.value)
      ensures s.Some? ==> s.value == FreshSlot(old(next)) && next == old(next) + 3
    {
      if fails == Some(0) { return None; }
      var stream := next;
      live, next := live[Stream(stream) := o], next + 1;
      if fails == Some(1) {
        Release(Stream(stream));
        Undone(old(live), Stream(stream), o);
        return None;
      }
      var start := next;
      live, next := live[Event(start) := o], next + 1;
      if fails == Some(2) {
        Release(Event(start));
        Release(Stream(stream));
        Undone(old(live)[Stream(stream) := o], Event(start), o);
        Undone(old(live), Stream(stream), o);
        return None;
      }
      var done := next;
      live, next := live[Event(done) := o], next + 1;
      s := Some(Slot(stream, start, done, 0, 0, 0, 0, None));
      FreshAdds<T>(old(live), stream, o);
    }

    // Releasing what a slot holds: each object once.
    method ReleaseSlot(s: Slot<T>, ghost o: Owner)
      requires SlotOk(s) && Owns(live, o, s)
      modifies this`live
      ensures live == old(live) - Handles(s)
    {
      if s.device != 0 { Release(Device(s.device)); }
      if s.host != 0 { Release(Host(s.host)); }
      Release(Event(s.doneEvent));
      Release(Event(s.startEvent));
      Release(Stream(s.stream));
    }

    // Releasing all slots of a thread, last slot first.
    method ReleaseSlots(t: nat, slots: seq<Slot<T>>, ghost rest: map<nat, ThreadState<T>>)
      requires t !in rest && Owned(Built(rest, t, slots), live)
      requires forall i :: 0 <= i < |slots| ==> SlotOk(slots[i])
      modifies this`live
      ensures Owned(rest, live) && Outside(live, t) == old(Outside(live, t)) && live.Keys <= old(live).Keys
      ensures live == FreeSlots(old(Rt()), slots).live
    {
      var n := |slots|;
      assert slots[..n] == slots;
      while n > 0
        invariant 0 <= n <= |slots| && Releasing(rest, t, slots, n, old(live), live)
      {
        LastSlotGoes(rest, t, slots, n, old(live), live);
        ReleaseSlot(slots[n - 1], Owner(t, n - 1));
        n := n - 1;
      }
      AllReleased(rest, t, slots, old(Rt()), live);
    }

    // One more slot of a new state, or the release of all there are if that fails.
    method AddSlot(t: nat, slots: seq<Slot<T>>, fails: Option<nat>, ghost r: Runtime)
      returns (more: Option<seq<Slot<T>>>)
      requires t !in states && Making(states, t, slots, r, live, next)
      modifies this`live, this`next
      ensures more.None? <==> fails.Some? && fails.value < 3
      ensures if more.None? then live == r.live && next >= old(next) && Below(live, next)
              else |more.value| == |slots| + 1 && Making(states, t, more.value, r, live, next)
    {
      ghost var before, number := live, next;
      var s := NewSlot(fails, Owner(t, |slots|));
      if s.None? {
        NewAreOk(slots, r.next);
        ReleaseSlots(t, slots, states);
        OutsideAll(states, live, t);
        return None;
      }
      MakingMore(states, t, slots, r, before, number, s.value, live, next);
      more := Some(slots + [s.value]);
    }

    // _new_thread_state: a failed setup releases everything it created.
    method NewSlots(t: nat, fails: Option<nat>) returns (r: Option<seq<Slot<T>>>)
      requires Valid() && t !in states
      modifies this`live, this`next
      ensures next >= old(next) && Below(live, next)
      ensures r.None? <==> fails.Some? && fails.value < 3 * depth
      ensures r.None? ==> live == old(live)
      ensures r.Some? ==> |r.value| == depth && Owned(Built(states, t, r.value), live)
      ensures r.Some? ==> forall i :: 0 <= i < depth ==> SlotOk(r.value[i]) && r.value[i].pending.None?
      ensures r.Some? ==> Setup(r.value, live) == SetUp(Setup([], old(live)), t, old(next), depth)
    {
      var slots: seq<Slot<T>> := [];
      NoSlotsYet(states, live, t);
      OutsideAll(states, live, t);
      while |slots| < depth
        invariant |slots| <= depth && Making(states, t, slots, old(Rt()), live, next)
        invariant fails.Some? ==> fails.value >= 3 * |slots|
        decreases depth - |slots|
      {
        var left := if fails.None? then None else Some(fails.value - 3 * |slots|);
        var more := AddSlot(t, slots, left, old(Rt()));
        if more.None? { return None; }
        slots := more.value;
      }
      NewAreOk(slots, old(next));
      SetUpIs(states, t, old(Rt()), depth, slots, live);
      r := Some(slots);
    }

    // _state_for_current_thread
    method StateFor(t: nat, fails: Option<nat>) returns (r: Found)
      requires Valid()
      modifies this
      ensures Valid() && closed == old(closed)
      ensures r.AlreadyClosed? <==> closed
      ensures r.SetupFailed? <==> !closed && t !in old(states) && fails.Some? && fails.value < 3 * depth
      ensures !r.Ready? || t in old(states) ==> states == old(states) && live == old(live)
      ensures r.Ready? ==> t in states && states == old(states)[t := states[t]]
      ensures r.Ready? && t !in old(states) ==> states[t].pending == []
    {
      if closed { return AlreadyClosed; }
      if t in states { return Ready; }
      var slots := NewSlots(t, fails);
      if slots.None? { return SetupFailed; }
      states := Built(states, t, slots.value);
      r := Ready;
    }

    method ReleaseBuffers(s: Slot<T>)
      requires Buffers(s) <= live.Keys
      modifies this`live
      ensures live == old(live) - Buffers(s)
    {
      if s.device != 0 { Release(Device(s.device)); }
      if s.host != 0 { Release(Host(s.host)); }
    }

    // The larger buffers of a slot, and the release of the ones they replace.
    method NewBuffers(slot: Slot<T>, size: nat, io: SubmitIo, ghost o: Owner) returns (r: Option<Slot<T>>)
      requires SlotOk(slot) && Exactly(live, o, slot) && Below(live, next) && size > 0
      modifies this`live, this`next
      ensures next >= old(next) && Below(live, next)
      ensures r.None? <==> !(io.hostAlloc && io.deviceAlloc)
      ensures r.None? ==> live == old(live)
      ensures r.Some? ==> SlotOk(r.value) && r.value.pending == slot.pending && r.value.hostCapacity == size
      ensures r.Some? ==> Swaps(old(live), o, r.value, live)
      ensures r.Some? ==> r.value == WithBuffers(slot, old(next), old(next) + 1, size)
      ensures Buys(old(Rt()), slot, o, io, live, next)
    {
      if !io.hostAlloc { return None; }
      var host := next;
      live, next := live[Host(host) := o], next + 1;
      if !io.deviceAlloc {
        Release(Host(host));
        return None;
      }
      var device := next;
      live, next := live[Device(device) := o], next + 1;
      ReleaseBuffers(slot);
      BuffersSwapped(old(live), o, slot, host, device, size);
      r := Some(WithBuffers(slot, host, device, size));
    }

    // Both buffers of a slot are replaced by larger ones, or everything is left as it is.
    method MoreCapacity(t: nat, i: nat, size: nat, io: SubmitIo) returns (raised: bool)
      requires Valid() && t in states && i < depth && size > 0 && !Roomy(states[t].slots[i], size)
      modifies this
      ensures Valid() && closed == old(closed)
      ensures raised <==> !(io.hostAlloc && io.deviceAlloc)
      ensures raised ==> states == old(states) && live == old(live)
      ensures t in states && states == old(states)[t := states[t]] && Queue(t) == old(Queue(t))
      ensures Buys(old(Rt()), old(states)[t].slots[i], Owner(t, i), io, live, next)
      ensures !raised ==> states[t] == Bought(old(states)[t], i, old(next), size)
    {
      var st := states[t];
      ghost var before, number := live, next;
      OwnsExactly(states, live, Owner(t, i));
      var grown := NewBuffers(st.slots[i], size, io, Owner(t, i));
      if grown.None? { return true; }
      SlotGrows(states, before, number, depth, t, i, grown.value, live, next);
      states := states[t := st.(slots := st.slots[i := grown.value])];
      raised := false;
    }

    // _ensure_slot_capacity
    method EnsureCapacity(t: nat, i: nat, size: nat, io: SubmitIo) returns (raised: bool)
      requires Valid() && t in states && i < depth && size > 0
      modifies this
      ensures Valid() && closed == old(closed)
      ensures raised <==> old(states)[t].slots[i].hostCapacity < size && !(io.hostAlloc && io.deviceAlloc)
      ensures raised ==> states == old(states) && live == old(live)
      ensures t in states && states == old(states)[t := states[t]] && Queue(t) == old(Queue(t))
      ensures states[t].slots[i].pending == old(states)[t].slots[i].pending && Grown(old(states)[t], states[t])
      ensures !raised ==> states[t].slots[i].hostCapacity >= size && states[t].slots[i].deviceCapacity >= size
      ensures GrownAs(old(Rt()), old(states)[t], Owner(t, i), size, io, raised, Rt(), states[t])
    {
      var slot := states[t].slots[i];
      if slot.hostCapacity >= size && slot.deviceCapacity >= size {
        SlotKept(states[t], i);
        return false;
      }
      raised := MoreCapacity(t, i, size, io);
      GrowIs(old(Rt()), old(states)[t], Owner(t, i), size, io, raised, live, next);
    }

    // _complete_front.  `ready`: the front's event has fired, or asking for it fails.
    method CompleteFront(t: nat, block: bool, ready: bool) returns (r: Option<T>)
      requires Valid() && t in states
      modifies this`states
      ensures Valid() && t in states && states == old(states)[t := states[t]]
      ensures r.Some? <==> old(Queue(t)) != [] && (block || ready)
      ensures if r.Some? then [r.value] + Queue(t) == old(Queue(t)) else states == old(states)
      ensures SameBuffers(old(states)[t], states[t])
      ensures r.Some? ==> FrontOk(old(states)[t]) && states[t] == Popped(old(states)[t])
    {
      var st := states[t];
      if st.pending == [] || !(block || ready) { return None; }
      PopKeepsOk(states, live, next, depth, t);
      r := st.slots[st.pending[0]].pending;
      states := states[t := Popped(st)];
    }

    // The loop of a poll.  `ready`: how many fronts complete before one is not ready.  Whatever
    // holds at first and is kept by taking a front holds at the end.
    method PollFronts(t: nat, ready: nat, ghost kept: (nat, ThreadState<T>) -> bool) returns (done: seq<T>)
      requires Valid() && t in states && kept(0, states[t]) && KeptByPop(kept)
      modifies this`states
      ensures Valid() && t in states && states == old(states)[t := states[t]]
      ensures done + Queue(t) == old(Queue(t))
      ensures |done| == if ready < |old(Queue(t))| then ready else |old(Queue(t))|
      ensures kept(|done|, states[t])
    {
      done := [];
      while states[t].pending != []
        invariant Valid() && t in states && states == old(states)[t := states[t]]
        invariant done + Queue(t) == old(Queue(t)) && |done| <= ready
        invariant kept(|done|, states[t])
        decreases |Queue(t)|
      {
        ghost var m, q := states, Queue(t);
        var front := CompleteFront(t, false, |done| < ready);
        if front.None? { return; }
        KeptOnce(kept, |done|, m[t], states[t]);
        StillOnly(old(states), m, states, t);
        FrontMoved(done, front.value, Queue(t), q);
        done := done + [front.value];
      }
    }

    // A poll under the state's lock.
    method PollReady(t: nat, ready: nat) returns (done: seq<T>)
      requires Valid() && t in states
      modifies this`states
      ensures Valid() && t in states && states == old(states)[t := states[t]]
      ensures done + Queue(t) == old(Queue(t))
      ensures |done| == if ready < |old(Queue(t))| then ready else |old(Queue(t))|
      ensures states[t] == Polled(old(Rt()), old(states)[t], ready).st
    {
      PopsCompose(states[t]);
      done := PollFronts(t, ready, PopsOf(states[t]));
      PolledIs(old(Rt()), old(states)[t], ready, |done|, states[t]);
    }

    // poll_current_thread
    method Poll(t: nat, ready: nat, fails: Option<nat>) returns (found: Found, done: seq<T>)
      requires Valid()
      modifies this
      ensures Valid() && closed == old(closed)
      ensures done + Queue(t) == old(Queue(t))
      ensures found.Ready? ==> |done| == if ready < |old(Queue(t))| then ready else |old(Queue(t))|
      ensures !found.Ready? ==> done == []
      ensures forall u :: u != t ==> Queue(u) == old(Queue(u))
      ensures found.Ready? <==> !closed && (t in old(states) || fails.None? || fails.value >= 3 * depth)
      ensures if found.Ready? then t in states else states == old(states)
    {
      done := [];
      found := StateFor(t, fails);
      if found.Ready? { done := PollReady(t, ready); }
    }

    // The first slot with nothing pending; the queue is not full, so there is one.
    method FirstFree(t: nat) returns (i: nat)
      requires Valid() && t in states && |Queue(t)| < depth
      ensures i < depth && states[t].slots[i].pending.None?
      ensures forall j :: 0 <= j < i ==> states[t].slots[j].pending.Some?
      ensures i == FreeIndex(states[t], 0)
    {
      i := 0;
      NotAllTaken(states[t], i);
      while states[t].slots[i].pending.Some?
        invariant 0 <= i < depth && forall j :: 0 <= j < i ==> states[t].slots[j].pending.Some?
        decreases depth - i
      {
        i := i + 1;
        NotAllTaken(states[t], i);
      }
      FreeIndexIs(states[t], i, 0);
    }

    // A full queue is made room in by waiting for its front.
    method MakeRoom(t: nat) returns (completed: seq<T>)
      requires Valid() && t in states
      modifies this`states
      ensures Valid() && t in states && states == old(states)[t := states[t]]
      ensures completed + Queue(t) == old(Queue(t)) && |Queue(t)| < depth
      ensures |completed| == if |old(Queue(t))| == depth then 1 else 0
      ensures SameBuffers(old(states)[t], states[t])
      ensures states[t] == Roomed(old(states)[t], depth)
    {
      QueueIsBounded(states[t]);
      completed := [];
      if |states[t].pending| >= depth {
        var front := CompleteFront(t, true, false);
        completed := [front.value];
      }
    }

    // The submitted copy becomes pending in its slot and joins the end of the queue.
    method Enqueue(t: nat, i: nat, size: nat, token: T)
      requires Valid() && t in states && i < depth && states[t].slots[i].pending.None?
      requires states[t].slots[i].hostCapacity >= size && states[t].slots[i].deviceCapacity >= size
      modifies this`states
      ensures Valid() && t in states && states == old(states)[t := states[t]]
      ensures Queue(t) == old(Queue(t)) + [token] && states[t] == Pushed(old(states)[t], i, token)
      ensures SameBuffers(old(states)[t], states[t]) && Fits(states[t], size)
    {
      PushKeepsOk(states, live, next, depth, t, i, token);
      states := states[t := Pushed(states[t], i, token)];
    }

    // A free slot with buffers large enough, unless getting them fails.
    method PrepareSlot(t: nat, size: nat, io: SubmitIo) returns (i: nat, raised: bool)
      requires Valid() && t in states && size > 0 && |Queue(t)| < depth
      modifies this
      ensures Valid() && closed == old(closed) && t in states && states == old(states)[t := states[t]]
      ensures Queue(t) == old(Queue(t)) && Grown(old(states)[t], states[t])
      ensures io.hostAlloc && io.deviceAlloc ==> !raised
      ensures i == FreeIndex(old(states)[t], 0) && i < depth
      ensures GrownAs(old(Rt()), old(states)[t], Owner(t, i), size, io, raised, Rt(), states[t])
      ensures !raised ==> states[t].slots[i].pending.None?
                          && states[t].slots[i].hostCapacity >= size && states[t].slots[i].deviceCapacity >= size
    {
      i := FirstFree(t);
      raised := EnsureCapacity(t, i, size, io);
    }

    // The copy itself, once the queue has room.
    method SubmitInRoom(t: nat, size: nat, token: T, io: SubmitIo) returns (ok: bool)
      requires Valid() && t in states && size > 0 && |Queue(t)| < depth
      modifies this
      ensures Valid() && closed == old(closed) && t in states && states == old(states)[t := states[t]]
      ensures Queue(t) == if ok then old(Queue(t)) + [token] else old(Queue(t))
      ensures io.recordStart && io.copy && io.recordDone && io.hostAlloc && io.deviceAlloc ==> ok
      ensures !(io.recordStart && io.copy && io.recordDone) ==> !ok
      ensures Grown(old(states)[t], states[t]) && (ok ==> Fits(states[t], size))
      ensures SubmitsAs(old(Rt()), old(states)[t], t, SubmitCall(size, token, io), Rt(), states[t])
    {
      var i, raised := PrepareSlot(t, size, io);
      ghost var m := states;
      SubmittedIs(old(Rt()), old(states)[t], t, SubmitCall(size, token, io), raised, Rt(), m[t]);
      if raised || !io.recordStart || !io.copy || !io.recordDone { return false; }
      Enqueue(t, i, size, token);
      SameIsGrown(m[t], states[t]);
      GrownTwice(old(states)[t], m[t], states[t]);
      StillOnly(old(states), m, states, t);
      ok := true;
    }

    // submit_from_host, the part under the state's lock.
    method SubmitReady(t: nat, size: nat, token: T, io: SubmitIo) returns (r: Submission<T>)
      requires Valid() && t in states && size > 0
      modifies this
      ensures Valid() && closed == old(closed) && t in states && states == old(states)[t := states[t]]
      ensures !r.Refused?
      ensures r.Accepted? ==> r.completed + Queue(t) == old(Queue(t)) + [token]
      ensures r.Accepted? ==> |r.completed| == if |old(Queue(t))| == depth then 1 else 0
      ensures r.Failed? ==> Queue(t) == if |old(Queue(t))| == depth then old(Queue(t))[1..] else old(Queue(t))
      ensures io.recordStart && io.copy && io.recordDone && io.hostAlloc && io.deviceAlloc ==> r.Accepted?
      ensures !(io.recordStart && io.copy && io.recordDone) ==> r.Failed?
      ensures Grown(old(states)[t], states[t])
      ensures r.Accepted? ==> Fits(states[t], size)
      ensures var x := Submitted(old(Rt()), old(states)[t], t, depth, SubmitCall(size, token, io));
              states[t] == x.st && live == x.rt.live && next == x.rt.next
    {
      var completed := MakeRoom(t);
      ghost var m := states;
      SameIsGrown(old(states)[t], m[t]);
      RoomMade(completed, Queue(t), old(Queue(t)), token);
      var ok := SubmitInRoom(t, size, token, io);
      GrownTwice(old(states)[t], m[t], states[t]);
      StillOnly(old(states), m, states, t);
      RoomThenSubmit(old(Rt()), old(states)[t], t, depth, SubmitCall(size, token, io), Rt(), states[t]);
      r := if ok then Accepted(completed) else Failed;
    }

    // submit_from_host, when no close comes between its two critical sections
    method Submit(t: nat, source: int, size: int, token: T, io: SubmitIo, fails: Option<nat>) returns (r: Submission<T>)
      requires Valid()
      modifies this
      ensures Valid() && closed == old(closed)
      ensures r.Refused? <==>
                source <= 0 || size <= 0 || closed || (t !in old(states) && fails.Some? && fails.value < 3 * depth)
      ensures r.Refused? ==> states == old(states) && live == old(live)
      ensures !r.Refused? ==> t in states && states == old(states)[t := states[t]]
      ensures r.Accepted? ==> r.completed + Queue(t) == old(Queue(t)) + [token] && Fits(states[t], size)
      ensures r.Accepted? ==> |r.completed| == if |old(Queue(t))| == depth then 1 else 0
      ensures r.Failed? ==> Queue(t) == if |old(Queue(t))| == depth then old(Queue(t))[1..] else old(Queue(t))
      ensures !r.Refused? && t in old(states) ==> Grown(old(states)[t], states[t])
      ensures !r.Refused? && io.recordStart && io.copy && io.recordDone && io.hostAlloc && io.deviceAlloc ==> r.Accepted?
      ensures !(io.recordStart && io.copy && io.recordDone) ==> !r.Accepted?
      ensures forall u :: u != t ==> Queue(u) == old(Queue(u))
    {
      if source <= 0 || size <= 0 { return Refused; }
      var found := StateFor(t, fails);
      if !found.Ready? { return Refused; }
      ghost var m := states;
      r := SubmitReady(t, size, token, io);
      StillOnly(old(states), m, states, t);
    }

    // The loop of a drain.
    method DrainReady(t: nat) returns (done: seq<T>)
      requires Valid() && t in states
      modifies this`states
      ensures Valid() && t in states && states == old(states)[t := states[t]]
      ensures done == old(Queue(t)) && Queue(t) == []
      ensures states[t] == Drained(old(Rt()), old(states)[t]).st
    {
      done := [];
      ghost var r := Rt();
      while states[t].pending != []
        invariant Valid() && t in states && states == old(states)[t := states[t]]
        invariant done + Queue(t) == old(Queue(t))
        invariant Drained(r, states[t]) == Drained(old(Rt()), old(states)[t])
        decreases |Queue(t)|
      {
        ghost var m, q := states, Queue(t);
        var front := CompleteFront(t, true, false);
        r := Front(r, m[t]).rt;
        StillOnly(old(states), m, states, t);
        FrontMoved(done, front.value, Queue(t), q);
        done := done + [front.value];
      }
    }

    // drain_current_thread
    method Drain(t: nat, fails: Option<nat>) returns (found: Found, done: seq<T>)
      requires Valid()
      modifies this
      ensures Valid() && closed == old(closed)
      ensures if found.Ready? then done == old(Queue(t)) && Queue(t) == [] else done == [] && Queue(t) == old(Queue(t))
      ensures forall u :: u != t ==> Queue(u) == old(Queue(u))
      ensures found.Ready? <==> !closed && (t in old(states) || fails.None? || fails.value >= 3 * depth)
      ensures if found.Ready? then t in states else states == old(states)
    {
      done := [];
      found := StateFor(t, fails);
      if found.Ready? { done := DrainReady(t); }
    }

    // close, under the pipeline's lock: no thread gets a state any more.
    method Shut()
      requires Valid()
      modifies this`closed
      ensures Valid() && closed
    {
      closed := true;
    }

    // close, under one state's lock: wait for what is pending, then release every object of the
    // slots, and none of any other thread.
    method Sweep(t: nat)
      requires Valid() && t in states
      modifies this`states, this`live
      ensures Valid() && states == old(states) - {t}
      ensures live == old(Outside(live, t))
      ensures var d := Drained(old(Rt()), old(states)[t]); live == FreeSlots(d.rt, d.st.slots).live
    {
      var st := states[t];
      ghost var r := Rt();
      while st.pending != []
        invariant states == old(states) && live == old(live)
        invariant StateOk(st, depth) && SameBuffers(states[t], st)
        invariant r.live == live && Drained(r, st) == Drained(old(Rt()), old(states)[t])
        decreases |st.pending|
      {
        PopKeepsState(st, depth);
        r := Front(r, st).rt;
        st := Popped(st);
      }
      AtRest(states, live, t, st);
      FreeAlike(Rt(), r, st.slots);
      ReleaseSlots(t, st.slots, states - {t});
      OutsideAll(states - {t}, live, t);
      states := states - {t};
    }

    // close, when no other critical section comes between its own
    method Close()
      requires Valid()
      modifies this
      ensures Valid() && closed
      ensures if old(closed) then states == old(states) && live == old(live) else states == map[] && live == map[]
    {
      if closed { return; }
      Shut();
      while states != map[]
        invariant Valid() && closed
        decreases states.Keys
      {
        assert states.Keys != {};
        var t := Pick(states.Keys);
        Sweep(t);
      }
      NothingLeft(states, live);
    }
  }

  // ----- sections --------------------------------------------------------------------

  // The runtime after a slot's buffers were replaced, or that failed.
  ghost predicate Buys<T>(r: Runtime, slot: Slot<T>, o: Owner, io: SubmitIo, live: map<Handle, Owner>, next: nat) {
    if io.hostAlloc && io.deviceAlloc
    then next == r.next + 2 && live == r.live[Host(r.next) := o][Device(r.next + 1) := o] - Buffers(slot)
    else live == r.live && next == r.next + if io.hostAlloc then 1 else 0
  }

  function Bought<T>(st: ThreadState<T>, i: nat, n: nat, size: nat): ThreadState<T>
    requires i < |st.slots|
  {
    st.(slots := st.slots[i := WithBuffers(st.slots[i], n, n + 1, size)])
  }

  // What happened to the runtime and a thread's state is what the section function says.
  ghost predicate GrownAs<T>(r: Runtime, st: ThreadState<T>, o: Owner, size: nat, io: SubmitIo, raised: bool,
                             r': Runtime, st': ThreadState<T>)
    requires o.slot < |st.slots|
  {
    var g := Grow(r, st.slots[o.slot], o, size, io);
    && raised == !g.ok && r'.live == g.rt.live && r'.next == g.rt.next
    && st' == st.(slots := st.slots[o.slot := g.slot])
  }

  lemma SlotKept<T>(st: ThreadState<T>, i: nat)
    requires i < |st.slots|
    ensures st.(slots := st.slots[i := st.slots[i]]) == st
  {
  }

  lemma GrowIs<T>(r: Runtime, st: ThreadState<T>, o: Owner, size: nat, io: SubmitIo, raised: bool,
                  live: map<Handle, Owner>, next: nat)
    requires o.slot < |st.slots| && Below(r.live, r.next) && !Roomy(st.slots[o.slot], size)
    requires Buys(r, st.slots[o.slot], o, io, live, next) && (raised <==> !(io.hostAlloc && io.deviceAlloc))
    ensures GrownAs(r, st, o, size, io, raised, Runtime(live, next, false),
                    if raised then st else Bought(st, o.slot, r.next, size))
  {
    if raised {
      SlotKept(st, o.slot);
      assert r.live[Host(r.next) := o] - {Host(r.next)} == r.live;
    } else {
      var host := Alloc(r, Host(r.next), o);
      BuffersFreed(Alloc(host, Device(host.next), o), st.slots[o.slot]);
    }
  }

  // A full queue without its front.
  function Roomed<T>(st: ThreadState<T>, depth: nat): ThreadState<T> {
    if |st.pending| >= depth && FrontOk(st) then Popped(st) else st
  }

  ghost predicate SubmitsAs<T>(r: Runtime, st: ThreadState<T>, t: nat, c: Call<T>, r': Runtime, st': ThreadState<T>)
    requires c.SubmitCall?
  {
    var i := FreeIndex(st, 0);
    && i < |st.slots|
    && var x := SubmittedAt(r, st, Owner(t, i), c); r'.live == x.rt.live && r'.next == x.rt.next && st' == x.st
  }

  lemma SubmittedIs<T>(r: Runtime, st: ThreadState<T>, t: nat, c: Call<T>, raised: bool, r': Runtime,
                       st': ThreadState<T>)
    requires c.SubmitCall? && FreeIndex(st, 0) < |st.slots|
    requires GrownAs(r, st, Owner(t, FreeIndex(st, 0)), c.size, c.io, raised, r', st')
    ensures var done := !raised && c.io.recordStart && c.io.copy && c.io.recordDone;
            && FreeIndex(st, 0) < |st'.slots|
            && SubmitsAs(r, st, t, c, r', if done then Pushed(st', FreeIndex(st, 0), c.token) else st')
  {
    SlotKept(st, FreeIndex(st, 0));
  }

  // Runtimes that differ in their history only.
  ghost predicate Alike(r: Runtime, r': Runtime) { r.live == r'.live && r.next == r'.next }

  lemma GrowAlike<T>(r: Runtime, r': Runtime, s: Slot<T>, o: Owner, size: nat, io: SubmitIo)
    requires Alike(r, r')
    ensures var g, g' := Grow(r, s, o, size, io), Grow(r', s, o, size, io);
            g.ok == g'.ok && g.slot == g'.slot && Alike(g.rt, g'.rt)
  {
    var host, host' := Alloc(r, Host(r.next), o), Alloc(r', Host(r'.next), o);
    assert Alike(host, host');
    if io.deviceAlloc {
      BuffersFreed(Alloc(host, Device(host.next), o), s);
      BuffersFreed(Alloc(host', Device(host'.next), o), s);
    }
  }

  lemma CopiedAlike<T>(r: Runtime, s: Slot<T>, io: SubmitIo)
    ensures Alike(r, Copied(r, s, io))
  {
  }

  // Using an object changes nothing but the history.
  lemma AlikeAt<T>(r: Runtime, r': Runtime, st: ThreadState<T>, o: Owner, c: Call<T>)
    requires c.SubmitCall? && o.slot < |st.slots| && Alike(r, r')
    ensures var x, y := SubmittedAt(r, st, o, c), SubmittedAt(r', st, o, c); x.st == y.st && Alike(x.rt, y.rt)
  {
    GrowAlike(r, r', st.slots[o.slot], o, c.size, c.io);
    var g, g' := Grow(r, st.slots[o.slot], o, c.size, c.io), Grow(r', st.slots[o.slot], o, c.size, c.io);
    CopiedAlike(g.rt, g.slot, c.io);
    CopiedAlike(g'.rt, g'.slot, c.io);
  }

  lemma RoomThenSubmit<T>(r: Runtime, st: ThreadState<T>, t: nat, depth: nat, c: Call<T>, r': Runtime,
                          st': ThreadState<T>)
    requires c.SubmitCall? && SubmitsAs(r, Roomed(st, depth), t, c, r', st')
    ensures var x := Submitted(r, st, t, depth, c); st' == x.st && r'.live == x.rt.live && r'.next == x.rt.next
  {
    if |st.pending| >= depth && FrontOk(st) {
      AlikeAt(r, Front(r, st).rt, Popped(st), Owner(t, FreeIndex(Popped(st), 0)), c);
    }
  }

  lemma BuffersFreed<T>(r: Runtime, s: Slot<T>)
    ensures var r' := FreeIf(FreeIf(r, s.device, Device(s.device)), s.host, Host(s.host));
            r'.live == r.live - Buffers(s) && r'.next == r.next
  {
  }

  lemma SlotFreed<T>(r: Runtime, s: Slot<T>)
    ensures FreeSlot(r, s).live == r.live - Handles(s)
  {
    BuffersFreed(r, s);
  }

  // Releasing a thread's slots leaves what the others own.
  lemma {:induction false} FreedIsOutside<T>(r: Runtime, rest: map<nat, ThreadState<T>>, t: nat, slots: seq<Slot<T>>)
    requires t !in rest && Owned(Built(rest, t, slots), r.live)
    ensures FreeSlots(r, slots).live == Outside(r.live, t)
    decreases |slots|
  {
    if slots == [] {
      NoSlotsYet(rest, r.live, t);
      OutsideAll(rest, r.live, t);
    } else {
      var s, o := slots[|slots| - 1], Owner(t, |slots| - 1);
      var all := Built(rest, t, slots);
      assert Has(all, o) && SlotOf(all, o) == s;
      SlotRemoved(rest, r.live, t, slots);
      SlotFreed(r, s);
      OutsideKept(r.live, r.live - Handles(s), t, s, o);
      FreedIsOutside(FreeSlot(r, s), rest, t, slots[..|slots| - 1]);
    }
  }

  // Slots as they are created one after another.
  ghost predicate AllNew<T>(slots: seq<Slot<T>>, k: nat) {
    forall i :: 0 <= i < |slots| ==> slots[i] == FreshSlot(k + 3 * i)
  }

  lemma OneNew<T>(slots: seq<Slot<T>>, k: nat, s: Slot<T>)
    requires AllNew(slots, k) && s == FreshSlot(k + 3 * |slots|)
    ensures AllNew(slots + [s], k)
  {
  }

  lemma NewAreOk<T>(slots: seq<Slot<T>>, k: nat)
    requires AllNew(slots, k)
    ensures forall i :: 0 <= i < |slots| ==> SlotOk(slots[i]) && slots[i].pending.None?
  {
  }

  // A state with some of its slots, made from what was live at first.
  ghost predicate Making<T>(states: map<nat, ThreadState<T>>, t: nat, slots: seq<Slot<T>>, r: Runtime,
                            live: map<Handle, Owner>, next: nat) {
    && Below(live, next) && next == r.next + 3 * |slots| && AllNew(slots, r.next)
    && Owned(Built(states, t, slots), live) && Outside(live, t) == r.live
  }

  lemma MakingMore<T>(states: map<nat, ThreadState<T>>, t: nat, slots: seq<Slot<T>>, r: Runtime,
                      live: map<Handle, Owner>, next: nat, s: Slot<T>, live': map<Handle, Owner>, next': nat)
    requires Making(states, t, slots, r, live, next) && s == FreshSlot(next) && next' == next + 3
    requires Adds(live, live', Owner(t, |slots|), s) && Below(live', next')
    ensures Making(states, t, slots + [s], r, live', next')
  {
    SlotAdded(states, live, t, slots, s, live');
    OutsideAdded(live, live', Owner(t, |slots|), s);
    OneNew(slots, r.next, s);
  }

  lemma MakingFresh<T>(states: map<nat, ThreadState<T>>, t: nat, r: Runtime, x: Setup<T>, k: nat, n: nat)
    returns (x': Setup<T>)
    requires Making(states, t, x.slots, r, x.live, k) && n > 0
    ensures |x'.slots| == |x.slots| + 1 && Making(states, t, x'.slots, r, x'.live, k + 3)
    ensures SetUp(x, t, k, n) == SetUp(x', t, k + 3, n - 1)
  {
    FreshAdds<T>(x.live, k, Owner(t, |x.slots|));
    MakingMore(states, t, x.slots, r, x.live, k, FreshSlot(k), WithFresh(x.live, k, Owner(t, |x.slots|)), k + 3);
    x' := Setup(x.slots + [FreshSlot(k)], WithFresh(x.live, k, Owner(t, |x.slots|)));
  }

  lemma {:induction false} SetUpMakes<T>(states: map<nat, ThreadState<T>>, t: nat, r: Runtime, x: Setup<T>, k: nat,
                                         n: nat)
    requires Making(states, t, x.slots, r, x.live, k)
    ensures var y := SetUp(x, t, k, n);
            |y.slots| == |x.slots| + n && Making(states, t, y.slots, r, y.live, k + 3 * n)
    decreases n
  {
    if n > 0 {
      var x' := MakingFresh(states, t, r, x, k, n);
      SetUpMakes(states, t, r, x', k + 3, n - 1);
    }
  }

  // What the other threads own, and the slots of this one, determine what is live.
  lemma SameLive<T>(states: map<nat, ThreadState<T>>, live: map<Handle, Owner>, live': map<Handle, Owner>, t: nat)
    requires Owned(states, live) && Owned(states, live') && Outside(live, t) == Outside(live', t)
    ensures live == live'
  {
    forall h | h in live
      ensures h in live' && live'[h] == live[h]
    {
      assert Owns(live', live[h], SlotOf(states, live[h]));
    }
    forall h | h in live'
      ensures h in live
    {
      assert Owns(live, live'[h], SlotOf(states, live'[h]));
    }
  }

  lemma SetUpIs<T>(states: map<nat, ThreadState<T>>, t: nat, r: Runtime, depth: nat, slots: seq<Slot<T>>,
                   live: map<Handle, Owner>)
    requires Owned(states, r.live) && t !in states && Below(r.live, r.next) && |slots| == depth
    requires Making(states, t, slots, r, live, r.next + 3 * depth)
    ensures Setup(slots, live) == SetUp(Setup([], r.live), t, r.next, depth)
  {
    MakingNone(states, t, r);
    var y := Made(states, t, r, depth);
    MadeAlike(states, t, r, slots, live, y.slots, y.live);
  }

  lemma MakingNone<T>(states: map<nat, ThreadState<T>>, t: nat, r: Runtime)
    requires Owned(states, r.live) && t !in states && Below(r.live, r.next)
    ensures Making(states, t, [], r, r.live, r.next)
  {
    NoSlotsYet(states, r.live, t);
    OutsideAll(states, r.live, t);
  }

  lemma Made<T>(states: map<nat, ThreadState<T>>, t: nat, r: Runtime, depth: nat) returns (y: Setup<T>)
    requires Making(states, t, [], r, r.live, r.next)
    ensures y == SetUp(Setup([], r.live), t, r.next, depth) && |y.slots| == depth
    ensures Making(states, t, y.slots, r, y.live, r.next + 3 * depth)
  {
    y := SetUp(Setup([], r.live), t, r.next, depth);
    SetUpMakes<T>(states, t, r, Setup([], r.live), r.next, depth);
  }

  lemma MadeAlike<T>(states: map<nat, ThreadState<T>>, t: nat, r: Runtime, slots: seq<Slot<T>>, live: map<Handle, Owner>,
                     slots': seq<Slot<T>>, live': map<Handle, Owner>)
    requires |slots| == |slots'|
    requires Making(states, t, slots, r, live, r.next + 3 * |slots|) && Making(states, t, slots', r, live', r.next + 3 * |slots|)
    ensures slots == slots' && live == live'
  {
    assert slots == slots';
    SameLive(Built(states, t, slots), live, live', t);
  }

  lemma {:induction false} FreeAlike<T>(r: Runtime, r': Runtime, slots: seq<Slot<T>>)
    requires r.live == r'.live
    ensures FreeSlots(r, slots).live == FreeSlots(r', slots).live
    decreases |slots|
  {
    if slots != [] {
      var s := slots[|slots| - 1];
      SlotFreed(r, s);
      SlotFreed(r', s);
      FreeAlike(FreeSlot(r, s), FreeSlot(r', s), slots[..|slots| - 1]);
    }
  }

  // Some slot at or after i is free if all before it are taken.
  lemma NotAllTaken<T>(st: ThreadState<T>, i: nat)
    requires QueueOk(st) && |st.pending| < |st.slots| && i <= |st.slots|
    requires forall j :: 0 <= j < i ==> st.slots[j].pending.Some?
    ensures i < |st.slots|
  {
    SomeSlotIsFree(st);
  }

  lemma {:induction false} FreeIndexIs<T>(st: ThreadState<T>, i: nat, k: nat)
    requires k <= i < |st.slots| && st.slots[i].pending.None?
    requires forall j :: k <= j < i ==> st.slots[j].pending.Some?
    ensures FreeIndex(st, k) == i
    decreases i - k
  {
    if k < i { FreeIndexIs(st, i, k + 1); }
  }

  // What taking n fronts leads to.
  ghost predicate PoppedTimes<T>(st: ThreadState<T>, n: nat, st': ThreadState<T>)
    decreases n
  {
    if n == 0 then st' == st else FrontOk(st) && PoppedTimes(Popped(st), n - 1, st')
  }

  lemma {:induction false} PoppedAgain<T>(st: ThreadState<T>, n: nat, st': ThreadState<T>)
    requires PoppedTimes(st, n, st') && FrontOk(st')
    ensures PoppedTimes(st, n + 1, Popped(st'))
    decreases n
  {
    if n > 0 { PoppedAgain(Popped(st), n - 1, st'); }
  }

  ghost function PopsOf<T>(st: ThreadState<T>): (nat, ThreadState<T>) -> bool {
    (n: nat, st': ThreadState<T>) => PoppedTimes(st, n, st')
  }

  lemma PopsCompose<T(!new)>(st: ThreadState<T>)
    ensures KeptByPop(PopsOf(st))
  {
    forall n: nat, st': ThreadState<T> | PoppedTimes(st, n, st') && FrontOk(st')
      ensures PoppedTimes(st, n + 1, Popped(st'))
    {
      PoppedAgain(st, n, st');
    }
  }

  // A poll takes the fronts that are ready, or all there are.
  lemma {:induction false} PolledIs<T>(r: Runtime, st: ThreadState<T>, ready: nat, n: nat, st': ThreadState<T>)
    requires PoppedTimes(st, n, st') && (n == ready || (n < ready && st'.pending == []))
    ensures Polled(r, st, ready).st == st'
    decreases n
  {
    if n > 0 { PolledIs(Front(r, st).rt, Popped(st), ready - 1, n - 1, st'); }
  }

  ghost predicate KeptByPop<T(!new)>(kept: (nat, ThreadState<T>) -> bool) {
    forall n: nat, st: ThreadState<T> :: kept(n, st) && FrontOk(st) ==> kept(n + 1, Popped(st))
  }

  lemma KeptOnce<T(!new)>(kept: (nat, ThreadState<T>) -> bool, n: nat, st: ThreadState<T>, st': ThreadState<T>)
    requires KeptByPop(kept) && kept(n, st) && FrontOk(st) && st' == Popped(st)
    ensures kept(n + 1, st')
  {
  }

  lemma PopKeepsState<T>(st: ThreadState<T>, depth: nat)
    requires StateOk(st, depth) && st.pending != []
    ensures st.pending[0] < depth && StateOk(Popped(st), depth) && SameBuffers(st, Popped(st))
  {
    PopIsDequeue(st);
  }

  lemma NothingLeft<T>(states: map<nat, ThreadState<T>>, live: map<Handle, Owner>)
    requires Owned(states, live) && states == map[]
    ensures live == map[]
  {
    assert forall h :: h in live ==> Has(states, live[h]);
  }

  lemma AtRest<T>(states: map<nat, ThreadState<T>>, live: map<Handle, Owner>, t: nat, st: ThreadState<T>)
    requires Owned(states, live) && t in states && SameBuffers(states[t], st) && st.pending == []
    ensures Owned(Built(states - {t}, t, st.slots), live)
  {
    forall i | 0 <= i < |st.slots|
      ensures Handles(st.slots[i]) == Handles(states[t].slots[i])
    {
      assert st.slots[i].(pending := None) == states[t].slots[i].(pending := None);
    }
    QueueChanged(states, live, t, st);
    assert Built(states - {t}, t, st.slots) == states[t := st];
  }

  // The same buffers, streams and events; only what is pending may differ.
  ghost predicate SameBuffers<T>(st: ThreadState<T>, st': ThreadState<T>) {
    && |st'.slots| == |st.slots|
    && forall i :: 0 <= i < |st.slots| ==> st'.slots[i].(pending := None) == st.slots[i].(pending := None)
  }

  // The copy submitted last fits the buffers of its slot.
  predicate Fits<T>(st: ThreadState<T>, size: nat) {
    && st.pending != [] && st.pending[|st.pending| - 1] < |st.slots|
    && var slot := st.slots[st.pending[|st.pending| - 1]];
       slot.hostCapacity >= size && slot.deviceCapacity >= size
  }

  // No buffer has shrunk.
  ghost predicate Grown<T>(st: ThreadState<T>, st': ThreadState<T>) {
    && |st'.slots| == |st.slots|
    && forall i :: 0 <= i < |st.slots| ==> st'.slots[i].hostCapacity >= st.slots[i].hostCapacity
  }

  lemma SameIsGrown<T>(st: ThreadState<T>, st': ThreadState<T>)
    requires SameBuffers(st, st')
    ensures Grown(st, st')
  {
    forall i | 0 <= i < |st.slots|
      ensures st'.slots[i].hostCapacity >= st.slots[i].hostCapacity
    {
      assert st'.slots[i].(pending := None) == st.slots[i].(pending := None);
    }
  }

  lemma RoomMade<T>(completed: seq<T>, rest: seq<T>, all: seq<T>, token: T)
    requires completed + rest == all && |completed| <= 1
    ensures rest == if |completed| == 1 then all[1..] else all
    ensures completed + (rest + [token]) == all + [token]
  {
  }

  lemma FrontMoved<T>(done: seq<T>, front: T, rest: seq<T>, all: seq<T>)
    requires [front] + rest == all
    ensures (done + [front]) + rest == done + all
  {
  }

  // Two changes to one thread are one change to it.
  lemma StillOnly<T>(a: map<nat, ThreadState<T>>, b: map<nat, ThreadState<T>>, c: map<nat, ThreadState<T>>, t: nat)
    requires t in b && t in c && b == a[t := b[t]] && c == b[t := c[t]]
    ensures c == a[t := c[t]]
  {
  }

  lemma GrownTwice<T>(a: ThreadState<T>, b: ThreadState<T>, c: ThreadState<T>)
    requires Grown(a, b) && Grown(b, c)
    ensures Grown(a, c)
  {
    assert forall i :: 0 <= i < |a.slots| ==> b.slots[i].hostCapacity >= a.slots[i].hostCapacity;
  }

  lemma PushKeepsOk<T>(states: map<nat, ThreadState<T>>, live: map<Handle, Owner>, next: nat, depth: nat,
                       t: nat, i: nat, token: T)
    requires PipelineOk(states, live, next, depth) && t in states
    requires i < depth && |states[t].slots| == depth && states[t].slots[i].pending.None?
    ensures var st := states[t];
            && QueueOk(st) && QueueOk(Pushed(st, i, token))
            && PipelineOk(states[t := Pushed(st, i, token)], live, next, depth)
            && Contents(Pushed(st, i, token)) == Contents(st) + [token]
  {
    var st := states[t];
    PushIsEnqueue(st, i, token);
    QueueChanged(states, live, t, Pushed(st, i, token));
  }

  lemma PopKeepsOk<T>(states: map<nat, ThreadState<T>>, live: map<Handle, Owner>, next: nat, depth: nat, t: nat)
    requires PipelineOk(states, live, next, depth) && t in states && states[t].pending != []
    ensures states[t].pending[0] < depth && states[t].slots[states[t].pending[0]].pending.Some?
    ensures var st := states[t];
            && QueueOk(st) && QueueOk(Popped(st)) && PipelineOk(states[t := Popped(st)], live, next, depth)
            && [st.slots[st.pending[0]].pending.value] + Contents(Popped(st)) == Contents(st)
            && SameBuffers(st, Popped(st))
  {
    var st := states[t];
    PopIsDequeue(st);
    QueueChanged(states, live, t, Popped(st));
  }

  // The objects of a slot are the live ones with this owner.
  ghost predicate Exactly<T>(live: map<Handle, Owner>, o: Owner, s: Slot<T>) {
    forall h :: h in Handles(s) <==> h in live && live[h] == o
  }

  function Buffers<T>(slot: Slot<T>): set<Handle> {
    (if slot.device == 0 then {} else {Device(slot.device)}) + (if slot.host == 0 then {} else {Host(slot.host)})
  }

  lemma BuffersSwapped<T>(live: map<Handle, Owner>, o: Owner, slot: Slot<T>, host: nat, device: nat, size: nat)
    requires Exactly(live, o, slot) && host != 0 && device != 0
    requires Host(host) !in live && Device(device) !in live
    ensures Swaps(live, o, WithBuffers(slot, host, device, size),
                  live[Host(host) := o][Device(device) := o] - Buffers(slot))
  {
    var live' := live[Host(host) := o][Device(device) := o] - Buffers(slot);
    var grown := WithBuffers(slot, host, device, size);
    assert Handles(grown) == (Handles(slot) - Buffers(slot)) + {Host(host), Device(device)};
    assert forall h :: h in Buffers(slot) ==> h in live && live[h] == o;
  }

  lemma SlotGrows<T>(states: map<nat, ThreadState<T>>, live: map<Handle, Owner>, next: nat, depth: nat,
                     t: nat, i: nat, s: Slot<T>, live': map<Handle, Owner>, next': nat)
    requires PipelineOk(states, live, next, depth) && t in states && i < depth
    requires SlotOk(s) && s.pending == states[t].slots[i].pending
    requires Swaps(live, Owner(t, i), s, live') && Below(live', next')
    ensures var st := states[t].(slots := states[t].slots[i := s]);
            && QueueOk(states[t]) && QueueOk(st) && Contents(st) == Contents(states[t])
            && PipelineOk(states[t := st], live', next', depth)
  {
    SlotReplaced(states, live, Owner(t, i), s, live');
    RebufferKeepsQueue(states[t], i, s);
  }

  lemma OwnsExactly<T>(states: map<nat, ThreadState<T>>, live: map<Handle, Owner>, o: Owner)
    requires Owned(states, live) && Has(states, o)
    ensures Exactly(live, o, SlotOf(states, o))
  {
    assert Owns(live, o, SlotOf(states, o));
  }

  ghost predicate Below(live: map<Handle, Owner>, n: nat) { n > 0 && forall h :: h in live ==> h.n < n }

  // A slot's objects are added to the live ones.
  ghost predicate Adds<T>(live: map<Handle, Owner>, live': map<Handle, Owner>, o: Owner, s: Slot<T>) {
    && (forall h :: h in live ==> h !in Handles(s) && h in live' && live'[h] == live[h])
    && (forall h :: h in live' ==> h in live || (h in Handles(s) && live'[h] == o))
    && Owns(live', o, s)
  }

  lemma Undone(live: map<Handle, Owner>, h: Handle, o: Owner)
    requires h !in live
    ensures live[h := o] - {h} == live
  {
  }

  lemma FreshAdds<T>(live: map<Handle, Owner>, k: nat, o: Owner)
    requires Below(live, k)
    ensures Adds(live, WithFresh(live, k, o), o, FreshSlot<T>(k)) && Below(WithFresh(live, k, o), k + 3)
  {
  }

  // A thread with only its first n slots.
  ghost function Partial<T>(rest: map<nat, ThreadState<T>>, t: nat, slots: seq<Slot<T>>, n: nat): map<nat, ThreadState<T>>
    requires n <= |slots|
  {
    Built(rest, t, slots[..n])
  }

  // Only the first n slots are left of the thread, and the other threads have what they had.
  ghost predicate Releasing<T>(rest: map<nat, ThreadState<T>>, t: nat, slots: seq<Slot<T>>, n: nat,
                               live: map<Handle, Owner>, live': map<Handle, Owner>) {
    && n <= |slots| && Owned(Partial(rest, t, slots, n), live')
    && Outside(live', t) == Outside(live, t) && live'.Keys <= live.Keys
  }

  lemma LastSlotGoes<T>(rest: map<nat, ThreadState<T>>, t: nat, slots: seq<Slot<T>>, n: nat,
                        live: map<Handle, Owner>, live': map<Handle, Owner>)
    requires n > 0 && Releasing(rest, t, slots, n, live, live')
    ensures Owns(live', Owner(t, n - 1), slots[n - 1])
    ensures Releasing(rest, t, slots, n - 1, live, live' - Handles(slots[n - 1]))
  {
    SlotRemoved(rest, live', t, slots[..n]);
    assert slots[..n][..n - 1] == slots[..n - 1];
    var all, o := Partial(rest, t, slots, n), Owner(t, n - 1);
    assert Has(all, o) && SlotOf(all, o) == slots[n - 1];
    OutsideKept(live', live' - Handles(slots[n - 1]), t, slots[n - 1], o);
  }

  lemma AllReleased<T>(rest: map<nat, ThreadState<T>>, t: nat, slots: seq<Slot<T>>, r: Runtime, live': map<Handle, Owner>)
    requires t !in rest && Owned(Built(rest, t, slots), r.live) && Releasing(rest, t, slots, 0, r.live, live')
    ensures Owned(rest, live') && live' == FreeSlots(r, slots).live
  {
    assert slots[..0] == [];
    NoSlotsYet(rest, live', t);
    OutsideAll(rest, live', t);
    FreedIsOutside(r, rest, t, slots);
  }

  // The live objects of the other threads.
  ghost function Outside(live: map<Handle, Owner>, t: nat): map<Handle, Owner> {
    map h | h in live && live[h].thread != t :: live[h]
  }

  lemma OutsideAll<T>(states: map<nat, ThreadState<T>>, live: map<Handle, Owner>, t: nat)
    requires Owned(states, live) && t !in states
    ensures Outside(live, t) == live
  {
  }

  lemma OutsideAdded<T>(live: map<Handle, Owner>, live': map<Handle, Owner>, o: Owner, s: Slot<T>)
    requires Adds(live, live', o, s)
    ensures Outside(live', o.thread) == Outside(live, o.thread)
  {
  }

  lemma OutsideKept<T>(live: map<Handle, Owner>, live': map<Handle, Owner>, t: nat, s: Slot<T>, o: Owner)
    requires o.thread == t && Owns(live, o, s) && live' == live - Handles(s)
    ensures Outside(live', t) == Outside(live, t)
  {
  }
}
