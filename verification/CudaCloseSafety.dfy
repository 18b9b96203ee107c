/** What the critical sections keep as long as close has not come to the state they work on, and
    what goes wrong, exactly, when it has. */
module CudaCloseSafety {
  import opened Wrappers
  import opened CudaQueue
  import opened CudaSections
  import opened CudaPipeline
  import opened CudaClose

  // The live objects of threads that close has not come to.
  ghost function Kept(live: map<Handle, Owner>, gone: set<nat>): map<Handle, Owner> {
    map h | h in live && live[h].thread !in gone :: live[h]
  }

  // The state objects own exactly their part of the runtime's live objects.
  ghost predicate Sound(states: map<nat, ThreadState<nat>>, r: Runtime, gone: set<nat>, depth: nat) {
    PipelineOk(states, Kept(r.live, gone), r.next, depth) && Below(r.live, r.next) && states.Keys !! gone
  }

  lemma OwnsAll(states: map<nat, ThreadState<nat>>, r: Runtime, gone: set<nat>, depth: nat, o: Owner)
    requires Sound(states, r, gone, depth) && Has(states, o)
    ensures Owns(r.live, o, SlotOf(states, o)) && Exactly(r.live, o, SlotOf(states, o))
  {
    OwnsExactly(states, Kept(r.live, gone), o);
  }

  lemma UseLive(r: Runtime, h: Handle)
    requires h in r.live
    ensures Use(r, h) == r
  {
  }

  // ----- waiting and polling ----------------------------------------------------------------------

  lemma FrontSafe(states: map<nat, ThreadState<nat>>, r: Runtime, gone: set<nat>, depth: nat, t: nat)
    requires Sound(states, r, gone, depth) && t in states && states[t].pending != []
    ensures FrontOk(states[t]) && Front(r, states[t]) == Section(r, Popped(states[t]))
    ensures Sound(states[t := Popped(states[t])], r, gone, depth)
    ensures SameBuffers(states[t], Popped(states[t]))
  {
    var st := states[t];
    PopKeepsOk(states, Kept(r.live, gone), r.next, depth, t);
    var i := st.pending[0];
    OwnsAll(states, r, gone, depth, Owner(t, i));
    UseLive(r, Event(st.slots[i].doneEvent));
    UseLive(r, Event(st.slots[i].startEvent));
  }

  lemma SameTwice<T>(a: ThreadState<T>, b: ThreadState<T>, c: ThreadState<T>)
    requires SameBuffers(a, b) && SameBuffers(b, c)
    ensures SameBuffers(a, c)
  {
    assert forall i :: 0 <= i < |a.slots| ==> b.slots[i].(pending := None) == a.slots[i].(pending := None);
  }

  lemma {:induction false} DrainSafe(states: map<nat, ThreadState<nat>>, r: Runtime, gone: set<nat>, depth: nat, t: nat)
    requires Sound(states, r, gone, depth) && t in states
    ensures var x := Drained(r, states[t]);
            x.rt == r && x.st.pending == [] && SameBuffers(states[t], x.st) && Sound(states[t := x.st], r, gone, depth)
    decreases |states[t].pending|
  {
    var st := states[t];
    if st.pending == [] {
      assert states[t := st] == states;
    } else {
      FrontSafe(states, r, gone, depth, t);
      var states' := states[t := Popped(st)];
      DrainSafe(states', r, gone, depth, t);
      var x := Drained(r, Popped(st));
      SameTwice(st, Popped(st), x.st);
      assert states'[t := x.st] == states[t := x.st];
    }
  }

  lemma {:induction false} PollSafe(states: map<nat, ThreadState<nat>>, r: Runtime, gone: set<nat>, depth: nat, t: nat, ready: nat)
    requires Sound(states, r, gone, depth) && t in states
    ensures var x := Polled(r, states[t], ready); x.rt == r && Sound(states[t := x.st], r, gone, depth)
    decreases |states[t].pending|
  {
    var st := states[t];
    if st.pending == [] {
      assert states[t := st] == states;
    } else {
      FrontSafe(states, r, gone, depth, t);
      if ready == 0 {
        OwnsAll(states, r, gone, depth, Owner(t, st.pending[0]));
        UseLive(r, Event(st.slots[st.pending[0]].doneEvent));
        assert states[t := st] == states;
      } else {
        var states' := states[t := Popped(st)];
        PollSafe(states', r, gone, depth, t, ready - 1);
        assert states'[t := Polled(r, Popped(st), ready - 1).st] == states[t := Polled(r, Popped(st), ready - 1).st];
      }
    }
  }

  // ----- submitting ----------------------------------------------------------------------------------

  lemma KeptSwaps(live: map<Handle, Owner>, o: Owner, s: Slot<nat>, live': map<Handle, Owner>, gone: set<nat>)
    requires Swaps(live, o, s, live') && o.thread !in gone
    ensures Swaps(Kept(live, gone), o, s, Kept(live', gone))
  {
  }

  // Every object that is new has a new number.
  ghost predicate OnlyNew(r: Runtime, r': Runtime) {
    r'.next >= r.next && forall h :: h in r'.live ==> h in r.live || h.n >= r.next
  }

  // What a successful growth does to the runtime and the slot.
  ghost predicate Regrown(r: Runtime, s: Slot<nat>, o: Owner, size: nat, g: Growth<nat>) {
    && g.rt.misused == r.misused && OnlyNew(r, g.rt) && Below(g.rt.live, g.rt.next)
    && SlotOk(g.slot) && g.slot.pending == s.pending && Roomy(g.slot, size)
    && Swaps(r.live, o, g.slot, g.rt.live)
  }

  lemma Unswapped(live: map<Handle, Owner>, o: Owner, s: Slot<nat>)
    requires Exactly(live, o, s)
    ensures Swaps(live, o, s, live)
  {
  }

  lemma GrowSafe(r: Runtime, s: Slot<nat>, o: Owner, size: nat, io: SubmitIo)
    requires SlotOk(s) && Exactly(r.live, o, s) && Below(r.live, r.next) && size > 0
    ensures var g := Grow(r, s, o, size, io);
            if g.ok then Regrown(r, s, o, size, g)
            else g.slot == s && g.rt.live == r.live && g.rt.misused == r.misused && g.rt.next >= r.next
  {
    var g := Grow(r, s, o, size, io);
    if Roomy(s, size) {
      Unswapped(r.live, o, s);
    } else if io.hostAlloc {
      var host := Alloc(r, Host(r.next), o);
      if io.deviceAlloc {
        GrowBoth(r, s, o, size);
      } else {
        assert host.live - {Host(r.next)} == r.live;
      }
    }
  }

  lemma FreeBuffers(r: Runtime, s: Slot<nat>)
    requires Buffers(s) <= r.live.Keys
    ensures FreeIf(FreeIf(r, s.device, Device(s.device)), s.host, Host(s.host)) == r.(live := r.live - Buffers(s))
  {
    var one := FreeIf(r, s.device, Device(s.device));
    assert one == r.(live := r.live - if s.device == 0 then {} else {Device(s.device)});
    var two := FreeIf(one, s.host, Host(s.host));
    assert two.live == r.live - Buffers(s);
  }

  lemma GrowBoth(r: Runtime, s: Slot<nat>, o: Owner, size: nat)
    requires SlotOk(s) && Exactly(r.live, o, s) && Below(r.live, r.next) && size > 0
    ensures var both := Alloc(Alloc(r, Host(r.next), o), Device(r.next + 1), o);
            var rt := FreeIf(FreeIf(both, s.device, Device(s.device)), s.host, Host(s.host));
            Regrown(r, s, o, size, Growth(rt, WithBuffers(s, r.next, r.next + 1, size), true))
  {
    var both := Alloc(Alloc(r, Host(r.next), o), Device(r.next + 1), o);
    assert forall h :: h in Buffers(s) ==> h in Handles(s);
    FreeBuffers(both, s);
    BuffersSwapped(r.live, o, s, r.next, r.next + 1, size);
  }

  lemma CopySafe(r: Runtime, s: Slot<nat>, o: Owner, io: SubmitIo)
    requires Owns(r.live, o, s) && s.host != 0 && s.device != 0
    ensures Copied(r, s, io) == r
  {
    assert {Stream(s.stream), Event(s.startEvent), Event(s.doneEvent), Host(s.host), Device(s.device)} <= Handles(s);
    UseLive(r, Host(s.host));
    UseLive(r, Event(s.startEvent));
    UseLive(r, Stream(s.stream));
    UseLive(r, Device(s.device));
    UseLive(r, Event(s.doneEvent));
  }

  lemma NextGrows(states: map<nat, ThreadState<nat>>, r: Runtime, r': Runtime, gone: set<nat>, depth: nat)
    requires Sound(states, r, gone, depth) && r'.live == r.live && r'.next >= r.next
    ensures Sound(states, r', gone, depth)
  {
  }

  lemma SwapsOutside(live: map<Handle, Owner>, o: Owner, s: Slot<nat>, live': map<Handle, Owner>)
    requires Swaps(live, o, s, live')
    ensures Outside(live', o.thread) == Outside(live, o.thread)
  {
  }

  // The section worked on this thread's objects only, and kept everything in order.
  ghost predicate KeepsOrder(states: map<nat, ThreadState<nat>>, r: Runtime, gone: set<nat>, depth: nat, t: nat, x: Section<nat>) {
    && x.rt.misused == r.misused && Outside(x.rt.live, t) == Outside(r.live, t) && OnlyNew(r, x.rt)
    && Sound(states[t := x.st], x.rt, gone, depth)
  }

  lemma SlotSafe(states: map<nat, ThreadState<nat>>, r: Runtime, gone: set<nat>, depth: nat, t: nat, i: nat, g: Growth<nat>, size: nat)
    requires Sound(states, r, gone, depth) && t in states && i < depth
    requires Regrown(r, states[t].slots[i], Owner(t, i), size, g)
    ensures var st := states[t].(slots := states[t].slots[i := g.slot]);
            Sound(states[t := st], g.rt, gone, depth) && Owns(g.rt.live, Owner(t, i), g.slot)
    ensures Outside(g.rt.live, t) == Outside(r.live, t)
  {
    KeptSwaps(r.live, Owner(t, i), g.slot, g.rt.live, gone);
    SlotGrows(states, Kept(r.live, gone), r.next, depth, t, i, g.slot, Kept(g.rt.live, gone), g.rt.next);
    SwapsOutside(r.live, Owner(t, i), g.slot, g.rt.live);
  }

  lemma SubmitAtSafe(states: map<nat, ThreadState<nat>>, r: Runtime, gone: set<nat>, depth: nat, t: nat, i: nat, c: Call<nat>)
    requires Sound(states, r, gone, depth) && t in states && i < depth && states[t].slots[i].pending.None?
    requires c.SubmitCall? && c.size > 0
    ensures KeepsOrder(states, r, gone, depth, t, SubmittedAt(r, states[t], Owner(t, i), c))
  {
    var st, o := states[t], Owner(t, i);
    var slot := st.slots[i];
    OwnsAll(states, r, gone, depth, o);
    GrowSafe(r, slot, o, c.size, c.io);
    var g := Grow(r, slot, o, c.size, c.io);
    if g.ok {
      SlotSafe(states, r, gone, depth, t, i, g, c.size);
      CopySafe(g.rt, g.slot, o, c.io);
      var grown := st.(slots := st.slots[i := g.slot]);
      PushAfter(states, grown, g.rt, gone, depth, t, i, c.token);
    } else {
      UseLive(g.rt, Stream(slot.stream));
      NextGrows(states, r, g.rt, gone, depth);
      assert states[t := st] == states;
    }
  }

  lemma PushSafe(states: map<nat, ThreadState<nat>>, r: Runtime, gone: set<nat>, depth: nat, t: nat, i: nat, token: nat)
    requires Sound(states, r, gone, depth) && t in states && i < depth && states[t].slots[i].pending.None?
    ensures Sound(states[t := Pushed(states[t], i, token)], r, gone, depth)
  {
    PushKeepsOk(states, Kept(r.live, gone), r.next, depth, t, i, token);
  }

  lemma PushAfter(states: map<nat, ThreadState<nat>>, st: ThreadState<nat>, r: Runtime, gone: set<nat>, depth: nat,
                  t: nat, i: nat, token: nat)
    requires t in states && Sound(states[t := st], r, gone, depth)
    requires i < depth && i < |st.slots| && st.slots[i].pending.None?
    ensures Sound(states[t := Pushed(st, i, token)], r, gone, depth)
  {
    PushSafe(states[t := st], r, gone, depth, t, i, token);
    assert states[t := st][t := Pushed(st, i, token)] == states[t := Pushed(st, i, token)];
  }

  lemma {:induction false} FreeIndexBelow(st: ThreadState<nat>, i: nat, j: nat)
    requires i <= j < |st.slots| && st.slots[j].pending.None?
    ensures i <= FreeIndex(st, i) <= j && st.slots[FreeIndex(st, i)].pending.None?
    decreases |st.slots| - i
  {
    if st.slots[i].pending.Some? { FreeIndexBelow(st, i + 1, j); }
  }

  lemma RoomSafe(states: map<nat, ThreadState<nat>>, r: Runtime, gone: set<nat>, depth: nat, t: nat, c: Call<nat>)
    requires Sound(states, r, gone, depth) && t in states && |states[t].pending| < depth
    requires c.SubmitCall? && c.size > 0
    ensures var i := FreeIndex(states[t], 0);
            i < depth && KeepsOrder(states, r, gone, depth, t, SubmittedAt(r, states[t], Owner(t, i), c))
  {
    SomeSlotIsFree(states[t]);
    var j: nat :| j < |states[t].slots| && !Occupied(states[t], j);
    FreeIndexBelow(states[t], 0, j);
    SubmitAtSafe(states, r, gone, depth, t, FreeIndex(states[t], 0), c);
  }

  lemma KeepsVia(states: map<nat, ThreadState<nat>>, st: ThreadState<nat>, r: Runtime, gone: set<nat>, depth: nat, t: nat,
                 x: Section<nat>)
    requires KeepsOrder(states[t := st], r, gone, depth, t, x)
    ensures KeepsOrder(states, r, gone, depth, t, x)
  {
    assert states[t := st][t := x.st] == states[t := x.st];
  }

  lemma SubmitSafe(states: map<nat, ThreadState<nat>>, r: Runtime, gone: set<nat>, depth: nat, t: nat, c: Call<nat>)
    requires Sound(states, r, gone, depth) && t in states && c.SubmitCall? && c.size > 0
    ensures KeepsOrder(states, r, gone, depth, t, Submitted(r, states[t], t, depth, c))
  {
    var st := states[t];
    QueueIsBounded(st);
    if |st.pending| >= depth {
      FrontSafe(states, r, gone, depth, t);
      RoomSafe(states[t := Popped(st)], r, gone, depth, t, c);
      KeepsVia(states, Popped(st), r, gone, depth, t, Submitted(r, st, t, depth, c));
    } else {
      RoomSafe(states, r, gone, depth, t, c);
    }
  }

  // Any locked section on a state that close has not come to.
  lemma WorkSafe(states: map<nat, ThreadState<nat>>, r: Runtime, gone: set<nat>, depth: nat, t: nat, c: Call<nat>)
    requires Sound(states, r, gone, depth) && t in states && (c.SubmitCall? ==> c.size > 0)
    ensures KeepsOrder(states, r, gone, depth, t, Worked(r, states[t], t, depth, c))
  {
    match c
    case SubmitCall(_, _, _) => SubmitSafe(states, r, gone, depth, t, c);
    case PollCall(ready) => PollSafe(states, r, gone, depth, t, ready);
    case DrainCall => DrainSafe(states, r, gone, depth, t);
  }

  // ----- sweeping ------------------------------------------------------------------------------------

  lemma FreeSlotSafe(r: Runtime, s: Slot<nat>, o: Owner)
    requires SlotOk(s) && Owns(r.live, o, s)
    ensures FreeSlot(r, s) == r.(live := r.live - Handles(s))
  {
    assert forall h :: h in Buffers(s) ==> h in Handles(s);
    FreeBuffers(r, s);
    var b := r.(live := r.live - Buffers(s));
    assert {Stream(s.stream), Event(s.startEvent), Event(s.doneEvent)} <= Handles(s);
    assert FreeSlot(r, s).live == r.live - Handles(s);
  }

  ghost function AllHandles(slots: seq<Slot<nat>>): set<Handle> {
    if slots == [] then {} else AllHandles(slots[..|slots| - 1]) + Handles(slots[|slots| - 1])
  }

  lemma {:induction false} InAll(slots: seq<Slot<nat>>, h: Handle)
    ensures h in AllHandles(slots) <==> exists i :: 0 <= i < |slots| && h in Handles(slots[i])
  {
    if slots != [] {
      var before := slots[..|slots| - 1];
      InAll(before, h);
      assert forall i :: 0 <= i < |before| ==> before[i] == slots[i];
    }
  }

  ghost predicate OwnsSlots(live: map<Handle, Owner>, t: nat, slots: seq<Slot<nat>>) {
    forall i :: 0 <= i < |slots| ==> SlotOk(slots[i]) && Owns(live, Owner(t, i), slots[i])
  }

  lemma {:induction false} FreeSlotsSafe(r: Runtime, t: nat, slots: seq<Slot<nat>>)
    requires OwnsSlots(r.live, t, slots)
    ensures FreeSlots(r, slots) == r.(live := r.live - AllHandles(slots))
    decreases |slots|
  {
    if slots == [] {
      assert r.live - {} == r.live;
    } else {
      var n := |slots| - 1;
      FreeSlotSafe(r, slots[n], Owner(t, n));
      var r' := FreeSlot(r, slots[n]);
      OthersStayOwned(r.live, t, slots);
      FreeSlotsSafe(r', t, slots[..n]);
      assert r.live - Handles(slots[n]) - AllHandles(slots[..n]) == r.live - AllHandles(slots);
    }
  }

  lemma OthersStayOwned(live: map<Handle, Owner>, t: nat, slots: seq<Slot<nat>>)
    requires slots != [] && OwnsSlots(live, t, slots)
    ensures OwnsSlots(live - Handles(slots[|slots| - 1]), t, slots[..|slots| - 1])
  {
    var n := |slots| - 1;
    assert Owns(live, Owner(t, n), slots[n]);
    forall i | 0 <= i < n
      ensures SlotOk(slots[i]) && Owns(live - Handles(slots[n]), Owner(t, i), slots[i])
    {
      assert Owns(live, Owner(t, i), slots[i]);
    }
  }

  lemma AllOwned(states: map<nat, ThreadState<nat>>, r: Runtime, gone: set<nat>, depth: nat, t: nat)
    requires Sound(states, r, gone, depth) && t in states
    ensures OwnsSlots(r.live, t, states[t].slots)
  {
    var slots := states[t].slots;
    forall i | 0 <= i < |slots|
      ensures SlotOk(slots[i]) && Owns(r.live, Owner(t, i), slots[i])
    {
      OwnsAll(states, r, gone, depth, Owner(t, i));
    }
  }

  // The live objects of a thread are those of its slots.
  lemma SlotsAreAll(states: map<nat, ThreadState<nat>>, r: Runtime, gone: set<nat>, depth: nat, t: nat, h: Handle)
    requires Sound(states, r, gone, depth) && t in states && OwnsSlots(r.live, t, states[t].slots)
    ensures h in AllHandles(states[t].slots) <==> h in r.live && r.live[h].thread == t
  {
    InAll(states[t].slots, h);
    if h in r.live && r.live[h].thread == t {
      assert h in Kept(r.live, gone) && Has(states, r.live[h]) && h in Handles(SlotOf(states, r.live[h]));
    }
  }

  lemma OwnedWithout(states: map<nat, ThreadState<nat>>, live: map<Handle, Owner>, t: nat)
    requires Owned(states, live)
    ensures Owned(states - {t}, Outside(live, t))
  {
    var less, live' := states - {t}, Outside(live, t);
    forall h | h in live'
      ensures Has(less, live'[h]) && h in Handles(SlotOf(less, live'[h]))
    {
      assert Has(states, live[h]);
    }
    forall o | Has(less, o)
      ensures Owns(live', o, SlotOf(less, o))
    {
      assert Has(states, o) && Owns(live, o, SlotOf(states, o));
    }
  }

  lemma KeptOutside(live: map<Handle, Owner>, gone: set<nat>, t: nat)
    ensures Kept(Outside(live, t), gone + {t}) == Outside(Kept(live, gone), t)
  {
  }

  lemma WithoutThread(states: map<nat, ThreadState<nat>>, r: Runtime, gone: set<nat>, depth: nat, t: nat)
    requires Sound(states, r, gone, depth) && t in states
    ensures Sound(states - {t}, r.(live := Outside(r.live, t)), gone + {t}, depth)
  {
    KeptOutside(r.live, gone, t);
    OwnedWithout(states, Kept(r.live, gone), t);
  }

  lemma ReleasedIs(states: map<nat, ThreadState<nat>>, r: Runtime, gone: set<nat>, depth: nat, t: nat)
    requires Sound(states, r, gone, depth) && t in states
    ensures FreeSlots(r, states[t].slots) == r.(live := Outside(r.live, t))
    ensures forall h :: h in AllHandles(states[t].slots) <==> h in r.live && r.live[h].thread == t
  {
    AllOwned(states, r, gone, depth, t);
    FreeSlotsSafe(r, t, states[t].slots);
    forall h: Handle
      ensures h in AllHandles(states[t].slots) <==> h in r.live && r.live[h].thread == t
    {
      SlotsAreAll(states, r, gone, depth, t, h);
    }
    RemovedIsOutside(r.live, AllHandles(states[t].slots), t);
  }

  lemma RemovedIsOutside(live: map<Handle, Owner>, hs: set<Handle>, t: nat)
    requires forall h :: h in hs <==> h in live && live[h].thread == t
    ensures live - hs == Outside(live, t)
  {
  }

  // Sweeping a state releases exactly its objects, each once, and leaves the others in order.
  lemma SweepSafe(states: map<nat, ThreadState<nat>>, r: Runtime, gone: set<nat>, depth: nat, t: nat)
    requires Sound(states, r, gone, depth) && t in states
    ensures var x := Drained(r, states[t]);
            && x.rt == r && x.st.pending == [] && StateOk(x.st, depth)
            && FreeSlots(r, x.st.slots) == r.(live := Outside(r.live, t))
            && (forall h :: h in AllHandles(x.st.slots) <==> h in r.live && r.live[h].thread == t)
            && Sound(states - {t}, r.(live := Outside(r.live, t)), gone + {t}, depth)
  {
    DrainSafe(states, r, gone, depth, t);
    var st := Drained(r, states[t]).st;
    assert states[t := st][t] == st;
    ReleasedIs(states[t := st], r, gone, depth, t);
    WithoutThread(states, r, gone, depth, t);
  }
}
