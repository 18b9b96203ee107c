/** Every interleaving of calls and close: when objects are used only while they are live, and
    when nothing is left live. */
module CudaCloseRuns {
  import opened CudaQueue
  import opened CudaSections
  import opened CudaPipeline
  import opened CudaClose
  import opened CudaCloseSafety

  // A state that close has been to and its thread has not: at rest, all its objects released.
  ghost predicate SweptOk(w: World, st: ThreadState<nat>) {
    && st.pending == [] && StateOk(st, w.depth)
    && (forall h :: h in AllHandles(st.slots) ==> h !in w.rt.live && h.n < w.rt.next)
  }

  ghost predicate CallOk(w: World, t: nat, c: Call<nat>) {
    && (t in w.states || t in w.swept) && (c.SubmitCall? ==> c.size > 0)
    && (t in w.swept ==> SweptOk(w, w.swept[t]))
  }

  ghost predicate Inv(w: World) {
    && Sound(w.states, w.rt, w.swept.Keys, w.depth)
    && (!w.closed ==> w.swept == map[])
    && (forall t :: t in w.calls ==> CallOk(w, t, w.calls[t]))
    && w.late <= w.swept.Keys && w.late !! w.calls.Keys && w.grew <= w.late
    && LeaksOk(w)
    && (w.rt.misused <==> w.late != {})
  }

  // Of the threads that close has been to, exactly those that grew have live objects.
  ghost predicate LeaksOk(w: World) {
    && (forall h :: h in w.rt.live && w.rt.live[h].thread in w.swept ==> w.rt.live[h].thread in w.grew)
    && (forall t :: t in w.grew ==> HasLive(w.rt.live, t))
  }

  ghost predicate HasLive(live: map<Handle, Owner>, t: nat) { exists h :: h in live && live[h].thread == t }

  // ----- a new state ------------------------------------------------------------------------------

  lemma KeptAll(live: map<Handle, Owner>)
    ensures Kept(live, {}) == live
  {
  }

  lemma AtRestOk(slots: seq<Slot<nat>>, depth: nat)
    requires |slots| == depth && forall i :: 0 <= i < depth ==> SlotOk(slots[i]) && slots[i].pending.None?
    ensures StateOk(ThreadState(slots, []), depth)
  {
  }

  lemma FreshSound(w: World, t: nat)
    requires Sound(w.states, w.rt, {}, w.depth) && t !in w.states
    ensures var x := SetUp(Setup([], w.rt.live), t, w.rt.next, w.depth);
            && Sound(Built(w.states, t, x.slots), w.rt.(live := x.live, next := w.rt.next + 3 * w.depth), {}, w.depth)
            && x.slots != [] && x.slots[0].hostCapacity == 0
  {
    KeptAll(w.rt.live);
    NoSlotsYet(w.states, w.rt.live, t);
    OutsideAll(w.states, w.rt.live, t);
    SetUpMakes<nat>(w.states, t, w.rt, Setup([], w.rt.live), w.rt.next, w.depth);
    var x := SetUp(Setup([], w.rt.live), t, w.rt.next, w.depth);
    KeptAll(x.live);
    NewAreOk(x.slots, w.rt.next);
    AtRestOk(x.slots, w.depth);
  }

  lemma LookupInv(w: World, t: nat, call: Call<nat>)
    requires Inv(w) && t !in w.calls && !w.closed && (call.SubmitCall? ==> call.size > 0)
    ensures Inv(LookedUp(w, t, call))
  {
    var w' := LookedUp(w, t, call);
    assert w.swept == map[] && w.swept.Keys == {} && w.late == {};
    if t !in w.states { FreshSound(w, t); }
    forall u | u in w'.calls
      ensures CallOk(w', u, w'.calls[u])
    {
      assert u != t ==> CallOk(w, u, w.calls[u]);
    }
  }

  // A lookup that has to set a state up and cannot leaves everything as it was.
  lemma FailedSetup(w: World, t: nat, call: Call<nat>)
    requires t !in w.states
    ensures Apply(w, Lookup(t, call, true)) == w
  {
  }

  // ----- a section on a state that close has not come to ------------------------------------------

  lemma OthersCallOk(w: World, w': World, u: nat, c: Call<nat>)
    requires CallOk(w, u, c) && w'.depth == w.depth && OnlyNew(w.rt, w'.rt)
    requires u in w.swept ==> u in w'.swept && w'.swept[u] == w.swept[u]
    requires u in w'.swept ==> u in w.swept
    requires u in w.states ==> u in w'.states
    ensures CallOk(w', u, c)
  {
  }

  lemma LeaksStay(w: World, w': World, t: nat)
    requires LeaksOk(w) && w'.grew == w.grew && w'.swept.Keys == w.swept.Keys && t !in w.swept && w.grew <= w.swept.Keys
    requires Outside(w'.rt.live, t) == Outside(w.rt.live, t)
    ensures LeaksOk(w')
  {
    forall h | h in w'.rt.live && w'.rt.live[h].thread in w'.swept
      ensures w'.rt.live[h].thread in w'.grew
    {
      assert h in Outside(w'.rt.live, t);
      assert h in Outside(w.rt.live, t) && Outside(w'.rt.live, t)[h] == Outside(w.rt.live, t)[h];
    }
    forall u | u in w'.grew
      ensures HasLive(w'.rt.live, u)
    {
      var h :| h in w.rt.live && w.rt.live[h].thread == u;
      assert h in Outside(w.rt.live, t);
      assert h in Outside(w'.rt.live, t) && Outside(w'.rt.live, t)[h] == Outside(w.rt.live, t)[h];
    }
  }

  lemma WorkInv(w: World, t: nat)
    requires Inv(w) && t in w.calls && t in w.states
    ensures Inv(Apply(w, Work(t)))
  {
    assert CallOk(w, t, w.calls[t]);
    var x := Worked(w.rt, w.states[t], t, w.depth, w.calls[t]);
    WorkSafe(w.states, w.rt, w.swept.Keys, w.depth, t, w.calls[t]);
    var w' := w.(rt := x.rt, states := w.states[t := x.st], calls := w.calls - {t});
    LeaksStay(w, w', t);
    forall u | u in w'.calls
      ensures CallOk(w', u, w'.calls[u])
    {
      OthersCallOk(w, w', u, w.calls[u]);
    }
  }

  // ----- the sweep ------------------------------------------------------------------------------------

  function SweptWorld(w: World, t: nat, st: ThreadState<nat>, r: Runtime): World {
    w.(rt := r, states := w.states - {t}, swept := w.swept[t := st])
  }

  lemma SweepInv(w: World, t: nat)
    requires Inv(w) && w.closed && t in w.states
    ensures Inv(Apply(w, Sweep(t)))
  {
    SweepSafe(w.states, w.rt, w.swept.Keys, w.depth, t);
    var st, r := Drained(w.rt, w.states[t]).st, w.rt.(live := Outside(w.rt.live, t));
    SweepIs(w, t, st, r);
    SweptInv(w, t, st, r);
  }

  lemma SweepIs(w: World, t: nat, st: ThreadState<nat>, r: Runtime)
    requires w.closed && t in w.states && Drained(w.rt, w.states[t]) == Section(w.rt, st) && FreeSlots(w.rt, st.slots) == r
    ensures Apply(w, Sweep(t)) == SweptWorld(w, t, st, r)
  {
  }

  lemma SweptInv(w: World, t: nat, st: ThreadState<nat>, r: Runtime)
    requires Inv(w) && w.closed && t in w.states && r == w.rt.(live := Outside(w.rt.live, t))
    requires st.pending == [] && StateOk(st, w.depth)
    requires forall h :: h in AllHandles(st.slots) <==> h in w.rt.live && w.rt.live[h].thread == t
    requires Sound(w.states - {t}, r, w.swept.Keys + {t}, w.depth)
    ensures Inv(SweptWorld(w, t, st, r))
  {
    var w' := SweptWorld(w, t, st, r);
    assert w'.swept.Keys == w.swept.Keys + {t};
    SweptLeaks(w, w', t);
    forall u | u in w'.calls
      ensures CallOk(w', u, w'.calls[u])
    {
      assert CallOk(w, u, w.calls[u]);
      if u == t { JustSwept(w, w', t, st); } else { OthersCallOk(w, w', u, w.calls[u]); }
    }
  }

  lemma JustSwept(w: World, w': World, t: nat, st: ThreadState<nat>)
    requires w'.depth == w.depth && w'.rt == w.rt.(live := Outside(w.rt.live, t)) && Below(w.rt.live, w.rt.next)
    requires st.pending == [] && StateOk(st, w.depth)
    requires forall h :: h in AllHandles(st.slots) <==> h in w.rt.live && w.rt.live[h].thread == t
    ensures SweptOk(w', st)
  {
  }

  lemma SweptLeaks(w: World, w': World, t: nat)
    requires LeaksOk(w) && w'.grew == w.grew && w'.swept.Keys == w.swept.Keys + {t} && t !in w.grew
    requires w'.rt.live == Outside(w.rt.live, t)
    ensures LeaksOk(w')
  {
    forall u | u in w'.grew
      ensures HasLive(w'.rt.live, u)
    {
      var h :| h in w.rt.live && w.rt.live[h].thread == u;
      assert h in w'.rt.live;
    }
  }

  // ----- a late section ----------------------------------------------------------------------------------

  // A late poll or drain finds nothing pending and touches nothing.
  lemma LateQuiet(w: World, t: nat)
    requires Inv(w) && t in w.calls && t in w.swept && !w.calls[t].SubmitCall?
    ensures Inv(WorkedLate(w, t)) && WorkedLate(w, t).rt == w.rt
  {
    assert CallOk(w, t, w.calls[t]);
    var w' := WorkedLate(w, t);
    assert w'.swept == w.swept;
    forall u | u in w'.calls
      ensures CallOk(w', u, w'.calls[u])
    {
      assert CallOk(w, u, w.calls[u]);
    }
  }

  // The objects of a released slot are not live, and their numbers are not given out again.
  ghost predicate Released(r: Runtime, s: Slot<nat>) {
    forall h :: h in Handles(s) ==> h !in r.live && h.n < r.next
  }

  predicate Grows(s: Slot<nat>, c: Call<nat>)
    requires c.SubmitCall?
  {
    !Roomy(s, c.size) && c.io.hostAlloc && c.io.deviceAlloc
  }

  // What a late submission leaves of the runtime's objects: two new buffers if it grew.
  function Leaked(r: Runtime, o: Owner, grows: bool): map<Handle, Owner> {
    if grows then r.live[Host(r.next) := o][Device(r.next + 1) := o] else r.live
  }

  lemma LateGrow(r: Runtime, s: Slot<nat>, o: Owner, c: Call<nat>)
    requires Below(r.live, r.next) && Released(r, s) && c.SubmitCall?
    ensures var g := Grow(r, s, o, c.size, c.io);
            && g.rt.live == Leaked(r, o, Grows(s, c)) && g.slot.stream == s.stream && Stream(s.stream) !in g.rt.live
            && OnlyNew(r, g.rt) && Below(g.rt.live, g.rt.next)
  {
    assert Stream(s.stream) in Handles(s);
    if !Roomy(s, c.size) && c.io.hostAlloc {
      var host := Alloc(r, Host(r.next), o);
      if c.io.deviceAlloc {
        var both := Alloc(host, Device(r.next + 1), o);
        assert both.live == Leaked(r, o, true);
        FreeDead(both, s.device, Device(s.device));
        FreeDead(FreeIf(both, s.device, Device(s.device)), s.host, Host(s.host));
      } else {
        assert host.live - {Host(r.next)} == r.live;
      }
    }
  }

  lemma FreeDead(r: Runtime, n: nat, h: Handle)
    requires n != 0 ==> h !in r.live
    ensures FreeIf(r, n, h).live == r.live && FreeIf(r, n, h).next == r.next
  {
    assert n != 0 ==> r.live - {h} == r.live;
  }

  lemma CopyKeeps(r: Runtime, s: Slot<nat>, io: SubmitIo)
    requires Stream(s.stream) !in r.live
    ensures Copied(r, s, io).live == r.live && Copied(r, s, io).next == r.next && Copied(r, s, io).misused
  {
  }

  // A late submission always uses a released object.
  lemma LateSubmitted(r: Runtime, st: ThreadState<nat>, t: nat, depth: nat, c: Call<nat>)
    requires depth > 0 && StateOk(st, depth) && st.pending == [] && c.SubmitCall?
    requires Below(r.live, r.next) && Released(r, st.slots[0])
    ensures var x := Submitted(r, st, t, depth, c);
            && x.rt.misused && x.rt.live == Leaked(r, Owner(t, 0), Grows(st.slots[0], c))
            && OnlyNew(r, x.rt) && Below(x.rt.live, x.rt.next)
  {
    assert !Occupied(st, 0);
    var o := Owner(t, 0);
    LateGrow(r, st.slots[0], o, c);
    var g := Grow(r, st.slots[0], o, c.size, c.io);
    if g.ok { CopyKeeps(g.rt, g.slot, c.io); }
  }

  lemma LeakedOutside(r: Runtime, o: Owner, grows: bool)
    requires Below(r.live, r.next) && forall h :: h in r.live ==> r.live[h].thread != o.thread
    ensures Outside(Leaked(r, o, grows), o.thread) == Outside(r.live, o.thread)
    ensures HasLive(Leaked(r, o, grows), o.thread) <==> grows
  {
    if grows { assert Host(r.next) in Leaked(r, o, grows); }
  }

  lemma KeptSame(live: map<Handle, Owner>, live': map<Handle, Owner>, t: nat, gone: set<nat>)
    requires Outside(live', t) == Outside(live, t) && t in gone
    ensures Kept(live', gone) == Kept(live, gone)
  {
    assert forall h :: h in Kept(live, gone) <==> h in Outside(live, t) && Outside(live, t)[h].thread !in gone;
    assert forall h :: h in Kept(live', gone) <==> h in Outside(live', t) && Outside(live', t)[h].thread !in gone;
    assert forall h :: h in Kept(live, gone) ==> Kept(live, gone)[h] == Outside(live, t)[h];
    assert forall h :: h in Kept(live', gone) ==> Kept(live', gone)[h] == Outside(live', t)[h];
  }

  lemma SlotReleased(w: World, st: ThreadState<nat>)
    requires SweptOk(w, st) && w.depth > 0
    ensures Released(w.rt, st.slots[0])
  {
    forall h | h in Handles(st.slots[0])
      ensures h in AllHandles(st.slots)
    {
      InAll(st.slots, h);
    }
  }

  lemma LateLeaks(w: World, w': World, t: nat, grows: bool)
    requires LeaksOk(w) && t in w.swept && t !in w.grew && w.grew <= w.swept.Keys && Below(w.rt.live, w.rt.next)
    requires w'.swept.Keys == w.swept.Keys && w'.grew == (if grows then w.grew + {t} else w.grew)
    requires w'.rt.live == Leaked(w.rt, Owner(t, 0), grows)
    ensures LeaksOk(w') && Outside(w'.rt.live, t) == Outside(w.rt.live, t)
  {
    LeakedOutside(w.rt, Owner(t, 0), grows);
    forall u | u in w'.grew
      ensures HasLive(w'.rt.live, u)
    {
      if u != t {
        var h :| h in w.rt.live && w.rt.live[h].thread == u;
        assert h in w'.rt.live && w'.rt.live[h].thread == u;
      }
    }
  }

  lemma LateSubmitInv(w: World, t: nat)
    requires Inv(w) && t in w.calls && t in w.swept && w.calls[t].SubmitCall?
    ensures Inv(WorkedLate(w, t)) && WorkedLate(w, t).rt.misused
    ensures WorkedLate(w, t).grew == if Grows(w.swept[t].slots[0], w.calls[t]) then w.grew + {t} else w.grew
    ensures WorkedLate(w, t).rt.live == Leaked(w.rt, Owner(t, 0), Grows(w.swept[t].slots[0], w.calls[t]))
  {
    var c, st := w.calls[t], w.swept[t];
    assert CallOk(w, t, c);
    SlotReleased(w, st);
    LateSubmitted(w.rt, st, t, w.depth, c);
    var w' := WorkedLate(w, t);
    LateLeaks(w, w', t, Grows(st.slots[0], c));
    KeptSame(w.rt.live, w'.rt.live, t, w.swept.Keys);
    assert w'.swept.Keys == w.swept.Keys;
    forall u | u in w'.calls
      ensures CallOk(w', u, w'.calls[u])
    {
      OthersCallOk(w, w', u, w.calls[u]);
    }
  }

  // ----- every run -----------------------------------------------------------------------------------------

  lemma ApplyInv(w: World, e: Event)
    requires Inv(w)
    ensures Inv(Apply(w, e))
  {
    match e
    case Lookup(t, call, fails) =>
      if Apply(w, e) != w { LookupInv(w, t, call); }
    case Work(t) =>
      if t in w.calls {
        assert CallOk(w, t, w.calls[t]);
        if t in w.states {
          WorkInv(w, t);
        } else if w.calls[t].SubmitCall? {
          LateSubmitInv(w, t);
        } else {
          LateQuiet(w, t);
        }
      }
    case Shut => ShutInv(w);
    case Sweep(t) =>
      if w.closed && t in w.states { SweepInv(w, t); }
  }

  lemma ShutInv(w: World)
    requires Inv(w)
    ensures Inv(Apply(w, Shut))
  {
    var w' := Apply(w, Shut);
    forall u | u in w'.calls
      ensures CallOk(w', u, w'.calls[u])
    {
      assert CallOk(w, u, w.calls[u]);
    }
  }

  lemma {:induction false} RunInv(depth: nat, es: seq<Event>)
    requires depth > 0
    ensures Inv(Run(Start(depth), es))
  {
    if es == [] {
      KeptAll(map[]);
    } else {
      RunInv(depth, es[..|es| - 1]);
      ApplyInv(Run(Start(depth), es[..|es| - 1]), es[|es| - 1]);
    }
  }

  // ----- theorems ----------------------------------------------------------------------------------------------

  // In every interleaving, some call was given an object that was not live if and only if a
  // submission locked its state after close had been there.
  lemma {:induction false} MisuseIff(depth: nat, es: seq<Event>)
    requires depth > 0
    ensures var w := Run(Start(depth), es); w.rt.misused <==> w.late != {}
  {
    RunInv(depth, es);
  }

  // Whenever no state is in use, so once close has been everywhere: something is still live if and only if one of these late
  // submissions got new buffers; without them nothing is.
  lemma {:induction false} LiveAfterCloseIff(depth: nat, es: seq<Event>)
    requires depth > 0 && Run(Start(depth), es).states == map[]
    ensures var w := Run(Start(depth), es);
            && (w.rt.live == map[] <==> w.grew == {})
            && forall h :: h in w.rt.live ==> w.rt.live[h].thread in w.grew
  {
    RunInv(depth, es);
    var w := Run(Start(depth), es);
    NothingLeft(w.states, Kept(w.rt.live, w.swept.Keys));
    forall h | h in w.rt.live
      ensures w.rt.live[h].thread in w.grew
    {
      assert h !in Kept(w.rt.live, w.swept.Keys);
    }
    if w.grew != {} {
      var t :| t in w.grew;
      assert HasLive(w.rt.live, t);
    }
  }

  // Before that: every state that close has not come to owns exactly its live objects.
  lemma {:induction false} OwnershipHolds(depth: nat, es: seq<Event>, o: Owner)
    requires depth > 0 && Has(Run(Start(depth), es).states, o)
    ensures var w := Run(Start(depth), es);
            forall h :: h in Handles(SlotOf(w.states, o)) <==> h in w.rt.live && w.rt.live[h] == o
  {
    RunInv(depth, es);
    var w := Run(Start(depth), es);
    OwnsAll(w.states, w.rt, w.swept.Keys, w.depth, o);
  }

  ghost predicate NoSubmitWaits(w: World) { forall t :: t in w.calls ==> !w.calls[t].SubmitCall? }

  // Whatever follows, nothing is misused that was not before, and nothing becomes live.
  ghost predicate QuietForEver(w: World) { forall fs :: Run(w, fs).rt == w.rt }

  // When close ends without a misuse so far: whatever follows, no released object is ever used and
  // nothing more becomes live, if and only if no submission is between its lookup and its lock.
  lemma {:induction false} SafeForEverIff(depth: nat, es: seq<Event>)
    requires depth > 0
    requires var w := Run(Start(depth), es); w.closed && w.states == map[] && !w.rt.misused
    ensures QuietForEver(Run(Start(depth), es)) <==> NoSubmitWaits(Run(Start(depth), es))
  {
    RunInv(depth, es);
    var w := Run(Start(depth), es);
    if NoSubmitWaits(w) {
      forall fs ensures Run(w, fs).rt == w.rt {
        QuietAfter(w, fs);
      }
    } else {
      var t :| t in w.calls && w.calls[t].SubmitCall?;
      LateBreaks(w, t);
    }
  }

  lemma LateBreaks(w: World, t: nat)
    requires Inv(w) && w.closed && w.states == map[] && !w.rt.misused && t in w.calls && w.calls[t].SubmitCall?
    ensures !QuietForEver(w)
  {
    assert CallOk(w, t, w.calls[t]);
    LateSubmitInv(w, t);
    var fs := [Work(t)];
    assert fs[..0] == [] && Run(w, fs) == Apply(Run(w, fs[..0]), Work(t));
    assert Run(w, fs).rt.misused;
  }

  lemma {:induction false} QuietAfter(w: World, fs: seq<Event>)
    requires Inv(w) && w.closed && w.states == map[] && NoSubmitWaits(w)
    ensures var v := Run(w, fs);
            Inv(v) && v.rt == w.rt && v.closed && v.states == map[] && NoSubmitWaits(v)
  {
    if fs != [] {
      QuietAfter(w, fs[..|fs| - 1]);
      QuietStep(Run(w, fs[..|fs| - 1]), fs[|fs| - 1]);
    }
  }

  lemma QuietStep(w: World, e: Event)
    requires Inv(w) && w.closed && w.states == map[] && NoSubmitWaits(w)
    ensures var v := Apply(w, e);
            Inv(v) && v.rt == w.rt && v.closed && v.states == map[] && NoSubmitWaits(v)
  {
    ApplyInv(w, e);
    if e.Work? && e.t in w.calls {
      assert CallOk(w, e.t, w.calls[e.t]);
      LateQuiet(w, e.t);
    }
  }

  // ----- the failing run ----------------------------------------------------------------------------------------

  lemma RunThen(w: World, es: seq<Event>, e: Event)
    ensures Run(w, es + [e]) == Apply(Run(w, es), e)
  {
    assert (es + [e])[..|es|] == es;
  }

  // Close runs to its end while a call waits for its state.
  lemma CloseOvertakes(depth: nat, call: Call<nat>) returns (es: seq<Event>)
    requires depth > 0 && call.SubmitCall? && call.size > 0
    ensures var w := Run(Start(depth), es);
            && w.closed && w.states == map[] && w.calls == map[0 := call] && w.grew == {}
            && 0 in w.swept && w.swept[0].slots != [] && w.swept[0].slots[0].hostCapacity == 0
  {
    var w0 := Start(depth);
    RunInv(depth, []);
    KeptAll(map[]);
    FreshSound(w0, 0);
    var w1 := Apply(w0, Lookup(0, call, false));
    var st := w1.states[0];
    var w2 := Apply(w1, Shut);
    assert Drained(w2.rt, st) == Section(w2.rt, st);
    es := [] + [Lookup(0, call, false)];
    RunThen(w0, [], Lookup(0, call, false));
    RunThen(w0, es, Shut);
    es := es + [Shut];
    RunThen(w0, es, Sweep(0));
    es := es + [Sweep(0)];
  }

  // Whatever the depth: a thread looks its state up, close runs to its end, and the submission goes
  // on.  Released objects are used, and exactly two new buffers are left live, which nothing will
  // release.
  lemma LateSubmission(depth: nat) returns (es: seq<Event>, host: nat, device: nat)
    requires depth > 0
    ensures var w := Run(Start(depth), es);
            && w.closed && w.states == map[] && w.calls == map[] && w.rt.misused
            && w.rt.live == map[Host(host) := Owner(0, 0), Device(device) := Owner(0, 0)]
  {
    var call := SubmitCall(1, 0, SubmitIo(true, true, true, true, true));
    var before := CloseOvertakes(depth, call);
    var w := Run(Start(depth), before);
    RunInv(depth, before);
    LiveAfterCloseIff(depth, before);
    LateSubmitInv(w, 0);
    RunThen(Start(depth), before, Work(0));
    es, host, device := before + [Work(0)], w.rt.next, w.rt.next + 1;
  }
}
