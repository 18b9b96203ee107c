/** The critical sections of the copy pipeline as steps of many threads.  A call takes the
    pipeline's lock to look its thread's state up and, later, that state's own lock to work
    on it; close takes the pipeline's lock once and then the lock of each state.  Between two
    of these sections anything may happen. */
module CudaClose {
  import opened CudaQueue
  import opened CudaSections
  import opened CudaPipeline

  datatype World = World(
    depth: nat,
    states: map<nat, ThreadState<nat>>,  // the state objects close has not come to
    swept: map<nat, ThreadState<nat>>,   // those whose objects it has released
    closed: bool,
    rt: Runtime,
    calls: map<nat, Call<nat>>,               // calls that have looked their state up and not locked it
    // History, never read by a step: threads whose submission came after the sweep, and those of
    // them that got new buffers.
    late: set<nat>,
    grew: set<nat>)

  datatype Event =
    | Lookup(t: nat, call: Call<nat>, fails: bool)  // `fails`: setting up a new state fails
    | Work(t: nat)
    | Shut
    | Sweep(t: nat)

  // ----- runs -------------------------------------------------------------------------------------

  function LookedUp(w: World, t: nat, call: Call<nat>): World {
    if t in w.states then w.(calls := w.calls[t := call])
    else
      var x := SetUp(Setup([], w.rt.live), t, w.rt.next, w.depth);
      w.(states := Built(w.states, t, x.slots),
         rt := w.rt.(live := x.live, next := w.rt.next + 3 * w.depth),
         calls := w.calls[t := call])
  }

  function Apply(w: World, e: Event): World {
    match e
    case Lookup(t, call, fails) =>
      if t in w.calls || w.closed || (t !in w.states && fails) || (call.SubmitCall? && call.size == 0) then w
      else LookedUp(w, t, call)
    case Work(t) =>
      if t !in w.calls then w
      else if t in w.states then
        var x := Worked(w.rt, w.states[t], t, w.depth, w.calls[t]);
        w.(rt := x.rt, states := w.states[t := x.st], calls := w.calls - {t})
      else if t in w.swept then WorkedLate(w, t) else w
    case Shut => w.(closed := true)
    case Sweep(t) =>
      if !w.closed || t !in w.states then w
      else
        var d := Drained(w.rt, w.states[t]);
        w.(rt := FreeSlots(d.rt, d.st.slots), states := w.states - {t}, swept := w.swept[t := d.st])
  }

  // A call that locks its state after close has been there.
  function WorkedLate(w: World, t: nat): World
    requires t in w.calls && t in w.swept
  {
    var c, st := w.calls[t], w.swept[t];
    var x := Worked(w.rt, st, t, w.depth, c);
    w.(rt := x.rt, swept := w.swept[t := x.st], calls := w.calls - {t},
       late := if c.SubmitCall? then w.late + {t} else w.late,
       grew := if c.SubmitCall? && st.slots != [] && !Roomy(st.slots[0], c.size) && c.io.hostAlloc && c.io.deviceAlloc
               then w.grew + {t} else w.grew)
  }

  function Run(w: World, es: seq<Event>): World {
    if es == [] then w else Apply(Run(w, es[..|es| - 1]), es[|es| - 1])
  }

  function Start(depth: nat): World { World(depth, map[], map[], false, Runtime(map[], 1, false), map[], {}, {}) }
}
