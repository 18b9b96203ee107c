/** One thread's copy slots and its queue of pending slot indexes, read as a
    bounded first-in first-out queue of tokens. */
module CudaQueue {
  import opened Wrappers

  // Runtime handles; the number 0 stands for no buffer.
  datatype Slot<T> = Slot(
    stream: nat, startEvent: nat, doneEvent: nat,
    host: nat, hostCapacity: nat, device: nat, deviceCapacity: nat,
    pending: Option<T>)

  datatype ThreadState<T> = ThreadState(slots: seq<Slot<T>>, pending: seq<nat>)

  ghost predicate NoRepeats(s: seq<nat>) {
    forall i, j :: 0 <= i < j < |s| ==> s[i] != s[j]
  }

  predicate Occupied<T>(st: ThreadState<T>, i: nat) { i < |st.slots| && st.slots[i].pending.Some? }

  ghost predicate Listed(s: seq<nat>, i: nat) { exists k :: 0 <= k < |s| && s[k] == i }

  // The pending queue lists exactly the occupied slots, each once.
  ghost predicate QueueOk<T>(st: ThreadState<T>) {
    && NoRepeats(st.pending)
    && (forall k :: 0 <= k < |st.pending| ==> Occupied(st, st.pending[k]))
    && (forall i: nat :: Occupied(st, i) ==> Listed(st.pending, i))
  }

  // The tokens in flight, oldest first.
  ghost function Contents<T>(st: ThreadState<T>): (c: seq<T>)
    requires QueueOk(st)
    ensures |c| == |st.pending|
  {
    seq(|st.pending|, k requires 0 <= k < |st.pending| => TokenAt(st, st.pending[k]))
  }

  ghost function TokenAt<T>(st: ThreadState<T>, i: nat): T
    requires Occupied(st, i)
  {
    st.slots[i].pending.value
  }

  // ----- transitions ---------------------------------------------------------------

  // Taking the front of the queue frees its slot.
  function Popped<T>(st: ThreadState<T>): ThreadState<T>
    requires st.pending != [] && st.pending[0] < |st.slots|
  {
    var i := st.pending[0];
    ThreadState(st.slots[i := st.slots[i].(pending := None)], st.pending[1..])
  }

  function Pushed<T>(st: ThreadState<T>, i: nat, token: T): ThreadState<T>
    requires i < |st.slots|
  {
    ThreadState(st.slots[i := st.slots[i].(pending := Some(token))], st.pending + [i])
  }

  lemma PopIsDequeue<T>(st: ThreadState<T>)
    requires QueueOk(st) && st.pending != []
    ensures st.pending[0] < |st.slots|
    ensures QueueOk(Popped(st)) && Contents(Popped(st)) == Contents(st)[1..]
  {
    assert Occupied(st, st.pending[0]);
    var t := Popped(st);
    forall k | 0 <= k < |t.pending|
      ensures Occupied(t, t.pending[k]) && TokenAt(t, t.pending[k]) == TokenAt(st, st.pending[k + 1])
    {
      assert t.pending[k] == st.pending[k + 1] && Occupied(st, st.pending[k + 1]);
    }
    forall i: nat | Occupied(t, i)
      ensures Listed(t.pending, i)
    {
      assert Occupied(st, i) && i != st.pending[0];
      var k :| 0 <= k < |st.pending| && st.pending[k] == i;
      assert t.pending[k - 1] == i;
    }
  }

  lemma PushIsEnqueue<T>(st: ThreadState<T>, i: nat, token: T)
    requires QueueOk(st) && i < |st.slots| && !Occupied(st, i)
    ensures QueueOk(Pushed(st, i, token)) && Contents(Pushed(st, i, token)) == Contents(st) + [token]
  {
    var t := Pushed(st, i, token);
    forall k | 0 <= k < |st.pending|
      ensures Occupied(t, t.pending[k]) && t.pending[k] != i && TokenAt(t, t.pending[k]) == TokenAt(st, st.pending[k])
    {
      assert t.pending[k] == st.pending[k] && Occupied(st, st.pending[k]);
    }
    forall j: nat | Occupied(t, j)
      ensures Listed(t.pending, j)
    {
      if j == i {
        assert t.pending[|st.pending|] == i;
      } else {
        assert Occupied(st, j);
        var k :| 0 <= k < |st.pending| && st.pending[k] == j;
        assert t.pending[k] == j;
      }
    }
  }

  // Changing a slot's buffers leaves the queue as it is.
  lemma RebufferKeepsQueue<T>(st: ThreadState<T>, i: nat, slot: Slot<T>)
    requires QueueOk(st) && i < |st.slots| && slot.pending == st.slots[i].pending
    ensures var t := st.(slots := st.slots[i := slot]); QueueOk(t) && Contents(t) == Contents(st)
  {
    var t := st.(slots := st.slots[i := slot]);
    forall k | 0 <= k < |t.pending|
      ensures Occupied(t, t.pending[k]) && TokenAt(t, t.pending[k]) == TokenAt(st, st.pending[k])
    {
      assert Occupied(st, st.pending[k]);
    }
    assert forall j: nat :: Occupied(t, j) ==> Occupied(st, j);
  }

  // ----- there is always room ----------------------------------------------------------

  function Without(s: seq<nat>, k: nat): seq<nat>
    requires k < |s|
  {
    s[..k] + s[k + 1..]
  }

  lemma {:induction false} BoundedWithoutRepeats(s: seq<nat>, n: nat)
    requires NoRepeats(s) && forall k :: 0 <= k < |s| ==> s[k] < n
    ensures |s| <= n
  {
    if s != [] {
      assert s[0] < n;
      if k :| 0 <= k < |s| && s[k] == n - 1 {
        BoundedWithoutRepeats(Without(s, k), n - 1);
      } else {
        BoundedWithoutRepeats(s, n - 1);
      }
    }
  }

  lemma {:induction false} CoveringIsLong(s: seq<nat>, n: nat)
    requires forall i: nat :: i < n ==> Listed(s, i)
    ensures |s| >= n
  {
    if n > 0 {
      assert Listed(s, n - 1);
      var k: nat :| k < |s| && s[k] == n - 1;
      var rest := Without(s, k);
      forall i: nat | i < n - 1
        ensures Listed(rest, i)
      {
        assert Listed(s, i);
        var m: nat :| m < |s| && s[m] == i;
        assert rest[if m < k then m else m - 1] == i;
      }
      CoveringIsLong(rest, n - 1);
    }
  }

  // At most as many tokens are in flight as there are slots.
  lemma {:induction false} QueueIsBounded<T>(st: ThreadState<T>)
    requires QueueOk(st)
    ensures |st.pending| <= |st.slots|
  {
    assert forall k :: 0 <= k < |st.pending| ==> Occupied(st, st.pending[k]);
    BoundedWithoutRepeats(st.pending, |st.slots|);
  }

  // With fewer tokens in flight than slots, some slot is free.
  lemma {:induction false} SomeSlotIsFree<T>(st: ThreadState<T>)
    requires QueueOk(st) && |st.pending| < |st.slots|
    ensures exists i: nat :: i < |st.slots| && !Occupied(st, i)
  {
    if forall i: nat :: i < |st.slots| ==> Occupied(st, i) {
      CoveringIsLong(st.pending, |st.slots|);
    }
  }
}
