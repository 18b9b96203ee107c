/** What the unique-key protocol guarantees in runs in which no lock lease runs
    out while its call is inside the critical section, and what goes wrong in
    the others. */
module UniqueKeyMutex {
  import opened Wrappers
  import opened UniqueKeyProtocol
  import opened UniqueKeyMoves
  import opened UniqueKeySafety
  import opened UniqueKeyEvidence

  predicate Inside(s: State, c: nat) { c in s.calls && InCritical(s.calls[c].pc) }

  // A lapse takes the lock from a call that relies on it.
  predicate Lapses(s: State, e: Event) {
    e.Expire? && s.lock.Some? && Inside(s, s.lock.value.call) && s.lock.value.acq == s.calls[s.lock.value.call].acq
  }

  ghost predicate NoLapse(s: State, es: seq<Event>) {
    forall n :: 0 <= n < |es| ==> !Lapses(Run(s, es[..n]), es[n])
  }

  ghost predicate MutexInv(s: State) {
    && (forall c :: Inside(s, c) ==> s.lock == Some(Own(c, s.calls[c])) && Knows(s, s.calls[c]))
    && (forall c :: c in s.calls ==> Evident(s, s.calls[c]))
    && (forall e :: e in s.stored && e < s.epoch ==> s.stored[e] in s.dead)
  }

  // ----- the moving call keeps its knowledge, phase by phase -------------------------

  ghost predicate Learns(s: State, c: nat, k: Call, m: Move) {
    var t := Do(s, Own(c, k), m.op);
    && (InCritical(m.call.pc) ==> Knows(t, m.call))
    && Evident(t, m.call)
  }

  lemma LockLearns(s: State, c: nat, k: Call, r: Reply)
    requires Locking(k.pc) && (InCritical(k.pc) ==> Knows(s, k)) && Evident(s, k)
    ensures Learns(s, c, k, LockMove(s, k, r))
  {
  }

  lemma LookLearns(s: State, c: nat, k: Call, r: Reply)
    requires Looking(k.pc) && (InCritical(k.pc) ==> Knows(s, k)) && Evident(s, k)
    ensures Learns(s, c, k, LookMove(s, k, r))
  {
  }

  lemma MakeLearns(s: State, c: nat, k: Call, r: Reply)
    requires Making(k.pc) && (InCritical(k.pc) ==> Knows(s, k)) && Evident(s, k)
    ensures Learns(s, c, k, MakeMove(s, k, r))
  {
  }

  lemma LeaveLearns(s: State, c: nat, k: Call, r: Reply)
    requires Leaving(k.pc) && (InCritical(k.pc) ==> Knows(s, k)) && Evident(s, k)
    ensures Learns(s, c, k, LeaveMove(s, c, k, r))
  {
  }

  lemma CleanLearns(s: State, c: nat, k: Call, r: Reply)
    requires Cleaning(k.pc) && (InCritical(k.pc) ==> Knows(s, k)) && Evident(s, k)
    ensures Learns(s, c, k, CleanMove(s, k, r))
  {
  }

  lemma MovesLearn(s: State, c: nat, k: Call, r: Reply)
    requires !k.pc.Done? && (InCritical(k.pc) ==> Knows(s, k)) && Evident(s, k)
    ensures Learns(s, c, k, NextMove(s, c, k, r))
  {
    if Locking(k.pc) { LockLearns(s, c, k, r); }
    else if Looking(k.pc) { LookLearns(s, c, k, r); }
    else if Making(k.pc) { MakeLearns(s, c, k, r); }
    else if Leaving(k.pc) { LeaveLearns(s, c, k, r); }
    else if Cleaning(k.pc) { CleanLearns(s, c, k, r); }
  }

  // ----- nobody else is disturbed ------------------------------------------------------

  // The request of a call leaves another call that is inside alone.
  lemma OthersKeep(s: State, c: nat, m: Move, d: nat)
    requires MutexInv(s) && c in s.calls && MoveOk(s, s.calls[c], m) && Guarded(s.calls[c], m)
    requires d != c && Inside(s, d)
    ensures var t := Take(s, c, m); t.lock == s.lock && t.mapping == s.mapping && t.metas == s.metas
  {
    assert s.lock == Some(Own(d, s.calls[d]));
    assert !Inside(s, c);
  }

  lemma TakeMutexInv(s: State, c: nat, m: Move)
    requires MutexInv(s) && StoreInv(s) && c in s.calls
    requires MoveOk(s, s.calls[c], m) && Guarded(s.calls[c], m) && Learns(s, c, s.calls[c], m)
    ensures MutexInv(Take(s, c, m))
  {
    var k := s.calls[c];
    var t := Take(s, c, m);
    forall d | Inside(t, d)
      ensures t.lock == Some(Own(d, t.calls[d])) && Knows(t, t.calls[d])
    {
      if d != c { OthersKeep(s, c, m, d); }
    }
    assert s.dead <= t.dead;
    forall d | d in t.calls
      ensures Evident(t, t.calls[d])
    {
      assert d != c ==> Evident(s, s.calls[d]);
    }
    if m.op.DropMapping? {
      assert Inside(s, c) && Holds(s, k.at.id) && k.at.id in s.dead;
    }
    assert forall e :: e in t.stored && e < t.epoch ==> t.stored[e] in t.dead;
  }

  lemma ApplyMutexInv(s: State, e: Event)
    requires MutexInv(s) && StoreInv(s) && !Lapses(s, e)
    ensures MutexInv(Apply(s, e))
  {
    match e
    case Step(c, r) =>
      if c in s.calls && !s.calls[c].pc.Done? {
        MovesAreOk(s, c, s.calls[c], r);
        MovesLearn(s, c, s.calls[c], r);
        TakeMutexInv(s, c, NextMove(s, c, s.calls[c], r));
      } else if c in s.calls {
        assert s.calls == s.calls[c := s.calls[c]];
      }
    case Crash(c) =>
      if c in s.calls && !s.calls[c].pc.Done? {
        CrashesAreOk(s, s.calls[c]);
        TakeMutexInv(s, c, CrashMove(s.calls[c]));
      }
    case Start(c) => StartMutexInv(s, c);
    case _ => EnvironmentMutexInv(s, e);
  }

  lemma StartMutexInv(s: State, c: nat)
    requires MutexInv(s)
    ensures MutexInv(Apply(s, Start(c)))
  {
    var t := Apply(s, Start(c));
    forall d | Inside(t, d)
      ensures t.lock == Some(Own(d, t.calls[d])) && Knows(t, t.calls[d])
    {
      assert Inside(s, d);
    }
    forall d | d in t.calls
      ensures Evident(t, t.calls[d])
    {
      assert d in s.calls ==> Evident(s, s.calls[d]);
    }
  }

  lemma EnvironmentMutexInv(s: State, e: Event)
    requires MutexInv(s) && !Lapses(s, e) && (e.Expire? || e.MetaLoss? || e.Alloc?)
    ensures MutexInv(Apply(s, e))
  {
    var t := Apply(s, e);
    forall d | Inside(t, d)
      ensures t.lock == Some(Own(d, t.calls[d])) && Knows(t, t.calls[d])
    {
      assert Inside(s, d);
    }
    forall d | d in t.calls
      ensures Evident(t, t.calls[d])
    {
      assert Evident(s, s.calls[d]);
    }
  }

  lemma {:induction false} RunMutexInv(s: State, es: seq<Event>)
    requires Init(s) && NoLapse(s, es)
    ensures MutexInv(Run(s, es)) && StoreInv(Run(s, es))
  {
    RunInv(s, es);
    if es != [] {
      var before := es[..|es| - 1];
      assert forall n :: 0 <= n < |before| ==> before[..n] == es[..n];
      RunMutexInv(s, before);
      ApplyMutexInv(Run(s, before), es[|es| - 1]);
    }
  }

  // ----- theorems -------------------------------------------------------------------

  // At most one call is inside the critical section, and its lock is its own.
  lemma {:induction false} MutualExclusion(s: State, es: seq<Event>, c: nat, d: nat)
    requires Init(s) && NoLapse(s, es)
    requires Inside(Run(s, es), c) && Inside(Run(s, es), d)
    ensures c == d && Run(s, es).lock == Some(Own(c, Run(s, es).calls[c]))
  {
    RunMutexInv(s, es);
  }

  // The publish transaction never finds the key taken, so no created channel has to be
  // closed again, and an answered release always succeeds.
  lemma {:induction false} NoConflictInside(s: State, es: seq<Event>, c: nat)
    requires Init(s) && NoLapse(s, es) && c in Run(s, es).calls
    ensures !Run(s, es).calls[c].pc.Close?
    ensures Run(s, es).calls[c].pc == Release(Give) ==>
              Apply(Run(s, es), Step(c, Ok)).calls[c].pc == Done(Handle)
  {
    RunMutexInv(s, es);
    assert Inside(Run(s, es), c) || !InCritical(Run(s, es).calls[c].pc);
  }

  // A removal hits only a channel that some event of the run found dead.
  lemma {:induction false} RemovalHasEvidence(s: State, es: seq<Event>, e: Event, id: ChanId)
    requires Init(s) && NoLapse(s, es)
    requires Holds(Run(s, es), id) && Apply(Run(s, es), e).mapping.None?
    ensures Found(s, es, id)
  {
    RunMutexInv(s, es);
    DeadIff(s, es, id);
    var t := Run(s, es);
    var k := t.calls[e.call];
    MovesAreOk(t, e.call, k, e.reply);
    assert Inside(t, e.call) && Evident(t, k);
  }

  // Handles on two different channels exist only if the earlier one was found dead.
  lemma {:induction false} SplitNeedsDeath(s: State, es: seq<Event>, c: nat, d: nat)
    requires Init(s) && NoLapse(s, es)
    requires var t := Run(s, es);
             && c in t.calls && t.calls[c].pc == Done(Handle)
             && d in t.calls && t.calls[d].pc == Done(Handle)
             && t.calls[c].at.id != t.calls[d].at.id
    ensures var t := Run(s, es); Found(s, es, t.calls[c].at.id) || Found(s, es, t.calls[d].at.id)
  {
    RunMutexInv(s, es);
    DeadIff(s, es, Run(s, es).calls[c].at.id);
    DeadIff(s, es, Run(s, es).calls[d].at.id);
    OneChannelPerEpoch(s, es, c, d);
  }
}
