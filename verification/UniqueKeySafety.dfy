/** What the unique-key protocol guarantees in every run, however often lock
    leases expire while held. */
module UniqueKeySafety {
  import opened Wrappers
  import opened UniqueKeyProtocol
  import opened UniqueKeyMoves

  // ----- one stored id per epoch, never stored twice --------------------------

  ghost predicate RefOk(s: State, r: Ref) { r.epoch in s.stored && s.stored[r.epoch] == r.id }

  ghost predicate StoreInv(s: State) {
    && (s.mapping.None? ==> s.epoch !in s.stored)
    && (forall id: ChanId :: Holds(s, id) ==> RefOk(s, Ref(id, s.epoch)))
    && (forall e :: e in s.stored ==> e <= s.epoch && s.stored[e] <= s.issued)
    && (forall e, f :: e in s.stored && f in s.stored && s.stored[e] == s.stored[f] ==> e == f)
    && (forall c :: c in s.calls && Bound(s.calls[c].pc) ==> RefOk(s, s.calls[c].at))
  }

  // The moving call still refers to a channel stored in its epoch.
  lemma MovedRef(s: State, k: Call, m: Move)
    requires StoreInv(s) && MoveOk(s, k, m) && (Bound(k.pc) ==> RefOk(s, k.at))
    requires !m.op.PutMapping? && Bound(m.call.pc)
    ensures RefOk(s, m.call.at)
  {
  }

  lemma KeepStoreInv(s: State, c: nat, m: Move)
    requires StoreInv(s) && c in s.calls && MoveOk(s, s.calls[c], m) && !m.op.PutMapping? && !m.op.DropMapping?
    ensures StoreInv(Take(s, c, m))
  {
    var t := Take(s, c, m);
    KeepsStore(s, Own(c, s.calls[c]), m.op);
    if Bound(m.call.pc) { MovedRef(s, s.calls[c], m); }
  }

  lemma KeepsStore(s: State, own: Token, op: Op)
    requires !op.PutMapping? && !op.DropMapping?
    ensures var t := Do(s, own, op);
            t.mapping == s.mapping && t.epoch == s.epoch && t.stored == s.stored && t.issued >= s.issued && t.calls == s.calls
  {
  }

  lemma DropStoreInv(s: State, c: nat, m: Move)
    requires StoreInv(s) && c in s.calls && MoveOk(s, s.calls[c], m) && m.op.DropMapping?
    ensures StoreInv(Take(s, c, m))
  {
    if Bound(m.call.pc) { MovedRef(s, s.calls[c], m); }
  }

  lemma PutStoreInv(s: State, c: nat, m: Move)
    requires StoreInv(s) && c in s.calls && MoveOk(s, s.calls[c], m)
    requires m.op.PutMapping? && m.op.id <= s.issued && m.op.id !in s.stored.Values
    ensures StoreInv(Take(s, c, m))
  {
    var t := Take(s, c, m);
    assert t.stored == s.stored[s.epoch := m.op.id];
  }

  lemma TakeStoreInv(s: State, c: nat, m: Move)
    requires StoreInv(s) && c in s.calls && MoveOk(s, s.calls[c], m)
    requires m.op.PutMapping? ==> m.op.id <= s.issued && m.op.id !in s.stored.Values
    ensures StoreInv(Take(s, c, m))
  {
    if m.op.PutMapping? {
      PutStoreInv(s, c, m);
    } else if m.op.DropMapping? {
      DropStoreInv(s, c, m);
    } else {
      KeepStoreInv(s, c, m);
    }
  }

  // ----- every created channel is accounted for --------------------------------

  ghost predicate Kept(s: State, id: ChanId) {
    id in s.fates && (s.fates[id].kind.Pending? || s.fates[id].kind.Leaked?)
  }

  ghost predicate FateOk(s: State, id: ChanId, f: Fate) {
    && id <= s.issued && f.owner in s.calls
    && (f.kind.Pending? ==> Owes(s.calls[f.owner].pc, id))
    && (f.kind.Leaked? ==> s.calls[f.owner].lossy)
    && (f.kind.Published? ==> MayHand(s.calls[f.owner], id))
  }

  ghost predicate Owed(s: State, c: nat, pc: Pc) {
    Idle(pc) || (pc.newId in s.fates && s.fates[pc.newId] == Fate(c, Pending))
  }

  // `legacy` are the registry entries made before the run.
  ghost predicate FateInv(s: State, legacy: set<ChanId>) {
    && (forall id :: id in s.fates ==> FateOk(s, id, s.fates[id]))
    && (forall c :: c in s.calls ==> Owed(s, c, s.calls[c].pc))
    && (forall e :: e in s.stored && s.stored[e] in s.fates ==>
          s.fates[s.stored[e]].kind.Published? || s.fates[s.stored[e]].kind.Leaked?)
    && (forall id :: id in legacy ==> id <= s.issued && id !in s.fates)
    && (forall id :: id in s.registry <==> id in legacy || Kept(s, id))
  }

  lemma QuietFateInv(s: State, c: nat, m: Move, legacy: set<ChanId>)
    requires FateInv(s, legacy) && c in s.calls && MoveOk(s, s.calls[c], m)
    requires !m.op.NewChannel? && !m.op.PutMapping? && !m.op.Settle?
    ensures FateInv(Take(s, c, m), legacy)
  {
    var t := Take(s, c, m);
    assert t.fates == s.fates && t.registry == s.registry && t.stored == s.stored && t.issued == s.issued;
    forall id | id in t.fates
      ensures FateOk(t, id, t.fates[id])
    {
      assert FateOk(s, id, s.fates[id]);
    }
  }

  // A construction that failed: at most an id is gone.
  lemma LostFateInv(s: State, c: nat, m: Move, legacy: set<ChanId>)
    requires FateInv(s, legacy) && c in s.calls && MoveOk(s, s.calls[c], m)
    requires m.op == NewChannel(false)
    ensures FateInv(Take(s, c, m), legacy)
  {
    var t := Take(s, c, m);
    assert t.fates == s.fates && t.registry == s.registry && t.stored == s.stored && t.issued == s.issued + 1;
    forall i | i in t.fates
      ensures FateOk(t, i, t.fates[i])
    {
      assert FateOk(s, i, s.fates[i]);
    }
  }

  lemma NewFateInv(s: State, c: nat, m: Move, legacy: set<ChanId>)
    requires StoreInv(s) && FateInv(s, legacy) && c in s.calls && MoveOk(s, s.calls[c], m)
    requires m.op == NewChannel(true)
    ensures FateInv(Take(s, c, m), legacy)
  {
    var t := Take(s, c, m);
    var id := s.issued + 1;
    assert id !in s.fates && t.fates == s.fates[id := Fate(c, Pending)] && t.registry == s.registry + {id};
    forall i | i in t.fates
      ensures FateOk(t, i, t.fates[i])
    {
      assert i != id ==> FateOk(s, i, s.fates[i]);
    }
  }

  lemma SettledFateInv(s: State, c: nat, m: Move, legacy: set<ChanId>)
    requires FateInv(s, legacy) && c in s.calls && MoveOk(s, s.calls[c], m)
    requires m.op.PutMapping? || m.op.Settle?
    ensures FateInv(Take(s, c, m), legacy)
  {
    var t := Take(s, c, m);
    var id := m.op.id;
    assert Owed(s, c, s.calls[c].pc);
    assert t.fates == s.fates[id := Fate(c, m.op.kind)];
    forall i | i in t.fates
      ensures FateOk(t, i, t.fates[i])
    {
      assert FateOk(s, i, s.fates[i]);
    }
  }

  // ----- every run ----------------------------------------------------------------

  ghost predicate Inv(s: State, legacy: set<ChanId>) { StoreInv(s) && FateInv(s, legacy) }

  lemma CrashesAreOk(s: State, k: Call)
    requires !k.pc.Done?
    ensures MoveOk(s, k, CrashMove(k))
  {
  }

  lemma TakeInv(s: State, c: nat, m: Move, legacy: set<ChanId>)
    requires Inv(s, legacy) && c in s.calls && MoveOk(s, s.calls[c], m)
    ensures Inv(Take(s, c, m), legacy)
  {
    PublishesFresh(s, c, m, legacy);
    TakeStoreInv(s, c, m);
    if m.op == NewChannel(true) {
      NewFateInv(s, c, m, legacy);
    } else if m.op.NewChannel? {
      LostFateInv(s, c, m, legacy);
    } else if m.op.PutMapping? || m.op.Settle? {
      SettledFateInv(s, c, m, legacy);
    } else {
      QuietFateInv(s, c, m, legacy);
    }
  }

  lemma ApplyInv(s: State, e: Event, legacy: set<ChanId>)
    requires Inv(s, legacy)
    ensures Inv(Apply(s, e), legacy)
  {
    match e
    case Step(c, r) =>
      if c in s.calls && !s.calls[c].pc.Done? {
        MovesAreOk(s, c, s.calls[c], r);
        TakeInv(s, c, NextMove(s, c, s.calls[c], r), legacy);
      } else if c in s.calls {
        assert s.calls == s.calls[c := s.calls[c]];
      }
    case Crash(c) =>
      if c in s.calls && !s.calls[c].pc.Done? {
        CrashesAreOk(s, s.calls[c]);
        TakeInv(s, c, CrashMove(s.calls[c]), legacy);
      }
    case Start(c) => StartInv(s, c, legacy);
    case _ => EnvironmentInv(s, e, legacy);
  }

  lemma StartInv(s: State, c: nat, legacy: set<ChanId>)
    requires Inv(s, legacy)
    ensures Inv(Apply(s, Start(c)), legacy)
  {
    var t := Apply(s, Start(c));
    forall id | id in t.fates
      ensures FateOk(t, id, t.fates[id])
    {
      assert FateOk(s, id, s.fates[id]);
    }
  }

  lemma EnvironmentInv(s: State, e: Event, legacy: set<ChanId>)
    requires Inv(s, legacy) && (e.Expire? || e.MetaLoss? || e.Alloc?)
    ensures Inv(Apply(s, e), legacy)
  {
    var t := Apply(s, e);
    forall id | id in t.fates
      ensures FateOk(t, id, t.fates[id])
    {
      assert FateOk(s, id, s.fates[id]);
    }
  }

  lemma {:induction false} RunInv(s: State, es: seq<Event>)
    requires Init(s)
    ensures Inv(Run(s, es), s.registry)
  {
    if es != [] {
      RunInv(s, es[..|es| - 1]);
      ApplyInv(Run(s, es[..|es| - 1]), es[|es| - 1], s.registry);
    }
  }

  // ----- theorems -------------------------------------------------------------------

  // Two calls that resolved with no removal in between hold handles on one channel.
  lemma {:induction false} OneChannelPerEpoch(s: State, es: seq<Event>, c: nat, d: nat)
    requires Init(s)
    requires var t := Run(s, es);
             && c in t.calls && t.calls[c].pc == Done(Handle)
             && d in t.calls && t.calls[d].pc == Done(Handle)
    ensures var t := Run(s, es);
            t.calls[c].at.epoch == t.calls[d].at.epoch <==> t.calls[c].at.id == t.calls[d].at.id
  {
    RunInv(s, es);
  }

  // The mapping only ever goes from absent to an id that was never stored before, or
  // from present to absent.
  lemma {:induction false} MappingMoves(s: State, es: seq<Event>, e: Event)
    requires Init(s)
    ensures MappingStep(Run(s, es), Apply(Run(s, es), e))
  {
    RunInv(s, es);
    var t := Run(s, es);
    if e.Step? && e.call in t.calls && !t.calls[e.call].pc.Done? {
      StepMapping(t, e.call, e.reply, s.registry);
    } else {
      OtherMapping(t, e);
    }
  }

  lemma OtherMapping(s: State, e: Event)
    requires e.Step? && e.call in s.calls ==> s.calls[e.call].pc.Done?
    ensures Apply(s, e).mapping == s.mapping
  {
    match e
    case Step(c, r) =>
    case Crash(c) =>
    case _ =>
  }

  lemma StepMapping(s: State, c: nat, r: Reply, legacy: set<ChanId>)
    requires Inv(s, legacy) && c in s.calls && !s.calls[c].pc.Done?
    ensures MappingStep(s, Apply(s, Step(c, r)))
  {
    var k := s.calls[c];
    MovesAreOk(s, c, k, r);
    PublishesFresh(s, c, NextMove(s, c, k, r), legacy);
    TakeMapping(s, c, NextMove(s, c, k, r));
  }

  lemma PublishesFresh(s: State, c: nat, m: Move, legacy: set<ChanId>)
    requires Inv(s, legacy) && c in s.calls && MoveOk(s, s.calls[c], m)
    ensures m.op.PutMapping? ==> m.op.id <= s.issued && m.op.id !in s.stored.Values
  {
    if m.op.PutMapping? {
      assert Owed(s, c, s.calls[c].pc);
      assert FateOk(s, m.op.id, s.fates[m.op.id]);
    }
  }

  ghost predicate MappingStep(s: State, t: State) {
    || t.mapping == s.mapping
    || (s.mapping.Some? && t.mapping.None? && t.epoch == s.epoch + 1)
    || (s.mapping.None? && t.mapping.Some? && t.mapping.value.Digits?
        && t.mapping.value.id !in s.stored.Values && t.mapping.value.id <= s.issued)
  }

  lemma TakeMapping(s: State, c: nat, m: Move)
    requires c in s.calls && MoveOk(s, s.calls[c], m)
    requires m.op.PutMapping? ==> m.op.id <= s.issued && m.op.id !in s.stored.Values
    ensures MappingStep(s, Take(s, c, m))
  {
  }

  // The event gives the token's lock up: its lease runs out, or the very acquisition that wrote
  // it releases or revokes it.
  ghost predicate GivesUp(s: State, e: Event, own: Token) {
    && s.lock == Some(own)
    && (|| e == Expire
        || (e.Step? && e.call == own.call && own.call in s.calls && own.acq == s.calls[own.call].acq
            && (s.calls[own.call].pc.Release? || s.calls[own.call].pc.LockRevoke?)))
  }

  lemma TokenStays(s: State, e: Event, own: Token)
    requires s.lock == Some(own) && !GivesUp(s, e, own)
    ensures Apply(s, e).lock == Some(own)
  {
    if e.Step? && e.call in s.calls && !s.calls[e.call].pc.Done? {
      MovesAreOk(s, e.call, s.calls[e.call], e.reply);
    }
  }

  // In every run, a token that is in the lock key at one instant and not at a later one was given
  // up in between by its own acquisition or by its lease, never by another call.
  lemma {:induction false} LockLeavesItsOwner(s: State, es: seq<Event>, n: nat, own: Token) returns (i: nat)
    requires n <= |es| && Run(s, es[..n]).lock == Some(own) && Run(s, es).lock != Some(own)
    ensures n <= i < |es| && GivesUp(Run(s, es[..i]), es[i], own)
    decreases |es|
  {
    assert es[..|es|] == es;
    var before := es[..|es| - 1];
    if Run(s, before).lock == Some(own) {
      i := |es| - 1;
      if !GivesUp(Run(s, before), es[i], own) { TokenStays(Run(s, before), es[i], own); }
    } else {
      assert before[..n] == es[..n];
      i := LockLeavesItsOwner(s, before, n, own);
      assert before[..i] == es[..i];
    }
  }

  // A call that is about to remove the mapping, whatever leases ran out meanwhile: it removes the
  // channel it has evidence against if and only if nobody removed a mapping since it looked.
  lemma {:induction false} RemovesItsOwnIff(s: State, es: seq<Event>, c: nat, id: ChanId)
    requires Init(s) && c in Run(s, es).calls && Holds(Run(s, es), id)
    requires var pc := Run(s, es).calls[c].pc; pc.ResolveDelete? || pc.CleanMapping?
    ensures var t := Run(s, es); t.calls[c].at.id == id <==> t.calls[c].at.epoch == t.epoch
  {
    RunInv(s, es);
  }

  // While call `c` was under way, `id` was the stored mapping at some instant.
  ghost predicate SeenDuring(s: State, es: seq<Event>, c: nat, id: ChanId) {
    exists n: nat :: n <= |es| && Underway(Run(s, es[..n]), c) && Holds(Run(s, es[..n]), id)
  }

  predicate Underway(s: State, c: nat) { c in s.calls && !s.calls[c].pc.Done? }

  lemma SeenEarlier(s: State, es: seq<Event>, c: nat, id: ChanId)
    requires es != [] && SeenDuring(s, es[..|es| - 1], c, id)
    ensures SeenDuring(s, es, c, id)
  {
    var before := es[..|es| - 1];
    var n: nat :| n <= |before| && Underway(Run(s, before[..n]), c) && Holds(Run(s, before[..n]), id);
    assert before[..n] == es[..n];
  }

  lemma {:induction false} BoundWasStored(s: State, es: seq<Event>, c: nat)
    requires Init(s) && c in Run(s, es).calls && Bound(Run(s, es).calls[c].pc)
    ensures SeenDuring(s, es, c, Run(s, es).calls[c].at.id)
  {
    var before, e := es[..|es| - 1], es[|es| - 1];
    var p, t := Run(s, before), Run(s, es);
    var id := t.calls[c].at.id;
    if e.Step? && e.call == c && !p.calls[c].pc.Done? {
      var m := NextMove(p, c, p.calls[c], e.reply);
      MovesAreOk(p, c, p.calls[c], e.reply);
      if m.call.at == p.calls[c].at && Bound(p.calls[c].pc) {
        BoundWasStored(s, before, c);
        SeenEarlier(s, es, c, id);
      } else {
        FirstSight(p, c, e.reply);
        assert es[..|es|] == es;
      }
    } else {
      assert c in p.calls && p.calls[c] == t.calls[c];
      BoundWasStored(s, before, c);
      SeenEarlier(s, es, c, id);
    }
  }

  lemma FirstSight(s: State, c: nat, r: Reply)
    requires Underway(s, c)
    requires var m := NextMove(s, c, s.calls[c], r);
             && MoveOk(s, s.calls[c], m) && Bound(m.call.pc)
             && !(m.call.at == s.calls[c].at && Bound(s.calls[c].pc))
    ensures var t := Apply(s, Step(c, r)); Underway(t, c) && Holds(t, t.calls[c].at.id)
  {
  }

  // Every handle is on a channel that was the stored mapping at some instant of the call.
  lemma {:induction false} HandleWasStored(s: State, es: seq<Event>, c: nat)
    requires Init(s) && c in Run(s, es).calls && Run(s, es).calls[c].pc == Done(Handle)
    ensures SeenDuring(s, es, c, Run(s, es).calls[c].at.id)
  {
    BoundWasStored(s, es, c);
  }

  // A call that has ended, and whose publish and `close()` requests were all answered
  // well, has published or closed every channel it created and left none in the registry.
  lemma {:induction false} CreatedIsPublishedOrClosed(s: State, es: seq<Event>, c: nat, id: ChanId)
    requires Init(s)
    requires var t := Run(s, es);
             && c in t.calls && t.calls[c].pc.Done? && !t.calls[c].lossy
             && id in t.fates && t.fates[id].owner == c
    ensures var t := Run(s, es);
            && id !in t.registry
            && (t.fates[id].kind.Closed?
                || (t.fates[id].kind.Published? && (t.calls[c].pc == Done(Thrown)
                                                   || (t.calls[c].pc == Done(Handle) && t.calls[c].at.id == id))))
  {
    RunInv(s, es);
    assert FateOk(Run(s, es), id, Run(s, es).fates[id]);
  }

  predicate EndedWell(k: Call) { k.pc.Done? && !k.lossy }

  // Once every call has ended without loss, the process registry is what it was before.
  lemma {:induction false} RegistryIsRestored(s: State, es: seq<Event>)
    requires Init(s)
    requires forall c :: c in Run(s, es).calls ==> EndedWell(Run(s, es).calls[c])
    ensures Run(s, es).registry == s.registry
  {
    RunInv(s, es);
    var t := Run(s, es);
    forall id | id in t.fates
      ensures !Kept(t, id)
    {
      assert FateOk(t, id, t.fates[id]);
      assert EndedWell(t.calls[t.fates[id].owner]);
    }
  }
}
