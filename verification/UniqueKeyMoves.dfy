/** Facts about a single move of a call: which request it makes where, which
    reference it carries on and what it knows under the lock.  Each fact is
    checked phase by phase. */
module UniqueKeyMoves {
  import opened UniqueKeyProtocol

  // ----- requests --------------------------------------------------------------

  // The created channel a call still has to publish or close.
  predicate Owes(pc: Pc, id: ChanId) { (pc.Publish? || pc.Close?) && pc.newId == id }

  predicate Idle(pc: Pc) { !pc.Publish? && !pc.Close? }

  // The request fits the point the call is at.
  ghost predicate Fits(s: State, k: Call, m: Move) {
    match m.op
    case Nop => (Idle(k.pc) && Idle(m.call.pc)) || (k.pc.Publish? && m.call.pc == Close(k.pc.attempt, k.pc.newId))
    case TakeLock => s.lock.None? && k.pc.LockTxn? && Idle(m.call.pc)
    case DropLock => (k.pc.LockRevoke? || k.pc.Release?) && Idle(m.call.pc)
    case MarkDead(id) => id == k.at.id && (k.pc.Bind? || (k.pc.ResolveMeta? && id !in s.metas)) && Idle(m.call.pc)
    case DropMapping => (k.pc.ResolveDelete? || k.pc.CleanMapping?) && Idle(m.call.pc)
    case DropMeta(id) => k.pc.CleanMeta? && id == k.at.id && Idle(m.call.pc)
    case NewChannel(kept) =>
      k.pc.Create? && (if kept then m.call.pc == Publish(k.pc.attempt, s.issued + 1) else Idle(m.call.pc))
    case PutMapping(id, kind) =>
      && k.pc.Publish? && id == k.pc.newId && s.mapping.None? && Idle(m.call.pc)
      && (if kind.Published? then m.call.pc == Release(Give) && m.call.at.id == id else kind.Leaked? && m.call.lossy)
    case Settle(id, kind) =>
      && Owes(k.pc, id) && Idle(m.call.pc) && (kind.Closed? || (kind.Leaked? && m.call.lossy))
  }

  // A call's reference changes only to the mapping as it stands after the step.
  ghost predicate Follows(s: State, k: Call, m: Move) {
    || (m.call.at == k.at && Bound(k.pc))
    || (Holds(s, m.call.at.id) && m.op.Nop? && m.call.at.epoch == s.epoch)
    || (m.op == PutMapping(m.call.at.id, Published) && m.call.at.epoch == s.epoch)
  }

  // A published channel is handed out, unless the release throws or the call crashes.
  predicate MayHand(k: Call, id: ChanId) {
    || (k.at.id == id && (k.pc == Release(Give) || k.pc == Done(Handle)))
    || k.pc == Done(Thrown) || (k.pc == Done(Crashed) && k.lossy)
  }

  ghost predicate MoveOk(s: State, k: Call, m: Move) {
    && Fits(s, k, m)
    && (k.lossy ==> m.call.lossy)
    && (Bound(m.call.pc) ==> Follows(s, k, m))
    && (forall id: ChanId :: MayHand(k, id) ==> MayHand(m.call, id))
  }

  // ----- knowledge under the lock ------------------------------------------------

  // What a call inside the critical section may rely on if nobody else is inside.
  predicate Knows(s: State, k: Call) {
    && (k.pc.ResolveMeta? ==> Holds(s, k.at.id))
    && (k.pc.ResolveDelete? ==> Holds(s, k.at.id) && k.at.id !in s.metas)
    && (k.pc.CleanMapping? ==> Holds(s, k.at.id))
    && (k.pc.Create? || k.pc.Publish? ==> s.mapping.None?)
    && !k.pc.Close?
  }

  // A call on its way to remove a mapping has the evidence for it.
  predicate Evident(s: State, k: Call) {
    k.pc.ResolveDelete? || Cleaning(k.pc) || (Locking(k.pc) && k.pc.why.ForCleanup?) ==> k.at.id in s.dead
  }

  // The lock is entered by its transaction, kept with the same token, and given up on leaving.
  ghost predicate Guarded(k: Call, m: Move) {
    && (InCritical(m.call.pc) ==>
          m.call.acq == k.acq && (m.op.TakeLock? || (InCritical(k.pc) && !m.op.DropLock?)))
    && (m.op.DropMapping? || m.op.PutMapping? ==> InCritical(k.pc))
  }

  // ----- phase by phase ----------------------------------------------------------

  lemma FastOk(s: State, k: Call, r: Reply)
    requires Fast(k.pc)
    ensures MoveOk(s, k, FastMove(s, k, r)) && Guarded(k, FastMove(s, k, r))
  {
  }

  lemma LockOk(s: State, k: Call, r: Reply)
    requires Locking(k.pc)
    ensures MoveOk(s, k, LockMove(s, k, r)) && Guarded(k, LockMove(s, k, r))
  {
  }

  lemma LookOk(s: State, k: Call, r: Reply)
    requires Looking(k.pc)
    ensures MoveOk(s, k, LookMove(s, k, r)) && Guarded(k, LookMove(s, k, r))
  {
  }

  lemma MakeOk(s: State, k: Call, r: Reply)
    requires Making(k.pc)
    ensures MoveOk(s, k, MakeMove(s, k, r)) && Guarded(k, MakeMove(s, k, r))
  {
  }

  lemma LeaveOk(s: State, c: nat, k: Call, r: Reply)
    requires Leaving(k.pc)
    ensures MoveOk(s, k, LeaveMove(s, c, k, r)) && Guarded(k, LeaveMove(s, c, k, r))
  {
  }

  lemma CleanOk(s: State, k: Call, r: Reply)
    requires Cleaning(k.pc)
    ensures MoveOk(s, k, CleanMove(s, k, r)) && Guarded(k, CleanMove(s, k, r))
  {
  }

  lemma MovesAreOk(s: State, c: nat, k: Call, r: Reply)
    requires !k.pc.Done?
    ensures MoveOk(s, k, NextMove(s, c, k, r)) && Guarded(k, NextMove(s, c, k, r))
  {
    if Fast(k.pc) { FastOk(s, k, r); }
    else if Locking(k.pc) { LockOk(s, k, r); }
    else if Looking(k.pc) { LookOk(s, k, r); }
    else if Making(k.pc) { MakeOk(s, k, r); }
    else if Leaving(k.pc) { LeaveOk(s, c, k, r); }
    else { CleanOk(s, k, r); }
  }
}
