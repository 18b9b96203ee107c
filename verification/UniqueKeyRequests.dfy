/** Which request a call makes when, and where it goes on: the requests that change the store, the
    way to the lock, and the cleanup. */
module UniqueKeyRequests {
  import opened Wrappers
  import opened UniqueKeyProtocol
  import opened UniqueKeyMoves

  // A request took effect: it was answered, or it raised after it was applied.
  predicate Applied(r: Reply) { r.Raise? ==> r.applied }

  // The requests that change something, each exactly at its place.
  predicate Asks(s: State, c: nat, k: Call, r: Reply, op: Op) {
    match op
    case Nop => true
    // the lock is free, and the transaction is not refused for its lease
    case TakeLock => k.pc.LockTxn? && s.lock.None? && Applied(r) && !r.Stale?
    case DropLock =>
      || (k.pc.LockRevoke? && Applied(r))
      || (k.pc.Release? && if r.Raise? then r.applied else s.lock == Some(Own(c, k)))
    case MarkDead(id) =>
      && id == k.at.id
      && ((k.pc.Bind? && r.Stale?) || (k.pc.ResolveMeta? && !r.Raise? && id !in s.metas))
    case DropMapping => (k.pc.ResolveDelete? || k.pc.CleanMapping?) && Applied(r)
    case DropMeta(id) => k.pc.CleanMeta? && id == k.at.id && Applied(r)
    case NewChannel(kept) => k.pc.Create? && if kept then r.Ok? else r.Raise? && r.applied
    // the key is still absent
    case PutMapping(id, kind) =>
      && k.pc.Publish? && id == k.pc.newId && s.mapping.None? && Applied(r)
      && kind == if r.Raise? then Leaked else Published
    // the channel was closed again, or nobody will
    case Settle(id, kind) =>
      || (k.pc.Close? && id == k.pc.newId && kind == if r.Ok? then Closed else Leaked)
      || (k.pc.Publish? && id == k.pc.newId && kind == Leaked && r.Raise? && !(r.applied && s.mapping.None?))
  }

  lemma LockAsks(s: State, c: nat, k: Call, r: Reply, op: Op)
    requires Locking(k.pc) && !op.Nop?
    ensures LockMove(s, k, r).op == op <==> Asks(s, c, k, r, op)
  {
  }

  lemma LookAsks(s: State, c: nat, k: Call, r: Reply, op: Op)
    requires Looking(k.pc) && !op.Nop?
    ensures LookMove(s, k, r).op == op <==> Asks(s, c, k, r, op)
  {
  }

  lemma MakeAsks(s: State, c: nat, k: Call, r: Reply, op: Op)
    requires Making(k.pc) && !op.Nop?
    ensures MakeMove(s, k, r).op == op <==> Asks(s, c, k, r, op)
  {
  }

  lemma LeaveAsks(s: State, c: nat, k: Call, r: Reply, op: Op)
    requires Leaving(k.pc) && !op.Nop?
    ensures LeaveMove(s, c, k, r).op == op <==> Asks(s, c, k, r, op)
  {
  }

  lemma CleanAsks(s: State, c: nat, k: Call, r: Reply, op: Op)
    requires Cleaning(k.pc) && !op.Nop?
    ensures CleanMove(s, k, r).op == op <==> Asks(s, c, k, r, op)
  {
  }

  // Every request that changes something is made exactly when its place and the store call for it.
  lemma RequestIff(s: State, c: nat, k: Call, r: Reply, op: Op)
    requires !op.Nop?
    ensures NextMove(s, c, k, r).op == op <==> Asks(s, c, k, r, op)
  {
    if Locking(k.pc) { LockAsks(s, c, k, r, op); }
    else if Looking(k.pc) { LookAsks(s, c, k, r, op); }
    else if Making(k.pc) { MakeAsks(s, c, k, r, op); }
    else if Leaving(k.pc) { LeaveAsks(s, c, k, r, op); }
    else if Cleaning(k.pc) { CleanAsks(s, c, k, r, op); }
    else if Fast(k.pc) { MovesAreOk(s, c, k, r); }
  }

  // ----- ways -------------------------------------------------------------------------------------

  predicate StoresId(s: State) { s.mapping.Some? && s.mapping.value.Digits? }

  // Without the lock: up to three reads as long as they raise, then one bind to what is stored; if
  // that fails, or nothing is stored, the lock is asked for.
  lemma FastWay(s: State, k: Call, r: Reply)
    requires Fast(k.pc)
    ensures var k' := FastMove(s, k, r).call;
            && (k'.pc.FastRead? <==> k.pc.FastRead? && r.Raise? && k.pc.tries < 2)
            && (k'.pc.FastRead? ==> k'.pc.tries == k.pc.tries + 1)
            && (k'.pc.FastBind? <==> k.pc.FastRead? && !r.Raise? && StoresId(s))
            && (k'.pc.FastBind? ==> Holds(s, k'.at.id) && k'.at.epoch == s.epoch)
            && (k'.pc == Done(Handle) <==> k.pc.FastBind? && r.Ok?)
            && (k'.pc == LockRead(ForResolve) <==>
                  || (k.pc.FastRead? && if r.Raise? then k.pc.tries >= 2 else !StoresId(s))
                  || (k.pc.FastBind? && !r.Ok?))
  {
  }

  // To the lock: the key is read until it is free, a lease is taken, and the transaction wins or
  // the lease is revoked; a lost transaction starts again, one that raised does not.
  lemma LockWay(s: State, k: Call, r: Reply)
    requires Locking(k.pc)
    ensures var k' := LockMove(s, k, r).call;
            && (k'.pc.LockLease? <==> k.pc.LockRead? && !r.Raise? && s.lock.None?)
            && (k'.pc.LockTxn? <==> k.pc.LockLease? && r.Ok?)
            && (k'.pc.LockRevoke? <==> k.pc.LockTxn? && (r.Raise? || r.Stale? || s.lock.Some?))
            && (k'.pc.LockRevoke? ==> (k'.pc.fatal <==> r.Raise?))
            && (k'.pc.LockRead? <==>
                  || (k.pc.LockRead? && !r.Raise? && s.lock.Some? && !r.Other?)
                  || (k.pc.LockRevoke? && !k.pc.fatal && !r.Other?))
            && (InCritical(k'.pc) <==> k.pc.LockTxn? && !r.Raise? && !r.Stale? && s.lock.None?)
            && (InCritical(k'.pc) ==> k'.pc == if k.pc.why.ForResolve? then ResolveRead(0) else CleanRead)
            && (Locking(k'.pc) ==> k'.pc.why == k.pc.why) && k'.at == k.at && k'.acq == k.acq
  {
  }

  // Under the lock, looking and making: what is stored is looked at; only if it is absent, or its
  // meta is and it was deleted, is a channel made, and then published.
  lemma ResolveWay(s: State, c: nat, k: Call, r: Reply)
    requires Looking(k.pc) || Making(k.pc)
    ensures var k' := NextMove(s, c, k, r).call;
            && (k'.pc.ResolveMeta? <==> k.pc.ResolveRead? && !r.Raise? && StoresId(s))
            && (k'.pc.ResolveMeta? ==> Holds(s, k'.at.id) && k'.at.epoch == s.epoch)
            && (k'.pc.ResolveDelete? <==> k.pc.ResolveMeta? && !r.Raise? && k.at.id !in s.metas)
            && (k'.pc.Create? <==> !r.Raise? && ((k.pc.ResolveRead? && s.mapping.None?) || k.pc.ResolveDelete?))
            && (k'.pc.Publish? <==> k.pc.Create? && r.Ok?)
            && (k'.pc.Publish? ==> k'.pc.newId == s.issued + 1)
            && (k'.pc.Close? <==> k.pc.Publish? && !r.Raise? && s.mapping.Some?)
            && (k'.pc.Close? ==> k'.pc.newId == k.pc.newId)
  {
    if Looking(k.pc) { LookWay(s, k, r); } else { MakeWay(s, k, r); }
  }

  lemma LookWay(s: State, k: Call, r: Reply)
    requires Looking(k.pc)
    ensures var k' := LookMove(s, k, r).call;
            && (k'.pc.ResolveMeta? <==> k.pc.ResolveRead? && !r.Raise? && StoresId(s))
            && (k'.pc.ResolveMeta? ==> Holds(s, k'.at.id) && k'.at.epoch == s.epoch)
            && (k'.pc.ResolveDelete? <==> k.pc.ResolveMeta? && !r.Raise? && k.at.id !in s.metas)
            && (k'.pc.Create? <==> !r.Raise? && ((k.pc.ResolveRead? && s.mapping.None?) || k.pc.ResolveDelete?))
            && !k'.pc.Publish? && !k'.pc.Close?
  {
  }

  lemma MakeWay(s: State, k: Call, r: Reply)
    requires Making(k.pc)
    ensures var k' := MakeMove(s, k, r).call;
            && !k'.pc.ResolveMeta? && !k'.pc.ResolveDelete? && !k'.pc.Create?
            && (k'.pc.Publish? <==> k.pc.Create? && r.Ok?)
            && (k'.pc.Publish? ==> k'.pc.newId == s.issued + 1)
            && (k'.pc.Close? <==> k.pc.Publish? && !r.Raise? && s.mapping.Some?)
            && (k'.pc.Close? ==> k'.pc.newId == k.pc.newId)
  {
  }

  // The cleanup: the mapping, if it is still the stale one, then the meta, then the rest.
  lemma CleanWay(s: State, k: Call, r: Reply)
    requires Cleaning(k.pc)
    ensures var k' := CleanMove(s, k, r).call;
            && (k'.pc.CleanMapping? <==> k.pc.CleanRead? && !r.Raise? && Holds(s, k.at.id))
            && (k'.pc.CleanMeta? <==> k.pc.CleanMapping? && !r.Raise?)
            && (k'.pc.CleanRest? <==> k.pc.CleanMeta? && !r.Raise?)
            && k'.at == k.at
  {
  }

  // Leaving: the decision is carried out once the lock was given back, and only then.
  lemma LeaveWay(s: State, c: nat, k: Call, r: Reply)
    requires Leaving(k.pc)
    ensures var k' := LeaveMove(s, c, k, r).call;
            var back := k.pc.Release? && !r.Raise? && s.lock == Some(Own(c, k));
            && (k'.pc.Bind? <==> back && k.pc.out.BindExisting?)
            && (k'.pc == LockRead(ForResolve) <==> back && k.pc.out.NextRound? && k.round < 2)
            && (k'.pc == LockRead(ForCleanup) <==> k.pc.Bind? && r.Stale?)
            && (k'.pc.LockRead? ==> k'.acq == k.acq + 1 && k'.round == if k.pc.Bind? then k.round else k.round + 1)
            && k'.at == k.at
  {
  }

  // ----- the lock is not left behind -----------------------------------------------------------------

  // The call is at a place from which it gives the lock back.
  predicate WillGiveBack(s: State, own: Token) {
    && own.call in s.calls && own.acq == s.calls[own.call].acq
    && (InCritical(s.calls[own.call].pc) || s.calls[own.call].pc.LockRevoke?)
  }

  // The event leaves the lock to its lease: the call crashes, or its release or revoke raises and was
  // not applied.
  predicate Abandons(s: State, e: Event, own: Token) {
    && WillGiveBack(s, own)
    && (|| e == Crash(own.call)
        || (e == Step(own.call, Raise(false)) && (s.calls[own.call].pc.Release? || s.calls[own.call].pc.LockRevoke?)))
  }

  ghost function AbandonsAt(s: State, own: Token): (seq<Event>, Event) -> bool {
    (before, e) => Abandons(Run(s, before), e, own)
  }

  ghost predicate Abandoned(s: State, es: seq<Event>, own: Token) { Happens(es, AbandonsAt(s, own)) }

  ghost predicate Accounted(s: State, own: Token, left: bool) { s.lock == Some(own) ==> WillGiveBack(s, own) || left }

  lemma HeldStep(s: State, e: Event, own: Token, left: bool)
    requires Accounted(s, own, left)
    ensures Accounted(Apply(s, e), own, left || Abandons(s, e, own))
  {
    match e
    case Step(c, r) =>
      if c in s.calls && !s.calls[c].pc.Done? { StepHeld(s, c, r, own, left); }
      else if c in s.calls { assert s.calls == s.calls[c := s.calls[c]]; }
    case Crash(c) =>
    case Start(c) =>
    case _ =>
  }

  lemma DoLock(s: State, own: Token, op: Op)
    ensures Do(s, own, op).lock
            == if op.TakeLock? then Some(own) else if op.DropLock? && s.lock == Some(own) then None else s.lock
  {
  }

  lemma StepHeld(s: State, c: nat, r: Reply, own: Token, left: bool)
    requires Accounted(s, own, left) && c in s.calls && !s.calls[c].pc.Done?
    ensures Accounted(Apply(s, Step(c, r)), own, left || Abandons(s, Step(c, r), own))
  {
    var k := s.calls[c];
    var m := NextMove(s, c, k, r);
    MovesAreOk(s, c, k, r);
    DoLock(s, Own(c, k), m.op);
    if own.call == c {
      RequestIff(s, c, k, r, DropLock);
      RequestIff(s, c, k, r, TakeLock);
      if Locking(k.pc) { LockWay(s, k, r); }
      if InCritical(k.pc) && !k.pc.Release? { InsideStays(s, c, k, r); }
    }
  }

  // Nothing but the release leads out of the critical section.
  lemma InsideStays(s: State, c: nat, k: Call, r: Reply)
    requires InCritical(k.pc) && !k.pc.Release?
    ensures InCritical(NextMove(s, c, k, r).call.pc) && NextMove(s, c, k, r).call.acq == k.acq
  {
    MovesAreOk(s, c, k, r);
  }

  lemma AbandonedStep(s: State, es: seq<Event>, e: Event, own: Token)
    ensures Abandoned(s, es + [e], own) <==> Abandoned(s, es, own) || Abandons(Run(s, es), e, own)
  {
    HappensStep(es, e, AbandonsAt(s, own));
  }

  // In every run, a token in the lock key belongs to a call that is still at work under it, or was
  // left to its lease by a crash or by a release or revoke that raised without being applied.
  lemma {:induction false} LockIsGivenBack(s: State, es: seq<Event>, own: Token)
    requires Init(s) && Run(s, es).lock == Some(own)
    ensures WillGiveBack(Run(s, es), own) || Abandoned(s, es, own)
  {
    RunHeld(s, es, own);
  }

  lemma {:induction false} RunHeld(s: State, es: seq<Event>, own: Token)
    requires Init(s)
    ensures Accounted(Run(s, es), own, Abandoned(s, es, own))
  {
    if es != [] {
      var before, e := es[..|es| - 1], es[|es| - 1];
      assert es == before + [e];
      RunHeld(s, before, own);
      HeldStep(Run(s, before), e, own, Abandoned(s, before, own));
      AbandonedStep(s, before, e, own);
    }
  }
}
