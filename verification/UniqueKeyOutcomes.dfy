/** Which event leads to which outcome: when an attempt under the lock fails and is retried, what a
    critical section decides, and how a call ends. */
module UniqueKeyOutcomes {
  import opened Wrappers
  import opened UniqueKeyProtocol
  import opened UniqueKeyMoves

  // ----- attempts ----------------------------------------------------------------------------

  predicate Attempting(pc: Pc) { Looking(pc) || Making(pc) }

  // The event fails the attempt: a request raises, the key holds no channel id, no channel could
  // be created, or the created one had to be closed again.
  predicate Fails(s: State, k: Call, r: Reply)
    requires Attempting(k.pc)
  {
    match k.pc
    case ResolveRead(_) => r.Raise? || s.mapping == Some(Garbage)
    case Create(_) => !r.Ok?
    case Close(_, _) => true
    case _ => r.Raise?
  }

  // A failed attempt is retried once, under the same acquisition; the second failure is an error.
  // An attempt that does not fail goes on, or ends with a handle or a channel to bind to.
  lemma FailedAttempt(s: State, c: nat, k: Call, r: Reply)
    requires Attempting(k.pc)
    ensures var k' := NextMove(s, c, k, r).call;
            if Fails(s, k, r)
            then k'.pc == (if k.pc.attempt == 0 then ResolveRead(1) else Release(GiveError)) && k'.acq == k.acq
            else || (Attempting(k'.pc) && k'.pc.attempt == k.pc.attempt && !k'.pc.ResolveRead?)
                 || k'.pc == Release(Give) || k'.pc == Release(BindExisting)
  {
    if Looking(k.pc) { LookOutcome(s, k, r); } else { MakeOutcome(s, k, r); }
  }

  lemma LookOutcome(s: State, k: Call, r: Reply)
    requires Looking(k.pc)
    ensures var k' := LookMove(s, k, r).call;
            if Fails(s, k, r)
            then k'.pc == (if k.pc.attempt == 0 then ResolveRead(1) else Release(GiveError)) && k'.acq == k.acq
            else || (Attempting(k'.pc) && k'.pc.attempt == k.pc.attempt && !k'.pc.ResolveRead?)
                 || k'.pc == Release(BindExisting)
  {
  }

  lemma MakeOutcome(s: State, k: Call, r: Reply)
    requires Making(k.pc)
    ensures var k' := MakeMove(s, k, r).call;
            if Fails(s, k, r)
            then k'.pc == (if k.pc.attempt == 0 then ResolveRead(1) else Release(GiveError)) && k'.acq == k.acq
            else (Attempting(k'.pc) && k'.pc.attempt == k.pc.attempt && !k'.pc.ResolveRead?) || k'.pc == Release(Give)
  {
  }

  // ----- what a critical section decides ------------------------------------------------------

  predicate Decides(s: State, k: Call, r: Reply, out: Outcome) {
    match out
    // it published a channel of its own
    case Give => k.pc.Publish? && !r.Raise? && s.mapping.None?
    // the stored channel has its meta
    case BindExisting => k.pc.ResolveMeta? && !r.Raise? && k.at.id in s.metas
    // the second attempt failed, the key holds no channel id, or a cleanup request raised
    case GiveError =>
      || (Attempting(k.pc) && k.pc.attempt != 0 && Fails(s, k, r))
      || (k.pc.CleanRead? && !r.Raise? && s.mapping == Some(Garbage))
      || ((k.pc.CleanMapping? || k.pc.CleanMeta? || k.pc.CleanRest?) && r.Raise?)
    case Throw => k.pc.CleanRead? && r.Raise?
    // the stale mapping is gone, or somebody else replaced it
    case NextRound =>
      || (k.pc.CleanRest? && !r.Raise?)
      || (k.pc.CleanRead? && !r.Raise? && s.mapping != Some(Garbage) && !Holds(s, k.at.id))
  }

  lemma DecidesIff(s: State, c: nat, k: Call, r: Reply, out: Outcome)
    requires !k.pc.Release? && !k.pc.Done?
    ensures NextMove(s, c, k, r).call.pc == Release(out) <==> Decides(s, k, r, out)
  {
    if Looking(k.pc) { LookDecides(s, k, r, out); }
    else if Making(k.pc) { MakeDecides(s, k, r, out); }
    else if Cleaning(k.pc) { CleanDecides(s, k, r, out); }
    else { OthersDecideNothing(s, c, k, r, out); }
  }

  lemma LookDecides(s: State, k: Call, r: Reply, out: Outcome)
    requires Looking(k.pc)
    ensures LookMove(s, k, r).call.pc == Release(out) <==> Decides(s, k, r, out)
  {
  }

  lemma MakeDecides(s: State, k: Call, r: Reply, out: Outcome)
    requires Making(k.pc)
    ensures MakeMove(s, k, r).call.pc == Release(out) <==> Decides(s, k, r, out)
  {
  }

  lemma CleanDecides(s: State, k: Call, r: Reply, out: Outcome)
    requires Cleaning(k.pc)
    ensures CleanMove(s, k, r).call.pc == Release(out) <==> Decides(s, k, r, out)
  {
  }

  lemma OthersDecideNothing(s: State, c: nat, k: Call, r: Reply, out: Outcome)
    requires !InCritical(k.pc) && !k.pc.Done?
    ensures NextMove(s, c, k, r).call.pc != Release(out) && !Decides(s, k, r, out)
  {
    MovesAreOk(s, c, k, r);
    if Locking(k.pc) { LockGoesOn(s, k, r); }
  }

  lemma LockGoesOn(s: State, k: Call, r: Reply)
    requires Locking(k.pc)
    ensures !LockMove(s, k, r).call.pc.Release?
  {
  }

  // ----- how a call ends ------------------------------------------------------------------------

  predicate Answered(s: State, c: nat, k: Call, r: Reply) {
    k.pc.Release? && !r.Raise? && s.lock == Some(Own(c, k))
  }

  // The event ends the call with this answer.
  predicate Ends(s: State, e: Event, c: nat, a: Answer) {
    && c in s.calls
    && var k := s.calls[c];
       match a
       case Crashed => e == Crash(c) && !k.pc.Done?
       // a bind succeeded, or the release after a publish
       case Handle =>
         && e.Step? && e.call == c
         && (((k.pc.FastBind? || k.pc.Bind?) && e.reply.Ok?) || (Answered(s, c, k, e.reply) && k.pc.out.Give?))
       // the release raised or found the lock lost, or the cleanup could not read the key
       case Thrown =>
         e.Step? && e.call == c && k.pc.Release? && (!Answered(s, c, k, e.reply) || k.pc.out.Throw?)
       case Error =>
         e.Step? && e.call == c && (LockFails(s, k, e.reply) || BindFails(k, e.reply) || GivesUp(s, c, k, e.reply))
  }

  // Waiting for the lock: the deadline passes, or a request fails for good.
  predicate LockFails(s: State, k: Call, r: Reply) {
    || (k.pc.LockRead? && (r.Raise? || (s.lock.Some? && r.Other?)))
    || (k.pc.LockLease? && !r.Ok?)
    || (k.pc.LockRevoke? && (k.pc.fatal || r.Other?))
  }

  predicate BindFails(k: Call, r: Reply) { k.pc.Bind? && !r.Ok? && !r.Stale? }

  // The section decided on an error, or the rounds are used up.
  predicate GivesUp(s: State, c: nat, k: Call, r: Reply) {
    Answered(s, c, k, r) && (k.pc.out.GiveError? || (k.pc.out.NextRound? && k.round + 1 >= MAX_ROUNDS))
  }

  lemma LockEnds(s: State, c: nat, k: Call, r: Reply, a: Answer)
    requires Locking(k.pc) && c in s.calls && s.calls[c] == k
    ensures LockMove(s, k, r).call.pc == Done(a) <==> Ends(s, Step(c, r), c, a)
  {
  }

  lemma FastEnds(s: State, c: nat, k: Call, r: Reply, a: Answer)
    requires Fast(k.pc) && c in s.calls && s.calls[c] == k
    ensures FastMove(s, k, r).call.pc == Done(a) <==> Ends(s, Step(c, r), c, a)
  {
  }

  lemma LeaveEnds(s: State, c: nat, k: Call, r: Reply, a: Answer)
    requires Leaving(k.pc) && c in s.calls && s.calls[c] == k
    ensures LeaveMove(s, c, k, r).call.pc == Done(a) <==> Ends(s, Step(c, r), c, a)
  {
  }

  lemma InsideEnds(s: State, c: nat, k: Call, r: Reply, a: Answer)
    requires (Looking(k.pc) || Making(k.pc) || Cleaning(k.pc)) && c in s.calls && s.calls[c] == k
    ensures NextMove(s, c, k, r).call.pc != Done(a) && !Ends(s, Step(c, r), c, a)
  {
    if Looking(k.pc) { LookOutcome(s, k, r); }
    else if Making(k.pc) { MakeOutcome(s, k, r); }
  }

  lemma StepEnds(s: State, c: nat, r: Reply, a: Answer)
    requires c in s.calls && !s.calls[c].pc.Done?
    ensures NextMove(s, c, s.calls[c], r).call.pc == Done(a) <==> Ends(s, Step(c, r), c, a)
  {
    var k := s.calls[c];
    if Fast(k.pc) { FastEnds(s, c, k, r, a); }
    else if Locking(k.pc) { LockEnds(s, c, k, r, a); }
    else if Leaving(k.pc) { LeaveEnds(s, c, k, r, a); }
    else { InsideEnds(s, c, k, r, a); }
  }

  predicate HasEnded(s: State, c: nat, a: Answer) { c in s.calls && s.calls[c].pc == Done(a) }

  lemma EndStep(s: State, e: Event, c: nat, a: Answer)
    ensures HasEnded(Apply(s, e), c, a) <==> HasEnded(s, c, a) || Ends(s, e, c, a)
  {
    if c in s.calls && !s.calls[c].pc.Done? {
      if e.Step? && e.call == c { StepEnds(s, c, e.reply, a); }
    } else {
      EndedStays(s, e, c);
    }
  }

  lemma EndedStays(s: State, e: Event, c: nat)
    requires c in s.calls ==> s.calls[c].pc.Done?
    ensures c in s.calls ==> c in Apply(s, e).calls && Apply(s, e).calls[c] == s.calls[c]
    ensures c !in s.calls && c in Apply(s, e).calls ==> Apply(s, e).calls[c].pc == FastRead(0)
  {
    match e
    case Step(_, _) =>
    case Crash(_) =>
    case _ =>
  }

  ghost function EndsAt(s: State, c: nat, a: Answer): (seq<Event>, Event) -> bool {
    (before, e) => Ends(Run(s, before), e, c, a)
  }

  ghost predicate EndedBy(s: State, es: seq<Event>, c: nat, a: Answer) { Happens(es, EndsAt(s, c, a)) }

  lemma EndedByStep(s: State, es: seq<Event>, e: Event, c: nat, a: Answer)
    ensures EndedBy(s, es + [e], c, a) <==> EndedBy(s, es, c, a) || Ends(Run(s, es), e, c, a)
  {
    HappensStep(es, e, EndsAt(s, c, a));
  }

  // In every run a call has ended with an answer if and only if an event of the run is one that
  // calls for it.
  lemma {:induction false} EndedIff(s: State, es: seq<Event>, c: nat, a: Answer)
    requires Init(s)
    ensures HasEnded(Run(s, es), c, a) <==> EndedBy(s, es, c, a)
  {
    if es != [] {
      var before, e := es[..|es| - 1], es[|es| - 1];
      assert es == before + [e];
      EndedIff(s, before, c, a);
      EndStep(Run(s, before), e, c, a);
      EndedByStep(s, before, e, c, a);
    }
  }
}
