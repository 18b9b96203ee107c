/** Every call of the unique-key protocol is bounded: three rounds, six lock
    acquisitions, six resolve attempts, and a fixed number of steps besides
    those of waiting for one acquisition of the lock. */
module UniqueKeyBounds {
  import opened UniqueKeyProtocol

  function Phase(pc: Pc): nat {
    match pc
    case FastRead(tries) => if tries < 3 then 9 - tries else 6
    case FastBind => 5
    case LockRead(why) => LockPhase(why)
    case LockLease(why) => LockPhase(why)
    case LockTxn(why) => LockPhase(why)
    case LockRevoke(why, _) => LockPhase(why)
    case ResolveRead(a) => AttemptPhase(a) + 5
    case ResolveMeta(a) => AttemptPhase(a) + 4
    case ResolveDelete(a) => AttemptPhase(a) + 3
    case Create(a) => AttemptPhase(a) + 2
    case Publish(a, _) => AttemptPhase(a) + 1
    case Close(a, _) => AttemptPhase(a)
    case Release(out) => if out.Give? || out.BindExisting? then 8 else 1
    case Bind => 7
    case CleanRead => 5
    case CleanMapping => 4
    case CleanMeta => 3
    case CleanRest => 2
    case Done(_) => 0
  }

  function LockPhase(why: Purpose): nat { if why.ForResolve? then 21 else 6 }

  function AttemptPhase(a: nat): nat { if a == 0 then 15 else 9 }

  const ROUND_STEPS := 22

  // Steps left, not counting those of waiting for an acquisition.
  function Rank(k: Call): int {
    if k.pc.Done? then 0
    else if Fast(k.pc) then MAX_ROUNDS * ROUND_STEPS + Phase(k.pc)
    else (MAX_ROUNDS - 1 - k.round) * ROUND_STEPS + Phase(k.pc)
  }

  // Where in a round a call is: before it, locking to resolve, first and second
  // attempt, binding, cleaning up, and past that.
  function Stage(pc: Pc): nat {
    if Fast(pc) then 0
    else if Locking(pc) then if pc.why.ForResolve? then 1 else 5
    else if Looking(pc) || Making(pc) then if pc.attempt == 0 then 2 else 3
    else if pc.Bind? || (pc.Release? && (pc.out.Give? || pc.out.BindExisting?)) then 4
    else if Cleaning(pc) then 5
    else 6
  }

  // Lock acquisitions, and resolve attempts, that may still begin.
  function AcqLeft(k: Call): int {
    2 * (MAX_ROUNDS - 1 - k.round) + (if Stage(k.pc) == 0 then 2 else if Stage(k.pc) <= 4 then 1 else 0)
  }

  function ResolvesLeft(k: Call): int {
    2 * (MAX_ROUNDS - 1 - k.round) + (if Stage(k.pc) <= 1 then 2 else if Stage(k.pc) == 2 then 1 else 0)
  }

  ghost predicate Sane(k: Call) {
    && k.round < MAX_ROUNDS
    && k.acq + AcqLeft(k) <= 2 * MAX_ROUNDS
    && k.resolves + ResolvesLeft(k) <= 2 * MAX_ROUNDS
  }

  // A step that leaves the call waiting for the same acquisition: a poll of the lock key, a lease
  // grant, a lost lock transaction or a revoke.
  predicate Polls(k: Call, m: Move) {
    Locking(k.pc) && Locking(m.call.pc) && m.call.pc.why == k.pc.why && m.call.acq == k.acq
  }

  ghost predicate Advances(k: Call, m: Move) {
    Sane(k) ==> Rank(m.call) < Rank(k) || (Polls(k, m) && Rank(m.call) == Rank(k))
  }

  // ----- phase by phase ----------------------------------------------------------

  lemma FastSane(s: State, k: Call, r: Reply)
    requires Fast(k.pc)
    ensures Sane(k) ==> Sane(FastMove(s, k, r).call)
  {
  }

  lemma LockSane(s: State, k: Call, r: Reply)
    requires Locking(k.pc)
    ensures Sane(k) ==> Sane(LockMove(s, k, r).call)
  {
  }

  lemma LookSane(s: State, k: Call, r: Reply)
    requires Looking(k.pc)
    ensures Sane(k) ==> Sane(LookMove(s, k, r).call)
  {
  }

  lemma MakeSane(s: State, k: Call, r: Reply)
    requires Making(k.pc)
    ensures Sane(k) ==> Sane(MakeMove(s, k, r).call)
  {
  }

  lemma LeaveSane(s: State, c: nat, k: Call, r: Reply)
    requires Leaving(k.pc)
    ensures Sane(k) ==> Sane(LeaveMove(s, c, k, r).call)
  {
  }

  lemma CleanSane(s: State, k: Call, r: Reply)
    requires Cleaning(k.pc)
    ensures Sane(k) ==> Sane(CleanMove(s, k, r).call)
  {
  }

  lemma FastAdvances(s: State, k: Call, r: Reply)
    requires Fast(k.pc)
    ensures Advances(k, FastMove(s, k, r))
  {
  }

  lemma LockAdvances(s: State, k: Call, r: Reply)
    requires Locking(k.pc)
    ensures Advances(k, LockMove(s, k, r))
  {
  }

  lemma LookAdvances(s: State, k: Call, r: Reply)
    requires Looking(k.pc)
    ensures Advances(k, LookMove(s, k, r))
  {
  }

  lemma MakeAdvances(s: State, k: Call, r: Reply)
    requires Making(k.pc)
    ensures Advances(k, MakeMove(s, k, r))
  {
  }

  lemma LeaveAdvances(s: State, c: nat, k: Call, r: Reply)
    requires Leaving(k.pc)
    ensures Advances(k, LeaveMove(s, c, k, r))
  {
  }

  lemma CleanAdvances(s: State, k: Call, r: Reply)
    requires Cleaning(k.pc)
    ensures Advances(k, CleanMove(s, k, r))
  {
  }

  lemma MoveAdvances(s: State, c: nat, k: Call, r: Reply)
    requires !k.pc.Done? && Sane(k)
    ensures var m := NextMove(s, c, k, r); Sane(m.call) && Advances(k, m)
  {
    if Fast(k.pc) { FastSane(s, k, r); FastAdvances(s, k, r); }
    else if Locking(k.pc) { LockSane(s, k, r); LockAdvances(s, k, r); }
    else if Looking(k.pc) { LookSane(s, k, r); LookAdvances(s, k, r); }
    else if Making(k.pc) { MakeSane(s, k, r); MakeAdvances(s, k, r); }
    else if Leaving(k.pc) { LeaveSane(s, c, k, r); LeaveAdvances(s, c, k, r); }
    else { CleanSane(s, k, r); CleanAdvances(s, k, r); }
  }

  // ----- every run ------------------------------------------------------------------

  ghost predicate AllSane(s: State) { forall c :: c in s.calls ==> Sane(s.calls[c]) }

  lemma ApplySane(s: State, e: Event)
    requires AllSane(s)
    ensures AllSane(Apply(s, e))
  {
    if e.Step? && e.call in s.calls && !s.calls[e.call].pc.Done? {
      MoveAdvances(s, e.call, s.calls[e.call], e.reply);
    }
  }

  // In every run, every call begins at most six lock acquisitions and six
  // resolve attempts, in at most three rounds.
  lemma {:induction false} CallsAreBounded(s: State, es: seq<Event>, c: nat)
    requires Init(s) && c in Run(s, es).calls
    ensures var k := Run(s, es).calls[c]; k.round < 3 && k.acq <= 6 && k.resolves <= 6
  {
    RunSane(s, es);
  }

  lemma {:induction false} RunSane(s: State, es: seq<Event>)
    requires Init(s)
    ensures AllSane(Run(s, es))
  {
    if es != [] {
      RunSane(s, es[..|es| - 1]);
      ApplySane(Run(s, es[..|es| - 1]), es[|es| - 1]);
    }
  }

  // ----- counting the steps -----------------------------------------------------------

  predicate Works(s: State, e: Event, c: nat) {
    && e.Step? && e.call == c && c in s.calls && !s.calls[c].pc.Done?
    && !Polls(s.calls[c], NextMove(s, c, s.calls[c], e.reply))
  }

  // The steps of a call in a run that do not wait for an acquisition.
  function Work(s: State, es: seq<Event>, c: nat): nat {
    if es == [] then 0
    else
      var before := es[..|es| - 1];
      Work(s, before, c) + (if Works(Run(s, before), es[|es| - 1], c) then 1 else 0)
  }

  function RankOf(s: State, c: nat): int { if c in s.calls then Rank(s.calls[c]) else 75 }

  lemma ApplyWork(s: State, e: Event, c: nat)
    requires AllSane(s)
    ensures RankOf(Apply(s, e), c) + (if Works(s, e, c) then 1 else 0) <= RankOf(s, c)
  {
    if e.Step? && e.call == c && c in s.calls && !s.calls[c].pc.Done? {
      MoveAdvances(s, c, s.calls[c], e.reply);
    }
  }

  lemma {:induction false} WorkInv(s: State, es: seq<Event>, c: nat)
    requires Init(s)
    ensures Work(s, es, c) + RankOf(Run(s, es), c) <= 75
  {
    if es != [] {
      var before := es[..|es| - 1];
      WorkInv(s, before, c);
      RunSane(s, before);
      ApplyWork(Run(s, before), es[|es| - 1], c);
    }
  }

  // In every run, apart from waiting for acquisitions, every call takes at most 75 steps.
  lemma {:induction false} CallWorkIsBounded(s: State, es: seq<Event>, c: nat)
    requires Init(s)
    ensures Work(s, es, c) <= 75
  {
    WorkInv(s, es, c);
    RunSane(s, es);
  }
}
