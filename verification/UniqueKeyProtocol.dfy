/** The unique-key channel protocol: any number of concurrent calls of
    `new_or_bind_with_unique_key` on one unique id, against one etcd.

    Every etcd request, channel construction and `close()` of a call is one
    atomic step; between two steps of a call any other call, or the
    environment, may move.  The oracle `Reply` says how the outside world
    answered a step.  A request that raises may or may not have been applied. */
module UniqueKeyProtocol {
  import opened Wrappers

  type ChanId = nat

  // The bytes under the unique key: a digit-only channel id, or anything else.
  datatype Stored = Digits(id: ChanId) | Garbage

  // A lock token; `uuid4` never repeats, so the call and its acquisition count name it.
  datatype Token = Token(call: nat, acq: nat)

  // A channel id together with the number of mapping removals before it was stored.
  datatype Ref = Ref(id: ChanId, epoch: nat)

  datatype Purpose = ForResolve | ForCleanup

  // What a critical section decided, to be acted on once the lock is released.
  datatype Outcome = Give | BindExisting | GiveError | Throw | NextRound

  datatype Answer = Handle | Error | Thrown | Crashed

  datatype Pc =
    | FastRead(tries: nat)
    | FastBind
    | LockRead(why: Purpose)
    | LockLease(why: Purpose)
    | LockTxn(why: Purpose)
    | LockRevoke(why: Purpose, fatal: bool)
    | ResolveRead(attempt: nat)
    | ResolveMeta(attempt: nat)
    | ResolveDelete(attempt: nat)
    | Create(attempt: nat)
    | Publish(attempt: nat, newId: ChanId)
    | Close(attempt: nat, newId: ChanId)
    | Release(out: Outcome)
    | Bind
    | CleanRead
    | CleanMapping
    | CleanMeta
    | CleanRest
    | Done(answer: Answer)

  // `at` is the channel the call read or published last: the one it binds to,
  // checks, cleans up, or returns a handle on.  `acq` and `resolves` count lock
  // acquisitions and resolve attempts begun.  `lossy`: a publish raised, a
  // `close()` failed, or the call crashed.
  datatype Call = Call(pc: Pc, at: Ref, round: nat, acq: nat, resolves: nat, lossy: bool)

  // What became of a channel created by a call.
  datatype Kind = Pending | Published | Closed | Leaked
  datatype Fate = Fate(owner: nat, kind: Kind)

  datatype State = State(
    lock: Option<Token>,
    mapping: Option<Stored>,
    metas: set<ChanId>,         // channels whose meta key exists
    issued: nat,                // the id allocator's counter: ids up to here are taken
    registry: set<ChanId>,      // CHANID_2_NODES
    calls: map<nat, Call>,
    // History, never read by a step:
    epoch: nat,                 // mapping removals so far
    stored: map<nat, ChanId>,   // the id stored in each epoch
    dead: set<ChanId>,          // seen under the lock without meta, or bound as stale
    fates: map<ChanId, Fate>)

  datatype Reply = Ok | Raise(applied: bool) | Stale | Other

  datatype Event =
    | Start(call: nat)
    | Step(call: nat, reply: Reply)
    | Crash(call: nat)
    | Expire                    // the lease behind the lock key runs out
    | MetaLoss(id: ChanId)      // a channel's meta key disappears
    | Alloc(n: nat)             // other users of the id allocator

  const FAST_READ_ATTEMPTS := 3
  const MAX_ROUNDS := 3

  predicate Holds(s: State, id: ChanId) { s.mapping == Some(Digits(id)) }

  ghost predicate Init(s: State) {
    && s.lock.None? && s.calls == map[] && s.fates == map[] && s.epoch == 0 && s.dead == {}
    && s.stored == InitialStore(s.mapping)
    && (forall e :: e in s.stored ==> s.stored[e] <= s.issued)
    && (forall id :: id in s.registry ==> id <= s.issued)
  }

  function InitialStore(mapping: Option<Stored>): map<nat, ChanId> {
    if mapping.Some? && mapping.value.Digits? then map[0 := mapping.value.id] else map[]
  }

  // ----- requests of a step --------------------------------------------------

  // The one request a step makes, as far as it was applied.
  datatype Op =
    | Nop
    | TakeLock
    | DropLock
    | MarkDead(id: ChanId)
    | DropMapping
    | DropMeta(id: ChanId)
    | NewChannel(kept: bool)
    | PutMapping(id: ChanId, kind: Kind)
    | Settle(id: ChanId, kind: Kind)

  // The effect of a request on everything but the calls.
  function Do(s: State, own: Token, op: Op): State {
    match op
    case Nop => s
    case TakeLock => s.(lock := Some(own))
    case DropLock => if s.lock == Some(own) then s.(lock := None) else s
    case MarkDead(id) => s.(dead := s.dead + {id})
    case DropMapping => if s.mapping.None? then s else s.(mapping := None, epoch := s.epoch + 1)
    case DropMeta(id) => s.(metas := s.metas - {id})
    case NewChannel(kept) => DoNew(s, own.call, kept)
    case PutMapping(id, kind) =>
      DoSettle(s.(mapping := Some(Digits(id)), stored := s.stored[s.epoch := id]), own.call, id, kind)
    case Settle(id, kind) => DoSettle(s, own.call, id, kind)
  }

  // `chan_new` takes the next id and writes its meta; a handle that was obtained is registered.
  function DoNew(s: State, c: nat, kept: bool): State {
    var id := s.issued + 1;
    var s1 := s.(issued := id, metas := s.metas + {id});
    if kept then s1.(registry := s.registry + {id}, fates := s.fates[id := Fate(c, Pending)]) else s1
  }

  function DoSettle(s: State, c: nat, id: ChanId, kind: Kind): State {
    s.(fates := s.fates[id := Fate(c, kind)],
       registry := if kind.Leaked? then s.registry else s.registry - {id})
  }

  // ----- the control flow of one call ----------------------------------------

  // A call's next record and the request it makes on the way.
  datatype Move = Move(call: Call, op: Op)

  function Own(c: nat, k: Call): Token { Token(c, k.acq) }

  function BeginLock(k: Call, why: Purpose): Call {
    k.(acq := k.acq + 1, pc := LockRead(why))
  }

  function BeginResolve(k: Call, attempt: nat): Call {
    k.(resolves := k.resolves + 1, pc := ResolveRead(attempt))
  }

  // A failed resolve attempt is retried once under the same lock.
  function AttemptFailed(k: Call, attempt: nat): Call {
    if attempt == 0 then BeginResolve(k, 1) else k.(pc := Release(GiveError))
  }

  function Locked(k: Call, why: Purpose): Call {
    if why.ForResolve? then BeginResolve(k, 0) else k.(pc := CleanRead)
  }

  function Released(k: Call, out: Outcome): Call {
    match out
    case Give => k.(pc := Done(Handle))
    case BindExisting => k.(pc := Bind)
    case GiveError => k.(pc := Done(Error))
    case Throw => k.(pc := Done(Thrown))
    case NextRound =>
      if k.round + 1 < MAX_ROUNDS then BeginLock(k.(round := k.round + 1), ForResolve)
      else k.(pc := Done(Error))
  }

  predicate Fast(pc: Pc) { pc.FastRead? || pc.FastBind? }

  // _try_bind_existing_channel_without_lock
  function FastMove(s: State, k: Call, r: Reply): Move
    requires Fast(k.pc)
  {
    match k.pc
    case FastRead(tries) =>
      if r.Raise? then
        if tries + 1 < FAST_READ_ATTEMPTS then Move(k.(pc := FastRead(tries + 1)), Nop)
        else Move(BeginLock(k, ForResolve), Nop)
      else if s.mapping.Some? && s.mapping.value.Digits? then
        Move(k.(pc := FastBind, at := Ref(s.mapping.value.id, s.epoch)), Nop)
      else Move(BeginLock(k, ForResolve), Nop)
    case FastBind =>
      if r.Ok? then Move(k.(pc := Done(Handle)), Nop)
      else Move(BeginLock(k, ForResolve), Nop)
  }

  predicate Locking(pc: Pc) { pc.LockRead? || pc.LockLease? || pc.LockTxn? || pc.LockRevoke? }

  // _acquire_lock.  `Other` stands for a deadline that has passed; `Stale` for
  // a "lease not found" answer.
  function LockMove(s: State, k: Call, r: Reply): Move
    requires Locking(k.pc)
  {
    match k.pc
    case LockRead(why) =>
      if r.Raise? then Move(k.(pc := Done(Error)), Nop)
      else if s.lock.None? then Move(k.(pc := LockLease(why)), Nop)
      else if r.Other? then Move(k.(pc := Done(Error)), Nop)
      else Move(k, Nop)
    case LockLease(why) =>
      if r.Ok? then Move(k.(pc := LockTxn(why)), Nop)
      else Move(k.(pc := Done(Error)), Nop)
    case LockTxn(why) =>
      if r.Raise? then
        Move(k.(pc := LockRevoke(why, true)), if r.applied && s.lock.None? then TakeLock else Nop)
      else if r.Stale? || s.lock.Some? then Move(k.(pc := LockRevoke(why, false)), Nop)
      else Move(Locked(k, why), TakeLock)
    case LockRevoke(why, fatal) =>
      // Revoking the unused lease drops the key if the transaction was applied after all.
      Move(k.(pc := if fatal || r.Other? then Done(Error) else LockRead(why)),
           if r.Raise? && !r.applied then Nop else DropLock)
  }

  predicate Looking(pc: Pc) { pc.ResolveRead? || pc.ResolveMeta? || pc.ResolveDelete? }

  // _resolve_or_create_under_lock: look the mapping up, drop it if its meta is missing
  function LookMove(s: State, k: Call, r: Reply): Move
    requires Looking(k.pc)
  {
    match k.pc
    case ResolveRead(a) =>
      if r.Raise? then Move(AttemptFailed(k, a), Nop)
      else if s.mapping.None? then Move(k.(pc := Create(a)), Nop)
      else if s.mapping.value.Garbage? then Move(AttemptFailed(k, a), Nop)
      else Move(k.(pc := ResolveMeta(a), at := Ref(s.mapping.value.id, s.epoch)), Nop)
    case ResolveMeta(a) =>
      if r.Raise? then Move(AttemptFailed(k, a), Nop)
      else if k.at.id in s.metas then Move(k.(pc := Release(BindExisting)), Nop)
      else Move(k.(pc := ResolveDelete(a)), MarkDead(k.at.id))
    case ResolveDelete(a) =>
      if r.Raise? then Move(AttemptFailed(k, a), if r.applied then DropMapping else Nop)
      else Move(k.(pc := Create(a)), DropMapping)
  }

  predicate Making(pc: Pc) { pc.Create? || pc.Publish? || pc.Close? }

  // _resolve_or_create_under_lock: create a channel and publish it, or close it again
  function MakeMove(s: State, k: Call, r: Reply): Move
    requires Making(k.pc)
  {
    match k.pc
    case Create(a) =>
      if r.Ok? then Move(k.(pc := Publish(a, s.issued + 1)), NewChannel(true))
      else
        // A failed construction may have taken an id and written its meta.
        Move(AttemptFailed(k, a), if r.Raise? && r.applied then NewChannel(false) else Nop)
    case Publish(a, id) =>
      if r.Raise? then
        Move(AttemptFailed(k.(lossy := true), a),
             if r.applied && s.mapping.None? then PutMapping(id, Leaked) else Settle(id, Leaked))
      else if s.mapping.None? then
        Move(k.(pc := Release(Give), at := Ref(id, s.epoch)), PutMapping(id, Published))
      else Move(k.(pc := Close(a, id)), Nop)
    case Close(a, id) =>
      if r.Ok? then Move(AttemptFailed(k, a), Settle(id, Closed))
      else Move(AttemptFailed(k.(lossy := true), a), Settle(id, Leaked))
  }

  predicate Leaving(pc: Pc) { pc.Release? || pc.Bind? }

  // _release_lock, and the bind outside the lock
  function LeaveMove(s: State, c: nat, k: Call, r: Reply): Move
    requires Leaving(k.pc)
  {
    match k.pc
    case Release(out) =>
      if r.Raise? then Move(k.(pc := Done(Thrown)), if r.applied then DropLock else Nop)
      else if s.lock == Some(Own(c, k)) then Move(Released(k, out), DropLock)
      else Move(k.(pc := Done(Thrown)), Nop)
    case Bind =>
      if r.Ok? then Move(k.(pc := Done(Handle)), Nop)
      else if r.Stale? then Move(BeginLock(k, ForCleanup), MarkDead(k.at.id))
      else Move(k.(pc := Done(Error)), Nop)
  }

  predicate Cleaning(pc: Pc) { pc.CleanRead? || pc.CleanMapping? || pc.CleanMeta? || pc.CleanRest? }

  // _cleanup_stale_mapping_under_lock
  function CleanMove(s: State, k: Call, r: Reply): Move
    requires Cleaning(k.pc)
  {
    match k.pc
    case CleanRead =>
      if r.Raise? then Move(k.(pc := Release(Throw)), Nop)
      else if s.mapping == Some(Garbage) then Move(k.(pc := Release(GiveError)), Nop)
      else if Holds(s, k.at.id) then Move(k.(pc := CleanMapping), Nop)
      else Move(k.(pc := Release(NextRound)), Nop)
    case CleanMapping =>
      if r.Raise? then Move(k.(pc := Release(GiveError)), if r.applied then DropMapping else Nop)
      else Move(k.(pc := CleanMeta), DropMapping)
    case CleanMeta =>
      if r.Raise? then Move(k.(pc := Release(GiveError)), if r.applied then DropMeta(k.at.id) else Nop)
      else Move(k.(pc := CleanRest), DropMeta(k.at.id))
    case CleanRest =>
      Move(k.(pc := Release(if r.Raise? then GiveError else NextRound)), Nop)
  }

  function NextMove(s: State, c: nat, k: Call, r: Reply): Move {
    if Fast(k.pc) then FastMove(s, k, r)
    else if Locking(k.pc) then LockMove(s, k, r)
    else if Looking(k.pc) then LookMove(s, k, r)
    else if Making(k.pc) then MakeMove(s, k, r)
    else if Leaving(k.pc) then LeaveMove(s, c, k, r)
    else if Cleaning(k.pc) then CleanMove(s, k, r)
    else Move(k, Nop)
  }

  // A crash while a created channel is not yet settled leaks it.
  function CrashMove(k: Call): Move {
    Move(k.(pc := Done(Crashed), lossy := true),
         if k.pc.Publish? || k.pc.Close? then Settle(k.pc.newId, Leaked) else Nop)
  }

  // ----- runs ----------------------------------------------------------------

  function Take(s: State, c: nat, m: Move): State
    requires c in s.calls
  {
    Do(s, Own(c, s.calls[c]), m.op).(calls := s.calls[c := m.call])
  }

  function Apply(s: State, e: Event): State {
    match e
    case Start(c) =>
      if c in s.calls then s
      else s.(calls := s.calls[c := Call(FastRead(0), Ref(0, 0), 0, 0, 0, false)])
    case Step(c, r) => if c in s.calls then Take(s, c, NextMove(s, c, s.calls[c], r)) else s
    case Crash(c) =>
      if c in s.calls && !s.calls[c].pc.Done? then Take(s, c, CrashMove(s.calls[c])) else s
    case Expire => s.(lock := None)
    case MetaLoss(id) => s.(metas := s.metas - {id})
    case Alloc(n) => s.(issued := s.issued + n)
  }

  function Run(s: State, es: seq<Event>): State {
    if es == [] then s else Apply(Run(s, es[..|es| - 1]), es[|es| - 1])
  }

  predicate InCritical(pc: Pc) { Looking(pc) || Making(pc) || Cleaning(pc) || pc.Release? }

  // The points at which `at` is a channel this call has read or published.
  predicate Bound(pc: Pc) {
    || pc.FastBind? || pc.ResolveMeta? || pc.ResolveDelete? || pc.Bind? || Cleaning(pc)
    || (Locking(pc) && pc.why.ForCleanup?)
    || (pc.Release? && (pc.out.Give? || pc.out.BindExisting?))
    || (pc.Done? && pc.answer.Handle?)
  }
}
