/** What a call does when nobody disturbs it: every request is answered, and binding to the
    stored channel works or answers that the channel is stale. */
module UniqueKeyAlone {
  import opened Wrappers
  import opened UniqueKeyProtocol

  function Answer(pc: Pc, alive: bool): Reply { if (pc.FastBind? || pc.Bind?) && !alive then Stale else Ok }

  function Next(s: State, c: nat, alive: bool): State
    requires c in s.calls
  {
    Apply(s, Step(c, Answer(s.calls[c].pc, alive)))
  }

  function Alone(s: State, c: nat, alive: bool, n: nat): (t: State)
    requires c in s.calls
    ensures c in t.calls
    decreases n
  {
    if n == 0 then s else Alone(Next(s, c, alive), c, alive, n - 1)
  }

  // The undisturbed call is a run of the protocol like any other.
  lemma {:induction false} AloneIsARun(s: State, es: seq<Event>, c: nat, alive: bool, n: nat) returns (fs: seq<Event>)
    requires c in Run(s, es).calls
    ensures |fs| == |es| + n && es <= fs && Run(s, fs) == Alone(Run(s, es), c, alive, n)
    ensures forall i :: |es| <= i < |fs| ==> fs[i].Step? && fs[i].call == c
    decreases n
  {
    fs := es;
    if n > 0 {
      var e := Step(c, Answer(Run(s, es).calls[c].pc, alive));
      var more := es + [e];
      assert more[..|es|] == es;
      fs := AloneIsARun(s, more, c, alive, n - 1);
    }
  }

  // ----- the path of an undisturbed call --------------------------------------------------

  // What the call goes by: where it is, the channel it has in mind, its round, whether it
  // holds the lock, which is free otherwise, and what is stored.
  datatype View = View(pc: Pc, id: ChanId, round: nat, mine: bool, mapping: Option<ChanId>, metas: set<ChanId>, issued: nat)

  ghost predicate Looks(s: State, c: nat, v: View) {
    && c in s.calls
    && s.calls[c].pc == v.pc && s.calls[c].at.id == v.id && s.calls[c].round == v.round
    && s.lock == (if v.mine then Some(Own(c, s.calls[c])) else None)
    && s.mapping == (if v.mapping.Some? then Some(Digits(v.mapping.value)) else None)
    && s.metas == v.metas && s.issued == v.issued
  }

  predicate OnPath(v: View) {
    && !v.pc.Done? && !v.pc.LockRevoke? && !v.pc.Close?
    && (v.mine <==> InCritical(v.pc))
    && (v.pc.Publish? ==> v.mapping.None? && v.pc.newId == v.issued)
    && (v.pc.Release? ==> v.pc.out.Give? || v.pc.out.BindExisting? || v.pc.out.NextRound?)
  }

  function Onward(v: View, alive: bool): View
    requires OnPath(v)
  {
    match v.pc
    case FastRead(_) =>
      if v.mapping.Some? then v.(pc := FastBind, id := v.mapping.value) else v.(pc := LockRead(ForResolve))
    case FastBind => v.(pc := if alive then Done(Handle) else LockRead(ForResolve))
    case LockRead(why) => v.(pc := LockLease(why))
    case LockLease(why) => v.(pc := LockTxn(why))
    case LockTxn(why) => v.(pc := if why.ForResolve? then ResolveRead(0) else CleanRead, mine := true)
    case ResolveRead(a) =>
      if v.mapping.Some? then v.(pc := ResolveMeta(a), id := v.mapping.value) else v.(pc := Create(a))
    case ResolveMeta(a) => v.(pc := if v.id in v.metas then Release(BindExisting) else ResolveDelete(a))
    case ResolveDelete(a) => v.(pc := Create(a), mapping := None)
    case Create(a) => v.(pc := Publish(a, v.issued + 1), issued := v.issued + 1, metas := v.metas + {v.issued + 1})
    case Publish(_, id) => v.(pc := Release(Give), id := id, mapping := Some(id))
    case Release(out) =>
      (match out
       case BindExisting => v.(pc := Bind, mine := false)
       case NextRound =>
         if v.round + 1 < MAX_ROUNDS then v.(pc := LockRead(ForResolve), round := v.round + 1, mine := false)
         else v.(pc := Done(Error), mine := false)
       case _ => v.(pc := Done(Handle), mine := false))
    case Bind => v.(pc := if alive then Done(Handle) else LockRead(ForCleanup))
    case CleanRead => v.(pc := if v.mapping == Some(v.id) then CleanMapping else Release(NextRound))
    case CleanMapping => v.(pc := CleanMeta, mapping := None)
    case CleanMeta => v.(pc := CleanRest, metas := v.metas - {v.id})
    case CleanRest => v.(pc := Release(NextRound))
  }

  lemma FastOrLock(s: State, c: nat, v: View, alive: bool)
    requires Looks(s, c, v) && OnPath(v) && (Fast(v.pc) || Locking(v.pc))
    ensures Looks(Next(s, c, alive), c, Onward(v, alive))
  {
  }

  lemma Look(s: State, c: nat, v: View, alive: bool)
    requires Looks(s, c, v) && OnPath(v) && Looking(v.pc)
    ensures Looks(Next(s, c, alive), c, Onward(v, alive))
  {
  }

  lemma Make(s: State, c: nat, v: View, alive: bool)
    requires Looks(s, c, v) && OnPath(v) && Making(v.pc)
    ensures Looks(Next(s, c, alive), c, Onward(v, alive))
  {
  }

  lemma Leave(s: State, c: nat, v: View, alive: bool)
    requires Looks(s, c, v) && OnPath(v) && Leaving(v.pc)
    ensures Looks(Next(s, c, alive), c, Onward(v, alive))
  {
  }

  lemma CleanUp(s: State, c: nat, v: View, alive: bool)
    requires Looks(s, c, v) && OnPath(v) && Cleaning(v.pc)
    ensures Looks(Next(s, c, alive), c, Onward(v, alive))
  {
  }

  // The protocol takes an undisturbed call along this path.
  lemma FollowsPath(s: State, c: nat, v: View, alive: bool)
    requires Looks(s, c, v) && OnPath(v)
    ensures Looks(Next(s, c, alive), c, Onward(v, alive))
  {
    if Fast(v.pc) || Locking(v.pc) {
      FastOrLock(s, c, v, alive);
    } else if Looking(v.pc) {
      Look(s, c, v, alive);
    } else if Making(v.pc) {
      Make(s, c, v, alive);
    } else if Leaving(v.pc) {
      Leave(s, c, v, alive);
    } else {
      CleanUp(s, c, v, alive);
    }
  }

  // ----- stretches of the path ---------------------------------------------------------------

  ghost predicate Leads(v: View, alive: bool, n: nat, w: View)
    decreases n
  {
    if n == 0 then v == w else OnPath(v) && Leads(Onward(v, alive), alive, n - 1, w)
  }

  lemma {:induction false} LeadsOn(v: View, alive: bool, m: nat, w: View, n: nat, x: View)
    requires Leads(v, alive, m, w) && Leads(w, alive, n, x)
    ensures Leads(v, alive, m + n, x)
    decreases m
  {
    if m > 0 { LeadsOn(Onward(v, alive), alive, m - 1, w, n, x); }
  }

  lemma {:induction false} AloneFollows(s: State, c: nat, v: View, alive: bool, n: nat, w: View)
    requires Looks(s, c, v) && Leads(v, alive, n, w)
    ensures Looks(Alone(s, c, alive, n), c, w)
    decreases n
  {
    if n > 0 {
      FollowsPath(s, c, v, alive);
      AloneFollows(Next(s, c, alive), c, Onward(v, alive), alive, n - 1, w);
    }
  }

  lemma OneMore(v: View, alive: bool, m: nat, w: View) returns (n: nat)
    requires Leads(v, alive, m, w) && OnPath(w)
    ensures n == m + 1 && Leads(v, alive, n, Onward(w, alive))
  {
    n := m + 1;
    LeadsOn(v, alive, m, w, 1, Onward(w, alive));
  }

  lemma Continued(v: View, alive: bool, m: nat, w: View, k: nat, x: View) returns (n: nat)
    requires Leads(v, alive, m, w) && Leads(w, alive, k, x)
    ensures n == m + k && Leads(v, alive, n, x)
  {
    n := m + k;
    LeadsOn(v, alive, m, w, k, x);
  }

  function Locked(v: View, why: Purpose): View { v.(pc := if why.ForResolve? then ResolveRead(0) else CleanRead, mine := true) }

  lemma Acquires(v: View, alive: bool, why: Purpose) returns (n: nat)
    requires v.pc == LockRead(why) && !v.mine
    ensures n <= 3 && Leads(v, alive, n, Locked(v, why))
  {
    n := 0;
    n := OneMore(v, alive, n, v);
    n := OneMore(v, alive, n, v.(pc := LockLease(why)));
    n := OneMore(v, alive, n, v.(pc := LockTxn(why)));
  }

  // With a new channel of its own.
  function Created(v: View): View {
    var id := v.issued + 1;
    v.(pc := Done(Handle), id := id, mine := false, mapping := Some(id), metas := v.metas + {id}, issued := id)
  }

  lemma Creates(v: View, alive: bool, a: nat) returns (n: nat)
    requires v.pc == Create(a) && v.mine && v.mapping.None?
    ensures n <= 3 && Leads(v, alive, n, Created(v))
  {
    var v1 := Onward(v, alive);
    var v2 := Onward(v1, alive);
    n := 0;
    n := OneMore(v, alive, n, v);
    n := OneMore(v, alive, n, v1);
    n := OneMore(v, alive, n, v2);
  }

  // From the lock on with nothing stored.
  lemma FillsEmpty(v: View, alive: bool) returns (n: nat)
    requires v.pc == LockRead(ForResolve) && !v.mine && v.mapping.None?
    ensures n <= 7 && Leads(v, alive, n, Created(v))
  {
    var v1 := Locked(v, ForResolve);
    n := Acquires(v, alive, ForResolve);
    n := OneMore(v, alive, n, v1);
    var k := Creates(v1.(pc := Create(0)), alive, 0);
    n := Continued(v, alive, n, v1.(pc := Create(0)), k, Created(v));
  }

  // From the lock on with a channel stored whose meta is gone.
  lemma ReplacesOrphan(v: View, alive: bool, id: ChanId) returns (n: nat)
    requires v.pc == LockRead(ForResolve) && !v.mine && v.mapping == Some(id) && id !in v.metas
    ensures n <= 9 && Leads(v, alive, n, Created(v))
  {
    var v1 := Locked(v, ForResolve);
    var v2 := v1.(pc := ResolveMeta(0), id := id);
    var v3 := v2.(pc := ResolveDelete(0));
    var v4 := v3.(pc := Create(0), mapping := None);
    n := Acquires(v, alive, ForResolve);
    n := OneMore(v, alive, n, v1);
    n := OneMore(v, alive, n, v2);
    n := OneMore(v, alive, n, v3);
    var k := Creates(v4, alive, 0);
    n := Continued(v, alive, n, v4, k, Created(v));
  }

  // From the lock on with a channel stored that has its meta but cannot be bound.
  lemma FindsStale(v: View, id: ChanId) returns (n: nat)
    requires v.pc == LockRead(ForResolve) && !v.mine && v.mapping == Some(id) && id in v.metas
    ensures n <= 7 && Leads(v, false, n, v.(pc := LockRead(ForCleanup), id := id))
  {
    var v1 := Locked(v, ForResolve);
    var v2 := v1.(pc := ResolveMeta(0), id := id);
    n := Acquires(v, false, ForResolve);
    n := OneMore(v, false, n, v1);
    n := OneMore(v, false, n, v2);
    n := OneMore(v, false, n, v2.(pc := Release(BindExisting)));
    n := OneMore(v, false, n, v.(pc := Bind, id := id));
  }

  // It removes the mapping and the meta, and tries another round.
  lemma CleansUp(v: View, id: ChanId) returns (n: nat)
    requires v.pc == LockRead(ForCleanup) && !v.mine && v.id == id && v.mapping == Some(id) && v.round + 1 < MAX_ROUNDS
    ensures n <= 8
    ensures Leads(v, false, n, v.(pc := LockRead(ForResolve), round := v.round + 1, mapping := None, metas := v.metas - {id}))
  {
    var v1 := Locked(v, ForCleanup);
    var v2 := v1.(pc := CleanMapping);
    var v3 := v2.(pc := CleanMeta, mapping := None);
    var v4 := v3.(pc := CleanRest, metas := v.metas - {id});
    n := Acquires(v, false, ForCleanup);
    n := OneMore(v, false, n, v1);
    n := OneMore(v, false, n, v2);
    n := OneMore(v, false, n, v3);
    n := OneMore(v, false, n, v4);
    n := OneMore(v, false, n, v4.(pc := Release(NextRound)));
  }

  lemma ReplacesStale(v: View, id: ChanId) returns (n: nat)
    requires v.pc == LockRead(ForResolve) && !v.mine && v.mapping == Some(id) && id in v.metas && v.round == 0
    ensures n <= 22 && Leads(v, false, n, Created(v.(round := 1, metas := v.metas - {id})))
  {
    var v1 := v.(pc := LockRead(ForCleanup), id := id);
    var v2 := v1.(pc := LockRead(ForResolve), round := 1, mapping := None, metas := v.metas - {id});
    n := FindsStale(v, id);
    var k := CleansUp(v1, id);
    n := Continued(v, false, n, v1, k, v2);
    k := FillsEmpty(v2, false);
    n := Continued(v, false, n, v2, k, Created(v2));
  }

  // ----- the theorem ---------------------------------------------------------------------------

  function Arrived(s: State): View
    requires s.mapping != Some(Garbage)
  {
    View(FastRead(0), 0, 0, false, if s.mapping.Some? then Some(s.mapping.value.id) else None, s.metas, s.issued)
  }

  // The path of a fresh call: to the stored channel if it can be bound, else to a new one.
  lemma PathEnds(v: View, alive: bool) returns (n: nat, w: View)
    requires v.pc == FastRead(0) && !v.mine && v.round == 0
    ensures n <= 24 && Leads(v, alive, n, w)
    ensures w.pc == Done(Handle) && !w.mine && w.mapping == Some(w.id)
    ensures if v.mapping.Some? && alive then w.id == v.mapping.value && w.metas == v.metas && w.issued == v.issued
            else w.id == w.issued == v.issued + 1 && w.id in w.metas
  {
    n := 0;
    n := OneMore(v, alive, n, v);
    var v1 := Onward(v, alive);
    var k;
    if v.mapping.None? {
      k := FillsEmpty(v1, alive);
      w := Created(v1);
      n := Continued(v, alive, n, v1, k, w);
      return;
    }
    var id := v.mapping.value;
    n := OneMore(v, alive, n, v1);
    w := Onward(v1, alive);
    if alive { return; }
    var v2 := w;
    if id in v.metas {
      k := ReplacesStale(v2, id);
      w := Created(v2.(round := 1, metas := v2.metas - {id}));
    } else {
      k := ReplacesOrphan(v2, false, id);
      w := Created(v2);
    }
    n := Continued(v, false, n, v2, k, w);
  }

  // From any state with a free lock, whatever other calls are under way: a new call that is not
  // disturbed returns a handle after at most 24 steps.  It is on the stored channel if that
  // can be bound, and otherwise on a new channel, which is stored from then on.
  lemma AloneSucceeds(s: State, c: nat, alive: bool) returns (n: nat)
    requires c !in s.calls && s.lock.None? && s.mapping != Some(Garbage)
    ensures n <= 24
    ensures var t := Alone(Apply(s, Start(c)), c, alive, n);
            && t.calls[c].pc == Done(Handle) && t.lock.None? && Holds(t, t.calls[c].at.id)
            && if s.mapping.Some? && alive then Holds(s, t.calls[c].at.id) && t.metas == s.metas && t.issued == s.issued
               else t.calls[c].at.id == t.issued == s.issued + 1 && t.issued in t.metas
  {
    var u, v := Apply(s, Start(c)), Arrived(s);
    assert s.mapping.Some? ==> s.mapping.value == Digits(s.mapping.value.id);
    assert Looks(u, c, v);
    var w;
    n, w := PathEnds(v, alive);
    AloneFollows(u, c, v, alive, n, w);
  }

  // ----- a release that raises -------------------------------------------------------------------

  // From the lock on with nothing stored, up to the release.
  lemma Publishes(v: View, alive: bool) returns (n: nat, w: View)
    requires v.pc == LockRead(ForResolve) && !v.mine && v.mapping.None?
    ensures n <= 6 && Leads(v, alive, n, w)
    ensures w.pc == Release(Give) && w.mine && w.mapping == Some(w.id) && w.id == v.issued + 1
  {
    var v1 := Locked(v, ForResolve);
    var v2 := v1.(pc := Create(0));
    var v3 := Onward(v2, alive);
    n := Acquires(v, alive, ForResolve);
    n := OneMore(v, alive, n, v1);
    n := OneMore(v, alive, n, v2);
    n := OneMore(v, alive, n, v3);
    w := Onward(v3, alive);
  }

  // From any state with a free lock and no mapping: a new call publishes its channel; if then its
  // release raises, the call raises although the channel stays published.
  lemma ThrownAfterPublish(s: State, c: nat, applied: bool) returns (n: nat)
    requires c !in s.calls && s.lock.None? && s.mapping.None?
    ensures var t := Apply(Alone(Apply(s, Start(c)), c, true, n), Step(c, Raise(applied)));
            c in t.calls && t.calls[c].pc == Done(Thrown) && Holds(t, s.issued + 1)
  {
    var u, v := Apply(s, Start(c)), Arrived(s);
    assert Looks(u, c, v);
    n := 0;
    n := OneMore(v, true, n, v);
    var v1 := Onward(v, true);
    var k, w := Publishes(v1, true);
    n := Continued(v, true, n, v1, k, w);
    AloneFollows(u, c, v, true, n, w);
    ReleaseRaises(Alone(u, c, true, n), c, w, applied);
  }

  lemma ReleaseRaises(t: State, c: nat, w: View, applied: bool)
    requires Looks(t, c, w) && w.pc == Release(Give) && w.mapping == Some(w.id)
    ensures var t' := Apply(t, Step(c, Raise(applied)));
            c in t'.calls && t'.calls[c].pc == Done(Thrown) && Holds(t', w.id)
  {
  }
}
