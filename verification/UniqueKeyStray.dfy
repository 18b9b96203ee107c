/** What holds of removals however often lock leases expire while held: a channel is replaced
    only with evidence against it, or by a stray removal, one whose call looked before another
    call had already removed a mapping. */
module UniqueKeyStray {
  import opened UniqueKeyProtocol
  import opened UniqueKeyMoves
  import opened UniqueKeySafety
  import opened UniqueKeyEvidence
  import opened UniqueKeyMutex

  predicate Removes(s: State, e: Event) {
    && e.Step? && e.call in s.calls && s.mapping.Some?
    && NextMove(s, e.call, s.calls[e.call], e.reply).op.DropMapping?
  }

  // The call looked in an earlier epoch than the one it ends.
  predicate Strays(s: State, e: Event) { Removes(s, e) && s.calls[e.call].at.epoch != s.epoch }

  // The epochs of a run that ended by a stray removal.
  ghost function StrayEnds(s: State, es: seq<Event>): set<nat> {
    if es == [] then {}
    else
      var before, e := es[..|es| - 1], es[|es| - 1];
      StrayEnds(s, before) + if Strays(Run(s, before), e) then {Run(s, before).epoch} else {}
  }

  // ----- evidence is never lost ----------------------------------------------------------

  ghost predicate AllEvident(s: State) { forall c :: c in s.calls ==> Evident(s, s.calls[c]) }

  lemma MoveStaysEvident(s: State, c: nat, k: Call, r: Reply)
    requires !k.pc.Done? && Evident(s, k)
    ensures var m := NextMove(s, c, k, r); Evident(Do(s, Own(c, k), m.op), m.call)
  {
    if Locking(k.pc) { LockStaysEvident(s, c, k, r); }
    else if Looking(k.pc) { LookStaysEvident(s, c, k, r); }
    else if Cleaning(k.pc) { CleanStaysEvident(s, c, k, r); }
  }

  lemma LockStaysEvident(s: State, c: nat, k: Call, r: Reply)
    requires Locking(k.pc) && Evident(s, k)
    ensures var m := LockMove(s, k, r); Evident(Do(s, Own(c, k), m.op), m.call)
  {
  }

  lemma LookStaysEvident(s: State, c: nat, k: Call, r: Reply)
    requires Looking(k.pc) && Evident(s, k)
    ensures var m := LookMove(s, k, r); Evident(Do(s, Own(c, k), m.op), m.call)
  {
  }

  lemma CleanStaysEvident(s: State, c: nat, k: Call, r: Reply)
    requires Cleaning(k.pc) && Evident(s, k)
    ensures var m := CleanMove(s, k, r); Evident(Do(s, Own(c, k), m.op), m.call)
  {
  }

  lemma TakeEvident(s: State, c: nat, m: Move)
    requires AllEvident(s) && c in s.calls && Evident(Do(s, Own(c, s.calls[c]), m.op), m.call)
    ensures AllEvident(Take(s, c, m)) && s.dead <= Take(s, c, m).dead
  {
    var t := Take(s, c, m);
    assert s.dead <= t.dead;
    forall d | d in t.calls
      ensures Evident(t, t.calls[d])
    {
      assert d != c ==> Evident(s, s.calls[d]);
    }
  }

  lemma ApplyEvident(s: State, e: Event)
    requires AllEvident(s)
    ensures AllEvident(Apply(s, e)) && s.dead <= Apply(s, e).dead
  {
    match e
    case Step(c, r) =>
      if c in s.calls && !s.calls[c].pc.Done? {
        MoveStaysEvident(s, c, s.calls[c], r);
        TakeEvident(s, c, NextMove(s, c, s.calls[c], r));
      } else if c in s.calls {
        assert s.calls == s.calls[c := s.calls[c]];
      }
    case Crash(c) =>
      if c in s.calls && !s.calls[c].pc.Done? { TakeEvident(s, c, CrashMove(s.calls[c])); }
    case _ => OtherEvident(s, e);
  }

  lemma OtherEvident(s: State, e: Event)
    requires AllEvident(s) && !e.Step? && !e.Crash?
    ensures AllEvident(Apply(s, e)) && Apply(s, e).dead == s.dead
  {
    var t := Apply(s, e);
    forall d | d in t.calls
      ensures Evident(t, t.calls[d])
    {
      assert d in s.calls ==> Evident(s, s.calls[d]);
    }
  }

  // ----- how an epoch ends -----------------------------------------------------------------

  ghost predicate EndsOk(s: State, strays: set<nat>) {
    forall n :: n in s.stored && n < s.epoch ==> s.stored[n] in s.dead || n in strays
  }

  // Epochs end, and the past changes, only so.
  lemma EpochStep(s: State, e: Event)
    requires StoreInv(s)
    ensures var t := Apply(s, e);
            && t.epoch == (if Removes(s, e) then s.epoch + 1 else s.epoch)
            && forall n :: n in t.stored && n < t.epoch ==> n in s.stored && n <= s.epoch && t.stored[n] == s.stored[n]
  {
    if e.Step? && e.call in s.calls && !s.calls[e.call].pc.Done? {
      MovesAreOk(s, e.call, s.calls[e.call], e.reply);
      TakeEpoch(s, e.call, NextMove(s, e.call, s.calls[e.call], e.reply));
    } else {
      OtherEpoch(s, e);
    }
  }

  lemma TakeEpoch(s: State, c: nat, m: Move)
    requires StoreInv(s) && c in s.calls
    ensures var t := Take(s, c, m);
            && t.epoch == (if m.op.DropMapping? && s.mapping.Some? then s.epoch + 1 else s.epoch)
            && forall n :: n in t.stored && n < t.epoch ==> n in s.stored && n <= s.epoch && t.stored[n] == s.stored[n]
  {
  }

  lemma OtherEpoch(s: State, e: Event)
    requires e.Step? && e.call in s.calls ==> s.calls[e.call].pc.Done?
    ensures Apply(s, e).epoch == s.epoch && Apply(s, e).stored == s.stored && !Removes(s, e)
  {
    match e
    case Step(c, r) =>
    case Crash(c) =>
    case _ =>
  }

  // A call that removes the mapping in its own epoch has evidence against what is stored.
  lemma OwnRemoval(s: State, e: Event)
    requires StoreInv(s) && AllEvident(s) && Removes(s, e) && !Strays(s, e)
    ensures s.epoch in s.stored && s.stored[s.epoch] in s.dead
  {
    var k := s.calls[e.call];
    if !k.pc.Done? { MovesAreOk(s, e.call, k, e.reply); }
    assert Evident(s, k) && RefOk(s, k.at);
  }

  lemma ApplyEndsOk(s: State, e: Event, strays: set<nat>)
    requires StoreInv(s) && AllEvident(s) && EndsOk(s, strays)
    ensures EndsOk(Apply(s, e), strays + if Strays(s, e) then {s.epoch} else {})
  {
    EpochStep(s, e);
    ApplyEvident(s, e);
    if Removes(s, e) && !Strays(s, e) { OwnRemoval(s, e); }
  }

  lemma {:induction false} RunEndsOk(s: State, es: seq<Event>)
    requires Init(s)
    ensures AllEvident(Run(s, es)) && EndsOk(Run(s, es), StrayEnds(s, es))
  {
    if es != [] {
      var before, e := es[..|es| - 1], es[|es| - 1];
      RunInv(s, before);
      RunEndsOk(s, before);
      ApplyEvident(Run(s, before), e);
      ApplyEndsOk(Run(s, before), e, StrayEnds(s, before));
    }
  }

  // ----- theorems ----------------------------------------------------------------------------

  // In every run, with any lease expiry: the channel of an epoch that has ended was found dead, or
  // the epoch was ended by a stray removal.
  lemma {:induction false} EndedWithEvidenceOrStray(s: State, es: seq<Event>, n: nat)
    requires Init(s) && n in Run(s, es).stored && n < Run(s, es).epoch
    ensures Found(s, es, Run(s, es).stored[n]) || n in StrayEnds(s, es)
  {
    RunEndsOk(s, es);
    DeadIff(s, es, Run(s, es).stored[n]);
  }

  // So of two handles on different channels the earlier one was found dead, or strayed upon.
  lemma {:induction false} SplitNeedsDeathOrStray(s: State, es: seq<Event>, c: nat, d: nat)
    requires Init(s)
    requires var t := Run(s, es);
             && c in t.calls && t.calls[c].pc == Done(Handle)
             && d in t.calls && t.calls[d].pc == Done(Handle)
             && t.calls[c].at.id != t.calls[d].at.id
    ensures var t := Run(s, es);
            var first := if t.calls[c].at.epoch < t.calls[d].at.epoch then t.calls[c].at else t.calls[d].at;
            Found(s, es, first.id) || first.epoch in StrayEnds(s, es)
  {
    RunInv(s, es);
    RunEndsOk(s, es);
    OneChannelPerEpoch(s, es, c, d);
    var t := Run(s, es);
    assert RefOk(t, t.calls[c].at) && RefOk(t, t.calls[d].at);
    DeadIff(s, es, t.calls[c].at.id);
    DeadIff(s, es, t.calls[d].at.id);
  }

  // Whatever expires, a call deletes the meta only of a channel that was found dead.
  lemma {:induction false} MetaRemovalHasEvidence(s: State, es: seq<Event>, e: Event, id: ChanId)
    requires Init(s) && id in Run(s, es).metas && id !in Apply(Run(s, es), e).metas && !e.MetaLoss?
    ensures Found(s, es, id)
  {
    RunEndsOk(s, es);
    DeadIff(s, es, id);
    DropsMeta(Run(s, es), e, id);
  }

  lemma DropsMeta(s: State, e: Event, id: ChanId)
    requires AllEvident(s) && id in s.metas && id !in Apply(s, e).metas && !e.MetaLoss?
    ensures id in s.dead
  {
    if e.Step? && e.call in s.calls {
      var k := s.calls[e.call];
      if !k.pc.Done? { MovesAreOk(s, e.call, k, e.reply); }
      assert Evident(s, k);
    }
  }

  // Without a lapse there are no stray removals.
  lemma {:induction false} NoLapseNoStray(s: State, es: seq<Event>)
    requires Init(s) && NoLapse(s, es)
    ensures StrayEnds(s, es) == {}
  {
    if es != [] {
      var before, e := es[..|es| - 1], es[|es| - 1];
      assert forall n :: 0 <= n < |before| ==> before[..n] == es[..n];
      NoLapseNoStray(s, before);
      RunMutexInv(s, before);
      if Removes(Run(s, before), e) { InsideOwn(Run(s, before), e); }
    }
  }

  lemma InsideOwn(s: State, e: Event)
    requires MutexInv(s) && StoreInv(s) && Removes(s, e)
    ensures !Strays(s, e)
  {
    var k := s.calls[e.call];
    if !k.pc.Done? { MovesAreOk(s, e.call, k, e.reply); }
    assert Inside(s, e.call) && Knows(s, k) && RefOk(s, k.at);
  }
}
