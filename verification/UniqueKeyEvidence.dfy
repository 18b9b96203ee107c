/** What counts as evidence against a channel, said of the events of a run: a bind that answered
    that the channel is stale, or a look under the lock that found its meta missing. */
module UniqueKeyEvidence {
  import opened Wrappers
  import opened UniqueKeyProtocol
  import opened UniqueKeyMoves

  // The event tells its call that the channel is dead.
  predicate Finds(s: State, e: Event, id: ChanId) {
    && e.Step? && e.call in s.calls && s.calls[e.call].at.id == id
    && (|| (s.calls[e.call].pc.Bind? && e.reply.Stale?)
        || (s.calls[e.call].pc.ResolveMeta? && !e.reply.Raise? && id !in s.metas))
  }

  // Some event of the run did.
  ghost function FindsAt(s: State, id: ChanId): (seq<Event>, Event) -> bool {
    (before, e) => Finds(Run(s, before), e, id)
  }

  ghost predicate Found(s: State, es: seq<Event>, id: ChanId) { Happens(es, FindsAt(s, id)) }

  lemma LeaveMarks(s: State, c: nat, k: Call, r: Reply, id: ChanId)
    requires Leaving(k.pc)
    ensures LeaveMove(s, c, k, r).op == MarkDead(id) <==> k.pc.Bind? && r.Stale? && k.at.id == id
  {
  }

  lemma LookMarks(s: State, k: Call, r: Reply, id: ChanId)
    requires Looking(k.pc)
    ensures LookMove(s, k, r).op == MarkDead(id) <==> k.pc.ResolveMeta? && !r.Raise? && id !in s.metas && k.at.id == id
  {
  }

  lemma OtherMarks(s: State, c: nat, k: Call, r: Reply, id: ChanId)
    requires !Leaving(k.pc) && !Looking(k.pc)
    ensures NextMove(s, c, k, r).op != MarkDead(id)
  {
    if !k.pc.Done? { MovesAreOk(s, c, k, r); }
  }

  lemma MarkIff(s: State, c: nat, k: Call, r: Reply, id: ChanId)
    requires c in s.calls && s.calls[c] == k
    ensures NextMove(s, c, k, r).op == MarkDead(id) <==> Finds(s, Step(c, r), id)
  {
    if Leaving(k.pc) {
      LeaveMarks(s, c, k, r, id);
    } else if Looking(k.pc) {
      LookMarks(s, k, r, id);
    } else {
      OtherMarks(s, c, k, r, id);
    }
  }

  lemma DoDead(s: State, own: Token, op: Op, id: ChanId)
    ensures id in Do(s, own, op).dead <==> id in s.dead || op == MarkDead(id)
  {
  }

  lemma DeadStep(s: State, e: Event, id: ChanId)
    ensures id in Apply(s, e).dead <==> id in s.dead || Finds(s, e, id)
  {
    match e
    case Step(c, r) =>
      if c in s.calls {
        MarkIff(s, c, s.calls[c], r, id);
        DoDead(s, Own(c, s.calls[c]), NextMove(s, c, s.calls[c], r).op, id);
      }
    case Crash(c) =>
      if c in s.calls && !s.calls[c].pc.Done? { DoDead(s, Own(c, s.calls[c]), CrashMove(s.calls[c]).op, id); }
    case _ =>
  }

  lemma FoundStep(s: State, es: seq<Event>, e: Event, id: ChanId)
    ensures Found(s, es + [e], id) <==> Found(s, es, id) || Finds(Run(s, es), e, id)
  {
    HappensStep(es, e, FindsAt(s, id));
  }

  // The history field `dead` holds exactly the channels some event found dead.
  lemma {:induction false} DeadIff(s: State, es: seq<Event>, id: ChanId)
    requires Init(s)
    ensures id in Run(s, es).dead <==> Found(s, es, id)
  {
    if es != [] {
      var before, e := es[..|es| - 1], es[|es| - 1];
      assert es == before + [e];
      DeadIff(s, before, id);
      DeadStep(Run(s, before), e, id);
      FoundStep(s, before, e, id);
    }
  }

  // A bind outside the lock that fails, but not because the channel is stale, is the end of the
  // call, and leaves everything else as it was.
  lemma FailedBindIsTheEnd(s: State, c: nat, r: Reply)
    requires c in s.calls && s.calls[c].pc.Bind? && !r.Ok? && !r.Stale?
    ensures Apply(s, Step(c, r)) == s.(calls := s.calls[c := s.calls[c].(pc := Done(Error))])
  {
  }
}
