/** Without the no-lapse hypothesis the evidence theorems fail: a run in which one
    lock lease runs out while held removes the mapping of a live channel, and two
    calls end with handles on two live channels. */
module UniqueKeyLapse {
  import opened Wrappers
  import opened UniqueKeyProtocol
  import opened UniqueKeyMutex
  import opened UniqueKeyEvidence

  // A mapping to channel 1, whose meta is gone.
  const STALE := State(None, Some(Digits(1)), {}, 1, {}, map[], 0, map[0 := 1], {}, map[])

  // Where a call is once it has locked and decided to delete the stale mapping.
  const DECIDED := Call(ResolveDelete(0), Ref(1, 0), 0, 1, 1, false)

  function WithCall(s: State, c: nat, k: Call): State { s.(calls := s.calls[c := k]) }

  lemma Then(s: State, es: seq<Event>, e: Event) returns (fs: seq<Event>)
    ensures fs == es + [e] && Run(s, fs) == Apply(Run(s, es), e)
  {
    fs := es + [e];
    assert fs[..|es|] == es;
  }

  // One answered step of a call, with the record it leads to.
  lemma Ok1(s: State, es: seq<Event>, t: State, c: nat, k: Call, r: Reply, k': Call) returns (fs: seq<Event>)
    requires Run(s, es) == WithCall(t, c, k)
    requires NextMove(WithCall(t, c, k), c, k, r) == Move(k', Nop)
    ensures fs == es + [Step(c, r)] && Run(s, fs) == WithCall(t, c, k')
  {
    fs := Then(s, es, Step(c, r));
    assert t.calls[c := k][c := k'] == t.calls[c := k'];
  }

  const FRESH := Call(FastRead(0), Ref(0, 0), 0, 0, 0, false)
  const QUEUED := Call(LockTxn(ForResolve), Ref(1, 0), 0, 1, 0, false)

  // A call reads the stale mapping, fails to bind, and comes to the lock transaction.
  lemma Queue(s: State, es: seq<Event>, c: nat) returns (fs: seq<Event>)
    requires var t := Run(s, es); c !in t.calls && t.lock.None? && Holds(t, 1) && t.epoch == 0
    ensures |fs| == |es| + 5 && es <= fs && Run(s, fs) == WithCall(Run(s, es), c, QUEUED)
  {
    var t := Run(s, es);
    var k1 := FRESH.(pc := FastBind, at := Ref(1, 0));
    var k2 := QUEUED.(pc := LockRead(ForResolve));
    fs := Then(s, es, Start(c));
    fs := Ok1(s, fs, t, c, FRESH, Ok, k1);
    fs := Ok1(s, fs, t, c, k1, Other, k2);
    fs := Ok1(s, fs, t, c, k2, Ok, k2.(pc := LockLease(ForResolve)));
    fs := Ok1(s, fs, t, c, k2.(pc := LockLease(ForResolve)), Ok, QUEUED);
  }

  // It locks, and decides to delete the mapping, whose meta is missing.
  lemma Decide(s: State, es: seq<Event>, c: nat) returns (fs: seq<Event>)
    requires var t := Run(s, es); c !in t.calls && t.lock.None? && Holds(t, 1) && t.epoch == 0 && t.metas == {}
    ensures |fs| == |es| + 8 && es <= fs
    ensures var t := Run(s, es);
            Run(s, fs) == WithCall(t.(lock := Some(Token(c, 1)), dead := t.dead + {1}), c, DECIDED)
  {
    var t := Run(s, es);
    fs := Queue(s, es, c);
    var u := t.(lock := Some(Token(c, 1)));
    var k3 := DECIDED.(pc := ResolveRead(0));
    fs := Then(s, fs, Step(c, Ok));
    assert t.calls[c := QUEUED][c := k3] == t.calls[c := k3];
    fs := Ok1(s, fs, u, c, k3, Ok, k3.(pc := ResolveMeta(0)));
    fs := Then(s, fs, Step(c, Ok));
    assert t.calls[c := k3.(pc := ResolveMeta(0))][c := DECIDED] == t.calls[c := DECIDED];
  }

  function Remade(s: State, c: nat): State {
    var id := s.issued + 1;
    s.(mapping := Some(Digits(id)), epoch := s.epoch + 1, stored := s.stored[s.epoch + 1 := id],
       issued := id, metas := s.metas + {id}, fates := s.fates[id := Fate(c, Published)],
       calls := s.calls[c := DECIDED.(pc := Release(Give), at := Ref(id, s.epoch + 1))])
  }

  // From there it deletes whatever is stored by now, and publishes a new channel.
  lemma Remake(s: State, es: seq<Event>, c: nat) returns (fs: seq<Event>)
    requires var t := Run(s, es); c in t.calls && t.calls[c] == DECIDED && t.mapping.Some? && t.registry == {}
    ensures |fs| == |es| + 3 && es <= fs && Run(s, fs) == Remade(Run(s, es), c)
  {
    var t := Run(s, es);
    fs := Then(s, es, Step(c, Ok));
    var u := Run(s, fs);
    assert u == t.(mapping := None, epoch := t.epoch + 1, calls := t.calls[c := DECIDED.(pc := Create(0))]);
    fs := Publish3(s, fs, c);
    assert Run(s, fs).calls == Remade(t, c).calls;
  }

  lemma Publish3(s: State, es: seq<Event>, c: nat) returns (fs: seq<Event>)
    requires var t := Run(s, es);
             c in t.calls && t.calls[c] == DECIDED.(pc := Create(0)) && t.mapping.None? && t.registry == {}
    ensures |fs| == |es| + 2 && es <= fs
    ensures var t := Run(s, es); var id := t.issued + 1;
            Run(s, fs) == t.(mapping := Some(Digits(id)), stored := t.stored[t.epoch := id],
                             issued := id, metas := t.metas + {id}, fates := t.fates[id := Fate(c, Published)],
                             calls := t.calls[c := DECIDED.(pc := Release(Give), at := Ref(id, t.epoch))])
  {
    var t := Run(s, es);
    var id := t.issued + 1;
    fs := Then(s, es, Step(c, Ok));
    var u := Run(s, fs);
    var k := DECIDED.(pc := Publish(0, id));
    assert u == t.(issued := id, metas := t.metas + {id}, registry := {id},
                   fates := t.fates[id := Fate(c, Pending)], calls := t.calls[c := k]);
    fs := Then(s, fs, Step(c, Ok));
    assert Run(s, fs).registry == {};
    assert u.fates[id := Fate(c, Published)] == t.fates[id := Fate(c, Published)];
    var k' := DECIDED.(pc := Release(Give), at := Ref(id, t.epoch));
    assert u.calls[c := k'] == t.calls[c := k'];
  }

  // Call 0 decides, its lease runs out, and call 1 replaces the mapping and returns.
  lemma Overtaken() returns (es: seq<Event>)
    ensures |es| > 8 && Lapses(Run(STALE, es[..8]), es[8])
    ensures var t := Run(STALE, es);
            && t == Remade(STALE.(dead := {1}, calls := map[0 := DECIDED]), 1)
                    .(calls := map[0 := DECIDED, 1 := DECIDED.(pc := Done(Handle), at := Ref(2, 1))])
  {
    es := Decide(STALE, [], 0);
    assert Lapses(Run(STALE, es), Expire);
    var early := es;
    es := Then(STALE, es, Expire);
    var late := es;
    assert Run(STALE, es) == WithCall(STALE.(dead := {1}), 0, DECIDED);
    es := Decide(STALE, es, 1);
    es := Remake(STALE, es, 1);
    es := Then(STALE, es, Step(1, Ok));
    assert late <= es && es[..8] == early && es[8] == Expire;
    assert Run(STALE, es).calls == map[0 := DECIDED, 1 := DECIDED.(pc := Done(Handle), at := Ref(2, 1))];
  }

  // Call 0 goes on, and replaces the mapping of call 1.
  lemma Replaced() returns (es: seq<Event>)
    ensures |es| > 8 && Lapses(Run(STALE, es[..8]), es[8])
    ensures var t := Run(STALE, es);
            && t.calls.Keys == {0, 1} && t.calls[1].pc == Done(Handle) && t.calls[1].at.id == 2
            && t.mapping == Some(Digits(3)) && t.dead == {1} && t.metas == {2, 3}
  {
    var early := Overtaken();
    es := Remake(STALE, early, 0);
    assert es[..8] == early[..8] && es[8] == early[8];
  }

  // One lapse, and calls 1 and 2 hold handles on different channels, neither found dead,
  // both with their meta in place.
  lemma LapseSplits() returns (es: seq<Event>)
    ensures Init(STALE) && !NoLapse(STALE, es)
    ensures var t := Run(STALE, es);
            && 1 in t.calls && 2 in t.calls
            && t.calls[1].pc == Done(Handle) && t.calls[2].pc == Done(Handle)
            && t.calls[1].at.id == 2 && t.calls[2].at.id == 3
            && !Found(STALE, es, 2) && !Found(STALE, es, 3) && t.metas == {2, 3}
  {
    var early := Replaced();
    es := Late(STALE, early, 2);
    DeadIff(STALE, es, 2);
    DeadIff(STALE, es, 3);
    assert es[..8] == early[..8] && es[8] == early[8];
  }

  // A late call binds to what is stored.
  lemma Late(s: State, es: seq<Event>, c: nat) returns (fs: seq<Event>)
    requires var t := Run(s, es); c !in t.calls && t.mapping.Some? && t.mapping.value.Digits?
    ensures es <= fs
    ensures var t := Run(s, es);
            Run(s, fs) == WithCall(t, c, FRESH.(pc := Done(Handle), at := Ref(t.mapping.value.id, t.epoch)))
  {
    var t := Run(s, es);
    var k1 := FRESH.(pc := FastBind, at := Ref(t.mapping.value.id, t.epoch));
    fs := Then(s, es, Start(c));
    fs := Ok1(s, fs, t, c, FRESH, Ok, k1);
    fs := Ok1(s, fs, t, c, k1, Ok, k1.(pc := Done(Handle)));
  }
}
