/** The same-key put monitor: threads that put the same key wait for one another, and
    a confirmed key is not put again.  A step is one critical section of the
    monitor, or what a thread does between two of them. */
module PutMonitor {
  import opened Wrappers

  type Key = nat

  datatype Exit =
    | Skipped           // told that the key is confirmed
    | TimedOut
    | Ended(confirmed: bool)
    | Refused           // the monitor did not know the key it was asked to take back

  datatype Phase = Arriving | Waiting(woken: bool) | Putting | Left(how: Exit)

  datatype Thread = Thread(key: Key, phase: Phase)

  // `holder` and `confirmer` are history, never read by a step: which thread put a key in
  // flight, and which one's put confirmed it.
  datatype State = State(inflight: set<Key>, confirmed: set<Key>, threads: map<nat, Thread>,
                         holder: map<Key, nat>, confirmer: map<Key, nat>)

  datatype Event =
    | Enter(t: nat, key: Key)
    | Check(t: nat, late: bool)       // look at the key again; `late`: the deadline has passed
    | Finish(t: nat, confirmed: bool) // the put has returned or raised

  function With(s: State, t: nat, phase: Phase): State
    requires t in s.threads
  {
    s.(threads := s.threads[t := s.threads[t].(phase := phase)])
  }

  // Notifying wakes every waiting thread, whatever key it waits for.
  function Woken(k: Thread): Thread { if k.phase.Waiting? then k.(phase := Waiting(true)) else k }

  function Notified(threads: map<nat, Thread>): map<nat, Thread> {
    map t | t in threads :: Woken(threads[t])
  }

  // _begin_deduplicated_put, from one wake-up to the next wait or the answer
  function CheckStep(s: State, t: nat, late: bool): State
    requires t in s.threads
  {
    var key := s.threads[t].key;
    if key in s.inflight then With(s, t, if late then Left(TimedOut) else Waiting(false))
    else if key in s.confirmed then With(s, t, Left(Skipped))
    else With(s, t, Putting).(inflight := s.inflight + {key}, holder := s.holder[key := t])
  }

  // _finish_deduplicated_put
  function FinishStep(s: State, t: nat, confirmed: bool): State
    requires t in s.threads
  {
    var key := s.threads[t].key;
    if key !in s.inflight then With(s, t, Left(Refused))
    else
      s.(inflight := s.inflight - {key},
         confirmed := if confirmed then s.confirmed + {key} else s.confirmed,
         threads := Notified(s.threads)[t := Thread(key, Left(Ended(confirmed)))],
         holder := s.holder - {key},
         confirmer := if confirmed then s.confirmer[key := t] else s.confirmer)
  }

  function Apply(s: State, e: Event): State {
    match e
    case Enter(t, key) => if t in s.threads then s else s.(threads := s.threads[t := Thread(key, Arriving)])
    case Check(t, late) =>
      if t in s.threads && (s.threads[t].phase.Arriving? || s.threads[t].phase.Waiting?) then CheckStep(s, t, late) else s
    case Finish(t, confirmed) =>
      if t in s.threads && s.threads[t].phase.Putting? then FinishStep(s, t, confirmed) else s
  }

  function Run(s: State, es: seq<Event>): State {
    if es == [] then s else Apply(Run(s, es[..|es| - 1]), es[|es| - 1])
  }

  const START := State({}, {}, map[], map[], map[])

  // ----- the invariant ----------------------------------------------------------------

  predicate Submits(k: Thread) { k.phase.Putting? }

  ghost predicate ThreadOk(s: State, t: nat, k: Thread) {
    && (Submits(k) <==> k.key in s.holder && s.holder[k.key] == t)
    && (k.phase == Left(Ended(true)) <==> k.key in s.confirmer && s.confirmer[k.key] == t)
    && (k.phase == Waiting(false) ==> k.key in s.inflight)
    && (k.phase == Left(Skipped) ==> k.key in s.confirmed)
    && k.phase != Left(Refused)
  }

  ghost predicate Inv(s: State) {
    && s.inflight == s.holder.Keys && s.confirmed == s.confirmer.Keys && s.inflight !! s.confirmed
    && (forall t :: t in s.threads ==> ThreadOk(s, t, s.threads[t]))
    && (forall key :: key in s.holder ==> s.holder[key] in s.threads && s.threads[s.holder[key]].key == key)
    && (forall key :: key in s.confirmer ==> s.confirmer[key] in s.threads && s.threads[s.confirmer[key]].key == key)
  }

  lemma CheckInv(s: State, t: nat, late: bool)
    requires Inv(s) && t in s.threads && (s.threads[t].phase.Arriving? || s.threads[t].phase.Waiting?)
    ensures Inv(CheckStep(s, t, late))
  {
    var s' := CheckStep(s, t, late);
    forall u | u in s'.threads
      ensures ThreadOk(s', u, s'.threads[u])
    {
      assert ThreadOk(s, u, s.threads[u]);
    }
  }

  lemma FinishInv(s: State, t: nat, confirmed: bool)
    requires Inv(s) && t in s.threads && s.threads[t].phase.Putting?
    ensures Inv(FinishStep(s, t, confirmed))
  {
    var s' := FinishStep(s, t, confirmed);
    assert ThreadOk(s, t, s.threads[t]);
    forall u | u in s'.threads
      ensures ThreadOk(s', u, s'.threads[u])
    {
      assert ThreadOk(s, u, s.threads[u]);
    }
  }

  lemma ApplyInv(s: State, e: Event)
    requires Inv(s)
    ensures Inv(Apply(s, e))
  {
    if e.Check? && e.t in s.threads && (s.threads[e.t].phase.Arriving? || s.threads[e.t].phase.Waiting?) {
      CheckInv(s, e.t, e.late);
    } else if e.Finish? && e.t in s.threads && s.threads[e.t].phase.Putting? {
      FinishInv(s, e.t, e.confirmed);
    } else {
      var s' := Apply(s, e);
      forall u | u in s'.threads
        ensures ThreadOk(s', u, s'.threads[u])
      {
        assert u in s.threads ==> ThreadOk(s, u, s.threads[u]);
      }
    }
  }

  lemma {:induction false} RunInv(es: seq<Event>)
    ensures Inv(Run(START, es))
  {
    if es != [] {
      RunInv(es[..|es| - 1]);
      ApplyInv(Run(START, es[..|es| - 1]), es[|es| - 1]);
    }
  }

  // ----- theorems -----------------------------------------------------------------------

  // In every run at most one thread at a time submits a key, and none submits a key that
  // is confirmed.
  lemma {:induction false} OneSubmitterPerKey(es: seq<Event>, t: nat, u: nat)
    requires var s := Run(START, es);
             && t in s.threads && Submits(s.threads[t])
             && u in s.threads && Submits(s.threads[u]) && s.threads[t].key == s.threads[u].key
    ensures t == u && Run(START, es).threads[t].key !in Run(START, es).confirmed
  {
    RunInv(es);
    var s := Run(START, es);
    assert ThreadOk(s, t, s.threads[t]) && ThreadOk(s, u, s.threads[u]);
  }

  // No key is confirmed by two puts, and a thread is told to skip only if one has been.
  lemma {:induction false} SkippedMeansConfirmed(es: seq<Event>, t: nat) returns (c: nat)
    requires t in Run(START, es).threads
    requires var how := Run(START, es).threads[t].phase; how == Left(Skipped) || how == Left(Ended(true))
    ensures var s := Run(START, es);
            c in s.threads && s.threads[c] == Thread(s.threads[t].key, Left(Ended(true)))
    ensures var s := Run(START, es);
            forall d :: d in s.threads && s.threads[d] == Thread(s.threads[t].key, Left(Ended(true))) ==> d == c
  {
    RunInv(es);
    var s := Run(START, es);
    var key := s.threads[t].key;
    assert ThreadOk(s, t, s.threads[t]);
    c := s.confirmer[key];
    assert ThreadOk(s, c, s.threads[c]);
    forall d | d in s.threads && s.threads[d] == Thread(key, Left(Ended(true)))
      ensures d == c
    {
      assert ThreadOk(s, d, s.threads[d]);
    }
  }

  // The monitor never misses the key a thread takes back, and no thread sleeps on a key that
  // is no longer in flight.
  lemma {:induction false} NoLostWakeUp(es: seq<Event>, t: nat)
    requires t in Run(START, es).threads
    ensures var s := Run(START, es);
            && s.threads[t].phase != Left(Refused)
            && (s.threads[t].phase == Waiting(false) ==> s.threads[t].key in s.inflight)
  {
    RunInv(es);
    assert ThreadOk(Run(START, es), t, Run(START, es).threads[t]);
  }

  // In every run a key is in flight if and only if a thread is submitting it.
  lemma {:induction false} InFlightIff(es: seq<Event>, key: Key)
    ensures var s := Run(START, es);
            key in s.inflight <==> exists t :: t in s.threads && s.threads[t].key == key && Submits(s.threads[t])
  {
    RunInv(es);
    var s := Run(START, es);
    if key in s.inflight { assert ThreadOk(s, s.holder[key], s.threads[s.holder[key]]); }
    forall t | t in s.threads && s.threads[t].key == key && Submits(s.threads[t])
      ensures key in s.inflight
    {
      assert ThreadOk(s, t, s.threads[t]);
    }
  }

  // Once every thread has left, however its put ended, nothing is in flight any more, and the
  // confirmed keys are exactly those some thread's put confirmed.
  lemma {:induction false} AllLeft(es: seq<Event>)
    requires forall t :: t in Run(START, es).threads ==> Run(START, es).threads[t].phase.Left?
    ensures var s := Run(START, es);
            && s.inflight == {}
            && forall key :: key in s.confirmed <==> exists t :: t in s.threads && s.threads[t] == Thread(key, Left(Ended(true)))
  {
    RunInv(es);
    var s := Run(START, es);
    forall key
      ensures key !in s.inflight
      ensures key in s.confirmed <==> exists t :: t in s.threads && s.threads[t] == Thread(key, Left(Ended(true)))
    {
      InFlightIff(es, key);
      if key in s.confirmed { assert ThreadOk(s, s.confirmer[key], s.threads[s.confirmer[key]]); }
      forall t | t in s.threads && s.threads[t] == Thread(key, Left(Ended(true)))
        ensures key in s.confirmed
      {
        assert ThreadOk(s, t, s.threads[t]);
      }
    }
  }

  // No thread can be kept out for good: from any point of any run, once the submitter of its key
  // has finished, a thread's next look answers it or lets it submit.
  lemma {:induction false} NextLookAnswers(es: seq<Event>, t: nat, late: bool)
    requires var s := Run(START, es); t in s.threads && (s.threads[t].phase.Arriving? || s.threads[t].phase.Waiting?)
    requires var s := Run(START, es);
             forall u :: u in s.threads && s.threads[u].key == s.threads[t].key ==> !Submits(s.threads[u])
    ensures var s, s' := Run(START, es), Apply(Run(START, es), Check(t, late));
            if s.threads[t].key in s.confirmed then s'.threads[t].phase == Left(Skipped) else Submits(s'.threads[t])
  {
    InFlightIff(es, Run(START, es).threads[t].key);
  }

  // ----- how threads leave ---------------------------------------------------------------

  predicate Looks(s: State, t: nat) {
    t in s.threads && (s.threads[t].phase.Arriving? || s.threads[t].phase.Waiting?)
  }

  // The event answers the thread: it looks too late at a key that is in flight, it looks at a
  // confirmed key that is not, or its own put returns.
  predicate Answers(s: State, e: Event, t: nat, how: Exit) {
    match how
    case TimedOut => e == Check(t, true) && Looks(s, t) && s.threads[t].key in s.inflight
    case Skipped =>
      && e.Check? && e.t == t && Looks(s, t)
      && s.threads[t].key !in s.inflight && s.threads[t].key in s.confirmed
    case Ended(confirmed) => e == Finish(t, confirmed) && t in s.threads && Submits(s.threads[t])
    case Refused => false
  }

  ghost function AnswersAt(t: nat, how: Exit): (seq<Event>, Event) -> bool {
    (before, e) => Answers(Run(START, before), e, t, how)
  }

  ghost predicate Answered(es: seq<Event>, t: nat, how: Exit) { Happens(es, AnswersAt(t, how)) }

  lemma AnswerStep(s: State, e: Event, t: nat, how: Exit)
    requires Inv(s)
    ensures t in Apply(s, e).threads && Apply(s, e).threads[t].phase == Left(how) <==>
            (t in s.threads && s.threads[t].phase == Left(how)) || Answers(s, e, t, how)
  {
    if t in s.threads { assert ThreadOk(s, t, s.threads[t]); }
  }

  lemma AnsweredStep(es: seq<Event>, e: Event, t: nat, how: Exit)
    ensures Answered(es + [e], t, how) <==> Answered(es, t, how) || Answers(Run(START, es), e, t, how)
  {
    HappensStep(es, e, AnswersAt(t, how));
  }

  // In every run a thread has left in a certain way if and only if an event answered it so: it
  // waits as long as its key is in flight and the deadline has not passed, and no longer.
  lemma {:induction false} LeftIff(es: seq<Event>, t: nat, how: Exit)
    ensures t in Run(START, es).threads && Run(START, es).threads[t].phase == Left(how) <==> Answered(es, t, how)
  {
    if es != [] {
      var before, e := es[..|es| - 1], es[|es| - 1];
      assert es == before + [e];
      LeftIff(before, t, how);
      RunInv(before);
      AnswerStep(Run(START, before), e, t, how);
      AnsweredStep(before, e, t, how);
    }
  }

  // A thread that looks at a key in flight in time goes to sleep, whatever it did before.
  lemma WaitsInTime(s: State, t: nat)
    requires Looks(s, t) && s.threads[t].key in s.inflight
    ensures Apply(s, Check(t, false)) == s.(threads := s.threads[t := Thread(s.threads[t].key, Waiting(false))])
  {
  }
}
