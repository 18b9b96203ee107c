/** What a run of the benchmark worker makes of its operations: each gets one result, the one its
    turn calls for, unless a dropped submission threw its completion away. */
module WorkerResults {
  import opened CudaQueue
  import opened CudaSections
  import opened WorkerBooks

  // ----- the books of a run are in order -------------------------------------------------------

  lemma TurnOk(b: Books, turn: Turn, v: Verdict, cuda: bool, depth: nat)
    requires BooksOk(b)
    ensures BooksOk(TurnTaken(b, turn, v, cuda, depth))
  {
    var p := AfterPoll(b, turn, cuda);
    DeliveredOk(b, if turn.ready < |b.queue| then turn.ready else |b.queue|);
    GotOk(p, depth, v);
    PlainOk(p, cuda, turn.action);
  }

  lemma {:induction false} AfterOk(w: Trace, n: nat)
    requires Goes(w, n)
    ensures BooksOk(w.books[n]) && w.books[n].begun == n
  {
    if n > 0 {
      assert GoesAt(w, n - 1);
      AfterOk(w, n - 1);
      TurnOk(w.books[n - 1], w.turns[n - 1], w.verdicts[n - 1], w.cuda, w.depth);
    }
  }

  // ----- lost completions --------------------------------------------------------------------------

  // Open, but no longer in flight.
  predicate Missing(b: Books, x: nat) { x in b.open && x !in b.queue }

  lemma OneMissing(b: Books, x: nat)
    requires BooksOk(b) && b.queue != []
    ensures Missing(One(b), x) <==> Missing(b, x)
  {
    assert b.queue == [b.queue[0]] + b.queue[1..];
  }

  lemma {:induction false} DeliveredMissing(b: Books, m: nat, x: nat)
    requires BooksOk(b) && m <= |b.queue|
    ensures Missing(Delivered(b, m), x) <==> Missing(b, x)
    decreases m
  {
    if m > 0 {
      DeliveredMissing(b, m - 1, x);
      DeliveredOk(b, m - 1);
      OneMissing(Delivered(b, m - 1), x);
    }
  }

  // A submission that is dropped while the queue is full throws the completion of its front away.
  predicate Swallows(p: Books, depth: nat, v: Verdict, x: nat) {
    v.Dropped? && |p.queue| >= depth && p.queue != [] && p.queue[0] == x
  }

  lemma GotMissing(p: Books, depth: nat, v: Verdict, x: nat)
    requires BooksOk(p)
    ensures Missing(Got(p, depth, v), x) <==> Missing(p, x) || Swallows(p, depth, v, x)
  {
    var full := |p.queue| >= depth && p.queue != [];
    assert p.begun !in p.open;
    if full {
      OneMissing(p, x);
      assert p.queue == [p.queue[0]] + p.queue[1..];
      assert p.queue[0] in p.open && p.queue[0] !in p.queue[1..];
    }
  }

  // In a turn without a close.
  ghost predicate SwallowsIn(w: Trace, i: nat, x: nat) {
    && i < |w.turns| && i < |w.verdicts| && i < |w.books| && Pipelined(w.cuda, w.turns[i].action)
    && Swallows(AfterPoll(w.books[i], w.turns[i], w.cuda), w.depth, w.verdicts[i], x)
  }

  lemma TurnMissing(w: Trace, i: nat, x: nat)
    requires Goes(w, i + 1) && !w.turns[i].closeThen && w.cuda
    ensures Missing(w.books[i + 1], x) <==> Missing(w.books[i], x) || SwallowsIn(w, i, x)
  {
    assert GoesAt(w, i);
    AfterOk(w, i);
    var b, turn := w.books[i], w.turns[i];
    var m := if turn.ready < |b.queue| then turn.ready else |b.queue|;
    var p := AfterPoll(b, turn, w.cuda);
    DeliveredOk(b, m);
    DeliveredMissing(b, m, x);
    if Pipelined(w.cuda, turn.action) {
      GotMissing(p, w.depth, w.verdicts[i], x);
    } else {
      DeliveredMissing(p, |p.queue|, x);
    }
  }

  ghost predicate Swallowed(w: Trace, n: nat, x: nat) { exists i: nat :: i < n && SwallowsIn(w, i, x) }

  lemma SwallowedStep(w: Trace, n: nat, x: nat)
    requires n > 0
    ensures Swallowed(w, n, x) <==> Swallowed(w, n - 1, x) || SwallowsIn(w, n - 1, x)
  {
  }

  ghost predicate NoClose(w: Trace, n: nat) {
    n <= |w.turns| && forall i :: 0 <= i < n ==> !w.turns[i].closeFirst && !w.turns[i].closeThen
  }

  lemma {:induction false} MissingIff(w: Trace, n: nat, x: nat)
    requires Goes(w, n) && w.cuda && NoClose(w, n)
    ensures Missing(w.books[n], x) <==> Swallowed(w, n, x)
  {
    if n > 0 {
      MissingIff(w, n - 1, x);
      TurnMissing(w, n - 1, x);
      SwallowedStep(w, n, x);
    }
  }

  // ----- results ---------------------------------------------------------------------------------

  // What the turn of an operation calls for.
  function Due(w: Trace, x: nat): Outcome
    requires x < |w.turns| && x < |w.verdicts| && x < |w.books|
  {
    var a := w.turns[x].action;
    if Pipelined(w.cuda, a) then if w.verdicts[x].Took? then Success else Error
    else if Raises(a) || (w.cuda && a.Put? && AfterPoll(w.books[x], w.turns[x], w.cuda).closed) then Error
    else Success
  }

  // Every result so far is the one due, and every copy in flight was taken.
  ghost predicate AllDue(w: Trace, n: nat, b: Books) {
    && n <= |w.turns| && n <= |w.verdicts| && n <= |w.books| && |b.outcomes| == |b.ended|
    && (forall p :: 0 <= p < |b.ended| ==> b.ended[p] < n && b.outcomes[p] == Due(w, b.ended[p]))
    && (forall k :: 0 <= k < |b.queue| ==> b.queue[k] < n && TookAt(w, b.queue[k]))
  }

  predicate TookAt(w: Trace, x: nat) {
    x < |w.turns| && x < |w.verdicts| && Pipelined(w.cuda, w.turns[x].action) && w.verdicts[x].Took?
  }

  lemma OneDue(w: Trace, n: nat, b: Books)
    requires AllDue(w, n, b) && b.queue != []
    ensures AllDue(w, n, One(b))
  {
    assert TookAt(w, b.queue[0]);
    assert forall k :: 0 <= k < |b.queue| - 1 ==> b.queue[1..][k] == b.queue[k + 1];
  }

  lemma {:induction false} DeliveredDue(w: Trace, n: nat, b: Books, m: nat)
    requires AllDue(w, n, b) && m <= |b.queue|
    ensures AllDue(w, n, Delivered(b, m))
    decreases m
  {
    if m > 0 {
      DeliveredDue(w, n, b, m - 1);
      OneDue(w, n, Delivered(b, m - 1));
    }
  }

  lemma EndedDue(w: Trace, n: nat, b: Books, o: Outcome)
    requires AllDue(w, n, b) && n < |w.turns| && n < |w.verdicts| && n < |w.books| && b.begun == n && o == Due(w, n)
    ensures AllDue(w, n + 1, Ended(b, o))
  {
  }

  lemma GotDue(w: Trace, n: nat, p: Books)
    requires AllDue(w, n, p) && n < |w.turns| && n < |w.verdicts| && n < |w.books| && p.begun == n
    requires Pipelined(w.cuda, w.turns[n].action)
    ensures AllDue(w, n + 1, Got(p, w.depth, w.verdicts[n]))
  {
    var full := |p.queue| >= w.depth && p.queue != [];
    var shorter := if full then p.(queue := p.queue[1..]) else p;
    if full {
      OneDue(w, n, p);
      assert forall k :: 0 <= k < |p.queue| - 1 ==> p.queue[1..][k] == p.queue[k + 1];
    }
    if !w.verdicts[n].Took? { EndedDue(w, n, if w.verdicts[n].Dropped? then shorter else p, Error); }
  }

  lemma TurnDue(w: Trace, n: nat)
    requires GoesAt(w, n) && w.books[n].begun == n && AllDue(w, n, w.books[n])
    ensures AllDue(w, n + 1, w.books[n + 1])
  {
    var b, turn := w.books[n], w.turns[n];
    var p := AfterPoll(b, turn, w.cuda);
    DeliveredDue(w, n, b, if turn.ready < |b.queue| then turn.ready else |b.queue|);
    if Pipelined(w.cuda, turn.action) {
      GotDue(w, n, p);
    } else {
      var drains := w.cuda && turn.action.Put? && !p.closed;
      DeliveredDue(w, n, p, |p.queue|);
      EndedDue(w, n, if drains then AllDelivered(p) else p, Due(w, n));
    }
  }

  lemma {:induction false} RunDue(w: Trace, n: nat)
    requires Goes(w, n)
    ensures AllDue(w, n, w.books[n])
  {
    if n > 0 {
      assert GoesAt(w, n - 1);
      RunDue(w, n - 1);
      AfterOk(w, n - 1);
      TurnDue(w, n - 1);
    }
  }

  // ----- theorems ----------------------------------------------------------------------------------

  // The result of operation x in the books.
  ghost predicate Recorded(b: Books, x: nat, o: Outcome) {
    && |b.outcomes| == |b.ended| && NoRepeats(b.ended)
    && exists p :: 0 <= p < |b.ended| && b.ended[p] == x && b.outcomes[p] == o
  }

  lemma {:induction false} InOrderHas(s: set<nat>, n: nat, x: nat)
    ensures x in InOrder(s, n) <==> x in s && x < n
  {
    if n > 0 { InOrderHas(s, n - 1, x); }
  }

  // At the end of a run that was not closed upon: operation x is recorded as lost if and only if a
  // dropped submission swallowed its completion, and otherwise with the result due, and never
  // twice; and nothing is open any more.
  lemma ResultIs(w: Trace, ready: nat, x: nat)
    requires Goes(w, |w.turns|) && w.cuda && NoClose(w, |w.turns|) && x < |w.turns|
    ensures var b := Reconciled(PolledOnce(w.books[|w.turns|], ready));
            && b.open == {} && BooksOk(b)
            && Recorded(b, x, if Swallowed(w, |w.turns|, x) then LostCompletion else Due(w, x))
  {
    var n := |w.turns|;
    var a := w.books[n];
    var m := if ready < |a.queue| then ready else |a.queue|;
    AfterOk(w, n);
    RunDue(w, n);
    MissingIff(w, n, x);
    var c := PolledOnce(a, ready);
    DeliveredOk(a, m);
    DeliveredMissing(a, m, x);
    DeliveredDue(w, n, a, m);
    AtEnd(w, n, c, x);
  }

  lemma AtEnd(w: Trace, n: nat, c: Books, x: nat)
    requires BooksOk(c) && AllDue(w, n, c) && c.begun == n && x < n
    ensures var b := Reconciled(c);
            b.open == {} && BooksOk(b) && Recorded(b, x, if Missing(c, x) then LostCompletion else Due(w, x))
  {
    var d := AllDelivered(c);
    DeliveredOk(c, |c.queue|);
    DeliveredMissing(c, |c.queue|, x);
    DeliveredDue(w, n, c, |c.queue|);
    ClearedOk(d, n);
    ClearedIs(d, n);
    InOrderHas(d.open, n, x);
    var b, lost := Cleared(d, n), InOrder(d.open, n);
    assert b.open == {};
    if x in d.open {
      var k :| 0 <= k < |lost| && lost[k] == x;
      assert b.ended[|d.ended| + k] == x && b.outcomes[|d.ended| + k] == LostCompletion;
    } else {
      assert Listed(d.ended, x);
      var p :| 0 <= p < |d.ended| && d.ended[p] == x;
      assert b.ended[p] == x && b.outcomes[p] == d.outcomes[p];
    }
  }

  // Without a dropped submission nothing is lost.
  lemma NothingLost(w: Trace, x: nat)
    requires forall i :: 0 <= i < |w.verdicts| ==> !w.verdicts[i].Dropped?
    ensures !Swallowed(w, |w.turns|, x)
  {
  }

  lemma {:induction false} PlainOpen(w: Trace, n: nat)
    requires Goes(w, n) && !w.cuda
    ensures w.books[n].open == {} && w.books[n].queue == []
  {
    if n > 0 {
      assert GoesAt(w, n - 1);
      PlainOpen(w, n - 1);
    }
  }

  // A worker that does not pipeline has recorded every operation once, as its turn calls for.
  lemma PlainResult(w: Trace, x: nat)
    requires Goes(w, |w.turns|) && !w.cuda && x < |w.turns|
    ensures Recorded(w.books[|w.turns|], x, if Raises(w.turns[x].action) then Error else Success)
  {
    var n := |w.turns|;
    AfterOk(w, n);
    RunDue(w, n);
    PlainOpen(w, n);
    var b := w.books[n];
    assert Listed(b.ended, x);
    var p :| 0 <= p < |b.ended| && b.ended[p] == x;
    assert b.outcomes[p] == Due(w, x);
  }
}
