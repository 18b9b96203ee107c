/** The key-value benchmark worker on top of the copy pipeline.  What its loop does to the
    operations begun, ended and recorded is what the books say. */
module KvWorker {
  import opened Wrappers
  import opened CudaQueue
  import opened CudaSections
  import opened CudaPipeline
  import opened WorkerBooks

  // The poll at the top of turn n, or the one after the last turn, finds the pipeline closed.
  predicate Stops(turns: seq<Turn>, n: nat) {
    (n < |turns| && turns[n].closeFirst) || (0 < n <= |turns| && turns[n - 1].closeThen)
  }

  class Worker {
    const pipe: Pipeline<nat>
    const thread: nat
    const cuda: bool
    var outstanding: set<nat>
    var opIdx: nat
    var inflight: int
    var ended: seq<nat>         // operations whose in-flight count was taken back, in order
    var recorded: seq<nat>      // operations with a recorded or warm-up result, in order
    var outcomes: seq<Outcome>  // and their results

    constructor (pipe: Pipeline<nat>, thread: nat, cuda: bool, inflight: int)
      ensures this.pipe == pipe && this.thread == thread && this.cuda == cuda && this.inflight == inflight
      ensures outstanding == {} && opIdx == 0 && ended == [] && recorded == [] && outcomes == []
    {
      this.pipe, this.thread, this.cuda, this.inflight := pipe, thread, cuda, inflight;
      outstanding, opIdx, ended, recorded, outcomes := {}, 0, [], [], [];
    }

    ghost function View(): Books
      requires pipe.Valid()
      reads this, pipe
    {
      Books(pipe.Queue(thread), outstanding, opIdx, ended, outcomes, pipe.closed)
    }

    ghost predicate Inv()
      reads this, pipe
    {
      pipe.Valid() && ended == recorded && BooksOk(View()) && (!cuda ==> outstanding == {})
    }

    // Operation `i` ends and gets its result.
    method End(i: nat, o: Outcome)
      modifies this`inflight, this`ended, this`recorded, this`outcomes
      ensures inflight == old(inflight) - 1 && ended == old(ended) + [i] && recorded == old(recorded) + [i]
      ensures outcomes == old(outcomes) + [o]
    {
      inflight := inflight - 1;
      ended := ended + [i];
      recorded := recorded + [i];
      outcomes := outcomes + [o];
    }

    // _consume_cuda_completions; it raises on a token that is not outstanding.
    method Consume(tokens: seq<nat>, o: Outcome) returns (raised: bool)
      requires ended == recorded
      modifies this`outstanding, this`inflight, this`ended, this`recorded, this`outcomes
      ensures raised <==> !AllOpen(tokens, old(outstanding))
      ensures ended == recorded && inflight + |ended| == old(inflight + |ended|)
      ensures !raised ==> ended == old(ended) + tokens && outcomes == old(outcomes) + Same(o, |tokens|)
      ensures !raised ==> forall x :: x in outstanding <==> x in old(outstanding) && x !in tokens
    {
      var n := 0;
      while n < |tokens|
        invariant 0 <= n <= |tokens| && AllOpen(tokens[..n], old(outstanding)) && ended == recorded
        invariant ended == old(ended) + tokens[..n] && outcomes == old(outcomes) + Same(o, n)
        invariant inflight + |ended| == old(inflight + |ended|)
        invariant forall x :: x in outstanding <==> x in old(outstanding) && x !in tokens[..n]
      {
        var x := tokens[n];
        assert tokens[..n + 1] == tokens[..n] + [x];
        if x !in outstanding {
          NotOpen(tokens, n, old(outstanding));
          return true;
        }
        assert forall k :: 0 <= k < n ==> tokens[..n][k] != x;
        assert Same(o, n + 1) == Same(o, n) + [o];
        outstanding := outstanding - {x};
        End(x, o);
        n := n + 1;
      }
      assert tokens[..n] == tokens;
      raised := false;
    }

    // The thread has its state, unless the pipeline is closed.
    ghost predicate Attached()
      reads this, pipe
    {
      pipe.closed || thread in pipe.states
    }

    // The next poll has to set the thread's state up, and its creation call number `setup` fails.
    ghost predicate SetupFails(setup: Option<nat>)
      reads this, pipe
    {
      thread !in pipe.states && setup.Some? && setup.value < 3 * pipe.depth
    }

    // Another thread closes the pipeline, or does not.
    method Meanwhile(close: bool)
      requires Inv()
      modifies pipe
      ensures Inv() && View() == Closing(old(View()), close)
      ensures !close ==> pipe.states == old(pipe.states)
    {
      if close { pipe.Close(); }
    }

    // The poll at the top of the loop: the copies that are ready end as successes.  On a closed
    // pipeline, and if the setup fails, it raises, and nothing is done.
    method PollCopies(ready: nat, setup: Option<nat>) returns (raised: bool)
      requires Inv() && cuda
      modifies this, pipe
      ensures Inv() && inflight + |ended| == old(inflight + |ended|)
      ensures raised <==> old(pipe.closed || SetupFails(setup))
      ensures if raised then View() == old(View()) else View() == PolledOnce(old(View()), ready) && Attached()
    {
      ghost var b := View();
      var found, done := pipe.Poll(thread, ready, setup);
      Cut(done, pipe.Queue(thread), b.queue);
      if !found.Ready? { return true; }
      raised := Deliver(done, b);
    }

    // Finished copies that have left the pipeline are consumed.
    method Deliver(done: seq<nat>, ghost b: Books) returns (raised: bool)
      requires pipe.Valid() && ended == recorded && BooksOk(b) && |done| <= |b.queue| && done == b.queue[..|done|]
      requires View() == b.(queue := b.queue[|done|..]) && (!cuda ==> outstanding == {})
      modifies this
      ensures Inv() && View() == Delivered(b, |done|) && inflight + |ended| == old(inflight + |ended|)
      ensures !raised
    {
      FrontOpen(b.queue, |done|, b.open);
      DeliveredOk(b, |done|);
      DeliveredIs(b, |done|);
      raised := Consume(done, Success);
      assert outstanding == Delivered(b, |done|).open;
    }

    // The drain before an operation that is not a GET, and the one at the end.  A poll has set the
    // thread's state up.
    method DrainCopies() returns (raised: bool)
      requires Inv() && cuda && Attached()
      modifies this, pipe
      ensures Inv() && inflight + |ended| == old(inflight + |ended|) && Attached()
      ensures raised <==> old(pipe.closed)
      ensures View() == if raised then old(View()) else AllDelivered(old(View()))
    {
      ghost var b := View();
      var found, done := pipe.Drain(thread, None);
      if !found.Ready? { return true; }
      assert b.queue[..|done|] == done && b.queue[|done|..] == [];
      raised := Deliver(done, b);
    }

    // submit_cuda_get: the copies completed on the way, or a completion of its own token if anything
    // raised.
    method Ask(a: Action) returns (completions: seq<nat>, o: Outcome, ghost v: Verdict)
      requires pipe.Valid() && a.CudaGet? && Attached()
      modifies pipe
      ensures pipe.Valid() && Attached() && pipe.closed == old(pipe.closed) && Possible(v, a, pipe.closed)
      ensures o == if v.Took? then Success else Error
      ensures |old(pipe.Queue(thread))| <= pipe.depth
      ensures AnswerLeaves(old(pipe.Queue(thread)), pipe.depth, opIdx, v, completions, pipe.Queue(thread))
    {
      QueueFits(pipe, thread);
      completions, o, v := [opIdx], Error, Declined;
      if a.holder {
        var r := pipe.Submit(thread, a.source, a.size, opIdx, a.io, None);
        if r.Accepted? { completions, o := r.completed, Success; }
        v := if r.Accepted? then Took else if r.Refused? then Declined else Dropped;
      }
    }

    // A pipelined GET.
    method PipelinedGet(a: Action) returns (ghost v: Verdict)
      requires Inv() && cuda && a.CudaGet? && Attached()
      modifies this, pipe
      ensures Inv() && inflight + |ended| == old(inflight + |ended|) + 1 && Attached()
      ensures View() == Got(old(View()), pipe.depth, v) && Possible(v, a, old(pipe.closed))
    {
      ghost var b := View();
      inflight := inflight + 1;
      outstanding := outstanding + {opIdx};
      var completions, o;
      completions, o, v := Ask(a);
      Settle(completions, o, b, v);
    }

    // The answer to a submission is consumed.
    method Settle(completions: seq<nat>, o: Outcome, ghost b: Books, ghost v: Verdict)
      requires pipe.Valid() && ended == recorded && cuda && BooksOk(b) && |b.queue| <= pipe.depth
      requires View() == b.(queue := pipe.Queue(thread), open := b.open + {b.begun})
      requires o == (if v.Took? then Success else Error)
      requires AnswerLeaves(b.queue, pipe.depth, b.begun, v, completions, pipe.Queue(thread))
      modifies this
      ensures Inv() && View() == Got(b, pipe.depth, v) && inflight + |ended| == old(inflight + |ended|)
    {
      GotOk(b, pipe.depth, v);
      SubmitOpen(b, pipe.depth, v, completions, pipe.Queue(thread));
      var raised := Consume(completions, o);
      assert !raised;
      opIdx := opIdx + 1;
      assert outstanding == Got(b, pipe.depth, v).open;
    }

    // Any other operation ends in the turn it began in, whether it, or the drain before it, raises
    // or not.
    method PlainOperation(a: Action)
      requires Inv() && !Pipelined(cuda, a) && (cuda ==> Attached())
      modifies this, pipe
      ensures Inv() && inflight + |ended| == old(inflight + |ended|) + 1 && (cuda ==> Attached())
      ensures View() == Plain(old(View()), cuda, a)
    {
      ghost var b := View();
      PlainOk(b, cuda, a);
      inflight := inflight + 1;
      var failed := Raises(a);
      if cuda && a.Put? {
        var raised := DrainCopies();
        failed := failed || raised;
      }
      End(opIdx, if failed then Error else Success);
      opIdx := opIdx + 1;
    }

    // The end of the run: whatever is still outstanding has lost its completion, and is ended with
    // an error, lowest index first; but if the pipeline is closed the drain before that raises.
    method Reconcile() returns (raised: bool)
      requires Inv() && cuda && Attached()
      modifies this, pipe
      ensures Inv() && inflight + |ended| == old(inflight + |ended|)
      ensures raised <==> old(pipe.closed)
      ensures View() == if raised then old(View()) else Reconciled(old(View()))
    {
      raised := DrainCopies();
      if raised { return; }
      EndLost();
    }

    method EndLost()
      requires Inv() && pipe.Queue(thread) == []
      modifies this
      ensures Inv() && inflight + |ended| == old(inflight + |ended|)
      ensures View() == Cleared(old(View()), old(opIdx))
    {
      ghost var d := View();
      var i := 0;
      while i < opIdx
        invariant 0 <= i <= opIdx == d.begun && Inv() && View() == Cleared(d, i)
        invariant inflight + |ended| == old(inflight + |ended|)
      {
        EndIfLost(i, d);
        i := i + 1;
      }
    }

    method EndIfLost(i: nat, ghost d: Books)
      requires Inv() && BooksOk(d) && d.queue == [] && View() == Cleared(d, i)
      modifies this`outstanding, this`inflight, this`ended, this`recorded, this`outcomes
      ensures Inv() && View() == Cleared(d, i + 1) && inflight + |ended| == old(inflight + |ended|)
    {
      ClearedOk(d, i);
      ClearedOk(d, i + 1);
      if i in outstanding {
        outstanding := outstanding - {i};
        End(i, LostCompletion);
      }
    }

    // One turn of the loop; only its poll raises.
    method TakeTurn(turn: Turn, setup: Option<nat>) returns (raised: bool, ghost v: Verdict)
      requires Inv()
      modifies this, pipe
      ensures Inv() && raised == TurnRaises(old(View()), turn, cuda, old(SetupFails(setup)))
      ensures inflight + |ended| == old(inflight + |ended|) + (if raised then 0 else 1)
      ensures raised ==> View() == Closing(old(View()), turn.closeFirst)
      ensures !raised ==> View() == TurnTaken(old(View()), turn, v, cuda, pipe.depth) && (cuda ==> Attached())
      ensures !raised && Pipelined(cuda, turn.action) ==>
                Possible(v, turn.action, AfterPoll(old(View()), turn, cuda).closed)
    {
      Meanwhile(turn.closeFirst);
      v := Declined;
      if cuda {
        raised := PollCopies(turn.ready, setup);
        if raised { return; }
      }
      Meanwhile(turn.closeThen);
      if cuda && turn.action.CudaGet? {
        v := PipelinedGet(turn.action);
      } else {
        PlainOperation(turn.action);
      }
      raised := false;
    }

    // After the last turn.
    method Finish(ready: nat, closeFirst: bool, closeThen: bool, setup: Option<nat>) returns (raised: bool)
      requires Inv() && cuda
      modifies this, pipe
      ensures Inv() && inflight + |ended| == old(inflight + |ended|)
      ensures raised <==> old(pipe.closed || SetupFails(setup)) || closeFirst || closeThen
      ensures !raised ==> View() == Reconciled(PolledOnce(old(View()), ready))
      ensures raised ==> View() == if old(pipe.closed || SetupFails(setup)) || closeFirst
                                   then Closing(old(View()), closeFirst)
                                   else Closing(PolledOnce(old(View()), ready), closeThen)
    {
      Meanwhile(closeFirst);
      raised := PollCopies(ready, setup);
      if raised { return; }
      Meanwhile(closeThen);
      raised := Reconcile();
    }

    // The worker is where the trace has come to.
    ghost predicate At(w: Trace, turns: seq<Turn>)
      reads this, pipe
    {
      && Inv() && w.cuda == cuda && w.depth == pipe.depth && w.turns == turns
      && |w.verdicts| == opIdx && |w.books| == opIdx + 1 && Goes(w, opIdx)
    }

    // One turn of the loop, and one step of the trace.
    method NextTurn(turns: seq<Turn>, setup: Option<nat>, ghost w: Trace) returns (raised: bool, ghost w': Trace)
      requires At(w, turns) && opIdx < |turns| && View() == w.books[opIdx]
      modifies this, pipe
      ensures At(w', turns) && raised == TurnRaises(w.books[old(opIdx)], turns[old(opIdx)], cuda, old(SetupFails(setup)))
      ensures raised ==> w' == w && View() == Closing(w.books[opIdx], turns[opIdx].closeFirst)
      ensures !raised ==> opIdx == old(opIdx) + 1 && View() == w'.books[opIdx] && (cuda ==> Attached())
      ensures inflight + |ended| == old(inflight + |ended|) + (if raised then 0 else 1)
    {
      ghost var v;
      raised, v := TakeTurn(turns[opIdx], setup);
      w' := if raised then w else w.(verdicts := w.verdicts + [v], books := w.books + [View()]);
      if !raised { GoesOn(w, opIdx - 1, v, View()); }
    }

    // The loop: any number of turns, until one raises.
    method Loop(turns: seq<Turn>, setup: Option<nat>) returns (raised: bool, ghost w: Trace)
      requires Inv() && View() == EMPTY
      modifies this, pipe
      ensures At(w, turns) && inflight + |ended| == old(inflight) + opIdx
      ensures !raised ==> opIdx == |turns| && View() == w.books[opIdx]
      ensures raised ==> opIdx < |turns| && View() == Closing(w.books[opIdx], turns[opIdx].closeFirst)
      ensures raised ==> TurnRaises(w.books[opIdx], turns[opIdx], cuda, opIdx == 0 && old(SetupFails(setup)))
      ensures opIdx > 0 && cuda ==> !old(SetupFails(setup))
      ensures if opIdx == 0 && !raised then pipe.states == old(pipe.states) else !raised && cuda ==> Attached()
    {
      w := Trace(cuda, pipe.depth, turns, [], [EMPTY]);
      while opIdx < |turns|
        invariant opIdx <= |turns| && At(w, turns) && View() == w.books[opIdx] && inflight + |ended| == old(inflight) + opIdx
        invariant if opIdx == 0 then pipe.states == old(pipe.states) else cuda ==> Attached() && !old(SetupFails(setup))
        decreases |turns| - opIdx
      {
        raised, w := NextTurn(turns, setup, w);
        if raised { return; }
      }
      raised := false;
    }

    // run_kv_worker: the loop, the last poll before it is left, and the end.  The books at the end
    // are those of the turns taken, and the in-flight count is off by exactly what is still
    // outstanding.  It raises if and only if it uses the pipeline and cannot set its state up, or
    // the pipeline is closed before the last drain.
    method Run(turns: seq<Turn>, lastReady: nat, closeFirst: bool, closeThen: bool, setup: Option<nat>)
      returns (raised: bool, ghost w: Trace)
      requires pipe.Valid() && !pipe.closed && pipe.Queue(thread) == []
      requires outstanding == {} && opIdx == 0 && ended == [] && recorded == [] && outcomes == []
      modifies this, pipe
      ensures At(w, turns) && inflight == old(inflight) + |outstanding| && |recorded| + |outstanding| == opIdx
      ensures raised <==> cuda && (old(SetupFails(setup)) || closeFirst || closeThen || Stopped(turns))
      ensures !raised ==> opIdx == |turns|
      ensures !raised ==> View() == if cuda then Reconciled(PolledOnce(w.books[opIdx], lastReady)) else w.books[opIdx]
      ensures raised && opIdx < |turns| ==> View() == Closing(w.books[opIdx], turns[opIdx].closeFirst)
      ensures raised && old(SetupFails(setup)) ==> opIdx == 0 && outstanding == {} && inflight == old(inflight)
      ensures raised && !old(SetupFails(setup)) ==> opIdx == |turns| || Stops(turns, opIdx)
      ensures raised ==> NoStop(turns, opIdx)
    {
      raised, w := Loop(turns, setup);
      if cuda {
        StopsAt(w, opIdx);
        if !raised {
          raised := Finish(lastReady, closeFirst, closeThen, setup);
        }
      }
      Balance(View());
    }
  }

  // ----- lemmas for the methods ---------------------------------------------------------------------

  lemma NotOpen(tokens: seq<nat>, n: nat, open: set<nat>)
    requires n < |tokens| && (tokens[n] !in open || tokens[n] in tokens[..n])
    ensures !AllOpen(tokens, open)
  {
    if tokens[n] in tokens[..n] {
      var k :| 0 <= k < n && tokens[..n][k] == tokens[n];
      assert tokens[k] == tokens[n];
    }
  }

  lemma Cut(done: seq<nat>, rest: seq<nat>, all: seq<nat>)
    requires done + rest == all
    ensures |done| <= |all| && all[..|done|] == done && all[|done|..] == rest
  {
  }

  lemma FrontOpen(queue: seq<nat>, m: nat, open: set<nat>)
    requires AllOpen(queue, open) && m <= |queue|
    ensures AllOpen(queue[..m], open)
  {
    assert queue == queue[..m] + queue[m..];
    PrefixOpen(queue[..m], queue[m..], open);
  }

  lemma QueueFits(pipe: Pipeline<nat>, t: nat)
    requires pipe.Valid()
    ensures |pipe.Queue(t)| <= pipe.depth
  {
    if t in pipe.states { QueueIsBounded(pipe.states[t]); }
  }

  // What a submission answers and leaves in the queue.
  ghost predicate AnswerLeaves(before: seq<nat>, depth: nat, x: nat, v: Verdict, completions: seq<nat>, queue: seq<nat>) {
    match v
    case Took => completions + queue == before + [x] && |completions| == if |before| == depth then 1 else 0
    case Declined => completions == [x] && queue == before
    case Dropped => completions == [x] && queue == if |before| == depth > 0 then before[1..] else before
  }

  // Its completions are outstanding.
  lemma SubmitOpen(b: Books, depth: nat, v: Verdict, completions: seq<nat>, queue: seq<nat>)
    requires BooksOk(b) && depth > 0 && |b.queue| <= depth && AnswerLeaves(b.queue, depth, b.begun, v, completions, queue)
    ensures AllOpen(completions, b.open + {b.begun})
    ensures queue == Got(b, depth, v).queue && b.ended + completions == Got(b, depth, v).ended
    ensures forall x :: x in Got(b, depth, v).open <==> x in b.open + {b.begun} && x !in completions
    ensures Got(b, depth, v).outcomes == b.outcomes + Same(if v.Took? then Success else Error, |completions|)
  {
    if v.Took? && |completions| == 1 {
      assert completions[0] == (b.queue + [b.begun])[0] == b.queue[0];
      assert queue == (completions + queue)[1..] == b.queue[1..] + [b.begun];
    } else if v.Took? {
      assert completions == [] && queue == b.queue + [b.begun];
    }
    assert completions != [] ==> Same(if v.Took? then Success else Error, 1) == [if v.Took? then Success else Error];
  }

  // Some poll of the run finds the pipeline closed.
  ghost predicate Stopped(turns: seq<Turn>) { exists n :: 0 <= n <= |turns| && Stops(turns, n) }

  ghost predicate NoStop(turns: seq<Turn>, n: nat) { forall m :: 0 <= m < n ==> !Stops(turns, m) }

  lemma TurnStops(b: Books, turns: seq<Turn>, n: nat, v: Verdict, depth: nat)
    requires n < |turns| && (b.closed <==> n > 0 && turns[n - 1].closeThen) && !TurnRaises(b, turns[n], true, false)
    ensures !Stops(turns, n) && (TurnTaken(b, turns[n], v, true, depth).closed <==> turns[n].closeThen)
  {
  }

  // While the worker goes on, the pipeline is closed at most since the turn before.
  lemma {:induction false} GoesStops(w: Trace, n: nat)
    requires Goes(w, n) && w.cuda
    ensures NoStop(w.turns, n) && (w.books[n].closed <==> n > 0 && w.turns[n - 1].closeThen)
  {
    if n > 0 {
      assert GoesAt(w, n - 1);
      GoesStops(w, n - 1);
      TurnStops(w.books[n - 1], w.turns, n - 1, w.verdicts[n - 1], w.depth);
    }
  }

  lemma StopsAt(w: Trace, n: nat)
    requires Goes(w, n) && w.cuda
    ensures NoStop(w.turns, n) && (Stops(w.turns, n) ==> Stopped(w.turns))
    ensures n < |w.turns| ==> (Stops(w.turns, n) <==> w.books[n].closed || w.turns[n].closeFirst)
    ensures n == |w.turns| ==> (Stopped(w.turns) <==> w.books[n].closed)
  {
    GoesStops(w, n);
    if n == |w.turns| && Stopped(w.turns) {
      var m :| 0 <= m <= n && Stops(w.turns, m);
    }
  }
}
