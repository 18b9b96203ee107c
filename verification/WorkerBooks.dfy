/** What the key-value benchmark worker keeps books of, as values: the copies in flight, the
    operations begun and not ended, and the results in the order they were recorded.  A worker's
    token for a pipelined GET is the operation's index. */
module WorkerBooks {
  import opened CudaQueue
  import opened CudaSections

  // What happens to one operation, as far as the worker's bookkeeping can tell.
  datatype Action =
    | Broken                      // choosing the key, the size or the kind raises
    | Put(raises: bool)
    | PlainGet(raises: bool)
    | CudaGet(holder: bool, source: int, size: int, io: SubmitIo)

  // One turn of the loop: whether another thread closes the pipeline before the poll at its top,
  // how many copies that poll finds finished, whether the pipeline is closed after it, and the
  // operation.
  datatype Turn = Turn(closeFirst: bool, ready: nat, closeThen: bool, action: Action)

  datatype Outcome = Success | Error | LostCompletion

  datatype Books = Books(queue: seq<nat>, open: set<nat>, begun: nat, ended: seq<nat>, outcomes: seq<Outcome>, closed: bool)

  const EMPTY := Books([], {}, 0, [], [], false)

  // The answer to a submission: the copy is in flight; it was declined and nothing happened; or it
  // was dropped on the way.
  datatype Verdict = Took | Declined | Dropped

  // ----- steps -------------------------------------------------------------------------------

  function Closing(b: Books, close: bool): Books {
    if close && !b.closed then b.(queue := [], closed := true) else b
  }

  // The oldest copy is finished.
  function One(b: Books): Books
    requires b.queue != []
  {
    var x := b.queue[0];
    b.(queue := b.queue[1..], open := b.open - {x}, ended := b.ended + [x], outcomes := b.outcomes + [Success])
  }

  // The m oldest copies are.
  function Delivered(b: Books, m: nat): (d: Books)
    requires m <= |b.queue|
    ensures d.queue == b.queue[m..] && d.begun == b.begun && d.closed == b.closed
  {
    if m == 0 then b else One(Delivered(b, m - 1))
  }

  function PolledOnce(b: Books, ready: nat): Books { Delivered(b, if ready < |b.queue| then ready else |b.queue|) }

  function AllDelivered(b: Books): Books { Delivered(b, |b.queue|) }

  // The operation under way ends with a result of its own.
  function Ended(b: Books, o: Outcome): Books {
    b.(begun := b.begun + 1, ended := b.ended + [b.begun], outcomes := b.outcomes + [o])
  }

  // A pipelined GET.  A copy that is taken waits for the oldest one if the queue is full; one that
  // is dropped may have thrown the oldest one's completion away.
  function Got(b: Books, depth: nat, v: Verdict): (g: Books)
    ensures g.begun == b.begun + 1 && g.closed == b.closed
  {
    var full := |b.queue| >= depth && b.queue != [];
    match v
    case Took =>
      var room := if full then One(b) else b;
      room.(queue := room.queue + [b.begun], open := room.open + {b.begun}, begun := b.begun + 1)
    case Declined => Ended(b, Error)
    case Dropped => Ended(if full then b.(queue := b.queue[1..]) else b, Error)
  }

  predicate Raises(a: Action) {
    match a
    case Broken => true
    case Put(raises) => raises
    case PlainGet(raises) => raises
    case CudaGet(holder, _, _, _) => !holder
  }

  // Any other operation; a put waits for all copies first, which raises on a closed pipeline.
  function Plain(b: Books, cuda: bool, a: Action): (p: Books)
    ensures p.begun == b.begun + 1 && p.closed == b.closed
  {
    var drains := cuda && a.Put?;
    Ended(if drains && !b.closed then AllDelivered(b) else b, if Raises(a) || (drains && b.closed) then Error else Success)
  }

  predicate Pipelined(cuda: bool, a: Action) { cuda && a.CudaGet? }

  // The members of a set below n, in order.
  function InOrder(s: set<nat>, n: nat): seq<nat> {
    if n == 0 then [] else InOrder(s, n - 1) + if n - 1 in s then [n - 1] else []
  }

  function Same(o: Outcome, n: nat): (s: seq<Outcome>)
    ensures |s| == n && forall i :: 0 <= i < n ==> s[i] == o
  {
    seq(n, _ => o)
  }

  // What is open below i has lost its completion, and ends.
  function Cleared(b: Books, i: nat): (c: Books)
    ensures c.queue == b.queue && c.begun == b.begun && c.closed == b.closed
  {
    if i == 0 then b
    else
      var c := Cleared(b, i - 1);
      if i - 1 !in b.open then c
      else c.(open := c.open - {i - 1}, ended := c.ended + [i - 1], outcomes := c.outcomes + [LostCompletion])
  }

  // The end of the run: what is still open after the last drain.
  function Reconciled(b: Books): Books { Cleared(AllDelivered(b), b.begun) }

  // ----- one turn and many -------------------------------------------------------------------------

  // `fails`: the poll has to set the thread's state up and cannot.
  predicate TurnRaises(b: Books, turn: Turn, cuda: bool, fails: bool) {
    cuda && (b.closed || turn.closeFirst || fails)
  }

  function AfterPoll(b: Books, turn: Turn, cuda: bool): (p: Books)
    ensures p.begun == b.begun && p.closed == (b.closed || (!cuda && turn.closeFirst) || turn.closeThen)
  {
    Closing(if cuda then PolledOnce(b, turn.ready) else Closing(b, turn.closeFirst), turn.closeThen)
  }

  function TurnTaken(b: Books, turn: Turn, v: Verdict, cuda: bool, depth: nat): (t: Books)
    ensures t.begun == b.begun + 1 && t.closed == AfterPoll(b, turn, cuda).closed
  {
    var p := AfterPoll(b, turn, cuda);
    if Pipelined(cuda, turn.action) then Got(p, depth, v) else Plain(p, cuda, turn.action)
  }

  // The verdicts a submission can have: declined exactly if there is nothing to submit or the
  // pipeline is closed, taken if all its calls succeed, not taken if its copy or a record fails.
  predicate Possible(v: Verdict, a: Action, closed: bool)
    requires a.CudaGet?
  {
    && (v.Declined? <==> !a.holder || a.source <= 0 || a.size <= 0 || closed)
    && (v.Dropped? ==> !(a.io.hostAlloc && a.io.deviceAlloc && a.io.recordStart && a.io.copy && a.io.recordDone))
    && (v.Took? ==> a.io.recordStart && a.io.copy && a.io.recordDone)
  }

  // A run of the loop: its turns, the verdicts of their submissions, and the books before each turn
  // and after the last one taken.
  datatype Trace = Trace(cuda: bool, depth: nat, turns: seq<Turn>, verdicts: seq<Verdict>, books: seq<Books>)

  // Turn i does not raise, its verdict is a possible one, and the books go on as it says.
  ghost predicate GoesAt(w: Trace, i: nat) {
    && i < |w.turns| && i < |w.verdicts| && i + 1 < |w.books|
    && !TurnRaises(w.books[i], w.turns[i], w.cuda, false)
    && (Pipelined(w.cuda, w.turns[i].action) ==>
          Possible(w.verdicts[i], w.turns[i].action, AfterPoll(w.books[i], w.turns[i], w.cuda).closed))
    && w.books[i + 1] == TurnTaken(w.books[i], w.turns[i], w.verdicts[i], w.cuda, w.depth)
  }

  // The first n turns are taken, from empty books.
  ghost predicate Goes(w: Trace, n: nat) {
    && n <= |w.turns| && n <= |w.verdicts| && n < |w.books| && w.depth > 0 && w.books[0] == EMPTY
    && forall i: nat :: i < n ==> GoesAt(w, i)
  }

  lemma GoesOn(w: Trace, n: nat, v: Verdict, b: Books)
    requires Goes(w, n) && n < |w.turns| && |w.verdicts| == n && |w.books| == n + 1
    requires !TurnRaises(w.books[n], w.turns[n], w.cuda, false)
    requires Pipelined(w.cuda, w.turns[n].action) ==>
               Possible(v, w.turns[n].action, AfterPoll(w.books[n], w.turns[n], w.cuda).closed)
    requires b == TurnTaken(w.books[n], w.turns[n], v, w.cuda, w.depth)
    ensures Goes(w.(verdicts := w.verdicts + [v], books := w.books + [b]), n + 1)
  {
    var w' := w.(verdicts := w.verdicts + [v], books := w.books + [b]);
    forall i: nat | i < n + 1
      ensures GoesAt(w', i)
    {
      assert i < n ==> GoesAt(w, i);
    }
  }

  // ----- accounts ----------------------------------------------------------------------------------

  // `log` names every operation below n exactly once, except those in `open`, which it does not name.
  ghost predicate Accounts(log: seq<nat>, n: nat, open: set<nat>) {
    && NoRepeats(log)
    && (forall i: nat :: Listed(log, i) <==> i < n && i !in open)
    && (forall i :: i in open ==> i < n)
  }

  ghost predicate AllOpen(tokens: seq<nat>, open: set<nat>) {
    NoRepeats(tokens) && forall k :: 0 <= k < |tokens| ==> tokens[k] in open
  }

  lemma ListedAppend(log: seq<nat>, x: nat, i: nat)
    ensures Listed(log + [x], i) <==> Listed(log, i) || i == x
  {
    if Listed(log, i) {
      var k :| 0 <= k < |log| && log[k] == i;
      assert (log + [x])[k] == i;
    }
    if i == x { assert (log + [x])[|log|] == i; }
  }

  lemma CloseOne(log: seq<nat>, n: nat, open: set<nat>, x: nat)
    requires Accounts(log, n, open) && x in open
    ensures Accounts(log + [x], n, open - {x})
  {
    assert !Listed(log, x);
    assert forall k :: 0 <= k < |log| ==> log[k] != x;
    forall i: nat
      ensures Listed(log + [x], i) <==> i < n && i !in open - {x}
    {
      ListedAppend(log, x, i);
    }
  }

  lemma OpenOne(log: seq<nat>, n: nat, open: set<nat>)
    requires Accounts(log, n, open)
    ensures Accounts(log, n + 1, open + {n})
  {
  }

  lemma {:induction false} AllAccounted(log: seq<nat>, n: nat, open: set<nat>)
    requires Accounts(log, n, open)
    ensures |log| + |open| == n
    decreases open
  {
    if open == {} {
      forall k | 0 <= k < |log|
        ensures log[k] < n
      {
        assert Listed(log, log[k]);
      }
      BoundedWithoutRepeats(log, n);
      CoveringIsLong(log, n);
    } else {
      var x :| x in open;
      CloseOne(log, n, open, x);
      AllAccounted(log + [x], n, open - {x});
    }
  }

  lemma PrefixOpen(done: seq<nat>, rest: seq<nat>, open: set<nat>)
    requires AllOpen(done + rest, open)
    ensures AllOpen(done, open)
  {
    assert forall k :: 0 <= k < |done| ==> (done + rest)[k] == done[k];
  }

  // A new token at the end of the queue.
  lemma JoinOpen(queue: seq<nat>, open: set<nat>, x: nat)
    requires AllOpen(queue, open) && x !in open
    ensures AllOpen(queue + [x], open + {x})
  {
  }

  // Every operation begun is ended or open, never both, and what is in flight is open.
  ghost predicate BooksOk(b: Books) {
    Accounts(b.ended, b.begun, b.open) && AllOpen(b.queue, b.open) && |b.outcomes| == |b.ended|
  }

  lemma Balance(b: Books)
    requires BooksOk(b)
    ensures |b.ended| + |b.open| == b.begun
  {
    AllAccounted(b.ended, b.begun, b.open);
  }

  lemma OneOk(b: Books)
    requires BooksOk(b) && b.queue != []
    ensures BooksOk(One(b))
  {
    CloseOne(b.ended, b.begun, b.open, b.queue[0]);
    assert forall k :: 0 <= k < |b.queue| - 1 ==> b.queue[1..][k] == b.queue[k + 1];
  }

  lemma {:induction false} DeliveredOk(b: Books, m: nat)
    requires BooksOk(b) && m <= |b.queue|
    ensures BooksOk(Delivered(b, m))
    decreases m
  {
    if m > 0 {
      DeliveredOk(b, m - 1);
      OneOk(Delivered(b, m - 1));
    }
  }

  // What a delivery does, all at once.
  lemma {:induction false} DeliveredIs(b: Books, m: nat)
    requires m <= |b.queue|
    ensures var d := Delivered(b, m);
            && d.ended == b.ended + b.queue[..m] && d.outcomes == b.outcomes + Same(Success, m)
            && (forall x :: x in d.open <==> x in b.open && x !in b.queue[..m])
    decreases m
  {
    if m > 0 {
      DeliveredIs(b, m - 1);
      assert b.queue[m - 1..][0] == b.queue[m - 1];
      assert b.queue[..m] == b.queue[..m - 1] + [b.queue[m - 1]];
      assert Same(Success, m) == Same(Success, m - 1) + [Success];
    }
  }

  lemma EndedOk(b: Books, o: Outcome)
    requires BooksOk(b)
    ensures BooksOk(Ended(b, o))
  {
    OpenOne(b.ended, b.begun, b.open);
    CloseOne(b.ended, b.begun + 1, b.open + {b.begun}, b.begun);
    assert b.open + {b.begun} - {b.begun} == b.open;
  }

  lemma ShorterOk(b: Books)
    requires BooksOk(b) && b.queue != []
    ensures BooksOk(b.(queue := b.queue[1..]))
  {
    assert forall k :: 0 <= k < |b.queue| - 1 ==> b.queue[1..][k] == b.queue[k + 1];
  }

  lemma GotOk(b: Books, depth: nat, v: Verdict)
    requires BooksOk(b)
    ensures BooksOk(Got(b, depth, v))
  {
    var full := |b.queue| >= depth && b.queue != [];
    match v
    case Took =>
      if full { OneOk(b); }
      var room := if full then One(b) else b;
      OpenOne(room.ended, room.begun, room.open);
      JoinOpen(room.queue, room.open, b.begun);
    case Declined => EndedOk(b, Error);
    case Dropped =>
      if full { ShorterOk(b); }
      EndedOk(if full then b.(queue := b.queue[1..]) else b, Error);
  }

  lemma PlainOk(b: Books, cuda: bool, a: Action)
    requires BooksOk(b)
    ensures BooksOk(Plain(b, cuda, a))
  {
    DeliveredOk(b, |b.queue|);
    EndedOk(b, Error);
    EndedOk(b, Success);
    EndedOk(AllDelivered(b), Error);
    EndedOk(AllDelivered(b), Success);
  }

  lemma {:induction false} ClearedOpen(b: Books, i: nat, x: nat)
    ensures x in Cleared(b, i).open <==> x in b.open && x >= i
  {
    if i > 0 { ClearedOpen(b, i - 1, x); }
  }

  lemma {:induction false} ClearedBooks(b: Books, i: nat)
    requires BooksOk(b) && b.queue == []
    ensures BooksOk(Cleared(b, i))
  {
    if i > 0 {
      ClearedBooks(b, i - 1);
      ClearedOpen(b, i - 1, i - 1);
      if i - 1 in b.open { CloseOne(Cleared(b, i - 1).ended, b.begun, Cleared(b, i - 1).open, i - 1); }
    }
  }

  lemma ClearedOk(b: Books, i: nat)
    requires BooksOk(b) && b.queue == []
    ensures BooksOk(Cleared(b, i)) && forall x :: x in Cleared(b, i).open <==> x in b.open && x >= i
  {
    ClearedBooks(b, i);
    forall x: nat
      ensures x in Cleared(b, i).open <==> x in b.open && x >= i
    {
      ClearedOpen(b, i, x);
    }
  }

  // What it does, all at once.
  lemma {:induction false} ClearedIs(b: Books, i: nat)
    ensures var c, lost := Cleared(b, i), InOrder(b.open, i);
            c.ended == b.ended + lost && c.outcomes == b.outcomes + Same(LostCompletion, |lost|)
  {
    if i > 0 {
      ClearedIs(b, i - 1);
      var n := |InOrder(b.open, i - 1)|;
      assert Same(LostCompletion, n + 1) == Same(LostCompletion, n) + [LostCompletion];
    }
  }
}
