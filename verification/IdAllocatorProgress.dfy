/** Progress of the id allocator: exactly when a caller that runs alone gets its
    ids, and why it always does if all callers use one block size. */
module IdAllocatorProgress {
  import opened Wrappers
  import opened Decimal
  import opened IdAllocator

  // ----- the retry loop ------------------------------------------------------------

  // allocate_range as one caller sees it.  `first` is the value it read; `seen[j]` is what
  // the key holds at the instant of its j-th transaction.  It wins at the first instant at
  // which the key holds its own start value plus j blocks.
  method AllocateRange(count: int, first: Option<string>, seen: seq<Option<string>>) returns (answer: Answer, tries: nat)
    requires IsNumber(first) && |seen| == MAX_RETRIES
    ensures answer.BadCount? <==> count <= 0
    ensures count > 0 && tries < MAX_RETRIES ==>
              seen[tries] == Guess(first, count, tries)
              && answer == Ids(Val(first) + tries * count + 1, Val(first) + tries * count + count)
    ensures count > 0 && tries == MAX_RETRIES ==> answer == Exhausted
    ensures tries <= MAX_RETRIES
    ensures count > 0 ==> forall j :: 0 <= j < tries ==> seen[j] != Guess(first, count, j)
  {
    tries := 0;
    if count <= 0 { return BadCount, 0; }
    var guess := first;
    while tries < MAX_RETRIES
      invariant tries <= MAX_RETRIES
      invariant IsNumber(guess) && guess == Guess(first, count, tries)
      invariant Val(guess) == Ahead(Val(first), count, tries)
      invariant forall j :: 0 <= j < tries ==> seen[j] != Guess(first, count, j)
    {
      var start, end := Val(guess) + 1, Val(guess) + count;
      if seen[tries] == guess {
        AheadIs(Val(first), count, tries);
        return Ids(start, end), tries;
      }
      StrIsNumber(end);
      guess := Some(Str(end));
      tries := tries + 1;
    }
    answer := Exhausted;
  }

  // ----- one caller running alone -----------------------------------------------------

  predicate Ready(s: State, c: nat) {
    && IsNumber(s.counter) && c in s.clients && s.clients[c].phase.Trying?
    && s.clients[c].count > 0 && IsNumber(s.clients[c].guess)
  }

  // The j-th guess from now is what the key holds.
  predicate Hits(s: State, c: nat, j: nat)
    requires Ready(s, c)
  {
    s.counter == Guess(s.clients[c].guess, s.clients[c].count, j)
  }

  function Alone(c: nat, n: nat): seq<Event> { seq(n, _ => Step(c, Ok)) }

  function AloneRun(s: State, c: nat, n: nat): State {
    if n == 0 then s else Apply(AloneRun(s, c, n - 1), Step(c, Ok))
  }

  lemma {:induction false} AloneIsARun(s: State, es: seq<Event>, c: nat, n: nat)
    ensures AloneRun(Run(s, es), c, n) == Run(s, es + Alone(c, n))
  {
    if n == 0 {
      assert es + Alone(c, 0) == es;
    } else {
      AloneIsARun(s, es, c, n - 1);
      assert (es + Alone(c, n))[..|es| + n - 1] == es + Alone(c, n - 1);
    }
  }

  predicate Served(s: State, c: nat) {
    c in s.clients && s.clients[c].phase.Finished? && s.clients[c].phase.answer.Ids?
  }

  lemma NextGuess(guess: Option<string>, count: int, n: nat)
    requires count > 0 && IsNumber(guess)
    ensures IsNumber(Guess(guess, count, n)) && Val(Guess(guess, count, n)) == Ahead(Val(guess), count, n)
    ensures Guess(guess, count, n + 1) == Some(Str(Val(Guess(guess, count, n)) + count))
  {
    if n > 0 { StrIsNumber(Ahead(Val(guess), count, n)); }
  }

  // The caller after n misses.
  function Missed(s: State, c: nat, n: nat): State
    requires Ready(s, c)
  {
    var k := s.clients[c];
    s.(clients := s.clients[c := k.(guess := Guess(k.guess, k.count, n), tries := k.tries + n)])
  }

  lemma MissStep(s: State, c: nat, n: nat)
    requires Ready(s, c) && !Hits(s, c, n)
    ensures var k := s.clients[c];
            Apply(Missed(s, c, n), Step(c, Ok)) ==
            if k.tries + n + 1 < MAX_RETRIES then Missed(s, c, n + 1)
            else s.(clients := s.clients[c := k.(guess := Guess(k.guess, k.count, n + 1), tries := k.tries + n + 1,
                                                phase := Finished(Exhausted))])
  {
    NextGuess(s.clients[c].guess, s.clients[c].count, n);
    var p, q := Missed(s, c, n), Apply(Missed(s, c, n), Step(c, Ok));
    assert p.clients[c := q.clients[c]] == s.clients[c := q.clients[c]];
  }

  // The next n guesses miss, and there are more tries than that.
  ghost predicate Misses(s: State, c: nat, n: nat) {
    Ready(s, c) && s.clients[c].tries + n < MAX_RETRIES && forall j :: 0 <= j < n ==> !Hits(s, c, j)
  }

  // As long as no guess hits, the caller only moves on to its next guess.
  lemma {:induction false} AloneMisses(s: State, c: nat, n: nat)
    requires Misses(s, c, n)
    ensures AloneRun(s, c, n) == Missed(s, c, n)
    decreases n, 1
  {
    if n == 0 { NoneMissed(s, c); } else { OneMissed(s, c, n); }
  }

  lemma OneMissed(s: State, c: nat, n: nat)
    requires n > 0 && Misses(s, c, n)
    ensures AloneRun(s, c, n) == Missed(s, c, n)
    decreases n, 0
  {
    AloneMisses(s, c, n - 1);
    MissStep(s, c, n - 1);
  }

  lemma NoneMissed(s: State, c: nat)
    requires Ready(s, c)
    ensures Missed(s, c, 0) == s
  {
    assert s.clients[c := s.clients[c]] == s.clients;
  }

  lemma {:induction false} FinishedStays(s: State, c: nat, m: nat, n: nat)
    requires m <= n && c in AloneRun(s, c, m).clients && AloneRun(s, c, m).clients[c].phase.Finished?
    ensures AloneRun(s, c, n) == AloneRun(s, c, m)
  {
    if m < n { FinishedStays(s, c, m, n - 1); }
  }

  lemma {:induction false} AloneHits(s: State, c: nat, i: nat)
    requires Ready(s, c) && s.clients[c].tries + i < MAX_RETRIES
    requires Hits(s, c, i) && forall j :: 0 <= j < i ==> !Hits(s, c, j)
    ensures Served(AloneRun(s, c, i + 1), c)
  {
    AloneMisses(s, c, i);
    NextGuess(s.clients[c].guess, s.clients[c].count, i);
  }

  // The tries a caller has left.
  function Left(s: State, c: nat): int
    requires Ready(s, c)
  {
    MAX_RETRIES - s.clients[c].tries
  }

  lemma AloneExhausts(s: State, c: nat, n: nat)
    requires Ready(s, c) && Left(s, c) > 0 && forall j :: 0 <= j < n && j < Left(s, c) ==> !Hits(s, c, j)
    ensures !Served(AloneRun(s, c, n), c)
  {
    var m := Left(s, c);
    if n < m {
      AloneMisses(s, c, n);
    } else {
      AloneMisses(s, c, m - 1);
      MissStep(s, c, m - 1);
      FinishedStays(s, c, m, n);
    }
  }

  // Running alone for n transactions, a caller is served if and only if one of its next n
  // guesses, as far as its tries go, is what the key holds.
  lemma {:induction false} ServedIffSomeGuessHits(s: State, c: nat, n: nat)
    requires Ready(s, c) && Left(s, c) > 0
    ensures Served(AloneRun(s, c, n), c) <==> exists j :: 0 <= j < n && j < Left(s, c) && Hits(s, c, j)
  {
    if j :| 0 <= j < n && j < Left(s, c) && Hits(s, c, j) {
      var i := FirstHit(s, c, j);
      AloneHits(s, c, i);
      FinishedStays(s, c, i + 1, n);
    } else {
      AloneExhausts(s, c, n);
    }
  }

  lemma {:induction false} FirstHit(s: State, c: nat, j: nat) returns (i: nat)
    requires Ready(s, c) && Hits(s, c, j)
    ensures i <= j && Hits(s, c, i) && forall h :: 0 <= h < i ==> !Hits(s, c, h)
  {
    i := 0;
    while !Hits(s, c, i)
      invariant i <= j && forall h :: 0 <= h < i ==> !Hits(s, c, h)
      decreases j - i
    {
      i := i + 1;
    }
  }

  // Which guesses hit, in numbers.
  lemma HitInNumbers(s: State, c: nat, j: nat)
    requires Ready(s, c)
    ensures var k := s.clients[c];
            Hits(s, c, j) <==> Val(s.counter) == Val(k.guess) + j * k.count
                               && (if j == 0 then s.counter.None? == k.guess.None? else s.counter.Some?)
  {
    var k := s.clients[c];
    AheadIs(Val(k.guess), k.count, j);
    NextGuess(k.guess, k.count, j);
  }

  // ----- one block size for everybody ---------------------------------------------------

  // A distance of whole blocks.
  predicate Whole(d: int, b: int)
    requires b > 0
  {
    d == 0 || (d >= b && Whole(d - b, b))
  }

  // The guess is some number of whole blocks behind the counter.
  predicate Behind(counter: Option<string>, k: Client, b: int)
    requires b > 0
  {
    && k.count == b
    && (k.phase.Trying? ==>
          && Whole(Val(counter) - Val(k.guess), b)
          && (k.guess.Some? ==> counter.Some?)
          && (k.guess.None? && counter.Some? ==> Val(counter) > 0))
  }

  ghost predicate AllBehind(s: State, b: int)
    requires b > 0
  {
    forall c :: c in s.clients ==> Behind(s.counter, s.clients[c], b)
  }

  ghost predicate Uniform(es: seq<Event>, b: int) {
    forall i :: 0 <= i < |es| && es[i].Begin? ==> es[i].count == b
  }

  lemma {:induction false} BlockAdded(d: int, b: int)
    requires b > 0 && Whole(d, b)
    ensures Whole(d + b, b)
  {
  }

  lemma {:induction false} WholeIsMultiple(d: int, b: int) returns (j: nat)
    requires b > 0 && Whole(d, b)
    ensures d == j * b
  {
    if d == 0 {
      j := 0;
    } else {
      j := WholeIsMultiple(d - b, b);
      j := j + 1;
    }
  }

  // The counter goes one block on.
  lemma ForwardBehind(counter: Option<string>, counter': Option<string>, k: Client, b: int)
    requires b > 0 && Behind(counter, k, b) && counter'.Some? && Val(counter') == Val(counter) + b > 0
    ensures Behind(counter', k, b)
  {
    if k.phase.Trying? { BlockAdded(Val(counter) - Val(k.guess), b); }
  }

  lemma TryBehind(s: State, c: nat, r: Reply, b: int)
    requires b > 0 && Ready(s, c) && AllBehind(s, b)
    ensures AllBehind(Try(s, c, s.clients[c], r), b)
  {
    var k := s.clients[c];
    var t := Try(s, c, k, r);
    assert Behind(s.counter, k, b);
    StrIsNumber(Val(k.guess) + b);
    if t.counter != s.counter {
      forall d | d in t.clients
        ensures Behind(t.counter, t.clients[d], b)
      {
        assert Behind(s.counter, s.clients[d], b);
        ForwardBehind(s.counter, t.counter, s.clients[d], b);
      }
    } else {
      if r.Ok? && s.counter != k.guess { assert Val(s.counter) > Val(k.guess); }
      assert Behind(t.counter, t.clients[c], b);
      assert forall d :: d in t.clients && d != c ==> t.clients[d] == s.clients[d];
    }
  }

  lemma SmallerFactor(j: nat, n: nat, b: int)
    requires b > 0 && n * b > j * b
    ensures n > j
  {
  }

  // Whatever the others do, no guess overtakes the counter.
  lemma {:induction false} GuessStaysBehind(s: State, es: seq<Event>, b: int)
    requires Init(s) && b > 0 && Uniform(es, b)
    ensures AllBehind(Run(s, es), b)
  {
    if es != [] {
      var before, e := es[..|es| - 1], es[|es| - 1];
      assert forall i :: 0 <= i < |before| ==> before[i] == es[i];
      GuessStaysBehind(s, before, b);
      RunInv(s, before);
      var p := Run(s, before);
      if e.Step? && e.client in p.clients && p.clients[e.client].phase.Trying? {
        assert ClientOk(p, e.client, p.clients[e.client]);
        TryBehind(p, e.client, e.reply, b);
      } else {
        QuietBehind(p, e, b);
      }
    }
  }

  lemma QuietBehind(s: State, e: Event, b: int)
    requires b > 0 && AllBehind(s, b) && IsNumber(s.counter)
    requires e.Begin? ==> e.count == b
    requires e.Step? && e.client in s.clients ==> !s.clients[e.client].phase.Trying?
    ensures AllBehind(Apply(s, e), b)
  {
    var t := Apply(s, e);
    assert forall d :: d in t.clients && d != e.client ==> Behind(s.counter, s.clients[d], b);
  }

  // One of the next n guesses hits if n blocks get past the counter.
  lemma SomeGuessHits(t: State, c: nat, b: int, n: nat) returns (j: nat)
    requires b > 0 && Ready(t, c) && Behind(t.counter, t.clients[c], b)
    requires n * b > Val(t.counter) - Val(t.clients[c].guess)
    ensures j < n && Hits(t, c, j)
  {
    j := WholeIsMultiple(Val(t.counter) - Val(t.clients[c].guess), b);
    SmallerFactor(j, n, b);
    HitInNumbers(t, c, j);
  }

  // From any point of a run with one block size, a caller that runs on alone is served
  // within as many transactions as it takes blocks to get past the counter: n is enough
  // when n blocks exceed counter - guess.
  lemma {:induction false} AloneIsServed(s: State, es: seq<Event>, b: int, c: nat, n: nat)
    requires Init(s) && b > 0 && Uniform(es, b)
    requires c in Run(s, es).clients && Run(s, es).clients[c].phase.Trying?
    requires var t := Run(s, es);
             && n * b > Val(t.counter) - Val(t.clients[c].guess)
             && t.clients[c].tries + n <= MAX_RETRIES
    ensures Served(Run(s, es + Alone(c, n)), c)
  {
    GuessStaysBehind(s, es, b);
    RunInv(s, es);
    var t := Run(s, es);
    assert ClientOk(t, c, t.clients[c]) && Behind(t.counter, t.clients[c], b);
    var j := SomeGuessHits(t, c, b, n);
    ServedIffSomeGuessHits(t, c, n);
    AloneIsARun(s, es, c, n);
  }

  lemma RunThen(s: State, es: seq<Event>, e: Event) returns (fs: seq<Event>)
    ensures fs == es + [e] && Run(s, fs) == Apply(Run(s, es), e)
  {
    fs := es + [e];
    assert fs[..|es|] == es;
  }

  const NOBODY := State(None, map[], [])

  // One caller has read the absent key for a block of two, another has taken id 1.
  lemma Overtaken() returns (es: seq<Event>)
    ensures var t := Run(NOBODY, es);
            t.counter == Some(Str(1)) && 0 in t.clients && t.clients[0] == Client(Trying, 2, None, 0)
  {
    es := [];
    es := RunThen(NOBODY, es, Begin(0, 2));
    es := RunThen(NOBODY, es, Step(0, Ok));
    es := RunThen(NOBODY, es, Begin(1, 1));
    es := RunThen(NOBODY, es, Step(1, Ok));
    es := RunThen(NOBODY, es, Step(1, Ok));
  }

  // With mixed block sizes a guess can jump past the counter, and then waiting alone never
  // helps: the caller is not served however long it goes on.
  lemma MixedSizesCanStarve() returns (es: seq<Event>)
    ensures forall n: nat :: !Served(Run(NOBODY, es + Alone(0, n)), 0)
  {
    es := Overtaken();
    var t := Run(NOBODY, es);
    StrIsNumber(1);
    forall n: nat
      ensures !Served(Run(NOBODY, es + Alone(0, n)), 0)
    {
      forall j: nat | j < n
        ensures !Hits(t, 0, j)
      {
        HitInNumbers(t, 0, j);
      }
      ServedIffSomeGuessHits(t, 0, n);
      AloneIsARun(NOBODY, es, 0, n);
    }
  }
}
