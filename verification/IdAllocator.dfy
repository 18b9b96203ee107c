/** The distributed id allocator: a counter kept as decimal text under one etcd
    key, advanced by compare-and-put.  A caller that loses the race does not read
    the counter again; it guesses that it moved by its own block.  `allocate_id`
    is a block of one. */
module IdAllocator {
  import opened Wrappers
  import opened Decimal

  const MAX_RETRIES := 10_000

  datatype Answer = Ids(first: int, last: int) | BadCount | Exhausted | Raised

  datatype Phase = Reading | Trying | Finished(answer: Answer)

  datatype Client = Client(phase: Phase, count: int, guess: Option<string>, tries: nat)

  // A block taken from the counter.  `granted` is false if the caller never learned of it,
  // because the transaction was applied but its reply was lost.
  datatype Block = Block(client: nat, first: int, last: int, granted: bool)

  datatype State = State(counter: Option<string>, clients: map<nat, Client>, log: seq<Block>)

  datatype Reply = Ok | Raise(applied: bool)

  datatype Event = Begin(client: nat, count: int) | Step(client: nat, reply: Reply)

  // The number a stored or guessed text stands for; an absent key counts as zero.
  function Val(v: Option<string>): int { if v.None? then 0 else Int(v.value) }

  predicate IsNumber(v: Option<string>) { v.Some? ==> Int(v.value) >= 0 && v.value == Str(Int(v.value)) }

  // ----- steps -------------------------------------------------------------------

  // n blocks after v.
  function Ahead(v: int, count: int, n: nat): (a: int)
    ensures v >= 0 && count >= 0 ==> a >= 0
  {
    if n == 0 then v else Ahead(v, count, n - 1) + count
  }

  lemma {:induction false} AheadIs(v: int, count: int, n: nat)
    ensures Ahead(v, count, n) == v + n * count
  {
    if n > 0 {
      AheadIs(v, count, n - 1);
      assert n * count == (n - 1) * count + count;
    }
  }

  // The text compared by the j-th transaction of a caller that starts from `guess`.
  function Guess(guess: Option<string>, count: int, j: nat): Option<string>
    requires count > 0 && IsNumber(guess)
  {
    if j == 0 then guess else Some(Str(Ahead(Val(guess), count, j)))
  }

  // One transaction: advance the counter if it still has the guessed text.
  function Try(s: State, c: nat, k: Client, r: Reply): State {
    var base := Val(k.guess);
    var next := base + k.count;
    if next < 0 then s  // never: counts are positive and guesses are numbers
    else
      var hit := s.counter == k.guess;
      var block := Block(c, base + 1, next, r.Ok?);
      var moved := s.(counter := Some(Str(next)), log := s.log + [block]);
      match r
      case Ok =>
        if hit then moved.(clients := s.clients[c := k.(phase := Finished(Ids(base + 1, next)))])
        else
          var k' := k.(guess := Some(Str(next)), tries := k.tries + 1);
          s.(clients := s.clients[c := if k'.tries < MAX_RETRIES then k' else k'.(phase := Finished(Exhausted))])
      case Raise(applied) =>
        (if applied && hit then moved else s).(clients := s.clients[c := k.(phase := Finished(Raised))])
  }

  function Apply(s: State, e: Event): State {
    match e
    case Begin(c, count) =>
      if c in s.clients then s
      else s.(clients := s.clients[c := Client(if count > 0 then Reading else Finished(BadCount), count, None, 0)])
    case Step(c, r) =>
      if c !in s.clients then s
      else
        var k := s.clients[c];
        match k.phase
        case Reading =>
          s.(clients := s.clients[c := if r.Ok? then k.(phase := Trying, guess := s.counter)
                                       else k.(phase := Finished(Raised))])
        case Trying => Try(s, c, k, r)
        case Finished(_) => s
  }

  function Run(s: State, es: seq<Event>): State {
    if es == [] then s else Apply(Run(s, es[..|es| - 1]), es[|es| - 1])
  }

  ghost predicate Init(s: State) { IsNumber(s.counter) && s.clients == map[] && s.log == [] }

  // ----- the taken blocks tile the counter's range -----------------------------------

  // The blocks are non-empty and follow one another without gap from `from` up to `to`.
  ghost predicate Tiles(log: seq<Block>, from: int, to: int) {
    if log == [] then from == to
    else
      var b := log[|log| - 1];
      b.first <= b.last == to && Tiles(log[..|log| - 1], from, b.first - 1)
  }

  ghost predicate ClientOk(s: State, c: nat, k: Client) {
    && (k.phase.Reading? || k.phase.Trying? ==> k.count > 0)
    && (k.phase.Trying? ==> IsNumber(k.guess))
    && (k.phase.Finished? && k.phase.answer.Ids? ==>
          Block(c, k.phase.answer.first, k.phase.answer.last, true) in s.log)
  }

  ghost predicate BlockOk(s: State, b: Block) {
    && b.client in s.clients
    && s.clients[b.client].phase == Finished(if b.granted then Ids(b.first, b.last) else Raised)
  }

  ghost predicate Inv(s: State, base: int) {
    && IsNumber(s.counter)
    && Tiles(s.log, base, Val(s.counter))
    && (forall c :: c in s.clients ==> ClientOk(s, c, s.clients[c]))
    && (forall b :: b in s.log ==> BlockOk(s, b))
  }

  lemma StrIsNumber(n: nat)
    ensures IsNumber(Some(Str(n))) && Val(Some(Str(n))) == n
  {
    IntOfStr(n);
  }

  // What a transaction that is applied does to the state.
  ghost predicate Takes(s: State, t: State, c: nat, k: Client, b: Block) {
    && c in s.clients && s.clients[c].phase.Trying?
    && t.log == s.log + [b] && t.clients == s.clients[c := k]
    && b.client == c && k.phase == Finished(if b.granted then Ids(b.first, b.last) else Raised)
  }

  lemma TakenBlocks(s: State, t: State, c: nat, k: Client, b: Block, base: int)
    requires Inv(s, base) && Takes(s, t, c, k, b)
    ensures forall a :: a in t.log ==> BlockOk(t, a)
  {
    forall a | a in t.log
      ensures BlockOk(t, a)
    {
      assert a in s.log ==> BlockOk(s, a);
    }
  }

  lemma TakenClients(s: State, t: State, c: nat, k: Client, b: Block, base: int)
    requires Inv(s, base) && Takes(s, t, c, k, b)
    ensures forall d :: d in t.clients ==> ClientOk(t, d, t.clients[d])
  {
    assert t.log[|s.log|] == b;
    forall d | d in t.clients
      ensures ClientOk(t, d, t.clients[d])
    {
      assert d in s.clients && ClientOk(s, d, s.clients[d]);
    }
  }

  // A transaction that is applied appends the next block.
  lemma HitInv(s: State, c: nat, r: Reply, base: int)
    requires Inv(s, base) && c in s.clients && s.clients[c].phase.Trying?
    requires s.counter == s.clients[c].guess && (r.Raise? ==> r.applied)
    ensures Inv(Try(s, c, s.clients[c], r), base)
  {
    var k := s.clients[c];
    assert ClientOk(s, c, k);
    StrIsNumber(Val(k.guess) + k.count);
    var t := Try(s, c, k, r);
    var block := Block(c, Val(k.guess) + 1, Val(k.guess) + k.count, r.Ok?);
    assert t.log[..|s.log|] == s.log;
    TakenBlocks(s, t, c, t.clients[c], block, base);
    TakenClients(s, t, c, t.clients[c], block, base);
  }

  lemma MissInv(s: State, c: nat, r: Reply, base: int)
    requires Inv(s, base) && c in s.clients && s.clients[c].phase.Trying?
    requires s.counter != s.clients[c].guess || (r.Raise? && !r.applied)
    ensures Inv(Try(s, c, s.clients[c], r), base)
  {
    var k := s.clients[c];
    assert ClientOk(s, c, k);
    StrIsNumber(Val(k.guess) + k.count);
    var t := Try(s, c, k, r);
    assert t.log == s.log && t.counter == s.counter;
    forall b | b in t.log
      ensures BlockOk(t, b)
    {
      assert BlockOk(s, b);
    }
    forall d | d in t.clients
      ensures ClientOk(t, d, t.clients[d])
    {
      assert ClientOk(s, d, s.clients[d]);
    }
  }

  lemma ApplyInv(s: State, e: Event, base: int)
    requires Inv(s, base)
    ensures Inv(Apply(s, e), base)
  {
    if e.Step? && e.client in s.clients && s.clients[e.client].phase.Trying? {
      if s.counter == s.clients[e.client].guess && (e.reply.Raise? ==> e.reply.applied) {
        HitInv(s, e.client, e.reply, base);
      } else {
        MissInv(s, e.client, e.reply, base);
      }
    } else {
      var t := Apply(s, e);
      assert t.log == s.log && t.counter == s.counter;
      forall b | b in t.log
        ensures BlockOk(t, b)
      {
        assert BlockOk(s, b);
      }
      forall d | d in t.clients
        ensures ClientOk(t, d, t.clients[d])
      {
        assert d in s.clients ==> ClientOk(s, d, s.clients[d]);
      }
    }
  }

  lemma {:induction false} RunInv(s: State, es: seq<Event>)
    requires Init(s)
    ensures Inv(Run(s, es), Val(s.counter))
  {
    if es != [] {
      RunInv(s, es[..|es| - 1]);
      ApplyInv(Run(s, es[..|es| - 1]), es[|es| - 1], Val(s.counter));
    }
  }

  // ----- theorems ---------------------------------------------------------------------

  lemma {:induction false} TilesOrdered(log: seq<Block>, from: int, to: int, i: nat, j: nat)
    requires Tiles(log, from, to) && i <= j < |log|
    ensures from < log[i].first <= log[i].last <= log[j].last <= to
    ensures i < j ==> log[i].last < log[j].first
  {
    var n := |log| - 1;
    if i < n { TilesOrdered(log[..n], from, log[n].first - 1, i, if j < n then j else n - 1); }
    else if n > 0 { TilesOrdered(log[..n], from, log[n].first - 1, n - 1, n - 1); }
  }

  predicate Covers(b: Block, n: int) { b.first <= n <= b.last }

  lemma {:induction false} TilesCover(log: seq<Block>, from: int, to: int, n: int) returns (i: nat)
    requires Tiles(log, from, to) && from < n <= to
    ensures i < |log| && Covers(log[i], n)
  {
    var last := log[|log| - 1];
    if last.first <= n {
      i := |log| - 1;
    } else {
      i := TilesCover(log[..|log| - 1], from, last.first - 1, n);
    }
  }

  // In every run, every id the counter has passed lies in exactly one taken block, and
  // no block reaches outside.
  lemma {:induction false} BlocksTileTheCounter(s: State, es: seq<Event>, n: int)
    requires Init(s)
    ensures var t := Run(s, es);
            && (Val(s.counter) < n <= Val(t.counter)
                <==> exists i :: 0 <= i < |t.log| && Covers(t.log[i], n))
            && (forall i, j :: 0 <= i < |t.log| && 0 <= j < |t.log| && Covers(t.log[i], n) && Covers(t.log[j], n) ==> i == j)
  {
    RunInv(s, es);
    var t := Run(s, es);
    var from, to := Val(s.counter), Val(t.counter);
    if from < n <= to {
      var i := TilesCover(t.log, from, to, n);
    }
    forall i | 0 <= i < |t.log| && Covers(t.log[i], n)
      ensures from < n <= to
    {
      TilesOrdered(t.log, from, to, i, i);
    }
    forall i, j | 0 <= i < |t.log| && 0 <= j < |t.log| && Covers(t.log[i], n) && Covers(t.log[j], n)
      ensures i == j
    {
      if i < j { TilesOrdered(t.log, from, to, i, j); }
      if j < i { TilesOrdered(t.log, from, to, j, i); }
    }
  }

  // In every run, no id is handed to two callers.
  lemma {:induction false} GrantsAreDisjoint(s: State, es: seq<Event>, c: nat, d: nat)
    requires Init(s) && c != d
    requires var t := Run(s, es);
             && c in t.clients && t.clients[c].phase.Finished? && t.clients[c].phase.answer.Ids?
             && d in t.clients && t.clients[d].phase.Finished? && t.clients[d].phase.answer.Ids?
    ensures var t := Run(s, es);
            var a, b := t.clients[c].phase.answer, t.clients[d].phase.answer;
            a.last < b.first || b.last < a.first
  {
    RunInv(s, es);
    var t := Run(s, es);
    assert ClientOk(t, c, t.clients[c]) && ClientOk(t, d, t.clients[d]);
    var a, b := t.clients[c].phase.answer, t.clients[d].phase.answer;
    var i :| 0 <= i < |t.log| && t.log[i] == Block(c, a.first, a.last, true);
    var j :| 0 <= j < |t.log| && t.log[j] == Block(d, b.first, b.last, true);
    if i < j { TilesOrdered(t.log, Val(s.counter), Val(t.counter), i, j); }
    else { TilesOrdered(t.log, Val(s.counter), Val(t.counter), j, i); }
  }

  // If no transaction was applied without its reply arriving, every id the counter has
  // passed was granted to a caller that knows it.
  lemma {:induction false} NothingIsBurned(s: State, es: seq<Event>, n: int) returns (c: nat)
    requires Init(s) && Val(s.counter) < n <= Val(Run(s, es).counter)
    requires forall c :: c in Run(s, es).clients ==> Run(s, es).clients[c].phase != Finished(Raised)
    ensures var t := Run(s, es);
            && c in t.clients && t.clients[c].phase.Finished? && t.clients[c].phase.answer.Ids?
            && t.clients[c].phase.answer.first <= n <= t.clients[c].phase.answer.last
  {
    RunInv(s, es);
    var t := Run(s, es);
    var i := TilesCover(t.log, Val(s.counter), Val(t.counter), n);
    assert t.log[i] in t.log && BlockOk(t, t.log[i]);
    c := t.log[i].client;
  }

  // ----- how calls end ------------------------------------------------------------------------

  // The event gives the caller this answer: its guess is what the key holds; a request of it
  // raises; its ten thousandth guess was wrong; or it asked for no id at all.
  predicate Gives(s: State, e: Event, c: nat, a: Answer) {
    match a
    case BadCount => e.Begin? && e.client == c && e.count <= 0 && c !in s.clients
    case Ids(first, last) =>
      && e == Step(c, Ok) && c in s.clients && s.clients[c].phase.Trying? && s.counter == s.clients[c].guess
      && first == Val(s.counter) + 1 && last == Val(s.counter) + s.clients[c].count
    case Exhausted =>
      && e == Step(c, Ok) && c in s.clients && s.clients[c].phase.Trying? && s.counter != s.clients[c].guess
      && s.clients[c].tries >= 9_999
    case Raised =>
      e.Step? && e.client == c && e.reply.Raise? && c in s.clients && !s.clients[c].phase.Finished?
  }

  predicate Has(s: State, c: nat, a: Answer) { c in s.clients && s.clients[c].phase == Finished(a) }

  lemma GiveStep(s: State, base: int, e: Event, c: nat, a: Answer)
    requires Inv(s, base)
    ensures Has(Apply(s, e), c, a) <==> Has(s, c, a) || Gives(s, e, c, a)
  {
    if c in s.clients {
      assert ClientOk(s, c, s.clients[c]);
      if s.clients[c].phase.Trying? { GuessCounts(s.clients[c].guess); }
    }
  }

  lemma GuessCounts(v: Option<string>)
    requires IsNumber(v)
    ensures Val(v) >= 0
  {
  }

  ghost function GivesAt(s: State, c: nat, a: Answer): (seq<Event>, Event) -> bool {
    (before, e) => Gives(Run(s, before), e, c, a)
  }

  ghost predicate Given(s: State, es: seq<Event>, c: nat, a: Answer) { Happens(es, GivesAt(s, c, a)) }

  lemma GivenStep(s: State, es: seq<Event>, e: Event, c: nat, a: Answer)
    ensures Given(s, es + [e], c, a) <==> Given(s, es, c, a) || Gives(Run(s, es), e, c, a)
  {
    HappensStep(es, e, GivesAt(s, c, a));
  }

  // In every run a caller has an answer if and only if an event gave it.
  lemma {:induction false} AnsweredIff(s: State, es: seq<Event>, c: nat, a: Answer)
    requires Init(s)
    ensures Has(Run(s, es), c, a) <==> Given(s, es, c, a)
  {
    if es != [] {
      var before, e := es[..|es| - 1], es[|es| - 1];
      assert es == before + [e];
      AnsweredIff(s, before, c, a);
      RunInv(s, before);
      GiveStep(Run(s, before), Val(s.counter), e, c, a);
      GivenStep(s, before, e, c, a);
    }
  }
}
