/** What an installer that is not interrupted achieves, whatever state its predecessors left. */
module InstallerProgress {
  import opened Wrappers
  import opened Installer

  lemma {:induction false} RunOn(s: State, es: seq<Event>, fs: seq<Event>)
    ensures Run(Run(s, es), fs) == Run(s, es + fs)
    decreases |fs|
  {
    if fs == [] {
      assert es + fs == es;
    } else {
      var before, e := fs[..|fs| - 1], fs[|fs| - 1];
      RunOn(s, es, before);
      RunThen(Run(s, es), before, e);
      RunThen(s, es + before, e);
      assert fs == before + [e] && es + fs == (es + before) + [e];
    }
  }

  lemma First(s: State, e: Event, fs: seq<Event>)
    ensures Run(s, [e] + fs) == Run(Apply(s, e), fs)
  {
    RunOn(s, [e], fs);
    assert Run(s, [e]) == Apply(Run(s, [e][..0]), e);
  }

  // An event of the holder's own progress: no crash, nobody else, no reader.
  predicate Own(e: Event) { e.Step? || e.Unlink? || e.UnlinkMarker? || e.Append? }

  predicate AllOwn(es: seq<Event>) { forall i :: 0 <= i < |es| ==> Own(es[i]) }

  // ----- every such run -----------------------------------------------------------------------

  // Installed, and the lock given back.
  ghost predicate Installs(s: State, fp: string) { Ready(s, fp) && Complete(s, fp) && s.holder.None? }

  // The tarball holds the required files.
  predicate TarOk(s: State, fp: string) {
    fp in s.tars && forall i :: 0 <= i < |REQUIRED| ==> REQUIRED[i] in s.tars[fp]
  }

  // Where an installer of fp that found state s can be.
  ghost predicate Underway(s: State, fp: string, t: State) {
    && t.tars == s.tars && NoDirNoFiles(t)
    && (t.holder.Some? ==> t.holder.value.0 == fp && Holding(t, fp, t.holder.value.1))
    && (t.holder == Some((fp, Check)) ==> t == At(s, fp, Check))
    && (t.holder.Some? && !t.holder.value.1.Check? ==> !Ready(s, fp))
    && (t.holder.None? ==> if Ready(s, fp) then t == s else if TarOk(s, fp) then Installs(t, fp) else t.marker.None?)
  }

  lemma StepUnderway(s: State, fp: string, t: State)
    requires s.holder.None? && Underway(s, fp, t)
    ensures Underway(s, fp, Apply(t, Step))
  {
    if t.holder.Some? {
      StepHolding(t, fp, t.holder.value.1);
      if t.holder.value.1.Verify? { RequiredIff(t, fp); }
    }
  }

  lemma RequiredIff(t: State, fp: string)
    requires Complete(t, fp)
    ensures HasRequired(t) <==> TarOk(t, fp)
  {
  }

  lemma OwnUnderway(s: State, fp: string, t: State, e: Event)
    requires s.holder.None? && Underway(s, fp, t) && Own(e)
    ensures Underway(s, fp, Apply(t, e))
  {
    if e.Step? {
      StepUnderway(s, fp, t);
    } else if t.holder.Some? {
      WorkHolding(t, e);
    }
  }

  lemma {:induction false} RunUnderway(s: State, fp: string, es: seq<Event>)
    requires s.holder.None? && NoDirNoFiles(s) && fp in s.tars && AllOwn(es)
    ensures Underway(s, fp, Run(At(s, fp, Check), es))
  {
    if es != [] {
      RunUnderway(s, fp, es[..|es| - 1]);
      OwnUnderway(s, fp, Run(At(s, fp, Check), es[..|es| - 1]), es[|es| - 1]);
    }
  }

  // From any state in which nobody holds the lock, however far earlier installers of any release
  // came, and along any schedule: once an installer that was not interrupted has given the lock
  // back, its tarball is fully extracted, with nothing else there and the marker in place, if and
  // only if the tarball has the required files and the tree it found did not look ready without
  // being complete.
  lemma InstallsIff(s: State, fp: string, es: seq<Event>)
    requires s.holder.None? && NoDirNoFiles(s) && fp in s.tars && AllOwn(es)
    requires Run(s, [Lock(fp)] + es).holder.None?
    ensures Installs(Run(s, [Lock(fp)] + es), fp) <==> TarOk(s, fp) && (Ready(s, fp) ==> Complete(s, fp))
  {
    First(s, Lock(fp), es);
    RunUnderway(s, fp, es);
    if Ready(s, fp) && Complete(s, fp) { RequiredIff(s, fp); }
  }

  // ----- there is such a run ---------------------------------------------------------------------

  // Deleting whatever is there.
  lemma {:induction false} Clears(s: State, fp: string) returns (es: seq<Event>)
    requires s.holder == Some((fp, Remove))
    ensures AllOwn(es) && Run(s, es) == s.(files := map[], marker := None, hurt := false)
    decreases |s.files|
  {
    if s.files == map[] {
      es := [UnlinkMarker];
      First(s, UnlinkMarker, []);
    } else {
      assert s.files.Keys != {};
      var f :| f in s.files.Keys;
      var t := Apply(s, Unlink(f));
      assert t.files.Keys == s.files.Keys - {f};
      var more := Clears(t, fp);
      es := [Unlink(f)] + more;
      First(s, Unlink(f), more);
    }
  }

  // The files after extracting the members in `todo`.
  function Filled(files: map<File, Piece>, fp: string, todo: seq<File>): map<File, Piece>
    decreases |todo|
  {
    if todo == [] then files else Filled(files[todo[0] := Piece(fp, true)], fp, todo[1..])
  }

  lemma {:induction false} FilledIs(files: map<File, Piece>, fp: string, todo: seq<File>, f: File)
    ensures f in Filled(files, fp, todo) <==> f in files || f in todo
    ensures f in todo ==> Filled(files, fp, todo)[f] == Piece(fp, true)
    ensures f !in todo && f in files ==> Filled(files, fp, todo)[f] == files[f]
    decreases |todo|
  {
    if todo != [] {
      FilledIs(files[todo[0] := Piece(fp, true)], fp, todo[1..], f);
      assert todo == [todo[0]] + todo[1..];
    }
  }

  lemma {:induction false} Extracts(s: State, fp: string, todo: seq<File>) returns (es: seq<Event>)
    requires s.holder == Some((fp, Extract(todo, false)))
    ensures AllOwn(es) && Run(s, es) == s.(files := Filled(s.files, fp, todo), holder := Some((fp, Verify)))
    decreases |todo|
  {
    if todo == [] {
      es := [Step];
      First(s, Step, []);
    } else {
      var t := Apply(s, Step);
      var u := Apply(t, Step);
      assert u == s.(files := s.files[todo[0] := Piece(fp, true)], holder := Some((fp, Extract(todo[1..], false))));
      var more := Extracts(u, fp, todo[1..]);
      es := [Step] + ([Step] + more);
      First(t, Step, more);
      First(s, Step, [Step] + more);
    }
  }

  // From the extraction on.
  lemma Finishes(s: State, fp: string) returns (es: seq<Event>)
    requires fp in s.tars && s.holder == Some((fp, Make))
    ensures AllOwn(es) && Run(s, es).holder.None?
  {
    var t := Apply(s, Step);
    var more := Extracts(t, fp, s.tars[fp]);
    var rest := Marks(Run(t, more), fp);
    es := [Step] + (more + rest);
    RunOn(t, more, rest);
    First(s, Step, more + rest);
  }

  lemma Four(s: State, a: Event, b: Event, c: Event, d: Event)
    ensures Run(s, [a] + ([b] + ([c] + [d]))) == Apply(Apply(Apply(Apply(s, a), b), c), d)
  {
    First(s, a, [b] + ([c] + [d]));
    First(Apply(s, a), b, [c] + [d]);
    First(Apply(Apply(s, a), b), c, [d]);
    RunThen(Apply(Apply(Apply(s, a), b), c), [], d);
    assert [] + [d] == [d];
  }

  lemma Marked(s: State, fp: string)
    requires HasRequired(s) && s.holder == Some((fp, Verify))
    ensures Apply(Apply(Apply(Apply(s, Step), Step), Append(|fp|)), Step).holder.None?
  {
    assert fp[..|fp|] == fp;
    var u := Apply(Apply(Apply(s, Step), Step), Append(|fp|));
    assert u == s.(marker := Some(fp), holder := Some((fp, Write)), hurt := false);
  }

  lemma Marks(s: State, fp: string) returns (es: seq<Event>)
    requires s.holder == Some((fp, Verify))
    ensures AllOwn(es) && Run(s, es).holder.None?
  {
    if HasRequired(s) {
      var write := Append(|fp|);
      es := [Step] + ([Step] + ([write] + [Step]));
      Four(s, Step, Step, write, Step);
      Marked(s, fp);
    } else {
      es := [Step];
      First(s, Step, []);
    }
  }

  // An installer can always go on until it gives the lock back.
  lemma CanFinish(s: State, fp: string) returns (es: seq<Event>)
    requires s.holder.None? && fp in s.tars
    ensures AllOwn(es) && Run(s, [Lock(fp)] + es).holder.None?
  {
    var t := Apply(s, Lock(fp));
    var u := Apply(t, Step);
    if Ready(s, fp) {
      es := [Step];
      First(t, Step, []);
    } else if s.dir {
      var clears := Clears(u, fp);
      var v := Run(u, clears);
      var more := Finishes(Apply(v, Step), fp);
      es := [Step] + (clears + ([Step] + more));
      First(v, Step, more);
      RunOn(u, clears, [Step] + more);
      First(t, Step, clears + ([Step] + more));
    } else {
      var more := Finishes(u, fp);
      es := [Step] + more;
      First(t, Step, more);
    }
    First(s, Lock(fp), es);
  }

  // ----- a reader that is overtaken ----------------------------------------------------------------

  lemma {:induction false} Looks(s: State, r: nat, n: nat) returns (es: seq<Event>)
    requires n <= |REQUIRED| && HasRequired(s) && r in s.readers && s.readers[r].checked == |REQUIRED| - n
    ensures Run(s, es) == s.(readers := s.readers[r := s.readers[r].(checked := |REQUIRED|)])
    decreases n
  {
    if n == 0 {
      es := [];
      assert s.readers[r := s.readers[r].(checked := |REQUIRED|)] == s.readers;
    } else {
      var t := Apply(s, Look(r));
      var more := Looks(t, r, n - 1);
      es := [Look(r)] + more;
      First(s, Look(r), more);
      assert t.readers[r := t.readers[r].(checked := |REQUIRED|)] == s.readers[r := s.readers[r].(checked := |REQUIRED|)];
    }
  }

  lemma OwnSame(s: State, e: Event)
    requires Own(e)
    ensures Apply(s, e).readers == s.readers
  {
    match e
    case Step => if s.holder.Some? { HolderSame(s, s.holder.value.0, s.holder.value.1); }
    case _ =>
  }

  lemma {:induction false} OwnKeepsReaders(s: State, es: seq<Event>)
    requires AllOwn(es)
    ensures Run(s, es).readers == s.readers
  {
    if es != [] {
      OwnKeepsReaders(s, es[..|es| - 1]);
      OwnSame(Run(s, es[..|es| - 1]), es[|es| - 1]);
    }
  }

  // With two releases a slow reader can accept the wrong tree: it sees the marker of a, an
  // installer of b runs to its end, and the required files it then finds are those of b.
  lemma ReaderOvertaken(s: State, a: string, b: string, r: nat) returns (es: seq<Event>)
    requires Init(s) && a != b && s.marker == Some(a) && TarOk(s, b)
    ensures var t := Run(s, es);
            Accepts(t, r) && t.readers[r].fp == a && Installs(t, b) && !Complete(t, a)
  {
    var u := Apply(s, Open(r, a));
    assert !Ready(u, b);
    var own := CanFinish(u, b);
    InstallsIff(u, b, own);
    var v := Run(u, [Lock(b)] + own);
    First(u, Lock(b), own);
    OwnKeepsReaders(Apply(u, Lock(b)), own);
    var looks := Looks(v, r, |REQUIRED|);
    es := [Open(r, a)] + (([Lock(b)] + own) + looks);
    RunOn(u, [Lock(b)] + own, looks);
    First(s, Open(r, a), ([Lock(b)] + own) + looks);
    assert REQUIRED[0] in v.files && v.files[REQUIRED[0]] == Piece(b, true);
  }

  // An installer that dies while it writes the marker can leave any beginning of the text, and no
  // release takes that for its own.
  lemma TornMarker(s: State, fp: string, n: nat)
    requires Inv(s) && s.holder == Some((fp, Write)) && |s.marker.value| <= n < |fp|
    ensures var t := Run(s, [Append(n), Crash]);
            && t.marker == Some(fp[..n]) && t.holder.None?
            && forall g :: g in s.tars ==> !Ready(t, g)
  {
    First(s, Append(n), [Crash]);
    First(Apply(s, Append(n)), Crash, []);
    assert [Append(n)] + [Crash] == [Append(n), Crash] && [Crash] + [] == [Crash];
    TornIsNotReady(Apply(Apply(s, Append(n)), Crash), fp, n);
  }

  lemma TornIsNotReady(t: State, fp: string, n: nat)
    requires PrefixFree(t.tars.Keys) && fp in t.tars && n < |fp| && t.marker == Some(fp[..n])
    ensures forall g :: g in t.tars ==> !Ready(t, g)
  {
    assert fp[..n] <= fp && fp[..n] != fp;
  }
}
