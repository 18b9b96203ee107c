/** Readers without the lock: a reader looks at the marker first and at the required files later,
    while installers come and go.  What it accepts is the release it asked for exactly if the
    tree was left alone since its look, or that release was extracted again. */
module InstallerReaders {
  import opened Wrappers
  import opened Installer

  // ----- how far an extraction has come, member by member -------------------------------------------

  // The members written to their end so far.
  function Written(s: State, fp: string, todo: seq<File>): seq<File>
    requires fp in s.tars && |todo| <= |s.tars[fp]|
  {
    s.tars[fp][..|s.tars[fp]| - |todo|]
  }

  // The tree holds exactly what has been extracted.
  ghost predicate Exact(s: State, fp: string, todo: seq<File>, begun: bool) {
    && fp in s.tars && |todo| <= |s.tars[fp]| && todo == s.tars[fp][|s.tars[fp]| - |todo|..] && (begun ==> todo != [])
    && (forall f :: f in s.files <==> f in Written(s, fp, todo) || (begun && f == todo[0]))
    && (forall f :: f in s.files ==> s.files[f] == Piece(fp, !(begun && f == todo[0])))
  }

  ghost predicate Extracting(s: State) {
    s.holder.Some? && s.holder.value.1.Extract? ==>
      Exact(s, s.holder.value.0, s.holder.value.1.todo, s.holder.value.1.begun)
  }

  lemma BeginMember(s: State, fp: string, todo: seq<File>)
    requires Exact(s, fp, todo, false) && todo != []
    ensures Exact(HolderStep(s, fp, Extract(todo, false)), fp, todo, true)
  {
  }

  lemma EndMember(s: State, fp: string, todo: seq<File>)
    requires Exact(s, fp, todo, true)
    ensures Exact(HolderStep(s, fp, Extract(todo, true)), fp, todo[1..], false)
  {
    var t, all := HolderStep(s, fp, Extract(todo, true)), s.tars[fp];
    var n := |all| - |todo|;
    assert all[n] == todo[0] && all[..n + 1] == all[..n] + [all[n]];
    assert todo[1..] == all[n + 1..];
    assert Written(t, fp, todo[1..]) == Written(s, fp, todo) + [todo[0]];
  }

  lemma StepExtracting(s: State)
    requires Inv(s) && Extracting(s)
    ensures Extracting(Apply(s, Step))
  {
    if s.holder.Some? {
      var fp, pc := s.holder.value.0, s.holder.value.1;
      match pc
      case Extract(todo, begun) =>
        if begun {
          EndMember(s, fp, todo);
        } else if todo != [] {
          BeginMember(s, fp, todo);
        }
      case Make =>
        assert s.tars[fp][..0] == [] && s.tars[fp][0..] == s.tars[fp];
      case _ =>
    }
  }

  // Nothing but a step of its own touches the tree while the holder extracts.
  lemma OtherHolder(s: State, e: Event)
    requires !e.Step?
    ensures var t := Apply(s, e);
            t.holder.Some? && t.holder.value.1.Extract? ==> t.holder == s.holder && t.files == s.files
  {
    match e
    case Lock(_) =>
    case _ =>
  }

  lemma OtherExtracting(s: State, e: Event)
    requires Extracting(s) && !e.Step?
    ensures Extracting(Apply(s, e))
  {
    OtherHolder(s, e);
    SameTars(s, e);
    ExtractingSame(s, Apply(s, e));
  }

  lemma ExtractingSame(s: State, t: State)
    requires Extracting(s) && t.tars == s.tars
    requires t.holder.Some? && t.holder.value.1.Extract? ==> t.holder == s.holder && t.files == s.files
    ensures Extracting(t)
  {
  }

  lemma ApplyExtracting(s: State, e: Event)
    requires Inv(s) && Extracting(s)
    ensures Extracting(Apply(s, e))
  {
    if e.Step? {
      StepExtracting(s);
    } else {
      OtherExtracting(s, e);
    }
  }

  lemma {:induction false} RunExtracting(s: State, es: seq<Event>)
    requires Init(s)
    ensures Inv(Run(s, es)) && Run(s, es).tars == s.tars && Extracting(Run(s, es))
  {
    RunInv(s, es);
    if es != [] {
      RunExtracting(s, es[..|es| - 1]);
      ApplyExtracting(Run(s, es[..|es| - 1]), es[|es| - 1]);
    }
  }

  // ----- what happens to a tree ------------------------------------------------------------------------

  // A file is deleted, or a member begins to be written.
  predicate Touches(s: State, e: Event) {
    && s.holder.Some?
    && (|| (e.Unlink? && s.holder.value.1.Remove? && e.f in s.files)
        || (e.Step? && s.holder.value.1.Extract? && s.holder.value.1.todo != [] && !s.holder.value.1.begun))
  }

  // An installer of the release finishes a member, and with it the whole tarball: what may still
  // follow are members it has written already.
  predicate Extracts(s: State, e: Event, fp: string) {
    && e.Step? && s.holder.Some? && s.holder.value.0 == fp && fp in s.tars
    && s.holder.value.1.Extract? && s.holder.value.1.begun && 0 < |s.holder.value.1.todo| <= |s.tars[fp]|
    && forall f :: f in s.tars[fp] ==> f in Written(s, fp, s.holder.value.1.todo[1..])
  }

  // Some member is missing, unfinished, or another release's.
  ghost predicate Lacks(s: State, fp: string) {
    fp in s.tars && exists f :: f in s.tars[fp] && (f !in s.files || s.files[f] != Piece(fp, true))
  }

  // A tree that was whole stays so until it is touched, and one that was not becomes so only by an
  // extraction of the release.
  lemma TreeStep(s: State, e: Event, fp: string)
    requires Inv(s) && Extracting(s) && fp in s.tars && s.tars[fp] != []
    requires Complete(s, fp) || Lacks(s, fp)
    ensures var t := Apply(s, e);
            if Touches(s, e) then Lacks(t, fp)
            else if Extracts(s, e, fp) then Complete(t, fp)
            else (Complete(s, fp) ==> Complete(t, fp)) && (Lacks(s, fp) ==> Lacks(t, fp))
  {
    match e
    case Unlink(f) => UnlinkTree(s, f, fp);
    case Step => if s.holder.Some? { StepTree(s, fp, s.holder.value.0, s.holder.value.1); }
    case _ => OtherTree(s, e, fp);
  }

  lemma OtherTree(s: State, e: Event, fp: string)
    requires !e.Step? && !e.Unlink?
    ensures var t := Apply(s, e); (Complete(s, fp) ==> Complete(t, fp)) && (Lacks(s, fp) ==> Lacks(t, fp))
  {
    SameTars(s, e);
    assert Apply(s, e).files == s.files && Apply(s, e).dir == s.dir;
  }

  lemma UnlinkTree(s: State, f: File, fp: string)
    requires Inv(s) && fp in s.tars && (Complete(s, fp) || Lacks(s, fp))
    ensures var t := Apply(s, Unlink(f));
            if Touches(s, Unlink(f)) then Lacks(t, fp)
            else (Complete(s, fp) ==> Complete(t, fp)) && (Lacks(s, fp) ==> Lacks(t, fp))
  {
    var t := Apply(s, Unlink(f));
    if Lacks(s, fp) {
      var g :| g in s.tars[fp] && (g !in s.files || s.files[g] != Piece(fp, true));
      assert g !in t.files || t.files[g] != Piece(fp, true);
    } else if Touches(s, Unlink(f)) {
      assert f in s.tars[fp] && f !in t.files;
    }
  }

  lemma StepTree(s: State, fp: string, x: string, pc: Pc)
    requires Inv(s) && Extracting(s) && s.holder == Some((x, pc)) && fp in s.tars && s.tars[fp] != []
    requires Complete(s, fp) || Lacks(s, fp)
    ensures var t := Apply(s, Step);
            if Touches(s, Step) then Lacks(t, fp)
            else if Extracts(s, Step, fp) then Complete(t, fp)
            else (Complete(s, fp) ==> Complete(t, fp)) && (Lacks(s, fp) ==> Lacks(t, fp))
  {
    if pc.Extract? && pc.todo != [] {
      ExtractTree(s, fp, x, pc.todo, pc.begun);
    } else {
      QuietTree(s, fp, x, pc);
    }
  }

  // The other steps of a holder write and delete no file.
  lemma QuietTree(s: State, fp: string, x: string, pc: Pc)
    requires Holding(s, x, pc) && NoDirNoFiles(s) && fp in s.tars && s.tars[fp] != [] && !(pc.Extract? && pc.todo != [])
    ensures var t := HolderStep(s, x, pc);
            (Complete(s, fp) ==> Complete(t, fp)) && (Lacks(s, fp) ==> Lacks(t, fp))
  {
    var t := HolderStep(s, x, pc);
    HolderSame(s, x, pc);
    assert t.files == s.files;
    if Complete(s, fp) { assert s.tars[fp][0] in s.files; }
  }

  lemma ExtractTree(s: State, fp: string, x: string, todo: seq<File>, begun: bool)
    requires Exact(s, x, todo, begun) && todo != [] && s.dir && s.holder == Some((x, Extract(todo, begun)))
    requires fp in s.tars && s.tars[fp] != [] && (Complete(s, fp) || Lacks(s, fp))
    ensures var t := HolderStep(s, x, Extract(todo, begun));
            if !begun then Lacks(t, fp)
            else if Extracts(s, Step, fp) then Complete(t, fp)
            else Lacks(t, fp)
  {
    if !begun {
      BeginTree(s, fp, x, todo);
    } else {
      EndMember(s, x, todo);
      EndTree(HolderStep(s, x, Extract(todo, true)), fp, x, todo[1..]);
    }
  }

  lemma BeginTree(s: State, fp: string, x: string, todo: seq<File>)
    requires Exact(s, x, todo, false) && todo != [] && fp in s.tars && s.tars[fp] != []
    ensures Lacks(HolderStep(s, x, Extract(todo, false)), fp)
  {
    var t := HolderStep(s, x, Extract(todo, false));
    assert todo[0] in todo && todo[0] in s.tars[x];
    var g := if x == fp then todo[0] else s.tars[fp][0];
    assert g in s.tars[fp] && (g !in t.files || t.files[g] != Piece(fp, true));
  }

  // After a member was finished.
  lemma EndTree(t: State, fp: string, x: string, rest: seq<File>)
    requires Exact(t, x, rest, false) && t.dir && fp in t.tars && t.tars[fp] != []
    ensures if x == fp && (forall f :: f in t.tars[fp] ==> f in Written(t, fp, rest))
            then Complete(t, fp) else Lacks(t, fp)
  {
    if x != fp {
      var g := t.tars[fp][0];
      assert g in t.tars[fp] && (g !in t.files || t.files[g] != Piece(fp, true));
    } else {
      assert forall f :: f in Written(t, fp, rest) ==> f in t.tars[fp];
    }
  }

  // ----- from the instant a marker stood ------------------------------------------------------------

  // No file is deleted and no member begun from the m-th event on.
  ghost predicate Quiet(s: State, es: seq<Event>, m: nat) {
    forall i :: m <= i < |es| ==> !Touches(Run(s, es[..i]), es[i])
  }

  // The tree was full at the m-th event: nothing was missing when the marker stood, at the k-th, or
  // an extraction of the release was just finished; and it has been quiet since.
  ghost predicate FullFrom(s: State, es: seq<Event>, k: nat, fp: string, m: nat) {
    && k <= m <= |es| && Quiet(s, es, m)
    && if m == k then !Run(s, es[..k]).hurt else Extracts(Run(s, es[..m - 1]), es[m - 1], fp)
  }

  ghost predicate FullSince(s: State, es: seq<Event>, k: nat, fp: string) {
    exists m :: FullFrom(s, es, k, fp, m)
  }

  lemma QuietStep(s: State, es: seq<Event>, e: Event, m: nat)
    requires m <= |es|
    ensures Quiet(s, es + [e], m) <==> Quiet(s, es, m) && !Touches(Run(s, es), e)
  {
    var all := es + [e];
    assert all[..|es|] == es;
    assert forall i :: 0 <= i < |es| ==> all[..i] == es[..i] && all[i] == es[i];
    if Quiet(s, all, m) {
      assert !Touches(Run(s, all[..|es|]), all[|es|]);
      forall i | m <= i < |es| ensures !Touches(Run(s, es[..i]), es[i]) {
        assert !Touches(Run(s, all[..i]), all[i]);
      }
    }
  }

  lemma FromStep(s: State, es: seq<Event>, e: Event, k: nat, fp: string, m: nat)
    requires k <= m <= |es|
    ensures FullFrom(s, es + [e], k, fp, m) <==> FullFrom(s, es, k, fp, m) && !Touches(Run(s, es), e)
  {
    QuietStep(s, es, e, m);
    assert (es + [e])[..k] == es[..k];
    if k < m { assert (es + [e])[..m - 1] == es[..m - 1] && (es + [e])[m - 1] == es[m - 1]; }
  }

  lemma FromNow(s: State, es: seq<Event>, e: Event, k: nat, fp: string)
    requires k <= |es|
    ensures FullFrom(s, es + [e], k, fp, |es| + 1) <==> Extracts(Run(s, es), e, fp)
  {
    assert (es + [e])[..|es|] == es;
  }

  lemma FullStep(s: State, es: seq<Event>, e: Event, k: nat, fp: string)
    requires k <= |es|
    ensures FullSince(s, es + [e], k, fp) <==>
            Extracts(Run(s, es), e, fp) || (FullSince(s, es, k, fp) && !Touches(Run(s, es), e))
  {
    FromNow(s, es, e, k, fp);
    if FullSince(s, es + [e], k, fp) {
      var m: nat :| FullFrom(s, es + [e], k, fp, m);
      if m <= |es| { FromStep(s, es, e, k, fp, m); }
    }
    if FullSince(s, es, k, fp) {
      var m: nat :| FullFrom(s, es, k, fp, m);
      FromStep(s, es, e, k, fp, m);
    }
  }

  ghost predicate Told(full: bool, s: State, fp: string) { if full then Complete(s, fp) else Lacks(s, fp) }

  lemma ToldStep(s: State, e: Event, fp: string, full: bool)
    requires Inv(s) && Extracting(s) && fp in s.tars && s.tars[fp] != [] && Told(full, s, fp)
    ensures Told(Extracts(s, e, fp) || (full && !Touches(s, e)), Apply(s, e), fp)
  {
    TreeStep(s, e, fp);
  }

  // At the instant itself.
  lemma MarkedTree(s: State, fp: string)
    requires Inv(s) && fp in s.tars && s.marker == Some(fp)
    ensures s.tars[fp] != [] && Told(!s.hurt, s, fp)
  {
    if !s.hurt { assert REQUIRED[0] in s.files; }
  }

  lemma FullNow(s: State, es: seq<Event>, fp: string)
    ensures FullSince(s, es, |es|, fp) <==> !Run(s, es).hurt
  {
    assert es[..|es|] == es;
    assert FullSince(s, es, |es|, fp) <==> FullFrom(s, es, |es|, fp, |es|);
  }

  lemma MarkedNow(s: State, es: seq<Event>, fp: string)
    requires Init(s) && fp in s.tars && Run(s, es).marker == Some(fp)
    ensures s.tars[fp] != [] && Told(FullSince(s, es, |es|, fp), Run(s, es), fp)
  {
    RunInv(s, es);
    FullNow(s, es, fp);
    MarkedTree(Run(s, es), fp);
  }

  lemma MarkedThen(s: State, es: seq<Event>, e: Event, k: nat, fp: string)
    requires Init(s) && fp in s.tars && s.tars[fp] != [] && k <= |es| && Told(FullSince(s, es, k, fp), Run(s, es), fp)
    ensures Told(FullSince(s, es + [e], k, fp), Run(s, es + [e]), fp)
  {
    RunExtracting(s, es);
    FullStep(s, es, e, k, fp);
    ToldStep(Run(s, es), e, fp, FullSince(s, es, k, fp));
    RunThen(s, es, e);
  }

  // In every run, whatever happens after an instant at which the marker of a release stood: the
  // tree is that release's, whole and nothing else, if and only if it has been full since.
  lemma {:induction false} SinceMarked(s: State, es: seq<Event>, fs: seq<Event>, fp: string)
    requires Init(s) && fp in s.tars && Run(s, es).marker == Some(fp)
    ensures s.tars[fp] != [] && Told(FullSince(s, es + fs, |es|, fp), Run(s, es + fs), fp)
    decreases |fs|
  {
    if fs == [] {
      assert es + fs == es;
      MarkedNow(s, es, fp);
    } else {
      var before, e := fs[..|fs| - 1], fs[|fs| - 1];
      SinceMarked(s, es, before, fp);
      MarkedThen(s, es + before, e, |es|, fp);
      assert es + fs == (es + before) + [e];
    }
  }

  // ----- readers -------------------------------------------------------------------------------------

  // What a reader saw, it saw when it started.
  lemma ReaderStep(s: State, e: Event, r: nat)
    requires r in Apply(s, e).readers
    ensures var me := Apply(s, e).readers[r];
            if r in s.readers then me.fp == s.readers[r].fp && me.sawMarker == s.readers[r].sawMarker
            else e == Open(r, me.fp) && (me.sawMarker <==> s.dir && s.marker == Some(me.fp))
  {
    match e
    case Step => if s.holder.Some? { HolderSame(s, s.holder.value.0, s.holder.value.1); }
    case _ =>
  }

  lemma {:induction false} Opened(s: State, es: seq<Event>, r: nat) returns (k: nat)
    requires s.readers == map[] && r in Run(s, es).readers
    ensures var me := Run(s, es).readers[r];
            && k < |es| && es[k] == Open(r, me.fp) && r !in Run(s, es[..k]).readers
            && (me.sawMarker ==> Run(s, es[..k]).marker == Some(me.fp))
  {
    var before, e := es[..|es| - 1], es[|es| - 1];
    ReaderStep(Run(s, before), e, r);
    if r in Run(s, before).readers {
      k := Opened(s, before, r);
      assert before[..k] == es[..k];
    } else {
      k := |es| - 1;
    }
  }

  lemma SinceMarkedAt(s: State, es: seq<Event>, k: nat, fp: string)
    requires Init(s) && fp in s.tars && k <= |es| && Run(s, es[..k]).marker == Some(fp)
    ensures Complete(Run(s, es), fp) <==> FullSince(s, es, k, fp)
  {
    assert es[..k] + es[k..] == es;
    SinceMarked(s, es[..k], es[k..], fp);
  }

  // In every run: whenever a reader that found its release's marker goes on to use the tree, be it
  // after any number of looks at the required files, the tree is that release's, whole and nothing
  // else, if and only if it has been full since the reader started.
  lemma ReaderIff(s: State, es: seq<Event>, r: nat) returns (k: nat)
    requires Init(s) && r in Run(s, es).readers
    requires Run(s, es).readers[r].sawMarker && Run(s, es).readers[r].fp in s.tars
    ensures var fp := Run(s, es).readers[r].fp;
            && k < |es| && es[k] == Open(r, fp) && r !in Run(s, es[..k]).readers
            && (Complete(Run(s, es), fp) <==> FullSince(s, es, k, fp))
  {
    k := Opened(s, es, r);
    SinceMarkedAt(s, es, k, Run(s, es).readers[r].fp);
  }
}
