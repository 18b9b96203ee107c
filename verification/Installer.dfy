/** The release installer as a crash-prone state machine over the extracted source
    tree.  One process at a time holds the install lock; a step is one file
    operation, and between any two of them the process may die.  Lock-free
    readers check the marker and then the required files, one by one. */
module Installer {
  import opened Wrappers

  type File = nat

  // The required files, start_master.py and its five siblings.
  const REQUIRED: seq<File> := [0, 1, 2, 3, 4, 5]

  // A file on disk: which release it comes from, and whether it was written to its end.
  datatype Piece = Piece(fp: string, whole: bool)

  // What the lock holder does next.
  datatype Pc =
    | Check
    | Remove                              // delete entries of the old tree, in any order
    | Make
    | Extract(todo: seq<File>, begun: bool)
    | Verify
    | Mark
    | Write                               // the marker's text, in pieces

  datatype Reader = Reader(fp: string, sawMarker: bool, checked: nat)

  datatype State = State(
    tars: map<string, seq<File>>,         // the members of each release's tarball
    dir: bool,                            // src_root exists
    files: map<File, Piece>,
    marker: Option<string>,
    holder: Option<(string, Pc)>,         // the lock holder's fingerprint, and where it is
    readers: map<nat, Reader>,
    // History, never read by a step: a file was deleted since the marker last changed, and the
    // marker is still there.
    hurt: bool)

  datatype Event =
    | Lock(fp: string)
    | Step                                // the holder's next operation
    | Unlink(f: File)                     // the holder, while removing, deletes this file
    | UnlinkMarker
    | Append(n: nat)                      // the holder writes the marker up to n characters
    | Crash
    | Open(r: nat, fp: string)            // a reader starts and looks at the marker
    | Look(r: nat)                        // it looks at its next required file

  // ----- readiness ---------------------------------------------------------------------

  predicate HasRequired(s: State) { forall i :: 0 <= i < |REQUIRED| ==> REQUIRED[i] in s.files }

  // _is_src_ready, taken at one instant
  predicate Ready(s: State, fp: string) { s.dir && s.marker == Some(fp) && HasRequired(s) }

  // The whole tarball of the release is extracted, and nothing else is there.
  ghost predicate Complete(s: State, fp: string) {
    && s.dir && fp in s.tars
    && (forall f :: f in s.files <==> f in s.tars[fp])
    && (forall f :: f in s.files ==> s.files[f] == Piece(fp, true))
  }

  // ----- steps ---------------------------------------------------------------------------

  function At(s: State, fp: string, pc: Pc): State { s.(holder := Some((fp, pc))) }

  function Leave(s: State): State { s.(holder := None) }

  // _bootstrap_under_lock, from the second readiness check on
  function HolderStep(s: State, fp: string, pc: Pc): State {
    match pc
    case Check =>
      if Ready(s, fp) then Leave(s) else if s.dir then At(s, fp, Remove) else At(s, fp, Make)
    case Remove =>
      // The directory itself goes last, when it is empty.
      if s.files == map[] && s.marker.None? then At(s.(dir := false), fp, Make) else s
    case Make => At(s.(dir := true), fp, Extract(if fp in s.tars then s.tars[fp] else [], false))
    case Extract(todo, begun) =>
      if todo == [] then At(s, fp, Verify)
      else if !begun then At(s.(files := s.files[todo[0] := Piece(fp, false)]), fp, Extract(todo, true))
      else At(s.(files := s.files[todo[0] := Piece(fp, true)]), fp, Extract(todo[1..], false))
    case Verify => if HasRequired(s) then At(s, fp, Mark) else Leave(s)
    case Mark => At(s.(marker := Some(""), hurt := false), fp, Write)
    case Write => if s.marker == Some(fp) then Leave(s) else s
  }

  function Apply(s: State, e: Event): State {
    match e
    case Lock(fp) => if s.holder.None? && fp in s.tars then At(s, fp, Check) else s
    case Step => if s.holder.Some? then HolderStep(s, s.holder.value.0, s.holder.value.1) else s
    case Unlink(f) =>
      if s.holder.Some? && s.holder.value.1.Remove?
      then s.(files := s.files - {f}, hurt := s.hurt || (f in s.files && s.marker.Some?)) else s
    case UnlinkMarker =>
      if s.holder.Some? && s.holder.value.1.Remove? then s.(marker := None, hurt := false) else s
    case Append(n) =>
      if s.holder.Some? && s.holder.value.1.Write? && s.marker.Some? && |s.marker.value| <= n <= |s.holder.value.0|
      then s.(marker := Some(s.holder.value.0[..n]), hurt := false) else s
    case Crash => Leave(s)
    case Open(r, fp) =>
      if r in s.readers then s else s.(readers := s.readers[r := Reader(fp, s.dir && s.marker == Some(fp), 0)])
    case Look(r) =>
      if r in s.readers && s.readers[r].checked < |REQUIRED| && REQUIRED[s.readers[r].checked] in s.files
      then s.(readers := s.readers[r := s.readers[r].(checked := s.readers[r].checked + 1)]) else s
  }

  function Run(s: State, es: seq<Event>): State {
    if es == [] then s else Apply(Run(s, es[..|es| - 1]), es[|es| - 1])
  }

  // A reader that has seen the marker and every required file takes the fast path.
  predicate Accepts(s: State, r: nat) {
    r in s.readers && s.readers[r].sawMarker && s.readers[r].checked == |REQUIRED|
  }

  // ----- what a marker is worth --------------------------------------------------------------

  // Nothing is known of what earlier processes left, except that a known marker was written at
  // the end of an installation.
  ghost predicate Init(s: State) {
    && s.holder.None? && s.readers == map[] && !s.hurt
    && PrefixFree(s.tars.Keys) && NoDirNoFiles(s)
    && (s.marker.Some? && s.marker.value in s.tars ==> Installed(s, s.marker.value))
  }

  ghost predicate NoDirNoFiles(s: State) { !s.dir ==> s.files == map[] && s.marker.None? }

  // No fingerprint text is the beginning of another one, and none is empty.
  ghost predicate PrefixFree(fps: set<string>) {
    "" !in fps && forall a, b :: a in fps && b in fps && a <= b ==> a == b
  }

  ghost predicate Installed(s: State, fp: string) { Complete(s, fp) && HasRequired(s) }

  // How far the holder has come.
  ghost predicate Holding(s: State, fp: string, pc: Pc) {
    && fp in s.tars
    && (pc.Make? ==> !s.dir)
    && (pc.Extract? ==> s.dir && s.marker.None? && Extracted(s, fp, pc.todo, pc.begun))
    && (pc.Verify? ==> s.marker.None? && Complete(s, fp))
    && (pc.Mark? ==> s.marker.None? && Installed(s, fp))
    && (pc.Write? ==> s.marker.Some? && s.marker.value <= fp && Installed(s, fp) && !s.hurt)
  }

  // All members but those still to do are in place, and nothing that is not a member.
  ghost predicate Extracted(s: State, fp: string, todo: seq<File>, begun: bool) {
    && fp in s.tars
    && (forall f :: f in s.files ==> f in s.tars[fp])
    && (forall f :: f in todo ==> f in s.tars[fp])
    && (forall f :: f in s.tars[fp] && f !in todo ==> f in s.files)
    && (forall f :: f in s.files && f !in todo ==> s.files[f] == Piece(fp, true))
  }

  // Some member of the tarball is missing.
  ghost predicate Damaged(s: State, fp: string) { fp in s.tars && exists f :: f in s.tars[fp] && f !in s.files }

  // A known marker vouches for its tree, unless the tree was hurt.
  ghost predicate Vouched(s: State) {
    s.marker.Some? && s.marker.value in s.tars ==>
      if s.hurt then Damaged(s, s.marker.value) else Installed(s, s.marker.value)
  }

  ghost predicate Inv(s: State) {
    && PrefixFree(s.tars.Keys) && NoDirNoFiles(s)
    && (s.hurt ==> s.marker.Some?)
    && (s.holder.Some? ==> Holding(s, s.holder.value.0, s.holder.value.1))
    && Vouched(s)
  }

  // ----- the holder's steps ------------------------------------------------------------------

  lemma EarlyStep(s: State, fp: string, pc: Pc)
    requires NoDirNoFiles(s) && Holding(s, fp, pc) && (pc.Check? || pc.Remove? || pc.Make?)
    ensures var t := HolderStep(s, fp, pc);
            NoDirNoFiles(t) && (t.holder.Some? && t != s ==> Holding(t, t.holder.value.0, t.holder.value.1))
  {
  }

  lemma ExtractStep(s: State, fp: string, todo: seq<File>, begun: bool)
    requires NoDirNoFiles(s) && Holding(s, fp, Extract(todo, begun))
    ensures var t := HolderStep(s, fp, Extract(todo, begun));
            NoDirNoFiles(t) && t.holder.Some? && Holding(t, t.holder.value.0, t.holder.value.1)
  {
    if todo != [] {
      assert forall f :: f in todo <==> f == todo[0] || f in todo[1..];
    }
  }

  lemma LateStep(s: State, fp: string, pc: Pc)
    requires NoDirNoFiles(s) && Holding(s, fp, pc) && (pc.Verify? || pc.Mark? || pc.Write?)
    ensures var t := HolderStep(s, fp, pc);
            NoDirNoFiles(t) && (t.holder.Some? && t != s ==> Holding(t, t.holder.value.0, t.holder.value.1))
  {
  }

  lemma StepHolding(s: State, fp: string, pc: Pc)
    requires NoDirNoFiles(s) && s.holder == Some((fp, pc)) && Holding(s, fp, pc)
    ensures var t := HolderStep(s, fp, pc);
            NoDirNoFiles(t) && (t.holder.Some? ==> Holding(t, t.holder.value.0, t.holder.value.1))
  {
    match pc
    case Extract(todo, begun) => ExtractStep(s, fp, todo, begun);
    case Check => EarlyStep(s, fp, pc);
    case Remove => EarlyStep(s, fp, pc);
    case Make => EarlyStep(s, fp, pc);
    case _ => LateStep(s, fp, pc);
  }

  // The other things the holder does.
  lemma WorkHolding(s: State, e: Event)
    requires NoDirNoFiles(s) && s.holder.Some? && Holding(s, s.holder.value.0, s.holder.value.1)
    requires e.Unlink? || e.UnlinkMarker? || e.Append?
    ensures var t := Apply(s, e);
            NoDirNoFiles(t) && t.holder == s.holder && Holding(t, t.holder.value.0, t.holder.value.1)
  {
    if e.Append? && Apply(s, e) != s {
      var fp := s.holder.value.0;
      assert fp[..e.n] <= fp;
    }
  }

  // ----- every run ----------------------------------------------------------------------------

  lemma StepInv(s: State)
    requires Inv(s)
    ensures Inv(Apply(s, Step))
  {
    if s.holder.Some? {
      var fp, pc := s.holder.value.0, s.holder.value.1;
      StepHolding(s, fp, pc);
      StepVouched(s, fp, pc);
    }
  }

  lemma StepVouched(s: State, fp: string, pc: Pc)
    requires Inv(s) && s.holder == Some((fp, pc))
    ensures var t := HolderStep(s, fp, pc); Vouched(t) && (t.hurt ==> t.marker.Some?)
  {
  }

  lemma UnlinkInv(s: State, f: File)
    requires Inv(s)
    ensures Inv(Apply(s, Unlink(f)))
  {
    if s.holder.Some? {
      WorkHolding(s, Unlink(f));
      var t := Apply(s, Unlink(f));
      if t.hurt && t.marker.value in t.tars {
        assert !s.hurt ==> f in s.tars[s.marker.value];
      }
    }
  }

  lemma MarkerInv(s: State, e: Event)
    requires Inv(s) && (e.UnlinkMarker? || e.Append?)
    ensures Inv(Apply(s, e))
  {
    if s.holder.Some? {
      WorkHolding(s, e);
      var t := Apply(s, e);
      assert t.marker.Some? && t != s ==> t.marker.value <= s.holder.value.0;
    }
  }

  lemma OtherInv(s: State, e: Event)
    requires Inv(s) && (e.Lock? || e.Crash? || e.Open? || e.Look?)
    ensures Inv(Apply(s, e))
  {
    assert Vouched(Apply(s, e));
  }

  lemma HolderSame(s: State, fp: string, pc: Pc)
    ensures HolderStep(s, fp, pc).tars == s.tars && HolderStep(s, fp, pc).readers == s.readers
  {
    match pc
    case Extract(todo, begun) =>
    case _ =>
  }

  lemma SameTars(s: State, e: Event)
    ensures Apply(s, e).tars == s.tars
  {
    match e
    case Step => if s.holder.Some? { HolderSame(s, s.holder.value.0, s.holder.value.1); }
    case Lock(_) =>
    case Append(_) =>
    case _ =>
  }

  lemma ApplyInv(s: State, e: Event)
    requires Inv(s)
    ensures Inv(Apply(s, e)) && Apply(s, e).tars == s.tars
  {
    SameTars(s, e);
    match e
    case Step => StepInv(s);
    case Unlink(f) => UnlinkInv(s, f);
    case UnlinkMarker => MarkerInv(s, e);
    case Append(_) => MarkerInv(s, e);
    case _ => OtherInv(s, e);
  }

  lemma {:induction false} RunInv(s: State, es: seq<Event>)
    requires Init(s)
    ensures Inv(Run(s, es)) && Run(s, es).tars == s.tars
  {
    if es != [] {
      RunInv(s, es[..|es| - 1]);
      ApplyInv(Run(s, es[..|es| - 1]), es[|es| - 1]);
    }
  }

  // ----- the lock -------------------------------------------------------------------------------

  // Whoever has the lock keeps it until it leaves or dies: nobody else gets it, and nothing but its
  // own work moves it on.
  lemma LockIsExclusive(s: State, e: Event)
    requires s.holder.Some?
    ensures var h := Apply(s, e).holder;
            && (h.None? ==> e.Step? || e.Crash?) && (h.Some? ==> h.value.0 == s.holder.value.0)
            && (!e.Step? && !e.Crash? ==> h == s.holder)
  {
    if e.Step? {
      var pc := s.holder.value.1;
      match pc
      case Extract(todo, begun) =>
      case _ =>
    }
  }

  function HolderName(s: State): Option<string> { if s.holder.Some? then Some(s.holder.value.0) else None }

  // Names that change only through None.
  lemma {:induction false} NoneBetween(h: nat -> Option<string>, n: nat) returns (i: nat)
    requires h(0).Some? && h(n).Some? && h(0) != h(n)
    requires forall k: nat :: k < n && h(k).Some? && h(k + 1).Some? ==> h(k) == h(k + 1)
    ensures i <= n && h(i).None?
  {
    if h(n - 1).None? { i := n - 1; } else { i := NoneBetween(h, n - 1); }
  }

  // Between two holders it is free.
  lemma HolderLeft(s: State, es: seq<Event>, fs: seq<Event>) returns (i: nat)
    requires HolderName(Run(s, es)).Some? && HolderName(Run(s, es + fs)).Some?
    requires HolderName(Run(s, es)) != HolderName(Run(s, es + fs))
    ensures i <= |fs| && Run(s, es + fs[..i]).holder.None?
  {
    var h := (k: nat) => if k <= |fs| then HolderName(Run(s, es + fs[..k])) else None;
    forall k: nat | k < |fs| && h(k).Some? && h(k + 1).Some?
      ensures h(k) == h(k + 1)
    {
      assert es + fs[..k + 1] == (es + fs[..k]) + [fs[k]];
      RunThen(s, es + fs[..k], fs[k]);
      KeptByOne(Run(s, es + fs[..k]), fs[k]);
    }
    assert es + fs[..0] == es && fs[..|fs|] == fs;
    i := NoneBetween(h, |fs|);
  }

  lemma KeptByOne(s: State, e: Event)
    requires s.holder.Some? && Apply(s, e).holder.Some?
    ensures Apply(s, e).holder.value.0 == s.holder.value.0
  {
    LockIsExclusive(s, e);
  }

  // ----- theorems -----------------------------------------------------------------------------

  // In every run, with any releases, any crashes and any restarts: a tree that looks ready for a
  // release is that release's tarball, fully extracted and nothing else, if and only if no file
  // was deleted since its marker was written.
  lemma {:induction false} ReadyIff(s: State, es: seq<Event>, fp: string)
    requires Init(s) && fp in s.tars && Ready(Run(s, es), fp)
    ensures Complete(Run(s, es), fp) <==> !Run(s, es).hurt
  {
    RunInv(s, es);
  }

  // All installers of the run install one release.
  ghost predicate OnlyLocks(es: seq<Event>, fp: string) {
    forall i :: 0 <= i < |es| && es[i].Lock? ==> es[i].fp == fp
  }

  ghost predicate OneInv(s: State, fp: string) {
    && (s.holder.Some? ==> s.holder.value.0 == fp)
    && (s.holder.Some? && s.holder.value.1.Remove? ==> s.marker != Some(fp))
    && (s.hurt ==> s.marker != Some(fp))
    && (forall r :: r in s.readers && s.readers[r].sawMarker && s.readers[r].fp == fp ==> s.marker == Some(fp))
  }

  lemma OneApply(s: State, e: Event, fp: string)
    requires Inv(s) && OneInv(s, fp) && fp in s.tars && (e.Lock? ==> e.fp == fp)
    ensures OneInv(Apply(s, e), fp)
  {
    if e.Append? { assert fp[..|fp|] == fp; }
  }

  lemma {:induction false} OneRun(s: State, es: seq<Event>, fp: string)
    requires Init(s) && fp in s.tars && OnlyLocks(es, fp)
    ensures OneInv(Run(s, es), fp)
  {
    if es != [] {
      RunInv(s, es[..|es| - 1]);
      OneRun(s, es[..|es| - 1], fp);
      OneApply(Run(s, es[..|es| - 1]), es[|es| - 1], fp);
    }
  }

  // With one release the condition always holds, whatever files or foreign marker lay there
  // before: neither the test at one instant nor a slow reader accepts anything but the full tree.
  lemma {:induction false} OneManifestIsSafe(s: State, es: seq<Event>, fp: string, r: nat)
    requires Init(s) && fp in s.tars && OnlyLocks(es, fp)
    ensures Ready(Run(s, es), fp) ==> Complete(Run(s, es), fp)
    ensures Accepts(Run(s, es), r) && Run(s, es).readers[r].fp == fp ==> Complete(Run(s, es), fp)
  {
    OneRun(s, es, fp);
    RunInv(s, es);
  }

  // The bad case exists: whatever releases a and b are, if a is installed and has any file beyond
  // the required ones, an installer of b that dies after deleting it leaves a tree that looks
  // ready for a.
  lemma ReturnIsUnsafe(s: State, a: string, b: string, f: File)
    requires Init(s) && a in s.tars && b in s.tars && a != b && s.marker == Some(a)
    requires f in s.tars[a] && f !in REQUIRED
    ensures var t := Run(s, [Lock(b), Step, Unlink(f), Crash]);
            t.holder.None? && t.hurt && Ready(t, a) && !Complete(t, a)
  {
    assert Installed(s, a);
    RunThen(s, [], Lock(b));
    RunThen(s, [Lock(b)], Step);
    RunThen(s, [Lock(b), Step], Unlink(f));
    RunThen(s, [Lock(b), Step, Unlink(f)], Crash);
    assert [] + [Lock(b)] == [Lock(b)] && [Lock(b)] + [Step] == [Lock(b), Step];
    assert [Lock(b), Step] + [Unlink(f)] == [Lock(b), Step, Unlink(f)];
    assert [Lock(b), Step, Unlink(f)] + [Crash] == [Lock(b), Step, Unlink(f), Crash];
    assert forall i :: 0 <= i < |REQUIRED| ==> REQUIRED[i] in REQUIRED;
    var t := Run(s, [Lock(b), Step, Unlink(f), Crash]);
    assert t.files == s.files - {f};
  }

  lemma RunThen(s: State, es: seq<Event>, e: Event)
    ensures Run(s, es + [e]) == Apply(Run(s, es), e)
  {
    assert (es + [e])[..|es|] == es;
  }

  // ----- the marker's text ---------------------------------------------------------------------

  // _fingerprint_text
  function FingerprintText(tar: string, tarHash: string, wheel: string, wheelHash: string): string {
    tar + " " + tarHash + "\n" + wheel + " " + wheelHash + "\n"
  }

  predicate OneLine(t: string) { '\n' !in t }

  // A line that begins another text with the same shape is its first line.
  lemma FirstLine(a: string, b: string, x: string, y: string)
    requires OneLine(a) && OneLine(b) && a + "\n" + x <= b + "\n" + y
    ensures a == b && x <= y
  {
    var p, q := a + "\n" + x, b + "\n" + y;
    assert forall i :: 0 <= i < |p| ==> p[i] == q[i];
    assert p[|a|] == '\n' && forall i :: 0 <= i < |a| ==> p[i] == a[i] && a[i] in a;
    assert q[|b|] == '\n' && forall i :: 0 <= i < |b| ==> q[i] == b[i] && b[i] in b;
    assert |a| == |b|;
    assert a == p[..|a|] == q[..|a|] == b;
    assert x == p[|a| + 1..] && y == q[|a| + 1..];
  }

  lemma FingerprintsArePrefixFree(tar: string, tarHash: string, wheel: string, wheelHash: string,
                                  tar': string, tarHash': string, wheel': string, wheelHash': string)
    requires OneLine(tar + " " + tarHash) && OneLine(wheel + " " + wheelHash)
    requires OneLine(tar' + " " + tarHash') && OneLine(wheel' + " " + wheelHash')
    requires FingerprintText(tar, tarHash, wheel, wheelHash) <= FingerprintText(tar', tarHash', wheel', wheelHash')
    ensures FingerprintText(tar, tarHash, wheel, wheelHash) == FingerprintText(tar', tarHash', wheel', wheelHash')
  {
    var a, b := tar + " " + tarHash, tar' + " " + tarHash';
    var x, y := wheel + " " + wheelHash, wheel' + " " + wheelHash';
    var fp, fp' := FingerprintText(tar, tarHash, wheel, wheelHash), FingerprintText(tar', tarHash', wheel', wheelHash');
    assert fp == a + "\n" + (x + "\n" + "") && fp' == b + "\n" + (y + "\n" + "");
    FirstLine(a, b, x + "\n" + "", y + "\n" + "");
    FirstLine(x, y, "", "");
  }
}
