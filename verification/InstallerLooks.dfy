/** When a reader without the lock takes the fast path: exactly if it found its release's marker
    when it started and then saw every required file, one after another, in place. */
module InstallerLooks {
  import opened Wrappers
  import opened Installer
  import opened InstallerReaders

  // The n-th event is the first one of the reader, which finds the marker of the release or not.
  ghost predicate OpensAt(s: State, es: seq<Event>, r: nat, k: nat, fp: string) {
    k < |es| && es[k] == Open(r, fp) && r !in Run(s, es[..k]).readers
  }

  ghost predicate MarkedAt(s: State, es: seq<Event>, k: nat, fp: string)
    requires k <= |es|
  {
    Run(s, es[..k]).dir && Run(s, es[..k]).marker == Some(fp)
  }

  // At the n-th event the reader looks, and the i-th required file is there.
  ghost predicate SeesAt(s: State, es: seq<Event>, r: nat, i: nat, n: nat) {
    i < |REQUIRED| && n < |es| && es[n] == Look(r) && REQUIRED[i] in Run(s, es[..n]).files
  }

  // The reader sees the first required files at these events, in this order, all after the k-th.
  ghost predicate Sees(s: State, es: seq<Event>, r: nat, k: nat, ns: seq<nat>) {
    && (forall i :: 0 <= i < |ns| ==> k < ns[i] && SeesAt(s, es, r, i, ns[i]))
    && (forall i, j :: 0 <= i < j < |ns| ==> ns[i] < ns[j])
  }

  // ----- one step -----------------------------------------------------------------------------

  lemma LookStep(s: State, e: Event, r: nat)
    requires r in s.readers
    ensures r in Apply(s, e).readers
    ensures var n := s.readers[r].checked;
            Apply(s, e).readers[r].checked
            == n + if e == Look(r) && n < |REQUIRED| && REQUIRED[n] in s.files then 1 else 0
  {
    match e
    case Step => if s.holder.Some? { HolderSame(s, s.holder.value.0, s.holder.value.1); }
    case _ =>
  }

  lemma FirstStep(s: State, e: Event, r: nat)
    requires r !in s.readers
    ensures r in Apply(s, e).readers <==> e.Open? && e.r == r
    ensures r in Apply(s, e).readers ==>
              Apply(s, e).readers[r] == Reader(e.fp, s.dir && s.marker == Some(e.fp), 0)
  {
    match e
    case Step => if s.holder.Some? { HolderSame(s, s.holder.value.0, s.holder.value.1); }
    case _ =>
  }

  lemma Longer(s: State, es: seq<Event>, e: Event, r: nat, k: nat, ns: seq<nat>)
    requires Sees(s, es, r, k, ns)
    ensures Sees(s, es + [e], r, k, ns)
  {
    forall i | 0 <= i < |ns|
      ensures SeesAt(s, es + [e], r, i, ns[i])
    {
      assert SeesAt(s, es, r, i, ns[i]);
      assert (es + [e])[..ns[i]] == es[..ns[i]];
    }
  }

  lemma OneMore(s: State, es: seq<Event>, r: nat, k: nat, ns: seq<nat>)
    requires Sees(s, es, r, k, ns) && k < |es| && |ns| < |REQUIRED| && REQUIRED[|ns|] in Run(s, es).files
    ensures Sees(s, es + [Look(r)], r, k, ns + [|es|])
  {
    Longer(s, es, Look(r), r, k, ns);
    var all, ms := es + [Look(r)], ns + [|es|];
    assert all[..|es|] == es && all[|es|] == Look(r);
    assert SeesAt(s, all, r, |ns|, |es|);
    forall i | 0 <= i < |ms|
      ensures k < ms[i] && SeesAt(s, all, r, i, ms[i])
    {
      assert i < |ns| ==> k < ns[i] && SeesAt(s, all, r, i, ns[i]);
    }
    assert forall i :: 0 <= i < |ns| ==> SeesAt(s, es, r, i, ns[i]);
  }

  // ----- every run ------------------------------------------------------------------------------

  // What a reader has counted, it has seen.
  lemma {:induction false} Counted(s: State, es: seq<Event>, r: nat) returns (k: nat, ns: seq<nat>)
    requires s.readers == map[] && r in Run(s, es).readers
    ensures var me := Run(s, es).readers[r];
            && OpensAt(s, es, r, k, me.fp) && (me.sawMarker <==> MarkedAt(s, es, k, me.fp))
            && |ns| == me.checked <= |REQUIRED| && Sees(s, es, r, k, ns)
  {
    var before, e := es[..|es| - 1], es[|es| - 1];
    assert es == before + [e];
    var t := Run(s, before);
    if r in t.readers {
      k, ns := Counted(s, before, r);
      assert before[..k] == es[..k];
      ReaderStep(t, e, r);
      LookStep(t, e, r);
      if Run(s, es).readers[r].checked == |ns| {
        Longer(s, before, e, r, k, ns);
      } else {
        OneMore(s, before, r, k, ns);
        ns := ns + [|before|];
      }
    } else {
      FirstStep(t, e, r);
      k, ns := |before|, [];
    }
  }

  lemma {:induction false} StaysCounted(s: State, es: seq<Event>, fs: seq<Event>, r: nat)
    requires r in Run(s, es).readers
    ensures r in Run(s, es + fs).readers && Run(s, es + fs).readers[r].checked >= Run(s, es).readers[r].checked
    decreases |fs|
  {
    if fs == [] {
      assert es + fs == es;
    } else {
      var before, e := fs[..|fs| - 1], fs[|fs| - 1];
      StaysCounted(s, es, before, r);
      RunThen(s, es + before, e);
      LookStep(Run(s, es + before), e, r);
      assert es + fs == (es + before) + [e];
    }
  }

  lemma StaysCountedFrom(s: State, es: seq<Event>, n: nat, r: nat)
    requires n <= |es| && r in Run(s, es[..n]).readers
    ensures r in Run(s, es).readers && Run(s, es).readers[r].checked >= Run(s, es[..n]).readers[r].checked
  {
    StaysCounted(s, es[..n], es[n..], r);
    assert es[..n] + es[n..] == es;
  }

  // A reader that was opened is there ever after.
  lemma OpenedStays(s: State, es: seq<Event>, r: nat, k: nat, fp: string, n: nat)
    requires OpensAt(s, es, r, k, fp) && k < n <= |es|
    ensures r in Run(s, es[..n]).readers
  {
    var all := es[..n];
    assert all[..k + 1] == es[..k] + [es[k]];
    RunThen(s, es[..k], es[k]);
    FirstStep(Run(s, es[..k]), es[k], r);
    StaysCountedFrom(s, all, k + 1, r);
  }

  lemma SeesShorter(s: State, es: seq<Event>, r: nat, k: nat, ns: seq<nat>)
    requires Sees(s, es, r, k, ns) && ns != []
    ensures Sees(s, es[..ns[|ns| - 1]], r, k, ns[..|ns| - 1])
  {
    var n := ns[|ns| - 1];
    var ms := ns[..|ns| - 1];
    assert SeesAt(s, es, r, |ms|, n);
    forall i | 0 <= i < |ms|
      ensures k < ms[i] && SeesAt(s, es[..n], r, i, ms[i])
    {
      assert k < ns[i] && SeesAt(s, es, r, i, ns[i]) && ns[i] < n;
      assert es[..n][..ns[i]] == es[..ns[i]];
    }
  }

  lemma SeenOne(s: State, es: seq<Event>, n: nat, r: nat, j: nat)
    requires SeesAt(s, es, r, j, n) && r in Run(s, es[..n]).readers && Run(s, es[..n]).readers[r].checked >= j
    ensures r in Run(s, es).readers && Run(s, es).readers[r].checked >= j + 1
  {
    LookStep(Run(s, es[..n]), es[n], r);
    RunThen(s, es[..n], es[n]);
    assert es[..n] + [es[n]] == es[..n + 1];
    StaysCountedFrom(s, es, n + 1, r);
  }

  // What a reader has seen in order, it has counted.
  lemma {:induction false} SeenIsCounted(s: State, es: seq<Event>, r: nat, k: nat, fp: string, ns: seq<nat>)
    requires OpensAt(s, es, r, k, fp) && Sees(s, es, r, k, ns)
    ensures r in Run(s, es).readers && Run(s, es).readers[r].checked >= |ns|
    decreases |ns|
  {
    if ns == [] {
      OpenedStays(s, es, r, k, fp, |es|);
      assert es[..|es|] == es;
    } else {
      var j := |ns| - 1;
      var n := ns[j];
      assert k < n && SeesAt(s, es, r, j, n);
      assert es[..n][..k] == es[..k];
      SeesShorter(s, es, r, k, ns);
      SeenIsCounted(s, es[..n], r, k, fp, ns[..j]);
      SeenOne(s, es, n, r, j);
    }
  }

  // ----- theorems ---------------------------------------------------------------------------------

  // In every run a reader takes the fast path if and only if it found its release's marker when it
  // started and has seen every required file since, in their order.
  lemma AcceptsIff(s: State, es: seq<Event>, r: nat)
    requires s.readers == map[]
    ensures Accepts(Run(s, es), r) <==>
            exists k, fp, ns :: OpensAt(s, es, r, k, fp) && MarkedAt(s, es, k, fp)
                                && Sees(s, es, r, k, ns) && |ns| == |REQUIRED|
  {
    if k, fp, ns :| OpensAt(s, es, r, k, fp) && MarkedAt(s, es, k, fp) && Sees(s, es, r, k, ns) && |ns| == |REQUIRED| {
      SeenIsCounted(s, es, r, k, fp, ns);
      var k', _ := Counted(s, es, r);
      OnlyOnce(s, es, r, k, fp, k', Run(s, es).readers[r].fp);
    }
    if Accepts(Run(s, es), r) {
      var k, ns := Counted(s, es, r);
    }
  }

  lemma OnlyOnce(s: State, es: seq<Event>, r: nat, k: nat, fp: string, k': nat, fp': string)
    requires OpensAt(s, es, r, k, fp) && OpensAt(s, es, r, k', fp')
    ensures k == k' && fp == fp'
  {
    if k < k' { OpenedStays(s, es, r, k, fp, k'); }
    if k' < k { OpenedStays(s, es, r, k', fp', k); }
  }

  // Each required file was there at a look of a reader that takes it.
  lemma AcceptedSaw(s: State, es: seq<Event>, r: nat, i: nat) returns (k: nat, fp: string, n: nat)
    requires s.readers == map[] && Accepts(Run(s, es), r) && i < |REQUIRED|
    ensures OpensAt(s, es, r, k, fp) && MarkedAt(s, es, k, fp) && k < n && SeesAt(s, es, r, i, n)
  {
    var ns;
    k, ns := Counted(s, es, r);
    fp, n := Run(s, es).readers[r].fp, ns[i];
  }

  // The i-th required file is missing at every look of the reader after the k-th event.
  ghost predicate NeverThere(s: State, es: seq<Event>, r: nat, k: nat, i: nat) {
    forall n :: k < n ==> !SeesAt(s, es, r, i, n)
  }

  // So a reader that never finds one of the required files does not take it.
  lemma MissingFileRefuses(s: State, es: seq<Event>, r: nat, k: nat, fp: string, i: nat)
    requires s.readers == map[] && OpensAt(s, es, r, k, fp) && i < |REQUIRED| && NeverThere(s, es, r, k, i)
    ensures !Accepts(Run(s, es), r)
  {
    if Accepts(Run(s, es), r) {
      var k', fp', n := AcceptedSaw(s, es, r, i);
      OnlyOnce(s, es, r, k, fp, k', fp');
    }
  }
}
