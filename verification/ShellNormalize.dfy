/** The three spellings of the host work directory in an environment value, and the chain of
    replacements that turns each of them into the one the shell expands. */
module ShellNormalize {
  import opened ShellQuote
  import opened ShellExport

  const SHORT := "$HOSTWORKDIR"
  const PATH := "/hostworkdir"
  const MARKER := "__FLUXON_HOSTWORKDIR_RUNTIME__"

  // _normalize_hostworkdir_tokens up to the marker, and the whole of it
  function Marked(v: string): string { Replace(Replace(Replace(v, TOKEN, MARKER), SHORT, MARKER), PATH, MARKER) }

  function Normalized(v: string): string { Replace(Marked(v), MARKER, TOKEN) }

  // The length of the spelling at the front, 0 if there is none.
  function Spelling(v: string): (n: nat)
    ensures n <= |v|
  {
    if TOKEN <= v then |TOKEN| else if SHORT <= v then |SHORT| else if PATH <= v then |PATH| else 0
  }

  // Every spelling replaced, in one pass.
  function Subst(v: string, to: string): string {
    if v == "" then ""
    else if Spelling(v) > 0 then to + Subst(v[Spelling(v)..], to)
    else [v[0]] + Subst(v[1..], to)
  }

  // ----- what a replacement leaves alone -----------------------------------------------------

  lemma {:induction false} ReplaceBehind(a: string, b: string, from: string, to: string)
    requires from != "" && from[0] !in a
    ensures Replace(a + b, from, to) == a + Replace(b, from, to)
  {
    if a == "" {
      assert a + b == b;
    } else {
      assert a[0] in a && (a + b)[1..] == a[1..] + b;
      ReplaceBehind(a[1..], b, from, to);
    }
  }

  // What stands at the front afterwards stood there before, if the inserted text cannot begin
  // inside it.
  lemma {:induction false} KeptByReplace(w: string, from: string, to: string, p: string)
    requires from != "" && to != "" && to[0] !in p && p <= Replace(w, from, to)
    ensures p <= w
  {
    if p != "" {
      assert p[0] in p && p[0] == Replace(w, from, to)[0];
      KeptByReplace(w[1..], from, to, p[1..]);
    }
  }

  lemma {:induction false} KeptBySubst(w: string, to: string, p: string)
    requires to != "" && to[0] !in p && p <= Subst(w, to)
    ensures p <= w
  {
    if p != "" {
      assert p[0] in p && p[0] == Subst(w, to)[0];
      KeptBySubst(w[1..], to, p[1..]);
    }
  }

  // ----- one pass is enough ------------------------------------------------------------------

  lemma MarkerIsPlain()
    ensures '$' !in MARKER && '/' !in MARKER
  {
  }

  lemma SpellingsArePlain()
    ensures '$' !in SHORT[1..] && '$' !in PATH && '_' !in SHORT[1..] && '_' !in PATH[1..]
  {
  }

  // A spelling at the front becomes the marker and nothing else changes there.
  lemma MarkedSpelling(v: string)
    requires Spelling(v) > 0
    ensures Marked(v) == MARKER + Marked(v[Spelling(v)..])
  {
    if TOKEN <= v {
      MarkedToken(v[|TOKEN|..]);
      assert v == TOKEN + v[|TOKEN|..];
    } else if SHORT <= v {
      MarkedShort(v, v[|SHORT|..]);
    } else {
      MarkedPath(v[|PATH|..]);
      assert v == PATH + v[|PATH|..];
    }
  }

  lemma MarkedToken(more: string)
    ensures Marked(TOKEN + more) == MARKER + Marked(more)
  {
    MarkerIsPlain();
    var one := Replace(more, TOKEN, MARKER);
    ReplaceFront(TOKEN, more, MARKER);
    ReplaceBehind(MARKER, one, SHORT, MARKER);
    ReplaceBehind(MARKER, Replace(one, SHORT, MARKER), PATH, MARKER);
  }

  lemma MarkedShort(v: string, more: string)
    requires v == SHORT + more && !(TOKEN <= v)
    ensures Marked(v) == MARKER + Marked(more)
  {
    var one := Replace(more, TOKEN, MARKER);
    ShortStays(v, more);
    ReplaceFront(SHORT, one, MARKER);
    MarkerIsPlain();
    ReplaceBehind(MARKER, Replace(one, SHORT, MARKER), PATH, MARKER);
  }

  // Text at the front that only its first character could have been the start of stays.
  lemma FrontStays(front: string, more: string, from: string, to: string)
    requires front != "" && from != "" && from[0] !in front[1..] && !(from <= front + more)
    ensures Replace(front + more, from, to) == front + Replace(more, from, to)
  {
    assert (front + more)[1..] == front[1..] + more;
    ReplaceBehind(front[1..], more, from, to);
    assert front == [front[0]] + front[1..];
  }

  lemma ShortStays(v: string, more: string)
    requires v == SHORT + more && !(TOKEN <= v)
    ensures Replace(v, TOKEN, MARKER) == SHORT + Replace(more, TOKEN, MARKER)
  {
    SpellingsArePlain();
    FrontStays(SHORT, more, TOKEN, MARKER);
  }

  lemma ReplaceFront(from: string, more: string, to: string)
    requires from != ""
    ensures Replace(from + more, from, to) == to + Replace(more, from, to)
  {
    assert (from + more)[|from|..] == more;
  }

  lemma MarkedPath(more: string)
    ensures Marked(PATH + more) == MARKER + Marked(more)
  {
    SpellingsArePlain();
    var one := Replace(more, TOKEN, MARKER);
    var two := Replace(one, SHORT, MARKER);
    ReplaceBehind(PATH, more, TOKEN, MARKER);
    ReplaceBehind(PATH, one, SHORT, MARKER);
    ReplaceFront(PATH, two, MARKER);
  }

  lemma MarkedChar(v: string)
    requires v != "" && Spelling(v) == 0
    ensures Marked(v) == [v[0]] + Marked(v[1..])
  {
    SpellingsArePlain();
    var one := Replace(v[1..], TOKEN, MARKER);
    var two := Replace(one, SHORT, MARKER);
    assert Replace(v, TOKEN, MARKER) == [v[0]] + one;
    NotFormed(v, one, SHORT);
    assert ([v[0]] + one)[1..] == one;
    NotFormedTwice(v, one, two);
    assert ([v[0]] + two)[1..] == two;
  }

  lemma NotFormed(v: string, one: string, p: string)
    requires v != "" && p != "" && one == Replace(v[1..], TOKEN, MARKER) && '_' !in p[1..] && !(p <= v)
    ensures !(p <= [v[0]] + one)
  {
    if p <= [v[0]] + one {
      assert p[1..] <= one;
      KeptByReplace(v[1..], TOKEN, MARKER, p[1..]);
    }
  }

  lemma KeptTwice(w: string, p: string)
    requires p == PATH[1..] && p <= Replace(Replace(w, TOKEN, MARKER), SHORT, MARKER)
    ensures p <= w
  {
    SpellingsArePlain();
    KeptByReplace(Replace(w, TOKEN, MARKER), SHORT, MARKER, p);
    KeptByReplace(w, TOKEN, MARKER, p);
  }

  lemma NotFormedTwice(v: string, one: string, two: string)
    requires v != "" && one == Replace(v[1..], TOKEN, MARKER) && two == Replace(one, SHORT, MARKER) && !(PATH <= v)
    ensures !(PATH <= [v[0]] + two)
  {
    if PATH <= [v[0]] + two {
      assert PATH[1..] <= two;
      KeptTwice(v[1..], PATH[1..]);
    }
  }

  // The three passes do what one pass over all spellings does.
  lemma {:induction false} MarkedInOnePass(v: string)
    ensures Marked(v) == Subst(v, MARKER)
    decreases |v|
  {
    if v != "" {
      if Spelling(v) > 0 {
        MarkedSpelling(v);
        MarkedInOnePass(v[Spelling(v)..]);
      } else {
        MarkedChar(v);
        MarkedInOnePass(v[1..]);
      }
    }
  }

  // ----- when the marker gets in the way ---------------------------------------------------------

  // A marker is read where none was put: at some character that begins no spelling, the marked
  // text goes on like the marker.
  predicate Clash(v: string)
    decreases |v|
  {
    v != "" && (if Spelling(v) > 0 then Clash(v[Spelling(v)..]) else MARKER <= Subst(v, MARKER) || Clash(v[1..]))
  }

  // The chain of replacements turns each spelling into the token and changes nothing else, if
  // and only if there is no clash.
  lemma {:induction false} NormalizedIff(v: string)
    ensures Normalized(v) == Subst(v, TOKEN) <==> !Clash(v)
  {
    MarkedInOnePass(v);
    BackIff(v);
  }

  lemma {:induction false} BackIff(v: string)
    ensures Replace(Subst(v, MARKER), MARKER, TOKEN) == Subst(v, TOKEN) <==> !Clash(v)
    decreases |v|
  {
    if v != "" {
      if Spelling(v) > 0 {
        var more := v[Spelling(v)..];
        BackIff(more);
        BackSpelling(v);
        SameFront(TOKEN, Replace(Subst(more, MARKER), MARKER, TOKEN), Subst(more, TOKEN));
      } else {
        BackIff(v[1..]);
        BackChar(v);
        SameFront([v[0]], Replace(Subst(v[1..], MARKER), MARKER, TOKEN), Subst(v[1..], TOKEN));
      }
    }
  }

  lemma SameFront(a: string, x: string, y: string)
    ensures a + x == a + y <==> x == y
  {
    assert (a + x)[|a|..] == x && (a + y)[|a|..] == y;
  }

  lemma BackSpelling(v: string)
    requires v != "" && Spelling(v) > 0
    ensures Replace(Subst(v, MARKER), MARKER, TOKEN) == TOKEN + Replace(Subst(v[Spelling(v)..], MARKER), MARKER, TOKEN)
  {
    var more := Subst(v[Spelling(v)..], MARKER);
    assert (MARKER + more)[|MARKER|..] == more;
  }

  lemma BackChar(v: string)
    requires v != "" && Spelling(v) == 0
    ensures var all, more := Subst(v, MARKER), Subst(v[1..], MARKER);
            if MARKER <= all then Replace(all, MARKER, TOKEN) != Subst(v, TOKEN)
            else Replace(all, MARKER, TOKEN) == [v[0]] + Replace(more, MARKER, TOKEN)
  {
    var all, more := Subst(v, MARKER), Subst(v[1..], MARKER);
    assert all == [v[0]] + more && all[1..] == more;
    if MARKER <= all {
      assert all[0] == '_' && Replace(all, MARKER, TOKEN)[0] == '$' && Subst(v, TOKEN)[0] == '_';
    }
  }

  // The marker without its last two underscores.
  const STEM := "__FLUXON_HOSTWORKDIR_RUNTIME"

  lemma StemEnds()
    ensures STEM == MARKER[..|STEM|] && STEM[|STEM| - 1] == 'E'
    ensures forall i :: 0 <= i < |STEM| - 1 ==> MARKER[i] != 'E'
  {
  }

  lemma {:induction false} StemKept(w: string, j: nat)
    requires 0 < j <= |STEM| && STEM[j..] <= Subst(w, MARKER)
    ensures STEM[j..] <= w
    decreases |STEM| - j
  {
    if j < |STEM| {
      StemEnds();
      var n := |STEM| - j;
      assert STEM[j..][n - 1] == 'E' && Subst(w, MARKER)[n - 1] == 'E';
      assert w != "" && Spelling(w) == 0;
      assert STEM[j..][1..] == STEM[j + 1..] && Subst(w, MARKER)[1..] == Subst(w[1..], MARKER);
      StemKept(w[1..], j + 1);
    }
  }

  // In terms of the value alone: the marker's text stands at the front, or that text short of its
  // last two or of its last underscore, with a spelling behind it.
  predicate ClashAt(w: string) {
    || MARKER <= w
    || (STEM <= w && Spelling(w[|STEM|..]) > 0)
    || (STEM + "_" <= w && Spelling(w[|STEM| + 1..]) > 0)
  }

  predicate ClashSomewhere(v: string) { exists i :: 0 <= i <= |v| && ClashAt(v[i..]) }

  lemma {:induction false} SubstBehind(a: string, b: string, to: string)
    requires '$' !in a && '/' !in a
    ensures Subst(a + b, to) == a + Subst(b, to)
  {
    if a == "" {
      assert a + b == b;
    } else {
      assert a[0] in a && (a + b)[0] == a[0] && TOKEN[0] == '$' && SHORT[0] == '$' && PATH[0] == '/';
      assert (a + b)[1..] == a[1..] + b;
      SubstBehind(a[1..], b, to);
    }
  }

  lemma UnderscoreIff(x: string)
    ensures "_" <= Subst(x, MARKER) <==> Spelling(x) > 0 || "_" <= x
  {
    if x != "" && Spelling(x) == 0 { assert Subst(x, MARKER) == [x[0]] + Subst(x[1..], MARKER); }
    if Spelling(x) > 0 { assert Subst(x, MARKER)[0] == '_'; }
  }

  lemma TwoFront(c: char, x: string)
    ensures "__" <= [c] + x <==> c == '_' && "_" <= x
  {
    var two := "__";
    assert x != "" ==> ([c] + x)[1] == x[0];
    assert two <= [c] + x <==> x != "" && c == two[0] && x[0] == two[1];
  }

  lemma UnderscoresIff(r: string)
    ensures "__" <= Subst(r, MARKER) <==>
              Spelling(r) > 0 || (r != "" && r[0] == '_' && (Spelling(r[1..]) > 0 || "_" <= r[1..]))
  {
    if r != "" && Spelling(r) == 0 {
      assert Subst(r, MARKER) == [r[0]] + Subst(r[1..], MARKER);
      TwoFront(r[0], Subst(r[1..], MARKER));
      UnderscoreIff(r[1..]);
    }
  }

  lemma StemIsPlain()
    ensures '$' !in STEM && '/' !in STEM && MARKER == STEM + "__"
  {
  }

  lemma ClashAfterStem(r: string)
    ensures ClashAt(STEM + r) <==> "__" <= Subst(r, MARKER)
  {
    UnderscoresIff(r);
    StemIsPlain();
    var w := STEM + r;
    assert w[|STEM|..] == r;
    assert MARKER <= w <==> "__" <= r;
    assert STEM + "_" <= w <==> "_" <= r;
    if "_" <= r { assert w[|STEM| + 1..] == r[1..]; }
  }

  lemma MarkerAfterStem(r: string)
    ensures MARKER <= Subst(STEM + r, MARKER) <==> "__" <= Subst(r, MARKER)
  {
    StemIsPlain();
    SubstBehind(STEM, r, MARKER);
    var rest := Subst(r, MARKER);
    assert (STEM + rest)[|STEM|..] == rest;
  }

  lemma ClashHere(w: string)
    requires w != "" && Spelling(w) == 0
    ensures MARKER <= Subst(w, MARKER) <==> ClashAt(w)
  {
    if STEM <= w {
      assert w == STEM + w[|STEM|..];
      MarkerAfterStem(w[|STEM|..]);
      ClashAfterStem(w[|STEM|..]);
    } else {
      NoStemNoClash(w);
    }
  }

  lemma NoStemNoClash(w: string)
    requires w != "" && Spelling(w) == 0 && !(STEM <= w)
    ensures !(MARKER <= Subst(w, MARKER)) && !ClashAt(w)
  {
    StemIsPlain();
    if MARKER <= Subst(w, MARKER) {
      StemEnds();
      assert STEM[1..] <= Subst(w, MARKER)[1..] == Subst(w[1..], MARKER);
      StemKept(w[1..], 1);
    }
    assert MARKER <= w ==> STEM <= w;
  }

  lemma NoClashInSpelling(v: string, i: nat)
    requires i < Spelling(v)
    ensures !ClashAt(v[i..])
  {
    assert v[i..][0] == v[i] && STEM[0] == '_' && MARKER[0] == '_';
    assert v[i] == (if TOKEN <= v then TOKEN[i] else if SHORT <= v then SHORT[i] else PATH[i]);
    SpellingsLackUnderscore();
  }

  lemma SpellingsLackUnderscore()
    ensures forall i :: 0 <= i < |TOKEN| ==> TOKEN[i] != '_'
    ensures forall i :: 0 <= i < |SHORT| ==> SHORT[i] != '_'
    ensures forall i :: 0 <= i < |PATH| ==> PATH[i] != '_'
  {
  }

  // There is a clash if and only if the value has such a place.
  lemma {:induction false} ClashIff(v: string)
    ensures Clash(v) <==> ClashSomewhere(v)
    decreases |v|
  {
    if v == "" {
      StemIsPlain();
    } else {
      var n := if Spelling(v) > 0 then Spelling(v) else 1;
      ClashIff(v[n..]);
      if Spelling(v) == 0 { ClashHere(v); }
      assert v[0..] == v;
      forall i | 0 <= i <= |v[n..]| ensures v[n..][i..] == v[n + i..] {
      }
      forall i | 0 <= i < n && Spelling(v) > 0 ensures !ClashAt(v[i..]) {
        NoClashInSpelling(v, i);
      }
      SomewhereFrom(v, n);
    }
  }

  lemma SomewhereFrom(v: string, n: nat)
    requires n <= |v|
    ensures ClashSomewhere(v) <==> ClashSomewhere(v[n..]) || exists i :: 0 <= i < n && ClashAt(v[i..])
  {
    if i :| 0 <= i <= |v[n..]| && ClashAt(v[n..][i..]) {
      assert v[n..][i..] == v[n + i..];
    }
    if i :| n <= i <= |v| && ClashAt(v[i..]) {
      assert v[n..][i - n..] == v[i..];
    }
  }

  // The chain of replacements is right if and only if the value has no such place.
  lemma NormalizedIffNowhere(v: string)
    ensures Normalized(v) == Subst(v, TOKEN) <==> !ClashSomewhere(v)
  {
    NormalizedIff(v);
    ClashIff(v);
  }

  // The marker's own text, which is no spelling, is taken for one.
  lemma MarkerIsTaken(m: string)
    requires m == MARKER
    ensures Subst(m, TOKEN) == m && Normalized(m) == TOKEN && Clash(m)
  {
    MarkerIsPlain();
    NoSpelling(m, TOKEN);
    NoSpelling(m, MARKER);
    MarkedInOnePass(m);
    ReplaceAll(m, TOKEN);
    assert m[0] in m && Spelling(m) == 0;
  }

  lemma ReplaceAll(from: string, to: string)
    requires from != ""
    ensures Replace(from, from, to) == to
  {
    assert from[|from|..] == "";
  }

  lemma {:induction false} NoSpelling(v: string, to: string)
    requires '$' !in v && '/' !in v
    ensures Subst(v, to) == v
  {
    if v != "" {
      assert v[0] in v && TOKEN[0] == '$' && SHORT[0] == '$' && PATH[0] == '/';
      NoSpelling(v[1..], to);
    }
  }

  // ----- the exported value ----------------------------------------------------------------------

  lemma {:induction false} TokensOnly(v: string, to: string)
    ensures Replace(Subst(v, TOKEN), TOKEN, to) == Subst(v, to)
    decreases |v|
  {
    if v != "" {
      if Spelling(v) > 0 {
        var more := Subst(v[Spelling(v)..], TOKEN);
        assert (TOKEN + more)[|TOKEN|..] == more;
        TokensOnly(v[Spelling(v)..], to);
      } else {
        NoTokenFormed(v);
        assert ([v[0]] + Subst(v[1..], TOKEN))[1..] == Subst(v[1..], TOKEN);
        TokensOnly(v[1..], to);
      }
    }
  }

  lemma NoTokenFormed(v: string)
    requires v != "" && Spelling(v) == 0
    ensures !(TOKEN <= [v[0]] + Subst(v[1..], TOKEN))
  {
    if TOKEN <= [v[0]] + Subst(v[1..], TOKEN) {
      assert TOKEN[1..] <= Subst(v[1..], TOKEN) && '$' !in TOKEN[1..];
      KeptBySubst(v[1..], TOKEN, TOKEN[1..]);
    }
  }

  // Without a clash, what the shell makes of an exported value is the value as configured with
  // every spelling replaced by the host work directory, and nothing else expanded.
  lemma ConfiguredValueReads(v: string, tail: string, env: Env)
    requires Exported(Normalized(v)).Some? && !ClashSomewhere(v)
    requires tail == "" || EndsWord(tail[0])
    ensures Unquoted(Exported(Normalized(v)).value + tail, env) == Word(Subst(v, env(NAME)), tail)
  {
    NormalizedIffNowhere(v);
    ExportReads(Normalized(v), tail, env);
    TokensOnly(v, env(NAME));
  }
}
