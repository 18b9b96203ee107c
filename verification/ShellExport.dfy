/** The single-line environment values the deployment generator exports. */
module ShellExport {
  import opened Wrappers
  import opened ShellQuote

  const TOKEN := "${HOSTWORKDIR}"
  const NAME := "HOSTWORKDIR"

  function DoubleEscaped(v: string): string { Replace(Replace(v, "\\", "\\\\"), "\"", "\\\"") }

  // A dollar that is not part of the token is refused, and so is a backquote beside a token.
  // A command substitution would leave its dollar behind, so its own test adds nothing.
  predicate Accepted(v: string) { '$' in v ==> '$' !in Replace(v, TOKEN, "") && '`' !in v }

  // The right-hand side of the export line of a value without line breaks.
  function Exported(v: string): Option<string> {
    if '$' !in v then Some(Quote(v))
    else if Accepted(v) then Some("\"" + DoubleEscaped(v) + "\"")
    else None
  }

  // ----- theorems ----------------------------------------------------------------------

  function Escape(c: char): string { if c == '\\' then "\\\\" else if c == '"' then "\\\"" else [c] }

  // The two replacements together work on each character by itself.
  lemma EscapedHead(v: string, end: string)
    requires v != ""
    ensures DoubleEscaped(v) + end == Escape(v[0]) + (DoubleEscaped(v[1..]) + end)
  {
    var inner, more := Replace(v, "\\", "\\\\"), Replace(v[1..], "\\", "\\\\");
    ReplaceHead(v, '\\', "\\\\", "");
    assert inner + "" == inner && more + "" == more;
    if v[0] == '\\' { TwoBackslashes(more, end); } else { OneChar(v[0], more, end); }
  }

  lemma TwoBackslashes(more: string, end: string)
    ensures Replace("\\\\" + more, "\"", "\\\"") + end == "\\\\" + (Replace(more, "\"", "\\\"") + end)
  {
    OneChar('\\', "\\" + more, end);
    OneChar('\\', more, end);
    assert "\\\\" + more == "\\" + ("\\" + more);
  }

  lemma OneChar(c: char, more: string, end: string)
    ensures Replace([c] + more, "\"", "\\\"") + end == (if c == '"' then "\\\"" else [c]) + (Replace(more, "\"", "\\\"") + end)
  {
    assert ([c] + more)[1..] == more;
    ReplaceHead([c] + more, '"', "\\\"", end);
  }

  predicate Plain(s: string) { forall i :: 0 <= i < |s| ==> s[i] != '\\' && s[i] != '"' }

  lemma {:induction false} EscapedPrefix(a: string, b: string)
    requires Plain(a)
    ensures DoubleEscaped(a + b) == a + DoubleEscaped(b)
  {
    if a == "" {
      assert a + b == b;
    } else {
      EscapedHead(a + b, "");
      assert (a + b)[1..] == a[1..] + b;
      EscapedPrefix(a[1..], b);
    }
  }

  lemma EscapeReads(c: char, t: string, env: Env)
    requires c != '$' && c != '`'
    ensures Double(Escape(c) + t, env) == Then([c], Double(t, env))
  {
    var s := Escape(c) + t;
    if c == '\\' || c == '"' {
      assert s[0] == '\\' && s[1] == c && s[2..] == t;
    } else {
      assert s[0] == c && s[1..] == t;
    }
  }

  lemma {:induction false} NameLengthOf(name: string, t: string)
    requires forall i :: 0 <= i < |name| ==> NameChar(name[i])
    requires t == "" || !NameChar(t[0])
    ensures NameLength(name + t) == |name|
  {
    if name == "" {
      assert name + t == t;
    } else {
      assert (name + t)[1..] == name[1..] + t;
      NameLengthOf(name[1..], t);
    }
  }

  lemma TokenReads(t: string, env: Env)
    ensures Double(TOKEN + t, env) == Then(env(NAME), Double(t, env))
  {
    var s := TOKEN + t;
    NameLengthOf(NAME, "}" + t);
    assert s[2..] == NAME + ("}" + t);
    assert s[0] == '$' && s[1] == '{' && s[2] == 'H' && s[13] == '}';
    assert ParameterLength(s) == 14;
    assert s[2..13] == NAME && s[14..] == t;
  }

  // The two shapes of the front of an accepted value.
  lemma TokenStep(v: string, end: string, env: Env)
    requires TOKEN <= v
    ensures Double(DoubleEscaped(v) + end, env) == Then(env(NAME), Double(DoubleEscaped(v[|TOKEN|..]) + end, env))
  {
    var more := v[|TOKEN|..];
    assert v == TOKEN + more;
    EscapedPrefix(TOKEN, more);
    assert DoubleEscaped(v) + end == TOKEN + (DoubleEscaped(more) + end);
    TokenReads(DoubleEscaped(more) + end, env);
  }

  lemma CharStep(v: string, end: string, env: Env)
    requires v != "" && v[0] != '$' && v[0] != '`'
    ensures Double(DoubleEscaped(v) + end, env) == Then([v[0]], Double(DoubleEscaped(v[1..]) + end, env))
  {
    EscapedHead(v, end);
    EscapeReads(v[0], DoubleEscaped(v[1..]) + end, env);
  }

  lemma {:induction false} DoubleReads(v: string, tail: string, env: Env)
    requires '$' !in Replace(v, TOKEN, "") && '`' !in v
    ensures Double(DoubleEscaped(v) + ("\"" + tail), env) == Then(Replace(v, TOKEN, env(NAME)), Unquoted(tail, env))
  {
    var end := "\"" + tail;
    if v == "" {
      assert DoubleEscaped(v) + end == end && end[1..] == tail;
    } else if TOKEN <= v {
      DoubleReads(v[|TOKEN|..], tail, env);
      TokenStep(v, end, env);
      Reassociate(env(NAME), Replace(v[|TOKEN|..], TOKEN, env(NAME)), Unquoted(tail, env));
    } else {
      DoubleReads(v[1..], tail, env);
      CharStep(v, end, env);
      Reassociate([v[0]], Replace(v[1..], TOKEN, env(NAME)), Unquoted(tail, env));
    }
  }

  lemma {:induction false} NothingToReplace(v: string, to: string)
    requires '$' !in v
    ensures Replace(v, TOKEN, to) == v
  {
    if v != "" {
      assert v[0] in v && TOKEN[0] == '$';
      NothingToReplace(v[1..], to);
    }
  }

  // Every exported value is one word that evaluates to the value with each token replaced by
  // the host work directory, and with nothing else expanded.
  lemma ExportReads(v: string, tail: string, env: Env)
    requires Exported(v).Some?
    requires tail == "" || EndsWord(tail[0])
    ensures Unquoted(Exported(v).value + tail, env) == Word(Replace(v, TOKEN, env(NAME)), tail)
  {
    if '$' !in v {
      QuoteIsOneWord(v, tail, env);
      NothingToReplace(v, env(NAME));
    } else {
      var text := Exported(v).value + tail;
      assert text[1..] == DoubleEscaped(v) + ("\"" + tail);
      DoubleReads(v, tail, env);
    }
  }

  predicate EveryDollarIsToken(v: string) { forall i :: 0 <= i < |v| && v[i] == '$' ==> TOKEN <= v[i..] }

  // The value is refused exactly when some dollar does not start a token or a backquote stands
  // beside a token.
  lemma {:induction false} RefusedIff(v: string)
    ensures '$' !in Replace(v, TOKEN, "") <==> EveryDollarIsToken(v)
    ensures Exported(v).Some? <==> '$' !in v || (EveryDollarIsToken(v) && '`' !in v)
  {
    if v == "" {
    } else if TOKEN <= v {
      RefusedIff(v[|TOKEN|..]);
      DropFront(v, |TOKEN|);
    } else {
      RefusedIff(v[1..]);
      DropFront(v, 1);
    }
  }

  lemma DropFront(v: string, n: nat)
    requires 0 < n <= |v| && forall i :: 1 <= i < n ==> v[i] != '$'
    ensures EveryDollarIsToken(v) <==> (v[0] == '$' ==> TOKEN <= v) && EveryDollarIsToken(v[n..])
  {
    assert v[0..] == v;
    forall i | 0 <= i < |v[n..]| ensures v[n..][i..] == v[n + i..] {
    }
    if (v[0] == '$' ==> TOKEN <= v) && EveryDollarIsToken(v[n..]) {
      forall i | 0 <= i < |v| && v[i] == '$' ensures TOKEN <= v[i..] {
        if i > 0 { assert v[n..][i - n] == '$'; }
      }
    }
    if EveryDollarIsToken(v) {
      forall i | 0 <= i < |v[n..]| && v[n..][i] == '$' ensures TOKEN <= v[n..][i..] {
        assert v[n + i] == '$';
      }
    }
  }
}
