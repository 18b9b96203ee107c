/** Shell quoting.  Part one evaluates one shell word as sections 2.2 and 2.6.2 of the
    POSIX.1-2017 Shell Command Language describe; part two is the quoting the deployment
    scripts do. */
module ShellQuote {
  import opened Wrappers

  // ----- the shell ---------------------------------------------------------------------

  // A word's value and the text after it; Bad stands for an unterminated quotation and for
  // every expansion other than a named parameter inside double quotes.
  datatype Parsed = Word(value: string, rest: string) | Bad

  function Then(prefix: string, p: Parsed): Parsed {
    if p.Word? then Word(prefix + p.value, p.rest) else Bad
  }

  predicate EndsWord(c: char) {
    c == ' ' || c == '\t' || c == '\n' || c == ';' || c == '&' || c == '|' || c == '<' || c == '>' || c == '(' || c == ')'
  }

  predicate Expands(c: char) { c == '$' || c == '`' || c == '*' || c == '?' || c == '[' || c == '~' || c == '#' }

  predicate NameStart(c: char) { 'a' <= c <= 'z' || 'A' <= c <= 'Z' || c == '_' }

  predicate NameChar(c: char) { NameStart(c) || '0' <= c <= '9' }

  function NameLength(s: string): (n: nat)
    ensures n <= |s|
  {
    if s != "" && NameChar(s[0]) then 1 + NameLength(s[1..]) else 0
  }

  type Env = string -> string

  function Unquoted(s: string, env: Env): (p: Parsed)
    ensures p.Word? ==> |p.rest| <= |s|
    ensures p.Word? && s != "" && !EndsWord(s[0]) ==> |p.rest| < |s|
    decreases |s|
  {
    if s == "" || EndsWord(s[0]) then Word("", s)
    else if s[0] == '\'' then Single(s[1..], env)
    else if s[0] == '"' then Double(s[1..], env)
    else if s[0] == '\\' then
      if |s| == 1 then Bad else Then(if s[1] == '\n' then "" else [s[1]], Unquoted(s[2..], env))
    else if Expands(s[0]) then Bad
    else Then([s[0]], Unquoted(s[1..], env))
  }

  // Section 2.2.2: everything up to the next single quote stands for itself.
  function Single(s: string, env: Env): (p: Parsed)
    ensures p.Word? ==> |p.rest| <= |s|
    decreases |s|
  {
    if s == "" then Bad
    else if s[0] == '\'' then Unquoted(s[1..], env)
    else Then([s[0]], Single(s[1..], env))
  }

  // Section 2.2.3: backslash escapes four characters and the newline, dollar expands.
  function Double(s: string, env: Env): (p: Parsed)
    ensures p.Word? ==> |p.rest| <= |s|
    decreases |s|
  {
    if s == "" then Bad
    else if s[0] == '"' then Unquoted(s[1..], env)
    else if s[0] == '\\' && |s| > 1 && Escapable(s[1]) then
      Then(if s[1] == '\n' then "" else [s[1]], Double(s[2..], env))
    else if s[0] == '`' then Bad
    else if s[0] == '$' then
      var n, braced := ParameterLength(s), |s| > 1 && s[1] == '{';
      if n == 0 then Bad
      else if braced then Then(env(s[2..n - 1]), Double(s[n..], env))
      else Then(env(s[1..n]), Double(s[n..], env))
    else Then([s[0]], Double(s[1..], env))
  }

  predicate Escapable(c: char) { c == '$' || c == '`' || c == '"' || c == '\\' || c == '\n' }

  // The length of $name or ${name} at the front of s, 0 if it is some other expansion.
  function ParameterLength(s: string): (n: nat)
    requires s != ""
    ensures n <= |s| && (n > 0 ==> n > 1) && (n > 0 && |s| > 1 && s[1] == '{' ==> n > 3)
  {
    if |s| > 2 && s[1] == '{' && NameStart(s[2]) then
      var n := NameLength(s[2..]);
      if 2 + n < |s| && s[2 + n] == '}' then 3 + n else 0
    else if |s| > 1 && NameStart(s[1]) then 1 + NameLength(s[1..])
    else 0
  }

  // The words of the first command of a line, and the text from the operator that ends it on.
  function Command(s: string, env: Env): Option<(seq<string>, string)>
    decreases |s|
  {
    if s == "" then Some(([], ""))
    else if s[0] == ' ' then Command(s[1..], env)
    else if EndsWord(s[0]) then Some(([], s))
    else
      var w := Unquoted(s, env);
      if w.Bad? then None
      else
        var more := Command(w.rest, env);
        if more.None? then None else Some(([w.value] + more.value.0, more.value.1))
  }

  // A line that is one command.
  function Words(s: string, env: Env): Option<seq<string>> {
    var c := Command(s, env);
    if c.Some? && c.value.1 == "" then Some(c.value.0) else None
  }

  // ----- the scripts -------------------------------------------------------------------

  // str.replace
  function Replace(s: string, from: string, to: string): string
    requires from != ""
  {
    if s == "" then ""
    else if from <= s then to + Replace(s[|from|..], from, to)
    else [s[0]] + Replace(s[1..], from, to)
  }

  const QUOTE := "'"
  const QUOTED_QUOTE := "'\"'\"'"

  // _sh_quote and sh_quote
  function Quote(s: string): string { QUOTE + Replace(s, QUOTE, QUOTED_QUOTE) + QUOTE }

  // " ".join(_sh_quote(w) for w in ws)
  function Joined(ws: seq<string>): string {
    if ws == [] then "" else if |ws| == 1 then Quote(ws[0]) else Quote(ws[0]) + " " + Joined(ws[1..])
  }

  // ----- theorems ----------------------------------------------------------------------

  lemma QuoteChar(t: string, env: Env)
    ensures Single("'" + t, env) == Unquoted(t, env) && Unquoted("'" + t, env) == Single(t, env)
    ensures Double("'" + t, env) == Then("'", Double(t, env))
  {
    assert ("'" + t)[1..] == t;
  }

  lemma DoubleQuoteChar(t: string, env: Env)
    ensures Unquoted("\"" + t, env) == Double(t, env) && Double("\"" + t, env) == Unquoted(t, env)
  {
    assert ("\"" + t)[1..] == t;
  }

  // One quote of the argument: leave the quotation, a double-quoted quote, enter again.
  lemma QuotedQuoteReads(t: string, env: Env)
    ensures Single(QUOTED_QUOTE + t, env) == Then("'", Single(t, env))
  {
    var last := "'" + t;
    var close := "\"" + last;
    var inner := "'" + close;
    assert QUOTED_QUOTE + t == "'" + ("\"" + inner);
    QuoteChar("\"" + inner, env);
    DoubleQuoteChar(inner, env);
    QuoteChar(close, env);
    DoubleQuoteChar(last, env);
    QuoteChar(t, env);
  }

  lemma PlainReads(c: char, t: string, env: Env)
    requires c != '\''
    ensures Single([c] + t, env) == Then([c], Single(t, env))
  {
    assert ([c] + t)[1..] == t;
  }

  // Replacing one character works on each character by itself.
  lemma ReplaceHead(s: string, c: char, to: string, end: string)
    requires s != ""
    ensures Replace(s, [c], to) + end == (if s[0] == c then to else [s[0]]) + (Replace(s[1..], [c], to) + end)
  {
    assert [c] <= s <==> s[0] == c;
  }

  lemma Reassociate(a: string, b: string, p: Parsed)
    ensures Then(a, Then(b, p)) == Then(a + b, p)
  {
    if p.Word? { assert a + (b + p.value) == (a + b) + p.value; }
  }

  lemma {:induction false} SingleReads(p: string, tail: string, env: Env)
    ensures Single(Replace(p, QUOTE, QUOTED_QUOTE) + (QUOTE + tail), env) == Then(p, Unquoted(tail, env))
  {
    if p == "" {
      assert Replace(p, QUOTE, QUOTED_QUOTE) + (QUOTE + tail) == QUOTE + tail && (QUOTE + tail)[1..] == tail;
    } else {
      SingleReads(p[1..], tail, env);
      SingleStep(p, QUOTE + tail, env);
      Reassociate([p[0]], p[1..], Unquoted(tail, env));
      assert p == [p[0]] + p[1..];
    }
  }

  lemma SingleStep(p: string, end: string, env: Env)
    requires p != ""
    ensures Single(Replace(p, QUOTE, QUOTED_QUOTE) + end, env)
         == Then([p[0]], Single(Replace(p[1..], QUOTE, QUOTED_QUOTE) + end, env))
  {
    var more := Replace(p[1..], QUOTE, QUOTED_QUOTE) + end;
    ReplaceHead(p, '\'', QUOTED_QUOTE, end);
    if p[0] == '\'' { QuotedQuoteReads(more, env); } else { PlainReads(p[0], more, env); }
  }

  // The shell gives the argument back, then goes on with what follows the quotation.
  lemma QuoteReads(p: string, tail: string, env: Env)
    ensures Unquoted(Quote(p) + tail, env) == Then(p, Unquoted(tail, env))
  {
    var body := Replace(p, QUOTE, QUOTED_QUOTE);
    assert (Quote(p) + tail)[1..] == body + (QUOTE + tail);
    SingleReads(p, tail, env);
  }

  // A quotation at the end of a word is a word of its own, whatever the argument holds.
  lemma QuoteIsOneWord(p: string, tail: string, env: Env)
    requires tail == "" || EndsWord(tail[0])
    ensures Unquoted(Quote(p) + tail, env) == Word(p, tail)
  {
    QuoteReads(p, tail, env);
    assert p + "" == p;
  }

  lemma CommandStep(w: string, text: string, tail: string, env: Env)
    requires text != "" && !EndsWord(text[0]) && Unquoted(text + tail, env) == Word(w, tail)
    requires tail == "" || EndsWord(tail[0])
    ensures Command(tail, env).Some? ==>
              Command(text + tail, env) == Some(([w] + Command(tail, env).value.0, Command(tail, env).value.1))
  {
    assert (text + tail)[0] == text[0];
  }

  // A joined list of quotations is read as exactly that list.
  lemma {:induction false} JoinedReads(ws: seq<string>, env: Env)
    ensures Words(Joined(ws), env) == Some(ws)
  {
    if |ws| == 1 {
      assert Joined(ws) == Quote(ws[0]) + "";
      QuoteIsOneWord(ws[0], "", env);
      CommandStep(ws[0], Quote(ws[0]), "", env);
      assert ws == [ws[0]] + [];
    } else if |ws| > 1 {
      var tail := " " + Joined(ws[1..]);
      assert tail[1..] == Joined(ws[1..]) && Joined(ws) == Quote(ws[0]) + tail;
      JoinedReads(ws[1..], env);
      QuoteIsOneWord(ws[0], tail, env);
      CommandStep(ws[0], Quote(ws[0]), tail, env);
      assert ws == [ws[0]] + ws[1..];
    }
  }

  // Quoted twice: the word that the local shell hands over is read by the remote shell, with an
  // environment of its own, as the list that was quoted first.
  lemma QuotedTwice(ws: seq<string>, tail: string, local: Env, remote: Env)
    requires tail == "" || EndsWord(tail[0])
    ensures var w := Unquoted(Quote(Joined(ws)) + tail, local);
            w.Word? && w.rest == tail && Words(w.value, remote) == Some(ws)
  {
    QuoteIsOneWord(Joined(ws), tail, local);
    JoinedReads(ws, remote);
  }

  // ----- commands with a plain part ----------------------------------------------------------

  // A word that stands for itself.
  predicate Plain(w: string) {
    w != "" && forall i :: 0 <= i < |w| ==> !EndsWord(w[i]) && !Expands(w[i]) && w[i] != '\'' && w[i] != '"' && w[i] != '\\'
  }

  lemma {:induction false} PlainIsOneWord(w: string, tail: string, env: Env)
    requires Plain(w) && (tail == "" || EndsWord(tail[0]))
    ensures Unquoted(w + tail, env) == Word(w, tail)
  {
    assert (w + tail)[0] == w[0] && (w + tail)[1..] == w[1..] + tail;
    if |w| > 1 {
      PlainIsOneWord(w[1..], tail, env);
    } else {
      assert w[1..] + tail == tail;
    }
    assert w == [w[0]] + w[1..];
  }

  // Plain words, one space after each.
  function Spaced(ws: seq<string>): string { if ws == [] then "" else ws[0] + " " + Spaced(ws[1..]) }

  // An operator, not a space, or the end of the line.
  predicate EndsCommand(s: string) { s == "" || (EndsWord(s[0]) && s[0] != ' ') }

  lemma PlainStep(w: string, text: string, words: seq<string>, rest: string, env: Env)
    requires Plain(w) && Command(text, env) == Some((words, rest))
    ensures Command(w + (" " + text), env) == Some(([w] + words, rest))
  {
    assert (" " + text)[1..] == text;
    PlainIsOneWord(w, " " + text, env);
    CommandStep(w, w, " " + text, env);
  }

  // Plain words followed by a command text are read one by one in front of it.
  lemma {:induction false} SpacedReads(ws: seq<string>, text: string, words: seq<string>, rest: string, env: Env)
    requires (forall i :: 0 <= i < |ws| ==> Plain(ws[i])) && Command(text, env) == Some((words, rest))
    ensures Command(Spaced(ws) + text, env) == Some((ws + words, rest))
  {
    if ws == [] {
      assert Spaced(ws) + text == text && ws + words == words;
    } else {
      SpacedReads(ws[1..], text, words, rest, env);
      PlainStep(ws[0], Spaced(ws[1..]) + text, ws[1..] + words, rest, env);
      assert Spaced(ws) + text == ws[0] + (" " + (Spaced(ws[1..]) + text));
      assert [ws[0]] + (ws[1..] + words) == ws + words;
    }
  }

  // The last word of a command.
  lemma LastWordReads(w: string, text: string, rest: string, env: Env)
    requires text != "" && !EndsWord(text[0]) && Unquoted(text + rest, env) == Word(w, rest) && EndsCommand(rest)
    ensures Command(text + rest, env) == Some(([w], rest))
  {
    CommandStep(w, text, rest, env);
    assert Command(rest, env) == Some(([], rest));
    assert [w] + [] == [w];
  }

  // A plain command with a quoted argument.
  lemma ArgumentReads(ws: seq<string>, p: string, rest: string, env: Env)
    requires (forall i :: 0 <= i < |ws| ==> Plain(ws[i])) && EndsCommand(rest)
    ensures Command(Spaced(ws) + (Quote(p) + rest), env) == Some((ws + [p], rest))
  {
    QuoteIsOneWord(p, rest, env);
    LastWordReads(p, Quote(p), rest, env);
    SpacedReads(ws, Quote(p) + rest, [p], rest, env);
  }

  // A remote command line as the dispatcher builds it: a plain command, then a plain command with
  // a quoted argument, then anything.  The local shell hands the line over as one word; in it
  // the remote shell reads the plain command, and behind the semicolon the argument as it was.
  lemma RemoteLine(setup: seq<string>, last: string, verb: seq<string>, p: string, more: string, tail: string,
                   local: Env, remote: Env)
    requires (forall i :: 0 <= i < |setup| ==> Plain(setup[i])) && Plain(last)
    requires forall i :: 0 <= i < |verb| ==> Plain(verb[i])
    requires EndsCommand(more) && (tail == "" || EndsWord(tail[0]))
    ensures var second := " " + (Spaced(verb) + (Quote(p) + more));
            var w := Unquoted(Quote(Spaced(setup) + (last + (";" + second))) + tail, local);
            && w.Word? && w.rest == tail
            && Command(w.value, remote) == Some((setup + [last], ";" + second))
            && Command(second, remote) == Some((verb + [p], more))
  {
    var command := Spaced(verb) + (Quote(p) + more);
    var second := " " + command;
    QuoteIsOneWord(Spaced(setup) + (last + (";" + second)), tail, local);
    ArgumentReads(verb, p, more, remote);
    assert second[1..] == command;
    PlainIsOneWord(last, ";" + second, remote);
    LastWordReads(last, last, ";" + second, remote);
    SpacedReads(setup, last + (";" + second), [last], ";" + second, remote);
  }
}
