/** The shell branch for a placeholder inside the template's own quotes, as in the
    default template: there the inserted single quotes no longer quote. */
module ShellContexts {
  import opened ShellQuote
  import opened SpawnPlan
  import opened ShellPlan

  // ----- inside double quotes -----

  predicate Special(c: char) { c == '$' || c == '`' || c == '"' || c == '\\' || c == '\n' }

  /** No double quote, and no backslash that would take part in an escape. */
  predicate Steady(t: string) {
    forall i :: 0 <= i < |t| ==> t[i] != '"' && (t[i] == '\\' && i + 1 < |t| ==> !Special(t[i + 1]))
  }

  /** A steady text as double quotes let it through: as it is, but with dollar
      signs and backticks still active. */
  function AsRead(t: string): (r: seq<Piece>)
    ensures |r| == |t| && forall i :: 0 <= i < |t| ==> r[i] == Piece(t[i], t[i] != '$' && t[i] != '`')
  {
    seq(|t|, i requires 0 <= i < |t| => Piece(t[i], t[i] != '$' && t[i] != '`'))
  }

  lemma AsReadCons(c: char, t: string)
    ensures AsRead([c] + t) == [Piece(c, c != '$' && c != '`')] + AsRead(t)
  {
  }

  lemma SteadyTail(t: string, n: nat)
    requires Steady(t) && n <= |t|
    ensures Steady(t[n..])
  {
    forall i | 0 <= i < |t[n..]| ensures t[n..][i] != '"' && (t[n..][i] == '\\' && i + 1 < |t[n..]| ==> !Special(t[n..][i + 1])) {
      assert t[n..][i] == t[n + i];
    }
  }

  lemma SteadyHead(t: string, n: nat)
    requires Steady(t) && n <= |t|
    ensures Steady(t[..n])
  {
    forall i | 0 <= i < n ensures t[..n][i] != '"' && (t[..n][i] == '\\' && i + 1 < n ==> !Special(t[..n][i + 1])) {
      assert t[..n][i] == t[i];
    }
  }

  /** A backslash and an ordinary character. */
  lemma ReadBackslash(c: char, s: string)
    requires !Special(c)
    ensures Read(['\\'] + ([c] + s), DoubleQuoted) == [Piece('\\', true)] + ([Piece(c, true)] + Read(s, DoubleQuoted))
  {
    ReadCons('\\', [c] + s, DoubleQuoted);
    ReadCons(c, s, DoubleBackslash);
  }

  lemma ReadSteadyEscape(c: char, u: string, rest: string)
    requires !Special(c) && Read(u + rest, DoubleQuoted) == AsRead(u) + Read(rest, DoubleQuoted)
    ensures Read((['\\'] + ([c] + u)) + rest, DoubleQuoted) == AsRead(['\\'] + ([c] + u)) + Read(rest, DoubleQuoted)
  {
    RegroupNested(['\\'], [c], u, rest);
    ReadBackslash(c, u + rest);
    AsReadCons('\\', [c] + u);
    AsReadCons(c, u);
    RegroupNested([Piece('\\', true)], [Piece(c, true)], AsRead(u), Read(rest, DoubleQuoted));
  }

  lemma ReadSteadyChar(c: char, u: string, rest: string)
    requires c != '\\' && c != '"' && Read(u + rest, DoubleQuoted) == AsRead(u) + Read(rest, DoubleQuoted)
    ensures Read(([c] + u) + rest, DoubleQuoted) == AsRead([c] + u) + Read(rest, DoubleQuoted)
  {
    Regroup([c], u, rest);
    ReadCons(c, u + rest, DoubleQuoted);
    AsReadCons(c, u);
    Regroup([Piece(c, c != '$' && c != '`')], AsRead(u), Read(rest, DoubleQuoted));
  }

  /** Double quotes let a steady text through that does not end in a backslash. */
  lemma {:induction false} ReadSteady(t: string, rest: string)
    requires Steady(t) && (t != "" ==> t[|t| - 1] != '\\')
    ensures Read(t + rest, DoubleQuoted) == AsRead(t) + Read(rest, DoubleQuoted)
    decreases |t|
  {
    if t == "" {
      assert t + rest == rest && AsRead(t) == [];
    } else if t[0] == '\\' {
      SteadyTail(t, 2);
      ReadSteady(t[2..], rest);
      ReadSteadyEscape(t[1], t[2..], rest);
      assert t == ['\\'] + ([t[1]] + t[2..]);
    } else {
      SteadyTail(t, 1);
      ReadSteady(t[1..], rest);
      ReadSteadyChar(t[0], t[1..], rest);
      assert t == [t[0]] + t[1..];
    }
  }

  lemma RegroupNested<T>(a: seq<T>, b: seq<T>, c: seq<T>, d: seq<T>)
    ensures (a + (b + c)) + d == a + (b + (c + d))
  {
  }

  /** Escaping keeps a text steady. */
  lemma {:induction false} EscapeSteady(x: string)
    requires Steady(x)
    ensures Steady(EscapeQuotes(x))
    ensures x != "" ==> EscapeQuotes(x) != "" && EscapeQuotes(x)[0] == (if x[0] == '\'' then '\'' else x[0])
  {
    if x != "" {
      SteadyTail(x, 1);
      EscapeSteady(x[1..]);
      SteadyJoin(EscapeChar(x[0]), EscapeQuotes(x[1..]));
    }
  }

  lemma SteadyJoin(a: string, b: string)
    requires Steady(a) && Steady(b) && a != "" && (a[|a| - 1] == '\\' && b != "" ==> !Special(b[0]))
    ensures Steady(a + b)
  {
    forall i | 0 <= i < |a + b| ensures (a + b)[i] != '"' && ((a + b)[i] == '\\' && i + 1 < |a + b| ==> !Special((a + b)[i + 1])) {
      if i >= |a| { assert (a + b)[i] == b[i - |a|]; }
    }
  }

  lemma EscapedIsSteady(x: string)
    requires Steady(x)
    ensures Steady("'" + EscapeQuotes(x)) && Steady(ShellEscape(x))
  {
    EscapeSteady(x);
    SteadyJoin("'", EscapeQuotes(x));
    SteadyJoin("'" + EscapeQuotes(x), "'");
  }

  /** A prompt without double quotes and backslashes, inside double quotes: the
      single quotes and their escapes become part of the argument, and every
      dollar sign and backtick of the prompt stays active. */
  lemma DoubleQuotedReading(pre: string, post: string, v: Values)
    requires After(ShellText(pre, v), Unquoted) == DoubleQuoted
    requires '"' !in v.prompt && '\\' !in v.prompt && !Contains(v.prompt, INPUT) && !Contains(v.prompt, CWD)
    ensures Read(ShellText(pre + PROMPT + post, v), Unquoted)
            == Read(ShellText(pre, v), Unquoted) + (AsRead(ShellEscape(v.prompt)) + Read(ShellText(post, v), DoubleQuoted))
  {
    ReadAround(pre, post, v);
    PlainInserted(v);
    EscapedIsSteady(v.prompt);
    ReadSteady(ShellEscape(v.prompt), ShellText(post, v));
  }

  // ----- the prompt is never read as it is -----

  /** The reading begins with the characters of `p`, all literal. */
  ghost predicate Begins(r: seq<Piece>, p: string) {
    |p| <= |r| && forall i :: 0 <= i < |p| ==> r[i] == Piece(p[i], true)
  }

  /** Double quotes let a steady text through, up to a backslash at its end. */
  lemma ReadSteadyStart(t: string, rest: string)
    requires Steady(t)
    ensures var r := Read(t + rest, DoubleQuoted);
            forall i :: 0 <= i && i + 1 < |t| ==> i < |r| && r[i].c == t[i]
  {
    if t != "" && t[|t| - 1] == '\\' {
      var n := |t| - 1;
      assert t + rest == t[..n] + (t[n..] + rest);
      SteadyHead(t, n);
      if n > 0 { assert t[n - 1] != '\\'; }
      ReadSteady(t[..n], t[n..] + rest);
    } else {
      ReadSteady(t, rest);
    }
  }

  /** `text` begins as the escaped form of `p` does, up to its first `a` characters. */
  ghost predicate EscapesUpTo(text: string, p: string, a: nat) {
    a <= |p| && exists tail :: text == "'" + EscapeQuotes(p[..a]) + "'" + tail
  }

  lemma {:induction false} EscapeGrows(x: string)
    ensures |EscapeQuotes(x)| >= |x| && ('\'' in x ==> |EscapeQuotes(x)| >= |x| + 3)
  {
    if x != "" {
      EscapeGrows(x[1..]);
      assert forall c :: c in x ==> c == x[0] || c in x[1..];
    }
  }

  /** The part of the text that the first `k` characters of the prompt account for. */
  lemma EscapedPrefix(text: string, p: string, a: nat, k: nat) returns (rest: string)
    requires EscapesUpTo(text, p, a) && k <= a
    ensures text == "'" + EscapeQuotes(p[..k]) + rest
  {
    var tail :| text == "'" + EscapeQuotes(p[..a]) + "'" + tail;
    var x, y := p[..k], p[k..a];
    assert p[..a] == x + y;
    EscapeConcat(x, y);
    rest := EscapeQuotes(y) + ("'" + tail);
    RegroupFive("'", EscapeQuotes(x), EscapeQuotes(y), "'", tail);
  }

  lemma RegroupFive<T>(a: seq<T>, b: seq<T>, c: seq<T>, d: seq<T>, e: seq<T>)
    ensures a + (b + c) + d + e == a + b + (c + (d + e))
  {
  }

  /** If the prompt were read as it is, each of its characters would have been
      let through from an earlier place of the escaped text, so that no character
      of it could ever take anything away. */
  lemma {:induction false} PromptIsSteady(text: string, p: string, a: nat, k: nat)
    requires EscapesUpTo(text, p, a) && k <= a && Begins(Read(text, DoubleQuoted), p)
    ensures Steady(p[..k]) && (k > 0 ==> p[0] == '\'')
  {
    if k > 0 {
      PromptIsSteady(text, p, a, k - 1);
      var x := p[..k - 1];
      var rest := EscapedPrefix(text, p, a, k - 1);
      var u := "'" + EscapeQuotes(x);
      EscapedIsSteady(x);
      EscapeGrows(x);
      FirstIsQuote(text, EscapeQuotes(x) + rest);
      if k > 1 {
        assert x[0] == '\'' && x[0] in x;
        ReadSteadyStart(u, rest);
        assert u[..k] == p[..k];
        SteadyHead(u, k);
      } else {
        assert p[..1] == "'";
      }
    }
  }

  lemma FirstIsQuote(text: string, rest: string)
    requires text == "'" + rest
    ensures |Read(text, DoubleQuoted)| > 0 && Read(text, DoubleQuoted)[0] == Piece('\'', true)
  {
    assert text == ['\''] + rest;
    ReadCons('\'', rest, DoubleQuoted);
  }

  /** The text up to and with the quote behind the first `a` characters is read as it is. */
  lemma ReadUpTo(text: string, p: string, a: nat) returns (tail: string)
    requires EscapesUpTo(text, p, a) && Begins(Read(text, DoubleQuoted), p)
    ensures text == ShellEscape(p[..a]) + tail
    ensures Read(text, DoubleQuoted) == AsRead(ShellEscape(p[..a])) + Read(tail, DoubleQuoted)
    ensures |ShellEscape(p[..a])| >= a + 2
  {
    tail :| text == "'" + EscapeQuotes(p[..a]) + "'" + tail;
    PromptIsSteady(text, p, a, a);
    EscapedIsSteady(p[..a]);
    EscapeGrows(p[..a]);
    ReadSteady(ShellEscape(p[..a]), tail);
  }

  /** A prompt that mentions no placeholder: the reading is too long. */
  lemma PlainNotRead(p: string, end: string)
    ensures Read(ShellEscape(p) + end, DoubleQuoted) != Literal(p) + Read(end, DoubleQuoted)
  {
    var text := ShellEscape(p) + end;
    LiteralIs(p);
    if Read(text, DoubleQuoted) == Literal(p) + Read(end, DoubleQuoted) {
      assert p[..|p|] == p;
      PromptIsSteady(text, p, |p|, |p|);
      EscapedIsSteady(p);
      EscapeGrows(p);
      ReadSteady(ShellEscape(p), end);
    }
  }

  /** A quote-free word in an escaped text is not part of the quotes around it. */
  lemma OccursInside(x: string, k: string, t: nat)
    requires QuoteFree(k) && OccursAt(ShellEscape(x), k, t)
    ensures t > 0 && OccursAt(EscapeQuotes(x), k, t - 1)
  {
    var u := ShellEscape(x);
    assert u[t + 0] == k[0] && k[0] in k;
    assert u[t + (|k| - 1)] == k[|k| - 1] && k[|k| - 1] in k;
    forall m | 0 <= m < |k| ensures EscapeQuotes(x)[t - 1 + m] == k[m] { assert u[t + m] == k[m]; }
  }

  lemma OccursInPrefix(q: string, j: nat, k: string, t: nat)
    requires j <= |q| && OccursAt(q[..j], k, t)
    ensures OccursAt(q, k, t)
  {
    forall m | 0 <= m < |k| ensures q[t + m] == k[m] { assert q[..j][t + m] == k[m]; }
  }

  /** A first placeholder is not in the escaped form of what precedes it. */
  lemma NotBefore(q: string, x: string, k: string, j: nat, t: nat)
    requires QuoteFree(k) && FirstAt(q, k, j) && q[..j] == EscapeQuotes(x)
    ensures !OccursAt(ShellEscape(x), k, t)
  {
    if OccursAt(ShellEscape(x), k, t) {
      OccursInside(x, k, t);
      OccursInPrefix(q, j, k, t - 1);
    }
  }

  /** Where `p` has the word and `u` ends in a quote without having it there, the
      two differ. */
  lemma WordsDiffer(p: string, u: string, k: string, a: nat) returns (m: nat)
    requires QuoteFree(k) && OccursAt(p, k, a) && |u| >= a + 2 && u[|u| - 1] == '\'' && !OccursAt(u, k, a)
    ensures m < |p| && m < |u| && p[m] != u[m]
  {
    if |u| - 1 < a + |k| {
      m := |u| - 1;
      assert p[a + (m - a)] == k[m - a] && k[m - a] in k;
    } else {
      var t :| 0 <= t < |k| && u[a + t] != k[t];
      m := a + t;
    }
  }

  lemma ReadDiffers(u: string, rest: seq<Piece>, p: string, m: nat)
    requires m < |p| && m < |u| && p[m] != u[m]
    ensures !Begins(AsRead(u) + rest, p)
  {
    assert (AsRead(u) + rest)[m].c == u[m];
  }

  /** Where the prompt has a placeholder, the reading has the quote that closes
      before its value. */
  lemma MentionClash(text: string, p: string, q: string, k: string, j: nat, a: nat)
    requires QuoteFree(k) && q == EscapeQuotes(p) && FirstAt(q, k, j) && OccursAt(p, k, a) && q[..j] == EscapeQuotes(p[..a])
    requires EscapesUpTo(text, p, a)
    ensures !Begins(Read(text, DoubleQuoted), p)
  {
    var u := ShellEscape(p[..a]);
    EscapeGrows(p[..a]);
    NotBefore(q, p[..a], k, j, a);
    var m := WordsDiffer(p, u, k, a);
    if Begins(Read(text, DoubleQuoted), p) {
      var tail := ReadUpTo(text, p, a);
      ReadDiffers(u, Read(tail, DoubleQuoted), p, m);
    }
  }

  lemma LiteralBegins(p: string, rest: seq<Piece>)
    ensures Begins(Literal(p) + rest, p)
  {
    LiteralIs(p);
  }

  lemma InsertedEscapes(v: Values, end: string, j: nat, a: nat)
    requires a <= |v.prompt| && ClosesAt(EscapeQuotes(v.prompt), Later(EscapeQuotes(v.prompt), v), j, "")
    requires EscapeQuotes(v.prompt)[..j] == EscapeQuotes(v.prompt[..a])
    ensures EscapesUpTo(Inserted(v) + end, v.prompt, a)
  {
    var r := Later(EscapeQuotes(v.prompt), v);
    CutAt(EscapeQuotes(v.prompt), r, j, "", end);
    assert Inserted(v) + end == "'" + EscapeQuotes(v.prompt[..a]) + "'" + (r[j + 1..] + "'" + end);
  }

  lemma MentionNotRead(v: Values, end: string)
    requires Contains(v.prompt, INPUT) || Contains(v.prompt, CWD)
    ensures Read(Inserted(v) + end, DoubleQuoted) != Literal(v.prompt) + Read(end, DoubleQuoted)
  {
    var p, q := v.prompt, EscapeQuotes(v.prompt);
    EscapeContains(p, INPUT);
    EscapeContains(p, CWD);
    var j, k := MentionCloses(q, v);
    var a := EscapeAddsNoMention(p, k, j);
    InsertedEscapes(v, end, j, a);
    MentionClash(Inserted(v) + end, p, q, k, j, a);
    LiteralBegins(p, Read(end, DoubleQuoted));
  }

  /** Inside double quotes, as in the default template, the shell never reads the
      prompt as it is: not for any prompt, input or directory. */
  lemma DoubleQuotedNeverReads(pre: string, post: string, v: Values)
    requires After(ShellText(pre, v), Unquoted) == DoubleQuoted
    ensures Read(ShellText(pre + PROMPT + post, v), Unquoted)
            != Read(ShellText(pre, v), Unquoted) + Literal(v.prompt) + Read(ShellText(post, v), DoubleQuoted)
  {
    ReadAround(pre, post, v);
    if Contains(v.prompt, INPUT) || Contains(v.prompt, CWD) {
      MentionNotRead(v, ShellText(post, v));
    } else {
      PlainInserted(v);
      PlainNotRead(v.prompt, ShellText(post, v));
    }
  }

  // ----- the default template -----

  /** Words without quotes, backslashes and placeholders. */
  predicate PlainText(words: string) {
    forall i :: 0 <= i < |words| ==> words[i] != '\\' && words[i] != '\'' && words[i] != '"' && words[i] != '{'
  }

  lemma Untouched(t: string, v: Values)
    requires '{' !in t
    ensures ShellText(t, v) == t
  {
    ShellTextIs(t, v);
    BracelessUnchanged(t, PROMPT, ShellEscape(v.prompt));
    BracelessUnchanged(t, INPUT, ShellEscape(v.json));
    BracelessUnchanged(t, CWD, ShellEscape(v.cwd));
  }

  lemma {:induction false} StartIsOpen(words: string, quote: string)
    requires PlainText(words) && quote == "\""
    ensures After(words + quote, Unquoted) == DoubleQuoted
  {
    if words == "" {
      assert words + quote == quote && quote[1..] == "";
    } else {
      assert (words + quote)[1..] == words[1..] + quote && (words + quote)[0] == words[0];
      StartIsOpen(words[1..], quote);
    }
  }

  lemma NoMention(p: string, k: string)
    requires '{' !in p && k != "" && k[0] == '{'
    ensures !Contains(p, k)
  {
    forall j | 0 <= j ensures !OccursAt(p, k, j) {
      if j < |p| { assert p[j + 0] != k[0]; }
    }
  }

  lemma DollarAsRead(p: string)
    requires p == "$"
    ensures AsRead(ShellEscape(p)) == [Piece('\'', true), Piece('$', false), Piece('\'', true)]
  {
    EscapeQuoteFree(p);
  }

  lemma ClosingQuoteReads(quote: string)
    requires quote == "\""
    ensures Read(quote, DoubleQuoted) == []
  {
    assert quote == ['"'] + "";
    ReadCons('"', "", DoubleQuoted);
  }

  /** With the placeholder in double quotes behind any words, a dollar sign in the
      prompt is active and two single quotes are added. */
  lemma QuotedTemplateDollar(words: string, quote: string, v: Values)
    requires PlainText(words) && quote == "\"" && v.prompt == "$"
    ensures Read(ShellText((words + quote) + PROMPT + quote, v), Unquoted)
         == Read(words + quote, Unquoted) + [Piece('\'', true), Piece('$', false), Piece('\'', true)]
  {
    Untouched(words + quote, v);
    Untouched(quote, v);
    StartIsOpen(words, quote);
    NoMention(v.prompt, INPUT);
    NoMention(v.prompt, CWD);
    DoubleQuotedReading(words + quote, quote, v);
    DollarAsRead(v.prompt);
    ClosingQuoteReads(quote);
  }

  /** The default template. */
  lemma DefaultTemplateDollar(template: string, start: string, v: Values)
    requires template == "codex exec \"{{prompt}}\"" && start == "codex exec \"" && v.prompt == "$"
    ensures Read(ShellText(template, v), Unquoted)
         == Read(start, Unquoted) + [Piece('\'', true), Piece('$', false), Piece('\'', true)]
  {
    var words := start[..|start| - 1];
    var quote := start[|start| - 1..];
    assert start == words + quote && template == (words + quote) + PROMPT + quote;
    QuotedTemplateDollar(words, quote, v);
  }

  // ----- inside single quotes -----

  /** Pieces still owed for a backslash inside double quotes. */
  function Owed(m: ShellMode): nat { if m.DoubleBackslash? then 1 else 0 }

  /** Without single quotes a reading is never longer than the text, and never
      gets into single quotes. */
  lemma {:induction false} ReadAtMost(x: string, m: ShellMode)
    requires '\'' !in x && !m.SingleQuoted?
    ensures |Read(x, m)| + Owed(After(x, m)) <= |x| + Owed(m)
    ensures !After(x, m).SingleQuoted?
  {
    if x != "" {
      assert forall c :: c in x[1..] ==> c in x;
      assert x[0] in x;
      ReadAtMost(x[1..], NextMode(m, x[0]));
    }
  }

  lemma FirstStaysBare(x: string)
    requires x != "" && Contributes(Unquoted, x[0]) != []
    ensures |Read(x, Unquoted)| > 0 && !Read(x, Unquoted)[0].literal
  {
  }

  /** Read from the unquoted state, a text that is read as literal loses a character at once. */
  lemma ReadShorter(x: string)
    requires x != "" && '\'' !in x && forall i :: 0 <= i < |Read(x, Unquoted)| ==> Read(x, Unquoted)[i].literal
    ensures |Read(x, Unquoted)| + Owed(After(x, Unquoted)) < |x|
  {
    assert forall c :: c in x[1..] ==> c in x;
    assert x[0] in x;
    ReadAtMost(x[1..], NextMode(Unquoted, x[0]));
    if Contributes(Unquoted, x[0]) != [] { FirstStaysBare(x); }
  }

  /** What a single quote adds outside single quotes. */
  lemma QuoteAdds(m: ShellMode, rest: string)
    requires !m.SingleQuoted?
    ensures Read(['\''] + rest, m) == Contributes(m, '\'') + Read(rest, NextMode(m, '\''))
    ensures !m.Unquoted? ==> |Contributes(m, '\'')| == Owed(m) + 1 && Contributes(m, '\'')[Owed(m)] == Piece('\'', true)
    ensures m.Unquoted? ==> Contributes(m, '\'') == [] && NextMode(m, '\'') == SingleQuoted
  {
    ReadCons('\'', rest, m);
  }

  function FirstQuote(p: string): (i: nat)
    ensures i <= |p| && '\'' !in p[..i] && (i < |p| ==> p[i] == '\'')
  {
    if p == "" || p[0] == '\'' then 0
    else
      var i := FirstQuote(p[1..]);
      assert p[..i + 1] == [p[0]] + p[1..][..i];
      i + 1
  }

  /** What an escaped single quote holds behind its first character. */
  const REOPEN: string := ['\\', '\'', '\'']

  lemma EscapeAround(x: string, c: char, y: string)
    requires '\'' !in x && c == '\''
    ensures EscapeQuotes(x + ([c] + y)) == x + (['\''] + (REOPEN + EscapeQuotes(y)))
  {
    EscapeConcat(x, [c] + y);
    EscapeQuoteFree(x);
    EscapeCons(c, y);
    EscapedQuoteIs(c);
    Regroup(['\''], REOPEN, EscapeQuotes(y));
  }

  lemma EscapedQuoteIs(c: char)
    requires c == '\''
    ensures EscapeChar(c) == ['\''] + REOPEN
  {
  }

  lemma CutOut(p: string, i: nat)
    requires i < |p|
    ensures p == p[..i] + ([p[i]] + p[i + 1..])
  {
  }

  lemma AtFirstQuote(p: string, i: nat)
    requires i == FirstQuote(p) && i < |p|
    ensures EscapeQuotes(p) == p[..i] + (['\''] + (REOPEN + EscapeQuotes(p[i + 1..])))
  {
    CutOut(p, i);
    EscapeAround(p[..i], p[i], p[i + 1..]);
  }

  /** The escaped prompt without its opening quote: text without quotes, then a quote. */
  lemma SplitAtQuote(p: string) returns (i: nat, rest: string)
    ensures i == FirstQuote(p) && EscapeQuotes(p) + ['\''] == p[..i] + (['\''] + rest)
    ensures rest == if i < |p| then REOPEN + (EscapeQuotes(p[i + 1..]) + ['\'']) else ""
  {
    i := FirstQuote(p);
    if i < |p| {
      var e := EscapeQuotes(p[i + 1..]);
      AtFirstQuote(p, i);
      rest := REOPEN + (e + ['\'']);
      RegroupNested(p[..i], ['\''], REOPEN + e, ['\'']);
      Regroup(REOPEN, e, ['\'']);
    } else {
      assert p[..i] == p;
      EscapeQuoteFree(p);
      rest := "";
      assert ['\''] + rest == ['\''];
    }
  }

  lemma ReopenIs(e: string)
    ensures REOPEN + e == ['\\'] + (['\''] + (['\''] + e))
  {
  }

  lemma ReadReopen(e: string)
    ensures Read(REOPEN + e, SingleQuoted) == [Piece('\\', true)] + Read(e, SingleQuoted)
  {
    var e1 := ['\''] + e;
    var e2 := ['\''] + e1;
    ReopenIs(e);
    ReadCons('\\', e2, SingleQuoted);
    ReadCons('\'', e1, SingleQuoted);
    ReadCons('\'', e, Unquoted);
  }

  /** Once in single quotes, an escaped text is read to its end character by character. */
  lemma ReadRest(p: string)
    ensures Read(REOPEN + (EscapeQuotes(p) + ['\'']), SingleQuoted) == [Piece('\\', true)] + Literal(p)
  {
    ReadReopen(EscapeQuotes(p) + ['\'']);
    ReadEscaped(p, ['\'']);
    LastQuoteReads();
  }

  lemma LastQuoteReads()
    ensures Read(['\''], SingleQuoted) == []
  {
    assert ['\''] + "" == ['\''];
    ReadCons('\'', "", SingleQuoted);
  }

  lemma AllLiteral(p: string, a: seq<Piece>, b: seq<Piece>)
    requires a + b == Literal(p)
    ensures (forall i :: 0 <= i < |a| ==> a[i].literal) && |a| + |b| == |p|
    ensures forall i :: 0 <= i < |b| && b[i].c == '\'' ==> p[|a| + i] == '\''
  {
    LiteralIs(p);
    forall i | 0 <= i < |a| ensures a[i].literal { assert a[i] == (a + b)[i]; }
    forall i | 0 <= i < |b| ensures b[i] == Literal(p)[|a| + i] { assert b[i] == (a + b)[|a| + i]; }
  }

  /** The prompt's first quote, or else the closing one, would have to be read
      at a place where the prompt has no quote yet, or the reading falls short. */
  lemma UnquotedNotRead(p: string)
    requires p != ""
    ensures Read(EscapeQuotes(p) + ['\''], Unquoted) != Literal(p)
  {
    var i, rest := SplitAtQuote(p);
    var x := p[..i];
    var m := After(x, Unquoted);
    var b := Read(['\''] + rest, m);
    ReadConcat(x, ['\''] + rest, Unquoted);
    ReadAtMost(x, Unquoted);
    QuoteAdds(m, rest);
    if Read(EscapeQuotes(p) + ['\''], Unquoted) == Literal(p) {
      AllLiteral(p, Read(x, Unquoted), b);
      QuoteClash(p, i, rest, Read(x, Unquoted), m);
    }
  }

  lemma QuoteClash(p: string, i: nat, rest: string, a: seq<Piece>, m: ShellMode)
    requires p != "" && i == FirstQuote(p) && a == Read(p[..i], Unquoted) && m == After(p[..i], Unquoted)
    requires rest == if i < |p| then REOPEN + (EscapeQuotes(p[i + 1..]) + ['\'']) else ""
    requires forall j :: 0 <= j < |a| ==> a[j].literal
    ensures a + Read(['\''] + rest, m) != Literal(p)
  {
    var b := Read(['\''] + rest, m);
    ReadAtMost(p[..i], Unquoted);
    QuoteAdds(m, rest);
    LiteralIs(p);
    if i > 0 { ReadShorter(p[..i]); }
    if m.Unquoted? {
      if i < |p| {
        ReadRest(p[i + 1..]);
        LiteralIs(p[i + 1..]);
        assert |b| == |p| - i && b[0] == Piece('\\', true);
        assert (a + b)[|a|] == b[0];
      } else {
        assert b == [];
      }
    } else {
      var n := |a| + Owed(m);
      assert b[Owed(m)] == Piece('\'', true) && (a + b)[n] == b[Owed(m)];
      assert n < i && p[..i][n] == p[n] && p[..i][n] in p[..i];
    }
  }

  /** Inside single quotes, a prompt that mentions no other placeholder is read as
      it is if and only if it is empty: the inserted quotes close the template's
      and leave the prompt bare. */
  lemma SingleQuotedReadsIff(v: Values)
    requires !Contains(v.prompt, INPUT) && !Contains(v.prompt, CWD)
    ensures Read(Inserted(v), SingleQuoted) == Literal(v.prompt) <==> v.prompt == ""
  {
    var e := EscapeQuotes(v.prompt) + ['\''];
    PlainInserted(v);
    assert Inserted(v) == ['\''] + e;
    ReadCons('\'', e, SingleQuoted);
    if v.prompt == "" {
      assert e == ['\''] + "";
      ReadCons('\'', "", Unquoted);
    } else {
      UnquotedNotRead(v.prompt);
    }
  }
}
