/** The quote-aware command-template tokenizer (`tokenize` in
    `agent-daemon/src/runner.js`).  A `char` stands for one code unit. */
module Tokenizer {

  /** The class `\s` of the source's regular expressions. */
  predicate IsSpace(c: char) {
    var n := c as int;
    || 9 <= n <= 13 || n == 32 || n == 160 || n == 5760 || 8192 <= n <= 8202
    || n == 8232 || n == 8233 || n == 8239 || n == 8287 || n == 12288 || n == 65279
  }

  // ----- reference: a character-by-character automaton -----

  datatype Mode = Plain | Quoted | EscapedPlain | EscapedQuoted

  function Next(m: Mode, c: char): Mode {
    match m
    case EscapedPlain => Plain
    case EscapedQuoted => Quoted
    case Plain => if c == '\\' then EscapedPlain else if c == '"' then Quoted else Plain
    case Quoted => if c == '\\' then EscapedQuoted else if c == '"' then Plain else Quoted
  }

  predicate Separates(m: Mode, c: char) {
    m.Plain? && IsSpace(c)
  }

  function Flush(current: string): seq<string> {
    if current == "" then [] else [current]
  }

  /** The tokens of `s`, read in mode `m` with `current` already collected. */
  function Lex(s: string, current: string, m: Mode): seq<string> {
    if s == "" then Flush(current)
    else if Separates(m, s[0]) then Flush(current) + Lex(s[1..], "", Plain)
    else Lex(s[1..], current + [s[0]], Next(m, s[0]))
  }

  function Tokens(template: string): seq<string> {
    Lex(template, "", Plain)
  }

  // ----- the tokenizer as written -----

  function ModeOf(inQuotes: bool): Mode { if inQuotes then Quoted else Plain }

  /** The loop with its two-character step over escapes computes the automaton's
      tokens, for every template. */
  method Tokenize(template: string) returns (tokens: seq<string>)
    ensures tokens == Tokens(template)
  {
    tokens := [];
    var current := "";
    var inQuotes := false;
    var i := 0;
    assert template[0..] == template;
    while i < |template|
      invariant 0 <= i <= |template|
      invariant tokens + Lex(template[i..], current, ModeOf(inQuotes)) == Tokens(template)
    {
      var ch := template[i];
      ghost var rest := template[i..];
      assert rest[1..] == template[i + 1..];
      if ch == '\\' && i + 1 < |template| {
        LexEscape(rest, current, inQuotes);
        assert rest[2..] == template[i + 2..];
        current := current + [ch, template[i + 1]];
        i := i + 2;
        continue;
      }
      if ch == '"' {
        inQuotes := !inQuotes;
        current := current + [ch];
        i := i + 1;
        continue;
      }
      if IsSpace(ch) && !inQuotes {
        if current != "" {
          assert tokens + ([current] + Lex(rest[1..], "", Plain)) == (tokens + [current]) + Lex(rest[1..], "", Plain);
          tokens := tokens + [current];
          current := "";
        }
        i := i + 1;
        continue;
      }
      if ch == '\\' {
        LexLoneBackslash(rest, current, inQuotes);
      }
      current := current + [ch];
      i := i + 1;
    }
    if current != "" {
      tokens := tokens + [current];
    }
  }

  lemma LexEscape(s: string, current: string, inQuotes: bool)
    requires |s| >= 2 && s[0] == '\\'
    ensures Lex(s, current, ModeOf(inQuotes)) == Lex(s[2..], current + [s[0], s[1]], ModeOf(inQuotes))
  {
    var escaped := Next(ModeOf(inQuotes), s[0]);
    assert Lex(s, current, ModeOf(inQuotes)) == Lex(s[1..], current + [s[0]], escaped);
    assert s[1..][1..] == s[2..];
    assert current + [s[0]] + [s[1]] == current + [s[0], s[1]];
  }

  lemma LexLoneBackslash(s: string, current: string, inQuotes: bool)
    requires s == "\\"
    ensures Lex(s, current, ModeOf(inQuotes)) == [current + "\\"] == Lex("", current + "\\", ModeOf(inQuotes))
  {
    assert s[1..] == "";
  }

  // ----- what the tokens are -----

  /** The template without its unquoted, unescaped whitespace. */
  function Kept(s: string, m: Mode): string {
    if s == "" then ""
    else (if Separates(m, s[0]) then "" else [s[0]]) + Kept(s[1..], Next(m, s[0]))
  }

  function Concat(tokens: seq<string>): string {
    if |tokens| == 0 then "" else tokens[0] + Concat(tokens[1..])
  }

  /** `tokens.join(' ')` */
  function JoinSpaces(tokens: seq<string>): string {
    if |tokens| == 0 then "" else if |tokens| == 1 then tokens[0] else tokens[0] + " " + JoinSpaces(tokens[1..])
  }

  /** No character of `t`, read from mode `m`, separates. */
  predicate Solid(t: string, m: Mode) {
    t == "" || (!Separates(m, t[0]) && Solid(t[1..], Next(m, t[0])))
  }

  function ModeAfter(t: string, m: Mode): Mode {
    if t == "" then m else ModeAfter(t[1..], Next(m, t[0]))
  }

  /** Non-empty, solid, and all but the last leave the reader outside quotes and escapes. */
  predicate WellFormed(tokens: seq<string>) {
    |tokens| == 0
    || (&& tokens[0] != "" && Solid(tokens[0], Plain)
        && (|tokens| > 1 ==> ModeAfter(tokens[0], Plain).Plain?)
        && WellFormed(tokens[1..]))
  }

  lemma {:induction false} SolidSnoc(t: string, c: char, m: Mode)
    requires Solid(t, m) && !Separates(ModeAfter(t, m), c)
    ensures Solid(t + [c], m) && ModeAfter(t + [c], m) == Next(ModeAfter(t, m), c)
  {
    if t == "" {
      assert (t + [c])[1..] == "";
    } else {
      SolidSnoc(t[1..], c, Next(m, t[0]));
      assert (t + [c])[1..] == t[1..] + [c];
    }
  }

  /** Every lexed token list is well formed. */
  lemma {:induction false} LexWellFormed(s: string, current: string, m: Mode)
    requires Solid(current, Plain) && ModeAfter(current, Plain) == m
    ensures WellFormed(Lex(s, current, m))
    decreases |s|
  {
    if s == "" {
    } else if Separates(m, s[0]) {
      LexWellFormed(s[1..], "", Plain);
      var rest := Lex(s[1..], "", Plain);
      if current != "" { assert ([current] + rest)[1..] == rest; } else { assert Flush(current) + rest == rest; }
    } else {
      SolidSnoc(current, s[0], Plain);
      LexWellFormed(s[1..], current + [s[0]], Next(m, s[0]));
    }
  }

  /** A solid stretch is collected whole. */
  lemma {:induction false} LexSolid(t: string, rest: string, current: string, m: Mode)
    requires Solid(t, m)
    ensures Lex(t + rest, current, m) == Lex(rest, current + t, ModeAfter(t, m))
    decreases |t|
  {
    if t == "" {
      assert t + rest == rest && current + t == current;
    } else {
      assert (t + rest)[1..] == t[1..] + rest;
      LexSolid(t[1..], rest, current + [t[0]], Next(m, t[0]));
      assert current + [t[0]] + t[1..] == current + t;
    }
  }

  lemma {:induction false} LexJoined(tokens: seq<string>)
    requires WellFormed(tokens)
    ensures Lex(JoinSpaces(tokens), "", Plain) == tokens
  {
    if |tokens| == 1 {
      LexSolid(tokens[0], "", "", Plain);
      assert tokens[0] + "" == tokens[0] && "" + tokens[0] == tokens[0];
    } else if |tokens| > 1 {
      var rest := JoinSpaces(tokens[1..]);
      LexJoined(tokens[1..]);
      assert JoinSpaces(tokens) == tokens[0] + (" " + rest);
      LexSolid(tokens[0], " " + rest, "", Plain);
      assert "" + tokens[0] == tokens[0];
      assert (" " + rest)[1..] == rest;
      assert IsSpace(' ');
      assert tokens == [tokens[0]] + tokens[1..];
    }
  }

  /** Round trip: tokenizing the tokens joined by single spaces gives them back. */
  lemma TokenizeRoundTrip(template: string)
    ensures Tokens(JoinSpaces(Tokens(template))) == Tokens(template)
  {
    LexWellFormed(template, "", Plain);
    LexJoined(Tokens(template));
  }

  lemma {:induction false} LexKeeps(s: string, current: string, m: Mode)
    ensures Concat(Lex(s, current, m)) == current + Kept(s, m)
    ensures forall t :: t in Lex(s, current, m) ==> t != ""
    decreases |s|
  {
    if s == "" {
      assert Concat([current]) == current + Concat([]);
    } else if Separates(m, s[0]) {
      LexKeeps(s[1..], "", Plain);
      var rest := Lex(s[1..], "", Plain);
      assert Next(m, s[0]) == Plain;
      if current != "" { assert ([current] + rest)[1..] == rest; } else { assert Flush(current) + rest == rest; }
    } else {
      LexKeeps(s[1..], current + [s[0]], Next(m, s[0]));
      assert current + [s[0]] + Kept(s[1..], Next(m, s[0])) == current + Kept(s, m);
    }
  }

  // ----- the same, by counting -----

  /** The length of the run of backslashes right before position `i`. */
  function Backslashes(s: string, i: nat): nat
    requires i <= |s|
  {
    if i == 0 || s[i - 1] != '\\' then 0 else 1 + Backslashes(s, i - 1)
  }

  /** A character is escaped if an odd number of backslashes stands right before it. */
  predicate Escaped(s: string, i: nat)
    requires i <= |s|
  {
    Backslashes(s, i) % 2 == 1
  }

  /** The number of unescaped double quotes before position `i`. */
  function QuotesBefore(s: string, i: nat): nat
    requires i <= |s|
  {
    if i == 0 then 0 else QuotesBefore(s, i - 1) + (if s[i - 1] == '"' && !Escaped(s, i - 1) then 1 else 0)
  }

  /** Position `i` is whitespace between tokens: not escaped, and with an even number
      of unescaped double quotes before it. */
  predicate SplitsAt(s: string, i: nat)
    requires i < |s|
  {
    IsSpace(s[i]) && !Escaped(s, i) && QuotesBefore(s, i) % 2 == 0
  }

  /** The non-empty stretches of `s` between such positions, from `from` on, with
      `i` looked at next. */
  function Stretches(s: string, from: nat, i: nat): seq<string>
    requires from <= i <= |s|
    decreases |s| - i
  {
    if i == |s| then Flush(s[from..i])
    else if SplitsAt(s, i) then Flush(s[from..i]) + Stretches(s, i + 1, i + 1)
    else Stretches(s, from, i + 1)
  }

  function ModeAt(s: string, i: nat): Mode
    requires i <= |s|
  {
    if QuotesBefore(s, i) % 2 == 0 then (if Escaped(s, i) then EscapedPlain else Plain)
    else (if Escaped(s, i) then EscapedQuoted else Quoted)
  }

  lemma ModeStep(s: string, i: nat)
    requires i < |s|
    ensures ModeAt(s, i + 1) == Next(ModeAt(s, i), s[i])
    ensures SplitsAt(s, i) <==> Separates(ModeAt(s, i), s[i])
  {
    assert Escaped(s, i + 1) <==> s[i] == '\\' && !Escaped(s, i);
  }

  lemma {:induction false} LexIsStretches(s: string, from: nat, i: nat)
    requires from <= i <= |s|
    ensures Lex(s[i..], s[from..i], ModeAt(s, i)) == Stretches(s, from, i)
    decreases |s| - i
  {
    if i < |s| {
      ModeStep(s, i);
      assert s[i..][1..] == s[i + 1..] && s[i..][0] == s[i];
      if SplitsAt(s, i) {
        LexIsStretches(s, i + 1, i + 1);
        assert s[i + 1..i + 1] == "";
      } else {
        LexIsStretches(s, from, i + 1);
        assert s[from..i + 1] == s[from..i] + [s[i]];
      }
    }
  }

  /** For every template the tokens are exactly the non-empty stretches between the
      whitespace that is neither escaped nor behind an odd number of unescaped
      double quotes. */
  lemma TokensAreStretches(template: string)
    ensures Tokens(template) == Stretches(template, 0, 0)
  {
    LexIsStretches(template, 0, 0);
    assert template[0..] == template && template[0..0] == "";
  }

  /** What is left of `s` up to position `i` without the whitespace between tokens. */
  function WithoutSplits(s: string, i: nat): string
    requires i <= |s|
  {
    if i == 0 then "" else WithoutSplits(s, i - 1) + (if SplitsAt(s, i - 1) then "" else [s[i - 1]])
  }

  lemma {:induction false} KeptIs(s: string, i: nat)
    requires i <= |s|
    ensures WithoutSplits(s, i) + Kept(s[i..], ModeAt(s, i)) == Kept(s, Plain)
  {
    if i == 0 {
      assert s[0..] == s;
    } else {
      var c, rest := if SplitsAt(s, i - 1) then "" else [s[i - 1]], Kept(s[i..], ModeAt(s, i));
      KeptIs(s, i - 1);
      ModeStep(s, i - 1);
      assert s[i - 1..][1..] == s[i..] && s[i - 1..][0] == s[i - 1];
      assert Kept(s[i - 1..], ModeAt(s, i - 1)) == c + rest;
      Joined(WithoutSplits(s, i - 1), c, rest);
    }
  }

  lemma Joined(a: string, b: string, c: string)
    ensures a + (b + c) == (a + b) + c
  {
  }

  /** Tokens are non-empty, and together they are the template without exactly the
      whitespace between tokens. */
  lemma TokensKeepText(template: string)
    ensures Concat(Tokens(template)) == WithoutSplits(template, |template|)
    ensures forall t :: t in Tokens(template) ==> t != ""
  {
    LexKeeps(template, "", Plain);
    KeptIs(template, |template|);
    assert "" + Kept(template, Plain) == Kept(template, Plain);
    assert template[|template|..] == "";
  }

  // ----- a space between two texts -----

  lemma {:induction false} LexPlainConcat(a: string, b: string, current: string, m: Mode)
    requires ModeAfter(a, m) == Plain
    ensures Lex(a + " " + b, current, m) == Lex(a, current, m) + Tokens(b)
    decreases |a|
  {
    var s := a + " " + b;
    if a == "" {
      assert s[0] == ' ' && s[1..] == b && IsSpace(' ');
    } else {
      assert s[0] == a[0] && s[1..] == a[1..] + " " + b;
      if Separates(m, a[0]) {
        LexPlainConcat(a[1..], b, "", Plain);
        assert Flush(current) + (Lex(a[1..], "", Plain) + Tokens(b)) == (Flush(current) + Lex(a[1..], "", Plain)) + Tokens(b);
      } else {
        LexPlainConcat(a[1..], b, current + [a[0]], Next(m, a[0]));
      }
    }
  }

  lemma {:induction false} ModeAfterIs(s: string, i: nat)
    requires i <= |s|
    ensures ModeAfter(s[i..], ModeAt(s, i)) == ModeAt(s, |s|)
    decreases |s| - i
  {
    if i < |s| {
      ModeStep(s, i);
      ModeAfterIs(s, i + 1);
      assert s[i..][1..] == s[i + 1..] && s[i..][0] == s[i];
    }
  }

  /** If the text before a space ends unescaped and has an even number of unescaped
      double quotes, the two sides are tokenized apart. */
  lemma {:induction false} SpaceSeparates(a: string, b: string)
    requires !Escaped(a, |a|) && QuotesBefore(a, |a|) % 2 == 0
    ensures Tokens(a + " " + b) == Tokens(a) + Tokens(b)
  {
    EndsPlain(a);
    LexPlainConcat(a, b, "", Plain);
  }

  lemma {:induction false} EndsPlain(a: string)
    requires !Escaped(a, |a|) && QuotesBefore(a, |a|) % 2 == 0
    ensures ModeAfter(a, Plain) == Plain
  {
    ModeAfterIs(a, 0);
    assert a[0..] == a && ModeAt(a, 0) == Plain;
  }
}
