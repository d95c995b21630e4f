/** `shellEscape` in `agent-daemon/src/runner.js` against the quoting rules of the
    POSIX Shell Command Language (IEEE Std 1003.1, XCU): section 2.2.1, a
    backslash outside quotes; section 2.2.2, single quotes; section 2.2.3,
    double quotes. */
module ShellQuote {

  /** `value.replace(/'/g, "'\\''")` */
  function EscapeQuotes(value: string): string {
    if value == "" then ""
    else EscapeChar(value[0]) + EscapeQuotes(value[1..])
  }

  function EscapeChar(c: char): string { if c == '\'' then "'\\''" else [c] }

  function ShellEscape(value: string): string {
    "'" + EscapeQuotes(value) + "'"
  }

  datatype ShellMode = Unquoted | Backslash | SingleQuoted | DoubleQuoted | DoubleBackslash

  /** A character the lexer contributes to a word, and whether quoting has taken
      any special meaning from it. */
  datatype Piece = Piece(c: char, literal: bool)

  function NextMode(m: ShellMode, c: char): ShellMode {
    match m
    case Unquoted =>
      if c == '\\' then Backslash else if c == '\'' then SingleQuoted else if c == '"' then DoubleQuoted else Unquoted
    case Backslash => Unquoted
    case SingleQuoted => if c == '\'' then Unquoted else SingleQuoted
    case DoubleQuoted => if c == '"' then Unquoted else if c == '\\' then DoubleBackslash else DoubleQuoted
    case DoubleBackslash => DoubleQuoted
  }

  /** What one character contributes; a backslash is settled by the next one. */
  function Contributes(m: ShellMode, c: char): seq<Piece> {
    match m
    case Unquoted => if c == '\\' || c == '\'' || c == '"' then [] else [Piece(c, false)]
    case Backslash => if c == '\n' then [] else [Piece(c, true)]
    case SingleQuoted => if c == '\'' then [] else [Piece(c, true)]
    case DoubleQuoted => if c == '"' || c == '\\' then [] else [Piece(c, c != '$' && c != '`')]
    case DoubleBackslash =>
      if c == '\n' then []
      else if c == '$' || c == '`' || c == '"' || c == '\\' then [Piece(c, true)]
      else [Piece('\\', true), Piece(c, true)]
  }

  /** What a shell makes of `s`, read in mode `m`. */
  function Read(s: string, m: ShellMode): seq<Piece> {
    if s == "" then [] else Contributes(m, s[0]) + Read(s[1..], NextMode(m, s[0]))
  }

  /** The mode a shell is in after reading `s`. */
  function After(s: string, m: ShellMode): ShellMode {
    if s == "" then m else After(s[1..], NextMode(m, s[0]))
  }

  lemma ReadCons(c: char, s: string, m: ShellMode)
    ensures Read([c] + s, m) == Contributes(m, c) + Read(s, NextMode(m, c))
  {
    assert ([c] + s)[1..] == s;
  }

  lemma {:induction false} ReadConcat(a: string, b: string, m: ShellMode)
    ensures Read(a + b, m) == Read(a, m) + Read(b, After(a, m))
    decreases |a|
  {
    if a == "" {
      assert a + b == b;
    } else {
      assert a + b == [a[0]] + (a[1..] + b);
      ReadCons(a[0], a[1..] + b, m);
      ReadConcat(a[1..], b, NextMode(m, a[0]));
      Regroup(Contributes(m, a[0]), Read(a[1..], NextMode(m, a[0])), Read(b, After(a, m)));
    }
  }

  function Literal(v: string): seq<Piece> {
    if v == "" then [] else [Piece(v[0], true)] + Literal(v[1..])
  }

  /** The four-character escape closes the quotes, contributes a literal quote and reopens them. */
  lemma ReadEscapedQuote(after: string)
    ensures Read("'\\''" + after, SingleQuoted) == [Piece('\'', true)] + Read(after, SingleQuoted)
  {
    var s := "'\\''" + after;
    assert s[1..] == "\\''" + after;
    assert s[1..][1..] == "''" + after;
    assert s[1..][1..][1..] == "'" + after;
    assert s[1..][1..][1..][1..] == after;
    calc {
      Read(s, SingleQuoted);
      Read(s[1..], Unquoted);
      Read(s[1..][1..], Backslash);
      [Piece('\'', true)] + Read(s[1..][1..][1..], Unquoted);
      [Piece('\'', true)] + Read(after, SingleQuoted);
    }
  }

  lemma ReadOrdinary(c: char, after: string)
    requires c != '\''
    ensures Read([c] + after, SingleQuoted) == [Piece(c, true)] + Read(after, SingleQuoted)
  {
    assert ([c] + after)[1..] == after;
  }

  lemma ReadEscapedChar(c: char, after: string)
    ensures Read(EscapeChar(c) + after, SingleQuoted) == [Piece(c, true)] + Read(after, SingleQuoted)
  {
    if c == '\'' { ReadEscapedQuote(after); } else { ReadOrdinary(c, after); }
  }

  lemma RegroupFour<T>(a: seq<T>, b: seq<T>, c: seq<T>, d: seq<T>)
    ensures a + (b + c + d) == (a + b) + c + d
  {
  }

  lemma Regroup<T>(a: seq<T>, b: seq<T>, c: seq<T>)
    ensures (a + b) + c == a + (b + c)
  {
  }

  /** Inside single quotes an escaped value is read back, and the reader is still inside. */
  lemma {:induction false} ReadEscaped(v: string, rest: string)
    ensures Read(EscapeQuotes(v) + rest, SingleQuoted) == Literal(v) + Read(rest, SingleQuoted)
  {
    if v == "" {
      assert EscapeQuotes(v) + rest == rest;
    } else {
      var head, tail := EscapeChar(v[0]), EscapeQuotes(v[1..]);
      calc {
        Read(EscapeQuotes(v) + rest, SingleQuoted);
        { Regroup(head, tail, rest); }
        Read(head + (tail + rest), SingleQuoted);
        { ReadEscapedChar(v[0], tail + rest); }
        [Piece(v[0], true)] + Read(tail + rest, SingleQuoted);
        { ReadEscaped(v[1..], rest); }
        [Piece(v[0], true)] + (Literal(v[1..]) + Read(rest, SingleQuoted));
        { Regroup([Piece(v[0], true)], Literal(v[1..]), Read(rest, SingleQuoted)); }
        Literal(v) + Read(rest, SingleQuoted);
      }
    }
  }

  /** For every value and every suffix, a shell that reads the escaped value from
      the unquoted state contributes exactly its characters, each of them
      literal, and is back in the unquoted state for the suffix. */
  lemma {:induction false} ShellEscapeIsLiteral(value: string, suffix: string)
    ensures Read(ShellEscape(value) + suffix, Unquoted) == Literal(value) + Read(suffix, Unquoted)
  {
    var s := ShellEscape(value) + suffix;
    assert s[1..] == EscapeQuotes(value) + ("'" + suffix);
    ReadEscaped(value, "'" + suffix);
    assert ("'" + suffix)[1..] == suffix;
  }
}
