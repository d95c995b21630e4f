/** The shell branch of `buildSpawnPlan`: what a shell makes of the command when
    a placeholder stands where the shell reads unquoted text. */
module ShellPlan {
  import opened ShellQuote
  import opened SpawnPlan

  /** The text of a stretch of the template once its placeholders are replaced. */
  function ShellText(template: string, v: Values): string {
    ReplaceEach(template, Pairs(Escaped(v)))
  }

  /** The later two replacements. */
  function Later(s: string, v: Values): string {
    ReplaceAll(ReplaceAll(s, INPUT, ShellEscape(v.json)), CWD, ShellEscape(v.cwd))
  }

  lemma ShellTextIs(template: string, v: Values)
    ensures ShellText(template, v) == Later(ReplaceAll(template, PROMPT, ShellEscape(v.prompt)), v)
  {
    ReplaceThree(template, (PROMPT, ShellEscape(v.prompt)), (INPUT, ShellEscape(v.json)), (CWD, ShellEscape(v.cwd)));
  }

  // ----- the command, around one prompt placeholder -----

  lemma PromptAt(s: string, j: int)
    requires OccursAt(s, PROMPT, j)
    ensures s[j] == '{' && s[j + 1] == '{' && s[j + 2] == 'p' && s[j + 3] == 'r' && s[j + 4] == 'o' && s[j + 5] == 'm'
    ensures s[j + 6] == 'p' && s[j + 7] == 't' && s[j + 8] == '}' && s[j + 9] == '}'
  {
    assert s[j + 0] == PROMPT[0] && s[j + 1] == PROMPT[1] && s[j + 2] == PROMPT[2] && s[j + 3] == PROMPT[3];
    assert s[j + 4] == PROMPT[4] && s[j + 5] == PROMPT[5] && s[j + 6] == PROMPT[6] && s[j + 7] == PROMPT[7];
    assert s[j + 8] == PROMPT[8] && s[j + 9] == PROMPT[9];
  }

  /** The placeholder does not overlap itself. */
  lemma PromptsDoNotOverlap(pre: string, post: string)
    requires pre != "" && OccursAt(pre + PROMPT + post, PROMPT, 0)
    ensures |PROMPT| <= |pre| && OccursAt(pre, PROMPT, 0)
  {
    var t := pre + PROMPT + post;
    assert OccursAt(t, PROMPT, |pre|);
    PromptAt(t, 0);
    PromptAt(t, |pre|);
  }

  lemma {:induction false} ReplaceAround(pre: string, post: string, w: string)
    ensures ReplaceAll(pre + PROMPT + post, PROMPT, w) == ReplaceAll(pre, PROMPT, w) + w + ReplaceAll(post, PROMPT, w)
    decreases |pre|
  {
    var t, end := pre + PROMPT + post, ReplaceAll(post, PROMPT, w);
    if pre == "" {
      assert t[|PROMPT|..] == post && OccursAt(t, PROMPT, 0);
      ReplaceHere(t, PROMPT, w);
      assert ReplaceAll("", PROMPT, w) == "";
      RegroupFour("", "", w, end);
    } else if OccursAt(t, PROMPT, 0) {
      PromptsDoNotOverlap(pre, post);
      assert t[|PROMPT|..] == pre[|PROMPT|..] + PROMPT + post;
      ReplaceAround(pre[|PROMPT|..], post, w);
      ReplaceHere(t, PROMPT, w);
      ReplaceHere(pre, PROMPT, w);
      RegroupFour(w, ReplaceAll(pre[|PROMPT|..], PROMPT, w), w, end);
    } else {
      assert OccursAt(pre, PROMPT, 0) ==> OccursAt(t, PROMPT, 0);
      assert t[1..] == pre[1..] + PROMPT + post && t[0] == pre[0];
      ReplaceAround(pre[1..], post, w);
      ReplaceSkip(t, PROMPT, w);
      ReplaceSkip(pre, PROMPT, w);
      RegroupFour([pre[0]], ReplaceAll(pre[1..], PROMPT, w), w, end);
    }
  }

  lemma RegroupFenced(a: string, q: string, b: string)
    ensures a + ("'" + q + "'") + b == a + ['\''] + (q + ['\''] + b)
  {
  }

  lemma ReplaceBetween(a: string, q: string, b: string, k: string, w: string)
    requires k != "" && '\'' !in k
    ensures ReplaceAll(a + ("'" + q + "'") + b, k, w) == ReplaceAll(a, k, w) + ("'" + ReplaceAll(q, k, w) + "'") + ReplaceAll(b, k, w)
  {
    RegroupFenced(a, q, b);
    ReplaceFence(a, '\'', q + ['\''] + b, k, w);
    ReplaceFence(q, '\'', b, k, w);
    RegroupFenced(ReplaceAll(a, k, w), ReplaceAll(q, k, w), ReplaceAll(b, k, w));
  }

  /** The single quotes around the escaped prompt keep the rest of the command apart. */
  lemma LaterBetween(a: string, q: string, b: string, v: Values)
    ensures Later(a + ("'" + q + "'") + b, v) == Later(a, v) + ("'" + Later(q, v) + "'") + Later(b, v)
  {
    var i := ShellEscape(v.json);
    ReplaceBetween(a, q, b, INPUT, i);
    ReplaceBetween(ReplaceAll(a, INPUT, i), ReplaceAll(q, INPUT, i), ReplaceAll(b, INPUT, i), CWD, ShellEscape(v.cwd));
  }

  lemma CommandAround(pre: string, post: string, v: Values)
    ensures ShellText(pre + PROMPT + post, v)
         == ShellText(pre, v) + ("'" + Later(EscapeQuotes(v.prompt), v) + "'") + ShellText(post, v)
  {
    var w := ShellEscape(v.prompt);
    ShellTextIs(pre + PROMPT + post, v);
    ShellTextIs(pre, v);
    ShellTextIs(post, v);
    ReplaceAround(pre, post, w);
    LaterBetween(ReplaceAll(pre, PROMPT, w), EscapeQuotes(v.prompt), ReplaceAll(post, PROMPT, w), v);
  }

  // ----- escaping and placeholders -----

  /** A non-empty word without a single quote. */
  predicate QuoteFree(k: string) { k != "" && '\'' !in k }

  lemma EscapeCons(c: char, p: string)
    ensures EscapeQuotes([c] + p) == EscapeChar(c) + EscapeQuotes(p)
  {
    assert ([c] + p)[1..] == p;
  }

  lemma {:induction false} EscapeConcat(a: string, b: string)
    ensures EscapeQuotes(a + b) == EscapeQuotes(a) + EscapeQuotes(b)
  {
    if a == "" {
      assert a + b == b;
    } else {
      assert a + b == [a[0]] + (a[1..] + b);
      EscapeCons(a[0], a[1..] + b);
      EscapeConcat(a[1..], b);
      Regroup(EscapeChar(a[0]), EscapeQuotes(a[1..]), EscapeQuotes(b));
    }
  }

  lemma {:induction false} EscapeQuoteFree(k: string)
    requires '\'' !in k
    ensures EscapeQuotes(k) == k
  {
    if k != "" { EscapeQuoteFree(k[1..]); }
  }

  lemma Slices(c: string, q: string, j: nat)
    requires |c| <= j <= |c| + |q|
    ensures (c + q)[..j] == c + q[..j - |c|] && (c + q)[j..] == q[j - |c|..]
    ensures j < |c| + |q| ==> (c + q)[j] == q[j - |c|]
  {
  }

  /** A brace in the escaped text is a brace of the text. */
  lemma {:induction false} BraceOrigin(p: string, j: nat) returns (a: nat)
    requires j < |EscapeQuotes(p)| && EscapeQuotes(p)[j] == '{'
    ensures a < |p| && EscapeQuotes(p)[..j] == EscapeQuotes(p[..a]) && EscapeQuotes(p)[j..] == EscapeQuotes(p[a..])
    decreases |p|
  {
    if j == 0 {
      a := 0;
      assert p[0..] == p && p[..0] == "";
    } else {
      var c, q, t := EscapeChar(p[0]), EscapeQuotes(p[1..]), p[1..];
      assert EscapeQuotes(p) == c + q;
      assert j >= |c|;
      Slices(c, q, j);
      var b := BraceOrigin(t, j - |c|);
      a := b + 1;
      assert p[..a] == [p[0]] + t[..b] && p[a..] == t[b..];
      EscapeCons(p[0], t[..b]);
    }
  }

  /** If the escaped text starts with a quote-free word, so does the text. */
  lemma {:induction false} EscapedStart(p: string, k: string)
    requires '\'' !in k && OccursAt(EscapeQuotes(p), k, 0)
    ensures OccursAt(p, k, 0)
    decreases |k|
  {
    if k != "" {
      var q := EscapeQuotes(p);
      assert q[0 + 0] == k[0] && k[0] in k;
      assert EscapeChar(p[0]) == [p[0]] && q == [p[0]] + EscapeQuotes(p[1..]);
      forall j | 0 <= j < |k[1..]| ensures EscapeQuotes(p[1..])[0 + j] == k[1..][j] { assert q[0 + (j + 1)] == k[j + 1]; }
      EscapedStart(p[1..], k[1..]);
      forall j | 0 <= j < |k| ensures p[0 + j] == k[j] { if j > 0 { assert p[1..][0 + (j - 1)] == k[1..][j - 1]; } }
    }
  }

  lemma EscapeKeepsMention(p: string, k: string, a: nat)
    requires QuoteFree(k) && OccursAt(p, k, a)
    ensures OccursAt(EscapeQuotes(p), k, |EscapeQuotes(p[..a])|)
  {
    var x, y := p[..a], p[a + |k|..];
    assert p == x + (k + y);
    EscapeConcat(x, k + y);
    EscapeConcat(k, y);
    EscapeQuoteFree(k);
  }

  lemma EscapeAddsNoMention(p: string, k: string, j: nat) returns (a: nat)
    requires QuoteFree(k) && k[0] == '{' && OccursAt(EscapeQuotes(p), k, j)
    ensures OccursAt(p, k, a) && EscapeQuotes(p)[..j] == EscapeQuotes(p[..a])
  {
    var q := EscapeQuotes(p);
    assert q[j + 0] == k[0];
    a := BraceOrigin(p, j);
    forall m | 0 <= m < |k| ensures q[j..][0 + m] == k[m] { assert q[j + m] == k[m]; }
    EscapedStart(p[a..], k);
    forall m | 0 <= m < |k| ensures p[a + m] == k[m] { assert p[a..][0 + m] == k[m]; }
  }

  lemma EscapeContains(p: string, k: string)
    requires QuoteFree(k) && k[0] == '{'
    ensures Contains(EscapeQuotes(p), k) <==> Contains(p, k)
  {
    if Contains(p, k) {
      var a :| OccursAt(p, k, a);
      EscapeKeepsMention(p, k, a);
    }
    if Contains(EscapeQuotes(p), k) {
      var j :| OccursAt(EscapeQuotes(p), k, j);
      var a := EscapeAddsNoMention(p, k, j);
    }
  }

  // ----- a value outside the quotes -----

  /** The replaced text `r` agrees with `q` up to `j` and there closes the quotes,
      with `w` behind them. */
  ghost predicate ClosesAt(q: string, r: string, j: nat, w: string) {
    j <= |q| && j + 1 + |w| <= |r| && r[..j] == q[..j] && r[j] == '\'' && r[j + 1..j + 1 + |w|] == w
  }

  /** The characters of an occurrence. */
  lemma CwdAt(s: string, j: int)
    requires OccursAt(s, CWD, j)
    ensures s[j] == '{' && s[j + 1] == '{' && s[j + 2] == 'c' && s[j + 3] == 'w' && s[j + 4] == 'd' && s[j + 5] == '}' && s[j + 6] == '}'
  {
    assert s[j + 0] == CWD[0] && s[j + 1] == CWD[1] && s[j + 2] == CWD[2] && s[j + 3] == CWD[3];
    assert s[j + 4] == CWD[4] && s[j + 5] == CWD[5] && s[j + 6] == CWD[6];
  }

  lemma InputAt(s: string, i: int)
    requires OccursAt(s, INPUT, i)
    ensures s[i] == '{' && s[i + 1] == '{'
  {
    assert s[i + 0] == INPUT[0] && s[i + 1] == INPUT[1];
  }

  /** Two placeholders do not overlap. */
  lemma CwdEndsBefore(p: string, i: int, j: int)
    requires OccursAt(p, CWD, j) && OccursAt(p, INPUT, i) && j < i
    ensures j + |CWD| <= i
  {
    CwdAt(p, j);
    InputAt(p, i);
  }

  /** Before the first occurrence nothing changes. */
  lemma UnchangedBefore(s: string, k: string, w: string, i: nat)
    requires k != "" && i == IndexOf(s, k)
    ensures i <= |ReplaceAll(s, k, w)| && forall j :: 0 <= j < i ==> ReplaceAll(s, k, w)[j] == s[j]
  {
    ReplaceFirst(s, k, w, i);
  }

  /** At the first occurrence the escaped value stands. */
  lemma ValueShown(q: string, k: string, value: string, i: nat)
    requires k != "" && FirstAt(q, k, i)
    ensures ClosesAt(q, ReplaceAll(q, k, ShellEscape(value)), i, EscapeQuotes(value))
  {
    var w, rest := EscapeQuotes(value), ReplaceAll(q[i + |k|..], k, ShellEscape(value));
    ReplaceFirst(q, k, ShellEscape(value), i);
    Shown(q[..i], w, "'" + rest);
    assert q[..i] + (ShellEscape(value) + rest) == q[..i] + ("'" + w) + ("'" + rest);
  }

  lemma Shown(a: string, w: string, b: string)
    ensures var r := a + ("'" + w) + b;
            |a| + 1 + |w| <= |r| && r[..|a|] == a && r[|a|] == '\'' && r[|a| + 1..|a| + 1 + |w|] == w
  {
  }

  /** Before the first `{{input}}` the first `{{cwd}}` is still the first. */
  lemma CwdStaysFirst(q: string, w: string, i: int, f: nat)
    requires FirstAt(q, CWD, f) && i == IndexOf(q, INPUT) && (i < 0 || f < i) && w != ""
    ensures var o := ReplaceAll(q, INPUT, w); FirstAt(o, CWD, f) && o[..f] == q[..f]
  {
    var o := ReplaceAll(q, INPUT, w);
    if i < 0 {
      ReplaceNone(q, INPUT, w);
    } else {
      CwdEndsBefore(q, i, f);
      UnchangedBefore(q, INPUT, w, i);
      forall j | 0 <= j < f ensures !OccursAt(o, CWD, j) {
        assert OccursAt(o, CWD, j) ==> OccursAt(q, CWD, j);
      }
    }
  }

  lemma CwdFirstCloses(q: string, v: Values, i: int, f: nat)
    requires FirstAt(q, CWD, f) && i == IndexOf(q, INPUT) && (i < 0 || f < i)
    ensures ClosesAt(q, Later(q, v), f, EscapeQuotes(v.cwd))
  {
    CwdStaysFirst(q, ShellEscape(v.json), i, f);
    ValueShown(ReplaceAll(q, INPUT, ShellEscape(v.json)), CWD, v.cwd, f);
  }

  /** No `{{cwd}}` of the replaced text reaches across the closing quote at `i`. */
  lemma CwdComesLater(q: string, o: string, i: nat, f: int)
    requires i <= |q| && i < |o| && o[..i] == q[..i] && o[i] == '\''
    requires OccursAt(o, CWD, f) && forall j :: 0 <= j < i ==> !OccursAt(q, CWD, j)
    ensures f > i
  {
    CwdAt(o, f);
    if f + |CWD| <= i {
      forall m | 0 <= m < |CWD| ensures q[f + m] == CWD[m] { assert o[f + m] == CWD[m] && o[f + m] == o[..i][f + m]; }
      assert OccursAt(q, CWD, f);
    }
  }

  /** Replacing `{{cwd}}` leaves the text before its first occurrence alone. */
  lemma CwdLeaves(o: string, w: string, n: nat)
    requires n <= |o| && forall f :: OccursAt(o, CWD, f) ==> f >= n
    ensures n <= |ReplaceAll(o, CWD, w)| && ReplaceAll(o, CWD, w)[..n] == o[..n]
  {
    var f := IndexOf(o, CWD);
    if f < 0 {
      ReplaceNone(o, CWD, w);
    } else {
      assert OccursAt(o, CWD, f);
      UnchangedBefore(o, CWD, w, f);
    }
  }

  lemma SamePrefix(r: string, o: string, n: nat, q: string, j: nat, w: string)
    requires n <= |r| && n <= |o| && r[..n] == o[..n] && j + 1 + |w| <= n && ClosesAt(q, o, j, w)
    ensures ClosesAt(q, r, j, w)
  {
    assert r[..j] == r[..n][..j] && o[..j] == o[..n][..j];
    assert r[j] == r[..n][j];
    assert r[j + 1..j + 1 + |w|] == r[..n][j + 1..j + 1 + |w|] && o[j + 1..j + 1 + |w|] == o[..n][j + 1..j + 1 + |w|];
  }

  lemma InputFirstCloses(q: string, v: Values, i: nat)
    requires FirstAt(q, INPUT, i) && forall j :: 0 <= j < i ==> !OccursAt(q, CWD, j)
    ensures ClosesAt(q, Later(q, v), i, "")
  {
    var o := ReplaceAll(q, INPUT, ShellEscape(v.json));
    ValueShown(q, INPUT, v.json, i);
    forall f | OccursAt(o, CWD, f) ensures f >= i + 1 { CwdComesLater(q, o, i, f); }
    CwdLeaves(o, ShellEscape(v.cwd), i + 1);
    SamePrefix(Later(q, v), o, i + 1, q, i, "");
  }

  /** JSON of an object. */
  predicate JsonObject(json: string) {
    |json| >= 2 && json[0] == '{' && (json[1] == '"' || json[1] == '}')
  }

  lemma JsonStart(json: string)
    requires JsonObject(json)
    ensures |EscapeQuotes(json)| >= 2 && EscapeQuotes(json)[0] == '{' && EscapeQuotes(json)[1] == json[1]
  {
    assert EscapeQuotes(json) == [json[0]] + EscapeQuotes(json[1..]);
    assert EscapeQuotes(json[1..]) == [json[1]] + EscapeQuotes(json[1..][1..]);
  }

  lemma SplitTwo(w: string, o: string, i: nat)
    requires |w| >= 2 && i + 1 + |w| <= |o| && o[i + 1..i + 1 + |w|] == w
    ensures o[i + 1] == w[0] && o[i + 2] == w[1]
  {
    assert o[i + 1] == o[i + 1..i + 1 + |w|][0] && o[i + 2] == o[i + 1..i + 1 + |w|][1];
  }

  /** The JSON's brace stays behind the closing quote. */
  lemma InputFirstShows(q: string, v: Values, i: nat)
    requires FirstAt(q, INPUT, i) && JsonObject(v.json) && forall j :: 0 <= j < i ==> !OccursAt(q, CWD, j)
    ensures ClosesAt(q, Later(q, v), i, "{")
  {
    var w := EscapeQuotes(v.json);
    var o := ReplaceAll(q, INPUT, ShellEscape(v.json));
    ValueShown(q, INPUT, v.json, i);
    JsonStart(v.json);
    SplitTwo(w, o, i);
    forall f | OccursAt(o, CWD, f) ensures f >= i + 2 {
      CwdComesLater(q, o, i, f);
      CwdAt(o, f);
    }
    CwdLeaves(o, ShellEscape(v.cwd), i + 2);
    assert ClosesAt(q, o, i, "{");
    SamePrefix(Later(q, v), o, i + 2, q, i, "{");
  }

  /** What the shell makes of a directory it comes to unquoted: something, and not
      a quoted brace first. */
  ghost predicate Telling(w: string) {
    Read(w, Unquoted) != [] && Read(w, Unquoted)[0] != Piece('{', true)
  }

  /** Whichever placeholder comes first in the escaped prompt, its value stands
      outside the quotes. */
  lemma MentionCloses(q: string, v: Values) returns (j: nat, k: string)
    requires Contains(q, INPUT) || Contains(q, CWD)
    ensures (k == INPUT || k == CWD) && FirstAt(q, k, j) && ClosesAt(q, Later(q, v), j, "")
    ensures JsonObject(v.json) && (Contains(q, CWD) ==> Telling(EscapeQuotes(v.cwd)))
            ==> exists w :: Telling(w) && ClosesAt(q, Later(q, v), j, w)
  {
    var i, f := IndexOf(q, INPUT), IndexOf(q, CWD);
    if f >= 0 && (i < 0 || f < i) {
      j, k := f, CWD;
      CwdFirstCloses(q, v, i, f);
      assert Contains(q, CWD);
    } else {
      j, k := i, INPUT;
      InputFirstCloses(q, v, i);
      if JsonObject(v.json) {
        InputFirstShows(q, v, i);
        BraceIsTelling();
      }
    }
  }

  lemma BraceIsTelling()
    ensures Telling("{")
  {
    assert "{" == ['{'] + "";
    ReadCons('{', "", Unquoted);
  }

  lemma {:induction false} LiteralIs(p: string)
    ensures |Literal(p)| == |p| && forall k :: 0 <= k < |p| ==> Literal(p)[k] == Piece(p[k], true)
  {
    if p != "" { LiteralIs(p[1..]); }
  }

  /** An escaped text with unquoted text behind it. */
  lemma ReadBehind(p: string, w: string, tail: string)
    ensures Read("'" + EscapeQuotes(p) + "'" + w + tail, Unquoted) == Literal(p) + (Read(w, Unquoted) + Read(tail, After(w, Unquoted)))
  {
    Regroup(ShellEscape(p), w, tail);
    ShellEscapeIsLiteral(p, w + tail);
    ReadConcat(w, tail, Unquoted);
  }

  lemma CutAt(q: string, r: string, j: nat, w: string, rest: string)
    requires ClosesAt(q, r, j, w)
    ensures "'" + r + "'" + rest == "'" + q[..j] + "'" + w + (r[j + 1 + |w|..] + "'" + rest)
  {
    assert r == r[..j] + "'" + w + r[j + 1 + |w|..];
  }

  /** Unquoted text that tells is read as something else than the placeholder's brace. */
  lemma BehindIsRead(p: string, r: string, j: nat, w: string, k: string, rest: string) returns (a: nat)
    requires QuoteFree(k) && k[0] == '{' && OccursAt(EscapeQuotes(p), k, j) && ClosesAt(EscapeQuotes(p), r, j, w) && Telling(w)
    ensures a < |p| && p[a] == '{'
    ensures a < |Read("'" + r + "'" + rest, Unquoted)| && Read("'" + r + "'" + rest, Unquoted)[a] != Piece('{', true)
  {
    a := EscapeAddsNoMention(p, k, j);
    assert p[a + 0] == k[0];
    CutAt(EscapeQuotes(p), r, j, w, rest);
    ReadBehind(p[..a], w, r[j + 1 + |w|..] + "'" + rest);
    LiteralIs(p[..a]);
  }

  // ----- what the shell reads -----

  /** For every template and every prompt placeholder that the shell comes to
      unquoted, the shell reads there exactly the prompt, every character
      literal, if and only if the prompt mentions neither of the other two
      placeholders. */
  lemma ShellReadsPromptIff(pre: string, post: string, v: Values)
    requires After(ShellText(pre, v), Unquoted) == Unquoted
    requires v.prompt != "" ==> JsonObject(v.json)
    requires Contains(v.prompt, CWD) ==> Telling(EscapeQuotes(v.cwd))
    ensures Read(ShellText(pre + PROMPT + post, v), Unquoted)
            == Read(ShellText(pre, v), Unquoted) + Literal(v.prompt) + Read(ShellText(post, v), Unquoted)
            <==> !Contains(v.prompt, INPUT) && !Contains(v.prompt, CWD)
  {
    ReadAround(pre, post, v);
    MiddleIff(v, ShellText(post, v));
  }

  /** The text that takes the place of one prompt placeholder. */
  function Inserted(v: Values): string { "'" + Later(EscapeQuotes(v.prompt), v) + "'" }

  /** Whatever state the shell comes to the placeholder in, it reads the prompt
      exactly if it does so in the inserted text and what follows. */
  lemma ReadAround(pre: string, post: string, v: Values)
    ensures var m := After(ShellText(pre, v), Unquoted);
            Read(ShellText(pre + PROMPT + post, v), Unquoted)
            == Read(ShellText(pre, v), Unquoted) + Read(Inserted(v) + ShellText(post, v), m)
    ensures var m := After(ShellText(pre, v), Unquoted);
            Read(ShellText(pre + PROMPT + post, v), Unquoted)
            == Read(ShellText(pre, v), Unquoted) + Literal(v.prompt) + Read(ShellText(post, v), m)
            <==> Read(Inserted(v) + ShellText(post, v), m) == Literal(v.prompt) + Read(ShellText(post, v), m)
  {
    var start, end := ShellText(pre, v), ShellText(post, v);
    var m := After(start, Unquoted);
    CommandAround(pre, post, v);
    Regroup(start, Inserted(v), end);
    ReadConcat(start, Inserted(v) + end, Unquoted);
    Regroup(Read(start, Unquoted), Literal(v.prompt), Read(end, m));
    SameTail(Read(start, Unquoted), Read(Inserted(v) + end, m), Literal(v.prompt) + Read(end, m));
  }

  lemma SameTail<T>(a: seq<T>, b: seq<T>, c: seq<T>)
    ensures a + b == a + c <==> b == c
  {
    if a + b == a + c { assert (a + b)[|a|..] == b && (a + c)[|a|..] == c; }
  }

  /** A prompt that mentions no other placeholder is inserted in escaped form. */
  lemma PlainInserted(v: Values)
    requires !Contains(v.prompt, INPUT) && !Contains(v.prompt, CWD)
    ensures Inserted(v) == ShellEscape(v.prompt)
  {
    EscapeContains(v.prompt, INPUT);
    EscapeContains(v.prompt, CWD);
    ReplaceNone(EscapeQuotes(v.prompt), INPUT, ShellEscape(v.json));
    ReplaceNone(EscapeQuotes(v.prompt), CWD, ShellEscape(v.cwd));
  }

  lemma MiddleIff(v: Values, end: string)
    requires v.prompt != "" ==> JsonObject(v.json)
    requires Contains(v.prompt, CWD) ==> Telling(EscapeQuotes(v.cwd))
    ensures Read(Inserted(v) + end, Unquoted) == Literal(v.prompt) + Read(end, Unquoted)
            <==> !Contains(v.prompt, INPUT) && !Contains(v.prompt, CWD)
  {
    var q := EscapeQuotes(v.prompt);
    if Contains(v.prompt, INPUT) || Contains(v.prompt, CWD) {
      EscapeContains(v.prompt, INPUT);
      EscapeContains(v.prompt, CWD);
      var j, k := MentionCloses(q, v);
      var w :| Telling(w) && ClosesAt(q, Later(q, v), j, w);
      var a := BehindIsRead(v.prompt, Later(q, v), j, w, k, end);
      LiteralIs(v.prompt);
      assert (Literal(v.prompt) + Read(end, Unquoted))[a] == Piece('{', true);
    } else {
      PlainInserted(v);
      ShellEscapeIsLiteral(v.prompt, end);
    }
  }

  lemma LaterCwd(v: Values)
    ensures Later(CWD, v) == ShellEscape(v.cwd)
  {
    assert forall j :: OccursAt(CWD, INPUT, j) ==> false;
    ReplaceNone(CWD, INPUT, ShellEscape(v.json));
    assert OccursAt(CWD, CWD, 0) && CWD[|CWD|..] == "";
    ReplaceHere(CWD, CWD, ShellEscape(v.cwd));
  }

  lemma NothingToReplace(e: string, v: Values)
    requires e == ""
    ensures ShellText(e, v) == ""
  {
    ShellTextIs(e, v);
  }

  /** The command for a prompt that is just `{{cwd}}`. */
  lemma CwdCommand(e: string, v: Values)
    requires e == "" && v.prompt == CWD
    ensures ShellText(e + PROMPT + e, v) == "'" + ShellEscape(v.cwd) + "'"
  {
    CommandAround(e, e, v);
    NothingToReplace(e, v);
    var p := v.prompt;
    EscapeQuoteFree(p);
    LaterCwd(v);
  }

  lemma DollarCommand(e: string, json: string)
    requires e == ""
    ensures ShellText(e + PROMPT + e, Values(CWD, json, "$")) == "'" + EscapeQuotes(e) + "'" + "$" + "''"
  {
    var v := Values(CWD, json, "$");
    var d := v.cwd;
    CwdCommand(e, v);
    EscapeQuoteFree(d);
  }

  /** A directory named `$` in a prompt about `{{cwd}}`: the shell sees a bare `$`. */
  lemma ShellSeesDollar(json: string)
    ensures Read(ShellText("{{prompt}}", Values("{{cwd}}", json, "$")), Unquoted) == [Piece('$', false)]
  {
    DollarCommand("", json);
    assert "" + PROMPT + "" == PROMPT;
    ReadBehind("", "$", "''");
    assert "$" == ['$'] + "";
    ReadCons('$', "", Unquoted);
    ReadNothing();
  }

  lemma ReadNothing()
    ensures Read("''", Unquoted) == []
  {
    assert "''" == ['\''] + (['\''] + "");
    ReadCons('\'', ['\''] + "", Unquoted);
    ReadCons('\'', "", SingleQuoted);
  }
}
