/** From a command template and a task's input to the argument vector
    (`substitute`, `stripOuterQuotes` and `buildSpawnPlan` in
    `agent-daemon/src/runner.js`). */
module SpawnPlan {
  import opened Tokenizer
  import opened ShellQuote

  // ----- searching and replacing -----

  predicate OccursAt(s: string, k: string, i: int) {
    0 <= i && i + |k| <= |s| && forall j :: 0 <= j < |k| ==> s[i + j] == k[j]
  }

  ghost predicate Contains(s: string, k: string) {
    exists i :: OccursAt(s, k, i)
  }

  /** The first occurrence, or a negative number. */
  function IndexOf(s: string, k: string): (i: int)
    requires k != ""
    ensures i >= 0 ==> OccursAt(s, k, i) && forall j :: 0 <= j < i ==> !OccursAt(s, k, j)
    ensures i < 0 ==> !Contains(s, k)
    decreases |s|
  {
    if OccursAt(s, k, 0) then 0
    else if s == "" then -1
    else
      var i := IndexOf(s[1..], k);
      assert forall j :: 1 <= j && OccursAt(s, k, j) ==> OccursAt(s[1..], k, j - 1);
      if i < 0 then -1 else i + 1
  }

  /** `s.split(k).join(v)` */
  function ReplaceAll(s: string, k: string, v: string): string
    requires k != ""
    decreases |s|
  {
    if s == "" then ""
    else if OccursAt(s, k, 0) then v + ReplaceAll(s[|k|..], k, v)
    else [s[0]] + ReplaceAll(s[1..], k, v)
  }

  lemma OccursInTail(s: string, k: string, j: nat)
    requires s != ""
    ensures OccursAt(s[1..], k, j) <==> OccursAt(s, k, j + 1)
  {
    if OccursAt(s[1..], k, j) {
      forall m | 0 <= m < |k| ensures s[j + 1 + m] == k[m] { assert s[1..][j + m] == k[m]; }
    }
    if OccursAt(s, k, j + 1) {
      forall m | 0 <= m < |k| ensures s[1..][j + m] == k[m] { assert s[j + 1 + m] == k[m]; }
    }
  }

  lemma {:induction false} ReplaceNone(s: string, k: string, v: string)
    requires k != "" && forall j :: 0 <= j ==> !OccursAt(s, k, j)
    ensures ReplaceAll(s, k, v) == s
    decreases |s|
  {
    if s != "" {
      forall j | 0 <= j ensures !OccursAt(s[1..], k, j) { OccursInTail(s, k, j); }
      ReplaceNone(s[1..], k, v);
    }
  }

  /** `i` is the first occurrence. */
  ghost predicate FirstAt(s: string, k: string, i: nat) {
    OccursAt(s, k, i) && forall j :: 0 <= j < i ==> !OccursAt(s, k, j)
  }

  lemma FirstInTail(s: string, k: string, i: nat)
    requires s != "" && i > 0 && FirstAt(s, k, i)
    ensures FirstAt(s[1..], k, i - 1)
  {
    OccursInTail(s, k, i - 1);
    forall j | 0 <= j < i - 1 ensures !OccursAt(s[1..], k, j) { OccursInTail(s, k, j); }
  }

  lemma ReplaceHere(s: string, k: string, v: string)
    requires k != "" && OccursAt(s, k, 0)
    ensures ReplaceAll(s, k, v) == v + ReplaceAll(s[|k|..], k, v)
  {
  }

  lemma ReplaceSkip(s: string, k: string, v: string)
    requires k != "" && s != "" && !OccursAt(s, k, 0)
    ensures ReplaceAll(s, k, v) == [s[0]] + ReplaceAll(s[1..], k, v)
  {
  }

  /** Up to the first occurrence nothing changes; there the value begins. */
  lemma {:induction false} ReplaceFirst(s: string, k: string, v: string, i: nat)
    requires k != "" && FirstAt(s, k, i)
    ensures ReplaceAll(s, k, v) == s[..i] + (v + ReplaceAll(s[i + |k|..], k, v))
    decreases |s|
  {
    if i == 0 {
      ReplaceHere(s, k, v);
      Regroup(s[..0], v, ReplaceAll(s[|k|..], k, v));
    } else {
      FirstInTail(s, k, i);
      ReplaceSkip(s, k, v);
      ReplaceFirst(s[1..], k, v, i - 1);
      assert s[1..][i - 1 + |k|..] == s[i + |k|..];
      PrefixStep(s, i - 1, v + ReplaceAll(s[i + |k|..], k, v));
    }
  }

  lemma PrefixStep(s: string, i: nat, rest: string)
    requires i + 1 <= |s|
    ensures [s[0]] + (s[1..][..i] + rest) == s[..i + 1] + rest
  {
    assert s[..i + 1] == [s[0]] + s[1..][..i];
  }

  lemma OccursBeforeFence(s: string, d: char, rest: string, k: string)
    requires k != "" && d !in k
    ensures OccursAt(s + [d] + rest, k, 0) <==> OccursAt(s, k, 0)
  {
    var t := s + [d] + rest;
    if |s| < |k| {
      assert t[0 + |s|] == d && k[|s|] in k;
    }
  }

  /** A character that no placeholder holds splits the work. */
  lemma {:induction false} ReplaceFence(s: string, d: char, rest: string, k: string, v: string)
    requires k != "" && d !in k
    ensures ReplaceAll(s + [d] + rest, k, v) == ReplaceAll(s, k, v) + [d] + ReplaceAll(rest, k, v)
    decreases |s|
  {
    var t, end := s + [d] + rest, ReplaceAll(rest, k, v);
    OccursBeforeFence(s, d, rest, k);
    if s == "" {
      assert t[1..] == rest && t[0] == d;
      ReplaceSkip(t, k, v);
      assert ReplaceAll(s, k, v) == "";
      RegroupFour("", "", [d], end);
    } else if OccursAt(s, k, 0) {
      assert t[|k|..] == s[|k|..] + [d] + rest;
      ReplaceFence(s[|k|..], d, rest, k, v);
      ReplaceHere(t, k, v);
      ReplaceHere(s, k, v);
      RegroupFour(v, ReplaceAll(s[|k|..], k, v), [d], end);
    } else {
      assert t[1..] == s[1..] + [d] + rest && t[0] == s[0];
      ReplaceFence(s[1..], d, rest, k, v);
      ReplaceSkip(t, k, v);
      ReplaceSkip(s, k, v);
      RegroupFour([s[0]], ReplaceAll(s[1..], k, v), [d], end);
    }
  }

  // ----- the plan -----

  const PROMPT := "{{prompt}}"
  const PROMPT_TOKEN := "\"{{prompt}}\""
  const INPUT := "{{input}}"
  const CWD := "{{cwd}}"

  /** The values of the placeholders: the prompt text, the JSON of the whole
      input, and the configured directory. */
  datatype Values = Values(prompt: string, json: string, cwd: string)

  function Pairs(v: Values): seq<(string, string)> {
    [(PROMPT, v.prompt), (INPUT, v.json), (CWD, v.cwd)]
  }

  /** The values as the shell branch inserts them. */
  function Escaped(v: Values): Values {
    Values(ShellEscape(v.prompt), ShellEscape(v.json), ShellEscape(v.cwd))
  }

  function ReplaceEach(s: string, pairs: seq<(string, string)>): string
    requires forall p :: p in pairs ==> p.0 != ""
    decreases |pairs|
  {
    if |pairs| == 0 then s else ReplaceEach(ReplaceAll(s, pairs[0].0, pairs[0].1), pairs[1..])
  }

  lemma ReplaceThree(s: string, a: (string, string), b: (string, string), c: (string, string))
    requires a.0 != "" && b.0 != "" && c.0 != ""
    ensures ReplaceEach(s, [a, b, c]) == ReplaceAll(ReplaceAll(ReplaceAll(s, a.0, a.1), b.0, b.1), c.0, c.1)
  {
    var r, t := ReplaceAll(s, a.0, a.1), ReplaceAll(ReplaceAll(s, a.0, a.1), b.0, b.1);
    assert [a, b, c][1..] == [b, c] && [b, c][1..] == [c] && [c][1..] == [];
    assert ReplaceEach(r, [b, c]) == ReplaceEach(t, [c]);
    assert ReplaceEach(t, [c]) == ReplaceAll(t, c.0, c.1);
  }

  function StripOuterQuotes(token: string): string {
    if |token| >= 2 && token[0] == '"' && token[|token| - 1] == '"' then token[1..|token| - 1]
    else WithoutQuotes(token)
  }

  function WithoutQuotes(s: string): string {
    if s == "" then "" else (if s[0] == '"' then "" else [s[0]]) + WithoutQuotes(s[1..])
  }

  function Argument(token: string, v: Values): string {
    StripOuterQuotes(ReplaceEach(token, Pairs(v)))
  }

  function Argv(template: string, v: Values): seq<string> {
    var tokens := Tokens(template);
    seq(|tokens|, i requires 0 <= i < |tokens| => Argument(tokens[i], v))
  }

  datatype Plan = Throws | Direct(command: string, args: seq<string>) | ViaShell(command: string)

  method Substitute(token: string, pairs: seq<(string, string)>) returns (out: string)
    requires forall p :: p in pairs ==> p.0 != ""
    ensures out == ReplaceEach(token, pairs)
  {
    out := token;
    var i := 0;
    assert pairs[0..] == pairs;
    while i < |pairs|
      invariant 0 <= i <= |pairs|
      invariant ReplaceEach(out, pairs[i..]) == ReplaceEach(token, pairs)
    {
      assert pairs[i..][0] == pairs[i] && pairs[i..][1..] == pairs[i + 1..];
      if IndexOf(out, pairs[i].0) >= 0 {
        out := ReplaceAll(out, pairs[i].0, pairs[i].1);
      } else {
        ReplaceNone(out, pairs[i].0, pairs[i].1);
      }
      i := i + 1;
    }
  }

  /** Tokenize, substitute and unquote each token; an empty template throws. */
  method BuildSpawnPlan(template: string, useShell: bool, v: Values) returns (plan: Plan)
    ensures !useShell && Tokens(template) == [] ==> plan == Throws
    ensures !useShell && Tokens(template) != [] ==> plan.Direct? && [plan.command] + plan.args == Argv(template, v)
    ensures useShell ==> plan == ViaShell(ReplaceEach(template, Pairs(Escaped(v))))
  {
    if useShell {
      var command := Substitute(template, Pairs(Escaped(v)));
      return ViaShell(command);
    }
    var tokens := Tokenize(template);
    var argv: seq<string> := [];
    var i := 0;
    while i < |tokens|
      invariant 0 <= i <= |tokens| && |argv| == i
      invariant forall k :: 0 <= k < i ==> argv[k] == Argument(tokens[k], v)
    {
      var t := Substitute(tokens[i], Pairs(v));
      argv := argv + [StripOuterQuotes(t)];
      i := i + 1;
    }
    assert argv == Argv(template, v);
    if |argv| == 0 {
      return Throws;
    }
    return Direct(argv[0], argv[1..]);
  }

  // ----- what reaches the program -----

  /** What the quoted prompt token becomes. */
  function Delivered(v: Values): string {
    ReplaceAll(ReplaceAll(v.prompt, INPUT, v.json), CWD, v.cwd)
  }

  lemma {:induction false} PromptReplaced(p: string)
    ensures ReplaceAll(PROMPT_TOKEN, PROMPT, p) == "\"" + p + "\""
  {
    assert PROMPT_TOKEN == "\"" + PROMPT + "\"";
    Fenced(PROMPT, PROMPT, p);
    assert OccursAt(PROMPT, PROMPT, 0) && PROMPT[|PROMPT|..] == "";
    assert p + "" == p;
  }

  lemma StripFence(c: string)
    ensures StripOuterQuotes("\"" + c + "\"") == c
  {
    assert ("\"" + c + "\"")[1..|c| + 1] == c;
  }

  lemma PromptToken(v: Values)
    ensures Argument(PROMPT_TOKEN, v) == Delivered(v)
  {
    ReplaceThree(PROMPT_TOKEN, (PROMPT, v.prompt), (INPUT, v.json), (CWD, v.cwd));
    PromptReplaced(v.prompt);
    Fenced(v.prompt, INPUT, v.json);
    Fenced(ReplaceAll(v.prompt, INPUT, v.json), CWD, v.cwd);
    StripFence(Delivered(v));
  }

  lemma {:induction false} Fenced(s: string, k: string, v: string)
    requires k != "" && '"' !in k
    ensures ReplaceAll("\"" + s + "\"", k, v) == "\"" + ReplaceAll(s, k, v) + "\""
  {
    var t := s + ['"'] + "";
    assert "\"" + s + "\"" == "" + ['"'] + t;
    ReplaceFence("", '"', t, k, v);
    ReplaceFence(s, '"', "", k, v);
  }

  lemma PlainPromptIsRaw(v: Values)
    requires !Contains(v.prompt, INPUT) && !Contains(v.prompt, CWD)
    ensures Argument(PROMPT_TOKEN, v) == v.prompt
  {
    PromptToken(v);
    ReplaceNone(v.prompt, INPUT, v.json);
    ReplaceNone(v.prompt, CWD, v.cwd);
  }

  /** The number of double quotes in a text. */
  function Quotes(s: string): nat {
    if s == "" then 0 else (if s[0] == '"' then 1 else 0) + Quotes(s[1..])
  }

  lemma {:induction false} QuotesConcat(a: string, b: string)
    ensures Quotes(a + b) == Quotes(a) + Quotes(b)
  {
    if a == "" {
      assert a + b == b;
    } else {
      QuotesConcat(a[1..], b);
      assert (a + b)[1..] == a[1..] + b;
    }
  }

  lemma {:induction false} QuotesIff(s: string)
    ensures Quotes(s) > 0 <==> '"' in s
  {
    if s != "" {
      QuotesIff(s[1..]);
      assert s == [s[0]] + s[1..];
    }
  }

  /** Replacing a placeholder never takes a double quote away, and adds one if
      the placeholder occurs and the value has one. */
  lemma {:induction false} ReplaceAddsQuotes(s: string, k: string, v: string)
    requires k != "" && '"' !in k
    ensures Quotes(ReplaceAll(s, k, v)) >= Quotes(s)
    ensures Contains(s, k) && '"' in v ==> Quotes(ReplaceAll(s, k, v)) > Quotes(s)
    decreases |s|
  {
    if s == "" {
    } else if OccursAt(s, k, 0) {
      var rest := s[|k|..];
      assert s == k + rest;
      ReplaceAddsQuotes(rest, k, v);
      QuotesConcat(k, rest);
      QuotesConcat(v, ReplaceAll(rest, k, v));
      QuotesIff(k);
      QuotesIff(v);
    } else {
      ReplaceAddsQuotes(s[1..], k, v);
      QuotesConcat([s[0]], ReplaceAll(s[1..], k, v));
      assert s == [s[0]] + s[1..];
      QuotesConcat([s[0]], s[1..]);
      if Contains(s, k) { ContainsInTail(s, k); }
    }
  }

  lemma ContainsInTail(s: string, k: string)
    requires s != "" && Contains(s, k) && !OccursAt(s, k, 0)
    ensures Contains(s[1..], k)
  {
    var j :| OccursAt(s, k, j);
    OccursInTail(s, k, j - 1);
  }

  /** A value of another length changes the text's length. */
  lemma {:induction false} ReplaceChangesLength(s: string, k: string, v: string)
    requires k != ""
    ensures |v| >= |k| ==> |ReplaceAll(s, k, v)| >= |s|
    ensures |v| <= |k| ==> |ReplaceAll(s, k, v)| <= |s|
    ensures Contains(s, k) && |v| != |k| ==> |ReplaceAll(s, k, v)| != |s|
    decreases |s|
  {
    if s == "" {
    } else if OccursAt(s, k, 0) {
      ReplaceChangesLength(s[|k|..], k, v);
    } else {
      ReplaceChangesLength(s[1..], k, v);
      if Contains(s, k) { ContainsInTail(s, k); }
    }
  }

  lemma StartsWith(s: string, k: string)
    requires OccursAt(s, k, 0)
    ensures s == k + s[|k|..]
  {
    forall j | 0 <= j < |k| ensures s[j] == k[j] { assert s[0 + j] == k[j]; }
  }

  lemma HeadAndTail(s: string)
    requires s != ""
    ensures s == [s[0]] + s[1..]
  {
  }

  /** Replacing a placeholder by itself. */
  lemma {:induction false} ReplaceBySelf(s: string, k: string)
    requires k != ""
    ensures ReplaceAll(s, k, k) == s
    decreases |s|
  {
    if s == "" {
    } else if OccursAt(s, k, 0) {
      ReplaceHere(s, k, k);
      ReplaceBySelf(s[|k|..], k);
      StartsWith(s, k);
    } else {
      ReplaceSkip(s, k, k);
      ReplaceBySelf(s[1..], k);
      HeadAndTail(s);
    }
  }

  lemma SameSlice(s: string, i: nat, v: string, rest: string, k: string)
    requires OccursAt(s, k, i) && s == s[..i] + (v + rest) && |v| == |k|
    ensures v == k
  {
    forall j | 0 <= j < |k| ensures v[j] == k[j] {
      assert s[i + j] == (s[..i] + (v + rest))[i + j] == v[j];
    }
  }

  /** A text that mentions the placeholder is kept only by replacing it by itself. */
  lemma ReplaceKeepsIff(s: string, k: string, v: string)
    requires k != "" && Contains(s, k)
    ensures ReplaceAll(s, k, v) == s <==> v == k
  {
    if ReplaceAll(s, k, v) == s {
      ReplaceChangesLength(s, k, v);
      var i := IndexOf(s, k);
      ReplaceFirst(s, k, v, i);
      SameSlice(s, i, v, ReplaceAll(s[i + |k|..], k, v), k);
    } else {
      ReplaceBySelf(s, k);
    }
  }

  /** What the daemon passes as `{{input}}`: the JSON of an object with a `prompt`
      property holds a double quote; without that property the prompt is empty. */
  predicate CarriesPrompt(v: Values) {
    v.prompt != "" ==> '"' in v.json
  }

  /** The prompt token reaches the program as the raw prompt exactly when the
      prompt mentions neither `{{input}}` nor `{{cwd}}` (short of a directory
      that is itself named `{{cwd}}`); quotes, spaces and backslashes make no
      difference. */
  lemma PromptVerbatimIff(v: Values)
    requires CarriesPrompt(v)
    ensures Argument(PROMPT_TOKEN, v) == v.prompt
            <==> !Contains(v.prompt, INPUT) && (!Contains(v.prompt, CWD) || v.cwd == CWD)
  {
    PromptToken(v);
    var o := ReplaceAll(v.prompt, INPUT, v.json);
    if Contains(v.prompt, INPUT) {
      assert v.prompt != "";
      ReplaceAddsQuotes(v.prompt, INPUT, v.json);
      ReplaceAddsQuotes(o, CWD, v.cwd);
    } else {
      ReplaceNone(v.prompt, INPUT, v.json);
      if Contains(v.prompt, CWD) { ReplaceKeepsIff(v.prompt, CWD, v.cwd); } else { PlainPromptIsRaw(v); }
    }
  }

  /** A prompt that is not passed on: asking about the placeholder itself. */
  lemma PromptAboutCwd(json: string, cwd: string)
    ensures Argument(PROMPT_TOKEN, Values("{{cwd}}", json, cwd)) == cwd
  {
    PromptToken(Values(CWD, json, cwd));
    assert forall j :: OccursAt(CWD, INPUT, j) ==> false;
    ReplaceNone(CWD, INPUT, json);
    assert OccursAt(CWD, CWD, 0) && CWD[|CWD|..] == "" && cwd + "" == cwd;
  }

  /** For every template the number of arguments is the number of tokens,
      whatever the task's input, and each quoted prompt token is the raw prompt
      if that mentions neither of the other placeholders. */
  lemma ArgumentCountFixed(template: string, v: Values, u: Values, i: nat)
    ensures |Argv(template, v)| == |Argv(template, u)| == |Tokens(template)|
    ensures (i < |Tokens(template)| && Tokens(template)[i] == PROMPT_TOKEN
             && !Contains(v.prompt, INPUT) && !Contains(v.prompt, CWD)) ==> Argv(template, v)[i] == v.prompt
  {
    if !Contains(v.prompt, INPUT) && !Contains(v.prompt, CWD) { PlainPromptIsRaw(v); }
  }

  lemma BracelessUnchanged(word: string, k: string, v: string)
    requires '{' !in word && k != "" && k[0] == '{'
    ensures ReplaceAll(word, k, v) == word
  {
    forall j | 0 <= j ensures !OccursAt(word, k, j) {
      if j < |word| { assert word[j + 0] != k[0]; }
    }
    ReplaceNone(word, k, v);
  }

  lemma PlainArgument(word: string, v: Values)
    requires '{' !in word && '"' !in word
    ensures Argument(word, v) == word
  {
    BracelessUnchanged(word, PROMPT, v.prompt);
    BracelessUnchanged(word, INPUT, v.json);
    BracelessUnchanged(word, CWD, v.cwd);
    ReplaceThree(word, (PROMPT, v.prompt), (INPUT, v.json), (CWD, v.cwd));
    NothingToStrip(word);
  }

  lemma {:induction false} NothingToStrip(word: string)
    requires '"' !in word
    ensures WithoutQuotes(word) == word
  {
    if word != "" { NothingToStrip(word[1..]); }
  }

  lemma {:induction false} PlainWordSolid(word: string)
    requires forall i :: 0 <= i < |word| ==> word[i] != '\\' && word[i] != '"' && !IsSpace(word[i])
    ensures Solid(word, Plain) && ModeAfter(word, Plain) == Plain
  {
    if word != "" { PlainWordSolid(word[1..]); }
  }

  lemma {:induction false} QuotedSolid(word: string)
    requires forall i :: 0 <= i < |word| ==> word[i] != '\\' && word[i] != '"'
    ensures Solid(word, Quoted) && ModeAfter(word, Quoted) == Quoted
  {
    if word != "" { QuotedSolid(word[1..]); }
  }

  lemma {:induction false} QuotedTokenSolid(inner: string)
    requires forall i :: 0 <= i < |inner| ==> inner[i] != '\\' && inner[i] != '"'
    ensures Solid("\"" + inner + "\"", Plain) && ModeAfter("\"" + inner + "\"", Plain) == Plain
  {
    var token := "\"" + inner + "\"";
    assert token[1..] == inner + "\"";
    QuotedSolid(inner);
    SolidSnoc(inner, '"', Quoted);
  }

  lemma ThreeTokens(a: string, b: string, c: string)
    requires a != "" && b != "" && c != "" && Solid(a, Plain) && Solid(b, Plain) && Solid(c, Plain)
    requires ModeAfter(a, Plain) == Plain && ModeAfter(b, Plain) == Plain
    ensures Tokens(a + " " + (b + " " + c)) == [a, b, c]
  {
    var tokens := [a, b, c];
    assert tokens[1..] == [b, c] && tokens[1..][1..] == [c] && tokens[1..][1..][1..] == [];
    assert WellFormed(tokens[1..][1..]) && WellFormed(tokens[1..]) && WellFormed(tokens);
    LexJoined(tokens);
    assert JoinSpaces(tokens[1..]) == b + " " + c;
  }

  /** A word with no whitespace, quote, backslash or brace. */
  predicate PlainWord(w: string) {
    w != "" && forall i :: 0 <= i < |w| ==> w[i] != '\\' && w[i] != '"' && w[i] != '{' && !IsSpace(w[i])
  }

  lemma PromptTokenSolid()
    ensures Solid(PROMPT_TOKEN, Plain)
  {
    assert PROMPT_TOKEN == "\"" + PROMPT + "\"";
    QuotedTokenSolid(PROMPT);
  }

  /** Templates shaped like the default `codex exec "{{prompt}}"`: the program
      gets its subcommand and the raw prompt as one argument. */
  lemma DefaultTemplatePlan(program: string, command: string, v: Values)
    requires PlainWord(program) && PlainWord(command)
    requires !Contains(v.prompt, INPUT) && !Contains(v.prompt, CWD)
    ensures Argv(program + " " + (command + " " + PROMPT_TOKEN), v) == [program, command, v.prompt]
  {
    assert Tokens(program + " " + (command + " " + PROMPT_TOKEN)) == [program, command, PROMPT_TOKEN] by {
      PlainWordSolid(program);
      PlainWordSolid(command);
      PromptTokenSolid();
      ThreeTokens(program, command, PROMPT_TOKEN);
    }
    PlainArgument(program, v);
    PlainArgument(command, v);
    PlainPromptIsRaw(v);
  }

  lemma QuotedArgument(inner: string, v: Values)
    requires '{' !in inner
    ensures Argument("\"" + inner + "\"", v) == inner
  {
    var token := "\"" + inner + "\"";
    BracelessUnchanged(token, PROMPT, v.prompt);
    BracelessUnchanged(token, INPUT, v.json);
    BracelessUnchanged(token, CWD, v.cwd);
    ReplaceThree(token, (PROMPT, v.prompt), (INPUT, v.json), (CWD, v.cwd));
    StripFence(inner);
  }

  /** Templates of three tokens: each becomes one argument. */
  lemma ThreeArguments(a: string, b: string, c: string, v: Values)
    requires a != "" && b != "" && c != "" && Solid(a, Plain) && Solid(b, Plain) && Solid(c, Plain)
    requires ModeAfter(a, Plain) == Plain && ModeAfter(b, Plain) == Plain
    ensures Argv(a + " " + (b + " " + c), v) == [Argument(a, v), Argument(b, v), Argument(c, v)]
  {
    ThreeTokens(a, b, c);
  }

  /** Templates shaped like `node "/path/script.js" "{{prompt}}"`: a quoted path, which
      may hold spaces, is one argument of its own. */
  lemma QuotedPathPlan(program: string, path: string, v: Values)
    requires PlainWord(program) && forall i :: 0 <= i < |path| ==> path[i] != '\\' && path[i] != '"' && path[i] != '{'
    requires !Contains(v.prompt, INPUT) && !Contains(v.prompt, CWD)
    ensures Argv(program + " " + (("\"" + path + "\"") + " " + PROMPT_TOKEN), v) == [program, path, v.prompt]
  {
    PlainWordSolid(program);
    QuotedTokenSolid(path);
    PromptTokenSolid();
    ThreeArguments(program, "\"" + path + "\"", PROMPT_TOKEN, v);
    PlainArgument(program, v);
    QuotedArgument(path, v);
    PlainPromptIsRaw(v);
  }

  // ----- a prompt inside a longer token -----

  lemma WithoutQuotesCons(x: char, t: string)
    ensures WithoutQuotes([x] + t) == (if x == '"' then "" else [x]) + WithoutQuotes(t)
  {
    assert ([x] + t)[1..] == t;
  }

  lemma {:induction false} WithoutQuotesConcat(a: string, b: string)
    ensures WithoutQuotes(a + b) == WithoutQuotes(a) + WithoutQuotes(b)
  {
    if a == "" {
      assert a + b == b;
    } else {
      var x, t := a[0], a[1..];
      HeadAndTail(a);
      Regroup([x], t, b);
      WithoutQuotesCons(x, t + b);
      WithoutQuotesCons(x, t);
      WithoutQuotesConcat(t, b);
      Regroup(if x == '"' then "" else [x], WithoutQuotes(t), WithoutQuotes(b));
    }
  }

  /** Removing the double quotes keeps a text exactly if it has none. */
  lemma {:induction false} WithoutQuotesIff(s: string)
    ensures |WithoutQuotes(s)| <= |s|
    ensures WithoutQuotes(s) == s <==> '"' !in s
  {
    if s != "" {
      WithoutQuotesIff(s[1..]);
      assert s == [s[0]] + s[1..];
      if s[0] != '"' && WithoutQuotes(s) == s { assert WithoutQuotes(s)[1..] == WithoutQuotes(s[1..]); }
    }
  }

  /** Replacing in the quoted middle of a token whose ends hold no brace. */
  lemma ReplaceInside(pre: string, s: string, post: string, k: string, w: string)
    requires '{' !in pre && '{' !in post && k != "" && k[0] == '{' && '"' !in k
    ensures ReplaceAll(pre + ['"'] + (s + ['"'] + post), k, w) == pre + ['"'] + (ReplaceAll(s, k, w) + ['"'] + post)
  {
    ReplaceFence(pre, '"', s + ['"'] + post, k, w);
    ReplaceFence(s, '"', post, k, w);
    BracelessUnchanged(pre, k, w);
    BracelessUnchanged(post, k, w);
  }

  lemma PromptReplacesItself(p: string)
    ensures ReplaceAll(PROMPT, PROMPT, p) == p
  {
    assert OccursAt(PROMPT, PROMPT, 0) && PROMPT[|PROMPT|..] == "";
    ReplaceHere(PROMPT, PROMPT, p);
    assert p + "" == p;
  }

  /** A token such as `--prompt="{{prompt}}"`, once substituted. */
  lemma EmbeddedSubstituted(pre: string, post: string, v: Values)
    requires '{' !in pre && '{' !in post && !Contains(v.prompt, INPUT) && !Contains(v.prompt, CWD)
    ensures ReplaceEach(pre + ['"'] + (PROMPT + ['"'] + post), Pairs(v)) == pre + ['"'] + (v.prompt + ['"'] + post)
  {
    ReplaceThree(pre + ['"'] + (PROMPT + ['"'] + post), (PROMPT, v.prompt), (INPUT, v.json), (CWD, v.cwd));
    ReplaceInside(pre, PROMPT, post, PROMPT, v.prompt);
    PromptReplacesItself(v.prompt);
    ReplaceInside(pre, v.prompt, post, INPUT, v.json);
    ReplaceNone(v.prompt, INPUT, v.json);
    ReplaceInside(pre, v.prompt, post, CWD, v.cwd);
    ReplaceNone(v.prompt, CWD, v.cwd);
  }

  lemma StripEmbedded(pre: string, p: string, post: string)
    requires '"' !in pre && '"' !in post
    ensures WithoutQuotes(pre + ['"'] + (p + ['"'] + post)) == pre + (WithoutQuotes(p) + post)
  {
    WithoutQuotesConcat(pre + ['"'], p + ['"'] + post);
    WithoutQuotesConcat(pre, ['"']);
    WithoutQuotesConcat(p + ['"'], post);
    WithoutQuotesConcat(p, ['"']);
    WithoutQuotesIff(pre);
    WithoutQuotesIff(post);
    LoneQuote(['"']);
  }

  lemma LoneQuote(q: string)
    requires q == ['"']
    ensures WithoutQuotes(q) == "" && forall s: string :: s + WithoutQuotes(q) == s
  {
    assert q[1..] == "";
  }

  /** Inside a longer token that does not begin with a quote, the prompt loses its
      own double quotes with the template's: it is passed on as it is exactly if it
      has none. */
  lemma EmbeddedPromptIff(pre: string, post: string, v: Values)
    requires pre != "" && '{' !in pre && '{' !in post && '"' !in pre && '"' !in post
    requires !Contains(v.prompt, INPUT) && !Contains(v.prompt, CWD)
    ensures Argument(pre + ['"'] + (PROMPT + ['"'] + post), v) == pre + (WithoutQuotes(v.prompt) + post)
    ensures Argument(pre + ['"'] + (PROMPT + ['"'] + post), v) == pre + (v.prompt + post) <==> '"' !in v.prompt
  {
    EmbeddedSubstituted(pre, post, v);
    assert (pre + ['"'] + (v.prompt + ['"'] + post))[0] == pre[0] && pre[0] in pre;
    StripEmbedded(pre, v.prompt, post);
    WithoutQuotesIff(v.prompt);
    SameMiddle(pre, WithoutQuotes(v.prompt), v.prompt, post);
  }

  lemma SameMiddle(a: string, b: string, c: string, d: string)
    ensures a + (b + d) == a + (c + d) <==> b == c
  {
    if a + (b + d) == a + (c + d) {
      assert (a + (b + d))[|a|..] == b + d && (a + (c + d))[|a|..] == c + d;
      assert (b + d)[..|b|] == b && (c + d)[..|c|] == c;
    }
  }
}
