/** The `.env` editor (`upsertEnv` in `agent-daemon/src/register.js`). */
module EnvFile {
  import opened Common
  import opened Lists

  // ----- lines -----

  predicate EndsWithCr(s: string) { |s| > 0 && s[|s| - 1] == '\r' }

  function Chomp(s: string): string { if EndsWithCr(s) then s[..|s| - 1] else s }

  function FirstNewline(s: string): (i: nat)
    ensures i <= |s|
  {
    if s == "" || s[0] == '\n' then 0 else FirstNewline(s[1..]) + 1
  }

  lemma {:induction false} FirstNewlineFound(s: string)
    ensures FirstNewline(s) < |s| ==> s[FirstNewline(s)] == '\n'
    ensures '\n' !in s[..FirstNewline(s)]
  {
    if s != "" && s[0] != '\n' {
      var i := FirstNewline(s[1..]);
      FirstNewlineFound(s[1..]);
      assert s[..i + 1] == [s[0]] + s[1..][..i];
    }
  }

  /** `s.split(/\r?\n/)` */
  function SplitLines(s: string): seq<string>
    decreases |s|
  {
    var i := FirstNewline(s);
    if i == |s| then [s] else [Chomp(s[..i])] + SplitLines(s[i + 1..])
  }

  function JoinNewlines(lines: seq<string>): string {
    if |lines| == 0 then "" else if |lines| == 1 then lines[0] else lines[0] + "\n" + JoinNewlines(lines[1..])
  }

  /** `lines.filter(Boolean)` */
  function NonEmpty(lines: seq<string>): seq<string> {
    Filter(Written(), lines)
  }

  function Written(): string -> bool { (l: string) => l != "" }

  function Content(lines: seq<string>): string {
    JoinNewlines(NonEmpty(lines)) + "\n"
  }

  // ----- assignments -----

  predicate IsKeyChar(c: char) { 'A' <= c <= 'Z' || '0' <= c <= '9' || c == '_' }

  function KeyLength(line: string): (n: nat)
    ensures n <= |line| && (forall i :: 0 <= i < n ==> IsKeyChar(line[i])) && (n < |line| ==> !IsKeyChar(line[n]))
  {
    if line == "" || !IsKeyChar(line[0]) then 0 else 1 + KeyLength(line[1..])
  }

  /** `/^([A-Z0-9_]+)=/` */
  function KeyOf(line: string): Option<string> {
    var n := KeyLength(line);
    if 0 < n < |line| && line[n] == '=' then Some(line[..n]) else None
  }

  predicate ValidKey(k: string) { k != "" && forall i :: 0 <= i < |k| ==> IsKeyChar(k[i]) }

  function Assignment(k: string, v: string): string { k + "=" + v }

  lemma KeyOfAssignment(k: string, v: string)
    requires ValidKey(k)
    ensures KeyOf(Assignment(k, v)) == Some(k)
  {
    var line := Assignment(k, v);
    var n := KeyLength(line);
    assert line[|k|] == '=' && !IsKeyChar('=');
    assert forall i :: 0 <= i < |k| ==> line[i] == k[i];
    assert n == |k|;
    assert line[..n] == k;
  }

  /** The entries of the `updates` object, in order. */
  type Updates = seq<(string, string)>

  ghost predicate Entries(u: Updates) {
    && (forall e :: e in u ==> ValidKey(e.0))
    && (forall i, j :: 0 <= i < j < |u| ==> u[i].0 != u[j].0)
  }

  function Lookup(u: Updates, k: string): Option<string> {
    if |u| == 0 then None else if u[0].0 == k then Some(u[0].1) else Lookup(u[1..], k)
  }

  lemma {:induction false} LookupFinds(u: Updates, i: nat)
    requires Entries(u) && i < |u|
    ensures Lookup(u, u[i].0) == Some(u[i].1)
  {
    if i > 0 {
      assert forall j, l :: 0 <= j < l < |u[1..]| ==> u[1..][j].0 == u[j + 1].0 && u[1..][l].0 == u[l + 1].0;
      LookupFinds(u[1..], i - 1);
      assert u[0].0 != u[i].0;
    }
  }

  lemma {:induction false} LookupIsEntry(u: Updates, k: string)
    ensures Lookup(u, k).Some? ==> (k, Lookup(u, k).value) in u
  {
    if |u| > 0 && u[0].0 != k { LookupIsEntry(u[1..], k); }
  }

  // ----- the edit -----

  function Rewrite(line: string, u: Updates): string {
    match KeyOf(line)
    case None => line
    case Some(k) => match Lookup(u, k) case None => line case Some(v) => Assignment(k, v)
  }

  function Rewriter(u: Updates): string -> string { (l: string) => Rewrite(l, u) }

  /** Assignments of the entries not among `seen`. */
  function Missing(u: Updates, seen: set<string>): seq<string> {
    if |u| == 0 then []
    else
      var before := Missing(u[..|u| - 1], seen);
      var (k, v) := u[|u| - 1];
      if k in seen then before else before + [Assignment(k, v)]
  }

  /** The updated keys that the lines assign. */
  function Seen(lines: seq<string>, u: Updates): set<string> {
    if |lines| == 0 then {}
    else
      var before := Seen(lines[..|lines| - 1], u);
      var key := KeyOf(lines[|lines| - 1]);
      if key.Some? && Lookup(u, key.value).Some? then before + {key.value} else before
  }

  lemma SeenSnoc(lines: seq<string>, u: Updates, i: nat)
    requires i < |lines|
    ensures Seen(lines[..i + 1], u) == Seen(lines[..i], u)
              + (if KeyOf(lines[i]).Some? && Lookup(u, KeyOf(lines[i]).value).Some? then {KeyOf(lines[i]).value} else {})
  {
    assert lines[..i + 1][..i] == lines[..i];
  }

  lemma {:induction false} SeenMembers(lines: seq<string>, u: Updates, k: string)
    ensures k in Seen(lines, u) <==> Lookup(u, k).Some? && exists l :: l in lines && KeyOf(l) == Some(k)
  {
    if |lines| > 0 {
      var n := |lines| - 1;
      SeenMembers(lines[..n], u, k);
      assert lines == lines[..n] + [lines[n]];
    }
  }

  function EditedLines(lines: seq<string>, u: Updates): seq<string> {
    Map(Rewriter(u), lines) + Missing(u, Seen(lines, u))
  }

  function Existing(file: Option<string>): seq<string> {
    if file.Some? then SplitLines(file.value) else []
  }

  function Upserted(file: Option<string>, u: Updates): string {
    Content(EditedLines(Existing(file), u))
  }

  /** The callback of the `map`: the new line, and the key if it was rewritten. */
  method RewriteLine(line: string, updates: Updates) returns (out: string, hit: Option<string>)
    ensures out == Rewrite(line, updates)
    ensures hit == if KeyOf(line).Some? && Lookup(updates, KeyOf(line).value).Some? then KeyOf(line) else None
  {
    var key := KeyOf(line);
    if key.None? {
      return line, None;
    }
    var value := Lookup(updates, key.value);
    if value.None? {
      return line, None;
    }
    return Assignment(key.value, value.value), key;
  }

  /** The `map` over the existing lines, noting the keys it rewrote. */
  method RewriteLines(existing: seq<string>, updates: Updates) returns (lines: seq<string>, seen: set<string>)
    ensures lines == Map(Rewriter(updates), existing)
    ensures seen == Seen(existing, updates)
  {
    seen, lines := {}, [];
    var i := 0;
    while i < |existing|
      invariant 0 <= i <= |existing|
      invariant lines == Map(Rewriter(updates), existing[..i])
      invariant seen == Seen(existing[..i], updates)
    {
      var line, hit := RewriteLine(existing[i], updates);
      MapSnoc(Rewriter(updates), existing, i);
      SeenSnoc(existing, updates, i);
      lines := lines + [line];
      if hit.Some? {
        seen := seen + {hit.value};
      }
      i := i + 1;
    }
    assert existing[..i] == existing;
  }

  /** The loop that pushes the entries not seen. */
  method PushMissing(rewritten: seq<string>, updates: Updates, seen: set<string>) returns (lines: seq<string>)
    ensures lines == rewritten + Missing(updates, seen)
  {
    lines := rewritten;
    var n := 0;
    while n < |updates|
      invariant 0 <= n <= |updates|
      invariant lines == rewritten + Missing(updates[..n], seen)
    {
      assert updates[..n + 1][..n] == updates[..n];
      var (key, value) := updates[n];
      if key !in seen {
        lines := lines + [Assignment(key, value)];
      }
      n := n + 1;
    }
    assert updates[..n] == updates;
  }

  /** The editor as written: rewrite the known lines, push the keys not seen,
      drop empty lines, end with a newline. */
  method UpsertEnv(file: Option<string>, updates: Updates) returns (content: string)
    ensures content == Upserted(file, updates)
  {
    var existing := Existing(file);
    var rewritten, seen := RewriteLines(existing, updates);
    var lines := PushMissing(rewritten, updates, seen);
    content := JoinNewlines(NonEmpty(lines)) + "\n";
  }

  lemma {:induction false} EntryHasKey(u: Updates, e: (string, string))
    requires e in u
    ensures Lookup(u, e.0).Some?
  {
    if u[0].0 != e.0 { EntryHasKey(u[1..], e); }
  }

  // ----- reading it back -----

  predicate Clean(v: string) { '\n' !in v && !EndsWithCr(v) }

  ghost predicate NoNewline(lines: seq<string>) { forall l :: l in lines ==> '\n' !in l }

  function ChompAll(lines: seq<string>): seq<string> {
    Map(Chomper(), lines)
  }

  function Chomper(): string -> string { (l: string) => Chomp(l) }

  /** The value of the first assignment to `k`. */
  function ValueOf(lines: seq<string>, k: string): Option<string> {
    if |lines| == 0 then None
    else if KeyOf(lines[0]) == Some(k) then Some(lines[0][|k| + 1..])
    else ValueOf(lines[1..], k)
  }

  lemma {:induction false} FirstNewlineIs(s: string, i: nat)
    requires i < |s| && s[i] == '\n' && '\n' !in s[..i]
    ensures FirstNewline(s) == i
  {
    var j := FirstNewline(s);
    FirstNewlineFound(s);
    assert j <= i;
    assert i <= j;
  }

  lemma ChompAddsNothing(l: string)
    requires '\n' !in l
    ensures '\n' !in Chomp(l)
  {
  }

  lemma NoNewlineCons(l: string, rest: seq<string>)
    requires '\n' !in l && NoNewline(rest)
    ensures NoNewline([l] + rest)
  {
  }

  lemma {:induction false} SplitStep(s: string, i: nat)
    requires i == FirstNewline(s)
    ensures i == |s| ==> SplitLines(s) == [s]
    ensures i < |s| ==> SplitLines(s) == [Chomp(s[..i])] + SplitLines(s[i + 1..])
  {
  }

  lemma {:induction false} SplitHasNoNewline(s: string)
    ensures NoNewline(SplitLines(s))
    decreases |s|
  {
    var i := FirstNewline(s);
    FirstNewlineFound(s);
    SplitStep(s, i);
    if i == |s| {
      assert s[..i] == s;
      NoNewlineCons(s, []);
      assert [s] + [] == [s];
    } else {
      var rest := s[i + 1..];
      SplitHasNoNewline(rest);
      ChompAddsNothing(s[..i]);
      NoNewlineCons(Chomp(s[..i]), SplitLines(rest));
    }
  }

  lemma SplitFirst(l: string, tail: string)
    requires '\n' !in l
    ensures SplitLines(l + "\n" + tail) == [Chomp(l)] + SplitLines(tail)
  {
    var s := l + "\n" + tail;
    assert s[..|l|] == l && s[|l| + 1..] == tail;
    FirstNewlineIs(s, |l|);
  }

  function Terminated(lines: seq<string>): string {
    if |lines| == 0 then "" else lines[0] + "\n" + Terminated(lines[1..])
  }

  lemma {:induction false} JoinTerminates(lines: seq<string>)
    requires |lines| > 0
    ensures JoinNewlines(lines) + "\n" == Terminated(lines)
  {
    if |lines| > 1 { JoinTerminates(lines[1..]); }
  }

  lemma NoNewlineTail(lines: seq<string>)
    requires NoNewline(lines) && |lines| > 0
    ensures '\n' !in lines[0] && NoNewline(lines[1..])
  {
    assert lines[0] in lines;
  }

  lemma ChompCons(lines: seq<string>)
    requires |lines| > 0
    ensures [Chomp(lines[0])] + (ChompAll(lines[1..]) + [""]) == ChompAll(lines) + [""]
  {
    MapCons(Chomper(), lines);
  }

  /** Lines each followed by a newline split back into themselves, less one CR each. */
  lemma {:induction false} SplitTerminated(lines: seq<string>)
    requires NoNewline(lines)
    ensures SplitLines(Terminated(lines)) == ChompAll(lines) + [""]
  {
    if |lines| == 0 {
      assert SplitLines("") == [""];
    } else {
      NoNewlineTail(lines);
      SplitTerminated(lines[1..]);
      SplitFirst(lines[0], Terminated(lines[1..]));
      ChompCons(lines);
    }
  }

  lemma NonEmptyMembers(lines: seq<string>)
    ensures forall l :: l in NonEmpty(lines) <==> l in lines && l != ""
  {
    FilterMembers(Written(), lines);
  }

  /** What re-reading the written file gives. */
  lemma Reread(lines: seq<string>)
    requires NoNewline(lines)
    ensures SplitLines(Content(lines)) == if NonEmpty(lines) == [] then ["", ""] else ChompAll(NonEmpty(lines)) + [""]
  {
    NonEmptyMembers(lines);
    if NonEmpty(lines) == [] {
      assert Content(lines) == "\n";
      FirstNewlineIs("\n", 0);
      assert "\n"[1..] == "" && "\n"[..0] == "";
      assert SplitLines("") == [""];
    } else {
      JoinTerminates(NonEmpty(lines));
      SplitTerminated(NonEmpty(lines));
    }
  }

  lemma ExistingHasNoNewline(file: Option<string>)
    ensures NoNewline(Existing(file))
  {
    if file.Some? { SplitHasNoNewline(file.value); }
  }

  lemma KeyOfIsValid(line: string)
    ensures KeyOf(line).Some? ==> ValidKey(KeyOf(line).value)
  {
  }

  lemma RewriteKeepsKey(line: string, u: Updates)
    ensures KeyOf(Rewrite(line, u)) == KeyOf(line)
  {
    KeyOfIsValid(line);
    if KeyOf(line).Some? && Lookup(u, KeyOf(line).value).Some? {
      KeyOfAssignment(KeyOf(line).value, Lookup(u, KeyOf(line).value).value);
    }
  }

  lemma {:induction false} MissingMembers(u: Updates, seen: set<string>)
    ensures forall l :: l in Missing(u, seen) <==> exists e :: e in u && e.0 !in seen && l == Assignment(e.0, e.1)
  {
    if |u| > 0 {
      MissingMembers(u[..|u| - 1], seen);
      assert u == u[..|u| - 1] + [u[|u| - 1]];
    }
  }

  lemma AssignmentHasNoNewline(k: string, v: string)
    requires ValidKey(k) && '\n' !in v
    ensures '\n' !in Assignment(k, v)
  {
  }

  /** Every line of the edited file that assigns an updated key assigns its new value. */
  lemma EditedAssigns(lines: seq<string>, u: Updates, l: string, i: nat)
    requires Entries(u) && i < |u| && l in EditedLines(lines, u) && KeyOf(l) == Some(u[i].0)
    ensures l == Assignment(u[i].0, u[i].1)
  {
    LookupFinds(u, i);
    if l in Map(Rewriter(u), lines) {
      var j :| 0 <= j < |lines| && Map(Rewriter(u), lines)[j] == l;
      RewriteKeepsKey(lines[j], u);
    } else {
      MissingMembers(u, Seen(lines, u));
      var e :| e in u && l == Assignment(e.0, e.1);
      KeyOfAssignment(e.0, e.1);
      var j :| 0 <= j < |u| && u[j] == e;
      LookupFinds(u, j);
    }
  }

  lemma EditedContains(lines: seq<string>, u: Updates, i: nat)
    requires Entries(u) && i < |u|
    ensures Assignment(u[i].0, u[i].1) in EditedLines(lines, u)
  {
    var k := u[i].0;
    LookupFinds(u, i);
    SeenMembers(lines, u, k);
    if k in Seen(lines, u) {
      var j :| 0 <= j < |lines| && KeyOf(lines[j]) == Some(k);
      assert Map(Rewriter(u), lines)[j] == Assignment(k, u[i].1);
    } else {
      MissingMembers(u, Seen(lines, u));
      assert u[i] in u;
    }
  }

  lemma {:induction false} EditedHasNoNewline(lines: seq<string>, u: Updates)
    requires Entries(u) && NoNewline(lines) && forall e :: e in u ==> '\n' !in e.1
    ensures NoNewline(EditedLines(lines, u))
  {
    forall l | l in EditedLines(lines, u) ensures '\n' !in l {
      if l in Map(Rewriter(u), lines) {
        var j :| 0 <= j < |lines| && Map(Rewriter(u), lines)[j] == l;
        assert lines[j] in lines;
        if l != lines[j] {
          KeyOfIsValid(lines[j]);
          LookupIsEntry(u, KeyOf(lines[j]).value);
          AssignmentHasNoNewline(KeyOf(lines[j]).value, Lookup(u, KeyOf(lines[j]).value).value);
        }
      } else {
        MissingMembers(u, Seen(lines, u));
        var e :| e in u && l == Assignment(e.0, e.1);
        AssignmentHasNoNewline(e.0, e.1);
      }
    }
  }

  lemma KeyOfChomp(l: string)
    ensures KeyOf(Chomp(l)) == KeyOf(l)
  {
    if EndsWithCr(l) {
      var n, m := KeyLength(l), KeyLength(Chomp(l));
      assert !IsKeyChar('\r');
      assert n <= |l| - 1;
      assert forall i :: 0 <= i < |l| - 1 ==> Chomp(l)[i] == l[i];
      assert m == n;
      assert Chomp(l)[..n] == l[..n];
    }
  }

  lemma ChompAssignment(k: string, v: string)
    requires ValidKey(k)
    ensures Chomp(Assignment(k, v)) == Assignment(k, Chomp(v))
  {
    var l := Assignment(k, v);
    if v == "" { assert l[|l| - 1] == '='; }
    else { assert l[|l| - 1] == v[|v| - 1]; }
  }

  lemma {:induction false} ValueOfOnly(lines: seq<string>, k: string, v: string)
    requires Assignment(k, v) in lines && ValidKey(k)
    requires forall l :: l in lines && KeyOf(l) == Some(k) ==> l == Assignment(k, v)
    ensures ValueOf(lines, k) == Some(v)
  {
    KeyOfAssignment(k, v);
    if KeyOf(lines[0]) == Some(k) {
      assert lines[0] in lines;
      assert Assignment(k, v)[|k| + 1..] == v;
    } else {
      ValueOfOnly(lines[1..], k, v);
    }
  }

  /** Every line read back that assigns the key assigns the updated value. */
  lemma RereadAssigns(lines: seq<string>, u: Updates, i: nat, l: string)
    requires Entries(u) && i < |u| && KeyOf(l) == Some(u[i].0)
    requires l in ChompAll(NonEmpty(EditedLines(lines, u))) + [""]
    ensures l == Assignment(u[i].0, Chomp(u[i].1))
  {
    var kept := NonEmpty(EditedLines(lines, u));
    NonEmptyMembers(EditedLines(lines, u));
    var r := ChompAll(kept) + [""];
    var m :| 0 <= m < |r| && r[m] == l;
    assert m < |kept| && kept[m] in kept;
    KeyOfChomp(kept[m]);
    EditedAssigns(lines, u, kept[m], i);
    ChompAssignment(u[i].0, u[i].1);
  }

  lemma RereadContains(lines: seq<string>, u: Updates, i: nat)
    requires Entries(u) && i < |u|
    ensures NonEmpty(EditedLines(lines, u)) != []
    ensures Assignment(u[i].0, Chomp(u[i].1)) in ChompAll(NonEmpty(EditedLines(lines, u))) + [""]
  {
    var kept := NonEmpty(EditedLines(lines, u));
    EditedContains(lines, u, i);
    NonEmptyMembers(EditedLines(lines, u));
    ChompAssignment(u[i].0, u[i].1);
    var j :| 0 <= j < |kept| && kept[j] == Assignment(u[i].0, u[i].1);
    assert (ChompAll(kept) + [""])[j] == Chomp(kept[j]);
  }

  /** If no new value holds a line feed, re-reading the file gives every updated
      key its value, less one trailing CR. */
  lemma ReadBack(file: Option<string>, u: Updates, i: nat)
    requires Entries(u) && i < |u| && forall e :: e in u ==> '\n' !in e.1
    ensures ValueOf(SplitLines(Upserted(file, u)), u[i].0) == Some(Chomp(u[i].1))
  {
    var lines := Existing(file);
    ExistingHasNoNewline(file);
    EditedHasNoNewline(lines, u);
    Reread(EditedLines(lines, u));
    RereadContains(lines, u, i);
    var r := ChompAll(NonEmpty(EditedLines(lines, u))) + [""];
    forall l | l in r && KeyOf(l) == Some(u[i].0) ensures l == Assignment(u[i].0, Chomp(u[i].1)) { RereadAssigns(lines, u, i, l); }
    assert u[i] in u;
    ValueOfOnly(r, u[i].0, Chomp(u[i].1));
  }

  lemma {:induction false} ValuesHaveNoNewline(lines: seq<string>, k: string)
    requires NoNewline(lines)
    ensures ValueOf(lines, k).Some? ==> '\n' !in ValueOf(lines, k).value
  {
    if |lines| > 0 {
      assert lines[0] in lines;
      if KeyOf(lines[0]) == Some(k) { assert forall c :: c in lines[0][|k| + 1..] ==> c in lines[0]; }
      else { ValuesHaveNoNewline(lines[1..], k); }
    }
  }

  /** Re-reading the written file gives every updated key its new value exactly
      when no value holds a line feed or ends in a carriage return. */
  lemma ReadBackIff(file: Option<string>, u: Updates)
    requires Entries(u)
    ensures (forall e :: e in u ==> ValueOf(SplitLines(Upserted(file, u)), e.0) == Some(e.1)) <==> (forall e :: e in u ==> Clean(e.1))
  {
    SplitHasNoNewline(Upserted(file, u));
    forall e | e in u ensures ValueOf(SplitLines(Upserted(file, u)), e.0) == Some(e.1) ==> '\n' !in e.1 {
      ValuesHaveNoNewline(SplitLines(Upserted(file, u)), e.0);
    }
    if forall e :: e in u ==> '\n' !in e.1 {
      forall e | e in u ensures ValueOf(SplitLines(Upserted(file, u)), e.0) == Some(e.1) <==> Clean(e.1) {
        var i :| 0 <= i < |u| && u[i] == e;
        ReadBack(file, u, i);
      }
    }
  }

  /** A value that is not read back: its last character is a carriage return. */
  lemma {:induction false} CarriageReturnLost(file: Option<string>)
    ensures ValueOf(SplitLines(Upserted(file, [("API_KEY", "k\r")])), "API_KEY") == Some("k")
  {
    var u := [("API_KEY", "k\r")];
    assert ValidKey("API_KEY");
    ReadBack(file, u, 0);
    assert Chomp("k\r") == "k";
  }

  // ----- everything else is kept -----

  predicate IsOther(l: string, u: Updates) {
    l != "" && (KeyOf(l).None? || Lookup(u, KeyOf(l).value).None?)
  }

  function OtherThan(u: Updates): string -> bool { (l: string) => IsOther(l, u) }

  /** The non-empty lines that assign no updated key, in order. */
  function Others(lines: seq<string>, u: Updates): seq<string> {
    Filter(OtherThan(u), lines)
  }

  lemma OthersEdited(lines: seq<string>, u: Updates)
    requires Entries(u)
    ensures Others(EditedLines(lines, u), u) == Others(lines, u)
  {
    var missing := Missing(u, Seen(lines, u));
    FilterConcat(OtherThan(u), Map(Rewriter(u), lines), missing);
    forall l ensures IsOther(Rewrite(l, u), u) == IsOther(l, u) { RewriteKeepsKey(l, u); }
    FilterMapSame(OtherThan(u), Rewriter(u), lines);
    MissingAreNotOthers(u, Seen(lines, u));
    FilterNone(OtherThan(u), missing);
  }

  lemma MissingAreNotOthers(u: Updates, seen: set<string>)
    requires Entries(u)
    ensures forall l :: l in Missing(u, seen) ==> !IsOther(l, u)
  {
    MissingMembers(u, seen);
    forall l | l in Missing(u, seen) ensures !IsOther(l, u) {
      var e :| e in u && l == Assignment(e.0, e.1);
      KeyOfAssignment(e.0, e.1);
      EntryHasKey(u, e);
    }
  }

  lemma OthersChomped(lines: seq<string>, u: Updates)
    ensures Others(ChompAll(lines), u) == NonEmpty(ChompAll(Others(lines, u)))
  {
    forall l ensures IsOther(Chomp(l), u) <==> IsOther(l, u) && Chomp(l) != "" { KeyOfChomp(l); }
    FilterMap(OtherThan(u), Written(), Chomper(), lines);
  }

  lemma OthersReread(lines: seq<string>, u: Updates)
    requires NoNewline(lines)
    ensures Others(SplitLines(Content(lines)), u) == NonEmpty(ChompAll(Others(lines, u)))
  {
    var kept := NonEmpty(lines);
    Reread(lines);
    FilterTwice(OtherThan(u), Written(), lines);
    OthersChomped(kept, u);
    if kept == [] {
      FilterNone(OtherThan(u), ["", ""]);
    } else {
      FilterConcat(OtherThan(u), ChompAll(kept), [""]);
      FilterNone(OtherThan(u), [""]);
    }
  }

  /** What becomes of the other lines: each loses at most one trailing CR. */
  lemma OthersAfterUpsert(file: Option<string>, u: Updates)
    requires Entries(u) && forall e :: e in u ==> '\n' !in e.1
    ensures Others(SplitLines(Upserted(file, u)), u) == NonEmpty(ChompAll(Others(Existing(file), u)))
  {
    ExistingHasNoNewline(file);
    EditedHasNoNewline(Existing(file), u);
    OthersEdited(Existing(file), u);
    OthersReread(EditedLines(Existing(file), u), u);
  }

  function TotalLength(lines: seq<string>): nat {
    if |lines| == 0 then 0 else |lines[0]| + TotalLength(lines[1..])
  }

  lemma TotalLengthCons(l: string, rest: seq<string>)
    ensures TotalLength([l] + rest) == |l| + TotalLength(rest)
  {
    assert ([l] + rest)[1..] == rest;
  }

  lemma ChompedCons(lines: seq<string>)
    requires |lines| > 0
    ensures var c, rest := Chomp(lines[0]), NonEmpty(ChompAll(lines[1..]));
            TotalLength(NonEmpty(ChompAll(lines))) == |c| + TotalLength(rest)
  {
    var c, rest := Chomp(lines[0]), ChompAll(lines[1..]);
    MapCons(Chomper(), lines);
    FilterCons(Written(), c, rest);
    TotalLengthCons(c, NonEmpty(rest));
  }

  lemma {:induction false} ChompShortens(lines: seq<string>)
    ensures TotalLength(NonEmpty(ChompAll(lines))) <= TotalLength(lines)
    ensures (exists l :: l in lines && EndsWithCr(l)) ==> TotalLength(NonEmpty(ChompAll(lines))) < TotalLength(lines)
  {
    if |lines| > 0 {
      ChompShortens(lines[1..]);
      ChompedCons(lines);
      assert forall l :: l in lines ==> l == lines[0] || l in lines[1..];
    }
  }

  /** With one-line values, every other non-empty line is kept, in order, exactly
      when none of them ends in a carriage return. */
  lemma OthersKeptIff(file: Option<string>, u: Updates)
    requires Entries(u) && forall e :: e in u ==> '\n' !in e.1
    ensures Others(SplitLines(Upserted(file, u)), u) == Others(Existing(file), u)
            <==> forall l :: l in Others(Existing(file), u) ==> !EndsWithCr(l)
  {
    OthersAfterUpsert(file, u);
    ChompShortens(Others(Existing(file), u));
    var others := Others(Existing(file), u);
    if forall l :: l in others ==> !EndsWithCr(l) {
      MapSame(Chomper(), others);
      FilterMembers(OtherThan(u), Existing(file));
      FilterAll(Written(), others);
    }
  }

  // ----- every assignment stays in its place -----

  function HasKey(): string -> bool { (l: string) => KeyOf(l).Some? }

  function TheKey(): string -> string { (l: string) => if KeyOf(l).Some? then KeyOf(l).value else "" }

  /** The keys that the lines assign, in order. */
  function KeysOf(lines: seq<string>): seq<string> {
    Map(TheKey(), Filter(HasKey(), lines))
  }

  /** The updated keys that no line assigned, in order. */
  function NewKeys(u: Updates, seen: set<string>): seq<string> {
    if |u| == 0 then []
    else NewKeys(u[..|u| - 1], seen) + (if u[|u| - 1].0 in seen then [] else [u[|u| - 1].0])
  }

  lemma KeysConcat(a: seq<string>, b: seq<string>)
    ensures KeysOf(a + b) == KeysOf(a) + KeysOf(b)
  {
    FilterConcat(HasKey(), a, b);
  }

  lemma SameKeysCons(x: string, y: string, s: seq<string>, t: seq<string>)
    requires KeyOf(x) == KeyOf(y) && KeysOf(s) == KeysOf(t)
    ensures KeysOf([x] + s) == KeysOf([y] + t)
  {
    KeysConcat([x], s);
    KeysConcat([y], t);
    KeysOfOne(x);
    KeysOfOne(y);
  }

  lemma {:induction false} KeysMapped(f: string -> string, lines: seq<string>)
    requires forall l :: KeyOf(f(l)) == KeyOf(l)
    ensures KeysOf(Map(f, lines)) == KeysOf(lines)
  {
    if |lines| > 0 {
      KeysMapped(f, lines[1..]);
      MapCons(f, lines);
      SameKeysCons(f(lines[0]), lines[0], Map(f, lines[1..]), lines[1..]);
      assert lines == [lines[0]] + lines[1..];
    }
  }

  lemma KeysOfOne(l: string)
    ensures KeysOf([l]) == if KeyOf(l).Some? then [KeyOf(l).value] else []
  {
    FilterCons(HasKey(), l, []);
    assert [l] + [] == [l];
  }

  lemma {:induction false} KeysMissing(u: Updates, seen: set<string>)
    requires Entries(u)
    ensures KeysOf(Missing(u, seen)) == NewKeys(u, seen)
  {
    if |u| > 0 {
      var n := |u| - 1;
      KeysMissing(u[..n], seen);
      assert u[n] in u;
      KeyOfAssignment(u[n].0, u[n].1);
      KeysOfOne(Assignment(u[n].0, u[n].1));
      if u[n].0 !in seen { KeysConcat(Missing(u[..n], seen), [Assignment(u[n].0, u[n].1)]); }
    }
  }

  lemma {:induction false} KeysNonEmpty(lines: seq<string>)
    ensures KeysOf(NonEmpty(lines)) == KeysOf(lines)
  {
    FilterTwice(HasKey(), Written(), lines);
  }

  lemma RewriterKeepsKeys(u: Updates)
    ensures forall l :: KeyOf(Rewriter(u)(l)) == KeyOf(l)
  {
    forall l ensures KeyOf(Rewriter(u)(l)) == KeyOf(l) { RewriteKeepsKey(l, u); }
  }

  lemma ChomperKeepsKeys()
    ensures forall l :: KeyOf(Chomper()(l)) == KeyOf(l)
  {
    forall l ensures KeyOf(Chomper()(l)) == KeyOf(l) { KeyOfChomp(l); }
  }

  lemma EditedKeys(lines: seq<string>, u: Updates)
    requires Entries(u)
    ensures KeysOf(EditedLines(lines, u)) == KeysOf(lines) + NewKeys(u, Seen(lines, u))
  {
    RewriterKeepsKeys(u);
    KeysMapped(Rewriter(u), lines);
    KeysMissing(u, Seen(lines, u));
    KeysConcat(Map(Rewriter(u), lines), Missing(u, Seen(lines, u)));
  }

  /** For values without newlines, the file read back assigns the same keys in the same
      order as before, followed by the updated keys that it did not assign, in order:
      every assignment is rewritten in its place. */
  lemma KeyOrderKept(file: Option<string>, u: Updates)
    requires Entries(u) && forall e :: e in u ==> '\n' !in e.1
    ensures KeysOf(SplitLines(Upserted(file, u))) == KeysOf(Existing(file)) + NewKeys(u, Seen(Existing(file), u))
  {
    var lines := Existing(file);
    var kept := NonEmpty(EditedLines(lines, u));
    ExistingHasNoNewline(file);
    EditedHasNoNewline(lines, u);
    Reread(EditedLines(lines, u));
    EditedKeys(lines, u);
    KeysNonEmpty(EditedLines(lines, u));
    ChomperKeepsKeys();
    KeysMapped(Chomper(), kept);
    KeysConcat(ChompAll(kept), [""]);
    BlankKeys();
  }

  lemma BlankKeys()
    ensures KeysOf([""]) == [] && KeysOf(["", ""]) == []
  {
    KeysOfOne("");
    KeysConcat([""], [""]);
    assert [""] + [""] == ["", ""];
  }

  // ----- editing twice -----

  lemma {:induction false} MissingNothing(u: Updates, seen: set<string>)
    requires forall e :: e in u ==> e.0 in seen
    ensures Missing(u, seen) == []
  {
    if |u| > 0 { assert u[|u| - 1] in u; MissingNothing(u[..|u| - 1], seen); }
  }

  lemma NonEmptyTwice(lines: seq<string>, blanks: seq<string>)
    requires forall b :: b in blanks ==> b == ""
    ensures NonEmpty(NonEmpty(lines) + blanks) == NonEmpty(lines)
  {
    FilterConcat(Written(), NonEmpty(lines), blanks);
    FilterTwice(Written(), Written(), lines);
    FilterNone(Written(), blanks);
  }

  /** A rewritten or pushed line comes back when it is read and edited again,
      even if reading it took a carriage return off its value. */
  lemma AssignedIsStable(lines: seq<string>, u: Updates, l: string)
    requires Entries(u) && l in EditedLines(lines, u) && l != "" && !IsOther(l, u)
    ensures Rewrite(Chomp(l), u) == l
  {
    var k := KeyOf(l).value;
    LookupIsEntry(u, k);
    var i :| 0 <= i < |u| && u[i] == (k, Lookup(u, k).value);
    EditedAssigns(lines, u, l, i);
    KeyOfChomp(l);
  }

  /** Every line of the edited file comes back when it is read and edited again. */
  lemma EditedIsStable(lines: seq<string>, u: Updates, l: string)
    requires Entries(u) && l in EditedLines(lines, u)
    requires forall o :: o in Others(lines, u) ==> !EndsWithCr(o)
    ensures Rewrite(Chomp(l), u) == l
  {
    if l == "" {
    } else if IsOther(l, u) {
      OthersEdited(lines, u);
      FilterMembers(OtherThan(u), EditedLines(lines, u));
    } else {
      AssignedIsStable(lines, u, l);
    }
  }

  /** Every updated key is found in the lines read back. */
  lemma AllSeenAgain(lines: seq<string>, u: Updates, again: seq<string>, e: (string, string))
    requires Entries(u) && e in u
    requires forall l :: l in NonEmpty(EditedLines(lines, u)) ==> Chomp(l) in again
    ensures e.0 in Seen(again, u)
  {
    EntryHasKey(u, e);
    var i :| 0 <= i < |u| && u[i] == e;
    EditedContains(lines, u, i);
    NonEmptyMembers(EditedLines(lines, u));
    KeyOfAssignment(e.0, e.1);
    KeyOfChomp(Assignment(e.0, e.1));
    assert Chomp(Assignment(e.0, e.1)) in again;
    SeenMembers(again, u, e.0);
  }

  lemma EditAgain(lines: seq<string>, u: Updates, blanks: seq<string>)
    requires Entries(u) && forall b :: b in blanks ==> b == ""
    requires forall o :: o in Others(lines, u) ==> !EndsWithCr(o)
    ensures var kept := NonEmpty(EditedLines(lines, u));
            EditedLines(ChompAll(kept) + blanks, u) == kept + blanks
  {
    var kept := NonEmpty(EditedLines(lines, u));
    var again := ChompAll(kept) + blanks;
    NonEmptyMembers(EditedLines(lines, u));
    forall m | 0 <= m < |again| ensures Rewrite(again[m], u) == (kept + blanks)[m] {
      if m < |kept| {
        assert kept[m] in kept;
        EditedIsStable(lines, u, kept[m]);
      } else {
        assert again[m] in blanks;
      }
    }
    assert Map(Rewriter(u), again) == kept + blanks;
    forall l | l in kept ensures Chomp(l) in again {
      var m :| 0 <= m < |kept| && kept[m] == l;
      assert again[m] == Chomp(l);
    }
    forall e | e in u ensures e.0 in Seen(again, u) { AllSeenAgain(lines, u, again, e); }
    MissingNothing(u, Seen(again, u));
  }

  lemma UpsertAgain(file: Option<string>, u: Updates)
    requires Entries(u) && forall e :: e in u ==> '\n' !in e.1
    requires forall l :: l in Others(Existing(file), u) ==> !EndsWithCr(l)
    ensures Upserted(Some(Upserted(file, u)), u) == Upserted(file, u)
  {
    var lines := Existing(file);
    var edited := EditedLines(lines, u);
    var blanks := if NonEmpty(edited) == [] then ["", ""] else [""];
    ExistingHasNoNewline(file);
    EditedHasNoNewline(lines, u);
    Reread(edited);
    assert SplitLines(Content(edited)) == ChompAll(NonEmpty(edited)) + blanks;
    EditAgain(lines, u, blanks);
    NonEmptyTwice(edited, blanks);
  }

  lemma FirstLineIs(l: string, rest: string)
    requires '\n' !in l
    ensures FirstNewline(l + "\n" + rest) == |l|
  {
    var s := l + "\n" + rest;
    assert s[..|l|] == l;
    FirstNewlineIs(s, |l|);
  }

  /** Lines without newlines can be told from their text. */
  lemma {:induction false} TerminatedInjective(a: seq<string>, b: seq<string>)
    requires NoNewline(a) && NoNewline(b) && Terminated(a) == Terminated(b)
    ensures a == b
  {
    if |a| > 0 && |b| > 0 {
      var s, x, y := Terminated(a), Terminated(a[1..]), Terminated(b[1..]);
      FirstLineIs(a[0], x);
      FirstLineIs(b[0], y);
      assert s[..|a[0]|] == a[0] && s[..|b[0]|] == b[0];
      assert s[|a[0]| + 1..] == x && s[|b[0]| + 1..] == y;
      TerminatedInjective(a[1..], b[1..]);
      assert a == [a[0]] + a[1..] && b == [b[0]] + b[1..];
    }
  }

  lemma ContentIsTerminated(lines: seq<string>)
    ensures Content(lines) == Terminated(if NonEmpty(lines) == [] then [""] else NonEmpty(lines))
  {
    if NonEmpty(lines) == [] { JoinTerminates([""]); } else { JoinTerminates(NonEmpty(lines)); }
  }

  lemma ContentInjective(a: seq<string>, b: seq<string>)
    requires NoNewline(a) && NoNewline(b) && Content(a) == Content(b)
    ensures NonEmpty(a) == NonEmpty(b)
  {
    NonEmptyMembers(a);
    NonEmptyMembers(b);
    ContentIsTerminated(a);
    ContentIsTerminated(b);
    var x, y := if NonEmpty(a) == [] then [""] else NonEmpty(a), if NonEmpty(b) == [] then [""] else NonEmpty(b);
    TerminatedInjective(x, y);
    if NonEmpty(a) == [] { assert "" in y; }
    if NonEmpty(b) == [] { assert "" in x; }
  }

  lemma StableKeepsOthers(file: Option<string>, u: Updates)
    requires Entries(u) && forall e :: e in u ==> '\n' !in e.1
    ensures Upserted(Some(Upserted(file, u)), u) == Upserted(file, u)
            ==> Others(SplitLines(Upserted(file, u)), u) == Others(Existing(file), u)
  {
    var once, again := Existing(file), Existing(Some(Upserted(file, u)));
    ExistingHasNoNewline(file);
    ExistingHasNoNewline(Some(Upserted(file, u)));
    EditedHasNoNewline(once, u);
    EditedHasNoNewline(again, u);
    if Content(EditedLines(again, u)) == Content(EditedLines(once, u)) { ContentInjective(EditedLines(again, u), EditedLines(once, u)); }
    FilterTwice(OtherThan(u), Written(), EditedLines(once, u));
    FilterTwice(OtherThan(u), Written(), EditedLines(again, u));
    OthersEdited(once, u);
    OthersEdited(again, u);
  }

  /** With one-line values, a second identical upsert leaves the file exactly as it
      is if and only if no other line ends in a carriage return. */
  lemma {:induction false} UpsertTwiceIff(file: Option<string>, u: Updates)
    requires Entries(u) && forall e :: e in u ==> '\n' !in e.1
    ensures Upserted(Some(Upserted(file, u)), u) == Upserted(file, u)
            <==> forall l :: l in Others(Existing(file), u) ==> !EndsWithCr(l)
  {
    if Upserted(Some(Upserted(file, u)), u) == Upserted(file, u) {
      StableKeepsOthers(file, u);
      OthersKeptIff(file, u);
    }
    if forall l :: l in Others(Existing(file), u) ==> !EndsWithCr(l) {
      UpsertAgain(file, u);
    }
  }
}
