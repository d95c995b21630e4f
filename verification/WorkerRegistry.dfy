/** Which servers a task may be dispatched to, and in what order
    (`workers/worker-registry.service.ts`). */
module WorkerRegistry {
  import opened Common
  import opened Tasks

  datatype Provider = CodexProvider | ClaudeCode | Antigravity | OpenCode | GeminiProvider

  datatype Server = Server(ownerId: UserId, name: string, online: bool)

  datatype Profile = Profile(serverId: ServerId, provider: Provider, profileName: string, enabled: bool)

  datatype Candidate = Candidate(serverId: ServerId, serverName: string, provider: Provider, profileName: string)

  type ServerTable = map<ServerId, Server>

  /** Text orders that live outside the program: the database's collation of
      profile names and the engine's `localeCompare`. */
  datatype Collation = Collation(profileLe: (string, string) -> bool, locale: (string, string) -> int)

  ghost predicate LawfulCollation(c: Collation) {
    && (forall a, b :: c.profileLe(a, b) || c.profileLe(b, a))
    && (forall a, b, d :: c.profileLe(a, b) && c.profileLe(b, d) ==> c.profileLe(a, d))
    && (forall a, b :: c.profileLe(a, b) && c.profileLe(b, a) ==> a == b)
    && (forall a, b :: c.locale(a, b) <= 0 <==> c.locale(b, a) >= 0)
    && (forall a, b, d :: c.locale(a, b) <= 0 && c.locale(b, d) <= 0 ==> c.locale(a, d) <= 0)
  }

  function ProviderFor(w: WorkerType): Provider {
    match w case Codex => CodexProvider case Claude => ClaudeCode case Gemini => GeminiProvider
  }

  /** Only the Codex adapter is registered; `get` throws for the other types. */
  predicate Supported(w: WorkerType) { w.Codex? }

  /** The `where` clause of the profile query. */
  predicate EligibleProfile(servers: ServerTable, p: Profile, provider: Provider, owner: UserId, excluded: set<ServerId>) {
    && p.enabled
    && p.provider == provider
    && p.serverId in servers
    && servers[p.serverId].ownerId == owner
    && servers[p.serverId].online
    && p.serverId !in excluded
  }

  function ToCandidate(servers: ServerTable, p: Profile): Candidate
    requires p.serverId in servers
  {
    Candidate(p.serverId, servers[p.serverId].name, p.provider, p.profileName)
  }

  /** The eligible rows in table order. */
  function EligibleRows(servers: ServerTable, profiles: seq<Profile>, provider: Provider, owner: UserId,
                        excluded: set<ServerId>): (rows: seq<Candidate>)
    ensures forall c :: c in rows <==>
              exists p :: p in profiles && EligibleProfile(servers, p, provider, owner, excluded) && c == ToCandidate(servers, p)
  {
    if |profiles| == 0 then []
    else
      var rest := EligibleRows(servers, profiles[1..], provider, owner, excluded);
      assert profiles == [profiles[0]] + profiles[1..];
      if EligibleProfile(servers, profiles[0], provider, owner, excluded)
      then [ToCandidate(servers, profiles[0])] + rest
      else rest
  }

  /** `orderBy: [serverId asc, profileName asc]` */
  predicate RowLe(col: Collation, a: Candidate, b: Candidate) {
    a.serverId < b.serverId || (a.serverId == b.serverId && col.profileLe(a.profileName, b.profileName))
  }

  /** The comparator passed to `Array.prototype.sort`, as written. */
  function Compare(col: Collation, preferred: ServerId, left: Candidate, right: Candidate): int {
    if left.serverId == preferred then -1
    else if right.serverId == preferred then 1
    else col.locale(left.serverName, right.serverName)
  }

  // ----- stable sorting -----

  function Insert<T(==,!new)>(le: (T, T) -> bool, x: T, s: seq<T>): (r: seq<T>)
    ensures multiset(r) == multiset(s) + multiset{x}
    ensures forall y :: y in r <==> y == x || y in s
  {
    if |s| == 0 || le(x, s[0]) then [x] + s
    else
      assert s == [s[0]] + s[1..];
      [s[0]] + Insert(le, x, s[1..])
  }

  /** Insertion sort: any stable sort gives this answer when `le` is a total preorder. */
  function StableSort<T(==,!new)>(le: (T, T) -> bool, s: seq<T>): (r: seq<T>)
    ensures multiset(r) == multiset(s)
    ensures forall y :: y in r <==> y in s
  {
    if |s| == 0 then []
    else
      assert s == [s[0]] + s[1..];
      Insert(le, s[0], StableSort(le, s[1..]))
  }

  /** Total and transitive on distinct elements of `dom`. */
  ghost predicate PreorderOn<T(!new)>(le: (T, T) -> bool, dom: set<T>) {
    && (forall a, b :: a in dom && b in dom && a != b ==> le(a, b) || le(b, a))
    && (forall a, b, c :: a in dom && b in dom && c in dom && a != b && b != c && a != c && le(a, b) && le(b, c) ==> le(a, c))
  }

  /** `a` may stand anywhere in front of `b`: `le` says so, and where it cannot
      separate them, `before` does. */
  ghost predicate Goes<T>(le: (T, T) -> bool, before: (T, T) -> bool, a: T, b: T) {
    a != b && le(a, b) && (le(b, a) ==> before(a, b))
  }

  ghost predicate SortedStably<T(!new)>(le: (T, T) -> bool, before: (T, T) -> bool, s: seq<T>) {
    |s| == 0 || ((forall y :: y in s[1..] ==> Goes(le, before, s[0], y)) && SortedStably(le, before, s[1..]))
  }

  ghost predicate Ascending<T(!new)>(before: (T, T) -> bool, s: seq<T>) {
    |s| == 0 || ((forall y :: y in s[1..] ==> before(s[0], y) && s[0] != y) && Ascending(before, s[1..]))
  }

  lemma {:induction false} InsertSorted<T(!new)>(le: (T, T) -> bool, before: (T, T) -> bool, dom: set<T>, x: T, s: seq<T>)
    requires PreorderOn(le, dom) && x in dom && forall y :: y in s ==> y in dom
    requires SortedStably(le, before, s)
    requires forall y :: y in s ==> before(x, y) && x != y
    ensures SortedStably(le, before, Insert(le, x, s))
  {
    if |s| == 0 {
    } else if le(x, s[0]) {
      forall y | y in s ensures Goes(le, before, x, y) {
        if y != s[0] { assert y in s[1..]; }
      }
      assert ([x] + s)[1..] == s;
    } else {
      var r := Insert(le, x, s[1..]);
      assert s[0] in s && forall y :: y in s[1..] ==> y in s;
      InsertSorted(le, before, dom, x, s[1..]);
      forall y | y in r ensures Goes(le, before, s[0], y) { if y != x { assert y in s[1..]; } }
      assert ([s[0]] + r)[1..] == r;
    }
  }

  lemma {:induction false} SortSorts<T(!new)>(le: (T, T) -> bool, before: (T, T) -> bool, dom: set<T>, s: seq<T>)
    requires PreorderOn(le, dom) && forall y :: y in s ==> y in dom
    requires Ascending(before, s)
    ensures SortedStably(le, before, StableSort(le, s))
  {
    if |s| > 0 {
      SortSorts(le, before, dom, s[1..]);
      InsertSorted(le, before, dom, s[0], StableSort(le, s[1..]));
    }
  }

  lemma {:induction false} SortedPairwise<T(!new)>(le: (T, T) -> bool, before: (T, T) -> bool, s: seq<T>, i: nat, j: nat)
    requires SortedStably(le, before, s) && i < j < |s|
    ensures Goes(le, before, s[i], s[j])
  {
    if i > 0 { SortedPairwise(le, before, s[1..], i - 1, j - 1); }
    else { assert s[1..][j - 1] == s[j]; }
  }

  // ----- the candidate list -----

  /** The rows the database returns. */
  function Rows(col: Collation, servers: ServerTable, profiles: seq<Profile>, provider: Provider, owner: UserId,
                excluded: set<ServerId>): seq<Candidate>
  {
    StableSort((a, b) => RowLe(col, a, b), EligibleRows(servers, profiles, provider, owner, excluded))
  }

  function CompareLe(col: Collation, preferred: ServerId): (Candidate, Candidate) -> bool {
    (a, b) => Compare(col, preferred, a, b) <= 0
  }

  /** The engine's sort: stable, and it never compares an element with itself. */
  function StableRank(col: Collation, preferred: ServerId, rows: seq<Candidate>): seq<Candidate> {
    StableSort(CompareLe(col, preferred), rows)
  }

  function RankBy(col: Collation): (ServerId, seq<Candidate>) -> seq<Candidate> {
    (preferred: ServerId, rows: seq<Candidate>) => StableRank(col, preferred, rows)
  }

  /** `getDispatchCandidates`; `None` when it throws.  `rank` is what the
      engine's sort makes of the rows, given the preferred server. */
  function GetDispatchCandidates(col: Collation, rank: (ServerId, seq<Candidate>) -> seq<Candidate>, servers: ServerTable,
                                 profiles: seq<Profile>, w: WorkerType, preferred: ServerId,
                                 excluded: set<ServerId>): Option<seq<Candidate>>
  {
    if !Supported(w) || preferred !in servers then None
    else Some(rank(preferred, Rows(col, servers, profiles, ProviderFor(w), servers[preferred].ownerId, excluded)))
  }

  /** All that is ever assumed of the engine's sort outside this module. */
  ghost predicate Permutes(rank: (ServerId, seq<Candidate>) -> seq<Candidate>) {
    forall p, rows :: multiset(rank(p, rows)) == multiset(rows)
  }

  lemma StableRankPermutes(col: Collation)
    ensures Permutes(RankBy(col))
  {
  }

  /** `@@unique([serverId, provider, profileName])` */
  ghost predicate UniqueProfiles(profiles: seq<Profile>) {
    forall i, j :: 0 <= i < j < |profiles| ==>
      (profiles[i].serverId, profiles[i].provider, profiles[i].profileName)
      != (profiles[j].serverId, profiles[j].provider, profiles[j].profileName)
  }

  ghost predicate AtMostOneOn(server: ServerId, rows: seq<Candidate>) {
    forall a, b :: a in rows && b in rows && a.serverId == server && b.serverId == server ==> a == b
  }

  /** What `Array.prototype.sort` asks of a comparator, on distinct elements. */
  ghost predicate ConsistentComparator(cmp: (Candidate, Candidate) -> int, rows: seq<Candidate>) {
    && (forall a, b :: a in rows && b in rows && a != b ==> (cmp(a, b) <= 0 <==> cmp(b, a) >= 0))
    && (forall a, b, c :: (a in rows && b in rows && c in rows && a != b && b != c && a != c
                           && cmp(a, b) <= 0 && cmp(b, c) <= 0) ==> cmp(a, c) <= 0)
  }

  /** The comparator is consistent exactly when the preferred server contributes
      at most one row. */
  lemma ComparatorConsistentIff(col: Collation, preferred: ServerId, rows: seq<Candidate>)
    requires LawfulCollation(col)
    ensures ConsistentComparator((a, b) => Compare(col, preferred, a, b), rows) <==> AtMostOneOn(preferred, rows)
  {
    if ConsistentComparator((a, b) => Compare(col, preferred, a, b), rows) {
      forall a, b | a in rows && b in rows && a.serverId == preferred && b.serverId == preferred
        ensures a == b
      {
        assert Compare(col, preferred, a, b) == -1 == Compare(col, preferred, b, a);
      }
    }
  }

  /** On the preferred server the comparator is not even reflexive. */
  lemma ComparatorIrreflexiveOnPreferred(col: Collation, preferred: ServerId, c: Candidate)
    requires LawfulCollation(col)
    ensures Compare(col, preferred, c, c) == 0 <==> c.serverId != preferred
  {
  }

  lemma {:induction false} EligibleDistinct(servers: ServerTable, profiles: seq<Profile>, provider: Provider, owner: UserId,
                                            excluded: set<ServerId>)
    requires UniqueProfiles(profiles)
    ensures Ascending((a, b) => true, EligibleRows(servers, profiles, provider, owner, excluded))
  {
    if |profiles| > 0 {
      var rest := EligibleRows(servers, profiles[1..], provider, owner, excluded);
      EligibleDistinct(servers, profiles[1..], provider, owner, excluded);
      if EligibleProfile(servers, profiles[0], provider, owner, excluded) {
        var c := ToCandidate(servers, profiles[0]);
        forall y | y in rest ensures c != y {
          var p :| p in profiles[1..] && EligibleProfile(servers, p, provider, owner, excluded) && y == ToCandidate(servers, p);
          var k :| 0 <= k < |profiles[1..]| && profiles[1..][k] == p;
          assert profiles[k + 1] == p;
        }
        assert ([c] + rest)[1..] == rest;
      }
    }
  }

  lemma {:induction false} SortedIsAscending(le: (Candidate, Candidate) -> bool, before: (Candidate, Candidate) -> bool, s: seq<Candidate>)
    requires SortedStably(le, before, s)
    ensures Ascending(le, s)
  {
    if |s| > 0 {
      SortedIsAscending(le, before, s[1..]);
      forall y | y in s[1..] ensures le(s[0], y) && s[0] != y { assert Goes(le, before, s[0], y); }
    }
  }

  lemma RowsAscending(col: Collation, servers: ServerTable, profiles: seq<Profile>, provider: Provider, owner: UserId,
                      excluded: set<ServerId>)
    requires LawfulCollation(col) && UniqueProfiles(profiles)
    ensures Ascending((a, b) => RowLe(col, a, b), Rows(col, servers, profiles, provider, owner, excluded))
  {
    var rows := EligibleRows(servers, profiles, provider, owner, excluded);
    var le: (Candidate, Candidate) -> bool := (a, b) => RowLe(col, a, b);
    EligibleDistinct(servers, profiles, provider, owner, excluded);
    var dom := set c | c in rows;
    forall a, b | a in dom && b in dom && a != b ensures le(a, b) || le(b, a) { }
    SortSorts(le, (a, b) => true, dom, rows);
    SortedIsAscending(le, (a, b) => true, StableSort(le, rows));
  }

  /** The profile offers Codex, is enabled, and its server is online, belongs to the
      user and is not excluded. */
  ghost predicate OffersCodex(servers: ServerTable, p: Profile, owner: UserId, excluded: set<ServerId>) {
    && p.provider == CodexProvider && p.enabled
    && p.serverId in servers && servers[p.serverId] == Server(owner, servers[p.serverId].name, true)
    && p.serverId !in excluded
  }

  /** Membership: for a Codex task the list holds exactly the profiles that offer
      Codex on a server of the preferred server's owner, each once, whatever the
      engine's sort does; for the other types there is none. */
  lemma CandidatesExact(col: Collation, rank: (ServerId, seq<Candidate>) -> seq<Candidate>, servers: ServerTable,
                        profiles: seq<Profile>, w: WorkerType, preferred: ServerId, excluded: set<ServerId>)
    requires Permutes(rank) && UniqueProfiles(profiles) && LawfulCollation(col)
    requires preferred in servers
    ensures var got := GetDispatchCandidates(col, rank, servers, profiles, w, preferred, excluded);
            && (got.Some? <==> w == Codex)
            && (got.Some? ==>
                  && (forall c :: c in got.value <==>
                        exists p :: p in profiles && c == CandidateOf(servers, p)
                                    && OffersCodex(servers, p, servers[preferred].ownerId, excluded))
                  && (forall c :: c in got.value ==> multiset(got.value)[c] == 1))
  {
    if w == Codex {
      var owner := servers[preferred].ownerId;
      var rows := Rows(col, servers, profiles, CodexProvider, owner, excluded);
      var got := rank(preferred, rows);
      RowsAscending(col, servers, profiles, CodexProvider, owner, excluded);
      SameMembers(got, rows);
      forall c | c in got ensures multiset(got)[c] == 1 {
        AscendingOnce((a, b) => RowLe(col, a, b), rows, c);
      }
      forall p | p in profiles
        ensures OffersCodex(servers, p, owner, excluded) <==> EligibleProfile(servers, p, CodexProvider, owner, excluded)
        ensures p.serverId in servers ==> CandidateOf(servers, p) == ToCandidate(servers, p)
      { }
    }
  }

  function CandidateOf(servers: ServerTable, p: Profile): Candidate {
    if p.serverId in servers then ToCandidate(servers, p) else Candidate(p.serverId, "", p.provider, p.profileName)
  }

  lemma SameMembers<T>(s: seq<T>, t: seq<T>)
    requires multiset(s) == multiset(t)
    ensures forall x :: x in s <==> x in t
  {
    assert forall x :: x in s <==> x in multiset(s);
  }

  lemma {:induction false} AscendingOnce(before: (Candidate, Candidate) -> bool, s: seq<Candidate>, c: Candidate)
    requires Ascending(before, s) && c in s
    ensures multiset(s)[c] == 1
  {
    assert s == [s[0]] + s[1..];
    if c in s[1..] { AscendingOnce(before, s[1..], c); }
  }

  lemma RankSorts(col: Collation, preferred: ServerId, rows: seq<Candidate>)
    requires LawfulCollation(col) && AtMostOneOn(preferred, rows)
    requires Ascending((a, b) => RowLe(col, a, b), rows)
    ensures SortedStably(CompareLe(col, preferred), (a, b) => RowLe(col, a, b), StableRank(col, preferred, rows))
  {
    var dom := set c | c in rows;
    PreferredPreorder(col, preferred, dom);
    SortSorts(CompareLe(col, preferred), (a, b) => RowLe(col, a, b), dom, rows);
  }

  lemma PreferredPreorder(col: Collation, preferred: ServerId, dom: set<Candidate>)
    requires LawfulCollation(col)
    requires forall a, b :: a in dom && b in dom && a.serverId == preferred && b.serverId == preferred ==> a == b
    ensures PreorderOn(CompareLe(col, preferred), dom)
  {
  }

  /** Order: with at most one row on the preferred server, that server comes
      first, the rest follow by name, and equal names by (server id, profile). */
  lemma CandidateOrder(col: Collation, servers: ServerTable, profiles: seq<Profile>, w: WorkerType, preferred: ServerId,
                       excluded: set<ServerId>, r: seq<Candidate>, i: nat, j: nat)
    requires LawfulCollation(col) && UniqueProfiles(profiles) && Supported(w) && preferred in servers
    requires AtMostOneOn(preferred, EligibleRows(servers, profiles, ProviderFor(w), servers[preferred].ownerId, excluded))
    requires GetDispatchCandidates(col, RankBy(col), servers, profiles, w, preferred, excluded) == Some(r)
    requires i < j < |r|
    ensures r[j].serverId != preferred
    ensures r[i].serverId != preferred ==> col.locale(r[i].serverName, r[j].serverName) <= 0
    ensures r[i].serverId != preferred && col.locale(r[i].serverName, r[j].serverName) == 0
            ==> r[i].serverId < r[j].serverId
                || (r[i].serverId == r[j].serverId && col.profileLe(r[i].profileName, r[j].profileName) && r[i] != r[j])
  {
    var owner := servers[preferred].ownerId;
    var rows := Rows(col, servers, profiles, ProviderFor(w), owner, excluded);
    RowsAscending(col, servers, profiles, ProviderFor(w), owner, excluded);
    RankSorts(col, preferred, rows);
    SortedPairwise(CompareLe(col, preferred), (a, b) => RowLe(col, a, b), r, i, j);
    assert r[i] in rows && r[j] in rows;
    assert Compare(col, preferred, r[i], r[j]) <= 0;
  }
}
