/** Which manifests and tests the `-v` options select (sev_verify/cli.py). */
module VersionFilters {
  import opened Texts
  import Certifications

  // ── Reading the options ─────────────────────────────────────────

  /** The stripped pieces that are not empty. */
  function Words(pieces: seq<string>): seq<string> {
    if pieces == [] then []
    else
      var rest, word := Words(pieces[..|pieces| - 1]), Strip(pieces[|pieces| - 1]);
      if word == "" then rest else rest + [word]
  }

  function ParseFilters(raw: seq<string>): seq<string> {
    if raw == [] then [] else ParseFilters(raw[..|raw| - 1]) + Words(Split(raw[|raw| - 1], ','))
  }

  /** `_parse_version_filters`. */
  method ParseVersionFilters(raw: seq<string>) returns (filters: seq<string>)
    ensures filters == ParseFilters(raw)
  {
    filters := [];
    for i := 0 to |raw|
      invariant filters == ParseFilters(raw[..i])
    {
      assert raw[..i + 1][..i] == raw[..i];
      var pieces := Split(raw[i], ',');
      for j := 0 to |pieces|
        invariant filters == ParseFilters(raw[..i]) + Words(pieces[..j])
      {
        assert pieces[..j + 1][..j] == pieces[..j];
        var part := Strip(pieces[j]);
        if part != "" {
          filters := filters + [part];
        }
      }
      assert pieces[..|pieces|] == pieces;
    }
    assert raw[..|raw|] == raw;
  }

  lemma {:induction false} WordsAre(pieces: seq<string>, f: string)
    ensures f in Words(pieces) <==> f != "" && exists i | 0 <= i < |pieces| :: Strip(pieces[i]) == f
  {
    hide Strip;
    if pieces != [] {
      var n := |pieces| - 1;
      WordsAre(pieces[..n], f);
      if f in Words(pieces[..n]) {
        var i :| 0 <= i < n && Strip(pieces[..n][i]) == f;
        assert Strip(pieces[i]) == f;
      }
      if f != "" {
        if i :| 0 <= i < |pieces| && Strip(pieces[i]) == f {
          assert i < n ==> Strip(pieces[..n][i]) == f;
        }
      }
    }
  }

  predicate IsPiece(entry: string, f: string) {
    exists i | 0 <= i < |Split(entry, ',')| :: Strip(Split(entry, ',')[i]) == f
  }

  lemma PiecesAre(entry: string, f: string)
    ensures f in Words(Split(entry, ',')) <==> f != "" && IsPiece(entry, f)
  {
    hide Split, Words, Strip;
    WordsAre(Split(entry, ','), f);
  }

  /** The filters are the pieces between commas, stripped, that are not empty. */
  lemma {:induction false} FiltersAre(raw: seq<string>, f: string)
    ensures f in ParseFilters(raw) <==> f != "" && exists entry | entry in raw :: IsPiece(entry, f)
  {
    hide Split, Words, Strip, IsPiece;
    if raw != [] {
      var init, last := raw[..|raw| - 1], raw[|raw| - 1];
      FiltersAre(init, f);
      PiecesAre(last, f);
      assert forall entry :: entry in raw <==> entry in init || entry == last;
    }
  }

  /** A filter as the user writes it: no comma in it, no space around it. */
  predicate IsWord(w: string) {
    w != "" && ',' !in w && Strip(w) == w
  }

  lemma {:induction false} WordsStay(words: seq<string>)
    requires forall w | w in words :: IsWord(w)
    ensures Words(words) == words
  {
    if words != [] {
      assert IsWord(words[|words| - 1]);
      WordsStay(words[..|words| - 1]);
      assert words == words[..|words| - 1] + [words[|words| - 1]];
    }
  }

  /** `-v a,b -v c` means the same as `-v a -v b -v c`, and each is read back. */
  lemma {:induction false} CommasSeparate(groups: seq<seq<string>>, raw: seq<string>)
    requires |raw| == |groups|
    requires forall i | 0 <= i < |raw| :: groups[i] != [] && raw[i] == Join(groups[i], ",")
    requires forall i, w | 0 <= i < |groups| && w in groups[i] :: IsWord(w)
    ensures ParseFilters(raw) == Flatten(groups)
  {
    if raw != [] {
      var n := |raw| - 1;
      CommasSeparate(groups[..n], raw[..n]);
      forall w | w in groups[n] ensures IsWord(w) {
      }
      SplitJoin(groups[n], ',');
      WordsStay(groups[n]);
    }
  }

  function Flatten(groups: seq<seq<string>>): seq<string> {
    if groups == [] then [] else Flatten(groups[..|groups| - 1]) + groups[|groups| - 1]
  }

  // ── One filter ──────────────────────────────────────────────────

  function FirstTwo(parts: seq<string>): seq<string> {
    if |parts| <= 2 then parts else parts[..2]
  }

  /** `_manifest_version`: the first two components. */
  function ManifestVersion(filter: string): string {
    Join(FirstTwo(Split(filter, '.')), ".")
  }

  lemma {:induction false} SplitHasNoSeparator(s: string, sep: char, w: string)
    requires w in Split(s, sep)
    ensures sep !in w
  {
    if s != [] {
      var rest := Split(s[1..], sep);
      if s[0] == sep {
        if w != "" {
          SplitHasNoSeparator(s[1..], sep, w);
        }
      } else {
        SplitHasNoSeparator(s[1..], sep, rest[0]);
        if w != [s[0]] + rest[0] {
          SplitHasNoSeparator(s[1..], sep, w);
        }
      }
    }
  }

  lemma {:induction false} JoinPrefix(parts: seq<string>, n: nat, sep: string)
    requires n <= |parts|
    ensures Join(parts[..n], sep) <= Join(parts, sep)
  {
    if 1 < n {
      JoinPrefix(parts[1..], n - 1, sep);
      assert parts[..n][1..] == parts[1..][..n - 1];
    }
  }

  /** The manifest version is a prefix of the filter, its own manifest version, and the
      filter itself exactly when that has at most two components. */
  lemma ManifestVersionIsPrefix(filter: string)
    ensures ManifestVersion(filter) <= filter
    ensures ManifestVersion(ManifestVersion(filter)) == ManifestVersion(filter)
    ensures ManifestVersion(filter) == filter <==> |Split(filter, '.')| <= 2
  {
    var parts := Split(filter, '.');
    JoinSplit(filter, '.');
    JoinPrefix(parts, |FirstTwo(parts)|, ".");
    assert parts[..|FirstTwo(parts)|] == FirstTwo(parts);
    forall w | w in FirstTwo(parts) ensures '.' !in w {
      SplitHasNoSeparator(filter, '.', w);
    }
    SplitJoin(FirstTwo(parts), '.');
  }

  /** The manifest version consists of the filter's first two components. */
  lemma ManifestVersionComponents(filter: string)
    ensures var all, two := Split(filter, '.'), Split(ManifestVersion(filter), '.');
      && |two| == (if |all| < 2 then |all| else 2)
      && forall i | 0 <= i < |two| :: two[i] == all[i]
  {
    forall w | w in FirstTwo(Split(filter, '.')) ensures '.' !in w {
      SplitHasNoSeparator(filter, '.', w);
    }
    SplitJoin(FirstTwo(Split(filter, '.')), '.');
  }

  /** Spelled out: "3.0", "3.0.0" and "3.0.0-0" all belong to "3.0". */
  lemma ManifestVersionOf(a: string, b: string, rest: string)
    requires '.' !in a && '.' !in b
    ensures ManifestVersion(a) == a
    ensures ManifestVersion(a + "." + b) == a + "." + b
    ensures ManifestVersion(a + "." + b + "." + rest) == a + "." + b
  {
    hide Split, Join;
    SplitHead(a, b, '.');
    SplitHead(b, rest, '.');
    SplitHead(a, b + "." + rest, '.');
    assert a + "." + b + "." + rest == a + ['.'] + (b + "." + rest) && b + "." + rest == b + ['.'] + rest;
    assert ([a] + ([b] + Split(rest, '.')))[..2] == [a, b];
    assert a + "." + b == a + ['.'] + b && [a] + [b] == [a, b];
    JoinOneOrTwo(a, b);
  }

  lemma JoinOneOrTwo(a: string, b: string)
    ensures Join([a], ".") == a && Join([a, b], ".") == a + "." + b
  {
    assert [a, b][1..] == [b];
  }

  /** `_matches_level`. */
  predicate MatchesLevel(testLevel: string, filter: string) {
    if testLevel == "" then false
    else if filter == testLevel then true
    else '-' !in filter && filter + "-" <= testLevel
  }

  /** A filter matches the level it names, and one without a hyphen also every level that
      is it with a hyphen and more; nothing else, and never a test without a level. */
  lemma MatchesLevelIff(testLevel: string, filter: string)
    ensures MatchesLevel(testLevel, filter)
            <==> && testLevel != ""
                 && (testLevel == filter
                     || ('-' !in filter && exists more: string :: testLevel == filter + "-" + more))
  {
    if filter + "-" <= testLevel {
      assert testLevel == filter + "-" + testLevel[|filter| + 1..];
    }
  }

  predicate IsBare(filter: string) {
    ManifestVersion(filter) == filter
  }

  /** What a filter denotes on its own, within its manifest: everything if it is bare. */
  predicate Denotes(filter: string, testLevel: string) {
    IsBare(filter) || MatchesLevel(testLevel, filter)
  }

  // ── Discovery ───────────────────────────────────────────────────

  function Underscored(s: string): string {
    if s == [] then [] else Underscored(s[..|s| - 1]) + [if s[|s| - 1] == '.' then '_' else s[|s| - 1]]
  }

  function Folder(version: string): string {
    "c" + Underscored(version)
  }

  /** The folder is the version with underscores for dots, after a "c". */
  lemma FolderOf(version: string)
    ensures |Folder(version)| == |version| + 1 && Folder(version)[0] == 'c'
    ensures forall i | 0 <= i < |version| :: Folder(version)[i + 1] == if version[i] == '.' then '_' else version[i]
    ensures Folder("3.0") == "c3_0"
  {
    UnderscoredAt(version);
    UnderscoredAt("3.0");
    assert Underscored("3.0") == "3_0";
  }

  lemma {:induction false} UnderscoredAt(s: string)
    ensures |Underscored(s)| == |s|
    ensures forall i | 0 <= i < |s| :: Underscored(s)[i] == if s[i] == '.' then '_' else s[i]
  {
    if s != [] {
      UnderscoredAt(s[..|s| - 1]);
    }
  }

  function Versions(filters: seq<string>): seq<string> {
    seq(|filters|, i requires 0 <= i < |filters| => ManifestVersion(filters[i]))
  }

  /** Without repetitions, in the order of first mention, as `dict.fromkeys`. */
  function FirstMentions(s: seq<string>): seq<string> {
    if s == [] then []
    else
      var rest, last := FirstMentions(s[..|s| - 1]), s[|s| - 1];
      if last in rest then rest else rest + [last]
  }

  /** The level filters given for a manifest version. */
  function LevelFilters(filters: seq<string>, version: string): seq<string> {
    if filters == [] then []
    else
      var rest, last := LevelFilters(filters[..|filters| - 1], version), filters[|filters| - 1];
      if ManifestVersion(last) == version && !IsBare(last) then rest + [last] else rest
  }

  /** They are those filters that are of this version and not bare, in their order. */
  lemma {:induction false} LevelFiltersJoin(a: seq<string>, b: seq<string>, version: string)
    ensures LevelFilters(a + b, version) == LevelFilters(a, version) + LevelFilters(b, version)
  {
    hide ManifestVersion, IsBare;
    if b == [] {
      assert a + b == a;
    } else {
      var init := b[..|b| - 1];
      LevelFiltersJoin(a, init, version);
      assert (a + b)[..|a + b| - 1] == a + init && (a + b)[|a + b| - 1] == b[|b| - 1];
    }
  }

  lemma OneLevelFilter(f: string, version: string)
    ensures LevelFilters([f], version) == if ManifestVersion(f) == version && f != version then [f] else []
  {
    assert [f][..0] == [];
  }

  /** A manifest to run; no level filters is the whole manifest. */
  datatype Entry = Entry(folder: string, levelFilters: seq<string>)

  function EntryFor(filters: seq<string>, version: string): Entry {
    Entry(Folder(version), if version in filters then [] else LevelFilters(filters, version))
  }

  function Entries(present: seq<string>, filters: seq<string>, versions: seq<string>): seq<Entry> {
    if versions == [] then []
    else
      var rest, last := Entries(present, filters, versions[..|versions| - 1]), versions[|versions| - 1];
      if Folder(last) in present then rest + [EntryFor(filters, last)] else rest
  }

  function Discovered(present: seq<string>, filters: seq<string>): seq<Entry> {
    Entries(present, filters, FirstMentions(Versions(filters)))
  }

  /** The grouping loop: the bare versions, and the level filters of the others. */
  method Group(filters: seq<string>) returns (runAll: set<string>, perManifest: map<string, seq<string>>)
    ensures forall v :: v in runAll <==> v in filters && IsBare(v)
    ensures forall v :: (if v in perManifest then perManifest[v] else []) == LevelFilters(filters, v)
  {
    runAll, perManifest := {}, map[];
    for i := 0 to |filters|
      invariant forall v :: v in runAll <==> v in filters[..i] && IsBare(v)
      invariant forall v :: (if v in perManifest then perManifest[v] else []) == LevelFilters(filters[..i], v)
    {
      assert filters[..i + 1][..i] == filters[..i];
      var mv := ManifestVersion(filters[i]);
      if filters[i] == mv {
        runAll := runAll + {mv};
      } else {
        var so := if mv in perManifest then perManifest[mv] else [];
        perManifest := perManifest[mv := so + [filters[i]]];
      }
    }
    assert filters[..|filters|] == filters;
  }

  /** `dict.fromkeys(...)` as a loop. */
  method Mentions(s: seq<string>) returns (r: seq<string>)
    ensures r == FirstMentions(s)
  {
    r := [];
    for i := 0 to |s|
      invariant r == FirstMentions(s[..i])
    {
      assert s[..i + 1][..i] == s[..i];
      if s[i] !in r {
        r := r + [s[i]];
      }
    }
    assert s[..|s|] == s;
  }

  /** `discover_manifests`; `present` are the folders that hold a manifest, sorted. */
  method DiscoverManifests(present: seq<string>, filters: seq<string>) returns (results: seq<Entry>)
    ensures filters == [] ==> results == seq(|present|, i requires 0 <= i < |present| => Entry(present[i], []))
    ensures filters != [] ==> results == Discovered(present, filters)
  {
    hide ManifestVersion, Folder, FirstMentions, LevelFilters, IsBare;
    if filters == [] {
      return seq(|present|, i requires 0 <= i < |present| => Entry(present[i], []));
    }
    var runAll, perManifest := Group(filters);
    var versions := Mentions(Versions(filters));
    results := [];
    for i := 0 to |versions|
      invariant results == Entries(present, filters, versions[..i])
    {
      assert versions[..i + 1][..i] == versions[..i];
      var mv := versions[i];
      VersionIsBare(filters, mv);
      if Folder(mv) in present {
        results := results
          + [Entry(Folder(mv), if mv in runAll then [] else if mv in perManifest then perManifest[mv] else [])];
      }
    }
    assert versions[..|versions|] == versions;
  }

  lemma {:induction false} MentionsAreMembers(s: seq<string>, x: string)
    ensures x in FirstMentions(s) <==> x in s
  {
    if s != [] {
      MentionsAreMembers(s[..|s| - 1], x);
      assert x in s <==> x in s[..|s| - 1] || x == s[|s| - 1];
    }
  }

  lemma VersionIsBare(filters: seq<string>, version: string)
    requires version in FirstMentions(Versions(filters))
    ensures IsBare(version)
    ensures exists f | f in filters :: ManifestVersion(f) == version
  {
    MentionsAreMembers(Versions(filters), version);
    var i :| 0 <= i < |filters| && Versions(filters)[i] == version;
    ManifestVersionIsPrefix(filters[i]);
    assert filters[i] in filters;
  }

  // ── What is selected ────────────────────────────────────────────

  /** The tests of an entry: `_filter_tests`, which keeps all tests if there are no
      level filters. */
  predicate Selects(e: Entry, testLevel: string) {
    e.levelFilters == [] || exists f | f in e.levelFilters :: MatchesLevel(testLevel, f)
  }

  lemma {:induction false} LevelFiltersAre(filters: seq<string>, version: string, f: string)
    ensures f in LevelFilters(filters, version) <==> f in filters && ManifestVersion(f) == version && !IsBare(f)
  {
    if filters != [] {
      LevelFiltersAre(filters[..|filters| - 1], version, f);
      assert f in filters <==> f in filters[..|filters| - 1] || f == filters[|filters| - 1];
    }
  }

  /** The list of level filters is empty exactly when the bare version was given: a
      version that was mentioned otherwise has filters. */
  lemma EmptyMeansBare(filters: seq<string>, version: string)
    requires version in FirstMentions(Versions(filters))
    ensures EntryFor(filters, version).levelFilters == [] <==> version in filters
  {
    VersionIsBare(filters, version);
    if version !in filters {
      var f :| f in filters && ManifestVersion(f) == version;
      LevelFiltersAre(filters, version, f);
    }
  }

  /** The entry of a version selects what its filters denote. */
  lemma EntrySelects(filters: seq<string>, version: string, testLevel: string)
    requires version in FirstMentions(Versions(filters))
    ensures Selects(EntryFor(filters, version), testLevel)
       <==> exists f | f in filters :: ManifestVersion(f) == version && Denotes(f, testLevel)
  {
    EmptyMeansBare(filters, version);
    VersionIsBare(filters, version);
    var e := EntryFor(filters, version);
    if version in filters {
      assert Denotes(version, testLevel) && ManifestVersion(version) == version;
    } else {
      if Selects(e, testLevel) {
        var f :| f in e.levelFilters && MatchesLevel(testLevel, f);
        LevelFiltersAre(filters, version, f);
        assert Denotes(f, testLevel);
      }
      if f :| f in filters && ManifestVersion(f) == version && Denotes(f, testLevel) {
        LevelFiltersAre(filters, version, f);
        assert f in e.levelFilters;
      }
    }
  }

  lemma {:induction false} EntriesAre(present: seq<string>, filters: seq<string>, versions: seq<string>, e: Entry)
    ensures e in Entries(present, filters, versions)
       <==> exists v | v in versions :: Folder(v) in present && e == EntryFor(filters, v)
  {
    if versions != [] {
      var init, last := versions[..|versions| - 1], versions[|versions| - 1];
      EntriesAre(present, filters, init, e);
      assert forall v :: v in versions <==> v in init || v == last;
    }
  }

  /** Selection is a union: a test of a manifest is selected exactly when some filter
      denotes it on its own. */
  lemma SelectionIsUnion(present: seq<string>, filters: seq<string>, folder: string, testLevel: string)
    requires folder in present
    ensures (exists e | e in Discovered(present, filters) :: e.folder == folder && Selects(e, testLevel))
       <==> (exists f | f in filters :: Folder(ManifestVersion(f)) == folder && Denotes(f, testLevel))
  {
    if e :| e in Discovered(present, filters) && e.folder == folder && Selects(e, testLevel) {
      EntriesAre(present, filters, FirstMentions(Versions(filters)), e);
      var v :| v in FirstMentions(Versions(filters)) && Folder(v) in present && e == EntryFor(filters, v);
      EntrySelects(filters, v, testLevel);
    }
    if f :| f in filters && Folder(ManifestVersion(f)) == folder && Denotes(f, testLevel) {
      var v := ManifestVersion(f);
      var i :| 0 <= i < |filters| && filters[i] == f;
      assert Versions(filters)[i] == v;
      MentionsAreMembers(Versions(filters), v);
      EntrySelects(filters, v, testLevel);
      EntriesAre(present, filters, FirstMentions(Versions(filters)), EntryFor(filters, v));
    }
  }

  // ── Each manifest once ──────────────────────────────────────────

  predicate Distinct(s: seq<string>) {
    forall i, j | 0 <= i < j < |s| :: s[i] != s[j]
  }

  lemma {:induction false} MentionsAreDistinct(s: seq<string>)
    ensures Distinct(FirstMentions(s))
  {
    if s != [] {
      MentionsAreDistinct(s[..|s| - 1]);
    }
  }

  /** The versions whose folders hold a manifest, in order. */
  function Found(present: seq<string>, versions: seq<string>): seq<string> {
    if versions == [] then []
    else
      var rest, last := Found(present, versions[..|versions| - 1]), versions[|versions| - 1];
      if Folder(last) in present then rest + [last] else rest
  }

  lemma {:induction false} FoundAre(present: seq<string>, versions: seq<string>)
    requires Distinct(versions)
    ensures forall v :: v in Found(present, versions) <==> v in versions && Folder(v) in present
    ensures Distinct(Found(present, versions))
  {
    if versions != [] {
      var init, last := versions[..|versions| - 1], versions[|versions| - 1];
      FoundAre(present, init);
      assert forall v :: v in versions <==> v in init || v == last;
      assert last !in init;
    }
  }

  /** Entries follow the order of first mention. */
  lemma {:induction false} EntriesFollow(present: seq<string>, filters: seq<string>, versions: seq<string>)
    ensures |Entries(present, filters, versions)| == |Found(present, versions)|
    ensures forall i | 0 <= i < |Found(present, versions)| ::
              Entries(present, filters, versions)[i] == EntryFor(filters, Found(present, versions)[i])
  {
    if versions != [] {
      EntriesFollow(present, filters, versions[..|versions| - 1]);
    }
  }

  /** A value listed earlier was met before any of a later one. */
  predicate InOrder(s: seq<string>, listed: seq<string>) {
    forall i, j, n | 0 <= i < j < |listed| && 0 <= n < |s| && s[n] == listed[j] :: listed[i] in s[..n]
  }

  lemma {:induction false} MentionsInOrder(s: seq<string>)
    ensures InOrder(s, FirstMentions(s))
  {
    if s != [] {
      var init, r := s[..|s| - 1], FirstMentions(s);
      MentionsInOrder(init);
      MentionsAreDistinct(s);
      forall i, j, n | 0 <= i < j < |r| && 0 <= n < |s| && s[n] == r[j] ensures r[i] in s[..n] {
        assert r[i] == FirstMentions(init)[i];
        MentionsAreMembers(init, r[i]);
        if n < |init| {
          MentionsAreMembers(init, r[j]);
          assert init[n] in init && s[..n] == init[..n];
          assert j < |FirstMentions(init)|;
        } else {
          assert s[..n] == init;
        }
      }
    }
  }

  lemma {:induction false} FoundInOrder(present: seq<string>, versions: seq<string>, s: seq<string>)
    requires InOrder(s, versions)
    ensures InOrder(s, Found(present, versions)) && forall v | v in Found(present, versions) :: v in versions
  {
    if versions != [] {
      var init, last, found := versions[..|versions| - 1], versions[|versions| - 1], Found(present, versions);
      FoundInOrder(present, init, s);
      forall i, j, n | 0 <= i < j < |found| && 0 <= n < |s| && s[n] == found[j] ensures found[i] in s[..n] {
        var rest := Found(present, init);
        assert found[i] == rest[i] && rest[i] in init;
        var k :| 0 <= k < |init| && init[k] == rest[i];
        if j < |rest| {
          assert found[j] == rest[j];
        } else {
          assert versions[k] == found[i] && versions[|versions| - 1] == found[j];
        }
      }
    }
  }

  /** Some filter before the n-th is of this version. */
  predicate AskedBefore(filters: seq<string>, version: string, n: nat)
    requires n <= |filters|
  {
    exists m | 0 <= m < n :: ManifestVersion(filters[m]) == version
  }

  /** The entries follow the filters: that of a version is listed before that of another
      only if some filter of the first was given before every filter of the other. */
  lemma DiscoveredInOrder(present: seq<string>, filters: seq<string>)
    ensures var found := Found(present, FirstMentions(Versions(filters)));
      && |Discovered(present, filters)| == |found|
      && (forall i | 0 <= i < |found| :: Discovered(present, filters)[i] == EntryFor(filters, found[i]))
      && (forall i, j, n | 0 <= i < j < |found| && 0 <= n < |filters| && ManifestVersion(filters[n]) == found[j] ::
            AskedBefore(filters, found[i], n))
  {
    hide Found, FirstMentions, Entries, ManifestVersion, EntryFor;
    var s, versions := Versions(filters), FirstMentions(Versions(filters));
    var found := Found(present, versions);
    MentionsInOrder(s);
    FoundInOrder(present, versions, s);
    EntriesFollow(present, filters, versions);
    forall i, j, n | 0 <= i < j < |found| && 0 <= n < |filters| && ManifestVersion(filters[n]) == found[j]
      ensures AskedBefore(filters, found[i], n)
    {
      assert s[n] == found[j] && found[i] in s[..n];
      var m :| 0 <= m < n && s[m] == found[i];
      assert ManifestVersion(filters[m]) == found[i];
    }
  }

  /** Two versions that were asked for are kept in one folder. */
  predicate Clash(present: seq<string>, filters: seq<string>, f: string, g: string) {
    && f in filters && g in filters && ManifestVersion(f) != ManifestVersion(g)
    && Folder(ManifestVersion(f)) == Folder(ManifestVersion(g)) && Folder(ManifestVersion(f)) in present
  }

  predicate FoldersDiffer(entries: seq<Entry>) {
    forall i, j | 0 <= i < j < |entries| :: entries[i].folder != entries[j].folder
  }

  /** Each manifest is run once, in the order of first mention, exactly when no two
      versions share a folder. */
  lemma OncePerManifest(present: seq<string>, filters: seq<string>)
    ensures var found := Found(present, FirstMentions(Versions(filters)));
      && |Discovered(present, filters)| == |found| && Distinct(found)
      && (forall i | 0 <= i < |found| :: Discovered(present, filters)[i].folder == Folder(found[i]))
    ensures FoldersDiffer(Discovered(present, filters)) <==> forall f, g :: !Clash(present, filters, f, g)
  {
    hide Found, FirstMentions, Entries, ManifestVersion, Folder, IsBare;
    var versions := FirstMentions(Versions(filters));
    MentionsAreDistinct(Versions(filters));
    FoundAre(present, versions);
    EntriesFollow(present, filters, versions);
    if !FoldersDiffer(Discovered(present, filters)) {
      SharedFolderIsClash(present, filters);
    }
    if f, g :| Clash(present, filters, f, g) {
      ClashSharesFolder(present, filters, f, g);
    }
  }

  lemma SharedFolderIsClash(present: seq<string>, filters: seq<string>)
    requires !FoldersDiffer(Discovered(present, filters))
    ensures exists f, g :: Clash(present, filters, f, g)
  {
    hide Found, FirstMentions, Entries, ManifestVersion, Folder, IsBare;
    var versions := FirstMentions(Versions(filters));
    var found, entries := Found(present, versions), Discovered(present, filters);
    MentionsAreDistinct(Versions(filters));
    FoundAre(present, versions);
    EntriesFollow(present, filters, versions);
    var i, j :| 0 <= i < j < |entries| && entries[i].folder == entries[j].folder;
    assert found[i] in found && found[j] in found;
    VersionIsBare(filters, found[i]);
    VersionIsBare(filters, found[j]);
    var f :| f in filters && ManifestVersion(f) == found[i];
    var g :| g in filters && ManifestVersion(g) == found[j];
    assert Clash(present, filters, f, g);
  }

  lemma ClashSharesFolder(present: seq<string>, filters: seq<string>, f: string, g: string)
    requires Clash(present, filters, f, g)
    ensures !FoldersDiffer(Discovered(present, filters))
  {
    hide Found, FirstMentions, Entries, ManifestVersion, Folder, IsBare;
    var versions := FirstMentions(Versions(filters));
    var found, entries := Found(present, versions), Discovered(present, filters);
    EntriesFollow(present, filters, versions);
    VersionIsFound(present, filters, f);
    VersionIsFound(present, filters, g);
    var i :| 0 <= i < |found| && found[i] == ManifestVersion(f);
    var j :| 0 <= j < |found| && found[j] == ManifestVersion(g);
    assert entries[i].folder == entries[j].folder;
    assert i < j || j < i;
  }

  lemma VersionIsFound(present: seq<string>, filters: seq<string>, f: string)
    requires f in filters && Folder(ManifestVersion(f)) in present
    ensures ManifestVersion(f) in Found(present, FirstMentions(Versions(filters)))
  {
    var versions := FirstMentions(Versions(filters));
    var i :| 0 <= i < |filters| && filters[i] == f;
    assert Versions(filters)[i] == ManifestVersion(f);
    MentionsAreMembers(Versions(filters), ManifestVersion(f));
    MentionsAreDistinct(Versions(filters));
    FoundAre(present, versions);
  }

  lemma {:induction false} UnderscoredIsInjective(s: string, t: string)
    requires '_' !in s && '_' !in t && Underscored(s) == Underscored(t)
    ensures s == t
  {
    if s != [] && t != [] {
      var m, n := |s| - 1, |t| - 1;
      assert Underscored(s)[..|Underscored(s)| - 1] == Underscored(s[..m]);
      assert Underscored(t)[..|Underscored(t)| - 1] == Underscored(t[..n]);
      assert s[m] in s && t[n] in t;
      UnderscoredIsInjective(s[..m], t[..n]);
      assert s == s[..m] + [s[m]] && t == t[..n] + [t[n]];
    }
  }

  /** Filters without underscores never clash. */
  lemma UnderscoreFreeNeverClash(present: seq<string>, filters: seq<string>, f: string, g: string)
    requires forall w | w in filters :: '_' !in w
    ensures !Clash(present, filters, f, g)
  {
    if f in filters && g in filters && Folder(ManifestVersion(f)) == Folder(ManifestVersion(g)) {
      ManifestVersionIsPrefix(f);
      ManifestVersionIsPrefix(g);
      var v, w := ManifestVersion(f), ManifestVersion(g);
      assert Underscored(v) == Folder(v)[1..] == Folder(w)[1..] == Underscored(w);
      UnderscoredIsInjective(v, w);
    }
  }

  /** With an underscore, one manifest is run twice. */
  lemma UnderscoreRunsTwice(present: seq<string>)
    requires Folder("3.0") in present
    ensures var found := Discovered(present, ["3.0", "3_0"]); |found| == 2 && found[0] == found[1]
  {
    var filters := ["3.0", "3_0"];
    Split30();
    var versions := Versions(filters);
    assert versions == filters;
    assert versions[..1][..0] == [];
    assert FirstMentions(versions[..1]) == ["3.0"];
    assert FirstMentions(versions) == ["3.0", "3_0"];
    assert Folder("3_0") == Folder("3.0") by {
      assert "3.0"[..2] == "3." && "3."[..1] == "3" && "3"[..0] == "";
      assert "3_0"[..2] == "3_" && "3_"[..1] == "3";
      assert Underscored("3") == "3" && Underscored("3.") == "3_" && Underscored("3_") == "3_";
    }
    assert Entries(present, filters, versions[..1]) == [EntryFor(filters, "3.0")];
  }

  lemma Split30()
    ensures ManifestVersion("3.0") == "3.0" && ManifestVersion("3_0") == "3_0"
  {
    SplitHead("3", "0", '.');
    SplitHead("0", "", '.');
    SplitHead("3_0", "", '.');
    assert "3" + ['.'] + "0" == "3.0";
    ManifestVersionIsPrefix("3.0");
    ManifestVersionIsPrefix("3_0");
  }

  /** The whole: a level filter keeps or drops the tests of a level together, and none
      without a level, as `Certifications.FilteredIsNoHigher` needs. */
  lemma LevelFiltersKeepLevels(tests: seq<Certifications.Test>, e: Entry, t: Certifications.Test)
    requires e.levelFilters != []
    ensures t in Certifications.Kept(tests, (level: string) => Selects(e, level))
       <==> t in tests && Selects(e, t.level)
    ensures !Selects(e, "")
  {
    Certifications.KeptAre(tests, (level: string) => Selects(e, level), t);
  }
}
