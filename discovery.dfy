/**
 * The roster side (`AgentDiscovery`): which agent files are kept, how a
 * slug becomes a display name, the discovered-agent table, the valid-only
 * invocation list, and the completeness and critical-agent checks.  The
 * directory listing, the outcome of reading each file, the configuration
 * and the manifest are parameters.
 */
module Discovery {
  import opened Wrappers
  import opened Text
  import opened Lists
  import opened Config

  /** A file name containing any of these is not an agent definition. */
  const ExcludedPatterns: seq<string> := ["rca-", "template-", "README", "test-", "draft-"]

  /** `any(pattern in filename for pattern in excluded_patterns)`. */
  predicate IsExcluded(filename: string) {
    exists i :: 0 <= i < |ExcludedPatterns| && Contains(filename, ExcludedPatterns[i])
  }

  /** The agent files among `mdFiles`, in listing order. */
  function KeptFiles(mdFiles: seq<string>): seq<string>
    decreases |mdFiles|
  {
    if mdFiles == [] then []
    else
      var last := mdFiles[|mdFiles| - 1];
      KeptFiles(mdFiles[..|mdFiles| - 1]) + (if IsExcluded(last) then [] else [last])
  }

  lemma KeptFilesSnoc(mdFiles: seq<string>, i: nat)
    requires i < |mdFiles|
    ensures KeptFiles(mdFiles[..i + 1]) ==
              KeptFiles(mdFiles[..i]) + (if IsExcluded(mdFiles[i]) then [] else [mdFiles[i]])
  {
    assert mdFiles[..i + 1][..i] == mdFiles[..i];
  }

  lemma {:induction false} KeptFilesMembers(mdFiles: seq<string>)
    ensures forall f :: f in KeptFiles(mdFiles) <==> f in mdFiles && !IsExcluded(f)
    decreases |mdFiles|
  {
    if mdFiles != [] {
      KeptFilesMembers(mdFiles[..|mdFiles| - 1]);
      assert mdFiles == mdFiles[..|mdFiles| - 1] + [mdFiles[|mdFiles| - 1]];
    }
  }

  /**
   * The filtering loop of `discover_all_agents` over the names the `*.md`
   * glob produced: keeps, in order, exactly the names that contain none of
   * the excluded patterns.
   */
  method SelectAgentFiles(mdFiles: seq<string>) returns (agentFiles: seq<string>)
    ensures agentFiles == KeptFiles(mdFiles)
    ensures forall f :: f in agentFiles <==> f in mdFiles && !IsExcluded(f)
  {
    agentFiles := [];
    var i := 0;
    while i < |mdFiles|
      invariant 0 <= i <= |mdFiles|
      invariant agentFiles == KeptFiles(mdFiles[..i])
    {
      KeptFilesSnoc(mdFiles, i);
      var filename := mdFiles[i];
      if !IsExcluded(filename) {
        agentFiles := agentFiles + [filename];
      }
      i := i + 1;
    }
    assert mdFiles[..|mdFiles|] == mdFiles;
    KeptFilesMembers(mdFiles);
  }

  /** `slug.replace("-", " ")`. */
  function DashesToSpaces(slug: string): (r: string)
    ensures |r| == |slug|
    ensures forall i :: 0 <= i < |slug| ==> r[i] == if slug[i] == '-' then ' ' else slug[i]
  {
    seq(|slug|, i requires 0 <= i < |slug| => if slug[i] == '-' then ' ' else slug[i])
  }

  /**
   * `_format_agent_name`: every dash becomes a space; a letter at the start
   * or after a non-letter is raised, any other letter lowered; other
   * characters are kept.
   */
  function FormatAgentName(slug: string): (name: string)
    ensures |name| == |slug|
    ensures forall i :: 0 <= i < |name| ==> name[i] != '-'
    ensures forall i :: 0 <= i < |slug| && slug[i] == '-' ==> name[i] == ' '
    ensures forall i :: 0 <= i < |slug| && IsLetter(slug[i]) ==>
              name[i] == if i == 0 || !IsLetter(slug[i - 1]) then UpperChar(slug[i]) else LowerChar(slug[i])
    ensures forall i :: 0 <= i < |slug| && !IsLetter(slug[i]) && slug[i] != '-' ==> name[i] == slug[i]
  {
    var spaced := DashesToSpaces(slug);
    assert forall i :: 0 <= i < |slug| ==> (IsLetter(spaced[i]) <==> IsLetter(slug[i]));
    Title(spaced)
  }

  /** An agent's table entry: its display name and whether its file could be read. */
  datatype AgentInfo = AgentInfo(name: string, valid: bool)

  /** One kept agent file: its stem and whether reading it succeeded. */
  datatype AgentFile = AgentFile(stem: string, readable: bool)

  /** The `discovered_agents` dictionary: (agent id, info) pairs in insertion order. */
  type AgentTable = seq<(string, AgentInfo)>

  predicate DistinctKeys(d: AgentTable) {
    forall i, j :: 0 <= i < j < |d| ==> d[i].0 != d[j].0
  }

  /** `key in d`. */
  predicate HasKey(d: AgentTable, key: string) {
    exists i :: 0 <= i < |d| && d[i].0 == key
  }

  /** `d.get(key)`. */
  function Lookup(d: AgentTable, key: string): Option<AgentInfo>
    decreases |d|
  {
    if d == [] then None
    else if d[0].0 == key then Some(d[0].1)
    else Lookup(d[1..], key)
  }

  /** `d.get(key)` is present exactly when `key in d`. */
  lemma {:induction false} LookupHasKey(d: AgentTable, key: string)
    ensures Lookup(d, key).Some? <==> HasKey(d, key)
    decreases |d|
  {
    if d != [] && d[0].0 != key {
      LookupHasKey(d[1..], key);
      if HasKey(d, key) {
        var i :| 0 <= i < |d| && d[i].0 == key;
        assert d[1..][i - 1].0 == key;
      }
      if HasKey(d[1..], key) {
        var i :| 0 <= i < |d[1..]| && d[1..][i].0 == key;
        assert d[i + 1].0 == key;
      }
    }
  }

  /** `d[key] = info`: replaces the entry in place when the key is present, appends otherwise. */
  function Put(d: AgentTable, key: string, info: AgentInfo): (r: AgentTable)
    decreases |d|
  {
    if d == [] then [(key, info)]
    else if d[0].0 == key then [(key, info)] + d[1..]
    else [d[0]] + Put(d[1..], key, info)
  }

  lemma HasKeyCons(d: AgentTable, k: string)
    requires d != []
    ensures HasKey(d, k) <==> d[0].0 == k || HasKey(d[1..], k)
  {
    if HasKey(d, k) && d[0].0 != k {
      var i :| 0 <= i < |d| && d[i].0 == k;
      assert d[1..][i - 1].0 == k;
    }
    if HasKey(d[1..], k) {
      var i :| 0 <= i < |d[1..]| && d[1..][i].0 == k;
      assert d[i + 1].0 == k;
    }
  }

  /** Assignment binds `key` to `info` and leaves every other key's binding alone. */
  lemma {:induction false} PutLookup(d: AgentTable, key: string, info: AgentInfo)
    ensures Lookup(Put(d, key, info), key) == Some(info)
    ensures forall k :: k != key ==> Lookup(Put(d, key, info), k) == Lookup(d, k)
    decreases |d|
  {
    if d != [] && d[0].0 != key {
      PutLookup(d[1..], key, info);
      assert Put(d, key, info)[1..] == Put(d[1..], key, info);
    } else if d != [] {
      assert Put(d, key, info)[1..] == d[1..];
    }
  }

  /** After assignment the keys are the old keys plus `key`; the table grows only for a new key. */
  lemma {:induction false} PutKeys(d: AgentTable, key: string, info: AgentInfo)
    ensures forall k :: HasKey(Put(d, key, info), k) <==> HasKey(d, k) || k == key
    ensures |Put(d, key, info)| == if HasKey(d, key) then |d| else |d| + 1
    decreases |d|
  {
    var r := Put(d, key, info);
    if d == [] {
      forall k ensures HasKey(r, k) <==> k == key {
        if k == key {
          assert r[0].0 == k;
        }
      }
    } else {
      HasKeyCons(d, key);
      if d[0].0 == key {
        assert r[1..] == d[1..];
        forall k ensures HasKey(r, k) <==> HasKey(d, k) || k == key {
          HasKeyCons(d, k);
          HasKeyCons(r, k);
        }
      } else {
        PutKeys(d[1..], key, info);
        assert r[1..] == Put(d[1..], key, info);
        forall k ensures HasKey(r, k) <==> HasKey(d, k) || k == key {
          HasKeyCons(d, k);
          HasKeyCons(r, k);
        }
      }
    }
  }

  /** Assignment keeps the keys distinct. */
  lemma {:induction false} PutDistinct(d: AgentTable, key: string, info: AgentInfo)
    requires DistinctKeys(d)
    ensures DistinctKeys(Put(d, key, info))
    decreases |d|
  {
    var r := Put(d, key, info);
    if d != [] && d[0].0 != key {
      var rest := d[1..];
      PutDistinct(rest, key, info);
      PutKeys(rest, key, info);
      var r' := Put(rest, key, info);
      assert r[1..] == r';
      forall m | 0 <= m < |rest| ensures rest[m].0 != d[0].0 {
        assert rest[m] == d[m + 1];
      }
      assert !HasKey(r', d[0].0);
      forall i, j | 0 <= i < j < |r| ensures r[i].0 != r[j].0 {
        assert r'[j - 1] == r[j];
        if i > 0 {
          assert r'[i - 1] == r[i];
        }
      }
    } else if d != [] {
      forall i, j | 0 <= i < j < |r| ensures r[i].0 != r[j].0 {
        assert r[j] == d[j];
        if i > 0 {
          assert r[i] == d[i];
        }
      }
    }
  }

  /** The entry `_process_agent_files` records for one file. */
  function EntryFor(f: AgentFile): AgentInfo {
    AgentInfo(FormatAgentName(f.stem), f.readable)
  }

  /** The table `_process_agent_files` builds, file by file. */
  function ProcessedAgents(files: seq<AgentFile>): AgentTable
    decreases |files|
  {
    if files == [] then []
    else
      var last := files[|files| - 1];
      Put(ProcessedAgents(files[..|files| - 1]), last.stem, EntryFor(last))
  }

  /** The table never holds the same stem twice. */
  lemma {:induction false} ProcessedAgentsDistinct(files: seq<AgentFile>)
    ensures DistinctKeys(ProcessedAgents(files))
    decreases |files|
  {
    if files != [] {
      var init, last := files[..|files| - 1], files[|files| - 1];
      ProcessedAgentsDistinct(init);
      PutDistinct(ProcessedAgents(init), last.stem, EntryFor(last));
    }
  }

  /** The table has a key exactly for each stem among the files. */
  lemma {:induction false} ProcessedAgentsKeys(files: seq<AgentFile>)
    ensures forall k :: HasKey(ProcessedAgents(files), k) <==> exists i :: 0 <= i < |files| && files[i].stem == k
    decreases |files|
  {
    if files != [] {
      var init, last := files[..|files| - 1], files[|files| - 1];
      ProcessedAgentsKeys(init);
      PutKeys(ProcessedAgents(init), last.stem, EntryFor(last));
      forall k ensures HasKey(ProcessedAgents(files), k) <==> exists i :: 0 <= i < |files| && files[i].stem == k {
        if exists i :: 0 <= i < |init| && init[i].stem == k {
          var i :| 0 <= i < |init| && init[i].stem == k;
          assert files[i].stem == k;
        }
        if exists i :: 0 <= i < |files| && files[i].stem == k {
          var i :| 0 <= i < |files| && files[i].stem == k;
          if i < |init| {
            assert init[i].stem == k;
          }
        }
      }
    }
  }

  /** Every entry is named by formatting its own key. */
  lemma {:induction false} ProcessedAgentsNames(files: seq<AgentFile>)
    ensures forall k :: Lookup(ProcessedAgents(files), k).Some? ==>
              Lookup(ProcessedAgents(files), k).value.name == FormatAgentName(k)
    decreases |files|
  {
    if files != [] {
      var init, last := files[..|files| - 1], files[|files| - 1];
      ProcessedAgentsNames(init);
      PutLookup(ProcessedAgents(init), last.stem, EntryFor(last));
    }
  }

  /** With distinct stems, each file's entry records its own name and read outcome. */
  lemma {:induction false} ProcessedAgentsEntries(files: seq<AgentFile>)
    requires forall i, j :: 0 <= i < j < |files| ==> files[i].stem != files[j].stem
    ensures forall i :: 0 <= i < |files| ==> Lookup(ProcessedAgents(files), files[i].stem) == Some(EntryFor(files[i]))
    decreases |files|
  {
    if files != [] {
      var init, last := files[..|files| - 1], files[|files| - 1];
      ProcessedAgentsEntries(init);
      PutLookup(ProcessedAgents(init), last.stem, EntryFor(last));
      forall i | 0 <= i < |files| ensures Lookup(ProcessedAgents(files), files[i].stem) == Some(EntryFor(files[i])) {
        if i < |init| {
          assert init[i] == files[i];
        }
      }
    }
  }

  /** `[name for name, info in d.items() if info.get("valid")]`. */
  function ValidAgents(d: AgentTable): seq<string>
    decreases |d|
  {
    if d == [] then []
    else
      var last := d[|d| - 1];
      ValidAgents(d[..|d| - 1]) + (if last.1.valid then [last.0] else [])
  }

  lemma {:induction false} ValidAgentsMembers(d: AgentTable)
    ensures forall a :: a in ValidAgents(d) <==> exists i :: 0 <= i < |d| && d[i].0 == a && d[i].1.valid
    decreases |d|
  {
    if d != [] {
      var init := d[..|d| - 1];
      ValidAgentsMembers(init);
      forall a ensures a in ValidAgents(d) <==> exists i :: 0 <= i < |d| && d[i].0 == a && d[i].1.valid {
        if exists i :: 0 <= i < |init| && init[i].0 == a && init[i].1.valid {
          var i :| 0 <= i < |init| && init[i].0 == a && init[i].1.valid;
          assert d[i] == init[i];
        }
        if exists i :: 0 <= i < |d| && d[i].0 == a && d[i].1.valid {
          var i :| 0 <= i < |d| && d[i].0 == a && d[i].1.valid;
          if i < |init| {
            assert init[i] == d[i];
          }
        }
      }
    }
  }

  /** The six agent ids `check_for_missing_critical_agents` requires. */
  const HardcodedCriticalAgents: seq<string> := [
    "ai-safety-engineer", "privacy-engineer", "ciso",
    "security-architect", "business-analyst", "project-manager"]

  /** Not discovered, or discovered with an unreadable file. */
  predicate AbsentOrInvalid(d: AgentTable, agent: string) {
    Lookup(d, agent).None? || !Lookup(d, agent).value.valid
  }

  /** The ids of `ids` that are absent or invalid in `d`, in the order of `ids`. */
  function AbsentOrInvalidAgents(ids: seq<string>, d: AgentTable): seq<string>
    decreases |ids|
  {
    if ids == [] then []
    else
      var last := ids[|ids| - 1];
      AbsentOrInvalidAgents(ids[..|ids| - 1], d) + (if AbsentOrInvalid(d, last) then [last] else [])
  }

  lemma AbsentOrInvalidSnoc(ids: seq<string>, i: nat, d: AgentTable)
    requires i < |ids|
    ensures AbsentOrInvalidAgents(ids[..i + 1], d) ==
              AbsentOrInvalidAgents(ids[..i], d) + (if AbsentOrInvalid(d, ids[i]) then [ids[i]] else [])
  {
    assert ids[..i + 1][..i] == ids[..i];
  }

  lemma {:induction false} AbsentOrInvalidMembers(ids: seq<string>, d: AgentTable)
    ensures forall a :: a in AbsentOrInvalidAgents(ids, d) <==> a in ids && AbsentOrInvalid(d, a)
    decreases |ids|
  {
    if ids != [] {
      AbsentOrInvalidMembers(ids[..|ids| - 1], d);
      assert ids == ids[..|ids| - 1] + [ids[|ids| - 1]];
    }
  }

  /** On an empty table every id is reported, in order. */
  lemma {:induction false} EmptyTableMissesAll(ids: seq<string>)
    ensures AbsentOrInvalidAgents(ids, []) == ids
    decreases |ids|
  {
    if ids != [] {
      EmptyTableMissesAll(ids[..|ids| - 1]);
      assert ids == ids[..|ids| - 1] + [ids[|ids| - 1]];
    }
  }

  datatype ValidationIssue =
    | CountMismatch(found: nat, manifestExpects: int)
    | MissingRequiredAgent(agent: string)
    | ExpectedCountMismatch(expected: int, found: nat)
    | InvalidAgentFile(agent: string)

  /** One issue per critical agent that was not discovered, in critical-list order. */
  function MissingRequiredIssues(critical: seq<string>, d: AgentTable): seq<ValidationIssue>
    decreases |critical|
  {
    if critical == [] then []
    else
      var last := critical[|critical| - 1];
      MissingRequiredIssues(critical[..|critical| - 1], d)
      + (if HasKey(d, last) then [] else [MissingRequiredAgent(last)])
  }

  lemma MissingRequiredSnoc(critical: seq<string>, i: nat, d: AgentTable)
    requires i < |critical|
    ensures MissingRequiredIssues(critical[..i + 1], d) ==
              MissingRequiredIssues(critical[..i], d) + (if HasKey(d, critical[i]) then [] else [MissingRequiredAgent(critical[i])])
  {
    assert critical[..i + 1][..i] == critical[..i];
  }

  lemma {:induction false} MissingRequiredMembers(critical: seq<string>, d: AgentTable)
    ensures forall w :: w in MissingRequiredIssues(critical, d) <==>
              w.MissingRequiredAgent? && w.agent in critical && !HasKey(d, w.agent)
    decreases |critical|
  {
    if critical != [] {
      MissingRequiredMembers(critical[..|critical| - 1], d);
      assert critical == critical[..|critical| - 1] + [critical[|critical| - 1]];
    }
  }

  /** One issue per entry whose file could not be read, in table order. */
  function InvalidFileIssues(d: AgentTable): seq<ValidationIssue>
    decreases |d|
  {
    if d == [] then []
    else
      var last := d[|d| - 1];
      InvalidFileIssues(d[..|d| - 1]) + (if last.1.valid then [] else [InvalidAgentFile(last.0)])
  }

  lemma InvalidFileSnoc(d: AgentTable, i: nat)
    requires i < |d|
    ensures InvalidFileIssues(d[..i + 1]) ==
              InvalidFileIssues(d[..i]) + (if d[i].1.valid then [] else [InvalidAgentFile(d[i].0)])
  {
    assert d[..i + 1][..i] == d[..i];
  }

  lemma {:induction false} InvalidFileMembers(d: AgentTable)
    ensures forall w :: w in InvalidFileIssues(d) <==>
              w.InvalidAgentFile? && exists i :: 0 <= i < |d| && d[i].0 == w.agent && !d[i].1.valid
    decreases |d|
  {
    if d != [] {
      var init := d[..|d| - 1];
      InvalidFileMembers(init);
      forall w ensures w in InvalidFileIssues(d) <==>
                         w.InvalidAgentFile? && exists i :: 0 <= i < |d| && d[i].0 == w.agent && !d[i].1.valid
      {
        if w.InvalidAgentFile? && exists i :: 0 <= i < |init| && init[i].0 == w.agent && !init[i].1.valid {
          var i :| 0 <= i < |init| && init[i].0 == w.agent && !init[i].1.valid;
          assert d[i] == init[i];
        }
        if w.InvalidAgentFile? && exists i :: 0 <= i < |d| && d[i].0 == w.agent && !d[i].1.valid {
          var i :| 0 <= i < |d| && d[i].0 == w.agent && !d[i].1.valid;
          if i < |init| {
            assert init[i] == d[i];
          }
        }
      }
    }
  }

  /** `expected_count` is truthy: given and not zero. */
  predicate ExpectedCountGiven(expectedCount: Option<int>) {
    expectedCount.Some? && expectedCount.value != 0
  }

  /** The manifest checks: its `total_agents` (0 when absent) and its critical agents. */
  function ManifestIssues(d: AgentTable, manifest: Option<Manifest>): seq<ValidationIssue> {
    match manifest
    case None => []
    case Some(m) =>
      (if |d| != m.totalAgents.GetOr(0) then [CountMismatch(|d|, m.totalAgents.GetOr(0))] else [])
      + MissingRequiredIssues(m.criticalAgents, d)
  }

  function ExpectedCountIssues(d: AgentTable, expectedCount: Option<int>): seq<ValidationIssue> {
    if ExpectedCountGiven(expectedCount) && |d| != expectedCount.value
    then [ExpectedCountMismatch(expectedCount.value, |d|)] else []
  }

  /** The issue list of `validate_completeness`, in the order the checks run. */
  function CompletenessIssues(d: AgentTable, manifest: Option<Manifest>, expectedCount: Option<int>): seq<ValidationIssue> {
    ManifestIssues(d, manifest) + ExpectedCountIssues(d, expectedCount) + InvalidFileIssues(d)
  }

  /** When `w` is an issue of table `d` against the manifest and the expected count. */
  ghost predicate IsCompletenessIssue(d: AgentTable, manifest: Option<Manifest>, expectedCount: Option<int>, w: ValidationIssue) {
    match w
    case CountMismatch(n, e) =>
      manifest.Some? && n == |d| && e == manifest.value.totalAgents.GetOr(0) && n != e
    case MissingRequiredAgent(a) =>
      manifest.Some? && a in manifest.value.criticalAgents && !HasKey(d, a)
    case ExpectedCountMismatch(e, n) =>
      ExpectedCountGiven(expectedCount) && e == expectedCount.value && n == |d| && n != e
    case InvalidAgentFile(a) =>
      exists i :: 0 <= i < |d| && d[i].0 == a && !d[i].1.valid
  }

  /**
   * Each kind of issue appears exactly when its check fails: a count
   * mismatch against the manifest's `total_agents` (when there is a
   * manifest), one per undiscovered critical agent, a mismatch against a
   * truthy `expected_count`, and one per invalid entry.
   */
  lemma CompletenessIssuesSpec(d: AgentTable, manifest: Option<Manifest>, expectedCount: Option<int>)
    ensures forall w :: w in CompletenessIssues(d, manifest, expectedCount) <==>
              IsCompletenessIssue(d, manifest, expectedCount, w)
  {
    if manifest.Some? {
      MissingRequiredMembers(manifest.value.criticalAgents, d);
    }
    InvalidFileMembers(d);
  }

  /**
   * The table passes validation iff it matches the manifest's count and
   * holds its critical agents (when there is a manifest), matches a truthy
   * expected count, and has no invalid entry.
   */
  lemma CompletenessValidIff(d: AgentTable, manifest: Option<Manifest>, expectedCount: Option<int>)
    ensures CompletenessIssues(d, manifest, expectedCount) == [] <==>
              && (manifest.Some? ==> |d| == manifest.value.totalAgents.GetOr(0)
                                     && forall c :: c in manifest.value.criticalAgents ==> HasKey(d, c))
              && (ExpectedCountGiven(expectedCount) ==> |d| == expectedCount.value)
              && (forall i :: 0 <= i < |d| ==> d[i].1.valid)
  {
    var issues := CompletenessIssues(d, manifest, expectedCount);
    CompletenessIssuesSpec(d, manifest, expectedCount);
    NonEmptyHasMember(issues);
    if manifest.Some? {
      assert IsCompletenessIssue(d, manifest, expectedCount, CountMismatch(|d|, manifest.value.totalAgents.GetOr(0)))
        <==> |d| != manifest.value.totalAgents.GetOr(0);
      forall c | c in manifest.value.criticalAgents && !HasKey(d, c) ensures MissingRequiredAgent(c) in issues {
        assert IsCompletenessIssue(d, manifest, expectedCount, MissingRequiredAgent(c));
      }
    }
    if ExpectedCountGiven(expectedCount) {
      assert IsCompletenessIssue(d, manifest, expectedCount, ExpectedCountMismatch(expectedCount.value, |d|))
        <==> |d| != expectedCount.value;
    }
    forall i | 0 <= i < |d| && !d[i].1.valid ensures InvalidAgentFile(d[i].0) in issues {
      assert IsCompletenessIssue(d, manifest, expectedCount, InvalidAgentFile(d[i].0));
    }
  }

  /** The `for agent in manifest['critical_agents']` loop of `validate_completeness`. */
  method AppendMissingRequired(issues: seq<ValidationIssue>, critical: seq<string>, d: AgentTable)
    returns (extended: seq<ValidationIssue>)
    ensures extended == issues + MissingRequiredIssues(critical, d)
  {
    extended := issues;
    var i := 0;
    while i < |critical|
      invariant 0 <= i <= |critical|
      invariant extended == issues + MissingRequiredIssues(critical[..i], d)
    {
      MissingRequiredSnoc(critical, i, d);
      if !HasKey(d, critical[i]) {
        extended := extended + [MissingRequiredAgent(critical[i])];
      }
      i := i + 1;
    }
    assert critical[..|critical|] == critical;
  }

  /** The `for agent_id, info in self.discovered_agents.items()` loop of `validate_completeness`. */
  method AppendInvalidFiles(issues: seq<ValidationIssue>, d: AgentTable)
    returns (extended: seq<ValidationIssue>)
    ensures extended == issues + InvalidFileIssues(d)
  {
    extended := issues;
    var j := 0;
    while j < |d|
      invariant 0 <= j <= |d|
      invariant extended == issues + InvalidFileIssues(d[..j])
    {
      InvalidFileSnoc(d, j);
      if !d[j].1.valid {
        extended := extended + [InvalidAgentFile(d[j].0)];
      }
      j := j + 1;
    }
    assert d[..|d|] == d;
  }

  class AgentDiscovery {
    /** `self.discovered_agents`. */
    var discoveredAgents: AgentTable

    ghost predicate Valid()
      reads this
    {
      DistinctKeys(discoveredAgents)
    }

    constructor ()
      ensures Valid() && discoveredAgents == []
    {
      discoveredAgents := [];
    }

    /**
     * `_process_agent_files`: one entry per file, keyed by stem, valid iff
     * the file could be read; the table replaces `discovered_agents`.
     */
    method ProcessAgentFiles(files: seq<AgentFile>) returns (agents: AgentTable)
      modifies this
      ensures agents == ProcessedAgents(files)
      ensures discoveredAgents == agents
      ensures Valid()
    {
      agents := [];
      var i := 0;
      while i < |files|
        invariant 0 <= i <= |files|
        invariant agents == ProcessedAgents(files[..i])
      {
        assert files[..i + 1][..i] == files[..i];
        var f := files[i];
        agents := Put(agents, f.stem, AgentInfo(FormatAgentName(f.stem), f.readable));
        i := i + 1;
      }
      assert files[..|files|] == files;
      ProcessedAgentsDistinct(files);
      discoveredAgents := agents;
    }

    /** `validate_completeness`, with the manifest file's contents (if it exists) passed in. */
    method ValidateCompleteness(manifest: Option<Manifest>, expectedCount: Option<int>)
      returns (isValid: bool, issues: seq<ValidationIssue>)
      requires Valid()
      ensures issues == CompletenessIssues(discoveredAgents, manifest, expectedCount)
      ensures isValid <==> issues == []
    {
      var d := discoveredAgents;
      issues := [];
      var actualCount := |d|;

      if manifest.Some? {
        var manifestCount := manifest.value.totalAgents.GetOr(0);
        if actualCount != manifestCount {
          issues := issues + [CountMismatch(actualCount, manifestCount)];
        }
        issues := AppendMissingRequired(issues, manifest.value.criticalAgents, d);
      }
      assert issues == ManifestIssues(d, manifest);

      if ExpectedCountGiven(expectedCount) && actualCount != expectedCount.value {
        issues := issues + [ExpectedCountMismatch(expectedCount.value, actualCount)];
      }

      assert issues == ManifestIssues(d, manifest) + ExpectedCountIssues(d, expectedCount);
      issues := AppendInvalidFiles(issues, d);

      isValid := |issues| == 0;
    }

    /**
     * `generate_invocation_list`: "whole_team" and "all" are answered before
     * any rule; a rule's "all", an unknown type and those two give the valid
     * discovered agents in discovery order; otherwise the rule's or preset's
     * literal list (empty when it has no `agents` field).
     */
    function GenerateInvocationList(cfg: OrchConfig, requestType: string): (agents: seq<string>)
      reads this
      requires Valid()
      ensures requestType == "whole_team" || requestType == "all" ==> agents == ValidAgents(discoveredAgents)
      ensures requestType != "whole_team" && requestType != "all" && requestType in cfg.invocationRules ==>
                agents == match cfg.invocationRules[requestType].agents
                          case Some(All) => ValidAgents(discoveredAgents)
                          case Some(Listed(l)) => l
                          case None => []
      ensures requestType != "whole_team" && requestType != "all" && requestType !in cfg.invocationRules
              && requestType in cfg.presets ==>
                agents == cfg.presets[requestType].agents.GetOr([])
      ensures requestType != "whole_team" && requestType != "all" && requestType !in cfg.invocationRules
              && requestType !in cfg.presets ==>
                agents == ValidAgents(discoveredAgents)
    {
      var valid := ValidAgents(discoveredAgents);
      if requestType == "whole_team" || requestType == "all" then valid
      else if requestType in cfg.invocationRules then
        match cfg.invocationRules[requestType].agents
        case Some(All) => valid
        case Some(Listed(l)) => l
        case None => []
      else if requestType in cfg.presets then cfg.presets[requestType].agents.GetOr([])
      else valid
    }

    /** `check_for_missing_critical_agents`: the hardcoded ids absent or invalid, in list order. */
    method CheckForMissingCriticalAgents() returns (missing: seq<string>)
      requires Valid()
      ensures missing == AbsentOrInvalidAgents(HardcodedCriticalAgents, discoveredAgents)
      ensures forall a :: a in missing <==> a in HardcodedCriticalAgents && AbsentOrInvalid(discoveredAgents, a)
    {
      var critical := HardcodedCriticalAgents;
      missing := [];
      var i := 0;
      while i < |critical|
        invariant 0 <= i <= |critical|
        invariant missing == AbsentOrInvalidAgents(critical[..i], discoveredAgents)
      {
        AbsentOrInvalidSnoc(critical, i, discoveredAgents);
        var agent := critical[i];
        LookupHasKey(discoveredAgents, agent);
        if !HasKey(discoveredAgents, agent) || !Lookup(discoveredAgents, agent).value.valid {
          missing := missing + [agent];
        }
        i := i + 1;
      }
      assert critical[..|critical|] == critical;
      AbsentOrInvalidMembers(critical, discoveredAgents);
    }
  }
}

/** Concrete consequences of the roster rules. */
module DiscoveryScenarios {
  import opened Text
  import opened Discovery

  /** The exclusion test is a substring test: "contest-" contains "test-". */
  lemma ContestFileIsExcluded()
    ensures IsExcluded("contest-judge.md")
  {
    assert OccursAt("contest-judge.md", "test-", 3);
    ContainsIff("contest-judge.md", "test-");
    assert ExcludedPatterns[3] == "test-";
  }

  /**
   * A name without 'c', 't', 'R' and 'f' contains no excluded pattern; in
   * particular the test is case-sensitive and a lower-case "readme" is kept.
   */
  lemma KeptWithoutPatternLetters(filename: string)
    requires 'c' !in filename && 't' !in filename && 'R' !in filename && 'f' !in filename
    ensures !IsExcluded(filename)
  {
    NotContainsByChar(filename, "rca-", 1);
    NotContainsByChar(filename, "template-", 0);
    NotContainsByChar(filename, "README", 0);
    NotContainsByChar(filename, "test-", 0);
    NotContainsByChar(filename, "draft-", 3);
  }

  lemma LowerCaseReadmeIsKept()
    ensures !IsExcluded("readme.md")
  {
    KeptWithoutPatternLetters("readme.md");
  }

  /** Before any file is processed, every hardcoded critical agent is reported. */
  lemma EmptyTableMissesAllCritical()
    ensures AbsentOrInvalidAgents(HardcodedCriticalAgents, []) == HardcodedCriticalAgents
  {
    EmptyTableMissesAll(HardcodedCriticalAgents);
  }
}
