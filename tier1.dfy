/**
 * Tier 1 of the acquisition pipeline (`TestExtractionPipeline`): for every
 * dataset commit, bare-clone its project once, map each changed Java file
 * to the test files that may exercise it, fetch each such file at the
 * commit with `git show`, and collect the JUnit test methods it declares.
 */
module Tier1 {
  import opened Wrappers
  import opened Text
  import opened PathHeuristics
  import opened Extraction
  import opened Records

  /** The counters of `self.stats`. */
  datatype Tier1Stats = Tier1Stats(
    commitsProcessed: nat, filesChecked: nat, candidatesTried: nat, testFilesFound: nat,
    methodsExtracted: nat, zeroTestCommits: nat, cloneFailures: nat)

  /** The per-commit result dictionary; `test_methods` is `|tests|`. */
  datatype CommitResult = CommitResult(
    project: string, sha: string, filesChecked: nat, testFilesFound: nat, tests: seq<Test>)

  /** What a run over the candidate files of one commit has gathered. */
  datatype Harvest = Harvest(found: nat, tests: seq<Test>)

  /** Where the bare clone of a project lives. */
  function RepoDir(reposDir: string, project: string): string {
    reposDir + "/" + project + ".git"
  }

  /**
   * What `clone_repo` answers for a project it has not seen before: the
   * repository directory when it already exists or `git clone --bare`
   * exits 0, and nothing when the clone fails or raises.
   */
  function CloneOutcome(w: World, reposDir: string, project: string): Option<string> {
    var dir := RepoDir(reposDir, project);
    if w.onDisk(dir) then Some(dir)
    else
      match w.clone(project)
      case Exit(code, _, _) => if code == 0 then Some(dir) else None
      case Raised => None
  }

  /** The projects whose cached clone outcome is a failure. */
  function FailedClones(cloned: map<string, Option<string>>): set<string> {
    set p | p in cloned && cloned[p].None?
  }

  /** The changed files that name a Java source (`fpath` non-empty and ending in `.java`). */
  function JavaFiles(names: seq<string>): (r: seq<string>)
    ensures forall f | f in r :: f in names && EndsWith(f, ".java")
    ensures forall f | f in names && EndsWith(f, ".java") :: f in r
  {
    if names == [] then []
    else
      var last := names[|names| - 1];
      JavaFiles(names[..|names| - 1]) + (if EndsWith(last, ".java") then [last] else [])
  }

  /** The test files tried for one changed Java file: itself when it is a test file, else its derived candidates. */
  function CandidatesOf(f: string): seq<string> {
    if IsTestFile(f) then [f] else FindTestCandidates(f)
  }

  /** The candidates of every changed Java file, in file order, repetitions included. */
  function AllCandidates(names: seq<string>): seq<string> {
    if names == [] then []
    else
      var last := names[|names| - 1];
      AllCandidates(names[..|names| - 1]) + (if EndsWith(last, ".java") then CandidatesOf(last) else [])
  }

  /** The set of the elements, built in order. */
  function Elems(xs: seq<string>): set<string> {
    if xs == [] then {} else Elems(xs[..|xs| - 1]) + {xs[|xs| - 1]}
  }

  /** The first occurrence of every element, in order (the effect of `seen_test_paths`). */
  function Dedup(xs: seq<string>): seq<string> {
    if xs == [] then []
    else
      var init := xs[..|xs| - 1];
      Dedup(init) + (if xs[|xs| - 1] in Elems(init) then [] else [xs[|xs| - 1]])
  }

  /** Fetch every path at the commit; count the files that exist and collect their test methods. */
  ghost function HarvestOf(w: World, project: string, sha: string, paths: seq<string>, tier: Option<nat>): Harvest {
    if paths == [] then Harvest(0, [])
    else
      var h := HarvestOf(w, project, sha, paths[..|paths| - 1], tier);
      var p := paths[|paths| - 1];
      match GitShow(w, project, sha, p)
      case None => h
      case Some(content) => Harvest(h.found + 1, h.tests + TestsOfFile(w, project, sha, p, content, tier))
  }

  /** The distinct candidate paths `process_commit` fetches for a commit whose project cloned. */
  function TriedPaths(c: Commit): seq<string> {
    Dedup(AllCandidates(FileNames(c.files)))
  }

  /** The result of `process_commit`, given that the clone outcome is the one of `CloneOutcome`. */
  ghost function CommitOutcome(w: World, reposDir: string, c: Commit): CommitResult {
    if CloneOutcome(w, reposDir, c.project).None? then CommitResult(c.project, c.sha, 0, 0, [])
    else
      var h := HarvestOf(w, c.project, c.sha, TriedPaths(c), None);
      CommitResult(c.project, c.sha, |JavaFiles(FileNames(c.files))|, h.found, h.tests)
  }

  /** How many candidates `process_commit` adds to `test_candidates_tried` for a commit. */
  ghost function Tried(w: World, reposDir: string, c: Commit): nat {
    if CloneOutcome(w, reposDir, c.project).None? then 0 else |TriedPaths(c)|
  }

  /** The result of each commit. */
  ghost function OutcomeOf(w: World, reposDir: string): Commit -> CommitResult {
    c => CommitOutcome(w, reposDir, c)
  }

  /** The candidate count of each commit. */
  ghost function TriedOf(w: World, reposDir: string): Commit -> nat {
    c => Tried(w, reposDir, c)
  }

  /** The commit records among the dataset lines; blank and malformed lines are skipped. */
  function Commits(lines: seq<Line>): (r: seq<Commit>)
    ensures |r| <= |lines|
    ensures forall c | c in r :: Record(c) in lines
  {
    if lines == [] then []
    else
      var last := lines[|lines| - 1];
      Commits(lines[..|lines| - 1]) + (if last.Record? then [last.commit] else [])
  }

  /**
   * The lines `process_dataset` reads before `if limit and idx > limit` stops
   * it: all of them when there is no limit or it is 0, none for a negative
   * limit, and the first `limit` otherwise.
   */
  function Window(lines: seq<Line>, limit: Option<int>): seq<Line> {
    if limit.None? || limit.value == 0 then lines
    else if limit.value < 0 then []
    else if limit.value < |lines| then lines[..limit.value]
    else lines
  }

  /** The results of processing the commits in turn, given the result of each commit. */
  function Outcomes(outcome: Commit -> CommitResult, cs: seq<Commit>): seq<CommitResult> {
    if cs == [] then []
    else Outcomes(outcome, cs[..|cs| - 1]) + [outcome(cs[|cs| - 1])]
  }

  /** The tests of the results, concatenated. */
  function TestsOf(results: seq<CommitResult>): seq<Test> {
    if results == [] then []
    else TestsOf(results[..|results| - 1]) + results[|results| - 1].tests
  }

  /** The commits for which processing yields no test method. */
  function ZeroCommits(outcome: Commit -> CommitResult, cs: seq<Commit>): seq<Commit> {
    if cs == [] then []
    else
      var c := cs[|cs| - 1];
      ZeroCommits(outcome, cs[..|cs| - 1]) + (if outcome(c).tests == [] then [c] else [])
  }

  /** The counters after one more commit (all but `clone_failures`, which the clone cache keeps). */
  function Bump(s: Tier1Stats, r: CommitResult, tried: nat): Tier1Stats {
    s.(commitsProcessed := s.commitsProcessed + 1,
       filesChecked := s.filesChecked + r.filesChecked,
       candidatesTried := s.candidatesTried + tried,
       testFilesFound := s.testFilesFound + r.testFilesFound,
       methodsExtracted := s.methodsExtracted + |r.tests|,
       zeroTestCommits := s.zeroTestCommits + (if r.tests == [] then 1 else 0))
  }

  /** The counters after processing the commits in turn, given each commit's result and candidate count. */
  function Accumulate(s: Tier1Stats, outcome: Commit -> CommitResult, tried: Commit -> nat,
                      cs: seq<Commit>): Tier1Stats {
    if cs == [] then s
    else
      var c := cs[|cs| - 1];
      Bump(Accumulate(s, outcome, tried, cs[..|cs| - 1]), outcome(c), tried(c))
  }

  /** The projects of the commits. */
  function Projects(cs: seq<Commit>): set<string> {
    set c | c in cs :: c.project
  }

  /**
   * The state `process_dataset` reaches once it has processed the commits
   * `cs`, starting from the counters `s0`, the lists `tests0` and `zeros0`
   * and the cached projects `keys0`: one result per commit, every test kept,
   * every commit without tests remembered, the counters added up and every
   * project cached.
   */
  predicate Matches(outcome: Commit -> CommitResult, tried: Commit -> nat, cs: seq<Commit>,
                    results: seq<CommitResult>,
                    s0: Tier1Stats, tests0: seq<Test>, zeros0: seq<Commit>, keys0: set<string>,
                    stats: Tier1Stats, allTests: seq<Test>, zeros: seq<Commit>, keys: set<string>)
  {
    && results == Outcomes(outcome, cs)
    && allTests == tests0 + TestsOf(results)
    && zeros == zeros0 + ZeroCommits(outcome, cs)
    && stats == Accumulate(s0, outcome, tried, cs).(cloneFailures := stats.cloneFailures)
    && keys == keys0 + Projects(cs)
  }

  /** The Tier 1 extractor and the state it accumulates over a dataset. */
  class TestExtractionPipeline {
    const world: World
    const reposDir: string
    /** The result `process_commit` gives for each commit, which `Valid` ties to `CommitOutcome`. */
    ghost const outcome: Commit -> CommitResult
    /** The candidates `process_commit` tries for each commit, which `Valid` ties to `Tried`. */
    ghost const tried: Commit -> nat
    /** `_cloned`: the clone outcome per project seen so far. */
    var cloned: map<string, Option<string>>
    /** The projects `git clone` has been run for, in order. */
    ghost var clones: seq<string>
    var stats: Tier1Stats
    var allTests: seq<Test>
    var commitsWithoutTests: seq<Commit>

    /**
     * The cache holds the real clone outcome of every project it names,
     * `git clone` ran once for each cached project that was not already on
     * disk and never twice for one project, `clone_failures` counts the
     * projects that failed, and the counters agree with the lists.
     */
    ghost predicate Valid()
      reads this
    {
      (forall c {:trigger CommitOutcome(world, reposDir, c)} :: outcome(c) == CommitOutcome(world, reposDir, c))
      && (forall c {:trigger Tried(world, reposDir, c)} :: tried(c) == Tried(world, reposDir, c))
      && (forall p | p in cloned :: cloned[p] == CloneOutcome(world, reposDir, p))
      && (forall i, j | 0 <= i < j < |clones| :: clones[i] != clones[j])
      && (forall p | p in clones :: p in cloned && !world.onDisk(RepoDir(reposDir, p)))
      && (forall p | p in cloned && !world.onDisk(RepoDir(reposDir, p)) :: p in clones)
      && stats.cloneFailures == |FailedClones(cloned)|
      && stats.methodsExtracted == |allTests|
      && stats.zeroTestCommits == |commitsWithoutTests| <= stats.commitsProcessed
      && stats.testFilesFound <= stats.candidatesTried
    }

    constructor (world: World, reposDir: string)
      ensures Valid()
      ensures this.world == world && this.reposDir == reposDir
      ensures outcome == OutcomeOf(world, reposDir) && tried == TriedOf(world, reposDir)
      ensures cloned == map[] && clones == [] && allTests == [] && commitsWithoutTests == []
      ensures stats == Tier1Stats(0, 0, 0, 0, 0, 0, 0)
    {
      this.world := world;
      this.reposDir := reposDir;
      outcome := OutcomeOf(world, reposDir);
      tried := TriedOf(world, reposDir);
      cloned := map[];
      clones := [];
      stats := Tier1Stats(0, 0, 0, 0, 0, 0, 0);
      allTests := [];
      commitsWithoutTests := [];
      new;
      assert FailedClones(cloned) == {};
    }

    /**
     * `clone_repo`: the cached outcome when the project was seen before;
     * otherwise the existing directory, or the outcome of one `git clone`,
     * which is cached and counted when it fails.
     */
    method CloneRepo(project: string) returns (dir: Option<string>)
      requires Valid()
      modifies this
      ensures Valid()
      ensures dir == CloneOutcome(world, reposDir, project)
      ensures cloned == old(cloned)[project := dir]
      ensures clones == old(clones)
        + (if project !in old(cloned) && !world.onDisk(RepoDir(reposDir, project)) then [project] else [])
      ensures stats == old(stats).(cloneFailures := stats.cloneFailures)
      ensures stats.cloneFailures == old(stats.cloneFailures) + (if project !in old(cloned) && dir.None? then 1 else 0)
      ensures allTests == old(allTests) && commitsWithoutTests == old(commitsWithoutTests)
    {
      if project in cloned {
        dir := cloned[project];
        assert cloned == cloned[project := dir];
        return;
      }
      var repoDir := RepoDir(reposDir, project);
      if world.onDisk(repoDir) {
        dir := Some(repoDir);
      } else {
        assert project !in clones;
        clones := clones + [project];
        var r := world.clone(project);
        if r.Exit? && r.code == 0 {
          dir := Some(repoDir);
        } else {
          dir := None;
        }
      }
      FailedCount(cloned, project, dir);
      cloned := cloned[project := dir];
      stats := stats.(cloneFailures := |FailedClones(cloned)|);
    }

    /**
     * `process_commit`: clone the project, then for every changed Java file
     * try its candidate test files, each path at most once, and collect
     * the test methods of the files that exist at the commit.
     */
    method ProcessCommit(c: Commit) returns (result: CommitResult)
      requires Valid()
      modifies this
      ensures Valid()
      ensures result == outcome(c)
      ensures cloned == old(cloned)[c.project := CloneOutcome(world, reposDir, c.project)]
      ensures stats == old(stats).(candidatesTried := old(stats.candidatesTried) + tried(c),
                                   testFilesFound := old(stats.testFilesFound) + result.testFilesFound,
                                   cloneFailures := stats.cloneFailures)
      ensures stats.cloneFailures == |FailedClones(cloned)|
      ensures allTests == old(allTests) && commitsWithoutTests == old(commitsWithoutTests)
    {
      assert outcome(c) == CommitOutcome(world, reposDir, c) && tried(c) == Tried(world, reposDir, c);
      result := CommitResult(c.project, c.sha, 0, 0, []);
      var dir := CloneRepo(c.project);
      if dir.None? {
        return;
      }
      var filesChecked, found, triedCount, tests := ScanCommitFiles(world, c);
      stats := stats.(candidatesTried := stats.candidatesTried + triedCount,
                      testFilesFound := stats.testFilesFound + found);
      result := CommitResult(c.project, c.sha, filesChecked, found, tests);
    }

    /**
     * One record of `process_dataset`: process the commit, add its counts,
     * keep its tests, and remember it when it yielded none.
     */
    method RecordCommit(c: Commit) returns (r: CommitResult)
      requires Valid()
      modifies this
      ensures Valid()
      ensures r == outcome(c)
      ensures allTests == old(allTests) + r.tests
      ensures commitsWithoutTests == old(commitsWithoutTests) + (if r.tests == [] then [c] else [])
      ensures stats == Bump(old(stats), r, tried(c)).(cloneFailures := stats.cloneFailures)
      ensures cloned.Keys == old(cloned).Keys + {c.project}
    {
      r := ProcessCommit(c);
      Tally(c, r);
    }

    /** The bookkeeping of `process_dataset` after a commit: count it, keep its tests, remember it when it has none. */
    method Tally(c: Commit, r: CommitResult)
      requires Valid()
      modifies this
      ensures Valid()
      ensures allTests == old(allTests) + r.tests
      ensures commitsWithoutTests == old(commitsWithoutTests) + (if r.tests == [] then [c] else [])
      ensures stats == old(stats).(commitsProcessed := old(stats.commitsProcessed) + 1,
                                   filesChecked := old(stats.filesChecked) + r.filesChecked,
                                   methodsExtracted := old(stats.methodsExtracted) + |r.tests|,
                                   zeroTestCommits := old(stats.zeroTestCommits) + (if r.tests == [] then 1 else 0))
      ensures cloned == old(cloned) && clones == old(clones)
    {
      stats := stats.(commitsProcessed := stats.commitsProcessed + 1,
                      filesChecked := stats.filesChecked + r.filesChecked,
                      methodsExtracted := stats.methodsExtracted + |r.tests|);
      if r.tests == [] {
        stats := stats.(zeroTestCommits := stats.zeroTestCommits + 1);
        commitsWithoutTests := commitsWithoutTests + [c];
      }
      allTests := allTests + r.tests;
    }

    /** What `process_dataset` has done once it has processed the commits `cs` (see `Matches`). */
    ghost predicate Reached(cs: seq<Commit>, results: seq<CommitResult>, s0: Tier1Stats,
                            tests0: seq<Test>, zeros0: seq<Commit>, keys0: set<string>)
      reads this
    {
      Matches(outcome, tried, cs, results, s0, tests0, zeros0, keys0, stats, allTests, commitsWithoutTests, cloned.Keys)
    }

    /** One line of `process_dataset`: a commit record is processed, a blank or malformed line skipped. */
    method ProcessLine(lines: seq<Line>, i: nat, results0: seq<CommitResult>, ghost s0: Tier1Stats,
                       ghost tests0: seq<Test>, ghost zeros0: seq<Commit>, ghost keys0: set<string>)
      returns (results: seq<CommitResult>, next: nat)
      requires i < |lines|
      requires Valid() && Reached(Commits(lines[..i]), results0, s0, tests0, zeros0, keys0)
      modifies this
      ensures next == i + 1
      ensures Valid() && Reached(Commits(lines[..next]), results, s0, tests0, zeros0, keys0)
    {
      results, next := results0, i + 1;
      CommitsSnoc(lines, i);
      if !lines[i].Record? {
        assert Commits(lines[..i + 1]) == Commits(lines[..i]);
        return;
      }
      results := RecordStep(Commits(lines[..i]), lines[i].commit, results, s0, tests0, zeros0, keys0);
    }

    /** A commit record of `process_dataset`: the commit is processed and its result appended. */
    method RecordStep(ghost cs: seq<Commit>, c: Commit, results0: seq<CommitResult>, ghost s0: Tier1Stats,
                      ghost tests0: seq<Test>, ghost zeros0: seq<Commit>, ghost keys0: set<string>)
      returns (results: seq<CommitResult>)
      requires Valid() && Reached(cs, results0, s0, tests0, zeros0, keys0)
      modifies this
      ensures Valid() && Reached(cs + [c], results, s0, tests0, zeros0, keys0)
    {
      ghost var stats0, allTests0, zeros, keys := stats, allTests, commitsWithoutTests, cloned.Keys;
      var r := RecordCommit(c);
      MatchesSnoc(outcome, tried, cs, c, results0, r, s0, tests0, zeros0, keys0,
                  stats0, allTests0, zeros, keys, stats, allTests, commitsWithoutTests, cloned.Keys);
      results := results0 + [r];
    }

    /**
     * `process_dataset`: process the commit records among the first lines
     * the limit allows, adding up the counters, keeping every extracted
     * test and every commit that yielded none.
     */
    method ProcessDataset(lines: seq<Line>, limit: Option<int>) returns (results: seq<CommitResult>)
      requires Valid()
      modifies this
      ensures Valid()
      ensures results == Outcomes(outcome, Commits(Window(lines, limit)))
      ensures allTests == old(allTests) + TestsOf(results)
      ensures commitsWithoutTests == old(commitsWithoutTests) + ZeroCommits(outcome, Commits(Window(lines, limit)))
      ensures stats == Accumulate(old(stats), outcome, tried, Commits(Window(lines, limit))).(cloneFailures := stats.cloneFailures)
      ensures cloned.Keys == old(cloned).Keys + Projects(Commits(Window(lines, limit)))
    {
      ghost var s0, tests0, zeros0, keys0 := stats, allTests, commitsWithoutTests, cloned.Keys;
      results := [];
      var i := 0;
      assert lines[..0] == [];
      while i < |lines|
        invariant i <= |Window(lines, limit)|
        invariant Valid() && Reached(Commits(lines[..i]), results, s0, tests0, zeros0, keys0)
      {
        if limit.Some? && limit.value != 0 && i + 1 > limit.value {
          break;
        }
        results, i := ProcessLine(lines, i, results, s0, tests0, zeros0, keys0);
      }
      assert lines[..i] == Window(lines, limit);
    }
  }

  /**
   * The state of the candidate loop of `process_commit` once it has gone
   * through the candidates `xs`: `seen_test_paths` holds them all, each
   * distinct one was fetched once, and the files found and their tests are
   * those of fetching the distinct candidates in order.
   */
  ghost predicate Progress(w: World, project: string, sha: string, xs: seq<string>,
                           seen: set<string>, found: nat, triedCount: nat, tests: seq<Test>)
  {
    && seen == Elems(xs)
    && triedCount == |Dedup(xs)|
    && Harvest(found, tests) == HarvestOf(w, project, sha, Dedup(xs), None)
    && found <= triedCount
  }

  /**
   * The file loop of `process_commit`: every changed Java file is checked,
   * its candidates are fetched at the commit unless an earlier file already
   * proposed them, and the test methods of every fetched file are labelled
   * with the commit.
   */
  method ScanCommitFiles(w: World, c: Commit) returns (filesChecked: nat, found: nat, triedCount: nat, tests: seq<Test>)
    ensures filesChecked == |JavaFiles(FileNames(c.files))|
    ensures triedCount == |TriedPaths(c)|
    ensures Harvest(found, tests) == HarvestOf(w, c.project, c.sha, TriedPaths(c), None)
    ensures found <= triedCount
  {
    var names := FileNames(c.files);
    var seen: set<string> := {};
    filesChecked, found, triedCount, tests := 0, 0, 0, [];
    for i := 0 to |names|
      invariant filesChecked == |JavaFiles(names[..i])|
      invariant Progress(w, c.project, c.sha, AllCandidates(names[..i]), seen, found, triedCount, tests)
    {
      FilesSnoc(names, i);
      var f := names[i];
      if !EndsWith(f, ".java") {
        continue;
      }
      filesChecked := filesChecked + 1;
      var cands := CandidatesOf(f);
      seen, found, triedCount, tests :=
        TryCandidates(w, c.project, c.sha, AllCandidates(names[..i]), cands, seen, found, triedCount, tests);
    }
    assert names[..|names|] == names;
  }

  /**
   * The candidate loop of `process_commit` for one changed file: skip the
   * paths already seen, fetch the others with `git show`, and label the
   * test methods of each file that exists.
   */
  method TryCandidates(w: World, project: string, sha: string, ghost before: seq<string>, cands: seq<string>,
                       seen0: set<string>, found0: nat, triedCount0: nat, tests0: seq<Test>)
    returns (seen: set<string>, found: nat, triedCount: nat, tests: seq<Test>)
    requires Progress(w, project, sha, before, seen0, found0, triedCount0, tests0)
    ensures Progress(w, project, sha, before + cands, seen, found, triedCount, tests)
  {
    seen, found, triedCount, tests := seen0, found0, triedCount0, tests0;
    assert before + cands[..0] == before;
    for j := 0 to |cands|
      invariant Progress(w, project, sha, before + cands[..j], seen, found, triedCount, tests)
    {
      PrefixSnoc(before, cands, j);
      seen, found, triedCount, tests :=
        TryCandidate(w, project, sha, before + cands[..j], cands[j], seen, found, triedCount, tests);
    }
    assert cands[..|cands|] == cands;
  }

  /** One turn of the candidate loop: a path seen before is skipped, any other is fetched once. */
  method TryCandidate(w: World, project: string, sha: string, ghost xs: seq<string>, cand: string,
                      seen0: set<string>, found0: nat, triedCount0: nat, tests0: seq<Test>)
    returns (seen: set<string>, found: nat, triedCount: nat, tests: seq<Test>)
    requires Progress(w, project, sha, xs, seen0, found0, triedCount0, tests0)
    ensures Progress(w, project, sha, xs + [cand], seen, found, triedCount, tests)
  {
    seen, found, triedCount, tests := seen0, found0, triedCount0, tests0;
    if cand in seen {
      ProgressSeen(w, project, sha, xs, cand, seen, found, triedCount, tests);
      return;
    }
    var content, fileTests := FetchTests(w, project, sha, cand, None);
    ProgressFetched(w, project, sha, xs, cand, seen, found, triedCount, tests, content, fileTests);
    seen := seen + {cand};
    triedCount := triedCount + 1;
    if content.Some? {
      found := found + 1;
      tests := tests + fileTests;
    }
  }

  /** `git show` one candidate and, when it exists, extract and label its test methods. */
  method FetchTests(w: World, project: string, sha: string, path: string, tier: Option<nat>)
    returns (content: Option<string>, tests: seq<Test>)
    ensures content == GitShow(w, project, sha, path)
    ensures content.Some? ==> tests == TestsOfFile(w, project, sha, path, content.value, tier)
  {
    tests := [];
    content := GitShow(w, project, sha, path);
    if content.None? {
      return;
    }
    var lexed := w.lex(content.value);
    var methods := ExtractTestMethods(content.value, path, lexed.at, lexed.legacy);
    if methods == [] {
      return;
    }
    var pkg := w.package(content.value);
    var cname := ClassName(w.classDecl(content.value), path);
    tests := Label(methods, project, sha, pkg, cname, tier);
  }

  // ---------------------------------------------------------------------
  // Facts used by the methods
  // ---------------------------------------------------------------------

  /** The commit records of one more line. */
  lemma CommitsSnoc(lines: seq<Line>, i: nat)
    requires i < |lines|
    ensures Commits(lines[..i + 1]) == Commits(lines[..i]) + (if lines[i].Record? then [lines[i].commit] else [])
  {
    assert lines[..i + 1][..i] == lines[..i];
  }

  /** The Java files and the candidates of one more changed file. */
  lemma FilesSnoc(names: seq<string>, i: nat)
    requires i < |names|
    ensures EndsWith(names[i], ".java") ==>
      && JavaFiles(names[..i + 1]) == JavaFiles(names[..i]) + [names[i]]
      && AllCandidates(names[..i + 1]) == AllCandidates(names[..i]) + CandidatesOf(names[i])
    ensures !EndsWith(names[i], ".java") ==>
      && JavaFiles(names[..i + 1]) == JavaFiles(names[..i])
      && AllCandidates(names[..i + 1]) == AllCandidates(names[..i])
  {
    assert names[..i + 1][..i] == names[..i];
  }

  /** One more candidate of the current file. */
  lemma PrefixSnoc(before: seq<string>, cands: seq<string>, j: nat)
    requires j < |cands|
    ensures before + cands[..j + 1] == (before + cands[..j]) + [cands[j]]
  {
    assert cands[..j + 1] == cands[..j] + [cands[j]];
  }

  /** The tests of one more result. */
  lemma TestsOfSnoc(results: seq<CommitResult>, r: CommitResult)
    ensures TestsOf(results + [r]) == TestsOf(results) + r.tests
  {
    assert (results + [r])[..|results|] == results;
  }

  /** Recording one more commit's result keeps the dataset state in step with the commits. */
  lemma MatchesSnoc(outcome: Commit -> CommitResult, tried: Commit -> nat, cs: seq<Commit>, c: Commit,
                    results: seq<CommitResult>, r: CommitResult,
                    s0: Tier1Stats, tests0: seq<Test>, zeros0: seq<Commit>, keys0: set<string>,
                    stats: Tier1Stats, allTests: seq<Test>, zeros: seq<Commit>, keys: set<string>,
                    stats': Tier1Stats, allTests': seq<Test>, zeros': seq<Commit>, keys': set<string>)
    requires Matches(outcome, tried, cs, results, s0, tests0, zeros0, keys0, stats, allTests, zeros, keys)
    requires r == outcome(c)
    requires allTests' == allTests + r.tests
    requires zeros' == zeros + (if r.tests == [] then [c] else [])
    requires stats' == Bump(stats, r, tried(c)).(cloneFailures := stats'.cloneFailures)
    requires keys' == keys + {c.project}
    ensures Matches(outcome, tried, cs + [c], results + [r], s0, tests0, zeros0, keys0, stats', allTests', zeros', keys')
  {
    assert (cs + [c])[..|cs|] == cs;
    TestsOfSnoc(results, r);
    assert Projects(cs + [c]) == Projects(cs) + {c.project};
  }

  /** A candidate seen before is skipped without changing anything. */
  lemma ProgressSeen(w: World, project: string, sha: string, xs: seq<string>, cand: string,
                     seen: set<string>, found: nat, triedCount: nat, tests: seq<Test>)
    requires Progress(w, project, sha, xs, seen, found, triedCount, tests)
    requires cand in seen
    ensures Progress(w, project, sha, xs + [cand], seen, found, triedCount, tests)
  {
    DedupSnoc(xs, cand);
    assert Elems(xs + [cand]) == seen;
    assert Dedup(xs + [cand]) == Dedup(xs);
  }

  /** A new candidate is marked seen and tried, and counted with its tests when it exists. */
  lemma ProgressFetched(w: World, project: string, sha: string, xs: seq<string>, cand: string,
                        seen: set<string>, found: nat, triedCount: nat, tests: seq<Test>,
                        content: Option<string>, fileTests: seq<Test>)
    requires Progress(w, project, sha, xs, seen, found, triedCount, tests)
    requires cand !in seen
    requires content == GitShow(w, project, sha, cand)
    requires content.Some? ==> fileTests == TestsOfFile(w, project, sha, cand, content.value, None)
    ensures content.None? ==>
      Progress(w, project, sha, xs + [cand], seen + {cand}, found, triedCount + 1, tests)
    ensures content.Some? ==>
      Progress(w, project, sha, xs + [cand], seen + {cand}, found + 1, triedCount + 1, tests + fileTests)
  {
    DedupSnoc(xs, cand);
    match content
    case None =>
      HarvestMissing(w, project, sha, Dedup(xs), cand, None);
    case Some(text) =>
      HarvestFound(w, project, sha, Dedup(xs), cand, text, None);
  }

  /** Caching one more outcome adds that project to the failures exactly when it failed. */
  lemma FailedCount(cloned: map<string, Option<string>>, p: string, v: Option<string>)
    requires p !in cloned
    ensures |FailedClones(cloned[p := v])| == |FailedClones(cloned)| + (if v.None? then 1 else 0)
  {
    if v.None? {
      assert FailedClones(cloned[p := v]) == FailedClones(cloned) + {p};
    } else {
      assert FailedClones(cloned[p := v]) == FailedClones(cloned);
    }
  }

  /** Deduplication extended by one element. */
  lemma DedupSnoc(xs: seq<string>, x: string)
    ensures Elems(xs + [x]) == Elems(xs) + {x}
    ensures Dedup(xs + [x]) == Dedup(xs) + (if x in Elems(xs) then [] else [x])
  {
    assert (xs + [x])[..|xs|] == xs;
  }

  /** Trying one more path that does not exist at the commit changes nothing. */
  lemma HarvestMissing(w: World, project: string, sha: string, paths: seq<string>, p: string, tier: Option<nat>)
    requires GitShow(w, project, sha, p).None?
    ensures HarvestOf(w, project, sha, paths + [p], tier) == HarvestOf(w, project, sha, paths, tier)
  {
    assert (paths + [p])[..|paths|] == paths;
  }

  /** Trying one more path that exists at the commit counts it and adds its tests. */
  lemma HarvestFound(w: World, project: string, sha: string, paths: seq<string>, p: string, content: string,
                      tier: Option<nat>)
    requires GitShow(w, project, sha, p) == Some(content)
    ensures HarvestOf(w, project, sha, paths + [p], tier).found == HarvestOf(w, project, sha, paths, tier).found + 1
    ensures HarvestOf(w, project, sha, paths + [p], tier).tests ==
      HarvestOf(w, project, sha, paths, tier).tests + TestsOfFile(w, project, sha, p, content, tier)
  {
    assert (paths + [p])[..|paths|] == paths;
  }
}
