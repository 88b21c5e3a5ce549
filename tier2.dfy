/**
 * Tier 2 of the acquisition pipeline (`DoubleCheckExtraction`): for every
 * commit Tier 1 found no test for, list with `git ls-tree` the test
 * directory of each changed main-source Java file and extract the test
 * methods of every test file found there, tagged as tier 2.
 */
module Tier2 {
  import opened Wrappers
  import opened Text
  import opened PathHeuristics
  import opened Extraction
  import opened Records
  import opened Tier1
  import opened Tier1Facts

  /** The counters of `self.stats`. */
  datatype Tier2Stats = Tier2Stats(checked: nat, recovered: nat, methodsRecovered: nat)

  /** The tier Tier 2 writes into every test it recovers. */
  const Tier2Tag: Option<nat> := Some(2)

  /** The test directory Tier 2 lists for a changed file: only main-source Java files have one. */
  function PrefixOf(f: string): (r: Option<string>)
    ensures r.Some? <==> EndsWith(f, ".java") && !IsTestFile(f) && Contains(f, MainDir)
    ensures r.Some? ==> r.value != [] && EndsWith(r.value, "/") && Contains(r.value, TestDir)
  {
    TestPrefixSpec(f);
    if !EndsWith(f, ".java") || IsTestFile(f) then None
    else
      match TestPrefixForSource(f)
      case None => None
      case Some(p) => if p != [] then Some(p) else None
  }

  /** The set `prefixes` built from the changed files. */
  function Prefixes(names: seq<string>): set<string> {
    if names == [] then {}
    else
      var p := PrefixOf(names[|names| - 1]);
      Prefixes(names[..|names| - 1]) + (if p.Some? then {p.value} else {})
  }

  /** The paths listed under each prefix in turn. */
  function Listing(w: World, project: string, sha: string, order: seq<string>): seq<string> {
    if order == [] then []
    else Listing(w, project, sha, order[..|order| - 1]) + LsTree(w, project, sha, order[|order| - 1])
  }

  /** The listed paths that pass `is_test_file`, in order. */
  function TestFiles(xs: seq<string>): seq<string> {
    if xs == [] then []
    else
      var x := xs[|xs| - 1];
      TestFiles(xs[..|xs| - 1]) + (if IsTestFile(x) then [x] else [])
  }

  /** `order` lists every element of `s` exactly once (the order Python iterates the set in). */
  predicate Enumerates(order: seq<string>, s: set<string>) {
    && (forall x | x in order :: x in s)
    && (forall x | x in s :: x in order)
    && (forall i, j | 0 <= i < j < |order| :: order[i] != order[j])
  }

  /** The distinct test files Tier 2 fetches for a commit, prefix by prefix in the order given. */
  function Fetched(w: World, project: string, sha: string, order: seq<string>): seq<string> {
    Dedup(TestFiles(Listing(w, project, sha, order)))
  }

  /**
   * The tests `check_commits` recovers for a commit whose prefixes it visits
   * in `order`: none when the project cannot be cloned, else the tier 2
   * tests of every distinct test file listed under a prefix.
   */
  ghost function Recheck(w: World, reposDir: string, c: Commit, order: seq<string>): seq<Test> {
    if CloneOutcome(w, reposDir, c.project).None? then []
    else HarvestOf(w, c.project, c.sha, Fetched(w, c.project, c.sha, order), Tier2Tag).tests
  }

  /** `order` is an order of the commit's prefix set, whenever the prefixes are listed at all. */
  ghost predicate VisitsIn(w: World, reposDir: string, c: Commit, order: seq<string>) {
    CloneOutcome(w, reposDir, c.project).Some? ==> Enumerates(order, Prefixes(FileNames(c.files)))
  }

  /** Every commit is visited in an order of its prefix set. */
  ghost predicate Visits(w: World, reposDir: string, cs: seq<Commit>, orders: seq<seq<string>>) {
    && |orders| == |cs|
    && forall i | 0 <= i < |cs| :: VisitsIn(w, reposDir, cs[i], orders[i])
  }

  /** `Recheck` for one world, as a function of the commit and the visiting order. */
  ghost function RecheckOf(w: World, reposDir: string): (Commit, seq<string>) -> seq<Test> {
    (c, order) => Recheck(w, reposDir, c, order)
  }

  /** The tests recovered for the commits in turn, given what each commit yields. */
  function RecheckAll(recheck: (Commit, seq<string>) -> seq<Test>, cs: seq<Commit>, orders: seq<seq<string>>): seq<Test>
    requires |orders| == |cs|
  {
    if cs == [] then []
    else
      var n := |cs| - 1;
      RecheckAll(recheck, cs[..n], orders[..n]) + recheck(cs[n], orders[n])
  }

  /** How many of the commits yield at least one recovered test. */
  function RecoveredCount(recheck: (Commit, seq<string>) -> seq<Test>, cs: seq<Commit>, orders: seq<seq<string>>): nat
    requires |orders| == |cs|
  {
    if cs == [] then 0
    else
      var n := |cs| - 1;
      RecoveredCount(recheck, cs[..n], orders[..n]) + (if recheck(cs[n], orders[n]) != [] then 1 else 0)
  }

  /**
   * The state of the listing loop of `check_commits` once it has gone
   * through the listed paths `xs`: `seen_paths` holds the test files among
   * them, and the tests are those of fetching each distinct one in order.
   */
  ghost predicate Gathered(w: World, project: string, sha: string, xs: seq<string>, seen: set<string>, tests: seq<Test>) {
    && seen == Elems(TestFiles(xs))
    && tests == HarvestOf(w, project, sha, Dedup(TestFiles(xs)), Tier2Tag).tests
  }

  /** The Tier 2 checker and the tests it recovers. */
  class DoubleCheckExtraction {
    var stats: Tier2Stats
    var recoveredTests: seq<Test>

    /** `methods_recovered` counts the recovered tests, and no more commits are recovered than checked. */
    ghost predicate Valid()
      reads this
    {
      stats.methodsRecovered == |recoveredTests| && stats.recovered <= stats.checked
    }

    constructor ()
      ensures Valid()
      ensures stats == Tier2Stats(0, 0, 0) && recoveredTests == []
    {
      stats := Tier2Stats(0, 0, 0);
      recoveredTests := [];
    }

    /**
     * One commit of `check_commits`: count it as checked, clone its project
     * through the Tier 1 cache, list the test directory of each changed
     * main-source file, and keep the tier 2 tests of the test files found;
     * the commit counts as recovered when at least one test was found.
     */
    method CheckCommit(c: Commit, extractor: TestExtractionPipeline) returns (ghost order: seq<string>)
      requires Valid() && extractor.Valid()
      modifies this, extractor
      ensures Valid() && extractor.Valid()
      ensures CloneOutcome(extractor.world, extractor.reposDir, c.project).Some? ==>
        Enumerates(order, Prefixes(FileNames(c.files)))
      ensures recoveredTests == old(recoveredTests) + Recheck(extractor.world, extractor.reposDir, c, order)
      ensures stats == Tier2Stats(
        old(stats.checked) + 1,
        old(stats.recovered) + (if Recheck(extractor.world, extractor.reposDir, c, order) != [] then 1 else 0),
        old(stats.methodsRecovered) + |Recheck(extractor.world, extractor.reposDir, c, order)|)
      ensures extractor.cloned == old(extractor.cloned)[c.project := CloneOutcome(extractor.world, extractor.reposDir, c.project)]
      ensures extractor.stats == old(extractor.stats).(cloneFailures := extractor.stats.cloneFailures)
      ensures extractor.allTests == old(extractor.allTests)
      ensures extractor.commitsWithoutTests == old(extractor.commitsWithoutTests)
    {
      stats := stats.(checked := stats.checked + 1);
      var repoDir := extractor.CloneRepo(c.project);
      var tests;
      tests, order := RecoverCommit(extractor.world, extractor.reposDir, c, repoDir);
      Keep(tests);
    }

    /** The recovered tests of a commit are kept and counted; the commit counts as recovered when there are any. */
    method Keep(tests: seq<Test>)
      requires Valid() && stats.recovered < stats.checked
      modifies this
      ensures Valid()
      ensures recoveredTests == old(recoveredTests) + tests
      ensures stats == old(stats).(recovered := old(stats.recovered) + (if tests != [] then 1 else 0),
                                   methodsRecovered := old(stats.methodsRecovered) + |tests|)
    {
      recoveredTests := recoveredTests + tests;
      stats := stats.(methodsRecovered := stats.methodsRecovered + |tests|);
      if tests != [] {
        stats := stats.(recovered := stats.recovered + 1);
      }
    }

    /**
     * `check_commits`: re-check every commit in turn, counting each one,
     * recovering the tier 2 tests of its test directories and counting the
     * commits for which some test was recovered.
     */
    method CheckCommits(cs: seq<Commit>, extractor: TestExtractionPipeline) returns (ghost orders: seq<seq<string>>)
      requires Valid() && extractor.Valid()
      modifies this, extractor
      ensures Valid() && extractor.Valid()
      ensures Visits(extractor.world, extractor.reposDir, cs, orders)
      ensures recoveredTests == old(recoveredTests) + RecheckAll(RecheckOf(extractor.world, extractor.reposDir), cs, orders)
      ensures stats == Tier2Stats(
        old(stats.checked) + |cs|,
        old(stats.recovered) + RecoveredCount(RecheckOf(extractor.world, extractor.reposDir), cs, orders),
        old(stats.methodsRecovered) + |RecheckAll(RecheckOf(extractor.world, extractor.reposDir), cs, orders)|)
      ensures extractor.cloned.Keys == old(extractor.cloned).Keys + Projects(cs)
      ensures extractor.stats == old(extractor.stats).(cloneFailures := extractor.stats.cloneFailures)
      ensures extractor.allTests == old(extractor.allTests)
      ensures extractor.commitsWithoutTests == old(extractor.commitsWithoutTests)
    {
      ghost var w, reposDir := extractor.world, extractor.reposDir;
      ghost var recheck := RecheckOf(w, reposDir);
      ghost var s0, tests0, keys0 := stats, recoveredTests, extractor.cloned.Keys;
      orders := [];
      assert cs[..0] == [];
      for i := 0 to |cs|
        invariant Valid() && extractor.Valid()
        invariant Rechecked(w, reposDir, recheck, cs[..i], orders, s0, tests0, keys0, stats, recoveredTests, extractor.cloned.Keys)
        invariant extractor.stats == old(extractor.stats).(cloneFailures := extractor.stats.cloneFailures)
        invariant extractor.allTests == old(extractor.allTests)
        invariant extractor.commitsWithoutTests == old(extractor.commitsWithoutTests)
      {
        TakeSnoc(cs, i);
        orders := CheckStep(cs[..i], cs[i], extractor, orders, s0, tests0, keys0);
      }
      assert cs[..|cs|] == cs;
    }

    /** One commit of `check_commits`, keeping the state in step with the commits re-checked so far. */
    method CheckStep(ghost cs: seq<Commit>, c: Commit, extractor: TestExtractionPipeline, ghost orders0: seq<seq<string>>,
                     ghost s0: Tier2Stats, ghost tests0: seq<Test>, ghost keys0: set<string>)
      returns (ghost orders: seq<seq<string>>)
      requires Valid() && extractor.Valid()
      requires Rechecked(extractor.world, extractor.reposDir, RecheckOf(extractor.world, extractor.reposDir),
                         cs, orders0, s0, tests0, keys0, stats, recoveredTests, extractor.cloned.Keys)
      modifies this, extractor
      ensures Valid() && extractor.Valid()
      ensures Rechecked(extractor.world, extractor.reposDir, RecheckOf(extractor.world, extractor.reposDir),
                        cs + [c], orders, s0, tests0, keys0, stats, recoveredTests, extractor.cloned.Keys)
      ensures extractor.stats == old(extractor.stats).(cloneFailures := extractor.stats.cloneFailures)
      ensures extractor.allTests == old(extractor.allTests)
      ensures extractor.commitsWithoutTests == old(extractor.commitsWithoutTests)
    {
      ghost var stats1, tests1, keys1 := stats, recoveredTests, extractor.cloned.Keys;
      var order := CheckCommit(c, extractor);
      ghost var recheck := RecheckOf(extractor.world, extractor.reposDir);
      assert recheck(c, order) == Recheck(extractor.world, extractor.reposDir, c, order);
      RecheckedSnoc(extractor.world, extractor.reposDir, recheck, cs, c, orders0, order, s0, tests0, keys0,
                    stats1, tests1, keys1, stats, recoveredTests, extractor.cloned.Keys);
      orders := orders0 + [order];
    }
  }

  /** The first `i + 1` commits are the first `i` and the `i`-th. */
  lemma TakeSnoc(cs: seq<Commit>, i: nat)
    requires i < |cs|
    ensures cs[..i + 1] == cs[..i] + [cs[i]]
  {
  }

  /**
   * The part of `check_commits` after the clone: nothing when it failed,
   * else the tier 2 tests of the test directories of the changed files.
   */
  method RecoverCommit(w: World, reposDir: string, c: Commit, repoDir: Option<string>)
    returns (tests: seq<Test>, ghost order: seq<string>)
    requires repoDir == CloneOutcome(w, reposDir, c.project)
    ensures repoDir.Some? ==> Enumerates(order, Prefixes(FileNames(c.files)))
    ensures tests == Recheck(w, reposDir, c, order)
  {
    tests, order := [], [];
    if repoDir.None? {
      return;
    }
    var prefixes := CollectPrefixes(FileNames(c.files));
    if prefixes == {} {
      return;
    }
    tests, order := ScanPrefixes(w, c.project, c.sha, prefixes);
  }

  /** The prefix loop of `check_commits`: the prefixes of the changed main-source Java files. */
  method CollectPrefixes(names: seq<string>) returns (prefixes: set<string>)
    ensures prefixes == Prefixes(names)
  {
    prefixes := {};
    for i := 0 to |names|
      invariant prefixes == Prefixes(names[..i])
    {
      assert names[..i + 1][..i] == names[..i];
      var f := names[i];
      if !EndsWith(f, ".java") {
        continue;
      }
      if IsTestFile(f) {
        continue;
      }
      var p := TestPrefixForSource(f);
      if p.Some? && p.value != [] {
        prefixes := prefixes + {p.value};
      }
    }
    assert names[..|names|] == names;
  }

  /**
   * The listing loop of `check_commits`: visit the prefixes in some order,
   * list each with `git ls-tree`, and fetch every test file not seen before.
   */
  method ScanPrefixes(w: World, project: string, sha: string, prefixes: set<string>)
    returns (tests: seq<Test>, ghost order: seq<string>)
    ensures Enumerates(order, prefixes)
    ensures tests == HarvestOf(w, project, sha, Fetched(w, project, sha, order), Tier2Tag).tests
  {
    var left := prefixes;
    var seen: set<string> := {};
    tests, order := [], [];
    while left != {}
      decreases |left|
      invariant forall x :: x in prefixes <==> x in left || x in order
      invariant forall x | x in order :: x !in left
      invariant forall i, j | 0 <= i < j < |order| :: order[i] != order[j]
      invariant Gathered(w, project, sha, Listing(w, project, sha, order), seen, tests)
    {
      var pfx :| pfx in left;
      var files := LsTree(w, project, sha, pfx);
      seen, tests := ScanListing(w, project, sha, Listing(w, project, sha, order), files, seen, tests);
      ListingSnoc(w, project, sha, order, pfx);
      order := order + [pfx];
      left := left - {pfx};
    }
  }

  /** The paths listed under one prefix, in listing order. */
  method ScanListing(w: World, project: string, sha: string, ghost before: seq<string>, files: seq<string>,
                     seen0: set<string>, tests0: seq<Test>)
    returns (seen: set<string>, tests: seq<Test>)
    requires Gathered(w, project, sha, before, seen0, tests0)
    ensures Gathered(w, project, sha, before + files, seen, tests)
  {
    seen, tests := seen0, tests0;
    assert before + files[..0] == before;
    for j := 0 to |files|
      invariant Gathered(w, project, sha, before + files[..j], seen, tests)
    {
      PrefixSnoc(before, files, j);
      seen, tests := ScanFile(w, project, sha, before + files[..j], files[j], seen, tests);
    }
    assert files[..|files|] == files;
  }

  /** One listed path: skipped when seen or not a test file, else marked seen and fetched once. */
  method ScanFile(w: World, project: string, sha: string, ghost xs: seq<string>, tf: string,
                  seen0: set<string>, tests0: seq<Test>)
    returns (seen: set<string>, tests: seq<Test>)
    requires Gathered(w, project, sha, xs, seen0, tests0)
    ensures Gathered(w, project, sha, xs + [tf], seen, tests)
  {
    seen, tests := seen0, tests0;
    if tf in seen {
      GatheredSkip(w, project, sha, xs, tf, seen, tests);
      return;
    }
    if !IsTestFile(tf) {
      GatheredSkip(w, project, sha, xs, tf, seen, tests);
      return;
    }
    var content, fileTests := FetchTests(w, project, sha, tf, Tier2Tag);
    GatheredFetched(w, project, sha, xs, tf, seen, tests, content, fileTests);
    seen := seen + {tf};
    if content.Some? {
      tests := tests + fileTests;
    }
  }

  // ---------------------------------------------------------------------
  // Facts used by the methods
  // ---------------------------------------------------------------------

  /** The test files of one more listed path. */
  lemma TestFilesSnoc(xs: seq<string>, x: string)
    ensures IsTestFile(x) ==> TestFiles(xs + [x]) == TestFiles(xs) + [x]
    ensures !IsTestFile(x) ==> TestFiles(xs + [x]) == TestFiles(xs)
  {
    assert (xs + [x])[..|xs|] == xs;
  }

  /** The listing of one more prefix. */
  lemma ListingSnoc(w: World, project: string, sha: string, order: seq<string>, p: string)
    ensures Listing(w, project, sha, order + [p]) == Listing(w, project, sha, order) + LsTree(w, project, sha, p)
  {
    assert (order + [p])[..|order|] == order;
  }

  /** A path already seen, or not a test file, changes nothing. */
  lemma GatheredSkip(w: World, project: string, sha: string, xs: seq<string>, tf: string,
                     seen: set<string>, tests: seq<Test>)
    requires Gathered(w, project, sha, xs, seen, tests)
    requires tf in seen || !IsTestFile(tf)
    ensures Gathered(w, project, sha, xs + [tf], seen, tests)
  {
    TestFilesSnoc(xs, tf);
    if IsTestFile(tf) {
      var ys := TestFiles(xs);
      DedupSnoc(ys, tf);
      assert tf in Elems(ys);
      assert Dedup(ys + [tf]) == Dedup(ys) + [] == Dedup(ys);
      assert Elems(ys + [tf]) == seen;
      assert TestFiles(xs + [tf]) == ys + [tf];
    }
  }

  /** A new test file is marked seen, and its tests are added when it exists at the commit. */
  lemma GatheredFetched(w: World, project: string, sha: string, xs: seq<string>, tf: string,
                        seen: set<string>, tests: seq<Test>, content: Option<string>, fileTests: seq<Test>)
    requires Gathered(w, project, sha, xs, seen, tests)
    requires tf !in seen && IsTestFile(tf)
    requires content == GitShow(w, project, sha, tf)
    requires content.Some? ==> fileTests == TestsOfFile(w, project, sha, tf, content.value, Tier2Tag)
    ensures content.None? ==> Gathered(w, project, sha, xs + [tf], seen + {tf}, tests)
    ensures content.Some? ==> Gathered(w, project, sha, xs + [tf], seen + {tf}, tests + fileTests)
  {
    TestFilesSnoc(xs, tf);
    DedupSnoc(TestFiles(xs), tf);
    match content
    case None =>
      HarvestMissing(w, project, sha, Dedup(TestFiles(xs)), tf, Tier2Tag);
    case Some(text) =>
      HarvestFound(w, project, sha, Dedup(TestFiles(xs)), tf, text, Tier2Tag);
  }

  /**
   * The state `check_commits` reaches once it has re-checked the commits
   * `cs`, visiting their prefixes in `orders`, starting from the counters
   * `s0`, the tests `tests0` and the cached projects `keys0`, when each
   * commit yields what `recheck` says.
   */
  ghost predicate Rechecked(w: World, reposDir: string, recheck: (Commit, seq<string>) -> seq<Test>,
                            cs: seq<Commit>, orders: seq<seq<string>>,
                            s0: Tier2Stats, tests0: seq<Test>, keys0: set<string>,
                            stats: Tier2Stats, tests: seq<Test>, keys: set<string>)
  {
    && Visits(w, reposDir, cs, orders)
    && tests == tests0 + RecheckAll(recheck, cs, orders)
    && stats == Tier2Stats(s0.checked + |cs|, s0.recovered + RecoveredCount(recheck, cs, orders),
                           s0.methodsRecovered + |RecheckAll(recheck, cs, orders)|)
    && keys == keys0 + Projects(cs)
  }

  /** Re-checking one more commit keeps the state in step with the commits. */
  lemma RecheckedSnoc(w: World, reposDir: string, recheck: (Commit, seq<string>) -> seq<Test>,
                      cs: seq<Commit>, c: Commit, orders: seq<seq<string>>, order: seq<string>,
                      s0: Tier2Stats, tests0: seq<Test>, keys0: set<string>,
                      stats: Tier2Stats, tests: seq<Test>, keys: set<string>,
                      stats': Tier2Stats, tests': seq<Test>, keys': set<string>)
    requires Rechecked(w, reposDir, recheck, cs, orders, s0, tests0, keys0, stats, tests, keys)
    requires VisitsIn(w, reposDir, c, order)
    requires tests' == tests + recheck(c, order)
    requires stats' == Tier2Stats(stats.checked + 1,
                                  stats.recovered + (if recheck(c, order) != [] then 1 else 0),
                                  stats.methodsRecovered + |recheck(c, order)|)
    requires keys' == keys + {c.project}
    ensures Rechecked(w, reposDir, recheck, cs + [c], orders + [order], s0, tests0, keys0, stats', tests', keys')
  {
    VisitsSnoc(w, reposDir, cs, c, orders, order);
    assert (cs + [c])[..|cs|] == cs;
    assert (orders + [order])[..|cs|] == orders;
    assert tests' == tests0 + (RecheckAll(recheck, cs, orders) + recheck(c, order));
    assert Projects(cs + [c]) == Projects(cs) + {c.project};
  }

  /** One more commit visited in an order of its prefixes. */
  lemma VisitsSnoc(w: World, reposDir: string, cs: seq<Commit>, c: Commit, orders: seq<seq<string>>, order: seq<string>)
    requires Visits(w, reposDir, cs, orders)
    requires VisitsIn(w, reposDir, c, order)
    ensures Visits(w, reposDir, cs + [c], orders + [order])
  {
    forall i | 0 <= i < |cs| + 1
      ensures (cs + [c])[i] == (if i < |cs| then cs[i] else c)
      ensures (orders + [order])[i] == (if i < |cs| then orders[i] else order)
    {
    }
  }
}
