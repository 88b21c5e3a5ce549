/**
 * `run_pipeline.py`: which tiers run for the `--tier` option, what each
 * tier is fed, when Randoop is tried after EvoSuite, and the totals of the
 * final report.
 */
module Runner {
  import opened Wrappers
  import opened Records
  import opened Tier1
  import opened Tier1Facts
  import opened Tier2
  import opened Tier3
  import opened Tier3Facts

  // ---------------------------------------------------------------------
  // Which tiers run
  // ---------------------------------------------------------------------

  /** `args.tier in (None, 1)`. */
  predicate RunsTier1(tier: Option<int>) {
    tier == None || tier == Some(1)
  }

  /** Tier 2 sits inside the Tier 1 branch, under `args.tier in (None, 2)`. */
  predicate RunsTier2(tier: Option<int>) {
    RunsTier1(tier) && (tier == None || tier == Some(2))
  }

  /** `args.tier in (None, 3)`. */
  predicate RunsTier3(tier: Option<int>) {
    tier == None || tier == Some(3)
  }

  /** Tier 2 runs only in a full run: `--tier 2` runs no tier at all. */
  lemma Tier2OnlyInFullRun(tier: Option<int>)
    ensures RunsTier2(tier) <==> tier == None
    ensures tier == Some(2) ==> !RunsTier1(tier) && !RunsTier2(tier) && !RunsTier3(tier)
  {
  }

  // ---------------------------------------------------------------------
  // What Tier 3 is fed
  // ---------------------------------------------------------------------

  /** Python's `cs[:n]`: a negative `n` drops `-n` elements from the end. */
  function SliceTo(cs: seq<Commit>, n: int): (r: seq<Commit>)
    ensures r <= cs
    ensures 0 <= n ==> |r| == if n < |cs| then n else |cs|
    ensures n < 0 ==> |r| == if |cs| + n < 0 then 0 else |cs| + n
  {
    if n >= |cs| then cs
    else if n >= 0 then cs[..n]
    else if |cs| + n > 0 then cs[..|cs| + n]
    else []
  }

  /**
   * The dataset as Tier 3 reads it: the record of every non-blank line, or
   * `None` when some non-blank line is not valid JSON, which raises out
   * of the run.
   */
  function DatasetCommits(lines: seq<Line>): Option<seq<Commit>> {
    if lines == [] then Some([])
    else
      match DatasetCommits(lines[..|lines| - 1])
      case None => None
      case Some(cs) =>
        match lines[|lines| - 1]
        case Blank => Some(cs)
        case Malformed => None
        case Record(c) => Some(cs + [c])
  }

  /**
   * Tier 3 reads the dataset only when every line is blank or valid, and
   * then reads the same records Tier 1 does.
   */
  lemma {:induction false} DatasetCommitsSpec(lines: seq<Line>)
    ensures DatasetCommits(lines).None? <==> Malformed in lines
    ensures DatasetCommits(lines).Some? ==> DatasetCommits(lines).value == Commits(lines)
  {
    if lines != [] {
      var init := lines[..|lines| - 1];
      DatasetCommitsSpec(init);
      assert lines == init + [lines[|lines| - 1]];
    }
  }

  /** The loop of `main` that reads the dataset for Tier 3. */
  method ReadDataset(lines: seq<Line>) returns (r: Option<seq<Commit>>)
    ensures r == DatasetCommits(lines)
  {
    var cs := [];
    for i := 0 to |lines|
      invariant DatasetCommits(lines[..i]) == Some(cs)
    {
      assert lines[..i + 1][..i] == lines[..i];
      match lines[i]
      case Blank =>
      case Malformed =>
        DatasetCommitsSpec(lines);
        assert lines[i] in lines;
        return None;
      case Record(c) =>
        cs := cs + [c];
    }
    assert lines[..|lines|] == lines;
    r := Some(cs);
  }

  /** `commits_without_tests.json` keeps only the project and commit hash of each commit. */
  function Cached(cs: seq<Commit>): (r: seq<Commit>)
    ensures |r| == |cs|
    ensures forall i | 0 <= i < |cs| :: r[i].project == cs[i].project && r[i].sha == cs[i].sha && r[i].files == []
  {
    seq(|cs|, i requires 0 <= i < |cs| => Commit(cs[i].project, cs[i].sha, []))
  }

  /**
   * The commits Tier 3 is given: in a full run the cached commits without
   * tests that Tier 1 has just written; otherwise the records of the
   * dataset, cut by a non-zero limit; `None` when the dataset does not
   * parse.
   */
  function Tier3Input(tier: Option<int>, limit: Option<int>, lines: seq<Line>, zero: seq<Commit>): Option<seq<Commit>> {
    if tier == None then Some(Cached(zero))
    else
      match DatasetCommits(lines)
      case None => None
      case Some(cs) => Some(if limit.Some? && limit.value != 0 then SliceTo(cs, limit.value) else cs)
  }

  // ---------------------------------------------------------------------
  // The Randoop fallback
  // ---------------------------------------------------------------------

  /** The first commit, from the `from`-th on, with the given project and commit hash. */
  function FirstMatch(cs: seq<Commit>, project: string, sha: string, from: nat): (r: Option<Commit>)
    requires from <= |cs|
    ensures r.Some? ==> r.value in cs[from..] && r.value.project == project && r.value.sha == sha
    ensures r.None? <==> forall c | c in cs[from..] :: !(c.project == project && c.sha == sha)
    decreases |cs| - from
  {
    if from == |cs| then None
    else if cs[from].project == project && cs[from].sha == sha then Some(cs[from])
    else
      assert cs[from..] == [cs[from]] + cs[from + 1..];
      FirstMatch(cs, project, sha, from + 1)
  }

  /** The commits handed to Randoop: for each result without tests, the first input commit it names. */
  function FailedCommits(cs: seq<Commit>, results: seq<GenResult>): seq<Commit> {
    if results == [] then []
    else
      var r := results[|results| - 1];
      var before := FailedCommits(cs, results[..|results| - 1]);
      if r.testsGenerated != 0 then before
      else
        match FirstMatch(cs, r.project, r.sha, 0)
        case None => before
        case Some(c) => before + [c]
  }

  /** The nested loop of `main` that collects `failed_commits`. */
  method SelectFailed(cs: seq<Commit>, results: seq<GenResult>) returns (failed: seq<Commit>)
    ensures failed == FailedCommits(cs, results)
  {
    failed := [];
    for i := 0 to |results|
      invariant failed == FailedCommits(cs, results[..i])
    {
      assert results[..i + 1][..i] == results[..i];
      var result := results[i];
      if result.testsGenerated == 0 {
        var j := 0;
        while j < |cs|
          invariant j <= |cs|
          invariant FirstMatch(cs, result.project, result.sha, j) == FirstMatch(cs, result.project, result.sha, 0)
        {
          if cs[j].project == result.project && cs[j].sha == result.sha {
            failed := failed + [cs[j]];
            break;
          }
          j := j + 1;
        }
      }
    }
    assert results[..|results|] == results;
  }

  /**
   * Randoop is handed input commits only, each named by a result without
   * tests; when every result names an input commit, it gets exactly one
   * commit per such result.
   */
  lemma {:induction false} FailedCommitsSpec(cs: seq<Commit>, results: seq<GenResult>)
    ensures |FailedCommits(cs, results)| <= EmptyCount(results)
    ensures forall c | c in FailedCommits(cs, results) ::
      c in cs && exists r | r in results :: r.project == c.project && r.sha == c.sha && r.testsGenerated == 0
    ensures (forall r | r in results :: exists c | c in cs :: c.project == r.project && c.sha == r.sha) ==>
      |FailedCommits(cs, results)| == EmptyCount(results)
  {
    if results != [] {
      var init := results[..|results| - 1];
      var r := results[|results| - 1];
      FailedCommitsSpec(cs, init);
      assert results == init + [r];
      assert cs[0..] == cs;
    }
  }

  /**
   * After an EvoSuite run over the commits, Randoop is handed exactly one
   * commit per result without tests.
   */
  lemma EveryEmptyResultRetried(world: (string, string) -> CommitWorld, repos: set<string>,
                                cs: seq<Commit>, targets: seq<Option<string>>)
    requires |targets| == |cs|
    ensures var results := ResultsOf(AttemptsOf(AttemptOf(EvoSuite, world), CheckoutOf(world), repos, cs, targets));
      |FailedCommits(cs, results)| == EmptyCount(results)
  {
    var results := ResultsOf(AttemptsOf(AttemptOf(EvoSuite, world), CheckoutOf(world), repos, cs, targets));
    AttemptsMatch(EvoSuite, world, repos, cs, targets);
    forall r | r in results
      ensures exists c | c in cs :: c.project == r.project && c.sha == r.sha
    {
      var i :| 0 <= i < |results| && results[i] == r;
      assert cs[i] in cs;
    }
    FailedCommitsSpec(cs, results);
  }

  // ---------------------------------------------------------------------
  // The run and its report
  // ---------------------------------------------------------------------

  /** The dictionary a Tier 3 generator returns. */
  datatype Tier3Report = Tier3Report(stats: Tier3Stats, results: seq<GenResult>)

  /** `tier_results`: the report of every tier that ran. */
  datatype Reports = Reports(
    tier1: Option<Tier1Stats>, tier2: Option<Tier2Stats>, tier3a: Option<Tier3Report>, tier3b: Option<Tier3Report>)

  /** A run either raises while reading the dataset or finishes with its reports and total. */
  datatype Run = Aborted | Finished(reports: Reports, total: nat)

  /** `_report`'s `total_tests`: the tests counted by every tier that ran. */
  function Total(reports: Reports): nat {
    (if reports.tier1.Some? then reports.tier1.value.methodsExtracted else 0)
    + (if reports.tier2.Some? then reports.tier2.value.methodsRecovered else 0)
    + (if reports.tier3a.Some? then reports.tier3a.value.stats.testsGenerated else 0)
    + (if reports.tier3b.Some? then reports.tier3b.value.stats.testsGenerated else 0)
  }

  /** `_report`: add up the tests of the tiers present, one tier at a time, and summarise each tier. */
  method Report(reports: Reports) returns (total: nat, summaries: seq<TierSummary>)
    ensures total == Total(reports)
    ensures summaries == Summaries(reports)
  {
    total := 0;
    if reports.tier1.Some? {
      total := total + reports.tier1.value.methodsExtracted;
    }
    if reports.tier2.Some? {
      total := total + reports.tier2.value.methodsRecovered;
    }
    if reports.tier3a.Some? {
      total := total + reports.tier3a.value.stats.testsGenerated;
    }
    if reports.tier3b.Some? {
      total := total + reports.tier3b.value.stats.testsGenerated;
    }
    summaries := [];
    if reports.tier1.Some? {
      summaries := summaries + [TierSummary("tier1", 0)];
    }
    if reports.tier2.Some? {
      summaries := summaries + [TierSummary("tier2", 0)];
    }
    if reports.tier3a.Some? {
      summaries := summaries + [TierSummary("tier3a", |reports.tier3a.value.results|)];
    }
    if reports.tier3b.Some? {
      summaries := summaries + [TierSummary("tier3b", |reports.tier3b.value.results|)];
    }
  }

  /** One entry of `tier_summaries`. */
  datatype TierSummary = TierSummary(name: string, resultsCount: nat)

  /**
   * `tier_summaries`, in the order the tiers ran: the Tier 1 and Tier 2
   * reports have no `results` entry, so their count is 0.
   */
  function Summaries(reports: Reports): (r: seq<TierSummary>)
    ensures |r| == (if reports.tier1.Some? then 1 else 0) + (if reports.tier2.Some? then 1 else 0)
                 + (if reports.tier3a.Some? then 1 else 0) + (if reports.tier3b.Some? then 1 else 0)
    ensures forall s | s in r && s.name in {"tier1", "tier2"} :: s.resultsCount == 0
  {
    (if reports.tier1.Some? then [TierSummary("tier1", 0)] else [])
    + (if reports.tier2.Some? then [TierSummary("tier2", 0)] else [])
    + (if reports.tier3a.Some? then [TierSummary("tier3a", |reports.tier3a.value.results|)] else [])
    + (if reports.tier3b.Some? then [TierSummary("tier3b", |reports.tier3b.value.results|)] else [])
  }

  /**
   * Tiers 1 and 2 of `main`: Tier 1 over the dataset, then, in a full run,
   * Tier 2 over the commits Tier 1 found no test for, sharing Tier 1's
   * clone cache.
   */
  method RunTiers12(tier: Option<int>, limit: Option<int>, lines: seq<Line>, w: World, reposDir: string)
    returns (t1: Option<Tier1Stats>, t2: Option<Tier2Stats>, zero: seq<Commit>, ghost orders: seq<seq<string>>)
    ensures t1.Some? <==> RunsTier1(tier)
    ensures t2.Some? <==> RunsTier2(tier)
    ensures RunsTier1(tier) ==>
      var cs := Commits(Window(lines, limit));
      && zero == ZeroCommits(OutcomeOf(w, reposDir), cs)
      && t1.value.commitsProcessed == |cs|
      && t1.value.methodsExtracted == |TestsOf(Outcomes(OutcomeOf(w, reposDir), cs))|
      && t1.value.zeroTestCommits == |zero|
    ensures t2.Some? ==>
      && Visits(w, reposDir, zero, orders)
      && t2.value == Tier2Stats(|zero|, RecoveredCount(RecheckOf(w, reposDir), zero, orders),
                                |RecheckAll(RecheckOf(w, reposDir), zero, orders)|)
  {
    t1, t2, zero, orders := None, None, [], [];
    if tier == None || tier == Some(1) {
      var extractor := new TestExtractionPipeline(w, reposDir);
      var results := extractor.ProcessDataset(lines, limit);
      AccumulateCounts(Tier1Stats(0, 0, 0, 0, 0, 0, 0), extractor.outcome, extractor.tried, Commits(Window(lines, limit)));
      t1 := Some(extractor.stats);
      zero := extractor.commitsWithoutTests;
      if tier == None || tier == Some(2) {
        var checker := new DoubleCheckExtraction();
        orders := checker.CheckCommits(zero, extractor);
        t2 := Some(checker.stats);
      }
    }
  }

  /** What a Tier 3 generator reports after a run over the commits from fresh counters. */
  ghost predicate Generated(tool: Tool, world: (string, string) -> CommitWorld, repos: set<string>,
                            cs: seq<Commit>, targets: seq<Option<string>>, report: Tier3Report)
  {
    && |targets| == |cs|
    && report.results == ResultsOf(AttemptsOf(AttemptOf(tool, world), CheckoutOf(world), repos, cs, targets))
    && report.stats == CountAll(Tier3Stats(0, 0, 0, 0, 0), AttemptsOf(AttemptOf(tool, world), CheckoutOf(world), repos, cs, targets))
  }

  /** A fresh generator over the commits: `process_commits` of a new `EvoSuiteTestGenerator` or `RandoopTestGenerator`. */
  method Generate(tool: Tool, world: (string, string) -> CommitWorld, repos: set<string>, cs: seq<Commit>)
    returns (report: Tier3Report, ghost targets: seq<Option<string>>)
    ensures Generated(tool, world, repos, cs, targets, report)
  {
    var generator := new Generator(tool, world, repos);
    var results;
    results, targets := generator.ProcessCommits(cs);
    report := Tier3Report(generator.stats, results);
  }

  /**
   * Tier 3 of `main`: EvoSuite over the input commits when there are any,
   * then Randoop over the commits EvoSuite generated no test for, when
   * there are any.
   */
  method RunTier3(input: seq<Commit>, evoWorld: (string, string) -> CommitWorld, evoRepos: set<string>,
                  randoopWorld: (string, string) -> CommitWorld, randoopRepos: set<string>)
    returns (t3a: Option<Tier3Report>, t3b: Option<Tier3Report>,
             ghost evoTargets: seq<Option<string>>, ghost randoopTargets: seq<Option<string>>)
    ensures t3a.Some? <==> input != []
    ensures t3a.Some? ==> Generated(EvoSuite, evoWorld, evoRepos, input, evoTargets, t3a.value)
    ensures t3b.Some? <==> t3a.Some? && FailedCommits(input, t3a.value.results) != []
    ensures t3b.Some? ==>
      Generated(Randoop, randoopWorld, randoopRepos, FailedCommits(input, t3a.value.results), randoopTargets, t3b.value)
  {
    t3a, t3b, evoTargets, randoopTargets := None, None, [], [];
    if input != [] {
      var evo;
      evo, evoTargets := Generate(EvoSuite, evoWorld, evoRepos, input);
      t3a := Some(evo);
      var failed := SelectFailed(input, evo.results);
      if failed != [] {
        var randoop;
        randoop, randoopTargets := Generate(Randoop, randoopWorld, randoopRepos, failed);
        t3b := Some(randoop);
      }
    }
  }

  /**
   * A generator's report adds up: one result per commit, naming that
   * commit and the tool, one attempt per commit, one failure per failed
   * result, and the tests of all results.
   */
  lemma GeneratedCounts(tool: Tool, world: (string, string) -> CommitWorld, repos: set<string>,
                        cs: seq<Commit>, targets: seq<Option<string>>, report: Tier3Report)
    requires Generated(tool, world, repos, cs, targets, report)
    ensures |report.results| == |cs|
    ensures forall i | 0 <= i < |cs| ::
      report.results[i].project == cs[i].project && report.results[i].sha == cs[i].sha && report.results[i].tool == tool
    ensures report.stats.attempted == |cs|
    ensures report.stats.failures == FailureCount(report.results)
    ensures report.stats.testsGenerated == TestsTotal(report.results)
  {
    AttemptsMatch(tool, world, repos, cs, targets);
    CountAllSpec(Tier3Stats(0, 0, 0, 0, 0), AttemptsOf(AttemptOf(tool, world), CheckoutOf(world), repos, cs, targets));
  }

  /**
   * `main` followed by `_report`: run the tiers the option selects and
   * add up their tests. Only reading the dataset for Tier 3 outside a
   * full run can raise.
   */
  method RunPipeline(tier: Option<int>, limit: Option<int>, lines: seq<Line>, w: World, reposDir: string,
                     evoWorld: (string, string) -> CommitWorld, evoRepos: set<string>,
                     randoopWorld: (string, string) -> CommitWorld, randoopRepos: set<string>)
    returns (run: Run, ghost zero: seq<Commit>, ghost input: seq<Commit>,
             ghost evoTargets: seq<Option<string>>, ghost randoopTargets: seq<Option<string>>)
    ensures RunsTier1(tier) ==> zero == ZeroCommits(OutcomeOf(w, reposDir), Commits(Window(lines, limit)))
    ensures run.Aborted? <==> RunsTier3(tier) && Tier3Input(tier, limit, lines, zero).None?
    ensures run.Aborted? ==> tier == Some(3) && Malformed in lines
    ensures run.Finished? ==>
      var reports := run.reports;
      && run.total == (if reports.tier1.Some? then reports.tier1.value.methodsExtracted else 0)
                      + (if reports.tier2.Some? then reports.tier2.value.methodsRecovered else 0)
                      + (if reports.tier3a.Some? then TestsTotal(reports.tier3a.value.results) else 0)
                      + (if reports.tier3b.Some? then TestsTotal(reports.tier3b.value.results) else 0)
      && (reports.tier1.Some? <==> RunsTier1(tier))
      && (reports.tier1.Some? ==>
            reports.tier1.value.methodsExtracted == |TestsOf(Outcomes(OutcomeOf(w, reposDir), Commits(Window(lines, limit))))|
            && reports.tier1.value.zeroTestCommits == |zero|)
      && (reports.tier2.Some? <==> tier == None)
      && (reports.tier2.Some? ==> reports.tier2.value.checked == |zero|)
      && (RunsTier3(tier) ==> input == Tier3Input(tier, limit, lines, zero).value)
      && (reports.tier3a.Some? <==> RunsTier3(tier) && input != [])
      && (reports.tier3a.Some? ==> Generated(EvoSuite, evoWorld, evoRepos, input, evoTargets, reports.tier3a.value))
      && (reports.tier3b.Some? <==> reports.tier3a.Some? && FailedCommits(input, reports.tier3a.value.results) != [])
      && (reports.tier3b.Some? ==>
            Generated(Randoop, randoopWorld, randoopRepos, FailedCommits(input, reports.tier3a.value.results),
                      randoopTargets, reports.tier3b.value))
  {
    var t1, t2, cached;
    ghost var orders;
    t1, t2, cached, orders := RunTiers12(tier, limit, lines, w, reposDir);
    zero, input, evoTargets, randoopTargets := cached, [], [], [];
    Tier2OnlyInFullRun(tier);
    var t3a: Option<Tier3Report>, t3b: Option<Tier3Report> := None, None;
    if tier == None || tier == Some(3) {
      var commits: seq<Commit>;
      if tier == None {
        commits := Cached(cached);
      } else {
        var read := ReadDataset(lines);
        if read.None? {
          DatasetCommitsSpec(lines);
          return Aborted, zero, input, evoTargets, randoopTargets;
        }
        commits := read.value;
        if limit.Some? && limit.value != 0 {
          commits := SliceTo(commits, limit.value);
        }
      }
      input := commits;
      t3a, t3b, evoTargets, randoopTargets := RunTier3(commits, evoWorld, evoRepos, randoopWorld, randoopRepos);
      if t3a.Some? {
        GeneratedCounts(EvoSuite, evoWorld, evoRepos, input, evoTargets, t3a.value);
      }
      if t3b.Some? {
        GeneratedCounts(Randoop, randoopWorld, randoopRepos, FailedCommits(input, t3a.value.results), randoopTargets, t3b.value);
      }
    }
    var reports := Reports(t1, t2, t3a, t3b);
    var total, summaries := Report(reports);
    run := Finished(reports, total);
  }
}
