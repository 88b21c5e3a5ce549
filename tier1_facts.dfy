/**
 * What Tier 1 guarantees about its results: the candidate paths of a
 * commit are distinct test files, every test carries the commit it was
 * found for, and the dataset counters agree with the lists they count.
 */
module Tier1Facts {
  import opened Wrappers
  import opened Text
  import opened PathHeuristics
  import opened Extraction
  import opened Records
  import opened Tier1

  /** `Elems` holds exactly the elements of the sequence. */
  lemma {:induction false} ElemsSpec(xs: seq<string>)
    ensures forall x :: x in Elems(xs) <==> x in xs
  {
    if xs != [] {
      ElemsSpec(xs[..|xs| - 1]);
      assert xs == xs[..|xs| - 1] + [xs[|xs| - 1]];
    }
  }

  /** Deduplication keeps every element and repeats none. */
  lemma {:induction false} DedupSpec(xs: seq<string>)
    ensures forall x :: x in Dedup(xs) <==> x in xs
    ensures forall i, j | 0 <= i < j < |Dedup(xs)| :: Dedup(xs)[i] != Dedup(xs)[j]
  {
    if xs != [] {
      var init := xs[..|xs| - 1];
      var x := xs[|xs| - 1];
      DedupSpec(init);
      ElemsSpec(init);
      assert xs == init + [x];
    }
  }

  /** Every candidate of a changed Java file is a Java test file. */
  lemma {:induction false} AllCandidatesAreTestFiles(names: seq<string>)
    ensures forall x | x in AllCandidates(names) :: IsTestFile(x) && EndsWith(x, ".java")
  {
    if names != [] {
      var last := names[|names| - 1];
      AllCandidatesAreTestFiles(names[..|names| - 1]);
      CandidatesAreTestFiles(last);
    }
  }

  /**
   * The paths `process_commit` fetches are the candidates of the changed
   * Java files, each exactly once, and all of them are Java test files.
   */
  lemma TriedPathsSpec(c: Commit)
    ensures forall x :: x in TriedPaths(c) <==> x in AllCandidates(FileNames(c.files))
    ensures forall i, j | 0 <= i < j < |TriedPaths(c)| :: TriedPaths(c)[i] != TriedPaths(c)[j]
    ensures forall x | x in TriedPaths(c) :: IsTestFile(x) && EndsWith(x, ".java")
  {
    DedupSpec(AllCandidates(FileNames(c.files)));
    AllCandidatesAreTestFiles(FileNames(c.files));
  }

  /**
   * Fetching paths finds at most one file per path, and every test it
   * collects comes from one of the paths, carries the commit and the tier,
   * and has the qualified name of its package and class.
   */
  lemma {:induction false} HarvestShape(w: World, project: string, sha: string, paths: seq<string>, tier: Option<nat>)
    ensures HarvestOf(w, project, sha, paths, tier).found <= |paths|
    ensures forall t | t in HarvestOf(w, project, sha, paths, tier).tests ::
      t.extracted.path in paths && t.project == project && t.sha == sha && t.tier == tier
      && t.fqcn == Fqcn(t.package, t.className)
  {
    if paths != [] {
      var init := paths[..|paths| - 1];
      var p := paths[|paths| - 1];
      HarvestShape(w, project, sha, init, tier);
      assert paths == init + [p];
      match GitShow(w, project, sha, p)
      case None =>
      case Some(content) =>
        TestsOfFileShape(w, project, sha, p, content, tier);
    }
  }

  /**
   * The result of one commit names that commit, finds at most as many test
   * files as it tries, and every test it collects belongs to the commit and
   * comes from one of the candidate test files it tried.
   */
  lemma CommitOutcomeShape(w: World, reposDir: string, c: Commit)
    ensures CommitOutcome(w, reposDir, c).project == c.project && CommitOutcome(w, reposDir, c).sha == c.sha
    ensures CommitOutcome(w, reposDir, c).testFilesFound <= Tried(w, reposDir, c)
    ensures forall t | t in CommitOutcome(w, reposDir, c).tests ::
      && t.project == c.project && t.sha == c.sha && t.tier.None?
      && t.extracted.path in TriedPaths(c) && IsTestFile(t.extracted.path)
  {
    HarvestShape(w, c.project, c.sha, TriedPaths(c), None);
    TriedPathsSpec(c);
  }

  /** A commit whose project cannot be cloned yields an empty result. */
  lemma CloneFailureIsEmpty(w: World, reposDir: string, c: Commit)
    requires CloneOutcome(w, reposDir, c.project).None?
    ensures CommitOutcome(w, reposDir, c) == CommitResult(c.project, c.sha, 0, 0, [])
    ensures Tried(w, reposDir, c) == 0
  {
  }

  /** The number of results without any test method. */
  function EmptyResults(results: seq<CommitResult>): nat {
    if results == [] then 0
    else EmptyResults(results[..|results| - 1]) + (if results[|results| - 1].tests == [] then 1 else 0)
  }

  /**
   * The commits without tests are exactly the processed commits whose
   * result has no test method, one per such result.
   */
  lemma {:induction false} ZeroCommitsSpec(outcome: Commit -> CommitResult, cs: seq<Commit>)
    ensures forall c :: c in ZeroCommits(outcome, cs) <==> c in cs && outcome(c).tests == []
    ensures |ZeroCommits(outcome, cs)| == EmptyResults(Outcomes(outcome, cs))
  {
    if cs != [] {
      var init := cs[..|cs| - 1];
      var c := cs[|cs| - 1];
      ZeroCommitsSpec(outcome, init);
      assert cs == init + [c];
      var rs := Outcomes(outcome, cs);
      assert rs[..|rs| - 1] == Outcomes(outcome, init);
    }
  }

  /**
   * The dataset counters: one more commit processed per commit, as many
   * methods extracted as the results hold, and one zero-test commit per
   * commit without tests.
   */
  lemma {:induction false} AccumulateCounts(s: Tier1Stats, outcome: Commit -> CommitResult, tried: Commit -> nat,
                                            cs: seq<Commit>)
    ensures Accumulate(s, outcome, tried, cs).commitsProcessed == s.commitsProcessed + |cs|
    ensures Accumulate(s, outcome, tried, cs).methodsExtracted == s.methodsExtracted + |TestsOf(Outcomes(outcome, cs))|
    ensures Accumulate(s, outcome, tried, cs).zeroTestCommits == s.zeroTestCommits + |ZeroCommits(outcome, cs)|
    ensures Accumulate(s, outcome, tried, cs).cloneFailures == s.cloneFailures
  {
    if cs != [] {
      var init := cs[..|cs| - 1];
      AccumulateCounts(s, outcome, tried, init);
      var rs := Outcomes(outcome, cs);
      assert rs[..|rs| - 1] == Outcomes(outcome, init);
    }
  }
}
