/**
 * Tier 3 of the acquisition pipeline: for each commit, check the project
 * out at the commit, build it with Maven, pick the classes to test and run
 * a test generator on them. EvoSuite (`EvoSuiteTestGenerator`) and Randoop
 * (`RandoopTestGenerator`) share all of this except the generator run, so
 * both are the class `Generator`, told apart by its `tool`.
 */
module Tier3 {
  import opened Wrappers
  import opened Text
  import opened PathHeuristics
  import opened Records
  import opened Build

  datatype Tool = EvoSuite | Randoop

  datatype Status = Success | NoTests | Failed

  /** The per-commit result dictionary. */
  datatype GenResult = GenResult(project: string, sha: string, testsGenerated: nat, tool: Tool, status: Status)

  /** The counters of `self.stats`. */
  datatype Tier3Stats = Tier3Stats(attempted: nat, cloned: nat, compiled: nat, testsGenerated: nat, failures: nat)

  /**
   * What a generator run meets: whether its jar exists; for EvoSuite the
   * outcome of the run on each class and the number of `*_ESTest.java`
   * files in the output directory after the `i`-th run; for Randoop the
   * outcome of its one run on a class list and the number of `.java` files
   * left in the output directory.
   */
  datatype GenWorld = GenWorld(
    jar: bool, run: string -> Proc, produced: nat -> nat, batch: seq<string> -> Proc, batchProduced: nat)

  /** Everything Tier 3 meets for one commit. */
  datatype CommitWorld = CommitWorld(git: CheckoutWorld, build: BuildWorld, compiledDirs: seq<seq<string>>, gen: GenWorld)

  // ---------------------------------------------------------------------
  // Generator runs
  // ---------------------------------------------------------------------

  /** A failed EvoSuite run whose stripped output reports a fatal crash or a `NullPointerException`. */
  predicate Crashed(p: Proc) {
    p.Exit? && p.code != 0
    && (Contains(Strip(p.out + p.err), "Fatal crash") || Contains(Strip(p.out + p.err), "NullPointerException"))
  }

  /** The `i`-th EvoSuite run exited 0 and test files are there. */
  predicate Generated(gw: GenWorld, classes: seq<string>, i: nat)
    requires i < |classes|
  {
    Succeeded(gw.run(classes[i])) && gw.produced(i) > 0
  }

  /** The EvoSuite loop ends at the `i`-th class: it generated tests or crashed. */
  predicate Stops(gw: GenWorld, classes: seq<string>, i: nat)
    requires i < |classes|
  {
    Generated(gw, classes, i) || Crashed(gw.run(classes[i]))
  }

  /** The first class, from the `i`-th on, at which the EvoSuite loop ends; `|classes|` when it runs out. */
  function FirstStop(gw: GenWorld, classes: seq<string>, i: nat): (k: nat)
    requires i <= |classes|
    ensures i <= k <= |classes|
    ensures forall j | i <= j < k :: !Stops(gw, classes, j)
    ensures k < |classes| ==> Stops(gw, classes, k)
    decreases |classes| - i
  {
    if i == |classes| then i
    else if Stops(gw, classes, i) then i
    else FirstStop(gw, classes, i + 1)
  }

  /** The EvoSuite loop from the `i`-th class on. */
  function EvoSuiteFrom(gw: GenWorld, classes: seq<string>, i: nat): nat
    requires i <= |classes|
    decreases |classes| - i
  {
    if i == |classes| then 0
    else if Generated(gw, classes, i) then gw.produced(i)
    else if Crashed(gw.run(classes[i])) then 0
    else EvoSuiteFrom(gw, classes, i + 1)
  }

  /**
   * First success wins, a crash aborts: the loop yields the file count of
   * the first class that generated tests, unless a crash or the end of the
   * classes comes first, when it yields 0.
   */
  lemma {:induction false} EvoSuiteStops(gw: GenWorld, classes: seq<string>, i: nat)
    requires i <= |classes|
    ensures var k := FirstStop(gw, classes, i);
      EvoSuiteFrom(gw, classes, i) == if k < |classes| && Generated(gw, classes, k) then gw.produced(k) else 0
    decreases |classes| - i
  {
    if i == |classes| {
      assert FirstStop(gw, classes, i) == i;
    } else if Stops(gw, classes, i) {
      assert FirstStop(gw, classes, i) == i;
    } else {
      assert FirstStop(gw, classes, i) == FirstStop(gw, classes, i + 1);
      assert EvoSuiteFrom(gw, classes, i) == EvoSuiteFrom(gw, classes, i + 1);
      EvoSuiteStops(gw, classes, i + 1);
    }
  }

  /** `classes[:50]`: Randoop is given at most the first fifty classes. */
  function Capped(classes: seq<string>): (r: seq<string>)
    ensures r <= classes && |r| <= 50
    ensures |classes| <= 50 ==> r == classes
    ensures |classes| > 50 ==> r == classes[..50]
  {
    if |classes| <= 50 then classes else classes[..50]
  }

  /** The number of test files a generator leaves for the classes (0 without its jar). */
  function GenerateCount(tool: Tool, gw: GenWorld, classes: seq<string>): nat {
    if !gw.jar then 0
    else
      match tool
      case EvoSuite => EvoSuiteFrom(gw, classes, 0)
      case Randoop => if gw.batch(Capped(classes)).Raised? then 0 else gw.batchProduced
  }

  /**
   * `generate_tests_evosuite`: run EvoSuite class by class; stop at the
   * first run that exits 0 and leaves test files, or at a crash; a run
   * that times out, raises or fails otherwise moves on to the next class.
   */
  method GenerateEvoSuite(gw: GenWorld, classes: seq<string>) returns (n: nat)
    ensures n == GenerateCount(EvoSuite, gw, classes)
  {
    n := 0;
    if !gw.jar {
      return;
    }
    for i := 0 to |classes|
      invariant EvoSuiteFrom(gw, classes, i) == EvoSuiteFrom(gw, classes, 0)
    {
      var result := gw.run(classes[i]);
      if result.Raised? {
        continue;
      }
      if result.code == 0 {
        var files := gw.produced(i);
        if files > 0 {
          n := files;
          return;
        }
      } else {
        var combined := Strip(result.out + result.err);
        if Contains(combined, "Fatal crash") || Contains(combined, "NullPointerException") {
          return;
        }
      }
    }
  }

  /**
   * `generate_tests_randoop`: one Randoop run on the first fifty classes;
   * whatever its exit code, the `.java` files left are counted, and a
   * timeout or exception gives 0.
   */
  method GenerateRandoop(gw: GenWorld, classes: seq<string>) returns (n: nat)
    ensures n == GenerateCount(Randoop, gw, classes)
  {
    n := 0;
    if !gw.jar {
      return;
    }
    var classList := Capped(classes);
    var result := gw.batch(classList);
    if result.Raised? {
      return;
    }
    var count := gw.batchProduced;
    if count > 0 {
      n := count;
    }
  }

  // ---------------------------------------------------------------------
  // One commit (`generate_for_commit`)
  // ---------------------------------------------------------------------

  /** `target` is what `_extract_module_from_files` may answer: a shortest module, or none when there is none. */
  predicate ModuleChoice(names: seq<string>, target: Option<string>) {
    && (target.None? <==> Modules(names) == {})
    && (target.Some? ==> target.value in Modules(names) && forall m | m in Modules(names) :: |target.value| <= |m|)
  }

  /** The classes a generator is run on: the commit's own classes, else every compiled class. */
  function ClassesFor(c: Commit, compiledDirs: seq<seq<string>>): seq<string> {
    var targets := TargetClasses(FileNames(c.files));
    if targets != [] then targets else CompiledClasses(compiledDirs)
  }

  /** How far one commit got: its result, and whether it was checked out and compiled. */
  datatype Attempt = Attempt(result: GenResult, checkedOut: bool, compiled: bool)

  /**
   * `generate_for_commit` given how the checkout went and the target
   * module `compile_project` picks.
   */
  function AttemptOutcome(tool: Tool, cw: CommitWorld, c: Commit, checkout: Checkout, target: Option<string>): (a: Attempt)
    ensures a.result.project == c.project && a.result.sha == c.sha && a.result.tool == tool
    ensures a.compiled ==> a.checkedOut
    ensures a.checkedOut <==> !checkout.NoCheckout?
    ensures a.result.status == Failed <==> !a.compiled || ClassesFor(c, cw.compiledDirs) == []
    ensures a.result.status == Success <==> a.result.testsGenerated > 0
    ensures a.result.status != Failed ==> a.result.testsGenerated == GenerateCount(tool, cw.gen, ClassesFor(c, cw.compiledDirs))
  {
    var failed := GenResult(c.project, c.sha, 0, tool, Failed);
    if checkout.NoCheckout? then Attempt(failed, false, false)
    else
      var cp := CompileOutcome(cw.build, target).classpath;
      if cp.None? || cp.value == [] then Attempt(failed, true, false)
      else
        var classes := ClassesFor(c, cw.compiledDirs);
        if classes == [] then Attempt(failed, true, true)
        else
          var n := GenerateCount(tool, cw.gen, classes);
          if n > 0 then Attempt(GenResult(c.project, c.sha, n, tool, Success), true, true)
          else Attempt(GenResult(c.project, c.sha, 0, tool, NoTests), true, true)
  }

  /** The counters `generate_for_commit` moves for an attempt. */
  function Note(s: Tier3Stats, a: Attempt): Tier3Stats {
    s.(cloned := s.cloned + (if a.checkedOut then 1 else 0),
       compiled := s.compiled + (if a.compiled then 1 else 0),
       testsGenerated := s.testsGenerated + a.result.testsGenerated,
       failures := s.failures + (if a.result.status == Failed then 1 else 0))
  }

  /** The counters after one more commit: `process_commits` counts it as attempted, then records its attempt. */
  function Count(s: Tier3Stats, a: Attempt): Tier3Stats {
    Note(s.(attempted := s.attempted + 1), a)
  }

  /**
   * The counters agree with one another, `pending` commits being counted
   * as attempted but not yet processed: no more compiled than cloned, no
   * more cloned or failed than attempted, and every processed commit that
   * did not fail was compiled.
   */
  predicate Consistent(s: Tier3Stats, pending: nat) {
    && s.compiled <= s.cloned
    && s.cloned + pending <= s.attempted
    && s.failures + pending <= s.attempted
    && s.attempted <= s.failures + s.compiled + pending
  }

  /** Recording the attempt on a commit already counted as attempted keeps the counters consistent. */
  lemma NoteConsistent(s: Tier3Stats, a: Attempt)
    requires Consistent(s, 1)
    requires a.compiled ==> a.checkedOut
    requires a.result.status == Failed || a.compiled
    ensures Consistent(Note(s, a), 0)
  {
  }

  // ---------------------------------------------------------------------
  // A whole run (`process_commits`)
  // ---------------------------------------------------------------------

  /** How each commit's checkout goes, given whether its project's directory exists. */
  function CheckoutOf(world: (string, string) -> CommitWorld): (Commit, bool) -> Checkout {
    (c: Commit, existing: bool) => CheckoutOutcome(world(c.project, c.sha).git, existing, c.sha)
  }

  /** How each commit's attempt goes, given its checkout and its target module. */
  function AttemptOf(tool: Tool, world: (string, string) -> CommitWorld): (Commit, Checkout, Option<string>) -> Attempt {
    (c: Commit, k: Checkout, target: Option<string>) => AttemptOutcome(tool, world(c.project, c.sha), c, k, target)
  }

  /** The projects with a checkout directory after the commits `cs`, starting from `repos`. */
  function ReposThrough(checkout: (Commit, bool) -> Checkout, repos: set<string>, cs: seq<Commit>): set<string> {
    if cs == [] then repos
    else
      var before := ReposThrough(checkout, repos, cs[..|cs| - 1]);
      var c := cs[|cs| - 1];
      ReposAfter(before, c.project, checkout(c, c.project in before))
  }

  /** The attempts on the commits in turn, each with the target module in `targets` at its position. */
  function AttemptsOf(attempt: (Commit, Checkout, Option<string>) -> Attempt, checkout: (Commit, bool) -> Checkout,
                      repos: set<string>, cs: seq<Commit>, targets: seq<Option<string>>): (r: seq<Attempt>)
    requires |targets| == |cs|
    ensures |r| == |cs|
  {
    if cs == [] then []
    else
      var n := |cs| - 1;
      var c := cs[n];
      AttemptsOf(attempt, checkout, repos, cs[..n], targets[..n])
        + [attempt(c, checkout(c, c.project in ReposThrough(checkout, repos, cs[..n])), targets[n])]
  }

  /** The results of the attempts. */
  function ResultsOf(attempts: seq<Attempt>): (r: seq<GenResult>)
    ensures |r| == |attempts| && forall i | 0 <= i < |r| :: r[i] == attempts[i].result
  {
    seq(|attempts|, i requires 0 <= i < |attempts| => attempts[i].result)
  }

  /** The counters after the attempts. */
  function CountAll(s: Tier3Stats, attempts: seq<Attempt>): Tier3Stats {
    if attempts == [] then s else Count(CountAll(s, attempts[..|attempts| - 1]), attempts[|attempts| - 1])
  }

  /** The Tier 3 generator (EvoSuite or Randoop) and its counters. */
  class Generator {
    const tool: Tool
    /** What each commit, by project and commit hash, meets. */
    const world: (string, string) -> CommitWorld
    /** The projects whose directory under `repos/` exists. */
    var repos: set<string>
    var stats: Tier3Stats

    ghost predicate Valid()
      reads this
    {
      Consistent(stats, 0)
    }

    constructor (tool: Tool, world: (string, string) -> CommitWorld, repos: set<string>)
      ensures Valid()
      ensures this.tool == tool && this.world == world && this.repos == repos
      ensures stats == Tier3Stats(0, 0, 0, 0, 0)
    {
      this.tool := tool;
      this.world := world;
      this.repos := repos;
      stats := Tier3Stats(0, 0, 0, 0, 0);
    }

    /**
     * `clone_and_checkout`: reuse the project's directory when HEAD is
     * verified there, else remove it and clone afresh; every refused fresh
     * checkout removes the directory again.
     */
    method CloneAndCheckout(project: string, sha: string) returns (r: Checkout)
      modifies this
      ensures r == CheckoutOutcome(world(project, sha).git, project in old(repos), sha)
      ensures repos == ReposAfter(old(repos), project, r)
      ensures stats == old(stats)
    {
      var cw := world(project, sha).git;
      var dirs := repos;
      RemoveAdd(dirs, project);
      r := NoCheckout;
      var reused := false;
      if project in dirs {
        var head := cw.reuseHead;
        if head.Exit? && head.code == 0 && StartsWith(Strip(head.out), Take(sha, 8)) {
          r, reused := Reused, true;
        } else {
          dirs := dirs - {project};
        }
      }
      if !reused {
        if !(cw.clone.Exit? && cw.clone.code == 0) {
          dirs := dirs - {project};
        } else {
          dirs := dirs + {project};
          if !(cw.checkout.Exit? && cw.checkout.code == 0) {
            dirs := dirs - {project};
          } else {
            match cw.head
            case Raised =>
              dirs := dirs - {project};
            case Exit(code, out, _) =>
              if code != 0 {
                r := Cloned(false);
              } else if StartsWith(Strip(out), Take(sha, 8)) {
                r := Cloned(true);
              } else {
                dirs := dirs - {project};
              }
          }
        }
      }
      repos := dirs;
    }

    /** `compile_project` for a commit: the module is taken from its changed files, then the build decides. */
    method CompileProject(c: Commit) returns (classpath: Option<string>, target: Option<string>)
      ensures ModuleChoice(FileNames(c.files), target)
      ensures classpath == CompileOutcome(world(c.project, c.sha).build, target).classpath
    {
      target := ExtractModuleFromFiles(FileNames(c.files));
      classpath := CompileOutcome(world(c.project, c.sha).build, target).classpath;
    }

    /** Run this generator's tool on the classes. */
    method GenerateTests(gw: GenWorld, classes: seq<string>) returns (n: nat)
      ensures n == GenerateCount(tool, gw, classes)
    {
      match tool
      case EvoSuite =>
        n := GenerateEvoSuite(gw, classes);
      case Randoop =>
        n := GenerateRandoop(gw, classes);
    }

    /** The part of `generate_for_commit` after the checkout: build, pick the classes and generate. */
    method BuildAndGenerate(cw: CommitWorld, c: Commit, repo: Checkout) returns (a: Attempt, ghost target: Option<string>)
      requires cw == world(c.project, c.sha)
      ensures !repo.NoCheckout? ==> ModuleChoice(FileNames(c.files), target)
      ensures a == AttemptOutcome(tool, cw, c, repo, target)
    {
      var failed := GenResult(c.project, c.sha, 0, tool, Failed);
      target := None;
      if repo.NoCheckout? {
        return Attempt(failed, false, false), target;
      }
      var classpath, chosen := CompileProject(c);
      target := chosen;
      if classpath.None? || classpath.value == [] {
        return Attempt(failed, true, false), target;
      }
      var classes := ExtractTargetClasses(FileNames(c.files));
      if classes == [] {
        classes := CollectCompiledClasses(cw.compiledDirs);
        if classes == [] {
          return Attempt(failed, true, true), target;
        }
      }
      var n := GenerateTests(cw.gen, classes);
      if n > 0 {
        a := Attempt(failed.(testsGenerated := n, status := Success), true, true);
      } else {
        a := Attempt(failed.(status := NoTests), true, true);
      }
    }

    /**
     * `generate_for_commit`: check out, build, pick the classes and
     * generate; a failed checkout, build or class search is a failure,
     * otherwise the commit is a success when tests were generated. The
     * counters move as the attempt went.
     */
    method GenerateForCommit(c: Commit) returns (r: GenResult, ghost target: Option<string>)
      requires Consistent(stats, 1)
      modifies this
      ensures Valid()
      ensures var checkout := CheckoutOutcome(world(c.project, c.sha).git, c.project in old(repos), c.sha);
        && (!checkout.NoCheckout? ==> ModuleChoice(FileNames(c.files), target))
        && r == AttemptOutcome(tool, world(c.project, c.sha), c, checkout, target).result
        && stats == Note(old(stats), AttemptOutcome(tool, world(c.project, c.sha), c, checkout, target))
        && repos == ReposAfter(old(repos), c.project, checkout)
    {
      var repo := CloneAndCheckout(c.project, c.sha);
      var a;
      a, target := BuildAndGenerate(world(c.project, c.sha), c, repo);
      r := a.result;
      NoteConsistent(stats, a);
      stats := Note(stats, a);
    }

    /** The state of `process_commits` once it has attempted the commits `cs`. */
    ghost predicate Attempted(cs: seq<Commit>, targets: seq<Option<string>>, repos0: set<string>, s0: Tier3Stats,
                              results: seq<GenResult>)
      reads this
    {
      Progress(AttemptOf(tool, world), CheckoutOf(world), repos0, s0, cs, targets, results, stats, repos)
    }

    /**
     * `process_commits`: attempt every commit in turn, counting it as
     * attempted before generating for it, and collect the results.
     */
    method ProcessCommits(cs: seq<Commit>) returns (results: seq<GenResult>, ghost targets: seq<Option<string>>)
      requires Valid()
      modifies this
      ensures Valid()
      ensures Attempted(cs, targets, old(repos), old(stats), results)
    {
      ghost var repos0, s0 := repos, stats;
      results, targets := [], [];
      assert cs[..0] == [];
      for i := 0 to |cs|
        invariant Valid()
        invariant Attempted(cs[..i], targets, repos0, s0, results)
      {
        results, targets := AttemptStep(cs, i, targets, repos0, s0, results);
      }
      assert cs[..|cs|] == cs;
    }

    /** One commit of `process_commits`. */
    method AttemptStep(cs: seq<Commit>, i: nat, ghost targets0: seq<Option<string>>, ghost repos0: set<string>,
                       ghost s0: Tier3Stats, results0: seq<GenResult>)
      returns (results: seq<GenResult>, ghost targets: seq<Option<string>>)
      requires i < |cs|
      requires Valid() && Attempted(cs[..i], targets0, repos0, s0, results0)
      modifies this
      ensures Valid() && Attempted(cs[..i + 1], targets, repos0, s0, results)
    {
      var c := cs[i];
      ghost var stats0, checkout := stats, CheckoutOutcome(world(c.project, c.sha).git, c.project in repos, c.sha);
      stats := stats.(attempted := stats.attempted + 1);
      var r, target := GenerateForCommit(c);
      ghost var a := AttemptOutcome(tool, world(c.project, c.sha), c, checkout, target);
      results := results0 + [r];
      targets := targets0 + [target];
      assert checkout == CheckoutOf(world)(c, c.project in old(repos));
      assert a == AttemptOf(tool, world)(c, checkout, target);
      ProgressSnoc(AttemptOf(tool, world), CheckoutOf(world), repos0, s0, cs, i, targets0, results0, stats0, old(repos), a, target);
    }
  }

  /** Removing or adding a project twice is removing or adding it once; the last edit wins. */
  lemma RemoveAdd(repos: set<string>, project: string)
    ensures repos - {project} - {project} == repos - {project}
    ensures repos - {project} + {project} == repos + {project}
    ensures repos + {project} - {project} == repos - {project}
    ensures repos - {project} + {project} - {project} == repos - {project}
    ensures project in repos ==> repos + {project} == repos
  {
  }

  /** The state of `process_commits` as values: attempts, counters and checkout directories after the commits `cs`. */
  ghost predicate Progress(attempt: (Commit, Checkout, Option<string>) -> Attempt, checkout: (Commit, bool) -> Checkout,
                           repos0: set<string>, s0: Tier3Stats, cs: seq<Commit>, targets: seq<Option<string>>,
                           results: seq<GenResult>, stats: Tier3Stats, repos: set<string>)
  {
    && |targets| == |cs|
    && var attempts := AttemptsOf(attempt, checkout, repos0, cs, targets);
    && Chosen(attempts, cs, targets)
    && results == ResultsOf(attempts)
    && stats == CountAll(s0, attempts)
    && repos == ReposThrough(checkout, repos0, cs)
  }

  /** One more commit extends the attempts, the counters, the results and the checkout directories. */
  lemma ProgressSnoc(attempt: (Commit, Checkout, Option<string>) -> Attempt, checkout: (Commit, bool) -> Checkout,
                     repos0: set<string>, s0: Tier3Stats, cs: seq<Commit>, i: nat, targets: seq<Option<string>>,
                     results: seq<GenResult>, stats: Tier3Stats, repos: set<string>, a: Attempt, target: Option<string>)
    requires i < |cs| && Progress(attempt, checkout, repos0, s0, cs[..i], targets, results, stats, repos)
    requires a == attempt(cs[i], checkout(cs[i], cs[i].project in repos), target)
    requires a.checkedOut ==> ModuleChoice(FileNames(cs[i].files), target)
    ensures Progress(attempt, checkout, repos0, s0, cs[..i + 1], targets + [target], results + [a.result], Count(stats, a),
                     ReposAfter(repos, cs[i].project, checkout(cs[i], cs[i].project in repos)))
  {
    var attempts := AttemptsOf(attempt, checkout, repos0, cs[..i], targets);
    AttemptsSnoc(attempt, checkout, repos0, cs, i, targets, target);
    ResultsSnoc(attempts, a);
    ChosenSnoc(attempts, cs, targets, i, a, target);
    assert CountAll(s0, attempts + [a]) == Count(stats, a) by {
      assert (attempts + [a])[..|attempts|] == attempts;
    }
  }

  /** Every attempt that checked its commit out chose its target module from the commit's files. */
  ghost predicate Chosen(attempts: seq<Attempt>, cs: seq<Commit>, targets: seq<Option<string>>)
    requires |attempts| == |cs| == |targets|
  {
    forall i | 0 <= i < |cs| :: attempts[i].checkedOut ==> ModuleChoice(FileNames(cs[i].files), targets[i])
  }

  /** One more attempt keeps the module choices when its own is one. */
  lemma ChosenSnoc(attempts: seq<Attempt>, cs: seq<Commit>, targets: seq<Option<string>>, i: nat, a: Attempt, target: Option<string>)
    requires i < |cs| && |attempts| == |targets| == i && Chosen(attempts, cs[..i], targets)
    requires a.checkedOut ==> ModuleChoice(FileNames(cs[i].files), target)
    ensures Chosen(attempts + [a], cs[..i + 1], targets + [target])
  {
    forall j | 0 <= j <= i
      ensures (attempts + [a])[j].checkedOut ==> ModuleChoice(FileNames(cs[..i + 1][j].files), (targets + [target])[j])
    {
      if j < i {
        assert cs[..i + 1][j] == cs[..i][j];
      }
    }
  }

  /** One more commit appends its attempt and applies its checkout to the directories. */
  lemma AttemptsSnoc(attempt: (Commit, Checkout, Option<string>) -> Attempt, checkout: (Commit, bool) -> Checkout,
                     repos0: set<string>, cs: seq<Commit>, i: nat, targets: seq<Option<string>>, target: Option<string>)
    requires i < |cs| && |targets| == i
    ensures var before := ReposThrough(checkout, repos0, cs[..i]);
            var k := checkout(cs[i], cs[i].project in before);
            && AttemptsOf(attempt, checkout, repos0, cs[..i + 1], targets + [target])
               == AttemptsOf(attempt, checkout, repos0, cs[..i], targets) + [attempt(cs[i], k, target)]
            && ReposThrough(checkout, repos0, cs[..i + 1]) == ReposAfter(before, cs[i].project, k)
  {
    assert cs[..i + 1][..i] == cs[..i];
    assert (targets + [target])[..i] == targets;
  }

  /** One more attempt appends its result. */
  lemma ResultsSnoc(attempts: seq<Attempt>, a: Attempt)
    ensures ResultsOf(attempts + [a]) == ResultsOf(attempts) + [a.result]
  {
  }
}
