/**
 * The decisions Tier 3 takes around git and Maven before it generates any
 * test: whether a checkout of the commit can be used (`clone_and_checkout`),
 * which `pom.xml` the build starts from (`_find_root_pom`), and which Maven
 * invocations `compile_project` makes and what classpath it answers.
 */
module Build {
  import opened Wrappers
  import opened Text
  import opened Records

  // ---------------------------------------------------------------------
  // Checkout (`clone_and_checkout`)
  // ---------------------------------------------------------------------

  /**
   * The git calls of `clone_and_checkout` for one commit: `reuseHead` is
   * `git rev-parse HEAD` in an existing directory after `git clean` and
   * `git checkout -f` (`Raised` when any of the three raised), then the
   * fresh `git clone`, `git checkout` and `git rev-parse HEAD`.
   */
  datatype CheckoutWorld = CheckoutWorld(reuseHead: Proc, clone: Proc, checkout: Proc, head: Proc)

  /** A usable checkout: the existing directory, or a fresh clone whose HEAD was or could not be verified. */
  datatype Checkout = Reused | Cloned(verified: bool) | NoCheckout

  /** `sha[:8]`, the prefix HEAD is checked against. */
  function ShortSha(sha: string): string {
    Take(sha, 8)
  }

  /** `returncode == 0 and stdout.strip().startswith(sha[:8])`. */
  predicate HeadIs(p: Proc, sha: string) {
    p.Exit? && p.code == 0 && StartsWith(Strip(p.out), ShortSha(sha))
  }

  /** The subprocess exited with code 0. */
  predicate Succeeded(p: Proc) {
    p.Exit? && p.code == 0
  }

  /**
   * `clone_and_checkout`: an existing directory is used only when HEAD is
   * verified there; otherwise the project is cloned afresh, and the fresh
   * checkout is refused when the clone or the checkout fails, when a call
   * raises, or when `rev-parse` succeeds with another commit; a `rev-parse`
   * that exits non-zero leaves the checkout unverified but usable.
   */
  function CheckoutOutcome(cw: CheckoutWorld, existing: bool, sha: string): Checkout {
    if existing && HeadIs(cw.reuseHead, sha) then Reused
    else if !Succeeded(cw.clone) || !Succeeded(cw.checkout) then NoCheckout
    else
      match cw.head
      case Raised => NoCheckout
      case Exit(code, out, _) =>
        if code != 0 then Cloned(false)
        else if StartsWith(Strip(out), ShortSha(sha)) then Cloned(true)
        else NoCheckout
  }

  /**
   * A checkout is used only when HEAD was seen to start with `sha[:8]`, or
   * after a fresh clone and checkout that both exited 0 whose `rev-parse`
   * exited non-zero; an existing directory is reused only when verified.
   */
  lemma CheckoutSound(cw: CheckoutWorld, existing: bool, sha: string)
    ensures CheckoutOutcome(cw, existing, sha) == Reused <==> existing && HeadIs(cw.reuseHead, sha)
    ensures CheckoutOutcome(cw, existing, sha) == Cloned(true) ==>
      !(existing && HeadIs(cw.reuseHead, sha)) && Succeeded(cw.clone) && Succeeded(cw.checkout) && HeadIs(cw.head, sha)
    ensures CheckoutOutcome(cw, existing, sha) == Cloned(false) <==>
      && !(existing && HeadIs(cw.reuseHead, sha)) && Succeeded(cw.clone) && Succeeded(cw.checkout)
      && cw.head.Exit? && cw.head.code != 0
    ensures CheckoutOutcome(cw, existing, sha) != NoCheckout ==>
      HeadIs(cw.reuseHead, sha) || HeadIs(cw.head, sha) || (cw.head.Exit? && cw.head.code != 0)
  {
  }

  /** A failed fresh clone or checkout is never used, whatever `rev-parse` says. */
  lemma FailedCloneRefused(cw: CheckoutWorld, existing: bool, sha: string)
    requires !(existing && HeadIs(cw.reuseHead, sha))
    requires !Succeeded(cw.clone) || !Succeeded(cw.checkout)
    ensures CheckoutOutcome(cw, existing, sha) == NoCheckout
  {
  }

  /** The projects whose directory under `repos/` exists after one checkout: removed exactly when it failed. */
  function ReposAfter(repos: set<string>, project: string, r: Checkout): (s: set<string>)
    ensures project in s <==> !r.NoCheckout?
    ensures s - {project} == repos - {project}
  {
    if r.NoCheckout? then repos - {project} else repos + {project}
  }

  // ---------------------------------------------------------------------
  // Root pom (`_find_root_pom`)
  // ---------------------------------------------------------------------

  /** The index of the first of the paths (given by their parts) with the fewest parts, as Python's `min` picks it. */
  function Shallowest(poms: seq<seq<string>>): (k: nat)
    requires poms != []
    ensures k < |poms|
  {
    if |poms| == 1 then 0
    else
      var k := Shallowest(poms[..|poms| - 1]);
      if |poms[|poms| - 1]| < |poms[k]| then |poms| - 1 else k
  }

  /** `min(all_poms, key=len(parts))`: no pom has fewer parts, and every earlier one has more. */
  lemma {:induction false} ShallowestSpec(poms: seq<seq<string>>)
    requires poms != []
    ensures forall j | 0 <= j < |poms| :: |poms[Shallowest(poms)]| <= |poms[j]|
    ensures forall j | 0 <= j < Shallowest(poms) :: |poms[Shallowest(poms)]| < |poms[j]|
  {
    if |poms| > 1 {
      var init := poms[..|poms| - 1];
      ShallowestSpec(init);
      assert forall j | 0 <= j < |init| :: init[j] == poms[j];
    }
  }

  /** `_find_root_pom`: `pom.xml` at the root when it exists, else the shallowest pom found, else none. */
  function FindRootPom(rootPom: bool, poms: seq<seq<string>>): (r: Option<seq<string>>)
    ensures r.None? <==> !rootPom && poms == []
    ensures rootPom ==> r == Some(["pom.xml"])
    ensures !rootPom && poms != [] ==> r.value in poms
  {
    if rootPom then Some(["pom.xml"])
    else if poms == [] then None
    else Some(poms[Shallowest(poms)])
  }

  // ---------------------------------------------------------------------
  // Build (`compile_project`)
  // ---------------------------------------------------------------------

  datatype Goal = Install | Compile

  /** A Maven invocation: a build with its goal and the module of `-pl <module> -am`, or `dependency:build-classpath` of a pom. */
  datatype MavenCall = Mvn(goal: Goal, pl: Option<string>) | BuildClasspath(pom: Option<string>)

  /**
   * What `compile_project` finds for one checkout: whether `pom.xml` is at
   * the root and every `pom.xml` below it (as path parts, in glob order);
   * how the best-effort calls before the build end (`install -N` of the
   * root pom, and the tooling pre-installs made with a target module; only
   * an exception out of them matters); whether a module has its own pom;
   * the result of each Maven invocation; the `target/classes` directories
   * under the search directory after the build and after the retry; and
   * whether the classpath pom exists.
   */
  datatype BuildWorld = BuildWorld(
    rootPom: bool, poms: seq<seq<string>>,
    prepare: Proc, tooling: Proc,
    modulePom: string -> bool,
    run: MavenCall -> Proc,
    classes: (Option<string>, bool) -> seq<string>,
    cpPom: Option<string> -> bool)

  /** The Maven invocations made, and the classpath answered (none for `(False, None)`). */
  datatype Compiled = Compiled(calls: seq<MavenCall>, classpath: Option<string>)

  /** The main build: `install` with a target module, `compile` without; `-pl` only when the module has a pom. */
  function MainBuild(bw: BuildWorld, target: Option<string>): MavenCall {
    Mvn(if target.Some? then Install else Compile,
          if target.Some? && bw.modulePom(target.value) then target else None)
  }

  /** The full-project retry. */
  const Retry := Mvn(Install, None)

  /** `:`-joined classes directories, followed by the dependency classpath when Maven gave one. */
  function Classpath(dirs: seq<string>, dep: Proc): string {
    if dep.Exit? && dep.code == 0 && Strip(dep.out) != [] then Join(dirs + [Strip(dep.out)], ":")
    else Join(dirs, ":")
  }

  /**
   * `compile_project` for the target module `target`: no pom, or an
   * exception out of any call, gives no classpath; otherwise the main build
   * runs, then the full-project retry when it left no classes directory and
   * a module was targeted, and the classpath is the classes directories,
   * with Maven's dependency classpath appended when the classpath pom
   * exists and `dependency:build-classpath` prints one.
   */
  function CompileOutcome(bw: BuildWorld, target: Option<string>): Compiled {
    if FindRootPom(bw.rootPom, bw.poms).None? then Compiled([], None)
    else if bw.prepare.Raised? || (target.Some? && bw.tooling.Raised?) then Compiled([], None)
    else
      var main := MainBuild(bw, target);
      if bw.run(main).Raised? then Compiled([main], None)
      else if bw.classes(target, false) == [] && target.Some? then
        if bw.run(Retry).Raised? then Compiled([main, Retry], None)
        else Classes([main, Retry], bw, target, bw.classes(target, true))
      else Classes([main], bw, target, bw.classes(target, false))
  }

  /** The end of `compile_project` once the builds are done and `dirs` are the classes directories found. */
  function Classes(calls: seq<MavenCall>, bw: BuildWorld, target: Option<string>, dirs: seq<string>): Compiled {
    if dirs == [] then Compiled(calls, None)
    else if !bw.cpPom(target) then Compiled(calls, Some(Join(dirs, ":")))
    else
      var q := BuildClasspath(target);
      if bw.run(q).Raised? then Compiled(calls + [q], None)
      else Compiled(calls + [q], Some(Classpath(dirs, bw.run(q))))
  }

  /** Without any `pom.xml` nothing is built. */
  lemma NoPomNoBuild(bw: BuildWorld, target: Option<string>)
    requires !bw.rootPom && bw.poms == []
    ensures CompileOutcome(bw, target) == Compiled([], None)
  {
  }

  /**
   * The first Maven build is `install` exactly when a module is targeted,
   * and it is restricted with `-pl` to that module exactly when the module
   * has its own pom.
   */
  lemma GoalAndModule(bw: BuildWorld, target: Option<string>)
    requires CompileOutcome(bw, target).calls != []
    ensures CompileOutcome(bw, target).calls[0].Mvn?
    ensures CompileOutcome(bw, target).calls[0].goal == Install <==> target.Some?
    ensures CompileOutcome(bw, target).calls[0].pl.Some? <==> target.Some? && bw.modulePom(target.value)
    ensures CompileOutcome(bw, target).calls[0].pl.Some? ==> CompileOutcome(bw, target).calls[0].pl == target
  {
  }

  /**
   * The full-project retry is made exactly when the main build ran without
   * raising, found no classes directory and a module was targeted; at most
   * two builds are ever made.
   */
  lemma RetryRule(bw: BuildWorld, target: Option<string>)
    ensures var r := CompileOutcome(bw, target);
      (|r.calls| >= 2 && r.calls[1] == Retry) <==>
        (r.calls != [] && !bw.run(r.calls[0]).Raised? && bw.classes(target, false) == [] && target.Some?)
    ensures forall i | 2 <= i < |CompileOutcome(bw, target).calls| :: CompileOutcome(bw, target).calls[i].BuildClasspath?
  {
  }

  /**
   * When the targeted module has no pom of its own, the retry repeats the
   * main build: both are a plain `install` of the whole project.
   */
  lemma RetryRepeatsMainBuild(bw: BuildWorld, m: string)
    requires !bw.modulePom(m)
    ensures MainBuild(bw, Some(m)) == Retry
  {
  }

  /**
   * A classpath is answered only when some classes directory was found; it
   * is those directories joined with `:`, followed by the dependency
   * classpath exactly when `dependency:build-classpath` ran on an existing
   * pom, exited 0 and printed something.
   */
  lemma ClasspathRule(bw: BuildWorld, target: Option<string>)
    requires CompileOutcome(bw, target).classpath.Some?
    ensures var r := CompileOutcome(bw, target);
      var dirs := bw.classes(target, |r.calls| >= 2 && r.calls[1] == Retry);
      var q := BuildClasspath(target);
      && dirs != []
      && (q in r.calls <==> bw.cpPom(target))
      && (q in r.calls && Succeeded(bw.run(q)) && Strip(bw.run(q).out) != [] ==>
            r.classpath == Some(Join(dirs + [Strip(bw.run(q).out)], ":")))
      && (!(q in r.calls && Succeeded(bw.run(q)) && Strip(bw.run(q).out) != []) ==>
            r.classpath == Some(Join(dirs, ":")))
  {
    var main := MainBuild(bw, target);
    assert main != BuildClasspath(target) && Retry != BuildClasspath(target);
  }
}
