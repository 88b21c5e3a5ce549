/**
 * The records the pipeline passes around (dataset commits, extracted tests)
 * and the outside world it queries: subprocess results and the git, file
 * and regular-expression oracles of Tiers 1 and 2.
 */
module Records {
  import opened Wrappers
  import opened Text
  import opened Extraction

  /** One changed file of a commit; a missing `file_name` reads as `""`. */
  datatype FileEntry = FileEntry(fileName: string)

  /** A dataset commit: project, commit hash and changed files (absent files read as none). */
  datatype Commit = Commit(project: string, sha: string, files: seq<FileEntry>)

  /** One line of the dataset file: blank, not valid JSON, or a commit record. */
  datatype Line = Blank | Malformed | Record(commit: Commit)

  /** The outcome of a subprocess: its exit code and captured output, or an exception (a timeout). */
  datatype Proc = Exit(code: int, out: string, err: string) | Raised

  /** The matches of the JUnit 4/5 and JUnit 3 method patterns in a file's text. */
  datatype Lexed = Lexed(at: seq<Match>, legacy: seq<Match>)

  /**
   * What Tiers 1 and 2 learn from outside: whether a bare repository
   * directory exists, `git clone --bare` per project, `git show` and
   * `git ls-tree` per project, commit and path, and the regular expressions
   * applied to a file's text (method patterns, `package`, class declaration).
   */
  datatype World = World(
    onDisk: string -> bool,
    clone: string -> Proc,
    show: (string, string, string) -> Proc,
    lsTree: (string, string, string) -> Proc,
    lex: string -> Lexed,
    package: string -> Option<string>,
    classDecl: string -> Option<string>)

  /** A test method with the commit and class it was found for; `tier` is set by Tier 2 only. */
  datatype Test = Test(
    extracted: Extracted, project: string, sha: string,
    package: Option<string>, className: string, fqcn: string, tier: Option<nat>)

  /** The names of the changed files. */
  function FileNames(files: seq<FileEntry>): (r: seq<string>)
    ensures |r| == |files| && forall i | 0 <= i < |files| :: r[i] == files[i].fileName
  {
    if files == [] then [] else FileNames(files[..|files| - 1]) + [files[|files| - 1].fileName]
  }

  /** `f"{pkg}.{cname}" if pkg else cname`. */
  function Fqcn(pkg: Option<string>, cname: string): (r: string)
    ensures pkg.Some? && pkg.value != [] ==> StartsWith(r, pkg.value + ".") && |r| == |pkg.value| + 1 + |cname|
    ensures !(pkg.Some? && pkg.value != []) ==> r == cname
  {
    if pkg.Some? && pkg.value != [] then pkg.value + "." + cname else cname
  }

  /** The qualified name ends with the class name. */
  lemma FqcnEndsWithClass(pkg: Option<string>, cname: string)
    ensures EndsWith(Fqcn(pkg, cname), cname)
  {
    var r := Fqcn(pkg, cname);
    assert r[|r| - |cname|..] == cname;
  }

  /** `extract_classname`: the declared class, or else the file's stem. */
  function ClassName(declared: Option<string>, path: string): (r: string)
    ensures declared.None? ==> r == Stem(path) && r <= Basename(path)
  {
    declared.GetOr(Stem(path))
  }

  /** `git_show`: the file's text when `git show` exits 0 with some output. */
  function GitShow(w: World, project: string, sha: string, path: string): (r: Option<string>)
    ensures r.Some? <==> w.show(project, sha, path).Exit? && w.show(project, sha, path).code == 0
                         && w.show(project, sha, path).out != []
    ensures r.Some? ==> r.value == w.show(project, sha, path).out
  {
    match w.show(project, sha, path)
    case Exit(code, out, _) => if code == 0 && out != [] then Some(out) else None
    case Raised => None
  }

  /** The non-empty strings of `xs`, in order. */
  function NonEmpty(xs: seq<string>): (r: seq<string>)
    ensures forall x | x in r :: x != [] && x in xs
    ensures forall x | x in xs && x != [] :: x in r
  {
    if xs == [] then []
    else NonEmpty(xs[..|xs| - 1]) + (if xs[|xs| - 1] != [] then [xs[|xs| - 1]] else [])
  }

  /** `git_ls_tree`: the listed paths, one per non-empty output line, or none on failure. */
  function LsTree(w: World, project: string, sha: string, prefix: string): (r: seq<string>)
    ensures !(w.lsTree(project, sha, prefix).Exit? && w.lsTree(project, sha, prefix).code == 0) ==> r == []
    ensures w.lsTree(project, sha, prefix).Exit? && w.lsTree(project, sha, prefix).code == 0 ==>
      r == NonEmpty(Split(Strip(w.lsTree(project, sha, prefix).out), '\n'))
    ensures forall x | x in r :: x != [] && '\n' !in x
  {
    match w.lsTree(project, sha, prefix)
    case Exit(code, out, _) =>
      if code != 0 then []
      else
        SplitJoin(Strip(out), '\n');
        NonEmpty(Split(Strip(out), '\n'))
    case Raised => []
  }

  /** The extracted methods of one test file, tagged with commit, package and class. */
  function Label(ms: seq<Extracted>, project: string, sha: string, pkg: Option<string>,
                 cname: string, tier: Option<nat>): (r: seq<Test>)
    ensures |r| == |ms|
  {
    var fqcn := Fqcn(pkg, cname);
    seq(|ms|, i requires 0 <= i < |ms| => Test(ms[i], project, sha, pkg, cname, fqcn, tier))
  }

  /** Each labelled test is the extracted method at the same position, with the commit and class attached. */
  lemma LabelAt(ms: seq<Extracted>, project: string, sha: string, pkg: Option<string>,
                cname: string, tier: Option<nat>)
    ensures forall i | 0 <= i < |ms| ::
      Label(ms, project, sha, pkg, cname, tier)[i] == Test(ms[i], project, sha, pkg, cname, Fqcn(pkg, cname), tier)
  {
  }

  /** The tests the pipeline records for one fetched test file. */
  ghost function TestsOfFile(w: World, project: string, sha: string, path: string, content: string,
                             tier: Option<nat>): seq<Test>
  {
    var lexed := w.lex(content);
    var methods := ExtractSpec(content, path, lexed.at, lexed.legacy);
    Label(methods, project, sha, w.package(content), ClassName(w.classDecl(content), path), tier)
  }

  /** Every test recorded for a file carries that file's path and the commit it was found for. */
  lemma TestsOfFileShape(w: World, project: string, sha: string, path: string, content: string, tier: Option<nat>)
    ensures forall t | t in TestsOfFile(w, project, sha, path, content, tier) ::
      t.extracted.path == path && t.project == project && t.sha == sha && t.tier == tier
      && t.fqcn == Fqcn(t.package, t.className)
  {
    var lexed := w.lex(content);
    ExtractPaths(content, path, lexed.at, lexed.legacy);
    LabelAt(ExtractSpec(content, path, lexed.at, lexed.legacy), project, sha, w.package(content),
            ClassName(w.classDecl(content), path), tier);
  }
}
