/**
 * The path heuristics of the test-acquisition pipeline: which paths are test
 * files, where the tests of a main-source file are looked for (Tier 1), which
 * test directory is listed for it (Tier 2), and the Maven module and class
 * names derived from the changed files and from compiled classes (Tier 3).
 */
module PathHeuristics {
  import opened Wrappers
  import opened Text

  const MainDir := "/src/main/"
  const TestDir := "/src/test/"
  const MainJavaDir := "/src/main/java/"
  const TestJavaDir := "/src/test/java/"

  /** `is_test_file`: a path under a test tree, or a file named like a JUnit test class. */
  predicate IsTestFile(path: string) {
    var name := Basename(path);
    Contains(path, TestJavaDir) || Contains(path, TestDir)
    || EndsWith(name, "Test.java") || EndsWith(name, "Tests.java")
    || (StartsWith(name, "Test") && EndsWith(name, ".java"))
    || EndsWith(name, "IT.java")
  }

  /** The path with its main tree mapped onto the test tree (`/src/main/java/` first, else `/src/main/`). */
  function TestBase(src: string): string {
    if Contains(src, MainJavaDir) then Replace(src, MainJavaDir, TestJavaDir)
    else Replace(src, MainDir, TestDir)
  }

  /**
   * `_find_test_candidates`: the test files that may hold the tests of a
   * main-source Java file, `FooTest`, `FooTests`, `FooIT`, `FooTestCase` and
   * `TestFoo` in the matching test directory, in that order.
   */
  function FindTestCandidates(src: string): (r: seq<string>)
    ensures r == [] <==> !(Contains(src, MainDir) && EndsWith(src, ".java"))
  {
    if !Contains(src, MainDir) || !EndsWith(src, ".java") then []
    else StemCandidates(DropLast(TestBase(src), 5))
  }

  /** The candidate test files for the mapped path `stem` (without `.java`); `TestFoo` needs a `/` in it. */
  function StemCandidates(stem: string): (r: seq<string>)
    ensures |r| == 4 || |r| == 5
  {
    var named := [stem + "Test.java", stem + "Tests.java", stem + "IT.java", stem + "TestCase.java"];
    var k := RFindChar(stem, '/');
    if k >= 0 then named + [stem[..k] + "/Test" + stem[k + 1..] + ".java"] else named
  }

  /** `_test_prefix_for_source`: the test directory (ending in `/`) that Tier 2 lists for a source file. */
  function TestPrefixForSource(src: string): Option<string> {
    if !Contains(src, MainJavaDir) && !Contains(src, MainDir) then None
    else DirOf(TestBase(src))
  }

  /** The directory part of a path, up to and including its last `/`; none without a `/`. */
  function DirOf(p: string): Option<string> {
    var idx := RFindChar(p, '/');
    if idx >= 0 then Some(p[..idx + 1]) else None
  }

  // ---------------------------------------------------------------------
  // Facts about the test-tree mapping
  // ---------------------------------------------------------------------

  /** `/src/main/java/` holds `/src/main/`, and `/src/test/java/` holds `/src/test/`. */
  lemma DirsNest()
    ensures Contains(MainJavaDir, MainDir) && Contains(TestJavaDir, TestDir)
  {
    ContainsAt(MainJavaDir, MainDir, 0);
    ContainsAt(TestJavaDir, TestDir, 0);
  }

  /** A path in a main tree is mapped into a test tree. */
  lemma {:induction false} TestBaseInTestTree(src: string)
    requires Contains(src, MainDir)
    ensures Contains(TestBase(src), TestDir)
  {
    DirsNest();
    if Contains(src, MainJavaDir) {
      ReplaceProduces(src, MainJavaDir, TestJavaDir);
      ContainsTrans(TestBase(src), TestJavaDir, TestDir);
    } else {
      ReplaceProduces(src, MainDir, TestDir);
    }
  }

  /** The `.java` suffix is untouched by the mapping. */
  lemma {:induction false} TestBaseOfJava(a: string)
    ensures TestBase(a + ".java") == TestBase(a) + ".java"
  {
    var j := ".java";
    assert '/' !in j;
    assert Contains(a + j, MainJavaDir) <==> Contains(a, MainJavaDir) by {
      if Contains(a + j, MainJavaDir) {
        ContainsInPrefix(a, j, MainJavaDir);
      }
      if Contains(a, MainJavaDir) {
        ContainsExtend(a, MainJavaDir, [], j);
        assert [] + a + j == a + j;
      }
    }
    ReplaceAppend(a, j, MainJavaDir, TestJavaDir);
    ReplaceAppend(a, j, MainDir, TestDir);
  }

  /** A path anywhere under a test tree passes `is_test_file`. */
  lemma InTestTreeIsTestFile(path: string)
    requires Contains(path, TestDir)
    ensures IsTestFile(path)
  {
  }

  /** The last `/` of a text holding `/src/test/` comes after the start of that occurrence. */
  lemma {:induction false} TestTreeHasSlash(s: string)
    requires Contains(s, TestDir)
    ensures RFindChar(s, '/') >= 0
    ensures Contains(s[..RFindChar(s, '/') + 1], TestDir)
  {
    var i :| 0 <= i <= |s| - |TestDir| && OccursAt(s, TestDir, i);
    assert s[i] == TestDir[0];
    var k := RFindChar(s, '/');
    assert s == s[..k + 1] + s[k + 1..];
    ContainsInPrefix(s[..k + 1], s[k + 1..], TestDir);
  }

  /** For a main-source Java file the candidates' stem is the mapped path minus `.java`, in a test tree. */
  lemma {:induction false} CandidateStem(src: string)
    requires Contains(src, MainDir) && EndsWith(src, ".java")
    ensures DropLast(TestBase(src), 5) == TestBase(DropLast(src, 5))
    ensures Contains(DropLast(TestBase(src), 5), TestDir)
  {
    var a := DropLast(src, 5);
    DropSuffix(src, ".java");
    assert '/' !in ".java";
    ContainsInPrefix(a, ".java", MainDir);
    TestBaseOfJava(a);
    TestBaseInTestTree(a);
  }

  /** `stem + suffix` stays in the test tree and, for a `.java` suffix, is a Java file. */
  lemma {:induction false} SuffixedCandidate(stem: string, suffix: string)
    requires Contains(stem, TestDir) && EndsWith(suffix, ".java")
    ensures IsTestFile(stem + suffix) && EndsWith(stem + suffix, ".java")
  {
    ContainsExtend(stem, TestDir, [], suffix);
    assert [] + stem + suffix == stem + suffix;
    assert (stem + suffix)[|stem + suffix| - 5..] == suffix[|suffix| - 5..];
    InTestTreeIsTestFile(stem + suffix);
  }

  /** The `TestFoo.java` candidate stays in the directory of the stem. */
  lemma {:induction false} PrefixedCandidate(stem: string)
    requires Contains(stem, TestDir)
    ensures RFindChar(stem, '/') >= 0
    ensures var k := RFindChar(stem, '/');
      var fifth := stem[..k] + "/Test" + stem[k + 1..] + ".java";
      fifth == stem[..k + 1] + ("Test" + stem[k + 1..] + ".java")
      && IsTestFile(fifth) && EndsWith(fifth, ".java")
  {
    TestTreeHasSlash(stem);
    var k := RFindChar(stem, '/');
    var tail := "Test" + stem[k + 1..] + ".java";
    assert EndsWith(tail, ".java") by {
      assert tail[|tail| - 5..] == ".java";
    }
    SuffixedCandidate(stem[..k + 1], tail);
  }

  /** Every candidate of a stem in a test tree is a Java file there, and there are five of them. */
  lemma {:induction false} StemCandidatesAreTestFiles(stem: string)
    requires Contains(stem, TestDir)
    ensures |StemCandidates(stem)| == 5
    ensures forall c | c in StemCandidates(stem) :: IsTestFile(c) && EndsWith(c, ".java")
  {
    PrefixedCandidate(stem);
    var k := RFindChar(stem, '/');
    var fifth := stem[..k] + "/Test" + stem[k + 1..] + ".java";
    assert StemCandidates(stem) ==
      [stem + "Test.java", stem + "Tests.java", stem + "IT.java", stem + "TestCase.java", fifth];
    forall c | c in StemCandidates(stem)
      ensures IsTestFile(c) && EndsWith(c, ".java")
    {
      if c == stem + "Test.java" {
        SuffixedCandidate(stem, "Test.java");
      } else if c == stem + "Tests.java" {
        SuffixedCandidate(stem, "Tests.java");
      } else if c == stem + "IT.java" {
        SuffixedCandidate(stem, "IT.java");
      } else if c == stem + "TestCase.java" {
        SuffixedCandidate(stem, "TestCase.java");
      }
    }
  }

  /**
   * Every candidate of a main-source Java file is a Java file in a test tree,
   * so it passes `is_test_file`; there are exactly five of them.
   */
  lemma {:induction false} CandidatesAreTestFiles(src: string)
    ensures FindTestCandidates(src) == [] || |FindTestCandidates(src)| == 5
    ensures forall c | c in FindTestCandidates(src) :: IsTestFile(c) && EndsWith(c, ".java")
  {
    if Contains(src, MainDir) && EndsWith(src, ".java") {
      CandidateStem(src);
      StemCandidatesAreTestFiles(DropLast(TestBase(src), 5));
    }
  }

  /** The directory part of a path in a test tree ends in `/`, starts the path and is still in the test tree. */
  lemma {:induction false} TestTreeDir(s: string)
    requires Contains(s, TestDir)
    ensures DirOf(s).Some?
    ensures var p := DirOf(s).value; EndsWith(p, "/") && Contains(p, TestDir) && p <= s
  {
    TestTreeHasSlash(s);
    var p := DirOf(s).value;
    assert p[|p| - 1..] == "/";
  }

  /** `_test_prefix_for_source` gives a directory of a test tree exactly for paths in a main tree. */
  lemma {:induction false} TestPrefixSpec(src: string)
    ensures TestPrefixForSource(src).None? <==> !Contains(src, MainDir)
    ensures TestPrefixForSource(src).Some? ==>
      var p := TestPrefixForSource(src).value;
      EndsWith(p, "/") && Contains(p, TestDir) && p <= TestBase(src)
  {
    DirsNest();
    if Contains(src, MainJavaDir) {
      ContainsTrans(src, MainJavaDir, MainDir);
    }
    if Contains(src, MainDir) {
      TestBaseInTestTree(src);
      TestTreeDir(TestBase(src));
    }
  }

  /** Text without a `/` appended to a path leaves its directory unchanged. */
  lemma {:induction false} DirOfAppend(a: string, b: string)
    requires '/' !in b
    ensures DirOf(a + b) == DirOf(a)
  {
    RFindCharAppend(a, b, '/');
    var k := RFindChar(a, '/');
    if k >= 0 {
      assert (a + b)[..k + 1] == a[..k + 1];
    }
  }

  /** The mapped path of a Java file is the candidates' stem followed by `.java`. */
  lemma {:induction false} MappedJava(src: string)
    requires Contains(src, MainDir) && EndsWith(src, ".java")
    ensures TestBase(src) == DropLast(TestBase(src), 5) + ".java"
  {
    DropSuffix(src, ".java");
    TestBaseOfJava(DropLast(src, 5));
  }

  /** For a main-source Java file the Tier 2 prefix is the directory part of the candidates' stem. */
  lemma {:induction false} TestPrefixOfJava(src: string)
    requires Contains(src, MainDir) && EndsWith(src, ".java")
    ensures var stem := DropLast(TestBase(src), 5);
      RFindChar(stem, '/') >= 0
      && TestPrefixForSource(src) == Some(stem[..RFindChar(stem, '/') + 1])
  {
    var stem := DropLast(TestBase(src), 5);
    MappedJava(src);
    CandidateStem(src);
    TestTreeHasSlash(stem);
    assert '/' !in ".java";
    DirOfAppend(stem, ".java");
  }

  /** Every candidate of a stem lies in the stem's directory (the stem up to its last `/`). */
  lemma {:induction false} StemCandidatesInDir(stem: string)
    requires RFindChar(stem, '/') >= 0
    ensures forall c | c in StemCandidates(stem) :: StartsWith(c, stem[..RFindChar(stem, '/') + 1])
  {
    var k := RFindChar(stem, '/');
    var p := stem[..k + 1];
    var tail := "Test" + stem[k + 1..] + ".java";
    assert stem[..k] + "/Test" + stem[k + 1..] + ".java" == p + tail;
    assert p <= stem;
  }

  /**
   * Tier 2 lists a superset of the directories Tier 1 probes: every Tier 1
   * candidate of a source file lies under that file's Tier 2 prefix.
   */
  lemma {:induction false} CandidatesUnderTestPrefix(src: string)
    requires FindTestCandidates(src) != []
    ensures TestPrefixForSource(src).Some?
    ensures forall c | c in FindTestCandidates(src) :: StartsWith(c, TestPrefixForSource(src).value)
  {
    TestPrefixOfJava(src);
    StemCandidatesInDir(DropLast(TestBase(src), 5));
  }

  // ---------------------------------------------------------------------
  // Maven module of the changed files (`_extract_module_from_files`)
  // ---------------------------------------------------------------------

  const ModuleMarkers := ["src/main/java", "src/test/java", "src/main/resources"]

  /**
   * The module of one file, trying the markers from the `k`-th on: the first
   * marker found past the start of the path decides (its stripped prefix, or
   * nothing when that is empty); a marker at index 0 or absent passes on.
   */
  function ModuleFrom(name: string, k: nat): (r: Option<string>)
    requires k <= |ModuleMarkers|
    ensures r.Some? ==> r.value != [] && r.value < name && r.value[|r.value| - 1] != '/'
    decreases |ModuleMarkers| - k
  {
    if k == |ModuleMarkers| then None
    else
      var idx := Find(name, ModuleMarkers[k]);
      if idx > 0 then
        var path := RStripChar(name[..idx], '/');
        if path != [] then Some(path) else None
      else ModuleFrom(name, k + 1)
  }

  function ModuleOf(name: string): Option<string> {
    ModuleFrom(name, 0)
  }

  /** The module of a file is followed in its path by one of the markers. */
  lemma {:induction false} ModuleFollowedByMarker(name: string, k: nat)
    requires k <= |ModuleMarkers| && ModuleFrom(name, k).Some?
    ensures exists j | k <= j < |ModuleMarkers| ::
      Contains(name[|ModuleFrom(name, k).value|..], ModuleMarkers[j])
    decreases |ModuleMarkers| - k
  {
    var idx := Find(name, ModuleMarkers[k]);
    if idx > 0 {
      var m := ModuleFrom(name, k).value;
      var rest := name[|m|..];
      assert rest[idx - |m|..idx - |m| + |ModuleMarkers[k]|] == name[idx..idx + |ModuleMarkers[k]|];
      ContainsAt(rest, ModuleMarkers[k], idx - |m|);
    } else {
      ModuleFollowedByMarker(name, k + 1);
    }
  }

  /** The set of modules the files point into. */
  function Modules(names: seq<string>): set<string> {
    if names == [] then {}
    else
      var last := ModuleOf(names[|names| - 1]);
      Modules(names[..|names| - 1]) + (if last.Some? then {last.value} else {})
  }

  /** Every file that names a module contributes it. */
  lemma {:induction false} ModulesOfFiles(names: seq<string>)
    ensures forall i | 0 <= i < |names| && ModuleOf(names[i]).Some? :: ModuleOf(names[i]).value in Modules(names)
  {
    if names != [] {
      var init := names[..|names| - 1];
      ModulesOfFiles(init);
      forall i | 0 <= i < |init| && ModuleOf(names[i]).Some?
        ensures ModuleOf(names[i]).value in Modules(names)
      {
        assert names[i] == init[i];
      }
    }
  }

  /** Every collected module is the module of one of the files. */
  lemma {:induction false} ModulesFromFiles(names: seq<string>)
    ensures forall m | m in Modules(names) :: exists i | 0 <= i < |names| :: ModuleOf(names[i]) == Some(m)
  {
    if names != [] {
      var init := names[..|names| - 1];
      ModulesFromFiles(init);
      forall m | m in Modules(init)
        ensures exists i | 0 <= i < |names| :: ModuleOf(names[i]) == Some(m)
      {
        var i :| 0 <= i < |init| && ModuleOf(init[i]) == Some(m);
        assert names[i] == init[i];
      }
    }
  }

  /** A non-empty set of strings has an element of least length. */
  lemma {:induction false} ShortestExists(s: set<string>)
    requires s != {}
    ensures exists m | m in s :: forall x | x in s :: |m| <= |x|
    decreases |s|
  {
    var x :| x in s;
    if s - {x} == {} {
      assert s == {x};
    } else {
      ShortestExists(s - {x});
      var m :| m in s - {x} && forall y | y in s - {x} :: |m| <= |y|;
      if |x| < |m| {
        assert forall y | y in s :: |x| <= |y|;
      } else {
        assert forall y | y in s :: |m| <= |y|;
      }
    }
  }

  /**
   * `_extract_module_from_files`: a shortest module among those the files
   * point into (Python picks one of equal length by set order), or none.
   */
  method ExtractModuleFromFiles(names: seq<string>) returns (target: Option<string>)
    ensures target.None? <==> Modules(names) == {}
    ensures target.Some? ==> target.value in Modules(names)
    ensures target.Some? ==> forall m | m in Modules(names) :: |target.value| <= |m|
  {
    var modules: set<string> := {};
    for i := 0 to |names|
      invariant modules == Modules(names[..i])
    {
      var name := names[i];
      assert names[..i + 1][..i] == names[..i];
      var k := 0;
      while k < |ModuleMarkers|
        invariant k <= |ModuleMarkers|
        invariant modules == Modules(names[..i])
        invariant ModuleOf(name) == ModuleFrom(name, k)
      {
        var idx := Find(name, ModuleMarkers[k]);
        if idx > 0 {
          var path := RStripChar(name[..idx], '/');
          if path != [] {
            modules := modules + {path};
          }
          break;
        }
        k := k + 1;
      }
    }
    assert names[..|names|] == names;
    if modules == {} {
      return None;
    }
    ShortestExists(modules);
    var m :| m in modules && forall x | x in modules :: |m| <= |x|;
    return Some(m);
  }

  // ---------------------------------------------------------------------
  // Classes to generate tests for (`_extract_target_classes`)
  // ---------------------------------------------------------------------

  const ClassMarker := "src/main/java/"

  /** The dotted class name of a Java file under `src/main/java/`, if it is one. */
  function TargetClassOf(name: string): (r: Option<string>)
    ensures r.Some? <==> Contains(name, ClassMarker) && EndsWith(name, ".java")
  {
    var idx := Find(name, ClassMarker);
    if idx >= 0 && EndsWith(name, ".java") then
      Some(Replace(DropLast(name[idx + |ClassMarker|..], 5), "/", "."))
    else None
  }

  function TargetClasses(names: seq<string>): seq<string> {
    if names == [] then []
    else
      var last := TargetClassOf(names[|names| - 1]);
      TargetClasses(names[..|names| - 1]) + (if last.Some? then [last.value] else [])
  }

  /**
   * Target classes: one dotted name (no `/` left) per Java file under
   * `src/main/java/`, in file order, and none when no file is such a file.
   */
  lemma {:induction false} TargetClassesShape(names: seq<string>)
    ensures |TargetClasses(names)| <= |names|
    ensures forall i | 0 <= i < |names| && TargetClassOf(names[i]).Some? :: TargetClassOf(names[i]).value in TargetClasses(names)
    ensures forall c | c in TargetClasses(names) :: '/' !in c
    ensures TargetClasses(names) == [] <==>
      forall i | 0 <= i < |names| :: !(Contains(names[i], ClassMarker) && EndsWith(names[i], ".java"))
  {
    if names != [] {
      var init := names[..|names| - 1];
      var last := names[|names| - 1];
      TargetClassesShape(init);
      assert '/' !in ".";
      var idx := Find(last, ClassMarker);
      if TargetClassOf(last).Some? {
        ReplaceRemovesChar(DropLast(last[idx + |ClassMarker|..], 5), '/', ".");
      }
      forall i | 0 <= i < |init|
        ensures names[i] == init[i]
      {
      }
    }
  }

  /**
   * The classes of two lists of files are those of the first followed by
   * those of the second; with the single-file case this says there is
   * exactly one class per qualifying file, in file order.
   */
  lemma {:induction false} TargetClassesConcat(a: seq<string>, b: seq<string>)
    ensures TargetClasses(a + b) == TargetClasses(a) + TargetClasses(b)
    decreases |b|
  {
    if b == [] {
      assert a + b == a;
    } else {
      var init := b[..|b| - 1];
      var last := TargetClassOf(b[|b| - 1]);
      var tail := if last.Some? then [last.value] else [];
      assert (a + b)[..|a + b| - 1] == a + init;
      assert (a + b)[|a + b| - 1] == b[|b| - 1];
      assert TargetClasses(a + b) == TargetClasses(a + init) + tail;
      TargetClassesConcat(a, init);
      assert TargetClasses(b) == TargetClasses(init) + tail;
    }
  }

  /** A single file gives its class when it qualifies, and nothing otherwise. */
  lemma TargetClassesSingle(name: string)
    ensures TargetClassOf(name).Some? ==> TargetClasses([name]) == [TargetClassOf(name).value]
    ensures TargetClassOf(name).None? ==> TargetClasses([name]) == []
  {
    assert [name][..0] == [];
  }

  /**
   * The path after the first `src/main/java/`, less `.java`, with `/`
   * turned into `.`: `core/src/main/java/a/b/C.java` gives `a.b.C`.
   */
  lemma TargetClassName(p: string, q: string)
    requires forall j | 0 <= j < |p| :: !OccursAt(p + ClassMarker + q + ".java", ClassMarker, j)
    ensures TargetClassOf(p + ClassMarker + q + ".java") == Some(Replace(q, "/", "."))
  {
    var name := p + ClassMarker + q + ".java";
    assert name[|p|..|p| + |ClassMarker|] == ClassMarker;
    assert OccursAt(name, ClassMarker, |p|);
    var idx := Find(name, ClassMarker);
    assert idx == |p|;
    assert name[|name| - 5..] == ".java";
    assert name[idx + |ClassMarker|..] == q + ".java";
    assert DropLast(q + ".java", 5) == q;
  }

  /** `_extract_target_classes` as the loop the source runs. */
  method ExtractTargetClasses(names: seq<string>) returns (classes: seq<string>)
    ensures classes == TargetClasses(names)
  {
    classes := [];
    for i := 0 to |names|
      invariant classes == TargetClasses(names[..i])
    {
      assert names[..i + 1][..i] == names[..i];
      var name := names[i];
      var idx := Find(name, ClassMarker);
      if idx >= 0 && EndsWith(name, ".java") {
        var rel := name[idx + |ClassMarker|..];
        classes := classes + [Replace(DropLast(rel, 5), "/", ".")];
      }
    }
    assert names[..|names|] == names;
  }

  // ---------------------------------------------------------------------
  // Compiled classes (`collect_compiled_classes`)
  // ---------------------------------------------------------------------

  /** The dotted name of a `.class` file given by its path inside a classes directory. */
  function CompiledClassName(rel: string): string {
    Replace(DropLast(rel, 6), "/", ".")
  }

  /** Inner and test classes are not generation targets. */
  predicate KeepsClass(name: string) {
    !Contains(name, "$") && !Contains(name, "Test")
  }

  function KeptClasses(rels: seq<string>): seq<string> {
    if rels == [] then []
    else
      var name := CompiledClassName(rels[|rels| - 1]);
      KeptClasses(rels[..|rels| - 1]) + (if KeepsClass(name) then [name] else [])
  }

  /** The kept classes of every classes directory, directory by directory. */
  function CompiledClasses(dirs: seq<seq<string>>): seq<string> {
    if dirs == [] then []
    else CompiledClasses(dirs[..|dirs| - 1]) + KeptClasses(dirs[|dirs| - 1])
  }

  /** No kept class is an inner class or has `Test` anywhere in its name, and none has a `/`. */
  lemma {:induction false} CompiledClassesFiltered(dirs: seq<seq<string>>)
    ensures forall c | c in CompiledClasses(dirs) :: KeepsClass(c) && '/' !in c
  {
    if dirs != [] {
      CompiledClassesFiltered(dirs[..|dirs| - 1]);
      KeptClassesFiltered(dirs[|dirs| - 1]);
    }
  }

  lemma {:induction false} KeptClassesFiltered(rels: seq<string>)
    ensures forall c | c in KeptClasses(rels) :: KeepsClass(c) && '/' !in c
  {
    if rels != [] {
      KeptClassesFiltered(rels[..|rels| - 1]);
      assert '/' !in ".";
      ReplaceRemovesChar(DropLast(rels[|rels| - 1], 6), '/', ".");
    }
  }

  /**
   * `collect_compiled_classes` over the `.class` files of each
   * `target/classes` directory (given in glob order, as paths relative to it).
   */
  method CollectCompiledClasses(dirs: seq<seq<string>>) returns (classes: seq<string>)
    ensures classes == CompiledClasses(dirs)
  {
    classes := [];
    for i := 0 to |dirs|
      invariant classes == CompiledClasses(dirs[..i])
    {
      assert dirs[..i + 1][..i] == dirs[..i];
      var before := classes;
      var rels := dirs[i];
      for j := 0 to |rels|
        invariant classes == before + KeptClasses(rels[..j])
      {
        assert rels[..j + 1][..j] == rels[..j];
        var name := Replace(DropLast(rels[j], 6), "/", ".");
        if !Contains(name, "$") && !Contains(name, "Test") {
          classes := classes + [name];
        }
      }
      assert rels[..|rels|] == rels;
    }
    assert dirs[..|dirs|] == dirs;
  }
}
