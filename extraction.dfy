/**
 * Extraction of JUnit test methods from the text of a Java test file: the
 * brace-depth scan that cuts out a method body, and the two passes over the
 * matches of the JUnit 4/5 (`@Test`) and JUnit 3 (`extends TestCase`)
 * patterns, deduplicated by method name.
 *
 * The regular-expression engine is not modelled: each pattern's matches are
 * given, in scan order, as the method name, the start of the match and the
 * position of the `{` that ends it.
 */
module Extraction {
  import opened Wrappers
  import opened Text

  // ---------------------------------------------------------------------
  // Brace depth
  // ---------------------------------------------------------------------

  function Delta(c: char): int {
    if c == '{' then 1 else if c == '}' then -1 else 0
  }

  /** Braces opened minus braces closed in `s`. */
  function Depth(s: string): int {
    if s == [] then 0 else Depth(s[..|s| - 1]) + Delta(s[|s| - 1])
  }

  lemma {:induction false} DepthAppend(a: string, b: string)
    ensures Depth(a + b) == Depth(a) + Depth(b)
    decreases |b|
  {
    if b != [] {
      var b' := b[..|b| - 1];
      assert (a + b)[..|a + b| - 1] == a + b';
      DepthAppend(a, b');
    } else {
      assert a + b == a;
    }
  }

  /** The depth reached after the opening brace at `bp`, just before index `k`, relative to that brace. */
  function Running(content: string, bp: nat, k: nat): int
    requires bp + 1 <= k <= |content|
  {
    Depth(content[bp + 1..k])
  }

  /** The text after the opening brace at `bp` never brings the depth below that brace's. */
  predicate NeverCloses(content: string, bp: nat) {
    forall k | bp + 1 <= k <= |content| :: Running(content, bp, k) >= 0
  }

  /**
   * `body` is the text between the opening brace at `bp` and the `}` that
   * closes it: balanced, never closing early, and followed by that `}`.
   */
  predicate BodyAt(content: string, bp: nat, body: string) {
    bp + 1 + |body| < |content|
    && content[bp + 1..bp + 1 + |body|] == body
    && content[bp + 1 + |body|] == '}'
    && Depth(body) == 0
    && forall k | bp + 1 <= k <= bp + 1 + |body| :: Running(content, bp, k) >= 0
  }

  /** A brace has at most one body, and a brace with a body does close. */
  lemma {:induction false} BodyUnique(content: string, bp: nat, b1: string, b2: string)
    requires BodyAt(content, bp, b1) && BodyAt(content, bp, b2)
    ensures b1 == b2
  {
    BodyCloses(content, bp, b1);
    BodyCloses(content, bp, b2);
  }

  /** The text up to and including the closing `}` has depth -1. */
  lemma {:induction false} BodyCloses(content: string, bp: nat, body: string)
    requires BodyAt(content, bp, body)
    ensures Running(content, bp, bp + 2 + |body|) == -1
    ensures !NeverCloses(content, bp)
  {
    var s := content[bp + 1..bp + 2 + |body|];
    assert s[..|s| - 1] == body;
  }

  /** When the depth drops below zero somewhere, it first does so exactly at -1. */
  lemma {:induction false} FirstDrop(s: string, k: nat)
    requires k <= |s| && Depth(s[..k]) < 0
    ensures exists j | 0 < j <= |s| :: Depth(s[..j]) == -1 && forall i | 0 <= i < j :: Depth(s[..i]) >= 0
    decreases k
  {
    if i :| 0 <= i < k && Depth(s[..i]) < 0 {
      FirstDrop(s, i);
    } else {
      assert k > 0;
      assert s[..k][..k - 1] == s[..k - 1];
      assert Depth(s[..k]) == -1;
    }
  }

  /** A brace that closes has a body. */
  lemma {:induction false} BodyExists(content: string, bp: nat)
    requires !NeverCloses(content, bp)
    ensures exists body :: BodyAt(content, bp, body)
  {
    var k :| bp + 1 <= k <= |content| && Running(content, bp, k) < 0;
    var s := content[bp + 1..];
    RunningPrefix(content, bp, k);
    FirstDrop(s, k - bp - 1);
    var j :| 0 < j <= |s| && Depth(s[..j]) == -1 && forall i | 0 <= i < j :: Depth(s[..i]) >= 0;
    var body := s[..j - 1];
    assert s[..j][..j - 1] == body;
    assert Depth(body) >= 0;
    assert s[j - 1] == '}' && Depth(body) == 0;
    assert content[bp + 1..bp + j] == body;
    forall i | bp + 1 <= i <= bp + 1 + |body|
      ensures Running(content, bp, i) >= 0
    {
      RunningPrefix(content, bp, i);
    }
    assert BodyAt(content, bp, body);
  }

  /** The running depth is the depth of a prefix of the text after the brace. */
  lemma RunningPrefix(content: string, bp: nat, k: nat)
    requires bp + 1 <= k <= |content|
    ensures Running(content, bp, k) == Depth(content[bp + 1..][..k - bp - 1])
  {
    assert content[bp + 1..][..k - bp - 1] == content[bp + 1..k];
  }

  /** The body of the brace at `bp`, or the empty text when it never closes. */
  ghost function BodyOf(content: string, bp: nat): (body: string)
    ensures NeverCloses(content, bp) ==> body == []
    ensures !NeverCloses(content, bp) ==> BodyAt(content, bp, body)
  {
    if NeverCloses(content, bp) then []
    else
      BodyExists(content, bp);
      var b :| BodyAt(content, bp, b); b
  }

  /**
   * `_extract_method_body`: scan forward from the brace at `bp`, counting
   * depth, until it returns to zero; the text in between, or `""` when the
   * input ends first.
   */
  method ExtractMethodBody(content: string, bp: nat) returns (body: string)
    ensures NeverCloses(content, bp) ==> body == []
    ensures !NeverCloses(content, bp) ==> BodyAt(content, bp, body)
    ensures body == BodyOf(content, bp)
  {
    if bp >= |content| {
      // the scan below would not run a single step
      return [];
    }
    var depth := 1;
    var i := bp + 1;
    while i < |content| && depth > 0
      invariant bp + 1 <= i <= |content|
      invariant depth == 1 + Depth(content[bp + 1..i])
      invariant forall k | bp + 1 <= k < i :: Running(content, bp, k) >= 0
      invariant depth >= 0
      decreases |content| - i
    {
      var ch := content[i];
      if ch == '{' {
        depth := depth + 1;
      } else if ch == '}' {
        depth := depth - 1;
      }
      assert content[bp + 1..i + 1][..i - bp - 1] == content[bp + 1..i];
      i := i + 1;
    }
    if depth == 0 {
      body := content[bp + 1..i - 1];
      assert content[bp + 1..i][..i - 1 - bp - 1] == body;
      assert Depth(body) >= 0 by {
        assert Running(content, bp, i - 1) >= 0;
      }
      assert Depth(content[bp + 1..i]) == Depth(body) + Delta(content[i - 1]);
      assert BodyAt(content, bp, body);
      BodyCloses(content, bp, body);
      BodyUnique(content, bp, body, BodyOf(content, bp));
    } else {
      body := [];
    }
  }

  // ---------------------------------------------------------------------
  // The code of an extracted method (`code` in the extracted record)
  // ---------------------------------------------------------------------

  /**
   * The code recorded for a method as the source slices it: from the start
   * of the match up to the closing brace, exclusive, so without that `}`.
   */
  function CodeSpanAsWritten(content: string, start: nat, bp: nat, body: string): string {
    Slice(content, start, bp + |body| + 1)
  }

  /**
   * The code the model records for a method: from the start of the match
   * through the closing brace. This is the corrected slice; the source's
   * slice (`CodeSpanAsWritten`) stops one character earlier.
   */
  function CodeSpan(content: string, start: nat, bp: nat, body: string): string {
    Slice(content, start, bp + |body| + 2)
  }

  /**
   * For a brace with a body, the code as the source slices it stops one
   * character short: from its opening brace on it is one `}` short of
   * balanced.
   */
  lemma {:induction false} CodeSpanAsWrittenUnbalanced(content: string, start: nat, bp: nat, body: string)
    requires BodyAt(content, bp, body) && start <= bp && content[bp] == '{'
    ensures CodeSpanAsWritten(content, start, bp, body) == content[start..bp + 1 + |body|]
    ensures Depth(CodeSpanAsWritten(content, start, bp, body)[bp - start..]) == 1
  {
    var code := CodeSpanAsWritten(content, start, bp, body);
    assert code[bp - start..] == ['{'] + body;
    DepthAppend(['{'], body);
    assert ['{'][..0] == [];
  }

  /**
   * The code the model records for a method is the code the source records
   * followed by the closing `}` it leaves out.
   */
  lemma EntryAsWritten(content: string, path: string, m: Match, body: string, ann: Annotation)
    requires BodyAt(content, m.bracePos, body) && m.start <= m.bracePos
    ensures Entry(content, path, m, body, ann).code == CodeSpanAsWritten(content, m.start, m.bracePos, body) + "}"
  {
    var e := m.bracePos + 1 + |body|;
    assert content[m.start..e + 1] == content[m.start..e] + [content[e]];
  }

  /** A concrete input: a method `{x}` is recorded as `{x`. */
  lemma CodeSpanAsWrittenExample()
    ensures BodyAt("{x}", 0, "x")
    ensures CodeSpanAsWritten("{x}", 0, 0, "x") == "{x"
  {
    assert "x"[..0] == [] && "x"[..1] == "x";
    assert Depth("x") == 0 by {
      assert "x"[..0] == [];
    }
  }

  /** The corrected code runs through the closing `}` and is balanced from its opening brace on. */
  lemma {:induction false} CodeSpanBalanced(content: string, start: nat, bp: nat, body: string)
    requires BodyAt(content, bp, body) && start <= bp && content[bp] == '{'
    ensures CodeSpan(content, start, bp, body) == content[start..bp + 2 + |body|]
    ensures EndsWith(CodeSpan(content, start, bp, body), "}")
    ensures Depth(CodeSpan(content, start, bp, body)[bp - start..]) == 0
  {
    var code := CodeSpan(content, start, bp, body);
    assert code[bp - start..] == ['{'] + body + ['}'];
    DepthAppend(['{'], body);
    DepthAppend(['{'] + body, ['}']);
    assert ['{'][..0] == [];
    assert ['}'][..0] == [];
    assert code[|code| - 1..] == "}";
  }

  // ---------------------------------------------------------------------
  // Test-method extraction (`extract_test_methods`)
  // ---------------------------------------------------------------------

  datatype Annotation = AtTest | ExtendsTestCase

  /** One match of a method pattern: the method's name, where the match starts, and its `{`. */
  datatype Match = Match(name: string, start: nat, bracePos: nat)

  datatype Extracted = Extracted(name: string, code: string, path: string, annotation: Annotation)

  /** The names already taken and the methods extracted so far. */
  datatype ScanState = ScanState(seen: set<string>, tests: seq<Extracted>)

  const LegacyMarker := "extends TestCase"

  /** The record for a match whose body is `body`. */
  function Entry(content: string, path: string, m: Match, body: string, ann: Annotation): Extracted {
    Extracted(m.name, CodeSpan(content, m.start, m.bracePos, body), path, ann)
  }

  /** One match: a taken name is skipped; otherwise it is taken, and kept if its body is not empty. */
  ghost function Step(st: ScanState, content: string, path: string, m: Match, ann: Annotation): ScanState {
    if m.name in st.seen then st
    else
      var body := BodyOf(content, m.bracePos);
      ScanState(st.seen + {m.name},
        if body == [] then st.tests else st.tests + [Entry(content, path, m, body, ann)])
  }

  /** The matches `ms`, in order, from state `st`. */
  ghost function Scan(st: ScanState, content: string, path: string, ms: seq<Match>, ann: Annotation): ScanState {
    if ms == [] then st
    else Step(Scan(st, content, path, ms[..|ms| - 1], ann), content, path, ms[|ms| - 1], ann)
  }

  /**
   * The methods extracted from a file: the `@Test` matches, then, only when
   * the text holds `extends TestCase`, the JUnit 3 matches, with the names
   * taken by the first pass still taken.
   */
  ghost function ExtractSpec(content: string, path: string, at: seq<Match>, legacy: seq<Match>): seq<Extracted> {
    var first := Scan(ScanState({}, []), content, path, at, AtTest);
    if Contains(content, LegacyMarker) then Scan(first, content, path, legacy, ExtendsTestCase).tests
    else first.tests
  }

  /** One pass over the matches of one pattern. */
  method ScanMatches(content: string, path: string, ms: seq<Match>, ann: Annotation,
                     seen0: set<string>, tests0: seq<Extracted>)
    returns (seen: set<string>, tests: seq<Extracted>)
    ensures ScanState(seen, tests) == Scan(ScanState(seen0, tests0), content, path, ms, ann)
  {
    seen, tests := seen0, tests0;
    for k := 0 to |ms|
      invariant ScanState(seen, tests) == Scan(ScanState(seen0, tests0), content, path, ms[..k], ann)
    {
      assert ms[..k + 1][..k] == ms[..k];
      var m := ms[k];
      if m.name in seen {
        continue;
      }
      seen := seen + {m.name};
      var body := ExtractMethodBody(content, m.bracePos);
      if body != [] {
        tests := tests + [Entry(content, path, m, body, ann)];
      }
    }
    assert ms[..|ms|] == ms;
  }

  /** `extract_test_methods`, given the matches of the two patterns in the file's text. */
  method ExtractTestMethods(content: string, path: string, at: seq<Match>, legacy: seq<Match>)
    returns (tests: seq<Extracted>)
    ensures tests == ExtractSpec(content, path, at, legacy)
  {
    var seen;
    seen, tests := ScanMatches(content, path, at, AtTest, {}, []);
    if Contains(content, LegacyMarker) {
      seen, tests := ScanMatches(content, path, legacy, ExtendsTestCase, seen, tests);
    }
  }

  // ---------------------------------------------------------------------
  // Facts about extraction
  // ---------------------------------------------------------------------

  function Names(tests: seq<Extracted>): set<string> {
    set t | t in tests :: t.name
  }

  predicate DistinctNames(tests: seq<Extracted>) {
    forall i, j | 0 <= i < j < |tests| :: tests[i].name != tests[j].name
  }

  /** The names of the matches. */
  function MatchNames(ms: seq<Match>): set<string> {
    set m | m in ms :: m.name
  }

  /**
   * A scan only appends, takes exactly the names it meets, keeps names
   * distinct and every kept name taken, and tags what it appends with its
   * annotation.
   */
  lemma {:induction false} ScanShape(st: ScanState, content: string, path: string, ms: seq<Match>, ann: Annotation)
    requires DistinctNames(st.tests) && Names(st.tests) <= st.seen
    ensures var r := Scan(st, content, path, ms, ann);
      st.tests <= r.tests
      && r.seen == st.seen + MatchNames(ms)
      && DistinctNames(r.tests) && Names(r.tests) <= r.seen
      && forall i | |st.tests| <= i < |r.tests| :: r.tests[i].annotation == ann
  {
    if ms != [] {
      var init := ms[..|ms| - 1];
      ScanShape(st, content, path, init, ann);
      assert MatchNames(ms) == MatchNames(init) + {ms[|ms| - 1].name} by {
        assert ms == init + [ms[|ms| - 1]];
      }
      var prev := Scan(st, content, path, init, ann);
      StepShape(prev, content, path, ms[|ms| - 1], ann);
      var r := Scan(st, content, path, ms, ann);
      forall i | |st.tests| <= i < |r.tests|
        ensures r.tests[i].annotation == ann
      {
        if i < |prev.tests| {
          assert r.tests[i] == prev.tests[i];
        }
      }
    }
  }

  /** One step of a scan only appends, takes the match's name, and keeps the names distinct and taken. */
  lemma StepShape(st: ScanState, content: string, path: string, m: Match, ann: Annotation)
    requires DistinctNames(st.tests) && Names(st.tests) <= st.seen
    ensures var r := Step(st, content, path, m, ann);
      st.tests <= r.tests && r.seen == st.seen + {m.name}
      && DistinctNames(r.tests) && Names(r.tests) <= r.seen
      && forall i | |st.tests| <= i < |r.tests| :: r.tests[i].annotation == ann
  {
    if m.name !in st.seen {
      var body := BodyOf(content, m.bracePos);
      if body != [] {
        var r := st.tests + [Entry(content, path, m, body, ann)];
        assert Names(r) == Names(st.tests) + {m.name};
        forall i, j | 0 <= i < j < |r|
          ensures r[i].name != r[j].name
        {
          if j == |r| - 1 {
            assert r[i] in st.tests;
          }
        }
      }
    }
  }

  /** The position of the first match named `n`. */
  function FirstIndex(ms: seq<Match>, n: string): (r: Option<nat>)
    ensures r.Some? ==> r.value < |ms| && ms[r.value].name == n
    ensures r.Some? ==> forall j | 0 <= j < r.value :: ms[j].name != n
    ensures r.None? ==> forall j | 0 <= j < |ms| :: ms[j].name != n
  {
    if ms == [] then None
    else
      var f := FirstIndex(ms[..|ms| - 1], n);
      if f.Some? then f
      else if ms[|ms| - 1].name == n then Some(|ms| - 1)
      else None
  }

  /**
   * The first match of a name decides for that name: a method of that name
   * is extracted exactly when the first match's body is not empty, and it is
   * that match's method; later matches of the same name are ignored even
   * when the first one's body was empty or never closed.
   */
  lemma {:induction false} FirstMatchDecides(st: ScanState, content: string, path: string,
                                             ms: seq<Match>, ann: Annotation, n: string)
    requires DistinctNames(st.tests) && Names(st.tests) <= st.seen
    requires n !in st.seen
    ensures var r := Scan(st, content, path, ms, ann);
      var f := FirstIndex(ms, n);
      (n in Names(r.tests) <==> f.Some? && BodyOf(content, ms[f.value].bracePos) != [])
      && forall t | t in r.tests && t.name == n ::
           t == Entry(content, path, ms[f.value], BodyOf(content, ms[f.value].bracePos), ann)
  {
    if ms != [] {
      var init := ms[..|ms| - 1];
      var m := ms[|ms| - 1];
      FirstMatchDecides(st, content, path, init, ann, n);
      ScanShape(st, content, path, init, ann);
      var prev := Scan(st, content, path, init, ann);
      var f := FirstIndex(init, n);
      if f.Some? {
        assert init[f.value] == ms[f.value];
        assert n in prev.seen by {
          assert init[f.value] in init;
        }
      } else if m.name == n {
        assert n !in prev.seen by {
          forall j | 0 <= j < |init|
            ensures init[j].name != n
          {
          }
        }
      }
    }
  }

  /**
   * The extracted methods have pairwise distinct names; every JUnit 3 entry
   * comes after every `@Test` entry, and there are JUnit 3 entries only when
   * the text holds `extends TestCase`.
   */
  lemma {:induction false} ExtractShape(content: string, path: string, at: seq<Match>, legacy: seq<Match>)
    ensures var tests := ExtractSpec(content, path, at, legacy);
      DistinctNames(tests)
      && (forall i, j | 0 <= i < j < |tests| ::
            !(tests[i].annotation == ExtendsTestCase && tests[j].annotation == AtTest))
      && (!Contains(content, LegacyMarker) ==> forall t | t in tests :: t.annotation == AtTest)
  {
    var st0 := ScanState({}, []);
    ScanShape(st0, content, path, at, AtTest);
    var first := Scan(st0, content, path, at, AtTest);
    if Contains(content, LegacyMarker) {
      ScanShape(first, content, path, legacy, ExtendsTestCase);
      var tests := Scan(first, content, path, legacy, ExtendsTestCase).tests;
      forall i | 0 <= i < |first.tests|
        ensures tests[i].annotation == AtTest
      {
        assert tests[i] == first.tests[i];
      }
    }
  }

  /** A match is well formed when it starts no later than its `{` and that `{` is in the text. */
  predicate WellFormed(content: string, m: Match) {
    m.start <= m.bracePos < |content| && content[m.bracePos] == '{'
  }

  /** For well-formed matches, every extracted method's code ends with its closing `}`. */
  lemma {:induction false} ScanCodeCloses(st: ScanState, content: string, path: string, ms: seq<Match>, ann: Annotation)
    requires forall m | m in ms :: WellFormed(content, m)
    ensures var r := Scan(st, content, path, ms, ann);
      forall i | |st.tests| <= i < |r.tests| :: EndsWith(r.tests[i].code, "}")
  {
    if ms != [] {
      var init := ms[..|ms| - 1];
      var m := ms[|ms| - 1];
      ScanCodeCloses(st, content, path, init, ann);
      var prev := Scan(st, content, path, init, ann);
      assert |st.tests| <= |prev.tests| by {
        ScanGrows(st, content, path, init, ann);
      }
      if m.name !in prev.seen {
        var body := BodyOf(content, m.bracePos);
        assert m in ms;
        if body != [] {
          CodeSpanBalanced(content, m.start, m.bracePos, body);
        }
      }
    }
  }

  lemma {:induction false} ScanGrows(st: ScanState, content: string, path: string, ms: seq<Match>, ann: Annotation)
    ensures st.tests <= Scan(st, content, path, ms, ann).tests
  {
    if ms != [] {
      ScanGrows(st, content, path, ms[..|ms| - 1], ann);
    }
  }

  /** Every entry a scan appends records the scanned file's path. */
  lemma {:induction false} ScanPaths(st: ScanState, content: string, path: string, ms: seq<Match>, ann: Annotation)
    ensures var r := Scan(st, content, path, ms, ann);
      st.tests <= r.tests && forall i | |st.tests| <= i < |r.tests| :: r.tests[i].path == path
  {
    if ms != [] {
      ScanPaths(st, content, path, ms[..|ms| - 1], ann);
    }
  }

  /** Every extracted method records the path of the file it was extracted from. */
  lemma {:induction false} ExtractPaths(content: string, path: string, at: seq<Match>, legacy: seq<Match>)
    ensures forall t | t in ExtractSpec(content, path, at, legacy) :: t.path == path
  {
    var st0 := ScanState({}, []);
    ScanPaths(st0, content, path, at, AtTest);
    var first := Scan(st0, content, path, at, AtTest);
    ScanPaths(first, content, path, legacy, ExtendsTestCase);
    var tests := Scan(first, content, path, legacy, ExtendsTestCase).tests;
    forall i | 0 <= i < |first.tests|
      ensures tests[i] == first.tests[i]
    {
    }
  }
}
