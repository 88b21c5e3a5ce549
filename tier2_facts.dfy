/**
 * What Tier 2 guarantees: which directories it lists, that every listed
 * test file is fetched exactly once whatever order the prefix set is
 * visited in, and how the recovery counters relate to the recovered tests.
 */
module Tier2Facts {
  import opened Wrappers
  import opened Text
  import opened PathHeuristics
  import opened Records
  import opened Tier1
  import opened Tier1Facts
  import opened Tier2

  /**
   * The prefixes are exactly the test directories of the changed
   * main-source Java files: changed test files and other files add none.
   */
  lemma {:induction false} PrefixesSpec(names: seq<string>)
    ensures forall p :: p in Prefixes(names) <==> exists f | f in names :: PrefixOf(f) == Some(p)
    ensures forall p | p in Prefixes(names) :: EndsWith(p, "/") && Contains(p, TestDir)
  {
    if names != [] {
      var init := names[..|names| - 1];
      var f := names[|names| - 1];
      PrefixesSpec(init);
      assert names == init + [f];
      forall p | p in Prefixes(names)
        ensures EndsWith(p, "/") && Contains(p, TestDir)
      {
        if p !in Prefixes(init) {
          assert PrefixOf(f) == Some(p);
        }
      }
    }
  }

  /** The test files of a listing are the listed paths that pass `is_test_file`. */
  lemma {:induction false} TestFilesSpec(xs: seq<string>)
    ensures forall x :: x in TestFiles(xs) <==> x in xs && IsTestFile(x)
  {
    if xs != [] {
      TestFilesSpec(xs[..|xs| - 1]);
      assert xs == xs[..|xs| - 1] + [xs[|xs| - 1]];
    }
  }

  /** A path is in the listing exactly when some visited prefix lists it. */
  lemma {:induction false} ListingSpec(w: World, project: string, sha: string, order: seq<string>)
    ensures forall x :: x in Listing(w, project, sha, order) <==>
      exists p | p in order :: x in LsTree(w, project, sha, p)
  {
    if order != [] {
      var init := order[..|order| - 1];
      var p := order[|order| - 1];
      ListingSpec(w, project, sha, init);
      assert order == init + [p];
    }
  }

  /**
   * Tier 2 fetches every test file listed under a visited prefix, each
   * exactly once, and nothing else.
   */
  lemma FetchedSpec(w: World, project: string, sha: string, order: seq<string>)
    ensures forall i, j | 0 <= i < j < |Fetched(w, project, sha, order)| ::
      Fetched(w, project, sha, order)[i] != Fetched(w, project, sha, order)[j]
    ensures forall x :: x in Fetched(w, project, sha, order) <==>
      IsTestFile(x) && exists p | p in order :: x in LsTree(w, project, sha, p)
  {
    var xs := Listing(w, project, sha, order);
    DedupSpec(TestFiles(xs));
    TestFilesSpec(xs);
    ListingSpec(w, project, sha, order);
  }

  /**
   * The files Tier 2 fetches do not depend on the order in which Python
   * happens to iterate the prefix set: any two orders of the same set
   * fetch the same files.
   */
  lemma FetchedOrderFree(w: World, project: string, sha: string, s: set<string>, o1: seq<string>, o2: seq<string>)
    requires Enumerates(o1, s) && Enumerates(o2, s)
    ensures forall x :: x in Fetched(w, project, sha, o1) <==> x in Fetched(w, project, sha, o2)
  {
    FetchedSpec(w, project, sha, o1);
    FetchedSpec(w, project, sha, o2);
  }

  /** The tests the files `paths` yield in turn, each file contributing `f` of its path. */
  function Flatten(f: string -> seq<Test>, paths: seq<string>): seq<Test> {
    if paths == [] then []
    else Flatten(f, paths[..|paths| - 1]) + f(paths[|paths| - 1])
  }

  /** The tests `fetch_and_extract` yields for one path at a commit: none when it does not exist there. */
  ghost function FileTestsOf(w: World, project: string, sha: string, tier: Option<nat>): string -> seq<Test> {
    p => match GitShow(w, project, sha, p)
         case None => []
         case Some(content) => TestsOfFile(w, project, sha, p, content, tier)
  }

  /** Harvesting a list of paths yields the tests of each path in turn. */
  lemma {:induction false} HarvestFlatten(w: World, project: string, sha: string, paths: seq<string>, tier: Option<nat>)
    ensures HarvestOf(w, project, sha, paths, tier).tests == Flatten(FileTestsOf(w, project, sha, tier), paths)
  {
    if paths != [] {
      var n := |paths| - 1;
      HarvestFlatten(w, project, sha, paths[..n], tier);
      HarvestLast(w, project, sha, paths, tier);
    }
  }

  /** Harvesting a non-empty list adds the tests of its last path to those of the rest. */
  lemma HarvestLast(w: World, project: string, sha: string, paths: seq<string>, tier: Option<nat>)
    requires paths != []
    ensures HarvestOf(w, project, sha, paths, tier).tests ==
      HarvestOf(w, project, sha, paths[..|paths| - 1], tier).tests + FileTestsOf(w, project, sha, tier)(paths[|paths| - 1])
  {
    var p := paths[|paths| - 1];
    match GitShow(w, project, sha, p)
    case None =>
      assert FileTestsOf(w, project, sha, tier)(p) == [];
    case Some(content) =>
      assert FileTestsOf(w, project, sha, tier)(p) == TestsOfFile(w, project, sha, p, content, tier);
  }

  /** The tests of `a + b` are those of `a`, then those of `b`. */
  lemma {:induction false} FlattenConcat(f: string -> seq<Test>, a: seq<string>, b: seq<string>)
    ensures Flatten(f, a + b) == Flatten(f, a) + Flatten(f, b)
  {
    if b == [] {
      assert a + b == a;
    } else {
      var n := |b| - 1;
      FlattenConcat(f, a, b[..n]);
      assert (a + b)[..|a + b| - 1] == a + b[..n];
      assert (a + b)[|a + b| - 1] == b[n];
    }
  }

  /** Dropping one entry of a duplicate-free list keeps it duplicate-free and removes exactly that path. */
  lemma DropAt(xs: seq<string>, k: nat) returns (rest: seq<string>)
    requires k < |xs|
    requires forall i, j | 0 <= i < j < |xs| :: xs[i] != xs[j]
    ensures xs == xs[..k] + [xs[k]] + xs[k + 1..] && rest == xs[..k] + xs[k + 1..]
    ensures forall i, j | 0 <= i < j < |rest| :: rest[i] != rest[j]
    ensures forall y :: y in rest <==> y in xs && y != xs[k]
  {
    rest := xs[..k] + xs[k + 1..];
    forall i, j | 0 <= i < j < |rest|
      ensures rest[i] != rest[j]
    {
      var i' := if i < k then i else i + 1;
      var j' := if j < k then j else j + 1;
      assert rest[i] == xs[i'] && rest[j] == xs[j'];
    }
    forall y
      ensures y in rest <==> y in xs && y != xs[k]
    {
      if y in xs && y != xs[k] {
        var i :| 0 <= i < |xs| && xs[i] == y;
        assert rest[if i < k then i else i - 1] == y;
      }
      if y in rest {
        var i :| 0 <= i < |rest| && rest[i] == y;
        assert xs[if i < k then i else i + 1] == y;
      }
    }
  }

  /** The last entry of a non-empty list is one of its entries. */
  lemma LastIn(xs: seq<string>)
    ensures xs != [] ==> xs[|xs| - 1] in xs
  {
  }

  /**
   * Two duplicate-free lists of the same paths yield the same tests, each
   * as often, only possibly in another order.
   */
  lemma {:induction false} FlattenOrderFree(f: string -> seq<Test>, p1: seq<string>, p2: seq<string>)
    requires forall i, j | 0 <= i < j < |p1| :: p1[i] != p1[j]
    requires forall i, j | 0 <= i < j < |p2| :: p2[i] != p2[j]
    requires forall x :: x in p1 <==> x in p2
    ensures multiset(Flatten(f, p1)) == multiset(Flatten(f, p2))
    decreases |p1|
  {
    if p1 == [] {
      LastIn(p2);
    } else {
      var n := |p1| - 1;
      var x := p1[n];
      assert x in p2;
      var k :| 0 <= k < |p2| && p2[k] == x;
      var init := DropAt(p1, n);
      var rest := DropAt(p2, k);
      assert init == p1[..n] by {
        assert p1[n + 1..] == [];
      }
      FlattenOrderFree(f, init, rest);
      FlattenSwapLast(f, p1, p2, k);
    }
  }

  /**
   * If the last path of `p1` is entry `k` of `p2`, and the rest of `p1`
   * yields the tests of `p2` without that entry, then `p1` yields the
   * tests of `p2`.
   */
  lemma FlattenSwapLast(f: string -> seq<Test>, p1: seq<string>, p2: seq<string>, k: nat)
    requires p1 != [] && k < |p2| && p2[k] == p1[|p1| - 1]
    requires multiset(Flatten(f, p1[..|p1| - 1])) == multiset(Flatten(f, p2[..k] + p2[k + 1..]))
    ensures multiset(Flatten(f, p1)) == multiset(Flatten(f, p2))
  {
    var n := |p1| - 1;
    FlattenAround(f, p2, k);
    var left, right := Flatten(f, p2[..k]), Flatten(f, p2[k + 1..]);
    assert Flatten(f, p1) == Flatten(f, p1[..n]) + f(p1[n]);
    assert multiset(Flatten(f, p1)) == multiset(Flatten(f, p1[..n])) + multiset(f(p2[k]));
    assert multiset(Flatten(f, p2)) == multiset(left) + multiset(f(p2[k])) + multiset(right);
  }

  /** The tests of `xs` split around entry `k`; without that entry, the two sides are joined. */
  lemma FlattenAround(f: string -> seq<Test>, xs: seq<string>, k: nat)
    requires k < |xs|
    ensures Flatten(f, xs) == Flatten(f, xs[..k]) + f(xs[k]) + Flatten(f, xs[k + 1..])
    ensures Flatten(f, xs[..k] + xs[k + 1..]) == Flatten(f, xs[..k]) + Flatten(f, xs[k + 1..])
  {
    var left, right := xs[..k], xs[k + 1..];
    SplitAt(xs, k);
    FlattenConcat(f, left + [xs[k]], right);
    FlattenConcat(f, left, right);
  }

  /** A list is its entries before `k`, entry `k`, and its entries after `k`. */
  lemma SplitAt(xs: seq<string>, k: nat)
    requires k < |xs|
    ensures xs == (xs[..k] + [xs[k]]) + xs[k + 1..]
    ensures (xs[..k] + [xs[k]])[..k] == xs[..k] && (xs[..k] + [xs[k]])[k] == xs[k]
  {
  }

  /**
   * Harvesting two duplicate-free lists of the same paths yields the same
   * tests, each as often, only possibly in another order.
   */
  lemma HarvestOrderFree(w: World, project: string, sha: string, p1: seq<string>, p2: seq<string>, tier: Option<nat>)
    requires forall i, j | 0 <= i < j < |p1| :: p1[i] != p1[j]
    requires forall i, j | 0 <= i < j < |p2| :: p2[i] != p2[j]
    requires forall x :: x in p1 <==> x in p2
    ensures multiset(HarvestOf(w, project, sha, p1, tier).tests) == multiset(HarvestOf(w, project, sha, p2, tier).tests)
  {
    HarvestFlatten(w, project, sha, p1, tier);
    HarvestFlatten(w, project, sha, p2, tier);
    FlattenOrderFree(FileTestsOf(w, project, sha, tier), p1, p2);
  }

  /**
   * Tier 2 recovers the same tests for a commit, each as often, whatever
   * order Python happens to iterate its prefix set in.
   */
  lemma RecheckOrderFree(w: World, reposDir: string, c: Commit, o1: seq<string>, o2: seq<string>)
    requires VisitsIn(w, reposDir, c, o1) && VisitsIn(w, reposDir, c, o2)
    ensures multiset(Recheck(w, reposDir, c, o1)) == multiset(Recheck(w, reposDir, c, o2))
  {
    if CloneOutcome(w, reposDir, c.project).Some? {
      var s := Prefixes(FileNames(c.files));
      FetchedSpec(w, c.project, c.sha, o1);
      FetchedSpec(w, c.project, c.sha, o2);
      FetchedOrderFree(w, c.project, c.sha, s, o1, o2);
      HarvestOrderFree(w, c.project, c.sha, Fetched(w, c.project, c.sha, o1), Fetched(w, c.project, c.sha, o2), Tier2Tag);
    }
  }

  /**
   * Over a whole run, the recovered tests (as a multiset) and the
   * `recovered` counter do not depend on the order each commit's prefix
   * set is visited in.
   */
  lemma {:induction false} CheckCommitsOrderFree(w: World, reposDir: string, cs: seq<Commit>, os1: seq<seq<string>>, os2: seq<seq<string>>)
    requires Visits(w, reposDir, cs, os1) && Visits(w, reposDir, cs, os2)
    ensures multiset(RecheckAll(RecheckOf(w, reposDir), cs, os1)) == multiset(RecheckAll(RecheckOf(w, reposDir), cs, os2))
    ensures |RecheckAll(RecheckOf(w, reposDir), cs, os1)| == |RecheckAll(RecheckOf(w, reposDir), cs, os2)|
    ensures RecoveredCount(RecheckOf(w, reposDir), cs, os1) == RecoveredCount(RecheckOf(w, reposDir), cs, os2)
  {
    if cs != [] {
      var n := |cs| - 1;
      CheckCommitsOrderFree(w, reposDir, cs[..n], os1[..n], os2[..n]);
      RecheckOrderFree(w, reposDir, cs[n], os1[n], os2[n]);
      var t1 := Recheck(w, reposDir, cs[n], os1[n]);
      var t2 := Recheck(w, reposDir, cs[n], os2[n]);
      assert t1 == [] <==> t2 == [] by {
        assert |multiset(t1)| == |t1| && |multiset(t2)| == |t2|;
      }
    }
    assert |multiset(RecheckAll(RecheckOf(w, reposDir), cs, os1))| == |RecheckAll(RecheckOf(w, reposDir), cs, os1)|;
    assert |multiset(RecheckAll(RecheckOf(w, reposDir), cs, os2))| == |RecheckAll(RecheckOf(w, reposDir), cs, os2)|;
  }

  /**
   * Every recovered test belongs to the commit, is tagged as tier 2 and
   * comes from a test file listed under one of the commit's prefixes.
   */
  lemma RecheckShape(w: World, reposDir: string, c: Commit, order: seq<string>)
    requires VisitsIn(w, reposDir, c, order)
    ensures forall t | t in Recheck(w, reposDir, c, order) ::
      && t.project == c.project && t.sha == c.sha && t.tier == Some(2)
      && IsTestFile(t.extracted.path)
      && exists p | p in Prefixes(FileNames(c.files)) :: t.extracted.path in LsTree(w, c.project, c.sha, p)
  {
    if CloneOutcome(w, reposDir, c.project).Some? {
      HarvestShape(w, c.project, c.sha, Fetched(w, c.project, c.sha, order), Some(2));
      FetchedSpec(w, c.project, c.sha, order);
    }
  }

  /**
   * `recovered` counts each commit at most once, and is zero exactly when
   * no test at all was recovered.
   */
  lemma {:induction false} RecoveredCountSpec(recheck: (Commit, seq<string>) -> seq<Test>,
                                              cs: seq<Commit>, orders: seq<seq<string>>)
    requires |orders| == |cs|
    ensures RecoveredCount(recheck, cs, orders) <= |cs|
    ensures RecoveredCount(recheck, cs, orders) <= |RecheckAll(recheck, cs, orders)|
    ensures RecoveredCount(recheck, cs, orders) == 0 <==> RecheckAll(recheck, cs, orders) == []
  {
    if cs != [] {
      var n := |cs| - 1;
      RecoveredCountSpec(recheck, cs[..n], orders[..n]);
    }
  }
}
