/**
 * What Tier 3 guarantees over a run: one result per commit, naming it and
 * the tool, and counters that add up to what the results say.
 */
module Tier3Facts {
  import opened Wrappers
  import opened Records
  import opened Build
  import opened Tier3

  /** The number of failed results. */
  function FailureCount(results: seq<GenResult>): nat {
    if results == [] then 0
    else FailureCount(results[..|results| - 1]) + (if results[|results| - 1].status == Failed then 1 else 0)
  }

  /** The number of tests the results report. */
  function TestsTotal(results: seq<GenResult>): nat {
    if results == [] then 0 else TestsTotal(results[..|results| - 1]) + results[|results| - 1].testsGenerated
  }

  /** The number of results without any generated test. */
  function EmptyCount(results: seq<GenResult>): nat {
    if results == [] then 0
    else EmptyCount(results[..|results| - 1]) + (if results[|results| - 1].testsGenerated == 0 then 1 else 0)
  }

  /**
   * The counters after a run: one more attempted commit per attempt, one
   * more failure per failed result, the generated tests of all results, and
   * no more commits cloned or compiled than attempted.
   */
  lemma {:induction false} CountAllSpec(s: Tier3Stats, attempts: seq<Attempt>)
    ensures CountAll(s, attempts).attempted == s.attempted + |attempts|
    ensures CountAll(s, attempts).failures == s.failures + FailureCount(ResultsOf(attempts))
    ensures CountAll(s, attempts).testsGenerated == s.testsGenerated + TestsTotal(ResultsOf(attempts))
    ensures CountAll(s, attempts).cloned <= s.cloned + |attempts|
    ensures CountAll(s, attempts).compiled <= s.compiled + |attempts|
  {
    if attempts != [] {
      var n := |attempts| - 1;
      CountAllSpec(s, attempts[..n]);
      var rs := ResultsOf(attempts);
      assert rs[..n] == ResultsOf(attempts[..n]);
    }
  }

  /** The `i`-th result is about the `i`-th commit and the generator's tool. */
  lemma {:induction false} AttemptsMatch(tool: Tool, world: (string, string) -> CommitWorld, repos: set<string>,
                                         cs: seq<Commit>, targets: seq<Option<string>>)
    requires |targets| == |cs|
    ensures forall i | 0 <= i < |cs| ::
      && AttemptsOf(AttemptOf(tool, world), CheckoutOf(world), repos, cs, targets)[i].result.project == cs[i].project
      && AttemptsOf(AttemptOf(tool, world), CheckoutOf(world), repos, cs, targets)[i].result.sha == cs[i].sha
      && AttemptsOf(AttemptOf(tool, world), CheckoutOf(world), repos, cs, targets)[i].result.tool == tool
  {
    if cs != [] {
      var n := |cs| - 1;
      AttemptsMatch(tool, world, repos, cs[..n], targets[..n]);
      var attempts := AttemptsOf(AttemptOf(tool, world), CheckoutOf(world), repos, cs, targets);
      assert attempts[..n] == AttemptsOf(AttemptOf(tool, world), CheckoutOf(world), repos, cs[..n], targets[..n]);
      forall i | 0 <= i < |cs|
        ensures attempts[i].result.project == cs[i].project && attempts[i].result.sha == cs[i].sha
        ensures attempts[i].result.tool == tool
      {
        if i < n {
          assert attempts[i] == attempts[..n][i];
          assert cs[i] == cs[..n][i];
        } else {
          var k := CheckoutOf(world)(cs[n], cs[n].project in ReposThrough(CheckoutOf(world), repos, cs[..n]));
          assert attempts[n] == AttemptOutcome(tool, world(cs[n].project, cs[n].sha), cs[n], k, targets[n]);
        }
      }
    }
  }

  /** Of the results, the successes are exactly those with tests, and only they contribute tests. */
  lemma {:induction false} EmptyCountSpec(results: seq<GenResult>)
    requires forall r | r in results :: r.status == Success <==> r.testsGenerated > 0
    ensures EmptyCount(results) + |set i | 0 <= i < |results| && results[i].status == Success| == |results|
  {
    if results != [] {
      var n := |results| - 1;
      EmptyCountSpec(results[..n]);
      var before := set i | 0 <= i < n && results[..n][i].status == Success;
      var after := set i | 0 <= i < |results| && results[i].status == Success;
      if results[n].status == Success {
        assert after == before + {n};
      } else {
        assert after == before;
      }
    }
  }
}
