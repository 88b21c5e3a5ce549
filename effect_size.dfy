/**
 * The effect-size arithmetic of the RQ2 analysis: Cliff's delta between
 * two samples of smell reductions, and the reductions themselves, clamped
 * at zero.
 */
module EffectSize {
  import opened Wrappers

  // ---------------------------------------------------------------------
  // Clamped reductions
  // ---------------------------------------------------------------------

  /** `counts.get(smell, 0)`. */
  function CountOf(counts: map<string, int>, smell: string): int {
    if smell in counts then counts[smell] else 0
  }

  /**
   * `max(0, before_count - after_count)`: never negative, never more than
   * the count before when both counts are not negative, and the larger of
   * 0 and the plain difference.
   */
  function Reduction(before: int, after: int): (r: int)
    ensures r >= 0 && r >= before - after
    ensures r == 0 || r == before - after
    ensures 0 <= before && 0 <= after ==> r <= before
  {
    if before - after > 0 then before - after else 0
  }

  /** The LLM or developer reduction of one smell, the smell missing after counting as 0. */
  function SmellReduction(before: map<string, int>, after: map<string, int>, smell: string): (r: int)
    requires smell in before
    ensures r >= 0
    ensures smell !in after ==> r == Reduction(before[smell], 0)
    ensures smell in after ==> r == Reduction(before[smell], after[smell])
    ensures (smell in after && after[smell] >= 0 && before[smell] >= 0) ==> r <= before[smell]
  {
    Reduction(CountOf(before, smell), CountOf(after, smell))
  }

  // ---------------------------------------------------------------------
  // Cliff's delta
  // ---------------------------------------------------------------------

  /** How many of `ys` lie below `x`. */
  function Above(x: int, ys: seq<int>): nat {
    if ys == [] then 0 else Above(x, ys[..|ys| - 1]) + (if x > ys[|ys| - 1] then 1 else 0)
  }

  /** How many of `ys` lie above `x`. */
  function Below(x: int, ys: seq<int>): nat {
    if ys == [] then 0 else Below(x, ys[..|ys| - 1]) + (if x < ys[|ys| - 1] then 1 else 0)
  }

  /** How many of `ys` equal `x`. */
  function Tied(x: int, ys: seq<int>): nat {
    if ys == [] then 0 else Tied(x, ys[..|ys| - 1]) + (if x == ys[|ys| - 1] then 1 else 0)
  }

  /** The pairs `(x, y)` with `x > y`. */
  function GreaterPairs(xs: seq<int>, ys: seq<int>): nat {
    if xs == [] then 0 else GreaterPairs(xs[..|xs| - 1], ys) + Above(xs[|xs| - 1], ys)
  }

  /** The pairs `(x, y)` with `x < y`. */
  function LessPairs(xs: seq<int>, ys: seq<int>): nat {
    if xs == [] then 0 else LessPairs(xs[..|xs| - 1], ys) + Below(xs[|xs| - 1], ys)
  }

  /** The pairs `(x, y)` with `x == y`. */
  function EqualPairs(xs: seq<int>, ys: seq<int>): nat {
    if xs == [] then 0 else EqualPairs(xs[..|xs| - 1], ys) + Tied(xs[|xs| - 1], ys)
  }

  /**
   * `cliffs_delta`: the pairs where `x` wins minus those where it loses,
   * over all pairs; `None` when a sample is empty, where the division by
   * `nx * ny` raises.
   */
  function CliffsDelta(xs: seq<int>, ys: seq<int>): Option<real> {
    if |xs| * |ys| == 0 then None
    else Some((GreaterPairs(xs, ys) - LessPairs(xs, ys)) as real / (|xs| * |ys|) as real)
  }

  /** The nested counting loop of `cliffs_delta` and its final division. */
  method ComputeCliffsDelta(x: seq<int>, y: seq<int>) returns (delta: Option<real>)
    ensures delta == CliffsDelta(x, y)
  {
    var nx, ny := |x|, |y|;
    var greater, less, equal := 0, 0, 0;
    for i := 0 to nx
      invariant greater == GreaterPairs(x[..i], y) && less == LessPairs(x[..i], y) && equal == EqualPairs(x[..i], y)
    {
      assert x[..i + 1][..i] == x[..i];
      for j := 0 to ny
        invariant greater == GreaterPairs(x[..i], y) + Above(x[i], y[..j])
        invariant less == LessPairs(x[..i], y) + Below(x[i], y[..j])
        invariant equal == EqualPairs(x[..i], y) + Tied(x[i], y[..j])
      {
        assert y[..j + 1][..j] == y[..j];
        if x[i] > y[j] {
          greater := greater + 1;
        } else if x[i] < y[j] {
          less := less + 1;
        } else {
          equal := equal + 1;
        }
      }
      assert y[..ny] == y;
    }
    assert x[..nx] == x;
    if nx * ny == 0 {
      return None;
    }
    delta := Some((greater - less) as real / (nx * ny) as real);
  }

  /** Against one `x`, every `y` is below, above or equal to it, exactly once. */
  lemma {:induction false} OneAgainstAll(x: int, ys: seq<int>)
    ensures Above(x, ys) + Below(x, ys) + Tied(x, ys) == |ys|
  {
    if ys != [] {
      OneAgainstAll(x, ys[..|ys| - 1]);
    }
  }

  /** `greater + less + equal == nx * ny`: every pair is counted once. */
  lemma {:induction false} PairsPartition(xs: seq<int>, ys: seq<int>)
    ensures GreaterPairs(xs, ys) + LessPairs(xs, ys) + EqualPairs(xs, ys) == |xs| * |ys|
  {
    if xs != [] {
      PairsPartition(xs[..|xs| - 1], ys);
      OneAgainstAll(xs[|xs| - 1], ys);
      assert (|xs| - 1) * |ys| + |ys| == |xs| * |ys|;
    }
  }

  /** For non-empty samples the delta lies between -1 and 1. */
  lemma CliffsDeltaRange(xs: seq<int>, ys: seq<int>)
    ensures CliffsDelta(xs, ys).Some? <==> xs != [] && ys != []
    ensures CliffsDelta(xs, ys).Some? ==> -1.0 <= CliffsDelta(xs, ys).value <= 1.0
  {
    PairsPartition(xs, ys);
    if xs != [] && ys != [] {
      var n := |xs| * |ys|;
      var d := GreaterPairs(xs, ys) - LessPairs(xs, ys);
      assert -n <= d <= n;
      assert n > 0;
      DivisionBounds(d, n);
    }
  }

  /** A count difference between `-n` and `n`, divided by `n`, lies between -1 and 1. */
  lemma DivisionBounds(d: int, n: int)
    requires n > 0 && -n <= d <= n
    ensures -1.0 <= d as real / n as real <= 1.0
  {
    var q := d as real / n as real;
    assert q * n as real == d as real;
  }

  /** One more `x` adds, for every `y`, one to its count of greater values exactly when `x` is. */
  lemma {:induction false} BelowSnoc(ys: seq<int>, xs: seq<int>, x: int)
    ensures LessPairs(ys, xs + [x]) == LessPairs(ys, xs) + Above(x, ys)
  {
    if ys != [] {
      var init := ys[..|ys| - 1];
      var y := ys[|ys| - 1];
      BelowSnoc(init, xs, x);
      assert (xs + [x])[..|xs|] == xs;
    }
  }

  /** A pair where `x` wins is a pair, seen from `y`, where `y` loses. */
  lemma {:induction false} GreaterIsLessSwapped(xs: seq<int>, ys: seq<int>)
    ensures GreaterPairs(xs, ys) == LessPairs(ys, xs)
  {
    if xs == [] {
      LessPairsEmpty(ys);
    } else {
      var init := xs[..|xs| - 1];
      var x := xs[|xs| - 1];
      GreaterIsLessSwapped(init, ys);
      BelowSnoc(ys, init, x);
      assert init + [x] == xs;
    }
  }

  /** Nothing is above anything in an empty sample. */
  lemma {:induction false} LessPairsEmpty(ys: seq<int>)
    ensures LessPairs(ys, []) == 0
  {
    if ys != [] {
      LessPairsEmpty(ys[..|ys| - 1]);
    }
  }

  /** Swapping the samples negates Cliff's delta. */
  lemma CliffsDeltaAntisymmetric(xs: seq<int>, ys: seq<int>)
    ensures CliffsDelta(xs, ys).Some? <==> CliffsDelta(ys, xs).Some?
    ensures CliffsDelta(xs, ys).Some? ==> CliffsDelta(xs, ys).value == -CliffsDelta(ys, xs).value
  {
    GreaterIsLessSwapped(xs, ys);
    GreaterIsLessSwapped(ys, xs);
    if xs != [] && ys != [] {
      var n := |xs| * |ys|;
      assert |ys| * |xs| == n;
      NegatedDivision(GreaterPairs(xs, ys) - LessPairs(xs, ys), n);
    }
  }

  /** Negating a count difference negates its quotient. */
  lemma NegatedDivision(d: int, n: int)
    requires n > 0
    ensures (-d) as real / n as real == -(d as real / n as real)
  {
    var q := d as real / n as real;
    assert q * n as real == d as real;
    assert (-q) * n as real == (-d) as real;
  }

  /** When every `x` exceeds every `y`, every pair is one where `x` wins. */
  lemma {:induction false} AllAbove(xs: seq<int>, ys: seq<int>)
    requires forall i, j | 0 <= i < |xs| && 0 <= j < |ys| :: xs[i] > ys[j]
    ensures GreaterPairs(xs, ys) == |xs| * |ys| && LessPairs(xs, ys) == 0
  {
    if xs != [] {
      var init := xs[..|xs| - 1];
      AllAbove(init, ys);
      AboveAll(xs[|xs| - 1], ys);
      assert (|xs| - 1) * |ys| + |ys| == |xs| * |ys|;
    }
  }

  /** An `x` above every `y` is above all of them and below none. */
  lemma {:induction false} AboveAll(x: int, ys: seq<int>)
    requires forall j | 0 <= j < |ys| :: x > ys[j]
    ensures Above(x, ys) == |ys| && Below(x, ys) == 0
  {
    if ys != [] {
      AboveAll(x, ys[..|ys| - 1]);
    }
  }

  /** When every `x` exceeds every `y`, Cliff's delta is 1. */
  lemma CliffsDeltaDominance(xs: seq<int>, ys: seq<int>)
    requires xs != [] && ys != []
    requires forall i, j | 0 <= i < |xs| && 0 <= j < |ys| :: xs[i] > ys[j]
    ensures CliffsDelta(xs, ys) == Some(1.0)
  {
    AllAbove(xs, ys);
    var n := |xs| * |ys|;
    assert n > 0;
    assert (n - 0) as real / n as real == 1.0;
  }
}
