/**
 * The Python string operations the pipeline is written with (`in`, `find`,
 * `rfind`, `replace`, `startswith`, `endswith`, `strip`, `rstrip`, `split`,
 * `join`, slicing with negative bounds, `pathlib` names and stems), stated
 * over `seq<char>`, together with the facts about them that the path
 * heuristics need.
 */
module Text {

  /** `t` occurs in `s` starting at index `i`. */
  predicate OccursAt(s: string, t: string, i: int) {
    0 <= i && i + |t| <= |s| && s[i..i + |t|] == t
  }

  /** Python `t in s`. */
  predicate Contains(s: string, t: string) {
    exists i | 0 <= i <= |s| - |t| :: OccursAt(s, t, i)
  }

  /** Python `s.startswith(p)`. */
  predicate StartsWith(s: string, p: string) {
    p <= s
  }

  /** Python `s.endswith(t)`. */
  predicate EndsWith(s: string, t: string) {
    |t| <= |s| && s[|s| - |t|..] == t
  }

  /** Python `s.find(t, i)`: the first occurrence of `t` at or after `i`, or -1. */
  function FindFrom(s: string, t: string, i: nat): (r: int)
    requires i <= |s|
    ensures r == -1 || (i <= r && OccursAt(s, t, r))
    ensures forall j | i <= j && (r == -1 || j < r) :: !OccursAt(s, t, j)
    decreases |s| - i
  {
    if i + |t| > |s| then -1
    else if s[i..i + |t|] == t then i
    else FindFrom(s, t, i + 1)
  }

  /** Python `s.find(t)`. */
  function Find(s: string, t: string): (r: int)
    ensures r >= 0 <==> Contains(s, t)
    ensures r >= 0 ==> OccursAt(s, t, r)
    ensures r >= 0 ==> forall j | 0 <= j < r :: !OccursAt(s, t, j)
  {
    FindFrom(s, t, 0)
  }

  /** Python `s.rfind(c)` for a single character. */
  function RFindChar(s: string, c: char): (r: int)
    ensures -1 <= r < |s|
    ensures r >= 0 ==> s[r] == c
    ensures forall j | r < j < |s| :: s[j] != c
  {
    if s == [] then -1
    else if s[|s| - 1] == c then |s| - 1
    else RFindChar(s[..|s| - 1], c)
  }

  /** Python `s.replace(pat, rep)`: every non-overlapping occurrence, left to right. */
  function Replace(s: string, pat: string, rep: string): string
    requires |pat| > 0
    decreases |s|
  {
    if s == [] then []
    else if pat <= s then rep + Replace(s[|pat|..], pat, rep)
    else [s[0]] + Replace(s[1..], pat, rep)
  }

  /**
   * The characters Python's argument-less `str.strip` removes: the ASCII
   * whitespace, the four information separators, NEL, the no-break space
   * and the Unicode space separators, line and paragraph separators.
   */
  predicate IsSpace(c: char) {
    || c == ' ' || ('\t' <= c <= '\r') || ('\U{001C}' <= c <= '\U{001F}')
    || c == '\U{0085}' || c == '\U{00A0}' || c == '\U{1680}'
    || ('\U{2000}' <= c <= '\U{200A}') || c == '\U{2028}' || c == '\U{2029}'
    || c == '\U{202F}' || c == '\U{205F}' || c == '\U{3000}'
  }

  /** Python `s.lstrip()`. */
  function StripLeft(s: string): (r: string)
    ensures |r| <= |s| && r == s[|s| - |r|..]
    ensures r == [] || !IsSpace(r[0])
    ensures forall j | 0 <= j < |s| - |r| :: IsSpace(s[j])
  {
    if s != [] && IsSpace(s[0]) then StripLeft(s[1..]) else s
  }

  /** Python `s.rstrip(c)` for a single character. */
  function RStripChar(s: string, c: char): (r: string)
    ensures r <= s
    ensures r == [] || r[|r| - 1] != c
    ensures forall j | |r| <= j < |s| :: s[j] == c
  {
    if s != [] && s[|s| - 1] == c then RStripChar(s[..|s| - 1], c) else s
  }

  /** Python `s.rstrip()`. */
  function StripRight(s: string): (r: string)
    ensures r <= s
    ensures r == [] || !IsSpace(r[|r| - 1])
    ensures forall j | |r| <= j < |s| :: IsSpace(s[j])
  {
    if s != [] && IsSpace(s[|s| - 1]) then StripRight(s[..|s| - 1]) else s
  }

  /** Python `s.strip()`. */
  function Strip(s: string): string {
    StripRight(StripLeft(s))
  }

  /** Python `sep.join(parts)`. */
  function Join(parts: seq<string>, sep: string): string {
    if parts == [] then []
    else if |parts| == 1 then parts[0]
    else parts[0] + sep + Join(parts[1..], sep)
  }

  /** Python `s.split(c)` for a single-character separator. */
  function Split(s: string, c: char): (r: seq<string>)
    ensures |r| >= 1
  {
    if s == [] then [""]
    else
      var rest := Split(s[1..], c);
      if s[0] == c then [""] + rest else [[s[0]] + rest[0]] + rest[1..]
  }

  /** Python `s[:n]` for `n >= 0`. */
  function Take(s: string, n: nat): (r: string)
    ensures r <= s && |r| == if |s| <= n then |s| else n
  {
    if |s| <= n then s else s[..n]
  }

  /** Python `s[:-n]` for `n > 0`: the empty string when `s` is shorter than `n`. */
  function DropLast(s: string, n: nat): (r: string)
    ensures r <= s
    ensures |s| >= n ==> |r| == |s| - n
    ensures |s| < n ==> r == []
  {
    if |s| >= n then s[..|s| - n] else []
  }

  /** Python `s[a:b]` for non-negative bounds, which are clamped to the text. */
  function Slice(s: string, a: nat, b: nat): (r: string)
    ensures a <= b <= |s| ==> r == s[a..b]
    ensures |r| <= |s|
  {
    var lo := if a <= |s| then a else |s|;
    var hi := if b <= |s| then (if lo <= b then b else lo) else |s|;
    s[lo..hi]
  }

  /** `pathlib.PurePath(p).name`: the text after the last `/`, built from the end. */
  function Basename(p: string): (r: string)
    ensures '/' !in r
    ensures |r| <= |p|
  {
    if p == [] || p[|p| - 1] == '/' then [] else Basename(p[..|p| - 1]) + [p[|p| - 1]]
  }

  /** `pathlib.PurePath(p).stem`: the name without its last suffix. */
  function Stem(p: string): (r: string)
    ensures r <= Basename(p)
  {
    var name := Basename(p);
    var i := RFindChar(name, '.');
    if 0 < i < |name| - 1 then name[..i] else name
  }

  // ---------------------------------------------------------------------
  // Facts about these operations
  // ---------------------------------------------------------------------

  /** Splitting on `c` and joining with `c` gives back the text, and no piece holds `c`. */
  lemma {:induction false} SplitJoin(s: string, c: char)
    ensures Join(Split(s, c), [c]) == s
    ensures forall piece | piece in Split(s, c) :: c !in piece
  {
    if s != [] {
      var rest := Split(s[1..], c);
      SplitJoin(s[1..], c);
      if s[0] == c {
        assert Split(s, c) == [""] + rest;
        assert Join([""] + rest, [c]) == "" + [c] + Join(rest, [c]);
      } else {
        var pieces := [[s[0]] + rest[0]] + rest[1..];
        assert Split(s, c) == pieces;
        assert rest[0] in rest;
        if |rest| == 1 {
          assert Join(pieces, [c]) == [s[0]] + rest[0];
          assert Join(rest, [c]) == rest[0];
        } else {
          assert Join(rest, [c]) == rest[0] + [c] + Join(rest[1..], [c]);
          assert Join(pieces, [c]) == [s[0]] + rest[0] + [c] + Join(pieces[1..], [c]);
          assert pieces[1..] == rest[1..];
        }
        forall piece | piece in pieces ensures c !in piece {
          if piece == pieces[0] {
            assert c !in rest[0];
          } else {
            assert piece in rest;
          }
        }
      }
    }
  }

  /** An occurrence inside a longer text. */
  lemma ContainsAt(s: string, t: string, i: int)
    requires OccursAt(s, t, i)
    ensures Contains(s, t)
  {
  }

  /** Text that contains `t` still contains it after anything is added on either side. */
  lemma {:induction false} ContainsExtend(s: string, t: string, before: string, after: string)
    requires Contains(s, t)
    ensures Contains(before + s + after, t)
  {
    var i :| 0 <= i <= |s| - |t| && OccursAt(s, t, i);
    var w := before + s + after;
    assert w[|before| + i..|before| + i + |t|] == s[i..i + |t|];
    ContainsAt(w, t, |before| + i);
  }

  /** `in` is transitive: `t` in `u` and `u` in `s` give `t` in `s`. */
  lemma {:induction false} ContainsTrans(s: string, u: string, t: string)
    requires Contains(s, u) && Contains(u, t)
    ensures Contains(s, t)
  {
    var i :| 0 <= i <= |s| - |u| && OccursAt(s, u, i);
    var j :| 0 <= j <= |u| - |t| && OccursAt(u, t, j);
    assert s[i..i + |u|] == u;
    forall k | 0 <= k < |t|
      ensures s[i + j + k] == t[k]
    {
      assert s[i + j + k] == s[i..i + |u|][j + k];
      assert u[j + k] == u[j..j + |t|][k];
    }
    assert s[i + j..i + j + |t|] == t;
    ContainsAt(s, t, i + j);
  }

  /**
   * An occurrence of `t` in `a + b` lies inside `a` when the last character
   * of `t` does not occur in `b`.
   */
  lemma {:induction false} ContainsInPrefix(a: string, b: string, t: string)
    requires |t| > 0 && t[|t| - 1] !in b
    requires Contains(a + b, t)
    ensures Contains(a, t)
  {
    var s := a + b;
    var i :| 0 <= i <= |s| - |t| && OccursAt(s, t, i);
    var last := i + |t| - 1;
    assert s[last] == t[|t| - 1];
    assert last < |a|;
    assert a[i..i + |t|] == s[i..i + |t|];
    ContainsAt(a, t, i);
  }

  /** Replacing every occurrence of `pat` by `rep` leaves `rep` behind when `pat` occurred. */
  lemma {:induction false} ReplaceProduces(s: string, pat: string, rep: string)
    requires |pat| > 0 && Contains(s, pat)
    ensures Contains(Replace(s, pat, rep), rep)
    decreases |s|
  {
    if pat <= s {
      assert (rep + Replace(s[|pat|..], pat, rep))[..|rep|] == rep;
      ContainsAt(Replace(s, pat, rep), rep, 0);
    } else {
      var i :| 0 <= i <= |s| - |pat| && OccursAt(s, pat, i);
      assert i != 0;
      assert s[1..][i - 1..i - 1 + |pat|] == pat;
      ContainsAt(s[1..], pat, i - 1);
      ReplaceProduces(s[1..], pat, rep);
      ContainsExtend(Replace(s[1..], pat, rep), rep, [s[0]], []);
      assert [s[0]] + Replace(s[1..], pat, rep) + [] == Replace(s, pat, rep);
    }
  }

  /** Text that cannot hold the last character of `pat` is left unchanged by `Replace`. */
  lemma {:induction false} ReplaceNoMatch(s: string, pat: string, rep: string)
    requires |pat| > 0 && pat[|pat| - 1] !in s
    ensures Replace(s, pat, rep) == s
    decreases |s|
  {
    if s != [] {
      assert !(pat <= s) by {
        if |pat| <= |s| {
          assert s[|pat| - 1] in s;
        }
      }
      ReplaceNoMatch(s[1..], pat, rep);
      assert [s[0]] + s[1..] == s;
    }
  }

  /**
   * `Replace` distributes over a concatenation whose right part cannot hold
   * the last character of `pat` (so no occurrence straddles the two parts).
   */
  lemma {:induction false} ReplaceAppend(a: string, b: string, pat: string, rep: string)
    requires |pat| > 0 && pat[|pat| - 1] !in b
    ensures Replace(a + b, pat, rep) == Replace(a, pat, rep) + b
    decreases |a|
  {
    if a == [] {
      assert a + b == b;
      ReplaceNoMatch(b, pat, rep);
    } else if pat <= a + b {
      assert |pat| <= |a|;
      assert pat <= a;
      assert (a + b)[|pat|..] == a[|pat|..] + b;
      ReplaceAppend(a[|pat|..], b, pat, rep);
    } else {
      assert !(pat <= a);
      assert (a + b)[1..] == a[1..] + b;
      ReplaceAppend(a[1..], b, pat, rep);
    }
  }

  /** A text that ends with `t` is the rest of it followed by `t`. */
  lemma DropSuffix(s: string, t: string)
    requires EndsWith(s, t)
    ensures s == DropLast(s, |t|) + t
  {
    assert s == s[..|s| - |t|] + s[|s| - |t|..];
  }

  /** The last `c` of `a + b` is the last `c` of `a` when `b` has none. */
  lemma {:induction false} RFindCharAppend(a: string, b: string, c: char)
    requires c !in b
    ensures RFindChar(a + b, c) == RFindChar(a, c)
  {
    var r := RFindChar(a + b, c);
    var q := RFindChar(a, c);
    assert r < |a|;
    assert q >= 0 ==> (a + b)[q] == a[q];
    assert r >= 0 ==> (a + b)[r] == a[r];
  }

  /** Replacing a one-character pattern by text without that character removes the character. */
  lemma {:induction false} ReplaceRemovesChar(s: string, c: char, rep: string)
    requires c !in rep
    ensures c !in Replace(s, [c], rep)
    decreases |s|
  {
    if s != [] {
      ReplaceRemovesChar(s[1..], c, rep);
      if [c] <= s {
        assert s[1..] == s[|[c]|..];
      } else {
        assert s[0] != c;
      }
    }
  }

  /** The name is exactly what follows the last `/`, so it is a suffix of the path. */
  lemma {:induction false} BasenameAfterSlash(p: string)
    ensures Basename(p) == p[RFindChar(p, '/') + 1..]
    ensures EndsWith(p, Basename(p))
  {
    if p != [] && p[|p| - 1] != '/' {
      var init := p[..|p| - 1];
      BasenameAfterSlash(init);
      var k := RFindChar(init, '/');
      assert RFindChar(p, '/') == k;
      assert p[k + 1..] == init[k + 1..] + [p[|p| - 1]];
    }
  }
}
