/**
 * String operations the servers and tools rely on: substring search (C++ `std::string::find`,
 * Python `x in s`), prefixes, splitting at a delimiter (`str.split(c)[0]` and `[-1]`) and
 * character replacement (`str.replace`).
 */
module Text {
  import opened Wrappers

  predicate IsPrefix(p: string, s: string) {
    |p| <= |s| && s[..|p|] == p
  }

  predicate IsSuffix(p: string, s: string) {
    |p| <= |s| && s[|s| - |p|..] == p
  }

  /** `pat` occurs in `s` starting at index `i`. */
  predicate OccursAt(s: string, pat: string, i: nat) {
    i + |pat| <= |s| && s[i..i + |pat|] == pat
  }

  lemma OccursAtTail(s: string, pat: string, j: nat)
    requires |s| > 0
    ensures OccursAt(s, pat, j + 1) <==> OccursAt(s[1..], pat, j)
  {
    if j + 1 + |pat| <= |s| {
      assert s[j + 1..j + 1 + |pat|] == s[1..][j..j + |pat|];
    }
  }

  /**
   * The index of the first occurrence of `pat` in `s`, as `std::string::find` returns it;
   * None stands for `npos`.
   */
  function IndexOf(s: string, pat: string): (r: Option<nat>)
    ensures r.Some? ==> OccursAt(s, pat, r.value)
    ensures r.Some? ==> forall j: nat :: j < r.value ==> !OccursAt(s, pat, j)
    ensures r.None? ==> forall j: nat :: !OccursAt(s, pat, j)
    decreases |s|
  {
    if OccursAt(s, pat, 0) then Some(0)
    else if |s| == 0 then None
    else
      var rest := IndexOf(s[1..], pat);
      assert forall j: nat :: OccursAt(s, pat, j + 1) <==> OccursAt(s[1..], pat, j) by {
        forall j: nat ensures OccursAt(s, pat, j + 1) <==> OccursAt(s[1..], pat, j) {
          OccursAtTail(s, pat, j);
        }
      }
      assert forall j: nat :: j > 0 ==> (OccursAt(s, pat, j) <==> OccursAt(s[1..], pat, j - 1)) by {
        forall j: nat | j > 0 ensures OccursAt(s, pat, j) <==> OccursAt(s[1..], pat, j - 1) {
          OccursAtTail(s, pat, j - 1);
        }
      }
      match rest
      case Some(i) => Some(i + 1)
      case None => None
  }

  /** Substring containment: Python's `pat in s`, or `s.find(pat) != npos` in C++. */
  predicate Contains(s: string, pat: string) {
    IndexOf(s, pat).Some?
  }

  lemma ContainsWitness(s: string, pat: string, i: nat)
    requires OccursAt(s, pat, i)
    ensures Contains(s, pat)
  {
  }

  /** Whatever is concatenated around `b`, `b` is found in the result. */
  lemma ContainsMiddle(a: string, b: string, c: string)
    ensures Contains(a + b + c, b)
  {
    assert (a + b + c)[|a|..|a| + |b|] == b;
    ContainsWitness(a + b + c, b, |a|);
  }

  /**
   * Splits `s` before the first occurrence of `d`: the text before it, and the rest starting
   * with `d` (empty when `d` does not occur).
   */
  function TakeUntil(s: string, d: char): (r: (string, string))
    ensures r.0 + r.1 == s
    ensures d !in r.0
    ensures r.1 == "" || r.1[0] == d
  {
    if |s| == 0 then ("", "")
    else if s[0] == d then ("", s)
    else
      var (before, rest) := TakeUntil(s[1..], d);
      ([s[0]] + before, rest)
  }

  /** A delimiter that does not occur in `x` splits `x + y` exactly at the join. */
  lemma {:induction false} TakeUntilJoin(x: string, y: string, d: char)
    requires d !in x
    requires |y| > 0 && y[0] == d
    ensures TakeUntil(x + y, d) == (x, y)
  {
    if |x| > 0 {
      assert (x + y)[0] == x[0] != d;
      assert (x + y)[1..] == x[1..] + y;
      assert d !in x[1..] by {
        forall i | 0 <= i < |x| - 1 ensures x[1..][i] != d { assert x[1..][i] == x[i + 1]; }
      }
      TakeUntilJoin(x[1..], y, d);
      assert TakeUntil(x + y, d) == ([x[0]] + x[1..], y);
      assert [x[0]] + x[1..] == x;
    } else {
      assert x + y == y;
    }
  }

  /** Python's `s.split(c)[-1]`: the text after the last `c`, or all of `s` when there is none. */
  function AfterLast(s: string, c: char): (r: string)
    ensures c !in r
    ensures IsSuffix(r, s)
    ensures c !in s ==> r == s
    ensures |r| < |s| ==> s[|s| - |r| - 1] == c
  {
    if |s| == 0 then ""
    else if s[|s| - 1] == c then ""
    else
      var init := AfterLast(s[..|s| - 1], c);
      assert s == s[..|s| - 1] + [s[|s| - 1]];
      init + [s[|s| - 1]]
  }

  /** Python's `s.split(c)[0]`: the text before the first `c`, or all of `s` when there is none. */
  function BeforeFirst(s: string, c: char): (r: string)
    ensures c !in r
    ensures IsPrefix(r, s)
    ensures c !in s ==> r == s
    ensures |r| < |s| ==> s[|r|] == c
  {
    if |s| == 0 then ""
    else if s[0] == c then ""
    else [s[0]] + BeforeFirst(s[1..], c)
  }

  /** Python's `s.replace(c, rep)` for a one-character pattern `c`. */
  function ReplaceChar(s: string, c: char, rep: string): (r: string)
    ensures c !in rep ==> c !in r
    ensures c !in s ==> r == s
  {
    if |s| == 0 then ""
    else (if s[0] == c then rep else [s[0]]) + ReplaceChar(s[1..], c, rep)
  }

  /** The text after the last `c` of `x + [c] + y`, when `y` holds no `c`, is `y`. */
  lemma {:induction false} AfterLastJoin(x: string, y: string, c: char)
    requires c !in y
    ensures AfterLast(x + [c] + y, c) == y
    decreases |y|
  {
    var s := x + [c] + y;
    if |y| > 0 {
      var init := y[..|y| - 1];
      assert s[..|s| - 1] == x + [c] + init;
      assert s[|s| - 1] == y[|y| - 1];
      AfterLastJoin(x, init, c);
      assert init + [y[|y| - 1]] == y;
    }
  }

  /** The text before the first `c` of `x + [c] + y`, when `x` holds no `c`, is `x`. */
  lemma {:induction false} BeforeFirstJoin(x: string, y: string, c: char)
    requires c !in x
    ensures BeforeFirst(x + [c] + y, c) == x
  {
    var s := x + [c] + y;
    if |x| > 0 {
      assert s[0] == x[0];
      assert s[1..] == x[1..] + [c] + y;
      assert c !in x[1..] by {
        forall i | 0 <= i < |x| - 1 ensures x[1..][i] != c { assert x[1..][i] == x[i + 1]; }
      }
      BeforeFirstJoin(x[1..], y, c);
      assert [x[0]] + x[1..] == x;
    }
  }

  lemma SelfPrefix(a: string, b: string)
    ensures IsPrefix(a, a + b)
  {
    assert (a + b)[..|a|] == a;
  }

  lemma SelfSuffix(a: string, b: string)
    ensures IsSuffix(b, a + b)
  {
    assert (a + b)[|a|..] == b;
  }

  /** A prefix splits the text into itself and the rest. */
  lemma PrefixSplit(p: string, s: string)
    requires IsPrefix(p, s)
    ensures s == p + s[|p|..]
  {
  }

  lemma PrefixOfAppend(p: string, s: string, t: string)
    requires IsPrefix(p, s)
    ensures IsPrefix(p, s + t)
  {
    assert (s + t)[..|p|] == s[..|p|];
  }

  lemma SuffixOfAppend(p: string, s: string, t: string)
    requires IsSuffix(p, t)
    ensures IsSuffix(p, s + t)
  {
    assert (s + t)[|s + t| - |p|..] == t[|t| - |p|..];
  }

  lemma ContainsLeft(s: string, t: string, pat: string)
    requires Contains(s, pat)
    ensures Contains(s + t, pat)
  {
    var i := IndexOf(s, pat).value;
    assert (s + t)[i..i + |pat|] == s[i..i + |pat|];
    ContainsWitness(s + t, pat, i);
  }

  lemma ContainsRight(s: string, t: string, pat: string)
    requires Contains(t, pat)
    ensures Contains(s + t, pat)
  {
    var i := IndexOf(t, pat).value;
    assert (s + t)[|s| + i..|s| + i + |pat|] == t[i..i + |pat|];
    ContainsWitness(s + t, pat, |s| + i);
  }

  /** Appending three pieces one after another appends their concatenation. */
  lemma AppendThree(s: string, a: string, b: string, c: string)
    ensures s + a + b + c == s + (a + b + c)
  {
  }

  lemma AppendEmpty(s: string)
    ensures s + "" == s
  {
  }

  /**
   * What a text opens with, and what it contains, survive appending two more pieces; the last
   * piece closes the result.
   */
  lemma FirstOfThree(a: string, b: string, c: string, p: string, pat: string)
    requires IsPrefix(p, a) && Contains(a, pat)
    ensures IsPrefix(p, a + b + c) && Contains(a + b + c, pat)
    ensures IsSuffix(c, a + b + c)
  {
    PrefixOfAppend(p, a, b + c);
    ContainsLeft(a, b + c, pat);
    assert a + b + c == a + (b + c);
    SelfSuffix(a + b, c);
  }

  /** What the middle piece opens with occurs in the concatenation. */
  lemma MiddleOfThree(a: string, b: string, c: string, p: string)
    requires IsPrefix(p, b)
    ensures Contains(a + b + c, p)
  {
    PrefixSplit(p, b);
    var rest := b[|p|..];
    ContainsMiddle(a, p, rest + c);
    assert a + p + (rest + c) == a + b + c;
  }
}
