/** Splitting strings at a separator character; used to read composed URLs and headers back. */
module Strings {

  /** The part of s before the first c (all of s when c does not occur). */
  function Before(s: string, c: char): (r: string)
    ensures r <= s && c !in r
  {
    if s == [] || s[0] == c then [] else [s[0]] + Before(s[1..], c)
  }

  /** The part of s from the first c on, c included (empty when c does not occur). */
  function From(s: string, c: char): (r: string)
    ensures |r| <= |s|
    ensures r == [] || r[0] == c
  {
    if s == [] then [] else if s[0] == c then s else From(s[1..], c)
  }

  /** The part of s after the first c (empty when c does not occur). */
  function After(s: string, c: char): string {
    var f := From(s, c);
    if f == [] then [] else f[1..]
  }

  /** The part of s after its last c (all of s when c does not occur). */
  function AfterLast(s: string, c: char): (r: string)
    ensures c !in r
  {
    if s == [] then [] else if s[|s| - 1] == c then [] else AfterLast(s[..|s| - 1], c) + [s[|s| - 1]]
  }

  /** The three parts of a + b + c sit at their offsets. */
  lemma ThreeParts(a: string, b: string, c: string)
    ensures var s := a + b + c;
            && s[..|a|] == a && s[|a|..|a| + |b|] == b && s[|a| + |b|..] == c
            && a + b <= s
  {
  }

  /** When a has no c and b is empty or starts with c, the first c of a + b is where b starts. */
  lemma {:induction false} SplitAtBoundary(a: string, b: string, c: char)
    requires c !in a
    requires b == [] || b[0] == c
    ensures Before(a + b, c) == a && From(a + b, c) == b
  {
    if a != [] {
      assert (a + b)[1..] == a[1..] + b;
      SplitAtBoundary(a[1..], b, c);
    } else {
      assert a + b == b;
    }
  }

  /** When a has no c, what follows the first c of a + [c] + b is b. */
  lemma SplitAtFirst(a: string, b: string, c: char)
    requires c !in a
    ensures Before(a + [c] + b, c) == a && After(a + [c] + b, c) == b
  {
    assert a + [c] + b == a + ([c] + b);
    SplitAtBoundary(a, [c] + b, c);
  }

  /** When b has no c, what follows the last c of a + [c] + b is b. */
  lemma {:induction false} SplitAtLast(a: string, b: string, c: char)
    requires c !in b
    ensures AfterLast(a + [c] + b, c) == b
  {
    var s := a + [c] + b;
    if b != [] {
      assert s[..|s| - 1] == a + [c] + b[..|b| - 1];
      SplitAtLast(a, b[..|b| - 1], c);
      assert b == b[..|b| - 1] + [b[|b| - 1]];
    }
  }
}
