/** The few string operations the topic handling relies on: Python's
    `str.split(sep, 1)`, Java's `String.split(regex, 2)` with a one-character
    separator, and substring search. */
module Strings {
  import opened Values

  /** Position of the first `c` in `s`, if any. */
  function IndexOf(s: string, c: char): (r: Option<nat>)
    ensures r.None? <==> c !in s
    ensures r.Some? ==> r.value < |s| && s[r.value] == c && c !in s[..r.value]
  {
    if |s| == 0 then None
    else if s[0] == c then Some(0)
    else
      match IndexOf(s[1..], c)
      case None => None
      case Some(i) =>
        assert s[1..][..i] == s[1..i + 1];
        Some(i + 1)
  }

  /** `s.split(c, 1)` when it has two parts: the text before the first `c`
      and the text after it. None when `c` does not occur. */
  function SplitOnce(s: string, c: char): (r: Option<(string, string)>)
    ensures r.None? <==> c !in s
    ensures r.Some? ==> s == r.value.0 + [c] + r.value.1 && c !in r.value.0
  {
    match IndexOf(s, c)
    case None => None
    case Some(i) =>
      assert s == s[..i] + [c] + s[i + 1..];
      Some((s[..i], s[i + 1..]))
  }

  /** `s.split(c, 1)[0]`: everything before the first `c`, or all of `s`. */
  function Head(s: string, c: char): (r: string)
    ensures c !in r
    ensures c !in s ==> r == s
    ensures c in s ==> exists rest :: s == r + [c] + rest
  {
    match SplitOnce(s, c)
    case None => s
    case Some(parts) => parts.0
  }

  /** Whether `sub` occurs in `s` (Python's `sub in s`). */
  predicate Occurs(sub: string, s: string)
    decreases |s|
  {
    (|sub| <= |s| && s[..|sub|] == sub) || (|s| > 0 && Occurs(sub, s[1..]))
  }

  /** A prefix always occurs. */
  lemma OccursPrefix(sub: string, rest: string)
    ensures Occurs(sub, sub + rest)
  {
    assert (sub + rest)[..|sub|] == sub;
  }

  /** Splitting at the first `c` and joining the halves again gives back the
      same parts, whatever the second half holds. */
  lemma {:induction false} SplitOnceJoin(a: string, c: char, b: string)
    requires c !in a
    ensures SplitOnce(a + [c] + b, c) == Some((a, b))
  {
    var s := a + [c] + b;
    IndexOfAfter(a, c, b);
    assert s[..|a|] == a;
    assert s[|a| + 1..] == b;
  }

  /** The first `c` of `a + [c] + b` is at position |a| when `a` has none. */
  lemma {:induction false} IndexOfAfter(a: string, c: char, b: string)
    requires c !in a
    ensures IndexOf(a + [c] + b, c) == Some(|a|)
  {
    if |a| > 0 {
      assert (a + [c] + b)[1..] == a[1..] + [c] + b;
      IndexOfAfter(a[1..], c, b);
    }
  }
}
