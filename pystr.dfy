/**
 * The Python string builtins the OAuth helper relies on: `str.find`,
 * slicing with a possibly negative bound, `str.replace` of a single
 * character and `str.join`.
 */
module PyStr {

  /** Number of occurrences of `c` in `s`. */
  function Count(s: string, c: char): (n: nat)
    ensures n <= |s|
    ensures n == 0 <==> c !in s
  {
    if s == [] then 0 else (if s[0] == c then 1 else 0) + Count(s[1..], c)
  }

  /** `s.find(c)`: the index of the first `c`, or -1 when there is none. */
  function Find(s: string, c: char): (i: int)
    ensures -1 <= i < |s|
    ensures i == -1 <==> c !in s
    ensures 0 <= i ==> s[i] == c && c !in s[..i]
  {
    if s == [] then -1
    else if s[0] == c then 0
    else
      var j := Find(s[1..], c);
      if j == -1 then -1
      else
        assert s[..j + 1] == [s[0]] + s[1..][..j];
        j + 1
  }

  /**
   * The position a Python slice bound `i` denotes in a string of length
   * `n`: a negative bound counts from the end, and both are clamped to
   * `0..n`. So `s[:i]` is `s[..SliceIndex(i, |s|)]` and `s[i:]` is
   * `s[SliceIndex(i, |s|)..]`.
   */
  function SliceIndex(i: int, n: nat): (k: nat)
    ensures k <= n
    ensures 0 <= i <= n ==> k == i
    ensures i < 0 <= n + i ==> k == n + i
    ensures n < i ==> k == n
    ensures n + i < 0 ==> k == 0
  {
    if i < 0 then (if n + i < 0 then 0 else n + i)
    else if i > n then n
    else i
  }

  /** `s.replace(c, t)` for a single character `c`. */
  function Replace(s: string, c: char, t: string): (r: string)
  {
    if s == [] then [] else (if s[0] == c then t else [s[0]]) + Replace(s[1..], c, t)
  }

  /** Replacing distributes over concatenation. */
  lemma {:induction false} ReplaceAppend(a: string, b: string, c: char, t: string)
    ensures Replace(a + b, c, t) == Replace(a, c, t) + Replace(b, c, t)
  {
    if a == [] {
      assert a + b == b;
    } else {
      assert (a + b)[1..] == a[1..] + b;
      ReplaceAppend(a[1..], b, c, t);
    }
  }

  /** Each replaced character grows the string by `|t| - 1`. */
  lemma {:induction false} ReplaceLength(s: string, c: char, t: string)
    ensures |Replace(s, c, t)| == |s| + (|t| - 1) * Count(s, c)
  {
    if s != [] {
      ReplaceLength(s[1..], c, t);
      var m, k := |t| - 1, Count(s[1..], c);
      assert |Replace(s[1..], c, t)| == |s| - 1 + m * k;
      if s[0] == c {
        assert Count(s, c) == k + 1 && m * (k + 1) == m * k + m;
        assert |Replace(s, c, t)| == |t| + |Replace(s[1..], c, t)|;
      } else {
        assert Count(s, c) == k;
        assert |Replace(s, c, t)| == 1 + |Replace(s[1..], c, t)|;
      }
    }
  }

  /** When the replacement does not contain `c`, no `c` survives. */
  lemma {:induction false} ReplaceRemoves(s: string, c: char, t: string)
    requires c !in t
    ensures c !in Replace(s, c, t)
  {
    if s != [] {
      ReplaceRemoves(s[1..], c, t);
    }
  }

  /** A string without `c` is left as it is. */
  lemma {:induction false} ReplaceAbsent(s: string, c: char, t: string)
    requires c !in s
    ensures Replace(s, c, t) == s
  {
    if s != [] {
      ReplaceAbsent(s[1..], c, t);
    }
  }

  /** Sum of the lengths of `parts`. */
  function TotalLength(parts: seq<string>): nat
  {
    if parts == [] then 0 else |parts[0]| + TotalLength(parts[1..])
  }

  /** `sep.join(parts)`. */
  function Join(sep: string, parts: seq<string>): (r: string)
    ensures parts == [] ==> r == ""
    ensures parts != [] ==> |r| == TotalLength(parts) + |sep| * (|parts| - 1)
    ensures parts != [] ==> r[..|parts[0]|] == parts[0]
  {
    if parts == [] then ""
    else if |parts| == 1 then parts[0]
    else parts[0] + sep + Join(sep, parts[1..])
  }

  /** Joining two non-empty lists puts one separator between their joins. */
  lemma {:induction false} JoinAppend(sep: string, a: seq<string>, b: seq<string>)
    requires a != [] && b != []
    ensures Join(sep, a + b) == Join(sep, a) + sep + Join(sep, b)
  {
    if |a| == 1 {
      assert (a + b)[1..] == b;
    } else {
      assert (a + b)[1..] == a[1..] + b;
      JoinAppend(sep, a[1..], b);
    }
  }
}
