/** Shared value types and JavaScript string helpers used by every module. */
module Common {

  /** A value that may be absent (JavaScript `undefined`). */
  datatype Option<+T> = None | Some(value: T)

  /** The outcome of an operation that may throw. */
  datatype Result<+T> = Ok(value: T) | Throws(message: string)

  predicate StartsWith(s: string, prefix: string)
  {
    |prefix| <= |s| && s[..|prefix|] == prefix
  }

  predicate EndsWith(s: string, suffix: string)
  {
    |suffix| <= |s| && s[|s| - |suffix|..] == suffix
  }

  /** JavaScript `s.substr(0, n)`: at most the first `n` characters. */
  function Prefix(s: string, n: nat): (r: string)
    ensures |r| == if n <= |s| then n else |s|
    ensures StartsWith(s, r)
  {
    if n <= |s| then s[..n] else s
  }

  /** JavaScript `s.substr(n)` for a non-negative `n`. */
  function DropPrefix(s: string, n: nat): (r: string)
    ensures |r| == if n <= |s| then |s| - n else 0
    ensures n <= |s| ==> s == s[..n] + r
  {
    if n <= |s| then s[n..] else ""
  }

  /** The decimal digit for `d`. */
  function DigitChar(d: nat): (c: char)
    requires d < 10
    ensures '0' <= c <= '9'
  {
    "0123456789"[d]
  }

  /** JavaScript `i.toString()` for a non-negative integer. */
  function NatToString(n: nat): (r: string)
    ensures |r| > 0
    ensures forall k :: 0 <= k < |r| ==> '0' <= r[k] <= '9'
  {
    if n < 10 then [DigitChar(n)] else NatToString(n / 10) + [DigitChar(n % 10)]
  }

  /** JavaScript `toUpperCase` restricted to ASCII letters. */
  function UpperChar(c: char): char
  {
    if 'a' <= c <= 'z' then (c as int - 32) as char else c
  }

  function ToUpper(s: string): (r: string)
    ensures |r| == |s|
    ensures forall k :: 0 <= k < |s| ==> r[k] == UpperChar(s[k])
  {
    if s == [] then [] else [UpperChar(s[0])] + ToUpper(s[1..])
  }

  /** `parts.join(sep)`. */
  function Join(parts: seq<string>, sep: string): (r: string)
    ensures parts == [] ==> r == ""
    ensures |parts| == 1 ==> r == parts[0]
  {
    if parts == [] then ""
    else if |parts| == 1 then parts[0]
    else parts[0] + sep + Join(parts[1..], sep)
  }

  lemma JoinAppend(parts: seq<string>, sep: string, last: string)
    requires parts != []
    ensures Join(parts + [last], sep) == Join(parts, sep) + sep + last
  {
    if |parts| == 1 {
      assert parts + [last] == [parts[0], last];
    } else {
      assert (parts + [last])[1..] == parts[1..] + [last];
      JoinAppend(parts[1..], sep, last);
    }
  }

  /** The head and tail of a sequence built by prepending. */
  lemma ConsParts<T>(x: T, s: seq<T>)
    ensures ([x] + s)[0] == x && ([x] + s)[1..] == s
  {
  }

  /** What is in either part is in the concatenation. */
  lemma InAppend<T>(x: T, a: seq<T>, b: seq<T>)
    requires x in a || x in b
    ensures x in a + b
  {
  }

  /** `f` of each of the first `n` elements of `xs`, concatenated in order. */
  function FlatMap<T, U>(f: T -> seq<U>, xs: seq<T>, n: nat): seq<U>
    requires n <= |xs|
  {
    if n == 0 then [] else FlatMap(f, xs, n - 1) + f(xs[n - 1])
  }

  /** What `f` gives for one of the first `n` elements is in their concatenation. */
  lemma {:induction false} FlatMapHas<T, U>(f: T -> seq<U>, xs: seq<T>, n: nat, i: nat, x: U)
    requires i < n <= |xs| && x in f(xs[i])
    ensures x in FlatMap(f, xs, n)
  {
    if i < n - 1 {
      FlatMapHas(f, xs, n - 1, i, x);
    }
  }

  /** Everything in the concatenation comes from `f` of one of the first `n` elements. */
  lemma {:induction false} FlatMapFrom<T, U>(f: T -> seq<U>, xs: seq<T>, n: nat, x: U)
    requires n <= |xs| && x in FlatMap(f, xs, n)
    ensures exists i :: 0 <= i < n && x in f(xs[i])
  {
    if x !in f(xs[n - 1]) {
      FlatMapFrom(f, xs, n - 1, x);
    }
  }

  /** A prefix is the shorter prefix and its last element. */
  lemma PrefixSnoc<T>(s: seq<T>, n: nat)
    requires 0 < n <= |s|
    ensures s[..n] == s[..n - 1] + [s[n - 1]]
  {
  }

  /** Concatenation regroups; stated once so that long concatenations need not be re-associated by the solver. */
  lemma AppendAssociates<T>(a: seq<T>, b: seq<T>, c: seq<T>)
    ensures a + (b + c) == (a + b) + c
  {
  }
}
