/**
 * The few JavaScript string operations the services rely on, stated on
 * `seq<char>`: `startsWith`, `indexOf`, `replace` of the first occurrence of a
 * literal, `split` on one character, `substring`, and ASCII case mapping.
 */
module Strings {
  import opened Wrappers

  predicate StartsWith(s: string, prefix: string) {
    |prefix| <= |s| && s[..|prefix|] == prefix
  }

  /** `p` occurs in `s` starting at index `i`. */
  predicate OccursAt(s: string, p: string, i: nat) {
    i + |p| <= |s| && s[i..i + |p|] == p
  }

  /** The first index at or after `k` where `p` occurs in `s`. */
  function IndexFrom(s: string, p: string, k: nat): (r: Option<nat>)
    decreases |s| - k
    ensures r.Some? ==> k <= r.value && OccursAt(s, p, r.value)
    ensures r.Some? ==> forall j: nat :: k <= j < r.value ==> !OccursAt(s, p, j)
    ensures r.None? ==> forall j: nat :: k <= j ==> !OccursAt(s, p, j)
  {
    if k + |p| > |s| then None
    else if s[k..k + |p|] == p then Some(k)
    else IndexFrom(s, p, k + 1)
  }

  /** `s.indexOf(p)`, with `None` for -1. */
  function IndexOf(s: string, p: string): Option<nat> {
    IndexFrom(s, p, 0)
  }

  /** `s.replace(p, '')`: removes the FIRST occurrence of `p`, wherever it is. */
  function RemoveFirst(s: string, p: string): (r: string)
    ensures IndexOf(s, p).None? ==> r == s
    ensures IndexOf(s, p).Some? ==> |r| == |s| - |p|
  {
    match IndexOf(s, p)
    case None => s
    case Some(i) => s[..i] + s[i + |p|..]
  }

  /** A prefix is the first occurrence of itself, so `replace` strips exactly that prefix. */
  lemma RemoveFirstOfPrefix(p: string, t: string)
    ensures IndexOf(p + t, p) == Some(0)
    ensures RemoveFirst(p + t, p) == t
  {
    assert (p + t)[0..|p|] == p;
    assert (p + t)[|p|..] == t;
  }

  /** A string without any occurrence of `p` is left as it is. */
  lemma RemoveFirstAbsent(s: string, p: string)
    requires forall j: nat :: !OccursAt(s, p, j)
    ensures RemoveFirst(s, p) == s
  {
  }

  /** The first index of character `c` in `s`. */
  function CharIndex(s: string, c: char): (r: Option<nat>)
    ensures r.Some? ==> r.value < |s| && s[r.value] == c && c !in s[..r.value]
    ensures r.None? <==> c !in s
  {
    if |s| == 0 then None
    else if s[0] == c then Some(0)
    else match CharIndex(s[1..], c)
      case None => None
      case Some(i) =>
        assert s[..i + 1] == [s[0]] + s[1..][..i];
        Some(i + 1)
  }

  lemma {:induction false} CharIndexAfter(a: string, c: char, b: string)
    requires c !in a
    ensures CharIndex(a + [c] + b, c) == Some(|a|)
  {
    if a != [] {
      assert (a + [c] + b)[1..] == a[1..] + [c] + b;
      CharIndexAfter(a[1..], c, b);
    }
  }

  /** `s.split(c)`: the fields between occurrences of `c`; there is always at least one. */
  function Split(s: string, c: char): (r: seq<string>)
    decreases |s|
    ensures |r| >= 1
    ensures forall k :: 0 <= k < |r| ==> c !in r[k]
  {
    match CharIndex(s, c)
    case None => [s]
    case Some(i) => [s[..i]] + Split(s[i + 1..], c)
  }

  /** Joining fields with the separator; the inverse of `Split`. */
  function Join(fields: seq<string>, c: char): string
    requires |fields| >= 1
  {
    if |fields| == 1 then fields[0] else fields[0] + [c] + Join(fields[1..], c)
  }

  lemma {:induction false} JoinSplit(s: string, c: char)
    decreases |s|
    ensures Join(Split(s, c), c) == s
  {
    match CharIndex(s, c)
    case None =>
    case Some(i) =>
      JoinSplit(s[i + 1..], c);
      assert Split(s, c)[1..] == Split(s[i + 1..], c);
      assert s == s[..i] + [c] + s[i + 1..];
  }

  /** `s.split(c)[1]`, which is `undefined` when `s` holds no `c`. */
  function SecondField(s: string, c: char): (r: Option<string>)
    ensures r.None? <==> c !in s
  {
    var fields := Split(s, c);
    if |fields| >= 2 then Some(fields[1])
    else
      assert CharIndex(s, c).None?;
      None
  }

  /** `scheme + " " + token` splits into exactly the scheme and the token. */
  lemma SecondFieldOfPair(scheme: string, c: char, token: string)
    requires c !in scheme && c !in token
    ensures Split(scheme + [c] + token, c) == [scheme, token]
    ensures SecondField(scheme + [c] + token, c) == Some(token)
  {
    var s := scheme + [c] + token;
    CharIndexAfter(scheme, c, token);
    assert s[..|scheme|] == scheme;
    assert s[|scheme| + 1..] == token;
  }

  predicate IsLowerAscii(ch: char) { 'a' <= ch <= 'z' }
  predicate IsUpperAscii(ch: char) { 'A' <= ch <= 'Z' }

  function UpperChar(ch: char): char {
    if IsLowerAscii(ch) then (ch as int - 32) as char else ch
  }

  function LowerChar(ch: char): char {
    if IsUpperAscii(ch) then (ch as int + 32) as char else ch
  }

  /** `toUpperCase` on the ASCII letters; every other character is kept. */
  function ToUpperAscii(s: string): (r: string)
    ensures |r| == |s|
    ensures forall i :: 0 <= i < |r| ==> !IsLowerAscii(r[i])
    ensures forall i :: 0 <= i < |s| && !IsLowerAscii(s[i]) ==> r[i] == s[i]
    ensures forall i :: 0 <= i < |s| && IsLowerAscii(s[i]) ==> r[i] == (s[i] as int - 32) as char
  {
    seq(|s|, i requires 0 <= i < |s| => UpperChar(s[i]))
  }

  /** `toLowerCase` on the ASCII letters; every other character is kept. */
  function ToLowerAscii(s: string): (r: string)
    ensures |r| == |s|
    ensures forall i :: 0 <= i < |r| ==> !IsUpperAscii(r[i])
    ensures forall i :: 0 <= i < |s| && !IsUpperAscii(s[i]) ==> r[i] == s[i]
    ensures forall i :: 0 <= i < |s| && IsUpperAscii(s[i]) ==> r[i] == (s[i] as int + 32) as char
  {
    seq(|s|, i requires 0 <= i < |s| => LowerChar(s[i]))
  }

  /** Upper-casing twice is upper-casing once. */
  lemma ToUpperIdempotent(s: string)
    ensures ToUpperAscii(ToUpperAscii(s)) == ToUpperAscii(s)
  {
  }

  /** `s.substring(0, n)`: at most the first `n` characters. */
  function Take(s: string, n: nat): (r: string)
    ensures |r| == Min(n, |s|)
    ensures StartsWith(s, r)
  {
    if n <= |s| then s[..n] else s
  }
}
