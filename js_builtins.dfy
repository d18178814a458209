/** The pieces of the JavaScript standard library that the store directory leans on:
    `null` and optional properties, truthiness, `Array.prototype.filter`,
    `Array.from(new Set(xs))`, `String.prototype.toLowerCase` and
    `String.prototype.includes`, each given with the property a caller relies on. */
module JsBuiltins {

  /** `null`, or an optional property that is absent. */
  datatype Option<+T> = None | Some(value: T)

  /** `!!b` for an optional boolean: an absent flag is as falsy as `false`. */
  predicate Truthy(b: Option<bool>) {
    b == Some(true)
  }

  // ---------------------------------------------------------------------------
  // Subsequences

  /** `a` is obtained from `b` by deleting elements, keeping the order of the rest. */
  predicate IsSubsequence<T(==)>(a: seq<T>, b: seq<T>)
    decreases |b|
  {
    a == [] || (b != [] && ((a[0] == b[0] && IsSubsequence(a[1..], b[1..])) || IsSubsequence(a, b[1..])))
  }

  /** A subsequence invents nothing and duplicates nothing. */
  lemma {:induction false} SubsequenceMultiset<T>(a: seq<T>, b: seq<T>)
    requires IsSubsequence(a, b)
    ensures multiset(a) <= multiset(b)
  {
    if a == [] {
    } else if a[0] == b[0] && IsSubsequence(a[1..], b[1..]) {
      SubsequenceMultiset(a[1..], b[1..]);
      assert a == [a[0]] + a[1..];
      assert b == [b[0]] + b[1..];
    } else {
      SubsequenceMultiset(a, b[1..]);
      assert b == [b[0]] + b[1..];
    }
  }

  // ---------------------------------------------------------------------------
  // Array.prototype.filter

  /** `xs.filter(p)`: the elements of `xs` that pass `p`, in their original order. */
  function Filter<T(!new)>(xs: seq<T>, p: T -> bool): (r: seq<T>)
    ensures |r| <= |xs|
    ensures IsSubsequence(r, xs)
    ensures forall x :: x in r <==> x in xs && p(x)
    ensures forall x :: multiset(r)[x] == if p(x) then multiset(xs)[x] else 0
  {
    if xs == [] then []
    else
      assert xs == [xs[0]] + xs[1..];
      if p(xs[0]) then [xs[0]] + Filter(xs[1..], p)
      else Filter(xs[1..], p)
  }

  /** A filter whose predicate accepts every element returns its input unchanged. */
  lemma {:induction false} FilterKeepsAll<T(!new)>(xs: seq<T>, p: T -> bool)
    requires forall x :: x in xs ==> p(x)
    ensures Filter(xs, p) == xs
  {
    if xs != [] {
      FilterKeepsAll(xs[1..], p);
    }
  }

  /** A filter whose predicate rejects every element returns the empty sequence. */
  lemma FilterKeepsNone<T(!new)>(xs: seq<T>, p: T -> bool)
    requires forall x :: x in xs ==> !p(x)
    ensures Filter(xs, p) == []
  {
  }

  /** Two predicates that agree on every element give the same filter result. */
  lemma {:induction false} FilterCongruent<T(!new)>(xs: seq<T>, p: T -> bool, q: T -> bool)
    requires forall x :: x in xs ==> p(x) == q(x)
    ensures Filter(xs, p) == Filter(xs, q)
  {
    if xs != [] {
      FilterCongruent(xs[1..], p, q);
    }
  }

  /** Filtering by a stronger predicate keeps a subsequence of what the weaker one keeps. */
  lemma {:induction false} FilterAntitone<T(!new)>(xs: seq<T>, p: T -> bool, q: T -> bool)
    requires forall x :: x in xs && p(x) ==> q(x)
    ensures IsSubsequence(Filter(xs, p), Filter(xs, q))
  {
    if xs != [] {
      FilterAntitone(xs[1..], p, q);
      var rp, rq := Filter(xs[1..], p), Filter(xs[1..], q);
      if p(xs[0]) {
        assert ([xs[0]] + rp)[1..] == rp;
        assert ([xs[0]] + rq)[1..] == rq;
      } else if q(xs[0]) {
        assert ([xs[0]] + rq)[1..] == rq;
      }
    }
  }

  // ---------------------------------------------------------------------------
  // Array.from(new Set(xs))

  predicate NoDuplicates<T(==)>(xs: seq<T>) {
    forall i, j :: 0 <= i < j < |xs| ==> xs[i] != xs[j]
  }

  /** The position of the first occurrence of `x` in `xs`. */
  function FirstIndex<T(==)>(xs: seq<T>, x: T): (i: nat)
    requires x in xs
    ensures i < |xs| && xs[i] == x && x !in xs[..i]
  {
    if xs[0] == x then 0
    else
      var k := FirstIndex(xs[1..], x);
      assert xs[..k + 1] == [xs[0]] + xs[1..][..k];
      k + 1
  }

  /** In a prefix that already holds `x`, the first occurrence of `x` is where it is in the whole. */
  lemma FirstIndexInPrefix<T>(xs: seq<T>, n: nat, x: T)
    requires n <= |xs| && x in xs[..n]
    ensures FirstIndex(xs[..n], x) == FirstIndex(xs, x)
  {
  }

  /** `Array.from(new Set(xs))`: the distinct values of `xs`, in the order a `Set`
      keeps them, which is the order in which each value first appears. */
  function Distinct<T(==,!new)>(xs: seq<T>): (r: seq<T>)
    ensures NoDuplicates(r)
    ensures forall x :: x in r <==> x in xs
  {
    if xs == [] then []
    else
      var d := Distinct(xs[..|xs| - 1]);
      assert xs == xs[..|xs| - 1] + [xs[|xs| - 1]];
      if xs[|xs| - 1] in d then d else d + [xs[|xs| - 1]]
  }

  /** The values of `Distinct(xs)` are listed by increasing first occurrence in `xs`. */
  lemma {:induction false} DistinctInFirstOccurrenceOrder<T(!new)>(xs: seq<T>)
    ensures forall i, j :: 0 <= i < j < |Distinct(xs)| ==>
              FirstIndex(xs, Distinct(xs)[i]) < FirstIndex(xs, Distinct(xs)[j])
  {
    if xs != [] {
      var n := |xs| - 1;
      var prefix, last := xs[..n], xs[n];
      var d := Distinct(prefix);
      DistinctInFirstOccurrenceOrder(prefix);
      assert xs[..n] == prefix;
      forall x | x in d
        ensures FirstIndex(xs, x) == FirstIndex(prefix, x) < n
      {
        FirstIndexInPrefix(xs, n, x);
      }
      if last !in d {
        assert last !in xs[..n];
        assert FirstIndex(xs, last) == n;
        assert Distinct(xs) == d + [last];
      }
    }
  }

  // ---------------------------------------------------------------------------
  // String.prototype.toLowerCase and String.prototype.includes

  /** Lower-casing of one character, for the ASCII letters. */
  function ToLowerChar(c: char): char {
    if 'A' <= c <= 'Z' then (c as int - 'A' as int + 'a' as int) as char else c
  }

  predicate IsUpperAscii(c: char) {
    'A' <= c <= 'Z'
  }

  /** `s.toLowerCase()`, character by character. */
  function ToLowerCase(s: string): string {
    seq(|s|, i requires 0 <= i < |s| => ToLowerChar(s[i]))
  }

  /** Lower-casing leaves no upper-case letter and keeps the length. */
  lemma ToLowerCaseHasNoUpper(s: string)
    ensures |ToLowerCase(s)| == |s|
    ensures forall i :: 0 <= i < |s| ==> !IsUpperAscii(ToLowerCase(s)[i])
  {
  }

  /** Lower-casing twice is lower-casing once. */
  lemma ToLowerCaseIdempotent(s: string)
    ensures ToLowerCase(ToLowerCase(s)) == ToLowerCase(s)
  {
  }

  /** `t` occurs in `s` starting at position `i`. */
  predicate OccursAt(s: string, t: string, i: int) {
    0 <= i && i + |t| <= |s| && s[i..i + |t|] == t
  }

  lemma OccurrenceShift(s: string, t: string)
    requires s != [] && !OccursAt(s, t, 0)
    ensures (exists i :: OccursAt(s, t, i)) <==> (exists i :: OccursAt(s[1..], t, i))
  {
    if i :| OccursAt(s, t, i) {
      assert s[1..][i - 1..i - 1 + |t|] == s[i..i + |t|];
      assert OccursAt(s[1..], t, i - 1);
    }
    if i :| OccursAt(s[1..], t, i) {
      assert s[i + 1..i + 1 + |t|] == s[1..][i..i + |t|];
      assert OccursAt(s, t, i + 1);
    }
  }

  /** `s.includes(t)`: some window of `s` equals `t`. */
  function Includes(s: string, t: string): (b: bool)
    ensures b <==> exists i :: OccursAt(s, t, i)
  {
    if |t| > |s| then false
    else if s[..|t|] == t then
      assert OccursAt(s, t, 0);
      true
    else
      OccurrenceShift(s, t);
      Includes(s[1..], t)
  }

  /** Every string includes the empty string. */
  lemma IncludesEmpty(s: string)
    ensures Includes(s, "")
  {
    assert OccursAt(s, "", 0);
  }
}
