/** Helpers on sequences of keys, for modelling Python dicts: their keys
    keep insertion order, and deleting keys keeps the others in order. */
module Seqs {

  ghost predicate Distinct<T>(s: seq<T>)
  {
    forall i, j :: 0 <= i < j < |s| ==> s[i] != s[j]
  }

  /** `s` with every element of `xs` removed, the rest in their order. */
  function Without(s: seq<string>, xs: set<string>): (r: seq<string>)
    ensures forall x :: x in r <==> x in s && x !in xs
    ensures |r| <= |s|
    ensures Distinct(s) ==> Distinct(r)
  {
    if s == [] then []
    else if s[0] in xs then Without(s[1..], xs)
    else
      var t := Without(s[1..], xs);
      assert Distinct(s) ==> s[0] !in s[1..] && Distinct(s[1..]);
      [s[0]] + t
  }

  /** Removing nothing keeps the sequence. */
  lemma {:induction false} WithoutNothing(s: seq<string>)
    ensures Without(s, {}) == s
  {
    if s != [] {
      WithoutNothing(s[1..]);
    }
  }

  /** Removing the elements of `xs` and then those of `ys` removes both. */
  lemma {:induction false} WithoutWithout(s: seq<string>, xs: set<string>, ys: set<string>)
    ensures Without(Without(s, xs), ys) == Without(s, xs + ys)
  {
    if s != [] {
      WithoutWithout(s[1..], xs, ys);
    }
  }

  /** The elements of a sequence, as a set. */
  function Elements(s: seq<string>): set<string>
  {
    set x | x in s
  }

  /** Appending an element that is not present keeps a sequence duplicate-free. */
  lemma AppendDistinct(s: seq<string>, x: string)
    requires Distinct(s) && x !in s
    ensures Distinct(s + [x])
  {
  }
}
