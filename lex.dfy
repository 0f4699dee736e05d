/** Code-point order on strings: the order Python's `list.sort()` uses for
    `str`, and (because UTF-8 preserves code-point order) the byte order in
    which leveldb iterates the keys of a prefixed partition. */
module Lex {

  /** `a <= b` in lexicographic code-point order. */
  predicate Below(a: string, b: string)
  {
    |a| == 0 || (|b| > 0 && (a[0] < b[0] || (a[0] == b[0] && Below(a[1..], b[1..]))))
  }

  lemma {:induction false} BelowRefl(a: string)
    ensures Below(a, a)
  {
    if |a| > 0 {
      BelowRefl(a[1..]);
    }
  }

  lemma {:induction false} BelowAntisym(a: string, b: string)
    requires Below(a, b) && Below(b, a)
    ensures a == b
  {
    if |a| > 0 && |b| > 0 {
      BelowAntisym(a[1..], b[1..]);
      assert a == [a[0]] + a[1..] && b == [b[0]] + b[1..];
    }
  }

  lemma {:induction false} BelowTrans(a: string, b: string, c: string)
    requires Below(a, b) && Below(b, c)
    ensures Below(a, c)
  {
    if |a| > 0 && |b| > 0 && |c| > 0 && a[0] == b[0] == c[0] {
      BelowTrans(a[1..], b[1..], c[1..]);
    }
  }

  lemma {:induction false} BelowTotal(a: string, b: string)
    ensures Below(a, b) || Below(b, a)
  {
    if |a| > 0 && |b| > 0 && a[0] == b[0] {
      BelowTotal(a[1..], b[1..]);
    }
  }

  /** Non-decreasing in code-point order. */
  ghost predicate Sorted(s: seq<string>)
  {
    forall i, j :: 0 <= i < j < |s| ==> Below(s[i], s[j])
  }

  /** Every element of `s` is at or above `m`. */
  ghost predicate LowerBound(m: string, s: seq<string>)
  {
    forall i :: 0 <= i < |s| ==> Below(m, s[i])
  }

  lemma LowerBoundOfPermutation(m: string, s: seq<string>, t: seq<string>)
    requires LowerBound(m, s) && multiset(s) == multiset(t)
    ensures LowerBound(m, t)
  {
    forall i | 0 <= i < |t|
      ensures Below(m, t[i])
    {
      assert t[i] in multiset(s);
      var j :| 0 <= j < |s| && s[j] == t[i];
    }
  }

  lemma LowerBoundBelowHead(m: string, s: seq<string>)
    requires Sorted(s) && s != [] && Below(m, s[0])
    ensures LowerBound(m, s)
  {
    forall i | 0 <= i < |s|
      ensures Below(m, s[i])
    {
      if i > 0 {
        BelowTrans(m, s[0], s[i]);
      }
    }
  }

  /** A lower bound of a sorted sequence can be put in front of it. */
  lemma PrependSorted(m: string, s: seq<string>)
    requires Sorted(s) && LowerBound(m, s)
    ensures Sorted([m] + s)
  {
    forall i, j | 0 <= i < j < |[m] + s|
      ensures Below(([m] + s)[i], ([m] + s)[j])
    {
      if i > 0 {
        assert ([m] + s)[i] == s[i - 1] && ([m] + s)[j] == s[j - 1];
      }
    }
  }

  /** The step of `Insert` that goes past the head: the head is a lower
      bound of the rest with `x` inserted. */
  lemma InsertPastHead(x: string, s: seq<string>, t: seq<string>)
    requires Sorted(s) && s != [] && !Below(x, s[0])
    requires Sorted(t) && multiset(t) == multiset(s[1..]) + multiset{x}
    ensures Sorted([s[0]] + t)
    ensures multiset([s[0]] + t) == multiset(s) + multiset{x}
  {
    assert s == [s[0]] + s[1..];
    BelowTotal(x, s[0]);
    BelowRefl(s[0]);
    LowerBoundBelowHead(s[0], s);
    assert LowerBound(s[0], s[1..] + [x]);
    LowerBoundOfPermutation(s[0], s[1..] + [x], t);
    PrependSorted(s[0], t);
  }

  /** Inserts `x` before the first element it is below. */
  function Insert(x: string, s: seq<string>): (r: seq<string>)
    requires Sorted(s)
    ensures Sorted(r)
    ensures multiset(r) == multiset(s) + multiset{x}
  {
    if s == [] then [x]
    else if Below(x, s[0]) then
      LowerBoundBelowHead(x, s);
      PrependSorted(x, s);
      [x] + s
    else
      var t := Insert(x, s[1..]);
      InsertPastHead(x, s, t);
      [s[0]] + t
  }

  /** Insertion sort: the order `list.sort()` leaves a list of `str` in. */
  function Sort(s: seq<string>): (r: seq<string>)
    ensures Sorted(r)
    ensures multiset(r) == multiset(s)
  {
    if s == [] then []
    else
      assert s == [s[0]] + s[1..];
      Insert(s[0], Sort(s[1..]))
  }

  lemma HeadIsLeast(a: seq<string>, x: string)
    requires Sorted(a) && x in multiset(a)
    ensures Below(a[0], x)
  {
    var i :| 0 <= i < |a| && a[i] == x;
    if i == 0 { BelowRefl(x); }
  }

  lemma TailMultiset(a: seq<string>)
    requires a != []
    ensures multiset(a[1..]) == multiset(a) - multiset{a[0]}
  {
    assert a == [a[0]] + a[1..];
  }

  lemma SortedTail(a: seq<string>)
    requires Sorted(a) && a != []
    ensures Sorted(a[1..])
  {
    forall i, j | 0 <= i < j < |a[1..]|
      ensures Below(a[1..][i], a[1..][j])
    {
      assert a[1..][i] == a[i + 1] && a[1..][j] == a[j + 1];
    }
  }

  lemma SameHeadSameTail(a: seq<string>, b: seq<string>)
    requires a != [] && b != [] && a[0] == b[0] && a[1..] == b[1..]
    ensures a == b
  {
    assert a == [a[0]] + a[1..] && b == [b[0]] + b[1..];
  }

  /** Two sorted arrangements of the same strings are the same sequence, so
      the result of sorting depends only on the multiset sorted. */
  lemma {:induction false} SortedUnique(a: seq<string>, b: seq<string>)
    requires Sorted(a) && Sorted(b) && multiset(a) == multiset(b)
    ensures a == b
  {
    if a == [] || b == [] {
      assert |a| == |multiset(a)| == |multiset(b)| == |b|;
    } else {
      HeadIsLeast(b, a[0]);
      HeadIsLeast(a, b[0]);
      BelowAntisym(a[0], b[0]);
      TailMultiset(a);
      TailMultiset(b);
      SortedTail(a);
      SortedTail(b);
      SortedUnique(a[1..], b[1..]);
      SameHeadSameTail(a, b);
    }
  }

  /** Sorting is insensitive to the order of its input. */
  lemma SortOrderFree(s: seq<string>, t: seq<string>)
    requires multiset(s) == multiset(t)
    ensures Sort(s) == Sort(t)
  {
    SortedUnique(Sort(s), Sort(t));
  }

  /** Every finite non-empty set of strings has a least element. */
  lemma {:induction false} LeastExists(s: set<string>) returns (m: string)
    requires s != {}
    ensures m in s && forall x :: x in s ==> Below(m, x)
  {
    var y :| y in s;
    if s == {y} {
      m := y;
      BelowRefl(y);
    } else {
      var m' := LeastExists(s - {y});
      BelowTotal(y, m');
      if Below(y, m') {
        m := y;
        forall x | x in s ensures Below(m, x) {
          if x == y { BelowRefl(y); } else { BelowTrans(y, m', x); }
        }
      } else {
        m := m';
      }
    }
  }
}
